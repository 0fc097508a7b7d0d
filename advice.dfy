/** Coach feedback: the value shown beside the chat, and the parser for the
    `"comment | tag1,tag2"` reply format the coaching prompt asks the backend
    to use. */
module Advice {
  import opened Text

  /** The `coachAdvice` state: a short comment and its tags. */
  datatype CoachAdvice = CoachAdvice(text: string, tags: seq<string>)

  /** Shown before the first turn has been coached. */
  const InitialAdvice := CoachAdvice("点击开始对话，我将为您提供实时指导。", [])

  /** `parts.map(t => t.trim())`: one piece per part, each that part with
      its surrounding whitespace removed. */
  function TrimEach(parts: seq<string>): (r: seq<string>)
    ensures |r| == |parts|
    ensures forall k :: 0 <= k < |r| ==> IsTrimOf(r[k], parts[k])
  {
    var r := seq(|parts|, k requires 0 <= k < |parts| => Trim(parts[k]));
    assert forall k :: 0 <= k < |r| ==> IsTrimOf(r[k], parts[k]) by {
      forall k | 0 <= k < |r| ensures IsTrimOf(r[k], parts[k]) {
        TrimIsTrimOf(parts[k]);
      }
    }
    r
  }

  /** What the backend is asked to reply with: a comment, `" | "`, and the
      tags separated by commas. */
  function FormatAdvice(comment: string, tags: seq<string>): string {
    comment + " | " + Join(tags, ',')
  }

  /** Splits a raw coaching reply into its comment and tags: the comment is
      the text before the first `|`, trimmed; the tags are the text between
      the first and second `|`, split at every comma and trimmed piece by
      piece; when there is no `|`, or nothing at all follows it, there are no
      tags; whatever follows a second `|` is dropped. */
  function ParseAdvice(raw: string): (a: CoachAdvice)
    ensures '|' !in raw ==> a == CoachAdvice(Trim(raw), [])
    ensures '|' in raw ==> a.text == Trim(raw[..IndexOf(raw, '|')])
    ensures IsTrimmed(a.text) && '|' !in a.text
    ensures forall k :: 0 <= k < |a.tags| ==>
              IsTrimmed(a.tags[k]) && ',' !in a.tags[k] && '|' !in a.tags[k]
  {
    var segments := Split(raw, '|');
    var tags := if |segments| >= 2 && segments[1] != [] then TrimEach(Split(segments[1], ',')) else [];
    var a := CoachAdvice(Trim(segments[0]), tags);
    assert '|' in raw ==> a.text == Trim(raw[..IndexOf(raw, '|')]) by {
      if '|' in raw {
        var i := IndexOf(raw, '|');
        assert raw == raw[..i] + ['|'] + raw[i + 1..];
        SplitAtFirst(raw[..i], '|', raw[i + 1..]);
      }
    }
    TrimmedPieces(segments, tags, a.text);
    a
  }

  /** The comment and the tags inherit "no separator" from the pieces they
      were trimmed from. */
  lemma TrimmedPieces(segments: seq<string>, tags: seq<string>, text: string)
    requires |segments| >= 1 && forall k :: 0 <= k < |segments| ==> '|' !in segments[k]
    requires text == Trim(segments[0])
    requires tags == if |segments| >= 2 && segments[1] != [] then TrimEach(Split(segments[1], ',')) else []
    ensures IsTrimmed(text) && '|' !in text
    ensures forall k :: 0 <= k < |tags| ==> IsTrimmed(tags[k]) && ',' !in tags[k] && '|' !in tags[k]
  {
    NotInTrim(segments[0], '|');
    if |segments| >= 2 && segments[1] != [] {
      var pieces := Split(segments[1], ',');
      forall k | 0 <= k < |tags|
        ensures IsTrimmed(tags[k]) && ',' !in tags[k] && '|' !in tags[k]
      {
        if '|' in pieces[k] { InJoin(pieces, ',', k, '|'); }
        NotInTrim(pieces[k], ',');
        NotInTrim(pieces[k], '|');
      }
    }
  }

  /** Trimming removes characters, it never adds one. */
  lemma NotInTrim(s: string, c: char)
    requires c !in s
    ensures c !in Trim(s)
  {
    if Trim(s) != [] {
      NotInSlice(s, SkipForward(s, 0), SkipBackward(s, |s|), c);
    }
  }

  lemma NotInSlice(s: string, i: int, j: int, c: char)
    requires 0 <= i <= j <= |s| && c !in s
    ensures c !in s[i..j]
  {
    var t := s[i..j];
    forall k | 0 <= k < |t| ensures t[k] != c {
      assert t[k] == s[i + k];
    }
  }

  /** A character other than the separator occurs in a join only if it occurs
      in one of the parts. */
  lemma {:induction false} NotInJoin(parts: seq<string>, sep: char, c: char)
    requires c != sep && forall k :: 0 <= k < |parts| ==> c !in parts[k]
    ensures c !in Join(parts, sep)
    decreases |parts|
  {
    if |parts| > 1 {
      NotInJoin(parts[1..], sep, c);
    }
  }

  /** Prefixing a join prefixes its first part. */
  lemma JoinPrefixed(x: string, parts: seq<string>, sep: char)
    requires |parts| >= 1
    ensures x + Join(parts, sep) == Join([x + parts[0]] + parts[1..], sep)
  {
    var q := [x + parts[0]] + parts[1..];
    assert q[1..] == parts[1..];
  }

  /** The pieces of a tag segment `" tag1,tag2,..."`: the first tag carries
      the space that followed the bar. */
  function PaddedTags(tags: seq<string>): seq<string>
    requires |tags| >= 1
  {
    [" " + tags[0]] + tags[1..]
  }

  lemma PaddedTagsJoin(tags: seq<string>)
    requires |tags| >= 1
    requires forall k :: 0 <= k < |tags| ==> ',' !in tags[k]
    ensures Join(PaddedTags(tags), ',') == " " + Join(tags, ',')
    ensures forall k :: 0 <= k < |tags| ==> ',' !in PaddedTags(tags)[k]
  {
    JoinPrefixed(" ", tags, ',');
  }

  lemma PaddedTagsTrim(tags: seq<string>)
    requires |tags| >= 1
    requires forall k :: 0 <= k < |tags| ==> IsTrimmed(tags[k])
    ensures TrimEach(PaddedTags(tags)) == tags
  {
    var pieces, trimmed := PaddedTags(tags), TrimEach(PaddedTags(tags));
    assert |pieces| == |tags| && pieces[0] == " " + tags[0];
    assert forall k :: 1 <= k < |tags| ==> pieces[k] == tags[k];
    TrimPadded(" ", tags[0], []);
    assert " " + tags[0] + [] == pieces[0];
    forall k | 1 <= k < |tags| ensures trimmed[k] == tags[k] {
      TrimTrimmed(tags[k]);
    }
  }

  /** The tag segment of a well-formed reply splits and trims back into the
      tags. */
  lemma TagSegmentRoundTrip(tags: seq<string>)
    requires |tags| >= 1
    requires forall k :: 0 <= k < |tags| ==> IsTrimmed(tags[k]) && ',' !in tags[k]
    ensures TrimEach(Split(" " + Join(tags, ','), ',')) == tags
  {
    PaddedTagsJoin(tags);
    SplitJoin(PaddedTags(tags), ',');
    PaddedTagsTrim(tags);
  }

  lemma TwoSegments(head: string, tail: string)
    requires '|' !in head && '|' !in tail
    ensures Split(head + "|" + tail, '|') == [head, tail]
  {
    assert Split(tail, '|') == [tail];
    SplitAtFirst(head, '|', tail);
  }

  lemma FormatShape(comment: string, tags: seq<string>)
    ensures FormatAdvice(comment, tags) == (comment + " ") + "|" + (" " + Join(tags, ','))
  {
  }

  /** A well-formed reply has exactly two `|`-segments: the comment with the
      space before the bar, and the tags with the space after it. */
  lemma FormatSegments(comment: string, tags: seq<string>)
    requires '|' !in comment
    requires forall k :: 0 <= k < |tags| ==> '|' !in tags[k]
    ensures Split(FormatAdvice(comment, tags), '|') == [comment + " ", " " + Join(tags, ',')]
  {
    NotInJoin(tags, ',', '|');
    TwoSegments(comment + " ", " " + Join(tags, ','));
    FormatShape(comment, tags);
  }

  lemma CommentPadded(comment: string)
    requires IsTrimmed(comment)
    ensures Trim(comment + " ") == comment
  {
    TrimPadded([], comment, " ");
    assert [] + comment + " " == comment + " ";
  }

  /** Parsing recovers a comment and tags written in the requested format,
      provided each is already trimmed and free of the separators. */
  lemma AdviceRoundTrip(comment: string, tags: seq<string>)
    requires IsTrimmed(comment) && '|' !in comment
    requires |tags| >= 1
    requires forall k :: 0 <= k < |tags| ==> IsTrimmed(tags[k]) && ',' !in tags[k] && '|' !in tags[k]
    ensures ParseAdvice(FormatAdvice(comment, tags)) == CoachAdvice(comment, tags)
  {
    FormatSegments(comment, tags);
    CommentPadded(comment);
    TagSegmentRoundTrip(tags);
  }

  /** A two-tag reply in the format the coaching prompt requests parses into
      its comment and its tags. */
  lemma ParseExample()
    ensures ParseAdvice("做得很好 | 同理心,效率") == CoachAdvice("做得很好", ["同理心", "效率"])
  {
    var tags := ["同理心", "效率"];
    assert Join(tags, ',') == "同理心,效率" by {
      assert tags[1..] == ["效率"];
    }
    assert FormatAdvice("做得很好", tags) == "做得很好 | 同理心,效率";
    AdviceRoundTrip("做得很好", tags);
  }

  lemma Regroup(first: string, second: string, rest: string)
    ensures first + "|" + second + "|" + rest == first + "|" + (second + "|" + rest)
  {
  }

  lemma ThreeSegments(first: string, second: string, rest: string)
    requires '|' !in first && '|' !in second
    ensures Split(first + "|" + second + "|" + rest, '|') == [first, second] + Split(rest, '|')
  {
    var tail := second + "|" + rest;
    SplitAtFirst(second, '|', rest);
    SplitAtFirst(first, '|', tail);
    Regroup(first, second, rest);
  }

  /** Only the first two `|`-segments are read. */
  lemma ExtraSegmentsIgnored(first: string, second: string, rest: string)
    requires '|' !in first && '|' !in second
    ensures ParseAdvice(first + "|" + second + "|" + rest) == ParseAdvice(first + "|" + second)
  {
    ThreeSegments(first, second, rest);
    TwoSegments(first, second);
  }

  lemma BarLast(first: string)
    requires '|' !in first
    ensures Split(first + "|", '|') == [first, ""]
  {
    SplitAtFirst(first, '|', []);
    assert first + "|" == first + ['|'] + [];
  }

  /** The tags of a reply with one `|` are the text after it, split at every
      comma and trimmed piece by piece, or none when nothing follows the bar.
      With `ExtraSegmentsIgnored` this gives the tags of every reply. */
  lemma TagsOfSegment(first: string, second: string)
    requires '|' !in first && '|' !in second
    ensures ParseAdvice(first + "|" + second).tags
            == (if second == [] then [] else TrimEach(Split(second, ',')))
  {
    TwoSegments(first, second);
  }

  /** An empty second segment yields no tags. */
  lemma EmptyTagSegment(first: string)
    requires '|' !in first
    ensures ParseAdvice(first + "|") == CoachAdvice(Trim(first), [])
  {
    BarLast(first);
  }

  /** A second segment of whitespace only is not empty, so it yields one
      empty tag rather than none. */
  lemma BlankTagSegment(first: string, blank: string)
    requires '|' !in first && blank != [] && AllWhitespace(blank)
    ensures ParseAdvice(first + "|" + blank) == CoachAdvice(Trim(first), [""])
  {
    assert '|' !in blank && ',' !in blank;
    TwoSegments(first, blank);
    BlankIffAllWhitespace(blank);
  }
}
