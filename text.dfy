/** The two JavaScript string operations the session logic relies on:
    `String.prototype.trim` and `String.prototype.split` with a one-character
    separator, stated over `seq<char>`. */
module Text {

  /** The characters ECMAScript's `trim` removes: WhiteSpace (tab, vertical tab,
      form feed, space, no-break space, the byte-order mark and every other
      "Space_Separator" character: U+1680, U+2000 to U+200A, U+202F, U+205F,
      U+3000) and LineTerminator (LF, CR, LS, PS). */
  predicate IsWhitespace(c: char) {
    || ('\t' <= c <= '\r')
    || c == ' ' || c == '\U{A0}' || c == '\U{1680}'
    || ('\U{2000}' <= c <= '\U{200A}')
    || c == '\U{2028}' || c == '\U{2029}' || c == '\U{202F}' || c == '\U{205F}'
    || c == '\U{3000}' || c == '\U{FEFF}'
  }

  ghost predicate AllWhitespace(s: string) {
    forall k :: 0 <= k < |s| ==> IsWhitespace(s[k])
  }

  /** Neither end of `t` is whitespace. */
  predicate IsTrimmed(t: string) {
    t == [] || (!IsWhitespace(t[0]) && !IsWhitespace(t[|t| - 1]))
  }

  /** `r` sits at position `i` of `s` with only whitespace before and after it. */
  ghost predicate TrimAt(r: string, s: string, i: int) {
    && 0 <= i <= |s| - |r| && s[i..i + |r|] == r
    && AllWhitespace(s[..i]) && AllWhitespace(s[i + |r|..])
  }

  /** `r` is what is left of `s` once its leading and trailing whitespace are
      removed: a slice of `s` with only whitespace around it, and with no
      whitespace at either end. */
  ghost predicate IsTrimOf(r: string, s: string) {
    IsTrimmed(r) && exists i :: TrimAt(r, s, i)
  }

  /** Where the whitespace that starts `s[i..]` ends. */
  function SkipForward(s: string, i: nat): (n: nat)
    requires i <= |s|
    ensures i <= n <= |s| && (n < |s| ==> !IsWhitespace(s[n]))
    ensures forall k :: i <= k < n ==> IsWhitespace(s[k])
    decreases |s| - i
  {
    if i < |s| && IsWhitespace(s[i]) then SkipForward(s, i + 1) else i
  }

  /** Where the whitespace that ends `s[..j]` begins. */
  function SkipBackward(s: string, j: nat): (n: nat)
    requires j <= |s|
    ensures n <= j && (n > 0 ==> !IsWhitespace(s[n - 1]))
    ensures forall k :: n <= k < j ==> IsWhitespace(s[k])
  {
    if j > 0 && IsWhitespace(s[j - 1]) then SkipBackward(s, j - 1) else j
  }

  /** `s.trim()`: what lies between the leading and the trailing whitespace. */
  function Trim(s: string): (r: string)
    ensures |r| <= |s| && IsTrimmed(r)
  {
    var i := SkipForward(s, 0);
    if i == |s| then []
    else
      var j := SkipBackward(s, |s|);
      assert i < j;
      s[i..j]
  }

  /** `trim` removes the leading and trailing whitespace and nothing else. */
  lemma TrimIsTrimOf(s: string)
    ensures IsTrimOf(Trim(s), s)
  {
    var i := SkipForward(s, 0);
    if i == |s| {
      assert s[i..i] == [] && s[..i] == s;
      assert TrimAt([], s, i);
    } else {
      var j := SkipBackward(s, |s|);
      assert TrimAt(s[i..j], s, i);
    }
  }

  /** `!s.trim()` (the empty string is the only falsy string). */
  predicate IsBlank(s: string) {
    Trim(s) == []
  }

  lemma WhitespaceBefore(s: string, i: int, k: int)
    requires 0 <= k < i <= |s| && AllWhitespace(s[..i])
    ensures IsWhitespace(s[k])
  {
    assert s[..i][k] == s[k];
  }

  lemma WhitespaceFrom(s: string, j: int, k: int)
    requires 0 <= j <= k < |s| && AllWhitespace(s[j..])
    ensures IsWhitespace(s[k])
  {
    assert s[j..][k - j] == s[k];
  }

  /** A nonempty trimmed slice starts and ends where `s` has non-whitespace. */
  lemma SolidEnds(r: string, s: string, i: int)
    requires TrimAt(r, s, i) && IsTrimmed(r) && r != []
    ensures !IsWhitespace(s[i]) && !IsWhitespace(s[i + |r| - 1])
  {
    assert s[i] == s[i..i + |r|][0];
    assert s[i + |r| - 1] == s[i..i + |r|][|r| - 1];
  }

  /** Two nonempty trimmed slices of `s` start at the same place ... */
  lemma SameStart(r1: string, i1: int, r2: string, i2: int, s: string)
    requires TrimAt(r1, s, i1) && IsTrimmed(r1) && r1 != []
    requires TrimAt(r2, s, i2) && IsTrimmed(r2) && r2 != []
    ensures i1 == i2
  {
    SolidEnds(r1, s, i1);
    SolidEnds(r2, s, i2);
    if i1 < i2 { WhitespaceBefore(s, i2, i1); assert false; }
    if i2 < i1 { WhitespaceBefore(s, i1, i2); assert false; }
  }

  /** ... and end at the same place. */
  lemma SameEnd(r1: string, i1: int, r2: string, i2: int, s: string)
    requires TrimAt(r1, s, i1) && IsTrimmed(r1) && r1 != []
    requires TrimAt(r2, s, i2) && IsTrimmed(r2) && r2 != []
    ensures i1 + |r1| == i2 + |r2|
  {
    SolidEnds(r1, s, i1);
    SolidEnds(r2, s, i2);
    var j1, j2 := i1 + |r1|, i2 + |r2|;
    if j1 < j2 { WhitespaceFrom(s, j1, j2 - 1); assert false; }
    if j2 < j1 { WhitespaceFrom(s, j2, j1 - 1); assert false; }
  }

  /** An empty trimmed slice means there was nothing but whitespace. */
  lemma EmptyTrimAt(s: string, i: int, k: int)
    requires TrimAt([], s, i) && 0 <= k < |s|
    ensures IsWhitespace(s[k])
  {
    if k < i { WhitespaceBefore(s, i, k); } else { WhitespaceFrom(s, i, k); }
  }

  /** Removing leading and trailing whitespace has exactly one outcome. */
  lemma TrimOfUnique(r1: string, r2: string, s: string)
    requires IsTrimOf(r1, s) && IsTrimOf(r2, s)
    ensures r1 == r2
  {
    var i1 :| TrimAt(r1, s, i1);
    var i2 :| TrimAt(r2, s, i2);
    if r1 != [] && r2 != [] {
      SameStart(r1, i1, r2, i2, s);
      SameEnd(r1, i1, r2, i2, s);
    } else if r1 != [] {
      SolidEnds(r1, s, i1);
      EmptyTrimAt(s, i2, i1);
      assert false;
    } else if r2 != [] {
      SolidEnds(r2, s, i2);
      EmptyTrimAt(s, i1, i2);
      assert false;
    }
  }

  /** Trimming a trimmed string changes nothing. */
  lemma TrimTrimmed(t: string)
    requires IsTrimmed(t)
    ensures Trim(t) == t
  {
    assert t[0..0 + |t|] == t && t[..0] == [] && t[0 + |t|..] == [];
    assert TrimAt(t, t, 0);
    TrimIsTrimOf(t);
    TrimOfUnique(Trim(t), t, t);
  }

  /** `trim` is idempotent. */
  lemma TrimIdempotent(s: string)
    ensures Trim(Trim(s)) == Trim(s)
  {
    TrimTrimmed(Trim(s));
  }

  /** Whitespace around a trimmed string is exactly what `trim` removes. */
  lemma TrimPadded(pre: string, t: string, post: string)
    requires AllWhitespace(pre) && AllWhitespace(post) && IsTrimmed(t)
    ensures Trim(pre + t + post) == t
  {
    var s := pre + t + post;
    var i := |pre|;
    assert s[i..i + |t|] == t && s[..i] == pre && s[i + |t|..] == post;
    assert TrimAt(t, s, i);
    TrimIsTrimOf(s);
    TrimOfUnique(Trim(s), t, s);
  }

  /** A string is blank exactly when it holds nothing but whitespace. */
  lemma BlankIffAllWhitespace(s: string)
    ensures IsBlank(s) <==> AllWhitespace(s)
  {
  }

  /** The position of the first `c` in `s`. */
  function IndexOf(s: string, c: char): (i: nat)
    requires c in s
    ensures i < |s| && s[i] == c && c !in s[..i]
  {
    if s[0] == c then 0 else 1 + IndexOf(s[1..], c)
  }

  /** `parts.join(sep)`. */
  function Join(parts: seq<string>, sep: char): string {
    if |parts| == 0 then []
    else if |parts| == 1 then parts[0]
    else parts[0] + [sep] + Join(parts[1..], sep)
  }

  /** `s.split(sep)`: the pieces of `s` between occurrences of `sep`, so at
      least one piece (`"".split(sep)` is `[""]`), none containing `sep`, and
      joined back with `sep` they give `s` again. */
  function Split(s: string, sep: char): (parts: seq<string>)
    ensures |parts| >= 1
    ensures forall k :: 0 <= k < |parts| ==> sep !in parts[k]
    ensures Join(parts, sep) == s
    decreases |s|
  {
    if sep !in s then [s]
    else
      var i := IndexOf(s, sep);
      var rest := Split(s[i + 1..], sep);
      var parts := [s[..i]] + rest;
      assert parts[1..] == rest;
      assert s == s[..i] + [sep] + s[i + 1..];
      parts
  }

  /** Splitting stops at the first separator. */
  lemma {:induction false} SplitAtFirst(a: string, sep: char, t: string)
    requires sep !in a
    ensures Split(a + [sep] + t, sep) == [a] + Split(t, sep)
  {
    var s := a + [sep] + t;
    assert s[|a|] == sep;
    var i := IndexOf(s, sep);
    assert s[..i] == a && s[i + 1..] == t;
  }

  /** Splitting undoes joining when no part holds the separator. */
  lemma {:induction false} SplitJoin(parts: seq<string>, sep: char)
    requires |parts| >= 1
    requires forall k :: 0 <= k < |parts| ==> sep !in parts[k]
    ensures Split(Join(parts, sep), sep) == parts
    decreases |parts|
  {
    if |parts| > 1 {
      var tail := parts[1..];
      SplitJoin(tail, sep);
      SplitAtFirst(parts[0], sep, Join(tail, sep));
      assert [parts[0]] + tail == parts;
    }
  }

  /** Every character of a part also occurs in the joined string. */
  lemma {:induction false} InJoin(parts: seq<string>, sep: char, k: nat, c: char)
    requires k < |parts| && c in parts[k]
    ensures c in Join(parts, sep)
    decreases |parts|
  {
    if k > 0 {
      InJoin(parts[1..], sep, k - 1, c);
    }
  }
}
