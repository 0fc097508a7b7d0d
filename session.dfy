/** The training screen's state as a value, and what each handler of the
    screen does to it. The class in `Training` holds the same state in fields
    and is proved to follow these functions step by step. */
module SessionModel {
  import opened Stages
  import opened Text
  import opened Advice

  datatype Option<T> = None | Some(value: T)

  /** `ViewState`: the screen being rendered. */
  datatype View = Config | Training | Report | Dashboard

  /** `Message.role`. */
  datatype Role = User | Assistant | System | Coach

  /** One line of the chat transcript; `id` and `timestamp` come from the clock. */
  datatype Message = Message(id: string, role: Role, content: string, timestamp: int)

  /** A reading of `Date.now()` as a handler uses it: once as an id, once as
      a timestamp. */
  datatype Stamp = Stamp(id: string, time: int)

  /** The two roles of the conversation history sent to the backend. */
  datatype Speaker = UserTurn | ModelTurn

  /** One entry `{ role, parts: [{ text }] }` of that history. */
  datatype ApiTurn = ApiTurn(role: Speaker, text: string)

  /** The selected scenario, reduced to what the prompts read. */
  datatype Industry = Industry(id: string, name: string)
  datatype Persona = Persona(id: string, name: string, traits: seq<string>)

  /** How an awaited backend call ended: the text it produced, or the message
      of the error it threw. */
  datatype Outcome = Ok(text: string) | Fail(message: string)

  /** A backend call, with the arguments the handler passes to it. */
  datatype Request =
    | ReplyRequest(industry: Industry, persona: Persona, stage: Stage, history: seq<ApiTurn>)
    | AdviceRequest(industry: Industry, persona: Persona, stage: Stage,
                    customerText: string, traineeText: string)

  /** A call the handler awaits, and the state on screen while it is pending. */
  datatype Await = Await(request: Request, shown: Session)

  /** The component state of the trainer screen. */
  datatype Session = Session(
    view: View,
    industry: Industry,
    persona: Persona,
    stage: Stage,
    messages: seq<Message>,
    apiHistory: seq<ApiTurn>,
    advice: CoachAdvice,
    isLoading: bool,
    error: Option<string>)

  // ---------------------------------------------------------------------
  // The invariant every reachable state keeps

  /** The contents of the assistant lines of a transcript, in order. */
  function AssistantTexts(log: seq<Message>): seq<string> {
    if log == [] then []
    else
      var last := log[|log| - 1];
      AssistantTexts(log[..|log| - 1]) + (if last.role == Assistant then [last.content] else [])
  }

  /** The texts of the model turns of a backend history, in order. */
  function ModelTexts(history: seq<ApiTurn>): seq<string> {
    if history == [] then []
    else
      var last := history[|history| - 1];
      ModelTexts(history[..|history| - 1]) + (if last.role == ModelTurn then [last.text] else [])
  }

  /** The backend history is a sequence of (user, model) pairs. */
  predicate Alternates(history: seq<ApiTurn>) {
    history == []
    || (&& |history| >= 2
        && history[|history| - 2].role == UserTurn
        && history[|history| - 1].role == ModelTurn
        && Alternates(history[..|history| - 2]))
  }

  /** What holds of every state the screen can reach: the backend history
      is made of (user, model) pairs; the assistant lines of the transcript
      are exactly the model turns of that history; the transcript holds only
      trainee and assistant lines; and the stage is never ahead of what the
      thresholds allow for the transcript before its latest line. */
  ghost predicate Valid(s: Session) {
    && Alternates(s.apiHistory)
    && AssistantTexts(s.messages) == ModelTexts(s.apiHistory)
    && (forall k :: 0 <= k < |s.messages| ==>
          s.messages[k].role == User || s.messages[k].role == Assistant)
    && Rank(s.stage) <= Rank(Ceiling(|s.messages| - 1))
  }

  /** The state the screen starts in, with the catalog's default selections. */
  function Initial(industry: Industry, persona: Persona): (s: Session)
    ensures Valid(s)
  {
    Session(Config, industry, persona, Explore, [], [], InitialAdvice, false, None)
  }

  // ---------------------------------------------------------------------
  // handleStartTraining

  /** The fixed pieces of the opening prompt, around the persona's and the
      industry's names. */
  const PromptAs: string := "(系统提示：作为"
  const PromptAt: string := "，你来到了"
  const PromptAsk: string := "服务台，由于某些原因你心情不好。请直接说出第一句挑衅或不满的话。)"

  /** The hidden first user turn asking the backend to open in character. */
  function OpeningPrompt(industry: Industry, persona: Persona): string
  {
    PromptAs + persona.name + PromptAt + industry.name + PromptAsk
  }

  /** The opening prompt names the persona, then the industry, in the fixed
      wording around them. */
  lemma OpeningPromptNames(industry: Industry, persona: Persona)
    ensures var prompt, at := OpeningPrompt(industry, persona), |PromptAs| + |persona.name| + |PromptAt|;
      && |prompt| == at + |industry.name| + |PromptAsk|
      && prompt[..|PromptAs|] == PromptAs
      && prompt[|PromptAs|..|PromptAs| + |persona.name|] == persona.name
      && prompt[|PromptAs| + |persona.name|..at] == PromptAt
      && prompt[at..at + |industry.name|] == industry.name
      && prompt[at + |industry.name|..] == PromptAsk
  {
  }

  /** On screen while the opening line is awaited: the training view, with an
      empty transcript and history, stage Explore, no error, loading. */
  function StartPending(s: Session): Session {
    s.(view := Training, error := None, isLoading := true, messages := [], apiHistory := [],
       stage := Explore)
  }

  /** The one call the start handler makes: the opening prompt alone, for the
      selected scenario at stage Explore, awaited with the training view on
      screen, empty, without error and loading. */
  function StartAwaits(s: Session): seq<Await>
  {
    [Await(ReplyRequest(s.industry, s.persona, Explore,
                        [ApiTurn(UserTurn, OpeningPrompt(s.industry, s.persona))]),
           StartPending(s))]
  }

  /** (Re)starts a session. Whatever the previous session held, the result
      is in the training view at stage Explore, not loading;
      on success the transcript is the opening line alone and the history is
      the opening prompt and that line; on failure both are empty and the
      error is shown. */
  function Start(s: Session, time: int, reply: Outcome): (r: Session)
    ensures r.view == Training && r.stage == Explore && !r.isLoading
    ensures r.industry == s.industry && r.persona == s.persona && r.advice == s.advice
    ensures reply.Ok? ==> r.error == None && |r.messages| == 1 && r.messages[0].role == Assistant
                          && r.messages[0].content == reply.text
                          && r.apiHistory == [ApiTurn(UserTurn, OpeningPrompt(s.industry, s.persona)),
                                              ApiTurn(ModelTurn, reply.text)]
    ensures reply.Fail? ==> r.error == Some(reply.message) && r.messages == [] && r.apiHistory == []
  {
    var cleared := StartPending(s).(isLoading := false);
    match reply
    case Ok(first) =>
      cleared.(messages := [Message("1", Assistant, first, time)],
               apiHistory := [ApiTurn(UserTurn, OpeningPrompt(s.industry, s.persona)),
                              ApiTurn(ModelTurn, first)])
    case Fail(e) =>
      cleared.(error := Some(e))
  }

  /** The start handler makes one call: the opening prompt alone, for the
      selected scenario at stage Explore, awaited with the training view on
      screen, empty, without error and loading. */
  lemma StartCalls(s: Session)
    ensures var calls := StartAwaits(s);
      && |calls| == 1
      && calls[0].request == ReplyRequest(s.industry, s.persona, Explore,
                                          [ApiTurn(UserTurn, OpeningPrompt(s.industry, s.persona))])
      && var shown := calls[0].shown;
      && shown.view == Training && shown.stage == Explore && shown.messages == [] && shown.apiHistory == []
      && shown.isLoading && shown.error == None
      && shown.industry == s.industry && shown.persona == s.persona && shown.advice == s.advice
  {
  }

  // ---------------------------------------------------------------------
  // handleSendMessage

  /** The guard: the input is not blank after trimming and no call is pending. */
  predicate Accepts(s: Session, text: string) {
    !IsBlank(text) && !s.isLoading
  }

  /** On screen while the customer's reply is awaited: the trainee's line
      appended, loading, the error cleared. */
  function ReplyPending(s: Session, text: string, userStamp: Stamp): Session
  {
    s.(messages := s.messages + [Message(userStamp.id, User, text, userStamp.time)],
       isLoading := true, error := None)
  }

  /** On screen while the coaching is awaited: the customer's reply appended
      to the transcript and the (trainee, reply) pair to the history. */
  function AdvicePending(s: Session, text: string, userStamp: Stamp, reply: string, replyStamp: Stamp): Session
  {
    var p := ReplyPending(s, text, userStamp);
    p.(messages := p.messages + [Message(replyStamp.id, Assistant, reply, replyStamp.time)],
       apiHistory := s.apiHistory + [ApiTurn(UserTurn, text), ApiTurn(ModelTurn, reply)])
  }

  /** The content of the last line of a transcript, or "" when it is empty. */
  function LastLine(log: seq<Message>): string {
    if log == [] then "" else log[|log| - 1].content
  }

  /** A turn is taken exactly when no call is pending and the text holds a
      character other than whitespace. */
  lemma AcceptsIff(s: Session, text: string)
    ensures Accepts(s, text) <==> !s.isLoading && !AllWhitespace(text)
  {
    BlankIffAllWhitespace(text);
  }

  /** The two screens of a turn in progress: first the trainee's line is
      appended, loading shown and the error cleared, and nothing else
      changes; then the reply follows that line, and the history gains the
      (trainee, reply) pair. */
  lemma PendingScreens(s: Session, text: string, userStamp: Stamp, reply: string, replyStamp: Stamp)
    ensures var p := ReplyPending(s, text, userStamp);
      && p.isLoading && p.error == None
      && |p.messages| == |s.messages| + 1 && p.messages[..|s.messages|] == s.messages
      && p.messages[|s.messages|].role == User && p.messages[|s.messages|].content == text
      && p.(messages := s.messages, isLoading := s.isLoading, error := s.error) == s
    ensures var q := AdvicePending(s, text, userStamp, reply, replyStamp);
      && q.isLoading && q.error == None
      && |q.messages| == |s.messages| + 2
      && q.messages[..|s.messages| + 1] == ReplyPending(s, text, userStamp).messages
      && q.messages[|s.messages| + 1].role == Assistant && q.messages[|s.messages| + 1].content == reply
      && q.apiHistory == s.apiHistory + [ApiTurn(UserTurn, text), ApiTurn(ModelTurn, reply)]
      && q.(messages := s.messages, apiHistory := s.apiHistory, isLoading := s.isLoading, error := s.error) == s
  {
  }

  /** The coaching request as the handler builds it: the scenario and the
      stage read when the turn began, the trainee's text, and, as "what the
      customer just said", the reply the customer gave to that text. */
  function AdviceRequestAsWritten(s: Session, text: string, reply: string): Request {
    AdviceRequest(s.industry, s.persona, s.stage, reply, text)
  }

  /** The coaching request with `lastAiMsg`, the line before the trainee's,
      which the handler computes first and then leaves unused. It is the
      customer's last line, except after a failed reply call, when it is the
      trainee's own previous line. */
  function AdviceRequestFor(s: Session, text: string): Request {
    AdviceRequest(s.industry, s.persona, s.stage, LastLine(s.messages), text)
  }

  /** The calls a turn makes: none when the guard refuses it; the reply call
      with the history extended by the trainee's text and the stage read at
      the start; then, only if the reply arrived, the coaching call, which
      quotes as the customer's line the reply now last on screen. */
  function SendAwaits(s: Session, text: string, userStamp: Stamp, reply: Outcome, replyStamp: Stamp): seq<Await>
  {
    if !Accepts(s, text) then []
    else
      var first := Await(ReplyRequest(s.industry, s.persona, s.stage,
                                      s.apiHistory + [ApiTurn(UserTurn, text)]),
                         ReplyPending(s, text, userStamp));
      match reply
      case Fail(_) => [first]
      case Ok(r) => [first, Await(AdviceRequestAsWritten(s, text, r), AdvicePending(s, text, userStamp, r, replyStamp))]
  }

  /** A turn makes no call when the guard refuses it, the reply call when
      it is taken, and the coaching call only once the reply has arrived;
      loading is on screen while each is pending; the coaching call quotes as
      the customer's line the reply now last on screen, right after the
      trainee's line. */
  lemma SendCalls(s: Session, text: string, userStamp: Stamp, reply: Outcome, replyStamp: Stamp)
    ensures var calls := SendAwaits(s, text, userStamp, reply, replyStamp);
      && (!Accepts(s, text) ==> calls == [])
      && (Accepts(s, text) ==> |calls| == (if reply.Ok? then 2 else 1))
      && (forall k :: 0 <= k < |calls| ==> calls[k].shown.isLoading)
      && (|calls| >= 1 ==>
            && calls[0].request == ReplyRequest(s.industry, s.persona, s.stage, s.apiHistory + [ApiTurn(UserTurn, text)])
            && calls[0].shown == ReplyPending(s, text, userStamp))
      && (|calls| == 2 ==>
            && calls[1].shown == AdvicePending(s, text, userStamp, reply.text, replyStamp)
            && calls[1].request.AdviceRequest? && calls[1].request.stage == s.stage
            && calls[1].request.customerText == LastLine(calls[1].shown.messages)
            && calls[1].request.traineeText == calls[1].shown.messages[|s.messages|].content)
  {
  }

  /** The calls a turn would make if the coaching call quoted `lastAiMsg`:
      the same calls, with that one argument changed. */
  function CorrectedSendAwaits(s: Session, text: string, userStamp: Stamp, reply: Outcome, replyStamp: Stamp)
    : seq<Await>
  {
    var calls := SendAwaits(s, text, userStamp, reply, replyStamp);
    if |calls| == 2 then [calls[0], calls[1].(request := AdviceRequestFor(s, text))] else calls
  }

  /** One trainee turn. A refused turn changes nothing. An accepted turn
      adds at most two lines, leaves the screen and the scenario alone, ends
      not loading, and moves the stage forward by at most one step. */
  function Send(s: Session, text: string, userStamp: Stamp, reply: Outcome, replyStamp: Stamp,
                advice: Outcome): (r: Session)
    ensures !Accepts(s, text) ==> r == s
    ensures Accepts(s, text) ==> !r.isLoading
    ensures r.view == s.view && r.industry == s.industry && r.persona == s.persona
    ensures |s.messages| <= |r.messages| <= |s.messages| + 2
    ensures Rank(s.stage) <= Rank(r.stage) <= Rank(s.stage) + 1
  {
    if !Accepts(s, text) then s
    else
      match reply
      case Fail(e) =>
        ReplyPending(s, text, userStamp).(isLoading := false, error := Some(e))
      case Ok(r) =>
        var replied := AdvicePending(s, text, userStamp, r, replyStamp).(isLoading := false);
        match advice
        case Fail(e) => replied.(error := Some(e))
        case Ok(raw) => replied.(advice := ParseAdvice(raw), stage := NextStage(s.stage, |s.messages|))
  }

  /** A turn never rolls the transcript or the history back: it only
      appends to them. */
  lemma SendExtends(s: Session, text: string, userStamp: Stamp, reply: Outcome, replyStamp: Stamp,
                    advice: Outcome)
    ensures s.messages <= Send(s, text, userStamp, reply, replyStamp, advice).messages
    ensures s.apiHistory <= Send(s, text, userStamp, reply, replyStamp, advice).apiHistory
  {
  }

  // ---------------------------------------------------------------------
  // Everything the screen can do, and runs of it

  datatype Event =
    | StartTraining(time: int, reply: Outcome)
    | SendMessage(text: string, userStamp: Stamp, reply: Outcome, replyStamp: Stamp, advice: Outcome)
    | OpenReport
    | BackToConfig
    | PickIndustry(industry: Industry)
    | PickPersona(persona: Persona)

  /** One handler of the screen. */
  function Step(s: Session, e: Event): Session
  {
    match e
    case StartTraining(time, reply) => Start(s, time, reply)
    case SendMessage(text, us, reply, rs, advice) => Send(s, text, us, reply, rs, advice)
    case OpenReport => s.(view := Report)
    case BackToConfig => s.(view := Config)
    case PickIndustry(industry) => s.(industry := industry)
    case PickPersona(persona) => s.(persona := persona)
  }

  function Run(s: Session, events: seq<Event>): Session
    decreases |events|
  {
    if events == [] then s else Run(Step(s, events[0]), events[1..])
  }

  /** Only the two handlers that talk to the backend touch the transcript,
      the history, the stage, the advice, loading or the error; the buttons
      and cards change only the view or the selection. */
  lemma ButtonsChangeOnlyViewOrSelection(s: Session, e: Event)
    requires !e.StartTraining? && !e.SendMessage?
    ensures var r := Step(s, e);
      && r.(view := s.view, industry := s.industry, persona := s.persona) == s
      && (e.OpenReport? ==> r.view == Report)
      && (e.BackToConfig? ==> r.view == Config)
      && (e.PickIndustry? ==> r.industry == e.industry && r.view == s.view && r.persona == s.persona)
      && (e.PickPersona? ==> r.persona == e.persona && r.view == s.view && r.industry == s.industry)
  {
  }

  // ---------------------------------------------------------------------
  // The invariant is kept by every handler

  lemma AssistantTextsAppend(log: seq<Message>, m: Message)
    ensures AssistantTexts(log + [m]) == AssistantTexts(log) + (if m.role == Assistant then [m.content] else [])
  {
    assert (log + [m])[..|log|] == log;
  }

  lemma ModelTextsAppend(history: seq<ApiTurn>, t: ApiTurn)
    ensures ModelTexts(history + [t]) == ModelTexts(history) + (if t.role == ModelTurn then [t.text] else [])
  {
    assert (history + [t])[..|history|] == history;
  }

  /** Appending a (trainee, reply) pair keeps the history in pairs and adds
      the reply to its model texts. */
  lemma PairAppended(history: seq<ApiTurn>, text: string, reply: string)
    requires Alternates(history)
    ensures Alternates(history + [ApiTurn(UserTurn, text), ApiTurn(ModelTurn, reply)])
    ensures ModelTexts(history + [ApiTurn(UserTurn, text), ApiTurn(ModelTurn, reply)])
            == ModelTexts(history) + [reply]
  {
    var u := ApiTurn(UserTurn, text);
    var longer := history + [u, ApiTurn(ModelTurn, reply)];
    var half := longer[..|longer| - 1];
    assert half == history + [u];
    assert longer[..|history|] == history == half[..|history|];
    assert ModelTexts(half) == ModelTexts(history);
  }

  /** Adding the trainee's line alone keeps the invariant. */
  lemma TraineeLineKeepsValid(s: Session, r: Session, user: Message)
    requires Valid(s) && user.role == User
    requires r.messages == s.messages + [user] && r.apiHistory == s.apiHistory && r.stage == s.stage
    ensures Valid(r)
  {
    AssistantTextsAppend(s.messages, user);
  }

  /** Adding a (trainee, reply) exchange to both the transcript and the
      history keeps the invariant, if the stage is either kept or advanced by
      the rule. */
  lemma ExchangeKeepsValid(s: Session, r: Session, user: Message, answer: Message)
    requires Valid(s) && user.role == User && answer.role == Assistant
    requires r.messages == s.messages + [user, answer]
    requires r.apiHistory == s.apiHistory + [ApiTurn(UserTurn, user.content), ApiTurn(ModelTurn, answer.content)]
    requires r.stage == s.stage || r.stage == NextStage(s.stage, |s.messages|)
    ensures Valid(r)
  {
    var half := r.messages[..|r.messages| - 1];
    assert half == s.messages + [user];
    assert r.messages[..|s.messages|] == s.messages == half[..|s.messages|];
    assert AssistantTexts(half) == AssistantTexts(s.messages);
    PairAppended(s.apiHistory, user.content, answer.content);
    NextStageBelowCeiling(s.stage, |s.messages|, |s.messages| + 1);
  }

  lemma SendPreservesValid(s: Session, text: string, userStamp: Stamp, reply: Outcome,
                           replyStamp: Stamp, advice: Outcome)
    requires Valid(s)
    ensures Valid(Send(s, text, userStamp, reply, replyStamp, advice))
  {
    if Accepts(s, text) {
      var r := Send(s, text, userStamp, reply, replyStamp, advice);
      var user := Message(userStamp.id, User, text, userStamp.time);
      match reply
      case Fail(e) =>
        ReplyFailureKeepsTraineeLine(s, text, userStamp, e, replyStamp, advice);
        TraineeLineKeepsValid(s, r, user);
      case Ok(answer) =>
        var line := Message(replyStamp.id, Assistant, answer, replyStamp.time);
        match advice
        case Fail(e) =>
          AdviceFailureKeepsReply(s, text, userStamp, answer, replyStamp, e);
          ExchangeKeepsValid(s, r, user, line);
        case Ok(raw) =>
          CoachedTurn(s, text, userStamp, answer, replyStamp, raw);
          ExchangeKeepsValid(s, r, user, line);
    }
  }

  /** A start, from whatever state, yields a state satisfying the invariant. */
  lemma StartValid(s: Session, time: int, reply: Outcome)
    ensures Valid(Start(s, time, reply))
  {
    var r := Start(s, time, reply);
    if reply.Ok? {
      assert AssistantTexts(r.messages) == [reply.text] by {
        assert r.messages[..0] == [];
      }
      assert ModelTexts(r.apiHistory) == [reply.text] by {
        var prompt := r.apiHistory[..1];
        assert prompt[..0] == [];
        assert ModelTexts(prompt) == [];
      }
      assert r.apiHistory[..0] == [];
    }
  }

  /** Every handler keeps the invariant. */
  lemma StepPreservesValid(s: Session, e: Event)
    requires Valid(s)
    ensures Valid(Step(s, e))
  {
    if e.StartTraining? {
      StartValid(s, e.time, e.reply);
    } else if e.SendMessage? {
      SendPreservesValid(s, e.text, e.userStamp, e.reply, e.replyStamp, e.advice);
    }
  }

  /** Every state reached from the initial one satisfies the invariant. */
  lemma {:induction false} RunPreservesValid(s: Session, events: seq<Event>)
    requires Valid(s)
    ensures Valid(Run(s, events))
    decreases |events|
  {
    if events != [] {
      StepPreservesValid(s, events[0]);
      RunPreservesValid(Step(s, events[0]), events[1..]);
    }
  }

  /** In a reachable state the stage is Offer or later only once the
      transcript holds more than five lines, Action or later only past nine,
      Confirm only past thirteen. */
  lemma StageNeedsLines(s: Session)
    requires Valid(s)
    ensures Rank(s.stage) >= 1 ==> |s.messages| > 5
    ensures Rank(s.stage) >= 2 ==> |s.messages| > 9
    ensures Rank(s.stage) >= 3 ==> |s.messages| > 13
  {
  }

  // ---------------------------------------------------------------------
  // One turn, case by case

  /** A turn whose reply call fails keeps the trainee's line on screen,
      leaves the backend history, the coaching and the stage as they were,
      and shows the error. */
  lemma ReplyFailureKeepsTraineeLine(s: Session, text: string, userStamp: Stamp, e: string,
                                     replyStamp: Stamp, advice: Outcome)
    requires Accepts(s, text)
    ensures var r := Send(s, text, userStamp, Fail(e), replyStamp, advice);
      && r.messages == s.messages + [Message(userStamp.id, User, text, userStamp.time)]
      && r.apiHistory == s.apiHistory && r.advice == s.advice && r.stage == s.stage
      && r.error == Some(e) && !r.isLoading
  {
  }

  /** A turn whose coaching call fails keeps the customer's reply in the
      transcript and in the history, leaves the coaching and the stage as
      they were, and shows the error. */
  lemma AdviceFailureKeepsReply(s: Session, text: string, userStamp: Stamp, reply: string,
                                replyStamp: Stamp, e: string)
    requires Accepts(s, text)
    ensures var r := Send(s, text, userStamp, Ok(reply), replyStamp, Fail(e));
      && r.messages == s.messages + [Message(userStamp.id, User, text, userStamp.time),
                                     Message(replyStamp.id, Assistant, reply, replyStamp.time)]
      && r.apiHistory == s.apiHistory + [ApiTurn(UserTurn, text), ApiTurn(ModelTurn, reply)]
      && r.advice == s.advice && r.stage == s.stage && r.error == Some(e) && !r.isLoading
  {
    var user := Message(userStamp.id, User, text, userStamp.time);
    var answer := Message(replyStamp.id, Assistant, reply, replyStamp.time);
    assert s.messages + [user] + [answer] == s.messages + [user, answer];
  }

  /** A turn whose two calls succeed records both lines, shows the parsed
      coaching, and applies the stage rule to the transcript length read
      before the trainee's line was added. */
  lemma CoachedTurn(s: Session, text: string, userStamp: Stamp, reply: string,
                    replyStamp: Stamp, raw: string)
    requires Accepts(s, text)
    ensures var r := Send(s, text, userStamp, Ok(reply), replyStamp, Ok(raw));
      && r.messages == s.messages + [Message(userStamp.id, User, text, userStamp.time),
                                     Message(replyStamp.id, Assistant, reply, replyStamp.time)]
      && r.apiHistory == s.apiHistory + [ApiTurn(UserTurn, text), ApiTurn(ModelTurn, reply)]
      && r.advice == ParseAdvice(raw) && r.stage == NextStage(s.stage, |s.messages|)
      && r.error == None && !r.isLoading
  {
    var user := Message(userStamp.id, User, text, userStamp.time);
    var answer := Message(replyStamp.id, Assistant, reply, replyStamp.time);
    assert s.messages + [user] + [answer] == s.messages + [user, answer];
  }

  /** Blank input, however long, is refused: nothing is sent and nothing
      changes. */
  lemma WhitespaceRefused(s: Session, text: string, userStamp: Stamp, reply: Outcome,
                          replyStamp: Stamp, advice: Outcome)
    requires AllWhitespace(text)
    ensures SendAwaits(s, text, userStamp, reply, replyStamp) == []
    ensures Send(s, text, userStamp, reply, replyStamp, advice) == s
  {
    BlankIffAllWhitespace(text);
  }

  /** The trainee's own line is on screen, exactly as typed, before any
      backend call is made, and the reply call is asked about the history
      extended by that text at the stage read when the turn began. */
  lemma TraineeLineShownFirst(s: Session, text: string, userStamp: Stamp, reply: Outcome, replyStamp: Stamp)
    requires Accepts(s, text)
    ensures var calls := SendAwaits(s, text, userStamp, reply, replyStamp);
      && |calls| >= 1
      && calls[0].shown.messages == s.messages + [Message(userStamp.id, User, text, userStamp.time)]
      && calls[0].request == ReplyRequest(s.industry, s.persona, s.stage, s.apiHistory + [ApiTurn(UserTurn, text)])
      && calls[0].shown.error == None
  {
  }

  /** While any call is pending the screen shows loading, and a further turn
      submitted then is refused without effect. */
  lemma PendingRefusesTurns(s: Session, text: string, userStamp: Stamp, reply: Outcome, replyStamp: Stamp,
                            a: Await, text2: string, userStamp2: Stamp, reply2: Outcome, replyStamp2: Stamp,
                            advice2: Outcome)
    requires a in SendAwaits(s, text, userStamp, reply, replyStamp) + StartAwaits(s)
    ensures a.shown.isLoading
    ensures Send(a.shown, text2, userStamp2, reply2, replyStamp2, advice2) == a.shown
    ensures SendAwaits(a.shown, text2, userStamp2, reply2, replyStamp2) == []
  {
  }

  // ---------------------------------------------------------------------
  // Sessions

  /** Starting depends on the previous session only through the selected
      scenario and the coaching on screen: nothing of an earlier transcript,
      history, stage or error survives a restart. */
  lemma StartForgetsPriorSession(s1: Session, s2: Session, time: int, reply: Outcome)
    requires s1.industry == s2.industry && s1.persona == s2.persona && s1.advice == s2.advice
    ensures Start(s1, time, reply) == Start(s2, time, reply)
    ensures StartAwaits(s1) == StartAwaits(s2)
  {
  }

  /** Until the next restart the transcript and the history only grow and
      the stage only moves forward. */
  lemma {:induction false} SessionOnlyGrows(s: Session, events: seq<Event>)
    requires forall k :: 0 <= k < |events| ==> !events[k].StartTraining?
    ensures s.messages <= Run(s, events).messages
    ensures s.apiHistory <= Run(s, events).apiHistory
    ensures Rank(s.stage) <= Rank(Run(s, events).stage)
    decreases |events|
  {
    if events != [] {
      var e, next := events[0], Step(s, events[0]);
      if e.SendMessage? {
        SendExtends(s, e.text, e.userStamp, e.reply, e.replyStamp, e.advice);
      }
      SessionOnlyGrows(next, events[1..]);
    }
  }

  /** A turn that is accepted and whose two calls succeed. */
  predicate Coached(e: Event) {
    e.SendMessage? && !IsBlank(e.text) && e.reply.Ok? && e.advice.Ok?
  }

  /** Every turn of `events` is coached. */
  predicate AllCoached(events: seq<Event>) {
    forall k :: 0 <= k < |events| ==> Coached(events[k])
  }

  lemma CoachedRest(events: seq<Event>)
    requires AllCoached(events) && events != []
    ensures Coached(events[0]) && AllCoached(events[1..])
  {
    forall k | 0 <= k < |events| - 1 ensures Coached(events[1..][k]) {
      assert events[1..][k] == events[k + 1];
    }
  }

  /** The stage after `turns` coached turns of a session that opened with a
      line from the customer. */
  function ScheduledStage(turns: nat): Stage {
    if turns >= 7 then Confirm
    else if turns >= 5 then Action
    else if turns >= 3 then Offer
    else Explore
  }

  /** One coached turn advances the schedule by one turn. */
  lemma CoachedStep(s: Session, e: Event, done: nat)
    requires !s.isLoading && |s.messages| == 2 * done + 1 && s.stage == ScheduledStage(done)
    requires Coached(e)
    ensures var r := Step(s, e);
      !r.isLoading && |r.messages| == 2 * (done + 1) + 1 && r.stage == ScheduledStage(done + 1)
  {
    CoachedTurn(s, e.text, e.userStamp, e.reply.text, e.replyStamp, e.advice.text);
    ScheduleStep(done);
  }

  lemma {:induction false} CoachedTurnsFrom(s: Session, events: seq<Event>, done: nat)
    requires !s.isLoading && |s.messages| == 2 * done + 1 && s.stage == ScheduledStage(done)
    requires AllCoached(events)
    ensures var r := Run(s, events);
      !r.isLoading && |r.messages| == 2 * (done + |events|) + 1 && r.stage == ScheduledStage(done + |events|)
    decreases |events|
  {
    if events != [] {
      var next, rest := Step(s, events[0]), events[1..];
      CoachedRest(events);
      CoachedStep(s, events[0], done);
      CoachedTurnsFrom(next, rest, done + 1);
      assert Run(s, events) == Run(next, rest);
      assert done + 1 + |rest| == done + |events|;
    }
  }

  lemma ScheduleStep(done: nat)
    ensures NextStage(ScheduledStage(done), 2 * done + 1) == ScheduledStage(done + 1)
  {
  }

  /** A session whose opening line arrived and whose every turn is coached:
      after `n` turns the transcript holds 2n+1 lines and the stage is
      Explore for the first two turns, Offer after the third and fourth,
      Action after the fifth and sixth, and Confirm from the seventh on. */
  lemma CoachedSession(s: Session, time: int, first: string, events: seq<Event>)
    requires AllCoached(events)
    ensures var r := Run(Start(s, time, Ok(first)), events);
      |r.messages| == 2 * |events| + 1 && r.stage == ScheduledStage(|events|)
  {
    CoachedTurnsFrom(Start(s, time, Ok(first)), events, 0);
  }

  /** Two coached turns give five lines and the session is still in Explore;
      the third turn is the one that moves it to Offer. */
  lemma OfferAfterThirdTurn(s: Session, time: int, first: string, events: seq<Event>)
    requires AllCoached(events)
    requires |events| == 3
    ensures |Run(Start(s, time, Ok(first)), events[..2]).messages| == 5
    ensures Run(Start(s, time, Ok(first)), events[..2]).stage == Explore
    ensures Run(Start(s, time, Ok(first)), events).stage == Offer
  {
    assert events[..2][1..] == events[1..2] && events[1..2][1..] == [] && events[1..][1..] == events[2..];
    CoachedSession(s, time, first, events[..2]);
    CoachedSession(s, time, first, events);
  }

  // ---------------------------------------------------------------------
  // The coaching request

  /** As written, the coaching call is told that the customer "just said"
      the reply that came after the trainee's line, so the coach judges the
      trainee's answer against a line the trainee never saw. */
  lemma AsWrittenQuotesLaterLine(s: Session, text: string, userStamp: Stamp, reply: string, replyStamp: Stamp)
    requires Accepts(s, text)
    ensures var calls := SendAwaits(s, text, userStamp, Ok(reply), replyStamp);
      && |calls| == 2
      && var log := calls[1].shown.messages;
      && |log| == |s.messages| + 2
      && log[|s.messages|].content == text
      && calls[1].request.customerText == log[|s.messages| + 1].content
      && calls[1].request == AdviceRequest(s.industry, s.persona, s.stage, reply, text)
  {
  }

  /** One session where the two differ: the customer opens with a complaint,
      the trainee apologises, the customer answers; the request as written
      quotes the answer, not the complaint the apology was for. */
  lemma AsWrittenCounterexample()
    ensures var s := Start(Initial(Industry("retail", "零售服务"), Persona("angry_elder", "愤怒的高龄客户", [])),
                           0, Ok("我等了一个小时了！"));
      var calls := SendAwaits(s, "非常抱歉让您久等了", Stamp("2", 1), Ok("那你们打算怎么办？"), Stamp("3", 2));
      && LastLine(s.messages) == "我等了一个小时了！"
      && |calls| == 2
      && calls[1].request.customerText == "那你们打算怎么办？"
      && calls[1].request.customerText != LastLine(s.messages)
  {
    var s := Start(Initial(Industry("retail", "零售服务"), Persona("angry_elder", "愤怒的高龄客户", [])),
                   0, Ok("我等了一个小时了！"));
    var text := "非常抱歉让您久等了";
    assert !IsWhitespace(text[0]);
    assert Accepts(s, text);
    assert "那你们打算怎么办？"[0] != "我等了一个小时了！"[0];
  }

  /** Corrected, a turn makes the calls it makes as written, except that
      the coaching call quotes the two adjacent lines of the transcript: the
      one before the trainee's (none, if the transcript was empty) and the
      trainee's own. */
  lemma AdviceRequestQuotesAdjacentLines(s: Session, text: string, userStamp: Stamp, reply: string,
                                         replyStamp: Stamp)
    requires Accepts(s, text)
    ensures var calls := CorrectedSendAwaits(s, text, userStamp, Ok(reply), replyStamp);
      var written := SendAwaits(s, text, userStamp, Ok(reply), replyStamp);
      && |calls| == |written| == 2
      && calls[0] == written[0] && calls[1].shown == written[1].shown
      && calls[1].request == written[1].request.(customerText := LastLine(s.messages))
      && calls[1].request.AdviceRequest?
      && calls[1].request.stage == s.stage
      && var log := calls[1].shown.messages;
      && |log| == |s.messages| + 2
      && log[|s.messages|].role == User && calls[1].request.traineeText == log[|s.messages|].content
      && (s.messages == [] ==> calls[1].request.customerText == "")
      && (s.messages != [] ==> calls[1].request.customerText == log[|s.messages| - 1].content)
  {
  }

  /** After a failed reply call the line before the next trainee line is the
      trainee's own, so even corrected, that turn's coaching call quotes the
      trainee's previous text as the customer's line. */
  lemma CorrectedAfterFailedReply(s: Session, text: string, userStamp: Stamp, e: string, replyStamp: Stamp,
                                  advice: Outcome, next: string, nextStamp: Stamp, reply: string,
                                  nextReplyStamp: Stamp)
    requires Accepts(s, text)
    requires Accepts(Send(s, text, userStamp, Fail(e), replyStamp, advice), next)
    ensures var t := Send(s, text, userStamp, Fail(e), replyStamp, advice);
      var calls := CorrectedSendAwaits(t, next, nextStamp, Ok(reply), nextReplyStamp);
      && t.messages != [] && t.messages[|t.messages| - 1].role == User
      && |calls| == 2 && calls[1].request.customerText == text
  {
    ReplyFailureKeepsTraineeLine(s, text, userStamp, e, replyStamp, advice);
  }
}
