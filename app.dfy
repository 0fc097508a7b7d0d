/** The trainer screen as an object: one field per piece of component state,
    one method per handler. Each method performs the handler's updates in
    the handler's order, with the awaited backend calls replaced by their
    outcomes, and is proved to end in the state the corresponding function
    of `SessionModel` computes. */
module Training {
  import opened Stages
  import opened Text
  import opened Advice
  import opened SessionModel

  class App {
    var view: View
    var selectedIndustry: Industry
    var selectedPersona: Persona
    var currentStage: Stage
    var messages: seq<Message>
    var apiHistory: seq<ApiTurn>
    var coachAdvice: CoachAdvice
    var isLoading: bool
    var error: Option<string>

    /** The fields, read as one value. */
    function State(): Session
      reads this
    {
      Session(view, selectedIndustry, selectedPersona, currentStage, messages, apiHistory,
              coachAdvice, isLoading, error)
    }

    ghost predicate Valid()
      reads this
    {
      SessionModel.Valid(State())
    }

    /** The initial render, with the catalog's default industry and persona. */
    constructor (industry: Industry, persona: Persona)
      ensures State() == Initial(industry, persona)
      ensures Valid()
    {
      view := Config;
      selectedIndustry := industry;
      selectedPersona := persona;
      currentStage := Explore;
      messages := [];
      apiHistory := [];
      coachAdvice := InitialAdvice;
      isLoading := false;
      error := None;
    }

    /** `handleStartTraining`, with `reply` the outcome of the opening call
        and `time` the clock reading for the opening line. `awaited` holds
        the call made and the state on screen while it was pending. */
    method StartTraining(time: int, reply: Outcome) returns (awaited: seq<Await>)
      modifies this
      ensures State() == Step(old(State()), Event.StartTraining(time, reply))
      ensures awaited == StartAwaits(old(State()))
      ensures Valid()
    {
      view := Training;
      error := None;
      isLoading := true;
      messages := [];
      apiHistory := [];
      currentStage := Explore;
      var firstUserTurn := ApiTurn(UserTurn, OpeningPrompt(selectedIndustry, selectedPersona));
      awaited := [Await(ReplyRequest(selectedIndustry, selectedPersona, Explore, [firstUserTurn]), State())];
      match reply {
        case Ok(firstMsg) =>
          messages := [Message("1", Assistant, firstMsg, time)];
          apiHistory := [firstUserTurn, ApiTurn(ModelTurn, firstMsg)];
        case Fail(e) =>
          error := Some(e);
      }
      isLoading := false;
      StartValid(old(State()), time, reply);
    }

    /** `handleSendMessage`, with `reply` and `advice` the outcomes of the
        two backend calls and `userStamp`, `replyStamp` the clock readings
        for the two lines. `awaited` holds the calls made, in order, each
        with the state on screen while it was pending. The message count and
        the stage the rule reads are the ones the handler saw when the turn
        began. */
    method SendMessage(text: string, userStamp: Stamp, reply: Outcome, replyStamp: Stamp, advice: Outcome)
      returns (awaited: seq<Await>)
      modifies this
      ensures State() == Step(old(State()), Event.SendMessage(text, userStamp, reply, replyStamp, advice))
      ensures awaited == SendAwaits(old(State()), text, userStamp, reply, replyStamp)
      ensures old(Valid()) ==> Valid()
    {
      if IsBlank(text) || isLoading {
        return [];
      }
      ghost var s := State();
      var count := |messages|;
      var stage := currentStage;
      ShowTraineeLine(text, userStamp);
      var newApiHistory := apiHistory + [ApiTurn(UserTurn, text)];
      awaited := [Await(ReplyRequest(selectedIndustry, selectedPersona, stage, newApiHistory), State())];
      match reply {
        case Fail(e) =>
          error := Some(e);
        case Ok(aiResponse) =>
          RecordReply(newApiHistory, aiResponse, replyStamp);
          awaited := awaited + [Await(AdviceRequest(selectedIndustry, selectedPersona, stage,
                                                    aiResponse, text), State())];
          match advice {
            case Fail(e) =>
              error := Some(e);
            case Ok(adviceRaw) =>
              ApplyCoaching(adviceRaw, count, stage);
          }
      }
      isLoading := false;
      assert State() == Send(s, text, userStamp, reply, replyStamp, advice);
      if SessionModel.Valid(s) {
        SendPreservesValid(s, text, userStamp, reply, replyStamp, advice);
      }
    }

    /** The updates made before the reply is awaited: the trainee's line is
        appended, loading is shown and the error cleared. */
    method ShowTraineeLine(text: string, userStamp: Stamp)
      modifies this
      ensures State() == ReplyPending(old(State()), text, userStamp)
    {
      messages := messages + [Message(userStamp.id, User, text, userStamp.time)];
      isLoading := true;
      error := None;
    }

    /** The updates made once the reply has arrived: the reply is appended
        to the transcript, and the history becomes the one the reply call
        was given, followed by the reply. */
    method RecordReply(newApiHistory: seq<ApiTurn>, aiResponse: string, replyStamp: Stamp)
      modifies this
      ensures State() == old(State()).(
                messages := old(messages) + [Message(replyStamp.id, Assistant, aiResponse, replyStamp.time)],
                apiHistory := newApiHistory + [ApiTurn(ModelTurn, aiResponse)])
    {
      messages := messages + [Message(replyStamp.id, Assistant, aiResponse, replyStamp.time)];
      apiHistory := newApiHistory + [ApiTurn(ModelTurn, aiResponse)];
    }

    /** The updates made once the coaching has arrived: the parsed advice is
        shown, and the three stage tests, all against the `stage` and the
        `count` read when the turn began, are applied in order. */
    method ApplyCoaching(adviceRaw: string, count: int, stage: Stage)
      requires currentStage == stage
      modifies this
      ensures State() == old(State()).(advice := ParseAdvice(adviceRaw), stage := NextStage(stage, count))
    {
      coachAdvice := ParseAdvice(adviceRaw);
      if count > 4 && stage == Explore { currentStage := Offer; }
      if count > 8 && stage == Offer { currentStage := Action; }
      if count > 12 && stage == Action { currentStage := Confirm; }
    }

    /** The report button: switches to the report view. */
    method OpenReport()
      modifies this
      ensures State() == Step(old(State()), Event.OpenReport)
      ensures old(Valid()) ==> Valid()
    {
      view := Report;
    }

    /** The two buttons back to the configuration screen. */
    method ReturnToConfig()
      modifies this
      ensures State() == Step(old(State()), Event.BackToConfig)
      ensures old(Valid()) ==> Valid()
    {
      view := Config;
    }

    /** Clicking an industry card. */
    method ChooseIndustry(industry: Industry)
      modifies this
      ensures State() == Step(old(State()), Event.PickIndustry(industry))
      ensures old(Valid()) ==> Valid()
    {
      selectedIndustry := industry;
    }

    /** Clicking a persona card. */
    method ChoosePersona(persona: Persona)
      modifies this
      ensures State() == Step(old(State()), Event.PickPersona(persona))
      ensures old(Valid()) ==> Valid()
    {
      selectedPersona := persona;
    }
  }
}
