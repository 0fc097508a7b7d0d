# MOT Trainer: the training-session state machine

MOT Trainer is a single-page app for practising service-recovery conversations.
The trainee picks an industry and a customer persona. A language model plays
the customer and opens with a complaint. The app then forwards each trainee
line, appends the customer's answer, asks a second "coach" call for a short
comment and tags, and moves the conversation through the four MOT stages
Explore, Offer, Action and Confirm as the transcript grows.

This project models the component state of `App.tsx` and its two handlers:

- `handleStartTraining` and `handleSendMessage`, the stage-advance rule, the
  parser of the coach's `"comment | tag1,tag2"` reply, and the view switches.
- The backend calls become parameters: each awaited call is an `Outcome`,
  either `Ok(text)` or `Fail(message)`.
- `Date.now()` readings become `Stamp` parameters.

The files:

- `stages.dfy` (module `Stages`): the `MOTStage` order and the stage rule.
- `text.dfy` (module `Text`): ECMAScript `String.prototype.trim`, and `split`
  and `join` with a one-character separator.
- `advice.dfy` (module `Advice`): the coach-reply parser and its round trip.
- `session.dfy` (module `SessionModel`):
  - the component state as a value, `Session`;
  - each handler as a function of it: `Start`, `Send` and `Step`, plus `Run`
    for a sequence of events;
  - the calls each handler awaits, each paired with the state on screen
    while that call is pending;
  - the invariant every reachable state keeps, and the properties of single
    turns and of whole sessions.
- `app.dfy` (module `Training`): the class `App`, one field per `useState`.
  Its methods make the handlers' updates in the source's order. Each is proved
  to end in exactly the state the matching `SessionModel` function computes.

Three consequences of the code as written, which the model keeps:

- The stage rule reads the number of lines *before* the trainee's line. So
  after two coached turns (five lines) the session is still in Explore. The
  third turn is the one that moves it to Offer (`OfferAfterThirdTurn`).
- The coach's reply is parsed as it arrives, with no check of its format. A
  reply with no `|` or with nothing after it yields the whole text before
  the bar, trimmed, as the comment and no tags. A failed coaching call sets
  `error` like any other failure.
- A failed opening call still switches to the training view. The screen
  shows an empty transcript and the error message.

## Model

| member | source | states |
|---|---|---|
| Stages.NextStage | App.tsx:86-89 | Explore→Offer iff the count is above 4, Offer→Action iff above 8, Action→Confirm iff above 12, Confirm stays; in every case the stage moves forward by at most one step, never back |
| Stages.NextStageBelowCeiling | App.tsx:86-89 | a step taken from a stage within the thresholds for a count stays within the thresholds for that count and every larger one |
| Text.SkipForward | App.tsx:63 | the index where the leading whitespace ends: everything before it is whitespace, the character there is not |
| Text.SkipBackward | App.tsx:63 | the index where the trailing whitespace begins: everything after it is whitespace, the character before it is not |
| Text.Trim | App.tsx:81-82 | `trim` never lengthens its input and leaves no whitespace at either end |
| Text.TrimIsTrimOf | App.tsx:81-82 | `trim` yields a slice of its input with only whitespace before and after it |
| Text.TrimOfUnique | App.tsx:81-82 | there is only one such trimmed slice, so `trim` is determined by that description |
| Text.TrimTrimmed | App.tsx:81-82 | a string with no whitespace at its ends is unchanged by `trim` |
| Text.TrimIdempotent | App.tsx:81-82 | trimming twice is trimming once |
| Text.TrimPadded | App.tsx:81-82 | `trim` removes exactly the whitespace put around a trimmed string |
| Text.BlankIffAllWhitespace | App.tsx:63 | `!text.trim()` holds exactly when the text is nothing but whitespace (the empty string included) |
| Text.IndexOf | App.tsx:79 | the position of the first occurrence of the separator: it is there, and nowhere before |
| Text.Split | App.tsx:79 | `split` gives at least one piece, no piece holds the separator, and joining the pieces with the separator gives back the input |
| Text.SplitAtFirst | App.tsx:79 | splitting cuts at the first separator: the piece before it, then the pieces of the rest |
| Text.SplitJoin | App.tsx:79 | splitting undoes joining when no part holds the separator |
| Text.InJoin | App.tsx:79 | every character of a part also occurs in the joined string |
| Advice.TrimEach | App.tsx:82 | `map(t => t.trim())`: same length, and each element is the matching piece with its surrounding whitespace removed, in the sense of the independent description `IsTrimOf` (which `TrimOfUnique` shows determines it) |
| Advice.ParseAdvice | App.tsx:79-83 | with no `\|` the comment is the whole reply trimmed and there are no tags; otherwise the comment is the text before the first `\|`, trimmed; the comment and every tag are trimmed and hold no separator |
| Advice.NotInJoin | App.tsx:82 | joining with a separator adds no character other than the separator |
| Advice.TagSegmentRoundTrip | App.tsx:82 | the tag segment `" " + join(tags, ",")` splits and trims back into the tags |
| Advice.TwoSegments | App.tsx:79 | a reply with one bar splits into the text before it and the text after it |
| Advice.FormatSegments | services/geminiService.ts:49 | a reply in the requested format `"comment \| tag1,tag2"` (`FormatAdvice`) splits at its bar into the padded comment and the padded tag list |
| Advice.AdviceRoundTrip | App.tsx:79-83 | parsing a reply written in the requested format gives back its comment and tags, for any trimmed, separator-free comment and one or more trimmed, separator-free tags; an empty tag list does not come back, since its segment `" "` is truthy and parses to `[""]` (`BlankTagSegment`) |
| Advice.ParseExample | App.tsx:79-83 | a two-tag reply in the format the coaching prompt requests (services/geminiService.ts:49), `做得很好 \| 同理心,效率`, parses into its comment and its two tags |
| Advice.ThreeSegments | App.tsx:79 | a reply with two bars splits into the first two segments followed by the pieces of the rest |
| Advice.ExtraSegmentsIgnored | App.tsx:79-83 | whatever follows a second `\|` does not change the parsed advice |
| Advice.TagsOfSegment | App.tsx:79-83 | for any reply with one `\|`, the tags are the text after it split at every comma and each piece trimmed, or none when nothing follows the bar; with `ExtraSegmentsIgnored` this fixes the tags of every reply |
| Advice.EmptyTagSegment | App.tsx:82 | a reply that ends at its bar has no tags |
| Advice.BlankTagSegment | App.tsx:82 | a tag segment of whitespace only is truthy, so it gives one empty tag rather than none |
| SessionModel.Initial | App.tsx:22-31 | the initial state (configuration view, stage Explore, empty transcript and history, the welcome advice, not loading, no error) satisfies the invariant |
| SessionModel.OpeningPromptNames | App.tsx:48 | the hidden opening prompt is the fixed wording with the persona's name, then the industry's name, at fixed places |
| SessionModel.StartCalls | App.tsx:40-50 | the start handler makes one call, with the opening prompt alone for the selected scenario at stage Explore, while the screen shows the training view, empty, loading and without error |
| SessionModel.Start | App.tsx:39-60 | a start clears and reinitialises the session: training view, stage Explore, not loading, scenario and advice kept; on success the transcript is the opening line alone and the history is [opening prompt, that line]; on failure both are empty and the error is shown |
| SessionModel.AcceptsIff | App.tsx:63 | a turn is taken exactly when no call is pending and the text holds a character other than whitespace |
| SessionModel.PendingScreens | App.tsx:64-76 | while the reply is awaited, the trainee's line is appended, loading shown and the error cleared, and nothing else changes; while the coaching is awaited, the reply follows that line and the history gains the (trainee, reply) pair |
| SessionModel.SendCalls | App.tsx:71-78 | a refused turn makes no call; an accepted one makes the reply call with the history extended by the text, then the coaching call only if the reply arrived; loading is shown while each is pending; the coaching call quotes as the customer's line the reply last on screen |
| SessionModel.Send | App.tsx:62-96 | a refused turn changes nothing; an accepted one ends not loading, keeps the view and scenario, adds at most two lines, and moves the stage forward by at most one step |
| SessionModel.SendExtends | App.tsx:65-76 | a turn only appends to the transcript and the history |
| SessionModel.PairAppended | App.tsx:71-76 | appending a (trainee, reply) pair keeps the history in pairs and adds the reply to its model texts |
| SessionModel.TraineeLineKeepsValid | App.tsx:64-65 | adding the trainee's line alone keeps the invariant |
| SessionModel.ExchangeKeepsValid | App.tsx:65-89 | adding a full exchange, and applying the stage rule or not, keeps the invariant |
| SessionModel.SendPreservesValid | App.tsx:62-96 | every turn, whatever its outcome, keeps the invariant: history in (user, model) pairs, the assistant lines equal to the model turns, only trainee and assistant lines, the stage within the thresholds |
| SessionModel.StartValid | App.tsx:39-60 | every start, from any state, ends in a state satisfying the invariant |
| SessionModel.ButtonsChangeOnlyViewOrSelection | App.tsx:113-308 | the cards and buttons (`Step` on any event other than the two handlers) change only the view or the selected scenario: the report button the view to Report, the back buttons to Config, a card the selection |
| SessionModel.StepPreservesValid | App.tsx:39-96 | every handler keeps the invariant |
| SessionModel.RunPreservesValid | App.tsx:39-96 | every state reached by any sequence of handlers from a valid state is valid |
| SessionModel.StageNeedsLines | App.tsx:86-89 | in a valid state, Offer needs more than five lines, Action more than nine, Confirm more than thirteen |
| SessionModel.ReplyFailureKeepsTraineeLine | App.tsx:64-72 | when the reply call fails the trainee's line stays, no reply is added, the history, advice and stage are unchanged, and the error is shown |
| SessionModel.AdviceFailureKeepsReply | App.tsx:74-92 | when only the coaching call fails both lines and the history pair are kept, the advice and the stage are unchanged, and the error is shown |
| SessionModel.CoachedTurn | App.tsx:62-96 | when both calls succeed the transcript gains the trainee's line then the reply, the history gains the user turn then the model turn, the advice is the parsed reply, and the stage is the rule applied to the count read before the turn |
| SessionModel.WhitespaceRefused | App.tsx:63 | whitespace-only input makes no call and changes nothing |
| SessionModel.TraineeLineShownFirst | App.tsx:64-72 | before the first call the trainee's line is on screen and the error cleared; that call gets the history extended by the text, at the stage read when the turn began |
| SessionModel.PendingRefusesTurns | App.tsx:39-66 | while any call of either handler is pending the screen shows loading, and a turn submitted then is refused without effect |
| SessionModel.StartForgetsPriorSession | App.tsx:39-60 | a restart depends on the earlier session only through the scenario and the advice on screen |
| SessionModel.SessionOnlyGrows | App.tsx:62-96 | until the next start the transcript and the history only grow and the stage never moves back |
| SessionModel.CoachedStep | App.tsx:62-96 | a coached turn adds two lines and advances the schedule by one turn |
| SessionModel.CoachedTurnsFrom | App.tsx:62-96 | n coached turns add 2n lines and put the session at the scheduled stage |
| SessionModel.ScheduleStep | App.tsx:86-89 | the stage rule applied after k coached turns gives the scheduled stage for k+1 |
| SessionModel.CoachedSession | App.tsx:39-96 | after an opening line and n coached turns the transcript holds 2n+1 lines; the stage is Explore for n ≤ 2, Offer for 3–4, Action for 5–6 and Confirm from 7 on |
| SessionModel.OfferAfterThirdTurn | App.tsx:86-87 | two coached turns give five lines and Explore; the third turn gives Offer |
| SessionModel.AsWrittenQuotesLaterLine | App.tsx:70-78 | as written (`AdviceRequestAsWritten`, inside `SendAwaits`), the coaching call of a turn carries the scenario, the stage read when the turn began and the trainee's text, and quotes as the customer's line the reply that came after the trainee's line |
| SessionModel.AsWrittenCounterexample | App.tsx:70-78 | a concrete session in which that quoted line differs from the customer's complaint the trainee was answering, the line before the trainee's |
| SessionModel.AdviceRequestQuotesAdjacentLines | App.tsx:70-78 | corrected (`CorrectedSendAwaits`), a turn makes the same calls with the same screens as written, except that the coaching call quotes `lastAiMsg`, the line before the trainee's ("" when there was none), with the trainee's own line, at the stage read when the turn began |
| SessionModel.CorrectedAfterFailedReply | App.tsx:64-72 | after a failed reply call the last line on screen is the trainee's own, so the next turn's corrected coaching call quotes the trainee's previous text as the customer's line |
| Training.App.constructor | App.tsx:22-31 | the fields start as the initial state and satisfy the invariant |
| Training.App.StartTraining | App.tsx:39-60 | the new state is `Start` of the old one, the call made is the opening request with the state shown while it is pending, and the invariant holds |
| Training.App.SendMessage | App.tsx:62-96 | the new state is `Send` of the old one, the calls made are those of `SendAwaits`, the coaching call with the arguments App.tsx:78 passes, each with the state shown while it is pending, and the invariant is kept |
| Training.App.ShowTraineeLine | App.tsx:64-67 | the trainee's line is appended, loading is set and the error cleared |
| Training.App.RecordReply | App.tsx:74-76 | the reply is appended to the transcript and the history becomes the request's history followed by the reply |
| Training.App.ApplyCoaching | App.tsx:79-89 | called with the stage still as read when the turn began, the advice becomes the parsed reply and the stage becomes `NextStage` of that stage and the count read then |
| Training.App.OpenReport | App.tsx:250 | the view becomes the report and nothing else changes |
| Training.App.ReturnToConfig | App.tsx:182 | the view becomes the configuration screen and nothing else changes (the same update is made at App.tsx:308) |
| Training.App.ChooseIndustry | App.tsx:113 | only the selected industry changes |
| Training.App.ChoosePersona | App.tsx:133 | only the selected persona changes |

## Left out

- The backend (`services/geminiService.ts`) is not part of this model. Its
  calls are represented by the arguments the handler passes, in `Request`,
  and by their outcomes. The system instructions and `process.env.API_KEY`
  are not modelled.
- The evaluation request at App.tsx:250 and the `evalData` state are not
  modelled: the promise is fire-and-forget and its content comes from the
  backend. `OpenReport` models only the view switch.
- Rendering (the JSX at App.tsx:98-323), the scroll effect, icons, and the
  voice-input component are not modelled.
- `Date.now()` is a clock reading, so message ids and timestamps are opaque
  `Stamp` parameters. The `+ 1` in the reply's id is not modelled.
- A `response.text` that is `undefined` is not modelled. For the coaching
  call, its effect (a `TypeError` from `split`, caught and shown) matches a
  `Fail` outcome.
- React's deferred `setState` and async interleaving are not modelled. Each
  handler runs to completion as one method, and the reads of `messages` and
  `currentStage` see the values from when the turn began. The busy guard is
  stated over the states shown while calls are pending (`PendingRefusesTurns`).
  The reset button (App.tsx:182) and then the start button (App.tsx:154) stay
  clickable while a turn's calls are pending. A new session started then is
  not modelled: the old handler, on resuming, would append its reply to the
  new transcript (App.tsx:75), overwrite `apiHistory` with the old history
  (App.tsx:76), possibly set the old session's stage (App.tsx:87-89), and
  clear `isLoading` while the new opening call is still pending (App.tsx:94).
  `RunPreservesValid` holds for handlers that each run to completion before
  the next event.
- The catalog (`constants.tsx`) is not modelled. The default industry and
  persona are constructor parameters. `Industry` and `Persona` keep only the
  fields the handlers read.
- The `dashboard` view exists in the type but no handler selects it.
- JavaScript strings are UTF-16 code units while Dafny's `char` is a Unicode
  scalar value. `trim` and `split` on the characters involved are unaffected.
- SessionModel.Send: its own contract states only the frame and the bounds.
  The exact outcome of each case is stated by `ReplyFailureKeepsTraineeLine`,
  `AdviceFailureKeepsReply` and `CoachedTurn`.

## Findings

| source | as written | input that shows it | evidently intended | confidence | as-written member | corrected member |
|---|---|---|---|---|---|---|
| App.tsx:70-78 | the coaching call's "what the customer just said" argument is `aiResponse`, the customer's answer that came *after* the trainee's line; `lastAiMsg`, the line before the trainee's, is computed and never used | opening line "我等了一个小时了！", trainee "非常抱歉让您久等了", reply "那你们打算怎么办？": the coach is told the customer said "那你们打算怎么办？" | pass `lastAiMsg`, so the coach judges the trainee's line against the line before it; that is the customer's line, except after a failed reply call, when it is the trainee's own previous line (`CorrectedAfterFailedReply`) | medium, not executed | SessionModel.AsWrittenCounterexample | SessionModel.AdviceRequestQuotesAdjacentLines |

`SendAwaits` and `Training.App.SendMessage` record the coaching call as the
handler makes it. `CorrectedSendAwaits` is the same turn with the intended
argument; the state a turn leaves behind does not depend on that argument.
