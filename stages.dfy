/** The four phases of a service-recovery conversation and the rule that moves
    a training session from one to the next. */
module Stages {

  /** `MOTStage`, in conversation order. */
  datatype Stage = Explore | Offer | Action | Confirm

  /** Position of a stage in the order Explore < Offer < Action < Confirm. */
  function Rank(s: Stage): nat {
    match s
    case Explore => 0
    case Offer => 1
    case Action => 2
    case Confirm => 3
  }

  /** The stage after a turn that started in `stage` when the message log
      held `count` messages. The three threshold tests all compare against
      the stage read at the start of the turn, so they are mutually exclusive:
      a turn moves the session forward by at most one stage. */
  function NextStage(stage: Stage, count: int): (next: Stage)
    ensures Rank(stage) <= Rank(next) <= Rank(stage) + 1
    ensures (stage == Explore && next == Offer) <==> (stage == Explore && count > 4)
    ensures (stage == Offer && next == Action) <==> (stage == Offer && count > 8)
    ensures (stage == Action && next == Confirm) <==> (stage == Action && count > 12)
    ensures stage == Confirm ==> next == Confirm
  {
    match stage
    case Explore => if count > 4 then Offer else Explore
    case Offer => if count > 8 then Action else Offer
    case Action => if count > 12 then Confirm else Action
    case Confirm => Confirm
  }

  /** The furthest stage the thresholds allow once a turn has started with
      `count` messages in the log. */
  function Ceiling(count: int): Stage {
    if count > 12 then Confirm
    else if count > 8 then Action
    else if count > 4 then Offer
    else Explore
  }

  /** A stage step never leaves the session ahead of what the thresholds
      allow for the count it was taken at, or for any later count. */
  lemma NextStageBelowCeiling(stage: Stage, count: int, later: int)
    requires Rank(stage) <= Rank(Ceiling(count)) && count <= later
    ensures Rank(NextStage(stage, count)) <= Rank(Ceiling(later))
  {
  }
}
