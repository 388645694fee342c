/** The analytics slice state: the three computed lists, the shared request status
    and the last error. */
module Analytics {
  import opened Types
  import Fatigue

  /** The three computations, for the rejected handlers' default messages. */
  datatype Computation = FatigueModels | MinutesDistributions | LineupEvaluation

  /** The message a rejected computation records when the error carries none. */
  function DefaultError(c: Computation): (text: string)
    ensures text != ""
  {
    match c
    case FatigueModels => "Failed to calculate fatigue models"
    case MinutesDistributions => "Failed to calculate minutes distribution"
    case LineupEvaluation => "Failed to evaluate lineup effectiveness"
  }

  class AnalyticsState {
    var fatigueModels: seq<FatigueModel>
    var minutesDistribution: seq<MinutesDistribution>
    var lineupEffectiveness: seq<LineupEffectiveness>
    var status: Status
    var error: Option<string>

    /** Nothing computed, no request made. */
    ghost predicate IsCleared()
      reads this
    {
      fatigueModels == [] && minutesDistribution == [] && lineupEffectiveness == []
      && status == Idle && error == None
    }

    /** `initialState`. */
    constructor()
      ensures IsCleared()
    {
      fatigueModels := [];
      minutesDistribution := [];
      lineupEffectiveness := [];
      status := Idle;
      error := None;
    }

    /** `clearAnalytics`: back to the initial state. */
    method ClearAnalytics()
      modifies this
      ensures IsCleared()
    {
      fatigueModels := [];
      minutesDistribution := [];
      lineupEffectiveness := [];
      status := Idle;
      error := None;
    }

    /** The `pending` handler, the same for all three computations. */
    method Pending()
      modifies this
      ensures status == Loading
      ensures fatigueModels == old(fatigueModels) && minutesDistribution == old(minutesDistribution)
      ensures lineupEffectiveness == old(lineupEffectiveness) && error == old(error)
    {
      status := Loading;
    }

    /** `calculateFatigueModels.fulfilled`. */
    method FatigueModelsFulfilled(payload: seq<FatigueModel>)
      modifies this
      ensures status == Succeeded && fatigueModels == payload
      ensures minutesDistribution == old(minutesDistribution) && lineupEffectiveness == old(lineupEffectiveness)
      ensures error == old(error)
    {
      status := Succeeded;
      fatigueModels := payload;
    }

    /** `calculateMinutesDistribution.fulfilled`. */
    method MinutesDistributionFulfilled(payload: seq<MinutesDistribution>)
      modifies this
      ensures status == Succeeded && minutesDistribution == payload
      ensures fatigueModels == old(fatigueModels) && lineupEffectiveness == old(lineupEffectiveness)
      ensures error == old(error)
    {
      status := Succeeded;
      minutesDistribution := payload;
    }

    /** `evaluateLineupEffectiveness.fulfilled`. */
    method LineupEffectivenessFulfilled(payload: seq<LineupEffectiveness>)
      modifies this
      ensures status == Succeeded && lineupEffectiveness == payload
      ensures fatigueModels == old(fatigueModels) && minutesDistribution == old(minutesDistribution)
      ensures error == old(error)
    {
      status := Succeeded;
      lineupEffectiveness := payload;
    }

    /** The `rejected` handlers: the computed lists are kept, the error records the
        message or the computation's default. */
    method Rejected(c: Computation, message: Option<string>)
      modifies this
      ensures status == Failed && error == Some(ErrorText(message, DefaultError(c)))
      ensures fatigueModels == old(fatigueModels) && minutesDistribution == old(minutesDistribution)
      ensures lineupEffectiveness == old(lineupEffectiveness)
    {
      status := Failed;
      error := Some(ErrorText(message, DefaultError(c)));
    }

    /** A fatigue request that succeeds: pending, the computation, then fulfilled.
        The stored models are one per assignment, each following the fatigue rule. */
    method RefreshFatigueModels(current: Option<Rotation>, players: seq<Player>)
      modifies this
      ensures status == Succeeded
      ensures current.None? ==> fatigueModels == []
      ensures current.Some? ==> |fatigueModels| == |current.value.playerAssignments|
      ensures current.Some? ==> forall j :: 0 <= j < |fatigueModels| ==>
        Fatigue.IsFatigueModelFor(fatigueModels[j], current.value.playerAssignments[j], players)
      ensures minutesDistribution == old(minutesDistribution) && lineupEffectiveness == old(lineupEffectiveness)
      ensures error == old(error)
    {
      Pending();
      var models := Fatigue.CalculateFatigueModels(current, players);
      FatigueModelsFulfilled(models);
    }
  }
}
