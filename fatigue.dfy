/** The fatigue simulator: one curve per player assignment, sampled every
    60 seconds over a 48-minute game, with a running value clamped to [0, 100]. */
module Fatigue {
  import opened Types
  import opened Timeline

  const StepSeconds: int := 60
  const Samples: int := 48
  /** Recovery subtracted on every off-court step. */
  const RecoveryPerStep: real := 0.05
  /** Consecutive minutes assumed when the player is unknown or has 0 there. */
  const DefaultConsecutive: real := 5.0

  /** `Math.max(0, Math.min(100, x))`. */
  function Clamp(x: real): (r: real)
    ensures 0.0 <= r <= 100.0
    ensures 0.0 <= x <= 100.0 ==> r == x
    ensures x < 0.0 ==> r == 0.0
    ensures x > 100.0 ==> r == 100.0
  {
    if x < 0.0 then 0.0 else if x > 100.0 then 100.0 else x
  }

  /** `player?.minutes.consecutive || 5`: the player's consecutive-minutes limit,
      or 5 when the player is not in the roster or the limit is 0. */
  function ConsecutiveFor(players: seq<Player>, id: string): (c: real)
    ensures c != 0.0
    ensures FindPlayer(players, id).None? ==> c == DefaultConsecutive
    ensures FindPlayer(players, id).Some? && FindPlayer(players, id).value.minutes.consecutive != 0.0
            ==> c == FindPlayer(players, id).value.minutes.consecutive
    ensures FindPlayer(players, id).Some? && FindPlayer(players, id).value.minutes.consecutive == 0.0
            ==> c == DefaultConsecutive
    ensures (forall p :: p in players ==> p.minutes.consecutive >= 0.0) ==> c > 0.0
  {
    match FindPlayer(players, id)
    case None => DefaultConsecutive
    case Some(p) => if p.minutes.consecutive != 0.0 then p.minutes.consecutive else DefaultConsecutive
  }

  /** The on-court rate `100 / (c * 60)`, added once per 60-second step. */
  function OnCourtGain(c: real): real
    requires c != 0.0
  {
    100.0 / (c * 60.0)
  }

  /** One step of the running value: add the gain on court, subtract the recovery off court, clamp. */
  function FatigueStep(previous: real, onCourt: bool, gain: real): real
  {
    Clamp(previous + (if onCourt then gain else -RecoveryPerStep))
  }

  /** The value before sample `i`: the previous sample, or 0 before the first. */
  function Previous(values: seq<real>, i: int): real
    requires 0 <= i <= |values|
  {
    if i == 0 then 0.0 else values[i - 1]
  }

  /** `values` is the curve the simulator produces for `segments` with on-court gain `gain`:
      48 samples, each one step on from the previous one (from 0 for the first),
      on court exactly when some on-court segment covers the sample time. */
  ghost predicate FollowsFatigueRule(segments: seq<TimeSegment>, gain: real, values: seq<real>)
  {
    && |values| == Samples
    && (forall i {:trigger Previous(values, i)} :: 0 <= i < Samples ==>
          values[i] == FatigueStep(Previous(values, i), OnCourtAt(segments, i * StepSeconds), gain))
  }

  /** `ts` is `0, 60, ..., 2820`. */
  ghost predicate SampleTimes(ts: seq<int>)
  {
    |ts| == Samples && forall i :: 0 <= i < |ts| ==> ts[i] == i * StepSeconds
  }

  /** The model the program builds for one assignment. */
  ghost predicate IsFatigueModelFor(m: FatigueModel, pa: PlayerAssignment, players: seq<Player>)
  {
    && m.playerId == pa.playerId
    && SampleTimes(m.timestamps)
    && FollowsFatigueRule(pa.segments, OnCourtGain(ConsecutiveFor(players, pa.playerId)), m.fatigueValues)
  }

  /** The sampling loop for one player. */
  method SimulateFatigue(segments: seq<TimeSegment>, gain: real) returns (timestamps: seq<int>, values: seq<real>)
    ensures SampleTimes(timestamps)
    ensures FollowsFatigueRule(segments, gain, values)
    ensures forall i :: 0 <= i < |values| ==> 0.0 <= values[i] <= 100.0
  {
    timestamps, values := [], [];
    var time := 0;
    while time < Samples * StepSeconds
      invariant time == |values| * StepSeconds && |values| <= Samples
      invariant |timestamps| == |values|
      invariant forall i :: 0 <= i < |timestamps| ==> timestamps[i] == i * StepSeconds
      invariant forall i {:trigger Previous(values, i)} :: 0 <= i < |values| ==>
        values[i] == FatigueStep(Previous(values, i), OnCourtAt(segments, i * StepSeconds), gain)
      invariant forall i :: 0 <= i < |values| ==> 0.0 <= values[i] <= 100.0
    {
      timestamps := timestamps + [time];
      var onCourt := OnCourtAt(segments, time);
      var previous := if |values| > 0 then values[|values| - 1] else 0.0;
      var rate := if onCourt then gain else -RecoveryPerStep;
      var next := Clamp(previous + rate);
      assert forall i :: 0 <= i <= |values| ==> Previous(values + [next], i) == Previous(values, i);
      values := values + [next];
      time := time + StepSeconds;
    }
  }

  /** `calculateFatigueModels`: no rotation gives no models; otherwise one model per
      assignment, in assignment order. */
  method CalculateFatigueModels(current: Option<Rotation>, players: seq<Player>) returns (models: seq<FatigueModel>)
    ensures current.None? ==> models == []
    ensures current.Some? ==> |models| == |current.value.playerAssignments|
    ensures current.Some? ==> forall j :: 0 <= j < |models| ==>
      IsFatigueModelFor(models[j], current.value.playerAssignments[j], players)
    ensures forall j, i :: 0 <= j < |models| && 0 <= i < |models[j].fatigueValues| ==>
      0.0 <= models[j].fatigueValues[i] <= 100.0
  {
    models := [];
    if current.None? {
      return;
    }
    var assignments := current.value.playerAssignments;
    var j := 0;
    while j < |assignments|
      invariant 0 <= j <= |assignments| && |models| == j
      invariant forall k :: 0 <= k < j ==> IsFatigueModelFor(models[k], assignments[k], players)
      invariant forall k, i :: 0 <= k < j && 0 <= i < |models[k].fatigueValues| ==>
        0.0 <= models[k].fatigueValues[i] <= 100.0
    {
      var pa := assignments[j];
      var c := ConsecutiveFor(players, pa.playerId);
      var timestamps, values := SimulateFatigue(pa.segments, OnCourtGain(c));
      models := models + [FatigueModel(pa.playerId, timestamps, values)];
      j := j + 1;
    }
  }

  /** With a non-negative gain, an on-court step never lowers the value and an
      off-court step never raises it. */
  lemma StepDirection(segments: seq<TimeSegment>, gain: real, values: seq<real>, i: int)
    requires FollowsFatigueRule(segments, gain, values)
    requires gain >= 0.0 && 0 < i < Samples
    ensures OnCourtAt(segments, i * StepSeconds) ==> values[i] >= values[i - 1]
    ensures !OnCourtAt(segments, i * StepSeconds) ==> values[i] <= values[i - 1]
  {
    assert values[i - 1] == FatigueStep(Previous(values, i - 1), OnCourtAt(segments, (i - 1) * StepSeconds), gain);
    assert values[i] == FatigueStep(Previous(values, i), OnCourtAt(segments, i * StepSeconds), gain);
  }

  /** Every player the roster gives a non-negative limit accrues fatigue on court. */
  lemma GainIsPositive(players: seq<Player>, id: string)
    requires forall p :: p in players ==> p.minutes.consecutive >= 0.0
    ensures OnCourtGain(ConsecutiveFor(players, id)) > 0.0
  {
  }

  function MinReal(a: real, b: real): real { if a < b then a else b }

  /** The fatigue `n` uninterrupted on-court steps add up to before any clamping. */
  function Accrued(n: nat, gain: real): (total: real)
    ensures gain >= 0.0 ==> total >= 0.0
  {
    if n == 0 then 0.0 else Accrued(n - 1, gain) + gain
  }

  lemma {:induction false} AccruedIsProduct(n: nat, gain: real)
    ensures Accrued(n, gain) == n as real * gain
  {
    if n > 0 {
      AccruedIsProduct(n - 1, gain);
      assert (n - 1) as real * gain + gain == n as real * gain;
    }
  }

  /** A player on court at every sample up to `k` has fatigue `min(100, (k + 1) * gain)` there. */
  lemma {:induction false} ContinuousPlay(segments: seq<TimeSegment>, gain: real, values: seq<real>, k: int)
    requires FollowsFatigueRule(segments, gain, values)
    requires gain >= 0.0 && 0 <= k < Samples
    requires forall i :: 0 <= i <= k ==> OnCourtAt(segments, i * StepSeconds)
    ensures values[k] == MinReal(100.0, (k + 1) as real * gain)
  {
    ContinuousAccrual(segments, gain, values, k);
    AccruedIsProduct(k + 1, gain);
    assert Accrued(k + 1, gain) == (k + 1) as real * gain;
  }

  lemma {:induction false} ContinuousAccrual(segments: seq<TimeSegment>, gain: real, values: seq<real>, k: int)
    requires FollowsFatigueRule(segments, gain, values)
    requires gain >= 0.0 && 0 <= k < Samples
    requires forall i :: 0 <= i <= k ==> OnCourtAt(segments, i * StepSeconds)
    ensures values[k] == MinReal(100.0, Accrued(k + 1, gain))
  {
    assert OnCourtAt(segments, k * StepSeconds);
    var before := Previous(values, k);
    assert values[k] == Clamp(before + gain);
    if k == 0 {
      assert before == 0.0;
    } else {
      ContinuousAccrual(segments, gain, values, k - 1);
      assert before == values[k - 1];
      ClampAfterMin(Accrued(k, gain), gain);
    }
  }

  lemma ClampAfterMin(x: real, gain: real)
    requires gain >= 0.0 && x >= 0.0
    ensures Clamp(MinReal(100.0, x) + gain) == MinReal(100.0, x + gain)
  {
  }

  /** What the program computes for a player with an 8-minute limit who plays the
      whole first quarter: after the sample at 480 s the value is only 1.875, not 100. */
  lemma AsWrittenEightMinutePlayer(values: seq<real>)
    requires FollowsFatigueRule([TimeSegment(0, 720, true)], OnCourtGain(8.0), values)
    ensures values[8] == 1.875
  {
    var segments := [TimeSegment(0, 720, true)];
    forall i | 0 <= i <= 8 ensures OnCourtAt(segments, i * StepSeconds) {
      assert segments[0].startTime <= i * StepSeconds <= segments[0].endTime;
    }
    ContinuousPlay(segments, OnCourtGain(8.0), values, 8);
  }

  /** The gain per 60-second step that makes `c` consecutive minutes exhaust a player. */
  function IntendedOnCourtGain(c: real): real
    requires c != 0.0
  {
    100.0 / c
  }

  /** With the intended gain, a player on court from tip-off first reaches 100 at the
      sample taken `c - 1` minutes in: the sample at 0 already adds one step of gain. */
  lemma IntendedGainReachesFull(segments: seq<TimeSegment>, c: nat, values: seq<real>)
    requires 0 < c <= Samples
    requires FollowsFatigueRule(segments, IntendedOnCourtGain(c as real), values)
    requires forall i :: 0 <= i < c ==> OnCourtAt(segments, i * StepSeconds)
    ensures values[c - 1] == 100.0
    ensures c >= 2 ==> values[c - 2] < 100.0
  {
    var gain := IntendedOnCourtGain(c as real);
    ContinuousAccrual(segments, gain, values, c - 1);
    IntendedGainSteps(c);
    if c >= 2 {
      ContinuousAccrual(segments, gain, values, c - 2);
    }
  }

  /** `c` steps of `100 / c` add up to exactly 100, and `c - 1` of them fall short. */
  lemma IntendedGainSteps(c: nat)
    requires c > 0
    ensures Accrued(c, IntendedOnCourtGain(c as real)) == 100.0
    ensures Accrued(c - 1, IntendedOnCourtGain(c as real)) < 100.0
  {
    var g := IntendedOnCourtGain(c as real);
    AccruedIsProduct(c, g);
    WholeOfParts(c as real);
    assert Accrued(c, g) == Accrued(c - 1, g) + g;
  }

  lemma WholeOfParts(d: real)
    requires d > 0.0
    ensures d * (100.0 / d) == 100.0
    ensures 100.0 / d > 0.0
  {
  }

  /** For any positive limit `c`, whole or not, a player on court from tip-off with the
      intended gain is at 100 at sample `k` exactly when `k + 1` steps cover `c` minutes. */
  lemma IntendedGainFullAt(segments: seq<TimeSegment>, c: real, values: seq<real>, k: int)
    requires c > 0.0
    requires FollowsFatigueRule(segments, IntendedOnCourtGain(c), values)
    requires 0 <= k < Samples
    requires forall i :: 0 <= i <= k ==> OnCourtAt(segments, i * StepSeconds)
    ensures values[k] == 100.0 <==> (k + 1) as real >= c
  {
    ContinuousPlay(segments, IntendedOnCourtGain(c), values, k);
    ScaledReaches((k + 1) as real, c);
  }

  /** `n` steps of `100 / c` reach 100 exactly when `n >= c`. */
  lemma ScaledReaches(n: real, c: real)
    requires c > 0.0
    ensures n * IntendedOnCourtGain(c) >= 100.0 <==> n >= c
  {
    var g := IntendedOnCourtGain(c);
    WholeOfParts(c);
    assert c * g == 100.0;
    assert (n - c) * g == n * g - c * g;
    if n >= c {
      assert (n - c) * g >= 0.0;
    } else {
      assert (n - c) * g < 0.0;
    }
  }
}
