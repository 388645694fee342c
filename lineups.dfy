/** The lineup evaluator: split the game at every segment boundary, keep the
    slices of at least 60 seconds with exactly five players on court, and rate them. */
module Lineups {
  import opened Types
  import opened Timeline

  const MinSliceSeconds: int := 60
  const LineupSize: int := 5

  // ---------------------------------------------------------------------------
  // Breakpoints

  /** `flatMap` of every assignment's segments, off-court ones included. */
  function AllSegments(assignments: seq<PlayerAssignment>): (r: seq<TimeSegment>)
    ensures forall s :: s in r <==> exists j :: 0 <= j < |assignments| && s in assignments[j].segments
  {
    if |assignments| == 0 then []
    else
      var rest := AllSegments(assignments[1..]);
      assert forall j :: 1 <= j < |assignments| ==> assignments[j] == assignments[1..][j - 1];
      assignments[0].segments + rest
  }

  /** The start and end time of every segment. */
  function Endpoints(segments: seq<TimeSegment>): (r: seq<int>)
    ensures forall t :: t in r <==> exists s :: s in segments && (t == s.startTime || t == s.endTime)
  {
    if |segments| == 0 then []
    else
      var rest := Endpoints(segments[1..]);
      assert forall s :: s in segments[1..] ==> s in segments;
      assert forall s :: s in segments && s != segments[0] ==> s in segments[1..];
      [segments[0].startTime, segments[0].endTime] + rest
  }

  ghost predicate StrictlyIncreasing(r: seq<int>)
  {
    forall i, j :: 0 <= i < j < |r| ==> r[i] < r[j]
  }

  function ElemSet<T>(s: seq<T>): set<T>
  {
    set x | x in s
  }

  /** Insert `x` into a strictly increasing sequence, keeping it strictly increasing. */
  function Insert(x: int, r: seq<int>): (r': seq<int>)
    requires StrictlyIncreasing(r)
    ensures StrictlyIncreasing(r')
    ensures ElemSet(r') == ElemSet(r) + {x}
    ensures |r'| > 0 && (r'[0] == x || (|r| > 0 && r'[0] == r[0]))
  {
    if r == [] then [x]
    else if x < r[0] then [x] + r
    else if x == r[0] then r
    else
      var rest := Insert(x, r[1..]);
      assert ElemSet(r) == {r[0]} + ElemSet(r[1..]);
      assert ElemSet([r[0]] + rest) == {r[0]} + ElemSet(rest);
      [r[0]] + rest
  }

  /** `[...new Set(xs)].sort((a, b) => a - b)`: the distinct values in ascending order. */
  function SortedDistinct(xs: seq<int>): (r: seq<int>)
    ensures StrictlyIncreasing(r)
    ensures ElemSet(r) == ElemSet(xs)
  {
    if xs == [] then []
    else
      var init := xs[..|xs| - 1];
      assert xs == init + [xs[|xs| - 1]];
      assert ElemSet(xs) == ElemSet(init) + {xs[|xs| - 1]};
      Insert(xs[|xs| - 1], SortedDistinct(init))
  }

  lemma EmptyElemSet<T>(a: seq<T>)
    ensures ElemSet(a) == {} <==> a == []
  {
    if a != [] {
      assert a[0] in ElemSet(a);
    }
  }

  /** A strictly increasing sequence is determined by its elements, so any way of
      deduplicating and sorting the boundaries gives the same breakpoints. */
  lemma {:induction false} StrictlyIncreasingUnique(a: seq<int>, b: seq<int>)
    requires StrictlyIncreasing(a) && StrictlyIncreasing(b)
    requires ElemSet(a) == ElemSet(b)
    ensures a == b
  {
    EmptyElemSet(a);
    EmptyElemSet(b);
    if a != [] && b != [] {
      assert a[0] in ElemSet(b) && b[0] in ElemSet(a);
      assert a[0] == b[0];
      assert ElemSet(a) == {a[0]} + ElemSet(a[1..]);
      assert ElemSet(b) == {b[0]} + ElemSet(b[1..]);
      assert a[0] !in ElemSet(a[1..]) && b[0] !in ElemSet(b[1..]);
      assert ElemSet(a[1..]) == ElemSet(b[1..]);
      StrictlyIncreasingUnique(a[1..], b[1..]);
      assert a == [a[0]] + a[1..] && b == [b[0]] + b[1..];
    }
  }

  /** The candidate breakpoints: every boundary of every segment (on or off court),
      deduplicated and ascending. */
  function BreakPoints(assignments: seq<PlayerAssignment>): (points: seq<int>)
    ensures StrictlyIncreasing(points)
    ensures forall t :: t in points <==>
      exists j, s :: 0 <= j < |assignments| && s in assignments[j].segments && (t == s.startTime || t == s.endTime)
  {
    var all := AllSegments(assignments);
    var points := SortedDistinct(Endpoints(all));
    assert forall t :: t in points <==> t in ElemSet(points);
    points
  }

  // ---------------------------------------------------------------------------
  // Who is on court during a slice

  /** `assignments.filter(pa => pa.segments.some(...)).map(pa => pa.playerId)`:
      the ids, in assignment order, of the assignments on court throughout `[t0, t1]`. */
  function PlayersOnCourt(assignments: seq<PlayerAssignment>, t0: int, t1: int): (ids: seq<string>)
    ensures |ids| <= |assignments|
    ensures forall id :: id in ids <==>
      exists j :: 0 <= j < |assignments| && assignments[j].playerId == id && OnCourtThrough(assignments[j].segments, t0, t1)
  {
    if |assignments| == 0 then []
    else
      var rest := PlayersOnCourt(assignments[1..], t0, t1);
      assert forall j :: 1 <= j < |assignments| ==> assignments[j] == assignments[1..][j - 1];
      (if OnCourtThrough(assignments[0].segments, t0, t1) then [assignments[0].playerId] else []) + rest
  }

  /** The filter keeps assignment order: it distributes over concatenation. */
  lemma {:induction false} PlayersOnCourtKeepsOrder(a: seq<PlayerAssignment>, b: seq<PlayerAssignment>, t0: int, t1: int)
    ensures PlayersOnCourt(a + b, t0, t1) == PlayersOnCourt(a, t0, t1) + PlayersOnCourt(b, t0, t1)
  {
    if |a| > 0 {
      assert (a + b)[1..] == a[1..] + b;
      PlayersOnCourtKeepsOrder(a[1..], b, t0, t1);
    } else {
      assert a + b == b;
    }
  }

  /** A slice `[t0, t1]` that counts: at least 60 seconds with exactly five players on court. */
  predicate IsFiveSlice(assignments: seq<PlayerAssignment>, t0: int, t1: int)
  {
    t1 - t0 >= MinSliceSeconds && |PlayersOnCourt(assignments, t0, t1)| == LineupSize
  }

  /** The consecutive breakpoint pairs from index `i` on that count, in order. */
  function FiveSlices(assignments: seq<PlayerAssignment>, points: seq<int>, i: nat): (r: seq<(int, int)>)
    decreases |points| - i
  {
    if i + 1 >= |points| then []
    else
      var rest := FiveSlices(assignments, points, i + 1);
      if CountsAt(assignments, points, i) then [SliceAt(points, i)] + rest else rest
  }

  /** Pair `m` of consecutive breakpoints. */
  function SliceAt(points: seq<int>, m: int): (int, int)
    requires 0 <= m < |points| - 1
  {
    (points[m], points[m + 1])
  }

  /** Pair `m` of consecutive breakpoints counts. */
  predicate CountsAt(assignments: seq<PlayerAssignment>, points: seq<int>, m: int)
    requires 0 <= m < |points| - 1
  {
    IsFiveSlice(assignments, points[m], points[m + 1])
  }

  /** One step of `FiveSlices`: the pair at `i` is kept exactly when it counts. */
  lemma FiveSlicesStep(assignments: seq<PlayerAssignment>, points: seq<int>, i: nat)
    requires i + 1 < |points|
    ensures CountsAt(assignments, points, i) ==>
      FiveSlices(assignments, points, i) == [SliceAt(points, i)] + FiveSlices(assignments, points, i + 1)
    ensures !CountsAt(assignments, points, i) ==>
      FiveSlices(assignments, points, i) == FiveSlices(assignments, points, i + 1)
    ensures i + 2 >= |points| ==> FiveSlices(assignments, points, i + 1) == []
  {
  }

  /** `slice` is a counting pair of consecutive breakpoints at index `i` or later. */
  ghost predicate CountingPairFrom(assignments: seq<PlayerAssignment>, points: seq<int>, i: nat, slice: (int, int))
  {
    exists m :: i <= m < |points| - 1 && slice == SliceAt(points, m) && CountsAt(assignments, points, m)
  }

  /** Every slice kept is a pair of consecutive breakpoints that counts, and every pair
      that counts is kept. */
  lemma {:induction false} FiveSlicesAreTheCountingPairs(assignments: seq<PlayerAssignment>, points: seq<int>, i: nat)
    ensures forall k :: 0 <= k < |FiveSlices(assignments, points, i)| ==>
      CountingPairFrom(assignments, points, i, FiveSlices(assignments, points, i)[k])
    ensures forall m :: i <= m < |points| - 1 && CountsAt(assignments, points, m) ==>
      SliceAt(points, m) in FiveSlices(assignments, points, i)
    decreases |points| - i
  {
    var r := FiveSlices(assignments, points, i);
    if i + 1 < |points| {
      FiveSlicesAreTheCountingPairs(assignments, points, i + 1);
      FiveSlicesStep(assignments, points, i);
      var rest := FiveSlices(assignments, points, i + 1);
      var head := if CountsAt(assignments, points, i) then [SliceAt(points, i)] else [];
      assert r == head + rest;
      forall k | 0 <= k < |r|
        ensures CountingPairFrom(assignments, points, i, r[k])
      {
        if k < |head| {
          assert r[k] == SliceAt(points, i) && CountsAt(assignments, points, i);
        } else {
          assert r[k] == rest[k - |head|];
          assert CountingPairFrom(assignments, points, i + 1, rest[k - |head|]);
          var m :| i + 1 <= m < |points| - 1 && rest[k - |head|] == SliceAt(points, m) && CountsAt(assignments, points, m);
          assert i <= m < |points| - 1 && r[k] == SliceAt(points, m) && CountsAt(assignments, points, m);
        }
      }
      forall m | i <= m < |points| - 1 && CountsAt(assignments, points, m)
        ensures SliceAt(points, m) in r
      {
        if m == i {
          assert r[0] == SliceAt(points, i);
        } else {
          assert SliceAt(points, m) in rest;
        }
      }
    } else {
      assert r == [];
    }
  }

  /** Over strictly increasing breakpoints, the kept slices are forward intervals in time order. */
  lemma {:induction false} FiveSlicesInTimeOrder(assignments: seq<PlayerAssignment>, points: seq<int>, i: nat)
    requires StrictlyIncreasing(points)
    ensures forall k :: 0 <= k < |FiveSlices(assignments, points, i)| ==>
      i < |points| && points[i] <= FiveSlices(assignments, points, i)[k].0 < FiveSlices(assignments, points, i)[k].1
    ensures forall k :: 0 <= k < |FiveSlices(assignments, points, i)| - 1 ==>
      FiveSlices(assignments, points, i)[k].1 <= FiveSlices(assignments, points, i)[k + 1].0
    decreases |points| - i
  {
    var r := FiveSlices(assignments, points, i);
    if i + 1 < |points| {
      FiveSlicesInTimeOrder(assignments, points, i + 1);
      FiveSlicesStep(assignments, points, i);
      var rest := FiveSlices(assignments, points, i + 1);
      if CountsAt(assignments, points, i) {
        assert r == [SliceAt(points, i)] + rest;
        forall k | 0 < k < |r| ensures points[i + 1] <= r[k].0 < r[k].1 {
          assert r[k] == rest[k - 1];
        }
        forall k | 0 <= k < |r| - 1 ensures r[k].1 <= r[k + 1].0 {
          if k > 0 {
            assert r[k] == rest[k - 1] && r[k + 1] == rest[k];
          }
        }
      } else {
        assert r == rest;
        forall k | 0 <= k < |r| ensures points[i] <= r[k].0 < r[k].1 {
          assert r[k] == rest[k];
        }
      }
    } else {
      assert r == [];
    }
  }

  // ---------------------------------------------------------------------------
  // Ratings

  /** `players.find(p => p.id === id)?.skills || []`. */
  function SkillsOf(players: seq<Player>, id: string): seq<Skill>
  {
    match FindPlayer(players, id)
    case None => []
    case Some(p) => p.skills
  }

  /** `ids.flatMap(...)`: the skills of the lineup, repeats included. */
  function LineupSkills(players: seq<Player>, ids: seq<string>): seq<Skill>
  {
    if |ids| == 0 then [] else SkillsOf(players, ids[0]) + LineupSkills(players, ids[1..])
  }

  lemma {:induction false} DistinctCountBounds<T>(s: seq<T>)
    ensures |ElemSet(s)| <= |s|
    ensures |s| > 0 ==> |ElemSet(s)| >= 1
  {
    if |s| > 0 {
      DistinctCountBounds(s[1..]);
      assert ElemSet(s) == {s[0]} + ElemSet(s[1..]);
    }
  }

  /** `uniqueSkills / playerSkills.length`, which is 0/0 = NaN when the lineup has no skills. */
  function SkillVariety(skills: seq<Skill>): (v: Number)
    ensures v.NaN? <==> |skills| == 0
    ensures v.Num? ==> 0.0 < v.value <= 1.0
  {
    if |skills| == 0 then NaN
    else
      DistinctCountBounds(skills);
      Num(|ElemSet(skills)| as real / |skills| as real)
  }

  /** `80 + Math.random() * 20`, with the random draw as input. */
  function BaseRating(draw: real): real
  {
    80.0 + draw * 20.0
  }

  /** `base * (0.8 + skillVariety * 0.4)`. */
  function Modulate(base: real, variety: Number): Number
  {
    match variety
    case NaN => NaN
    case Num(v) => Num(base * (0.8 + v * 0.4))
  }

  /** `(offensiveRating - defensiveRating) / 10 - 5`. */
  function PlusMinus(offensive: Number, defensive: Number): Number
  {
    if offensive.Num? && defensive.Num? then Num((offensive.value - defensive.value) / 10.0 - 5.0) else NaN
  }

  ghost predicate PlusMinusRule(e: LineupEffectiveness)
  {
    e.plusMinus == PlusMinus(e.offensiveRating, e.defensiveRating)
  }

  /** The entry for one lineup, given the two random draws it consumes. */
  function RateLineup(ids: seq<string>, players: seq<Player>, offensiveDraw: real, defensiveDraw: real): (e: LineupEffectiveness)
    ensures e.players == ids && PlusMinusRule(e)
  {
    var variety := SkillVariety(LineupSkills(players, ids));
    var offensive := Modulate(BaseRating(offensiveDraw), variety);
    var defensive := Modulate(BaseRating(defensiveDraw), variety);
    LineupEffectiveness(ids, offensive, defensive, PlusMinus(offensive, defensive))
  }

  /** With draws in [0, 1), a lineup with at least one skill gets ratings in [64, 120)
      and a plus-minus of `(offensive - defensive) / 10 - 5`; one without skills gets NaN everywhere. */
  lemma RatingBounds(ids: seq<string>, players: seq<Player>, offensiveDraw: real, defensiveDraw: real)
    requires 0.0 <= offensiveDraw < 1.0 && 0.0 <= defensiveDraw < 1.0
    ensures var e := RateLineup(ids, players, offensiveDraw, defensiveDraw);
      && e.players == ids
      && (|LineupSkills(players, ids)| == 0 <==> e.offensiveRating.NaN?)
      && (e.offensiveRating.NaN? <==> e.defensiveRating.NaN?)
      && (e.plusMinus.NaN? <==> e.offensiveRating.NaN?)
      && (e.offensiveRating.Num? ==>
            && 64.0 <= e.offensiveRating.value < 120.0
            && 64.0 <= e.defensiveRating.value < 120.0
            && e.plusMinus.value == (e.offensiveRating.value - e.defensiveRating.value) / 10.0 - 5.0)
  {
    var variety := SkillVariety(LineupSkills(players, ids));
    if variety.Num? {
      var v := variety.value;
      ModulatedRange(BaseRating(offensiveDraw), v);
      ModulatedRange(BaseRating(defensiveDraw), v);
    }
  }

  lemma ModulatedRange(base: real, v: real)
    requires 80.0 <= base < 100.0 && 0.0 < v <= 1.0
    ensures 64.0 <= base * (0.8 + v * 0.4) < 120.0
  {
    var f := 0.8 + v * 0.4;
    assert 0.8 < f <= 1.2;
    assert base * f >= 80.0 * f;
    assert base * f < 100.0 * f;
  }

  // ---------------------------------------------------------------------------
  // The evaluation loop

  /** The rating the loop gives the `k`-th counting slice: the players on court during the
      slice, rated with the draws `2k` and `2k + 1`. */
  function SliceRater(assignments: seq<PlayerAssignment>, players: seq<Player>, random: nat -> real)
    : (rate: ((int, int), nat) -> LineupEffectiveness)
    ensures forall slice: (int, int), k: nat ::
              rate(slice, k) == RateLineup(PlayersOnCourt(assignments, slice.0, slice.1), players, random(2 * k), random(2 * k + 1))
  {
    (slice: (int, int), k: nat) =>
      RateLineup(PlayersOnCourt(assignments, slice.0, slice.1), players, random(2 * k), random(2 * k + 1))
  }

  /** `xs[k] == f(ys[k], k)` for every index of the two equally long sequences. */
  ghost predicate Pointwise<A, B>(xs: seq<A>, ys: seq<B>, f: (B, nat) -> A)
  {
    |xs| == |ys| && forall k :: 0 <= k < |xs| ==> xs[k] == f(ys[k], k)
  }

  /** Entry `k` of `lineups` rates the players on court during `slices[k]` with the draws `2k` and `2k + 1`. */
  ghost predicate RatesSlices(lineups: seq<LineupEffectiveness>, slices: seq<(int, int)>,
                              assignments: seq<PlayerAssignment>, players: seq<Player>, random: nat -> real)
  {
    Pointwise(lineups, slices, SliceRater(assignments, players, random))
  }

  /** Every entry lists five players and follows the plus-minus rule. */
  ghost predicate FiveAndConsistent(lineups: seq<LineupEffectiveness>)
  {
    forall k :: 0 <= k < |lineups| ==> |lineups[k].players| == LineupSize && PlusMinusRule(lineups[k])
  }

  /** Appending a matching pair keeps two sequences related entry by entry. */
  lemma PointwiseAppend<A, B>(xs: seq<A>, ys: seq<B>, x: A, y: B, f: (B, nat) -> A)
    requires Pointwise(xs, ys, f) && x == f(y, |xs|)
    ensures Pointwise(xs + [x], ys + [y], f)
  {
  }

  /** Rating a five-player slice keeps every entry five players wide and consistent. */
  lemma FiveAndConsistentAppend(lineups: seq<LineupEffectiveness>, e: LineupEffectiveness)
    requires FiveAndConsistent(lineups)
    requires |e.players| == LineupSize && PlusMinusRule(e)
    ensures FiveAndConsistent(lineups + [e])
  {
    var l' := lineups + [e];
    forall k | 0 <= k < |l'| ensures |l'[k].players| == LineupSize && PlusMinusRule(l'[k]) {
      if k < |lineups| {
        assert l'[k] == lineups[k];
      }
    }
  }

  /** `evaluateLineupEffectiveness`: no rotation gives no entries; otherwise one entry per
      counting slice, in time order, the k-th entry using the random draws `2k` and `2k + 1`. */
  method EvaluateLineupEffectiveness(current: Option<Rotation>, players: seq<Player>, random: nat -> real)
    returns (lineups: seq<LineupEffectiveness>)
    ensures current.None? ==> lineups == []
    ensures current.Some? ==>
      var assignments := current.value.playerAssignments;
      RatesSlices(lineups, FiveSlices(assignments, BreakPoints(assignments), 0), assignments, players, random)
    ensures forall k :: 0 <= k < |lineups| ==> |lineups[k].players| == LineupSize && PlusMinusRule(lineups[k])
  {
    lineups := [];
    if current.None? {
      return;
    }
    var assignments := current.value.playerAssignments;
    var points := BreakPoints(assignments);
    lineups := RateFiveSlices(assignments, points, players, random);
  }

  /** The scan over consecutive breakpoint pairs: rates every pair that counts, in order. */
  method RateFiveSlices(assignments: seq<PlayerAssignment>, points: seq<int>, players: seq<Player>, random: nat -> real)
    returns (lineups: seq<LineupEffectiveness>)
    ensures RatesSlices(lineups, FiveSlices(assignments, points, 0), assignments, players, random)
    ensures FiveAndConsistent(lineups)
  {
    lineups := [];
    ghost var slices := FiveSlices(assignments, points, 0);
    ghost var done: seq<(int, int)> := [];
    var i := 0;
    while i + 1 < |points|
      invariant 0 <= i
      invariant i + 1 < |points| || FiveSlices(assignments, points, i) == []
      invariant done + FiveSlices(assignments, points, i) == slices
      invariant RatesSlices(lineups, done, assignments, players, random)
      invariant FiveAndConsistent(lineups)
      decreases |points| - i
    {
      var startTime := points[i];
      var endTime := points[i + 1];
      FiveSlicesStep(assignments, points, i);
      ghost var rest := FiveSlices(assignments, points, i + 1);
      if endTime - startTime >= MinSliceSeconds {
        var playersOnCourt := PlayersOnCourt(assignments, startTime, endTime);
        if |playersOnCourt| == LineupSize {
          var k := |lineups|;
          var e := RateLineup(playersOnCourt, players, random(2 * k), random(2 * k + 1));
          PointwiseAppend(lineups, done, e, (startTime, endTime), SliceRater(assignments, players, random));
          FiveAndConsistentAppend(lineups, e);
          assert done + ([(startTime, endTime)] + rest) == (done + [(startTime, endTime)]) + rest;
          lineups := lineups + [e];
          done := done + [(startTime, endTime)];
        }
      }
      i := i + 1;
    }
    assert done == slices;
  }

  // ---------------------------------------------------------------------------
  // A worked case

  /** Five assignments that each hold the single on-court segment `[600, 900]`. */
  function SharedStint(ids: seq<string>): (asg: seq<PlayerAssignment>)
    requires |ids| == LineupSize
    ensures |asg| == LineupSize
    ensures forall j :: 0 <= j < LineupSize ==> asg[j] == PlayerAssignment(ids[j], [TimeSegment(600, 900, true)])
  {
    seq(LineupSize, j requires 0 <= j < LineupSize => PlayerAssignment(ids[j], [TimeSegment(600, 900, true)]))
  }

  /** Five players sharing one stint `[600, 900]` give exactly one lineup: that slice, with
      those five players in assignment order. */
  lemma SharedStintGivesOneLineup(ids: seq<string>)
    requires |ids| == LineupSize
    ensures BreakPoints(SharedStint(ids)) == [600, 900]
    ensures PlayersOnCourt(SharedStint(ids), 600, 900) == ids
    ensures FiveSlices(SharedStint(ids), BreakPoints(SharedStint(ids)), 0) == [(600, 900)]
  {
    var asg := SharedStint(ids);
    var seg := TimeSegment(600, 900, true);
    var points := BreakPoints(asg);
    assert 600 in points && 900 in points by {
      assert seg in asg[0].segments;
    }
    assert ElemSet(points) == ElemSet([600, 900]);
    StrictlyIncreasingUnique(points, [600, 900]);
    var k := LineupSize;
    while k > 0
      invariant 0 <= k <= LineupSize
      invariant PlayersOnCourt(asg[k..], 600, 900) == ids[k..]
    {
      k := k - 1;
      assert OnCourtThrough(asg[k].segments, 600, 900) by {
        assert asg[k].segments[0] == seg;
      }
      assert asg[k..][1..] == asg[k + 1..];
      assert ids[k..] == [ids[k]] + ids[k + 1..];
    }
    assert asg[0..] == asg && ids[0..] == ids;
    assert FiveSlices(asg, points, 1) == [];
  }
}
