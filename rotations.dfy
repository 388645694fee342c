/** The rotation slice: the default four-quarter period table, the staggered
    rotation generator, the segment edits the reducers apply to the current
    rotation, and the slice state itself. */
module Rotations {
  import opened Types
  import opened Lists
  import opened Timeline
  import Minutes
  import Lineups

  const QuarterSeconds: int := 12 * 60
  const GameSeconds: int := 48 * 60

  // ---------------------------------------------------------------------------
  // The default period table

  /** `defaultPeriods`, with the four ids drawn when the module loads given as `ids`. */
  function DefaultPeriods(ids: seq<string>): (ps: seq<Period>)
    requires |ids| == 4
    ensures |ps| == 4
    ensures forall j :: 0 <= j < 4 ==> ps[j].id == ids[j] && ps[j].duration == QuarterSeconds
    ensures forall j :: 0 <= j < 4 ==> ps[j].startTime + ps[j].duration == ps[j].endTime
    ensures ps[0].startTime == 0 && ps[3].endTime == GameSeconds
    ensures forall j :: 0 <= j < 3 ==> ps[j].endTime == ps[j + 1].startTime
  {
    [ Period(ids[0], "1st Quarter", 12 * 60, 0, 12 * 60),
      Period(ids[1], "2nd Quarter", 12 * 60, 12 * 60, 24 * 60),
      Period(ids[2], "3rd Quarter", 12 * 60, 24 * 60, 36 * 60),
      Period(ids[3], "4th Quarter", 12 * 60, 36 * 60, 48 * 60) ]
  }

  /** With the default periods, a player's per-quarter minutes add up to the total
      whenever every on-court segment lies inside the 48-minute game. */
  lemma DefaultQuartersAddUp(ids: seq<string>, d: MinutesDistribution, pa: PlayerAssignment)
    requires |ids| == 4 && forall j, k :: 0 <= j < k < 4 ==> ids[j] != ids[k]
    requires Minutes.IsDistributionFor(d, pa, DefaultPeriods(ids))
    requires Minutes.WithinSpan(pa.segments, 0, GameSeconds)
    ensures forall q :: q in DefaultPeriods(ids) ==> q.id in d.minutesByPeriod
    ensures Minutes.SumAtIds(d.minutesByPeriod, DefaultPeriods(ids)) == d.totalMinutes
  {
    var ps := DefaultPeriods(ids);
    assert Minutes.Contiguous(ps);
    assert Minutes.DistinctIds(ps);
    Minutes.PeriodMinutesAddUpToTotal(d, pa, ps);
  }

  /** A player on court for the whole first quarter has 12 minutes, all of them in
      the first quarter and none in the other three. */
  lemma FirstQuarterStint(ids: seq<string>, d: MinutesDistribution, pa: PlayerAssignment)
    requires |ids| == 4 && forall j, k :: 0 <= j < k < 4 ==> ids[j] != ids[k]
    requires pa.segments == [TimeSegment(0, QuarterSeconds, true)]
    requires Minutes.IsDistributionFor(d, pa, DefaultPeriods(ids))
    ensures d.totalMinutes == 12.0
    ensures d.minutesByPeriod == map[ids[0] := 12.0, ids[1] := 0.0, ids[2] := 0.0, ids[3] := 0.0]
  {
    var ps := DefaultPeriods(ids);
    var seg := pa.segments[0];
    assert pa.segments[..0] == [];
    assert Minutes.TotalMinutes(pa.segments) == Minutes.TotalMinutes([]) + Minutes.SegmentMinutes(seg);
    assert Minutes.DistinctIds(ps);
    forall j | 0 <= j < 4
      ensures Minutes.KeyMinutes(pa.segments, ps, ids[j]) == (if j == 0 then 12.0 else 0.0)
    {
      Minutes.KeyShareOfDistinct(seg, ps, j);
    }
    assert Minutes.PeriodIds(ps) == {ids[0], ids[1], ids[2], ids[3]} by {
      assert forall p :: p in ps <==> p == ps[0] || p == ps[1] || p == ps[2] || p == ps[3];
    }
  }

  // ---------------------------------------------------------------------------
  // The staggered generator

  function OnCourt(startTime: int, endTime: int): TimeSegment
  {
    TimeSegment(startTime, endTime, true)
  }

  /** `(index % 5) * 3 * 60`: each of five groups starts three minutes after the previous one. */
  function Stagger(index: nat): int
  {
    (index % 5) * 3 * 60
  }

  /** The segments the generator gives the player at `index`: the first five open the
      game and close it, everyone plays a six-minute stint in the second and third quarters. */
  ghost predicate IsStaggered(segments: seq<TimeSegment>, index: nat)
  {
    var s := Stagger(index);
    var middle := [OnCourt(720 + s, 1080 + s), OnCourt(1440 + s, 1800 + s)];
    if index < 5 then segments == [OnCourt(0, 360)] + middle + [OnCourt(2520, 2880)]
    else segments == middle
  }

  /** On-court segments inside the game, in start order, none overlapping the next. */
  ghost predicate WellFormedSchedule(segments: seq<TimeSegment>)
  {
    && (forall j :: 0 <= j < |segments| ==>
          segments[j].onCourt && 0 <= segments[j].startTime < segments[j].endTime <= GameSeconds)
    && (forall j :: 0 <= j < |segments| - 1 ==> segments[j].endTime <= segments[j + 1].startTime)
  }

  /** A well-formed schedule has pairwise disjoint segments, apart from shared end points. */
  lemma {:induction false} WellFormedIsDisjoint(segments: seq<TimeSegment>, i: int, j: int)
    requires WellFormedSchedule(segments)
    requires 0 <= i < j < |segments|
    ensures segments[i].endTime <= segments[j].startTime
    decreases j - i
  {
    if j > i + 1 {
      WellFormedIsDisjoint(segments, i, j - 1);
      assert segments[j - 1].startTime < segments[j - 1].endTime <= segments[j].startTime;
    }
  }

  /** The body of the generator's `map` callback: builds one player's segments by conditional pushes. */
  method StaggeredSegments(index: nat) returns (segments: seq<TimeSegment>)
    ensures IsStaggered(segments, index)
    ensures WellFormedSchedule(segments)
    ensures |segments| == if index < 5 then 4 else 2
  {
    segments := [];
    if index < 5 {
      segments := segments + [TimeSegment(0, 6 * 60, true)];
    }
    var staggerStart := (index % 5) * 3 * 60;
    segments := segments + [TimeSegment(12 * 60 + staggerStart, 18 * 60 + staggerStart, true)];
    segments := segments + [TimeSegment(24 * 60 + staggerStart, 30 * 60 + staggerStart, true)];
    if index < 5 {
      segments := segments + [TimeSegment(36 * 60 + 6 * 60, 48 * 60, true)];
    }
  }

  /** The generator's result for `playerIds`: one assignment per id, in order. */
  ghost predicate IsGenerated(assignments: seq<PlayerAssignment>, playerIds: seq<string>)
  {
    && |assignments| == |playerIds|
    && forall i :: 0 <= i < |assignments| ==>
         assignments[i].playerId == playerIds[i] && IsStaggered(assignments[i].segments, i)
  }

  /** `generateOptimizedRotation`: the staggered assignments for `playerIds`. */
  method GenerateOptimizedRotation(playerIds: seq<string>) returns (assignments: seq<PlayerAssignment>)
    ensures IsGenerated(assignments, playerIds)
    ensures forall i :: 0 <= i < |assignments| ==> WellFormedSchedule(assignments[i].segments)
  {
    assignments := [];
    var index := 0;
    while index < |playerIds|
      invariant 0 <= index <= |playerIds| && |assignments| == index
      invariant forall i :: 0 <= i < index ==>
        assignments[i].playerId == playerIds[i] && IsStaggered(assignments[i].segments, i)
        && WellFormedSchedule(assignments[i].segments)
    {
      var segments := StaggeredSegments(index);
      assignments := assignments + [PlayerAssignment(playerIds[index], segments)];
      index := index + 1;
    }
  }

  /** The opening stint `[0, 360]` and the closing stint `[2520, 2880]`. */
  predicate StarterWindow(t0: int, t1: int)
  {
    (t0 == 0 && t1 == 360) || (t0 == 2520 && t1 == 2880)
  }

  /** The player at `index` is on court throughout a starter window exactly when `index < 5`. */
  lemma StaggeredInStarterWindow(segments: seq<TimeSegment>, index: nat, t0: int, t1: int)
    requires IsStaggered(segments, index) && StarterWindow(t0, t1)
    ensures OnCourtThrough(segments, t0, t1) <==> index < 5
  {
    if index < 5 {
      var j := if t0 == 0 then 0 else 3;
      assert segments[j].onCourt && segments[j].startTime <= t0 && segments[j].endTime >= t1;
    }
  }

  lemma {:induction false} StartersFrom(assignments: seq<PlayerAssignment>, playerIds: seq<string>, i: nat, t0: int, t1: int)
    requires IsGenerated(assignments, playerIds) && StarterWindow(t0, t1)
    requires 5 <= |playerIds| && i <= |playerIds|
    ensures Lineups.PlayersOnCourt(assignments[i..], t0, t1) == if i < 5 then playerIds[i..5] else []
    decreases |playerIds| - i
  {
    if i < |playerIds| {
      StartersFrom(assignments, playerIds, i + 1, t0, t1);
      var a := assignments[i..];
      assert a[0] == assignments[i] && a[1..] == assignments[i + 1..];
      StaggeredInStarterWindow(assignments[i].segments, i, t0, t1);
      if i < 5 {
        assert playerIds[i..5] == [playerIds[i]] + playerIds[i + 1..5];
      }
    } else {
      assert assignments[i..] == [];
    }
  }

  /** A generated rotation for at least five players opens and closes with exactly the
      first five, in order: the lineup evaluator sees them on court throughout both stints. */
  lemma GeneratedStarters(assignments: seq<PlayerAssignment>, playerIds: seq<string>)
    requires IsGenerated(assignments, playerIds) && |playerIds| >= 5
    ensures Lineups.PlayersOnCourt(assignments, 0, 360) == playerIds[..5]
    ensures Lineups.PlayersOnCourt(assignments, 2520, 2880) == playerIds[..5]
  {
    StartersFrom(assignments, playerIds, 0, 0, 360);
    StartersFrom(assignments, playerIds, 0, 2520, 2880);
    assert assignments[0..] == assignments;
    assert playerIds[0..5] == playerIds[..5];
  }

  // ---------------------------------------------------------------------------
  // Segment lists: the re-sort and the splice

  ghost predicate SortedByStart(s: seq<TimeSegment>)
  {
    forall i, j :: 0 <= i < j < |s| ==> s[i].startTime <= s[j].startTime
  }

  /** Inserts `x` after every element that starts no later than it. */
  function InsertByStart(x: TimeSegment, s: seq<TimeSegment>): (r: seq<TimeSegment>)
    requires SortedByStart(s)
    ensures SortedByStart(r)
    ensures multiset(r) == multiset(s) + multiset{x}
    ensures |r| == |s| + 1
    ensures r[0] == x || (|s| > 0 && r[0] == s[0])
  {
    if |s| == 0 then [x]
    else if x.startTime < s[0].startTime then [x] + s
    else
      var rest := InsertByStart(x, s[1..]);
      assert s == [s[0]] + s[1..];
      assert s[0].startTime <= rest[0].startTime;
      [s[0]] + rest
  }

  /** `segments.sort((a, b) => a.startTime - b.startTime)`, as a stable insertion sort. */
  function SortByStart(s: seq<TimeSegment>): (r: seq<TimeSegment>)
    ensures SortedByStart(r)
    ensures multiset(r) == multiset(s)
    ensures |r| == |s|
  {
    if |s| == 0 then []
    else
      assert s == s[..|s| - 1] + [s[|s| - 1]];
      InsertByStart(s[|s| - 1], SortByStart(s[..|s| - 1]))
  }

  /** Inserting an element that starts no earlier than all others appends it. */
  lemma {:induction false} InsertLatest(x: TimeSegment, s: seq<TimeSegment>)
    requires SortedByStart(s)
    requires forall k :: 0 <= k < |s| ==> s[k].startTime <= x.startTime
    ensures InsertByStart(x, s) == s + [x]
  {
    if |s| > 0 {
      InsertLatest(x, s[1..]);
      assert s == [s[0]] + s[1..];
    }
  }

  /** Sorting a list that is already in start order changes nothing. */
  lemma {:induction false} SortOfSorted(s: seq<TimeSegment>)
    requires SortedByStart(s)
    ensures SortByStart(s) == s
  {
    if |s| > 0 {
      var init := s[..|s| - 1];
      SortOfSorted(init);
      InsertLatest(s[|s| - 1], init);
      assert init + [s[|s| - 1]] == s;
    }
  }

  /** Sorting twice is sorting once. */
  lemma SortIdempotent(s: seq<TimeSegment>)
    ensures SortByStart(SortByStart(s)) == SortByStart(s)
  {
    SortOfSorted(SortByStart(s));
  }

  /** The start position `splice(index, 1)` computes: negative indices count from the end,
      and both directions saturate at the ends of the list. */
  function SpliceStart(length: nat, index: int): (start: nat)
    ensures start <= length
    ensures 0 <= index <= length ==> start == index
    ensures index > length ==> start == length
    ensures index < 0 && length + index >= 0 ==> start == length + index
    ensures length + index < 0 ==> start == 0
  {
    if index < 0 then (if length + index < 0 then 0 else length + index)
    else if index > length then length
    else index
  }

  /** `s.splice(index, 1)`: removes the element at the start position, if there is one. */
  function SpliceOne<T>(s: seq<T>, index: int): (r: seq<T>)
    ensures var start := SpliceStart(|s|, index);
      && |r| == (if start < |s| then |s| - 1 else |s|)
      && (forall j :: 0 <= j < start && j < |r| ==> r[j] == s[j])
      && (forall j :: start <= j < |r| ==> r[j] == s[j + 1])
  {
    var start := SpliceStart(|s|, index);
    if start < |s| then s[..start] + s[start + 1..] else s
  }

  /** Removing one segment takes exactly that segment out of the multiset. */
  lemma SpliceOneRemovesOne<T>(s: seq<T>, index: int)
    requires SpliceStart(|s|, index) < |s|
    ensures multiset(SpliceOne(s, index)) + multiset{s[SpliceStart(|s|, index)]} == multiset(s)
  {
    var start := SpliceStart(|s|, index);
    assert s == s[..start] + [s[start]] + s[start + 1..];
  }

  // ---------------------------------------------------------------------------
  // The edits the reducers make to the current rotation's assignments

  function AssignmentKey(pa: PlayerAssignment): string { pa.playerId }

  function RotationKey(r: Rotation): string { r.id }

  /** `findIndex(pa => pa.playerId === playerId)`. */
  function FindAssignment(pas: seq<PlayerAssignment>, playerId: string): int
  {
    FirstIndex(pas, AssignmentKey, playerId)
  }

  /** The assignments after replacing the segments of the first assignment for `playerId`. */
  function WithSegments(pas: seq<PlayerAssignment>, k: int, segments: seq<TimeSegment>): (r: seq<PlayerAssignment>)
    requires 0 <= k < |pas|
    ensures |r| == |pas|
    ensures forall j :: 0 <= j < |pas| ==> r[j].playerId == pas[j].playerId
    ensures forall j :: 0 <= j < |pas| && j != k ==> r[j] == pas[j]
    ensures r[k].segments == segments
  {
    pas[k := pas[k].(segments := segments)]
  }

  /** `addTimeSegment`: push onto the first matching assignment and re-sort; nothing happens
      for an unknown player, and no overlap is checked. */
  function SegmentAdded(pas: seq<PlayerAssignment>, playerId: string, segment: TimeSegment): (r: seq<PlayerAssignment>)
    ensures |r| == |pas|
    ensures forall j :: 0 <= j < |pas| ==> r[j].playerId == pas[j].playerId
    ensures forall j :: 0 <= j < |pas| && j != FindAssignment(pas, playerId) ==> r[j] == pas[j]
    ensures FindAssignment(pas, playerId) >= 0 ==>
      var k := FindAssignment(pas, playerId);
      && SortedByStart(r[k].segments)
      && multiset(r[k].segments) == multiset(pas[k].segments) + multiset{segment}
  {
    var k := FindAssignment(pas, playerId);
    if k < 0 then pas else WithSegments(pas, k, SortByStart(pas[k].segments + [segment]))
  }

  /** `updateTimeSegment`: replace the segment at `index` of the first matching assignment
      and re-sort; an index outside the list leaves everything as it was. */
  function SegmentUpdated(pas: seq<PlayerAssignment>, playerId: string, index: int, segment: TimeSegment): (r: seq<PlayerAssignment>)
    ensures |r| == |pas|
    ensures forall j :: 0 <= j < |pas| ==> r[j].playerId == pas[j].playerId
    ensures forall j :: 0 <= j < |pas| && j != FindAssignment(pas, playerId) ==> r[j] == pas[j]
    ensures FindAssignment(pas, playerId) >= 0 ==>
      var k := FindAssignment(pas, playerId);
      if 0 <= index < |pas[k].segments| then
        && SortedByStart(r[k].segments)
        && multiset(r[k].segments) == multiset(pas[k].segments) - multiset{pas[k].segments[index]} + multiset{segment}
      else r[k] == pas[k]
  {
    var k := FindAssignment(pas, playerId);
    if k < 0 then pas
    else if 0 <= index < |pas[k].segments| then
      var segments := pas[k].segments;
      assert multiset(segments[index := segment]) == multiset(segments) - multiset{segments[index]} + multiset{segment};
      WithSegments(pas, k, SortByStart(segments[index := segment]))
    else pas
  }

  /** `removeTimeSegment`: splice one segment out of the first matching assignment. */
  function SegmentRemoved(pas: seq<PlayerAssignment>, playerId: string, index: int): (r: seq<PlayerAssignment>)
    ensures |r| == |pas|
    ensures forall j :: 0 <= j < |pas| ==> r[j].playerId == pas[j].playerId
    ensures forall j :: 0 <= j < |pas| && j != FindAssignment(pas, playerId) ==> r[j] == pas[j]
    ensures FindAssignment(pas, playerId) >= 0 ==>
      var k := FindAssignment(pas, playerId);
      r[k].segments == SpliceOne(pas[k].segments, index)
  {
    var k := FindAssignment(pas, playerId);
    if k < 0 then pas else WithSegments(pas, k, SpliceOne(pas[k].segments, index))
  }

  /** Adding a segment that starts no earlier than the player's others appends it:
      the re-sort keeps the existing order. */
  lemma AddLatestSegmentAppends(pas: seq<PlayerAssignment>, playerId: string, segment: TimeSegment)
    requires FindAssignment(pas, playerId) >= 0
    requires SortedByStart(pas[FindAssignment(pas, playerId)].segments)
    requires forall s :: s in pas[FindAssignment(pas, playerId)].segments ==> s.startTime <= segment.startTime
    ensures SegmentAdded(pas, playerId, segment)[FindAssignment(pas, playerId)].segments
            == pas[FindAssignment(pas, playerId)].segments + [segment]
  {
    var segments := pas[FindAssignment(pas, playerId)].segments;
    var extended := segments + [segment];
    assert SortedByStart(extended) by {
      forall i, j | 0 <= i < j < |extended| ensures extended[i].startTime <= extended[j].startTime {
        assert extended[i] in segments;
      }
    }
    SortOfSorted(extended);
  }

  /** No overlap check: adding `[0, 600]` to a player already on court for `[0, 360]`
      keeps both, although they overlap. */
  lemma AddTimeSegmentAcceptsOverlap()
    ensures var pas := [PlayerAssignment("p", [OnCourt(0, 360)])];
      SegmentAdded(pas, "p", OnCourt(0, 600))[0].segments == [OnCourt(0, 360), OnCourt(0, 600)]
  {
    var pas := [PlayerAssignment("p", [OnCourt(0, 360)])];
    assert FindAssignment(pas, "p") == 0;
    AddLatestSegmentAppends(pas, "p", OnCourt(0, 600));
  }

  // ---------------------------------------------------------------------------
  // The slice state

  class RotationState {
    /** The shared period table every new or fetched rotation uses. */
    const defaultPeriods: seq<Period>
    var current: Option<Rotation>
    var saved: seq<Rotation>
    var status: Status
    var error: Option<string>

    /** `initialState`. */
    constructor(periodIds: seq<string>)
      requires |periodIds| == 4
      ensures defaultPeriods == DefaultPeriods(periodIds)
      ensures current == None && saved == [] && status == Idle && error == None
    {
      defaultPeriods := DefaultPeriods(periodIds);
      current := None;
      saved := [];
      status := Idle;
      error := None;
    }

    /** `createNewRotation`, with the two fresh ids as parameters. */
    method CreateNewRotation(id: string, gameId: string)
      modifies this
      ensures current == Some(Rotation(id, gameId, "New Rotation", defaultPeriods, []))
      ensures saved == old(saved) && status == old(status) && error == old(error)
    {
      current := Some(Rotation(id, gameId, "New Rotation", defaultPeriods, []));
    }

    /** `addPlayerAssignment`: an empty assignment for a player who has none. */
    method AddPlayerAssignment(playerId: string)
      modifies this
      ensures old(current).None? ==> current == None
      ensures old(current).Some? ==> current == Some(old(current).value.(playerAssignments :=
        AppendIfAbsent(old(current).value.playerAssignments, AssignmentKey, PlayerAssignment(playerId, []))))
      ensures saved == old(saved) && status == old(status) && error == old(error)
    {
      if current.None? {
        return;
      }
      var rotation := current.value;
      var existingIndex := FirstIndex(rotation.playerAssignments, AssignmentKey, playerId);
      if existingIndex == -1 {
        current := Some(rotation.(playerAssignments := rotation.playerAssignments + [PlayerAssignment(playerId, [])]));
      }
    }

    /** `removePlayerAssignment`: drops every assignment of the player. */
    method RemovePlayerAssignment(playerId: string)
      modifies this
      ensures old(current).None? ==> current == None
      ensures old(current).Some? ==> current == Some(old(current).value.(playerAssignments :=
        RemoveAll(old(current).value.playerAssignments, AssignmentKey, playerId)))
      ensures saved == old(saved) && status == old(status) && error == old(error)
    {
      if current.None? {
        return;
      }
      var rotation := current.value;
      current := Some(rotation.(playerAssignments := RemoveAll(rotation.playerAssignments, AssignmentKey, playerId)));
    }

    /** `addTimeSegment`. */
    method AddTimeSegment(playerId: string, segment: TimeSegment)
      modifies this
      ensures old(current).None? ==> current == None
      ensures old(current).Some? ==> current == Some(old(current).value.(playerAssignments :=
        SegmentAdded(old(current).value.playerAssignments, playerId, segment)))
      ensures saved == old(saved) && status == old(status) && error == old(error)
    {
      if current.None? {
        return;
      }
      var rotation := current.value;
      var pas := rotation.playerAssignments;
      var k := FirstIndex(pas, AssignmentKey, playerId);
      if k >= 0 {
        var segments := pas[k].segments + [segment];
        segments := SortByStart(segments);
        current := Some(rotation.(playerAssignments := pas[k := pas[k].(segments := segments)]));
      }
    }

    /** `updateTimeSegment`. */
    method UpdateTimeSegment(playerId: string, segmentIndex: int, segment: TimeSegment)
      modifies this
      ensures old(current).None? ==> current == None
      ensures old(current).Some? ==> current == Some(old(current).value.(playerAssignments :=
        SegmentUpdated(old(current).value.playerAssignments, playerId, segmentIndex, segment)))
      ensures saved == old(saved) && status == old(status) && error == old(error)
    {
      if current.None? {
        return;
      }
      var rotation := current.value;
      var pas := rotation.playerAssignments;
      var k := FirstIndex(pas, AssignmentKey, playerId);
      if k >= 0 && 0 <= segmentIndex < |pas[k].segments| {
        var segments := pas[k].segments[segmentIndex := segment];
        segments := SortByStart(segments);
        current := Some(rotation.(playerAssignments := pas[k := pas[k].(segments := segments)]));
      }
    }

    /** `removeTimeSegment`. */
    method RemoveTimeSegment(playerId: string, segmentIndex: int)
      modifies this
      ensures old(current).None? ==> current == None
      ensures old(current).Some? ==> current == Some(old(current).value.(playerAssignments :=
        SegmentRemoved(old(current).value.playerAssignments, playerId, segmentIndex)))
      ensures saved == old(saved) && status == old(status) && error == old(error)
    {
      if current.None? {
        return;
      }
      var rotation := current.value;
      var pas := rotation.playerAssignments;
      var k := FirstIndex(pas, AssignmentKey, playerId);
      if k >= 0 {
        current := Some(rotation.(playerAssignments := pas[k := pas[k].(segments := SpliceOne(pas[k].segments, segmentIndex))]));
      }
    }

    /** `updateRotationName`. */
    method UpdateRotationName(name: string)
      modifies this
      ensures old(current).None? ==> current == None
      ensures old(current).Some? ==> current == Some(old(current).value.(name := name))
      ensures saved == old(saved) && status == old(status) && error == old(error)
    {
      if current.Some? {
        current := Some(current.value.(name := name));
      }
    }

    /** The `fetchRotation` thunk body: the requested id, or a fresh one when it is empty,
        with a fresh game id, the default periods and no assignments. */
    method FetchRotation(rotationId: string, freshId: string, gameId: string) returns (r: Rotation)
      ensures rotationId != "" ==> r.id == rotationId
      ensures rotationId == "" ==> r.id == freshId
      ensures r.gameId == gameId && r.name == "New Rotation"
      ensures r.periods == defaultPeriods && r.playerAssignments == []
    {
      var id := if rotationId != "" then rotationId else freshId;
      r := Rotation(id, gameId, "New Rotation", defaultPeriods, []);
    }

    /** `fetchRotation.pending`. */
    method FetchRotationPending()
      modifies this
      ensures status == Loading
      ensures current == old(current) && saved == old(saved) && error == old(error)
    {
      status := Loading;
    }

    /** `fetchRotation.fulfilled`. */
    method FetchRotationFulfilled(payload: Rotation)
      modifies this
      ensures status == Succeeded && current == Some(payload)
      ensures saved == old(saved) && error == old(error)
    {
      status := Succeeded;
      current := Some(payload);
    }

    /** `fetchRotation.rejected`: the current rotation is kept. */
    method FetchRotationRejected(message: Option<string>)
      modifies this
      ensures status == Failed && error == Some(ErrorText(message, "Failed to fetch rotation"))
      ensures current == old(current) && saved == old(saved)
    {
      status := Failed;
      error := Some(ErrorText(message, "Failed to fetch rotation"));
    }

    /** `saveRotation.fulfilled`: upsert into `saved` by id, and replace `current`
        only when it is the rotation just saved. */
    method SaveRotationFulfilled(payload: Rotation)
      modifies this
      ensures saved == Upsert(old(saved), RotationKey, payload)
      ensures old(current).Some? && old(current).value.id == payload.id ==> current == Some(payload)
      ensures !(old(current).Some? && old(current).value.id == payload.id) ==> current == old(current)
      ensures status == old(status) && error == old(error)
    {
      var existingIndex := FirstIndex(saved, RotationKey, payload.id);
      if existingIndex != -1 {
        saved := saved[existingIndex := payload];
      } else {
        saved := saved + [payload];
      }
      if current.Some? && current.value.id == payload.id {
        current := Some(payload);
      }
    }

    /** `generateOptimizedRotation.fulfilled`: the generated assignments replace the current ones. */
    method GenerateOptimizedRotationFulfilled(payload: seq<PlayerAssignment>)
      modifies this
      ensures old(current).None? ==> current == None
      ensures old(current).Some? ==> current == Some(old(current).value.(playerAssignments := payload))
      ensures saved == old(saved) && status == old(status) && error == old(error)
    {
      if current.Some? {
        current := Some(current.value.(playerAssignments := payload));
      }
    }
  }
}
