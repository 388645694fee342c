/** The minutes aggregator: for each assignment, the total on-court minutes and
    the on-court minutes that fall in each period, from interval overlap. */
module Minutes {
  import opened Types
  import opened Timeline

  /** Minutes an on-court segment adds to the total: `(endTime - startTime) / 60`. */
  function SegmentMinutes(s: TimeSegment): real
  {
    if s.onCourt then (s.endTime - s.startTime) as real / 60.0 else 0.0
  }

  /** The total the program accumulates over `segments`, in order. */
  function TotalMinutes(segments: seq<TimeSegment>): real
  {
    if |segments| == 0 then 0.0
    else TotalMinutes(segments[..|segments| - 1]) + SegmentMinutes(segments[|segments| - 1])
  }

  /** Minutes of `s` inside period `p`: the positive overlap over 60. */
  function PeriodShare(s: TimeSegment, p: Period): (r: real)
    ensures r >= 0.0
  {
    Overlap(s.startTime, s.endTime, p.startTime, p.endTime) as real / 60.0
  }

  /** What one on-court segment adds under `key`: its shares of every period whose id is `key`. */
  function KeyShare(s: TimeSegment, periods: seq<Period>, key: string): (r: real)
    ensures r >= 0.0
  {
    if |periods| == 0 then 0.0
    else
      KeyShare(s, periods[..|periods| - 1], key)
      + (if periods[|periods| - 1].id == key then PeriodShare(s, periods[|periods| - 1]) else 0.0)
  }

  /** The value the program stores under `key`: the key shares of every on-court segment. */
  function KeyMinutes(segments: seq<TimeSegment>, periods: seq<Period>, key: string): (r: real)
    ensures r >= 0.0
  {
    if |segments| == 0 then 0.0
    else
      var s := segments[|segments| - 1];
      KeyMinutes(segments[..|segments| - 1], periods, key) + (if s.onCourt then KeyShare(s, periods, key) else 0.0)
  }

  function PeriodIds(periods: seq<Period>): set<string>
  {
    set p | p in periods :: p.id
  }

  /** `d` is what the program reports for `pa` over `periods`. */
  ghost predicate IsDistributionFor(d: MinutesDistribution, pa: PlayerAssignment, periods: seq<Period>)
  {
    && d.playerId == pa.playerId
    && d.minutesByPeriod.Keys == PeriodIds(periods)
    && (forall key :: key in d.minutesByPeriod ==> d.minutesByPeriod[key] == KeyMinutes(pa.segments, periods, key))
    && d.totalMinutes == TotalMinutes(pa.segments)
  }

  /** `minutesByPeriod[period.id] = 0` for every period. */
  method ZeroByPeriod(periods: seq<Period>) returns (byPeriod: map<string, real>)
    ensures byPeriod.Keys == PeriodIds(periods)
    ensures forall key :: key in byPeriod ==> byPeriod[key] == 0.0
  {
    byPeriod := map[];
    var p := 0;
    while p < |periods|
      invariant 0 <= p <= |periods|
      invariant byPeriod.Keys == PeriodIds(periods[..p])
      invariant forall key :: key in byPeriod ==> byPeriod[key] == 0.0
    {
      assert periods[..p + 1] == periods[..p] + [periods[p]];
      byPeriod := byPeriod[periods[p].id := 0.0];
      p := p + 1;
    }
    assert periods[..p] == periods;
  }

  /** The inner loop: add the on-court segment's positive overlap with each period. */
  method AddOverlaps(byPeriod: map<string, real>, segment: TimeSegment, periods: seq<Period>)
    returns (updated: map<string, real>)
    requires PeriodIds(periods) <= byPeriod.Keys
    ensures updated.Keys == byPeriod.Keys
    ensures forall key :: key in updated ==> updated[key] == byPeriod[key] + KeyShare(segment, periods, key)
  {
    updated := byPeriod;
    var q := 0;
    while q < |periods|
      invariant 0 <= q <= |periods|
      invariant updated.Keys == byPeriod.Keys
      invariant forall key :: key in updated ==> updated[key] == byPeriod[key] + KeyShare(segment, periods[..q], key)
    {
      var period := periods[q];
      assert periods[..q + 1][..q] == periods[..q];
      assert period.id in PeriodIds(periods);
      var overlapStart := Max(segment.startTime, period.startTime);
      var overlapEnd := Min(segment.endTime, period.endTime);
      if overlapEnd > overlapStart {
        updated := updated[period.id := updated[period.id] + (overlapEnd - overlapStart) as real / 60.0];
      }
      q := q + 1;
    }
    assert periods[..q] == periods;
  }

  /** The aggregation for one assignment: zero every period id, then add each
      on-court segment's length to the total and its positive overlaps to the periods. */
  method DistributeMinutes(periods: seq<Period>, pa: PlayerAssignment) returns (d: MinutesDistribution)
    ensures IsDistributionFor(d, pa, periods)
    ensures forall key :: key in d.minutesByPeriod ==> d.minutesByPeriod[key] >= 0.0
  {
    var byPeriod := ZeroByPeriod(periods);
    var segments := pa.segments;
    var total := 0.0;
    var i := 0;
    while i < |segments|
      invariant 0 <= i <= |segments|
      invariant byPeriod.Keys == PeriodIds(periods)
      invariant total == TotalMinutes(segments[..i])
      invariant forall key :: key in byPeriod ==> byPeriod[key] == KeyMinutes(segments[..i], periods, key)
    {
      var segment := segments[i];
      assert segments[..i + 1][..i] == segments[..i];
      if segment.onCourt {
        total := total + (segment.endTime - segment.startTime) as real / 60.0;
        byPeriod := AddOverlaps(byPeriod, segment, periods);
      }
      i := i + 1;
    }
    assert segments[..i] == segments;
    d := MinutesDistribution(pa.playerId, total, byPeriod);
  }

  /** `calculateMinutesDistribution`: no rotation gives no distributions; otherwise one
      per assignment, in assignment order. */
  method CalculateMinutesDistribution(current: Option<Rotation>) returns (ds: seq<MinutesDistribution>)
    ensures current.None? ==> ds == []
    ensures current.Some? ==> |ds| == |current.value.playerAssignments|
    ensures current.Some? ==> forall j :: 0 <= j < |ds| ==>
      IsDistributionFor(ds[j], current.value.playerAssignments[j], current.value.periods)
    ensures forall j, key :: 0 <= j < |ds| && key in ds[j].minutesByPeriod ==> ds[j].minutesByPeriod[key] >= 0.0
  {
    ds := [];
    if current.None? {
      return;
    }
    var assignments := current.value.playerAssignments;
    var j := 0;
    while j < |assignments|
      invariant 0 <= j <= |assignments| && |ds| == j
      invariant forall k :: 0 <= k < j ==> IsDistributionFor(ds[k], assignments[k], current.value.periods)
      invariant forall k, key :: 0 <= k < j && key in ds[k].minutesByPeriod ==> ds[k].minutesByPeriod[key] >= 0.0
    {
      var d := DistributeMinutes(current.value.periods, assignments[j]);
      ds := ds + [d];
      j := j + 1;
    }
  }

  // ---------------------------------------------------------------------------
  // Off-court segments

  /** The on-court segments of `segments`, in order. */
  function OnCourtOnly(segments: seq<TimeSegment>): (r: seq<TimeSegment>)
    ensures forall s :: s in r <==> s in segments && s.onCourt
  {
    if |segments| == 0 then []
    else
      var s := segments[|segments| - 1];
      OnCourtOnly(segments[..|segments| - 1]) + (if s.onCourt then [s] else [])
  }

  /** Dropping every off-court segment changes neither the total nor any period's minutes. */
  lemma {:induction false} OffCourtSegmentsAddNothing(segments: seq<TimeSegment>, periods: seq<Period>, key: string)
    ensures TotalMinutes(OnCourtOnly(segments)) == TotalMinutes(segments)
    ensures KeyMinutes(OnCourtOnly(segments), periods, key) == KeyMinutes(segments, periods, key)
  {
    if |segments| > 0 {
      var init := segments[..|segments| - 1];
      var s := segments[|segments| - 1];
      OffCourtSegmentsAddNothing(init, periods, key);
      if s.onCourt {
        var r := OnCourtOnly(init) + [s];
        assert OnCourtOnly(segments) == r;
        assert r[..|r| - 1] == OnCourtOnly(init) && r[|r| - 1] == s;
      } else {
        assert OnCourtOnly(segments) == OnCourtOnly(init);
      }
    }
  }

  // ---------------------------------------------------------------------------
  // When the periods partition the game, the period minutes add up to the total

  /** Periods in order, each `startTime <= endTime`, each starting where the previous ends. */
  ghost predicate Contiguous(periods: seq<Period>)
  {
    && |periods| > 0
    && (forall j :: 0 <= j < |periods| ==> periods[j].startTime <= periods[j].endTime)
    && (forall j :: 0 <= j < |periods| - 1 ==> periods[j].endTime == periods[j + 1].startTime)
  }

  ghost predicate DistinctIds(periods: seq<Period>)
  {
    forall j, k :: 0 <= j < k < |periods| ==> periods[j].id != periods[k].id
  }

  /** Every on-court segment is a forward interval inside `[first, last]`. */
  ghost predicate WithinSpan(segments: seq<TimeSegment>, first: int, last: int)
  {
    forall s :: s in segments && s.onCourt ==> first <= s.startTime <= s.endTime <= last
  }

  /** The sum of the map's values at the ids of `qs`, in order. */
  function SumAtIds(m: map<string, real>, qs: seq<Period>): real
    requires forall q :: q in qs ==> q.id in m
  {
    if |qs| == 0 then 0.0 else SumAtIds(m, qs[..|qs| - 1]) + m[qs[|qs| - 1].id]
  }

  /** The sum of `KeyMinutes` at the ids of `qs`. */
  function KeySum(segments: seq<TimeSegment>, periods: seq<Period>, qs: seq<Period>): real
  {
    if |qs| == 0 then 0.0 else KeySum(segments, periods, qs[..|qs| - 1]) + KeyMinutes(segments, periods, qs[|qs| - 1].id)
  }

  /** The sum of `KeyShare` at the ids of `qs`. */
  function ShareSum(s: TimeSegment, periods: seq<Period>, qs: seq<Period>): real
  {
    if |qs| == 0 then 0.0 else ShareSum(s, periods, qs[..|qs| - 1]) + KeyShare(s, periods, qs[|qs| - 1].id)
  }

  /** The sum of the segment's shares of each period of `ps`. */
  function OverlapSum(s: TimeSegment, ps: seq<Period>): real
  {
    if |ps| == 0 then 0.0 else OverlapSum(s, ps[..|ps| - 1]) + PeriodShare(s, ps[|ps| - 1])
  }

  lemma {:induction false} KeyShareAbsent(s: TimeSegment, periods: seq<Period>, key: string)
    requires forall p :: p in periods ==> p.id != key
    ensures KeyShare(s, periods, key) == 0.0
  {
    if |periods| > 0 {
      KeyShareAbsent(s, periods[..|periods| - 1], key);
    }
  }

  /** With distinct ids, the share under a period's id is the share of that period. */
  lemma {:induction false} KeyShareOfDistinct(s: TimeSegment, periods: seq<Period>, j: int)
    requires DistinctIds(periods) && 0 <= j < |periods|
    ensures KeyShare(s, periods, periods[j].id) == PeriodShare(s, periods[j])
  {
    var init := periods[..|periods| - 1];
    if j == |periods| - 1 {
      KeyShareAbsent(s, init, periods[j].id);
    } else {
      assert init[j] == periods[j];
      KeyShareOfDistinct(s, init, j);
    }
  }

  lemma {:induction false} KeySumStep(segments: seq<TimeSegment>, periods: seq<Period>, qs: seq<Period>)
    requires |segments| > 0
    ensures var s := segments[|segments| - 1];
      KeySum(segments, periods, qs)
      == KeySum(segments[..|segments| - 1], periods, qs) + (if s.onCourt then ShareSum(s, periods, qs) else 0.0)
  {
    if |qs| > 0 {
      KeySumStep(segments, periods, qs[..|qs| - 1]);
    }
  }

  lemma {:induction false} ShareSumOfDistinct(s: TimeSegment, periods: seq<Period>, n: int)
    requires DistinctIds(periods) && 0 <= n <= |periods|
    ensures ShareSum(s, periods, periods[..n]) == OverlapSum(s, periods[..n])
  {
    if n > 0 {
      assert periods[..n][..n - 1] == periods[..n - 1];
      ShareSumOfDistinct(s, periods, n - 1);
      KeyShareOfDistinct(s, periods, n - 1);
    }
  }

  lemma {:induction false} ContiguousSpan(ps: seq<Period>)
    requires Contiguous(ps)
    ensures ps[0].startTime <= ps[|ps| - 1].endTime
  {
    if |ps| > 1 {
      var init := ps[..|ps| - 1];
      assert Contiguous(init);
      ContiguousSpan(init);
    }
  }

  /** Over contiguous periods, the shares add up to the overlap with their whole span. */
  lemma {:induction false} OverlapSumOfContiguous(s: TimeSegment, ps: seq<Period>)
    requires Contiguous(ps)
    ensures OverlapSum(s, ps) == Overlap(s.startTime, s.endTime, ps[0].startTime, ps[|ps| - 1].endTime) as real / 60.0
  {
    if |ps| > 1 {
      var init := ps[..|ps| - 1];
      assert Contiguous(init);
      OverlapSumOfContiguous(s, init);
      ContiguousSpan(init);
      OverlapSplit(s.startTime, s.endTime, ps[0].startTime, init[|init| - 1].endTime, ps[|ps| - 1].endTime);
    }
  }

  lemma {:induction false} KeySumIsTotal(segments: seq<TimeSegment>, periods: seq<Period>)
    requires Contiguous(periods) && DistinctIds(periods)
    requires WithinSpan(segments, periods[0].startTime, periods[|periods| - 1].endTime)
    ensures KeySum(segments, periods, periods) == TotalMinutes(segments)
  {
    if |segments| > 0 {
      var init := segments[..|segments| - 1];
      var s := segments[|segments| - 1];
      assert WithinSpan(init, periods[0].startTime, periods[|periods| - 1].endTime);
      KeySumIsTotal(init, periods);
      KeySumStep(segments, periods, periods);
      if s.onCourt {
        assert s in segments;
        assert periods[..|periods|] == periods;
        ShareSumOfDistinct(s, periods, |periods|);
        OverlapSumOfContiguous(s, periods);
        OverlapContained(s.startTime, s.endTime, periods[0].startTime, periods[|periods| - 1].endTime);
      }
    } else {
      KeySumOfNoSegments(segments, periods, periods);
    }
  }

  lemma {:induction false} KeySumOfNoSegments(segments: seq<TimeSegment>, periods: seq<Period>, qs: seq<Period>)
    requires |segments| == 0
    ensures KeySum(segments, periods, qs) == 0.0
  {
    if |qs| > 0 {
      KeySumOfNoSegments(segments, periods, qs[..|qs| - 1]);
    }
  }

  lemma {:induction false} SumAtIdsIsKeySum(d: MinutesDistribution, pa: PlayerAssignment, periods: seq<Period>, n: int)
    requires IsDistributionFor(d, pa, periods) && 0 <= n <= |periods|
    ensures forall q :: q in periods[..n] ==> q.id in d.minutesByPeriod
    ensures SumAtIds(d.minutesByPeriod, periods[..n]) == KeySum(pa.segments, periods, periods[..n])
  {
    assert forall q :: q in periods[..n] ==> q in periods;
    if n > 0 {
      assert periods[..n][..n - 1] == periods[..n - 1];
      SumAtIdsIsKeySum(d, pa, periods, n - 1);
    }
  }

  /** When the periods are contiguous with distinct ids and every on-court segment lies
      inside them, the minutes by period add up to the total minutes. */
  lemma PeriodMinutesAddUpToTotal(d: MinutesDistribution, pa: PlayerAssignment, periods: seq<Period>)
    requires IsDistributionFor(d, pa, periods)
    requires Contiguous(periods) && DistinctIds(periods)
    requires WithinSpan(pa.segments, periods[0].startTime, periods[|periods| - 1].endTime)
    ensures forall q :: q in periods ==> q.id in d.minutesByPeriod
    ensures SumAtIds(d.minutesByPeriod, periods) == d.totalMinutes
  {
    assert periods[..|periods|] == periods;
    SumAtIdsIsKeySum(d, pa, periods, |periods|);
    KeySumIsTotal(pa.segments, periods);
  }
}
