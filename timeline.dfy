/** Interval tests shared by the analytics. The program treats a segment as
    covering both of its end points. */
module Timeline {
  import opened Types

  /** Some on-court segment has `startTime <= t <= endTime`. */
  predicate OnCourtAt(segments: seq<TimeSegment>, t: int)
  {
    exists j :: 0 <= j < |segments| && segments[j].onCourt
      && segments[j].startTime <= t && segments[j].endTime >= t
  }

  /** Some on-court segment has `startTime <= t0` and `endTime >= t1`. */
  predicate OnCourtThrough(segments: seq<TimeSegment>, t0: int, t1: int)
  {
    exists j :: 0 <= j < |segments| && segments[j].onCourt
      && segments[j].startTime <= t0 && segments[j].endTime >= t1
  }

  function Max(a: int, b: int): int { if a < b then b else a }
  function Min(a: int, b: int): int { if a < b then a else b }

  /** Seconds shared by `[s0, s1]` and `[p0, p1]`: `min(ends) - max(starts)` when positive, else 0. */
  function Overlap(s0: int, s1: int, p0: int, p1: int): (r: int)
    ensures r >= 0
    ensures r <= s1 - s0 || r == 0
    ensures r <= p1 - p0 || r == 0
    ensures r > 0 <==> Max(s0, p0) < Min(s1, p1)
  {
    if Min(s1, p1) > Max(s0, p0) then Min(s1, p1) - Max(s0, p0) else 0
  }

  /** Splitting `[a, c]` at `b` splits the overlap with any interval. */
  lemma OverlapSplit(s0: int, s1: int, a: int, b: int, c: int)
    requires a <= b <= c
    ensures Overlap(s0, s1, a, b) + Overlap(s0, s1, b, c) == Overlap(s0, s1, a, c)
  {
  }

  /** An interval inside `[p0, p1]` overlaps it by its whole length. */
  lemma OverlapContained(s0: int, s1: int, p0: int, p1: int)
    requires p0 <= s0 <= s1 <= p1
    ensures Overlap(s0, s1, p0, p1) == s1 - s0
  {
  }
}
