/**
 * The two-phase trial clock that StimulusNode and Memory each keep in their own
 * `in_center` and `stimulus_time` fields (network.py).  Both run the same
 * automaton: while the tick `t` has not passed the boundary nothing happens; once
 * it has, the phase flips and the boundary moves on by 2.0 seconds.  The automaton
 * is defined here once, and both classes are proved to follow it.  Regulate carries
 * the same two fields but never moves them from their initial values.
 */
module PhaseClock {

  /** Length of both the presentation and the rest phase, in seconds. */
  const Period: real := 2.0

  /** `inCenter` is the phase flag, `boundary` the next time at which it flips. */
  datatype Clock = Clock(inCenter: bool, boundary: real)

  /** The state every node starts in: not in center, boundary at time 0. */
  const Initial: Clock := Clock(false, 0.0)

  /** A tick at time `t` crosses the boundary only when it lies strictly after it. */
  predicate Due(c: Clock, t: real)
  {
    t > c.boundary
  }

  /** The clock after one tick at time `t`. */
  function Advance(c: Clock, t: real): (r: Clock)
    ensures r.boundary >= c.boundary
    ensures r.inCenter != c.inCenter <==> Due(c, t)
    ensures !Due(c, t) ==> r == c
    ensures Due(c, t) ==> r.boundary == c.boundary + Period
  {
    if Due(c, t) then Clock(!c.inCenter, c.boundary + Period) else c
  }

  /** The clock after exactly `k` boundary crossings from the initial state. */
  function At(k: nat): (c: Clock)
  {
    Clock(k % 2 == 1, Period * k as real)
  }

  /**
   * From the state reached after `k` crossings, one tick reaches either the same
   * state or the state after `k + 1` crossings, never further.
   */
  lemma AdvanceAt(k: nat, t: real)
    ensures Advance(At(k), t) == if Due(At(k), t) then At(k + 1) else At(k)
  {
  }

  /**
   * However far a tick jumps past the boundary, it fires a single crossing, and
   * the clock it leaves behind is still due at that same time.
   */
  lemma LateTickFiresOnce(k: nat, t: real)
    requires t > At(k + 1).boundary
    ensures Advance(At(k), t) == At(k + 1)
    ensures Due(At(k + 1), t)
  {
    AdvanceAt(k, t);
  }

  /** The clock after the ticks `ts`, taken in order. */
  function Run(c: Clock, ts: seq<real>): (r: Clock)
    decreases |ts|
  {
    if ts == [] then c else Run(Advance(c, ts[0]), ts[1..])
  }

  /** The number of boundary crossings that the ticks `ts` fire. */
  function Crossings(c: Clock, ts: seq<real>): (n: nat)
    decreases |ts|
  {
    if ts == [] then 0
    else (if Due(c, ts[0]) then 1 else 0) + Crossings(Advance(c, ts[0]), ts[1..])
  }

  /**
   * Starting from the state after `k` crossings, a run of ticks fires at most one
   * crossing per tick, and the state it ends in is the state after `k` plus that
   * many crossings: the boundary is 2.0 times the crossing count and `inCenter`
   * is its parity.
   */
  lemma {:induction false} RunAt(k: nat, ts: seq<real>)
    ensures Crossings(At(k), ts) <= |ts|
    ensures Run(At(k), ts) == At(k + Crossings(At(k), ts))
    decreases |ts|
  {
    if ts != [] {
      AdvanceAt(k, ts[0]);
      var k' := if Due(At(k), ts[0]) then k + 1 else k;
      RunAt(k', ts[1..]);
    }
  }

  /** The boundary never moves backwards over a run, and moves by 2.0 per crossing. */
  lemma {:induction false} RunBoundary(c: Clock, ts: seq<real>)
    ensures Run(c, ts).boundary == c.boundary + Period * Crossings(c, ts) as real
    ensures Run(c, ts).boundary >= c.boundary
    decreases |ts|
  {
    if ts != [] {
      RunBoundary(Advance(c, ts[0]), ts[1..]);
    }
  }

  /** Ticks that never pass the boundary leave the clock untouched. */
  lemma {:induction false} RunIdle(c: Clock, ts: seq<real>)
    requires forall i :: 0 <= i < |ts| ==> ts[i] <= c.boundary
    ensures Run(c, ts) == c
    ensures Crossings(c, ts) == 0
  {
    if ts != [] {
      RunIdle(c, ts[1..]);
    }
  }
}
