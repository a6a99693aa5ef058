/**
 * The three stateful node callbacks of the Simon-task network (network.py):
 * the stimulus clock, the one-trial-lag memory and the sign regulator.  The
 * simulator calls each of them once per tick with the simulation time `t`
 * (seconds, a float; modelled as an exact `real`).  StimulusNode and Memory each
 * keep their own copy of the two-phase clock of module PhaseClock in the fields
 * `inCenter` and `stimulusTime`, and a ghost counter `transitions` records how
 * many boundary crossings have fired.  Regulate has the same two clock fields, no
 * counter, and never moves its clock from the initial state.
 */
module Network {
  import opened Wrappers
  import PhaseClock

  /** The values `np.random.choice([-1, 1])` can draw. */
  predicate IsSign(v: int)
  {
    v == -1 || v == 1
  }

  function Abs(x: real): (a: real)
    ensures a >= 0.0 && (a == x || a == -x)
  {
    if x < 0.0 then -x else x
  }

  /**
   * Python's built-in `round` on a float: to the nearest integer, ties to the even
   * one.  A float is a rational number, so it is taken here as an exact `real`.
   */
  function RoundHalfEven(x: real): (n: int)
    ensures -0.5 <= x - n as real <= 0.5
    ensures (x - n as real == 0.5 || n as real - x == 0.5) ==> n % 2 == 0
  {
    var f := x.Floor;
    var frac := x - f as real;
    if frac < 0.5 then f
    else if frac > 0.5 then f + 1
    else if f % 2 == 0 then f else f + 1
  }

  /** Nearest-with-ties-to-even pins the rounded value down: no other integer has both properties. */
  lemma RoundHalfEvenUnique(x: real, m: int)
    requires -0.5 <= x - m as real <= 0.5
    requires (x - m as real == 0.5 || m as real - x == 0.5) ==> m % 2 == 0
    ensures RoundHalfEven(x) == m
  {
  }

  /** An integer-valued input is returned unchanged by rounding. */
  lemma RoundOfInteger(v: int)
    ensures RoundHalfEven(v as real) == v
  {
    RoundHalfEvenUnique(v as real, v);
  }

  /**
   * The congruency bit of a goal-layer sample (location, direction): 1 when the
   * two round to the same integer, 0 otherwise.
   */
  function Congruency(location: real, direction: real): (b: int)
    ensures b == 0 || b == 1
    ensures b == 1 <==> RoundHalfEven(direction) == RoundHalfEven(location)
  {
    if RoundHalfEven(direction) == RoundHalfEven(location) then 1 else 0
  }

  /** On a clean stimulus pair from {-1, 1} the congruency bit says whether the two agree. */
  lemma CongruencyOfSigns(location: int, direction: int)
    requires IsSign(location) && IsSign(direction)
    ensures Congruency(location as real, direction as real) == if location == direction then 1 else 0
  {
    RoundOfInteger(location);
    RoundOfInteger(direction);
  }

  /**
   * The sign rule of `Regulate.update_sign`: the remembered congruency `c` keeps its
   * magnitude and takes the sign of the live `direction`; a zero direction leaves it as it is.
   */
  function SignRule(c: real, direction: real): (r: real)
    ensures Abs(r) == Abs(c)
    ensures direction > 0.0 ==> r >= 0.0
    ensures direction < 0.0 ==> r <= 0.0
    ensures direction == 0.0 ==> r == c
  {
    if direction > 0.0 then Abs(c)
    else if direction < 0.0 then -Abs(c)
    else c
  }

  /**
   * The stimulus node: at each crossing out of the "not in center" phase it draws a
   * fresh (location, direction) pair, returns it on that tick and on every later
   * tick of the same phase, and returns (0, 0) throughout the "in center" phase.
   */
  class StimulusNode {
    var stimulusTime: real
    var location: int
    var direction: int
    var inCenter: bool
    ghost var transitions: nat

    function ClockView(): (c: PhaseClock.Clock)
      reads this
    {
      PhaseClock.Clock(inCenter, stimulusTime)
    }

    /**
     * After k crossings the boundary is 2.0 * k and `inCenter` is the parity of k;
     * the held pair is (0, 0) before the first draw and a drawn pair after it.
     */
    ghost predicate Valid()
      reads this
    {
      ClockView() == PhaseClock.At(transitions) &&
      (transitions == 0 ==> location == 0 && direction == 0) &&
      (transitions > 0 ==> IsSign(location) && IsSign(direction))
    }

    constructor ()
      ensures Valid()
      ensures transitions == 0
      ensures ClockView() == PhaseClock.Initial
      ensures location == 0 && direction == 0
    {
      stimulusTime := 0.0;
      location := 0;
      direction := 0;
      inCenter := false;
      transitions := 0;
    }

    /**
     * One tick.  The random draw `np.random.choice([-1, 1], size=2)` is passed in as
     * (drawLocation, drawDirection); it is used only when the tick crosses out of
     * the "not in center" phase.
     */
    method Step(t: real, drawLocation: int, drawDirection: int) returns (loc: int, dir: int)
      requires Valid()
      requires IsSign(drawLocation) && IsSign(drawDirection)
      modifies this
      ensures Valid()
      ensures ClockView() == PhaseClock.Advance(old(ClockView()), t)
      ensures transitions == old(transitions) + if PhaseClock.Due(old(ClockView()), t) then 1 else 0
      ensures !PhaseClock.Due(old(ClockView()), t) ==> unchanged(this)
      ensures old(inCenter) ==> loc == 0 && dir == 0
      ensures old(inCenter) ==> location == old(location) && direction == old(direction)
      ensures !old(inCenter) ==> loc == location && dir == direction
      ensures !old(inCenter) && PhaseClock.Due(old(ClockView()), t) ==>
                location == drawLocation && direction == drawDirection
      ensures (loc == 0 && dir == 0) || (IsSign(loc) && IsSign(dir))
    {
      if !inCenter {
        if t > stimulusTime {
          location, direction := drawLocation, drawDirection;
          stimulusTime := stimulusTime + PhaseClock.Period;
          inCenter := true;
          transitions := transitions + 1;
        }
        return location, direction;
      } else {
        if t > stimulusTime {
          inCenter := false;
          stimulusTime := stimulusTime + PhaseClock.Period;
          transitions := transitions + 1;
        }
        return 0, 0;
      }
    }
  }

  /**
   * The one-trial-lag memory.  At each crossing out of the "not in center" phase it
   * stores a value taken from the input of that tick (0 on the very first crossing)
   * and returns the stored value until the next crossing; throughout the "in
   * center" phase it returns 0.  `UpdateGoal` stores a congruency bit,
   * `UpdateResponse` the raw input.  Both methods work on the SAME fields: the
   * clock (`inCenter`, `stimulusTime`) and `firstValues` are shared by the two
   * methods of one instance, so on one object each call advances the clock of the
   * other.  The network builds one instance for each method.
   */
  class Memory {
    var stimulusTime: real
    var congruencyPrev: int
    var firstValues: bool
    var inCenter: bool
    var responsePrev: real
    ghost var transitions: nat

    function ClockView(): (c: PhaseClock.Clock)
      reads this
    {
      PhaseClock.Clock(inCenter, stimulusTime)
    }

    /**
     * After k crossings the boundary is 2.0 * k and `inCenter` is the parity of k;
     * `firstValues` holds exactly until the first crossing; the stored congruency
     * is a bit, and nothing is stored before the first crossing.
     */
    ghost predicate Valid()
      reads this
    {
      ClockView() == PhaseClock.At(transitions) &&
      (firstValues <==> transitions == 0) &&
      (congruencyPrev == 0 || congruencyPrev == 1) &&
      (transitions == 0 ==> congruencyPrev == 0 && responsePrev == 0.0)
    }

    constructor ()
      ensures Valid()
      ensures transitions == 0
      ensures ClockView() == PhaseClock.Initial
      ensures firstValues && congruencyPrev == 0 && responsePrev == 0.0
    {
      stimulusTime := 0.0;
      congruencyPrev := 0;
      firstValues := true;
      inCenter := false;
      responsePrev := 0.0;
      transitions := 0;
    }

    /** One tick of the congruency memory; `x` is the goal-layer sample (location, direction). */
    method UpdateGoal(t: real, x: (real, real)) returns (r: int)
      requires Valid()
      modifies this
      ensures Valid()
      ensures ClockView() == PhaseClock.Advance(old(ClockView()), t)
      ensures transitions == old(transitions) + if PhaseClock.Due(old(ClockView()), t) then 1 else 0
      ensures !PhaseClock.Due(old(ClockView()), t) ==> unchanged(this)
      ensures responsePrev == old(responsePrev)
      ensures !old(firstValues) ==> !firstValues
      ensures old(inCenter) ==> r == 0
      ensures old(inCenter) ==> congruencyPrev == old(congruencyPrev) && firstValues == old(firstValues)
      ensures !old(inCenter) ==> r == congruencyPrev
      ensures !old(inCenter) && PhaseClock.Due(old(ClockView()), t) ==>
                !firstValues &&
                congruencyPrev == if old(firstValues) then 0 else Congruency(x.0, x.1)
      ensures r == 0 || r == 1
    {
      if !inCenter {
        if t > stimulusTime {
          var congruency;
          if firstValues {
            congruency := 0;
            firstValues := false;
          } else {
            var (loc, dir) := x;
            congruency := Congruency(loc, dir);
          }
          congruencyPrev := congruency;
          stimulusTime := stimulusTime + PhaseClock.Period;
          inCenter := true;
          transitions := transitions + 1;
        }
        return congruencyPrev;
      } else {
        if t > stimulusTime {
          inCenter := false;
          stimulusTime := stimulusTime + PhaseClock.Period;
          transitions := transitions + 1;
        }
        return 0;
      }
    }

    /** One tick of the response memory; `x` is the decision value sampled at this tick. */
    method UpdateResponse(t: real, x: real) returns (r: real)
      requires Valid()
      modifies this
      ensures Valid()
      ensures ClockView() == PhaseClock.Advance(old(ClockView()), t)
      ensures transitions == old(transitions) + if PhaseClock.Due(old(ClockView()), t) then 1 else 0
      ensures !PhaseClock.Due(old(ClockView()), t) ==> unchanged(this)
      ensures congruencyPrev == old(congruencyPrev)
      ensures !old(firstValues) ==> !firstValues
      ensures old(inCenter) ==> r == 0.0
      ensures old(inCenter) ==> responsePrev == old(responsePrev) && firstValues == old(firstValues)
      ensures !old(inCenter) ==> r == responsePrev
      ensures !old(inCenter) && PhaseClock.Due(old(ClockView()), t) ==>
                !firstValues &&
                responsePrev == if old(firstValues) then 0.0 else x
    {
      if !inCenter {
        if t > stimulusTime {
          if firstValues {
            responsePrev := 0.0;
            firstValues := false;
          } else {
            responsePrev := x;
          }
          stimulusTime := stimulusTime + PhaseClock.Period;
          inCenter := true;
          transitions := transitions + 1;
        }
        return responsePrev;
      } else {
        if t > stimulusTime {
          inCenter := false;
          stimulusTime := stimulusTime + PhaseClock.Period;
          transitions := transitions + 1;
        }
        return 0.0;
      }
    }
  }

  /**
   * The sign regulator.  It carries the same clock fields as the other nodes, but no
   * branch ever sets `inCenter` to true, so from its initial state the clock never moves:
   * a tick after time 0 applies the sign rule, a tick at or before time 0 returns
   * nothing (the Python method falls off its end and returns None).
   */
  class Regulate {
    var congruency: real
    var stimulusTime: real
    var inCenter: bool

    function ClockView(): (c: PhaseClock.Clock)
      reads this
    {
      PhaseClock.Clock(inCenter, stimulusTime)
    }

    /** Every reachable state keeps the initial clock. */
    ghost predicate Valid()
      reads this
    {
      ClockView() == PhaseClock.Initial
    }

    constructor ()
      ensures Valid()
      ensures ClockView() == PhaseClock.Initial
      ensures congruency == 0.0
    {
      congruency := 0.0;
      stimulusTime := 0.0;
      inCenter := false;
    }

    /**
     * One tick; `x` is (remembered congruency, live direction).  Stated for every
     * state of the fields, including the "in center" branch that no reachable
     * state enters.
     */
    method UpdateSign(t: real, x: (real, real)) returns (r: Option<real>)
      modifies this
      ensures !old(inCenter) ==> inCenter == old(inCenter) && stimulusTime == old(stimulusTime)
      ensures !old(inCenter) && PhaseClock.Due(old(ClockView()), t) ==>
                r == Some(SignRule(x.0, x.1)) && congruency == SignRule(x.0, x.1)
      ensures !old(inCenter) && !PhaseClock.Due(old(ClockView()), t) ==> r == None && unchanged(this)
      ensures old(inCenter) ==> r == Some(0.0) && congruency == old(congruency)
      ensures old(inCenter) ==> ClockView() == PhaseClock.Advance(old(ClockView()), t)
      ensures old(Valid()) ==> Valid() && (r.Some? <==> t > 0.0)
    {
      if !inCenter {
        if t > stimulusTime {
          var (congruencyPrev, direction) := x;
          var c;
          if direction > 0.0 {
            c := Abs(congruencyPrev);
          } else if direction < 0.0 {
            c := -Abs(congruencyPrev);
          } else {
            c := congruencyPrev;
          }
          congruency := c;
          return Some(congruency);
        }
        return None;
      } else {
        if t > stimulusTime {
          inCenter := false;
          stimulusTime := stimulusTime + PhaseClock.Period;
        }
        return Some(0.0);
      }
    }
  }
}
