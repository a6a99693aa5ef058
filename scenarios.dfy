/**
 * Clients of the three node classes, driven tick by tick as the simulator drives
 * them.  Each scenario uses only the contracts of the classes.
 */
module Scenarios {
  import opened Wrappers
  import Network
  import PhaseClock

  /**
   * The stimulus node's real timeline: a draw is returned on the tick that makes
   * it, then (0, 0) for the next 2 s, then the same draw for the 2 s after that.
   */
  method StimulusTimeline() returns (outs: seq<(int, int)>)
    ensures outs == [(1, 1), (0, 0), (0, 0), (1, 1), (1, 1), (-1, 1), (0, 0)]
  {
    var s := new Network.StimulusNode();
    var l, d := s.Step(0.5, 1, 1);
    outs := [(l, d)];
    l, d := s.Step(1.0, -1, -1);
    outs := outs + [(l, d)];
    l, d := s.Step(2.5, -1, -1);
    outs := outs + [(l, d)];
    l, d := s.Step(3.0, -1, -1);
    outs := outs + [(l, d)];
    l, d := s.Step(4.0, -1, -1);
    outs := outs + [(l, d)];
    l, d := s.Step(4.5, -1, 1);
    outs := outs + [(l, d)];
    l, d := s.Step(5.0, 1, 1);
    outs := outs + [(l, d)];
  }

  /**
   * A fresh stimulus node driven through the ticks `ts`, with `draws[i]` the random
   * pair available at tick `ts[i]`: its clock ends where the pure clock of
   * PhaseClock ends after the same ticks, that is after `Crossings` crossings,
   * at most one per tick.
   */
  method StimulusRun(ts: seq<real>, draws: seq<(int, int)>) returns (c: PhaseClock.Clock)
    requires |draws| == |ts|
    requires forall i :: 0 <= i < |draws| ==> Network.IsSign(draws[i].0) && Network.IsSign(draws[i].1)
    ensures c == PhaseClock.Run(PhaseClock.Initial, ts)
    ensures c == PhaseClock.At(PhaseClock.Crossings(PhaseClock.Initial, ts))
    ensures c.boundary <= PhaseClock.Period * |ts| as real
  {
    var s := new Network.StimulusNode();
    var i := 0;
    while i < |ts|
      invariant 0 <= i <= |ts|
      invariant s.Valid()
      invariant PhaseClock.Run(s.ClockView(), ts[i..]) == PhaseClock.Run(PhaseClock.Initial, ts)
    {
      assert ts[i..][1..] == ts[i + 1..];
      var l, d := s.Step(ts[i], draws[i].0, draws[i].1);
      i := i + 1;
    }
    c := s.ClockView();
    PhaseClock.RunAt(0, ts);
  }

  /**
   * Three trials with draws (+1, +1), (-1, +1), (+1, -1).  The congruency memory is
   * fed, as the goal layer would be, the pair the stimulus node showed on the tick
   * before.  Trial 1 yields 0 (no previous trial), trial 2 yields 1 (trial 1 was
   * congruent), trial 3 yields 0 (trial 2 was incongruent).
   */
  method EndToEndScenario() returns (c1: int, c2: int, c3: int)
    ensures c1 == 0 && c2 == 1 && c3 == 0
  {
    var stim := new Network.StimulusNode();
    var mem := new Network.Memory();
    // `shown` is the pair the stimulus node returned on the previous tick.
    var shown: (int, int) := (0, 0);
    var l, d, ignored;
    // Trial 1 starts.
    c1 := mem.UpdateGoal(1.0, (shown.0 as real, shown.1 as real));
    l, d := stim.Step(1.0, 1, 1);
    shown := (l, d);
    // Rest phase, then trial 1's pair is shown again.
    ignored := mem.UpdateGoal(3.0, (shown.0 as real, shown.1 as real));
    l, d := stim.Step(3.0, 1, 1);
    shown := (l, d);
    ignored := mem.UpdateGoal(3.5, (shown.0 as real, shown.1 as real));
    l, d := stim.Step(3.5, 1, 1);
    shown := (l, d);
    // Trial 2 starts; the memory sees trial 1's pair.
    c2 := mem.UpdateGoal(5.0, (shown.0 as real, shown.1 as real));
    l, d := stim.Step(5.0, -1, 1);
    shown := (l, d);
    ignored := mem.UpdateGoal(7.0, (shown.0 as real, shown.1 as real));
    l, d := stim.Step(7.0, 1, 1);
    shown := (l, d);
    ignored := mem.UpdateGoal(7.5, (shown.0 as real, shown.1 as real));
    l, d := stim.Step(7.5, 1, 1);
    shown := (l, d);
    // Trial 3 starts; the memory sees trial 2's pair.
    c3 := mem.UpdateGoal(9.0, (shown.0 as real, shown.1 as real));
    l, d := stim.Step(9.0, 1, -1);
  }

  /**
   * Both memory methods called on ONE instance share its clock and its first-trial
   * flag: a goal update consumes the first crossing, so a response update on the
   * same tick sees the "in center" phase and returns 0, and the next crossing
   * already stores the response input.
   */
  method SharedMemoryScenario() returns (g: int, r1: real, r2: real, r3: real)
    ensures g == 0 && r1 == 0.0 && r2 == 0.0 && r3 == 0.75
  {
    var mem := new Network.Memory();
    g := mem.UpdateGoal(1.0, (1.0, 1.0));
    r1 := mem.UpdateResponse(1.0, 0.75);
    r2 := mem.UpdateResponse(3.0, 0.75);
    r3 := mem.UpdateResponse(5.0, 0.75);
  }

  /**
   * The sign regulator from its initial state: a positive, negative and zero
   * direction give |c|, -|c| and c, and a tick at time 0 returns nothing.
   */
  method SignScenario() returns (a: Option<real>, b: Option<real>, c: Option<real>, z: Option<real>)
    ensures a == Some(1.0) && b == Some(-1.0) && c == Some(1.0) && z == None
  {
    var reg := new Network.Regulate();
    a := reg.UpdateSign(0.5, (1.0, 1.0));
    b := reg.UpdateSign(0.6, (1.0, -1.0));
    c := reg.UpdateSign(0.7, (1.0, 0.0));
    z := reg.UpdateSign(0.0, (1.0, 1.0));
  }
}
