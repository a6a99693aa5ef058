# Simon-task trial clock and one-trial-lag memory

A Dafny model of the three hand-written node callbacks of the Simon-task Nengo
network (`network.py`): the stimulus node `StimulusNode.step`, the memory node
`Memory.update_goal` / `Memory.update_response`, and the sign regulator
`Regulate.update_sign`. The simulator calls each once per tick with the time `t`.

Each node keeps its own copy of a two-phase clock. A flag `in_center` and a
boundary `stimulus_time` start at `False` and `0`. In `StimulusNode` and
`Memory`, a tick strictly after the boundary flips the flag and moves the
boundary on by 2.0 s. That automaton is `PhaseClock.Advance` (file
`phase_clock.dfy`), defined once. Both classes prove that their own fields
follow it, using a ghost counter `transitions` of the crossings fired so far.
Every valid state of these two classes has `stimulusTime == 2.0 * transitions`,
and `inCenter` is the parity of `transitions`. The lemmas over runs of ticks
(`PhaseClock.RunAt`, `RunBoundary`, `RunIdle`) carry these facts to many calls.
`Scenarios.StimulusRun` applies them to a `StimulusNode` driven through any
sequence of ticks. `Regulate` carries the same clock fields but never moves them
from its initial state: on a due tick outside the "in center" phase it applies
the sign rule and leaves the clock alone. `scenarios.dfy` drives the classes tick
by tick and proves concrete traces from their contracts alone.

Modelling choices:
- Simulation time and the float inputs are exact `real`s. The clock only compares
  `t` and adds 2.0, and `2.0 * k` is exact in a double for every reachable `k`
  below 2^53.
- The random draw `np.random.choice([-1, 1], size=2)` is passed to
  `StimulusNode.Step` as two arguments, each required to be -1 or 1. It is used
  only on a crossing out of the "not in center" phase.
- Python's `round` on a float is `Network.RoundHalfEven`: round to the nearest
  integer, with ties going to the even one, computed exactly on the float's
  rational value.
- `Regulate.update_sign` can finish without a `return`, and Python then gives
  `None`. It returns `Option<real>` here.
- The two memory methods act on the same fields of one object: the clock and the
  first-trial flag. `Network.Memory` is one class with both methods, and
  `Scenarios.SharedMemoryScenario` shows what that sharing does. The network
  itself builds a separate instance for each method.

Behaviour of the code worth noting:
- The stimulus node does not hold its draw during the phase after the draw. It
  returns the new draw on the tick that makes it, then (0, 0) for the next 2 s,
  then the same draw for the 2 s after that (`Scenarios.StimulusTimeline`).
- Out-of-order ticks are not rejected. No method requires `t` to increase.
- The phase length is the constant 2.0.
- The regulator has no working gate. It never sets `in_center` to true, so its "in
  center" branch cannot be reached from its initial state. Every tick after time
  0 applies the sign rule, and a tick at or before time 0 returns nothing.

## Model

| member | source | states |
|---|---|---|
| PhaseClock.Advance | network.py:13-24 | the boundary only moves forward, and by exactly 2.0; the phase flips if and only if `t` is strictly past the boundary; a tick at or before the boundary changes nothing |
| PhaseClock.AdvanceAt | network.py:38-65 | from the state after k crossings, one tick reaches the state after k or after k+1 crossings, and it is k+1 exactly when the tick is due |
| PhaseClock.LateTickFiresOnce | network.py:14-24 | a tick far past the next boundary still fires only one crossing, and the clock it leaves is still behind `t` |
| PhaseClock.RunAt | network.py:6-24 | after any sequence of ticks from the state after k crossings, at most one crossing fires per tick, the boundary is 2.0 times the total crossing count, and `in_center` is that count's parity |
| PhaseClock.RunBoundary | network.py:18-24 | over any run of ticks the boundary grows by 2.0 per crossing and never decreases |
| PhaseClock.RunIdle | network.py:14-24 | ticks that never pass the boundary leave the clock unchanged and fire no crossing |
| Network.RoundHalfEven | network.py:47 | the rounded integer is within 0.5 of the input, and is even when the input lies exactly halfway |
| Network.RoundHalfEvenUnique | network.py:47 | any integer within 0.5 of the input, and even on a tie, is the rounded value, so the rounding is fully determined |
| Network.RoundOfInteger | network.py:47 | rounding an integer-valued input returns that integer |
| Network.Congruency | network.py:46-50 | the congruency bit is 0 or 1, and it is 1 exactly when direction and location round to the same integer |
| Network.CongruencyOfSigns | network.py:46-50 | on a stimulus pair from {-1,1} the bit is 1 if and only if location equals direction |
| Network.SignRule | network.py:96-101 | the result has the magnitude of the remembered congruency; it is non-negative for a positive direction and non-positive for a negative one; a zero direction returns the congruency itself |
| Network.StimulusNode.constructor | network.py:5-10 | the node starts with no crossing, boundary 0, not in center, and the pair (0,0) |
| Network.StimulusNode.Step | network.py:12-27 | the clock follows `PhaseClock.Advance` and the crossing count goes up by one exactly when the tick is due; a tick that is not due changes no field; in center it returns (0,0) and keeps the pair; otherwise it returns the held pair, which is the new draw on a crossing; the output is (0,0) or a pair from {-1,1}x{-1,1}; the invariant (boundary 2k, parity, drawn pair after the first crossing) is kept |
| Network.Memory.constructor | network.py:30-35 | the memory starts with no crossing, boundary 0, not in center, the first-trial flag set, and both stored values 0 |
| Network.Memory.UpdateGoal | network.py:37-65 | the clock follows `PhaseClock.Advance`; a tick that is not due changes nothing; on a crossing out of the "not in center" phase it stores 0 and clears the first-trial flag on the first crossing, and stores the congruency of the input on every later one; it returns the stored bit outside the in-center phase and 0 inside it; it never touches the stored response; the first-trial flag never comes back; the stored bit is always 0 or 1 |
| Network.Memory.UpdateResponse | network.py:67-86 | the clock follows `PhaseClock.Advance`; a tick that is not due changes nothing; on a crossing out of the "not in center" phase it stores 0 and clears the first-trial flag on the first crossing, and stores the input unchanged on every later one; it returns the stored value outside the in-center phase and 0 inside it; it never changes the stored congruency |
| Network.Regulate.constructor | network.py:88-91 | The regulator starts not in center, with boundary 0 and stored congruency 0. |
| Network.Regulate.UpdateSign | network.py:92-109 | outside the in-center phase the clock fields never change; a tick past the boundary returns and stores the sign rule of (congruency, direction); a tick at or before it returns nothing and changes nothing; from any reachable state the clock stays initial and a value is returned if and only if t > 0 |
| Scenarios.StimulusTimeline | network.py:12-27 | from a fresh node, ticks 0.5, 1.0, 2.5, 3.0, 4.0, 4.5, 5.0 return the draw, (0,0), (0,0), the same draw twice, the next draw, then (0,0) |
| Scenarios.StimulusRun | network.py:12-27 | a fresh stimulus node stepped through any tick sequence ends in the clock state that `PhaseClock.Run` gives for those ticks, which is the state after `Crossings` crossings, so its boundary is at most 2.0 times the number of ticks |
| Scenarios.EndToEndScenario | network.py:12-65 | with draws (+1,+1), (-1,+1), (+1,-1) and the memory fed the previously shown pair, the congruency memory yields 0, 1 and 0 at the starts of trials 1, 2 and 3 |
| Scenarios.SharedMemoryScenario | network.py:37-86 | on one memory object a goal update consumes the first crossing, so a response update at the same tick returns 0 and the next crossing stores the response input |
| Scenarios.SignScenario | network.py:92-103 | a fresh regulator returns 1, -1 and 1 for congruency 1 with direction +1, -1 and 0, and nothing at time 0 |

## Left out

- The Nengo network (ensembles, connections, the RLS learning rule, probes, `map_position`) in network.py:110-175: it is neural simulation in a foreign library.
- The simulator run loop and trial tallying in network.py:177-194: it reads probe arrays and uses globals that the file never defines.
- `np.random.choice`: the draw is a parameter of `StimulusNode.Step`, not a random source.
- IEEE floating point: times and inputs are exact reals, so neither float rounding in `stimulus_time + 2.0` nor NaN or infinite inputs are modelled.
- `np.abs` on floats: it is `Network.Abs` on reals.
- Python's dynamic typing: `x` always has the shape the network wires in, a pair for `update_goal` and `update_sign`. For `update_response` the network passes a one-element array (a node with `size_in=1`), which the method stores and returns as it is; the model stands for that array by its single element, a `real`.
- The unused local pair at network.py:15 has no model, because nothing reads it.
