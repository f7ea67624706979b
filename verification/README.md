# Billy Bass controller: mouth, head and command sequencer

A Dafny model of the motor-control core of the singing-fish firmware. It has three parts:

- The mouth motor's direction state machine and stepped duty ramps: `set_mouth_direction`, `mouth_set`, `mouth_open`, `mouth_close`, `mouth_stop`, `speak_syllable`.
- The head motor's soft hold and slowed stop.
- The `process_command` loop, which runs the timed mouth movements of a `BillyBassCommand` in order.

The firmware never reads a sensor. All it does is write PWM duty levels and H-bridge pins, and sleep. Each operation is therefore a pure function from a `Billy.Fish` to a `Billy.Run`, made of two parts:

- the new controller state, meaning the registers plus the remembered mouth direction;
- the ordered trace of `SetDuty`, `SetPin` and `Delay` events it performed.

`Hardware.Replay` is the partner definition of every operation. It replays a trace on the registers. `Billy.Faithful` says that the state an operation reports is exactly what its trace leaves behind.

The central safety property is `Hardware.MouthPinSafe`: a mouth direction pin is only written while the mouth duty is 0, so the bridge is never reversed while energised. `Hardware.MouthWritesWithin` bounds every mouth duty the trace writes.

Modules:

| module | file | models |
|---|---|---|
| `Hardware` | hardware.dfy | registers, events, replay, the safety and bound predicates, the `for` loop that writes a ramp |
| `Ramp` | ramp.dfy | the level sequences of `(lo..=hi).step_by(k)` and `(lo..hi).rev().step_by(k)` |
| `Billy` | billy.dfy | `MouthDirection`, the controller state, `new`, `head_hold_soft`, `head_slowed_stop` |
| `Mouth` | mouth.dfy | everything in mouth.rs, as written |
| `SharedModels` | shared_models.dfy | `MouthMovement`, `BillyBassCommand` |
| `Movements` | movements.dfy | the movement loop, generic in what one movement does |
| `Sequencer` | sequencer.dfy | `process_command`, as written |
| `Corrected` | corrected.dfy | `mouth_set` and `process_command` with the two findings below fixed |

The falling branch of the duty ramp ends with an explicit write of the target (billy-controller/src/billy/mouth.rs:51, commented as making sure the final target is set); the rising branch has no such write, so it can stop short (see Findings). `Mouth` and `Sequencer` follow the code. `Corrected` gives the intended behaviour, with its own `ProcessCommand`.

## Model

| member | source | states |
|---|---|---|
| Ramp.StepUp | billy-controller/src/billy/mouth.rs:41 | `(lo..=hi).step_by(k)` gives levels lo + k·i, none above hi. It is non-empty exactly when lo ≤ hi, and its last level is within k of hi. |
| Ramp.StepDown | billy-controller/src/billy/mouth.rs:47 | `(lo..hi).rev().step_by(k)` gives levels hi − 1 − k·i, none below lo, and never hi itself. It is non-empty exactly when lo < hi, and its last level is within k of lo. |
| Ramp.StepUpLast | billy-controller/src/billy/mouth.rs:40-44 | The last level of a rising ramp is hi − (hi − lo) mod k. It equals hi if and only if k divides hi − lo. |
| Ramp.StepLengths | billy-controller/src/billy/mouth.rs:41-47 | A rising ramp has (hi − lo)/k + 1 levels. A falling ramp has (hi − 1 − lo)/k + 1. |
| Ramp.UpRampWrites | billy-controller/src/billy/mouth.rs:41-44 | The rising loop writes exactly lo, lo + k, … to the channel, each write followed by its sleep, with the count given above. |
| Ramp.DownRampThen | billy-controller/src/billy/mouth.rs:47-51 | The falling loop writes exactly hi − 1, hi − 1 − k, …, each followed by its sleep. The statement after the loop comes after the last of them. |
| Billy.New | billy-controller/src/billy/mod.rs:65-73 | A new controller remembers direction Opening and owns the registers as peripheral set-up left them. |
| Billy.Sleep | billy-controller/src/websocket_server.rs:115 | A delay changes no register and no remembered state, and sleeps exactly the given time. |
| Billy.HoldLevelsAreRange | billy-controller/src/billy/mod.rs:85 | `(0..256).step_by(16)` is exactly the sixteen levels 0, 16, …, 240. |
| Billy.HeadHoldSoft | billy-controller/src/billy/mod.rs:80-89 | The soft hold drives In3 high and In4 low first. It leaves the head at duty 240, not 255. It leaves the mouth and the remembered direction alone, and no event of its trace writes a mouth pin. |
| Billy.HeadHoldSoftWrites | billy-controller/src/billy/mod.rs:85-88 | 34 events: the two pin writes, then each of 0, 16, …, 240 written to the head channel in increasing order, each followed by a 5 ms sleep. |
| Billy.DecayLevels | billy-controller/src/billy/mod.rs:92-104 | The slowed-stop loop writes strictly decreasing levels, each the decay of the one before. It writes at most d of them and stops at 0 or at a level the decay keeps. |
| Billy.HeadSlowedStop | billy-controller/src/billy/mod.rs:91-105 | It does nothing at duty 0. It never raises the head duty, and it leaves the pins, the mouth and the direction unchanged. It ends at 0 or at a fixed point of the decay, and always at 0 when the decay strictly lowers every positive duty. |
| Billy.HeadSlowedStopWrites | billy-controller/src/billy/mod.rs:92-104 | The slowed stop writes exactly the levels of `Billy.DecayLevels` to the head channel, in order, each followed by a 50 ms sleep, and nothing else. |
| Billy.Decay95 | billy-controller/src/billy/mod.rs:96 | Keeping 95 % never raises a duty, strictly lowers every positive one, and removes at most a twentieth plus one. |
| Billy.SlowedStopReachesRest | billy-controller/src/billy/mod.rs:91-105 | With the 95 % rule, the head always comes to rest at duty 0. |
| Mouth.DirectionsOpposite | billy-controller/src/billy/mouth.rs:18-27 | Each direction drives exactly one of In1 and In2 high, and the two directions use opposite polarities. |
| Mouth.Reverse | billy-controller/src/billy/mouth.rs:11-29 | A direction change zeroes the duty with a 20 ms settle when it was positive, then writes the pins. It ends at duty 0, driving the new direction. |
| Mouth.SetMouthDirection | billy-controller/src/billy/mouth.rs:8-31 | A request for the remembered direction does nothing. Any other request ends with the pins driving it at duty 0. A pin is written only on a change and only at duty 0, and the head is untouched. |
| Mouth.RampUp | billy-controller/src/billy/mouth.rs:40-45 | The rising ramp writes no pin and stays within [current, target]. It ends at target − (target − current) mod 8. |
| Mouth.RampDown | billy-controller/src/billy/mouth.rs:46-52 | The falling ramp writes no pin and stays within [target, current − 1]. It ends at the target exactly. |
| Mouth.RampUpWrites | billy-controller/src/billy/mouth.rs:41-44 | The rising ramp writes current + 8·i for i ≤ (target − current)/8, each followed by a 3 ms sleep, and nothing else. |
| Mouth.RampDownWrites | billy-controller/src/billy/mouth.rs:47-51 | The falling ramp writes current − 1 − 8·i for i < (current − 1 − target)/8 + 1, each followed by a 2 ms sleep, and then the target itself. |
| Mouth.MouthRamp | billy-controller/src/billy/mouth.rs:36-56 | At the target it does nothing. From above it lands on the target. From below it lands on the last step of 8 not above it. It never writes above the larger of the start and the target. |
| Mouth.MouthSet | billy-controller/src/billy/mouth.rs:33-57 | It ends remembering the requested direction and never reverses the bridge while energised. A change of direction drives the new one. The same direction leaves the pins as they were. The head is untouched, and no duty goes above the old duty or the speed. |
| Mouth.MouthSetLands | billy-controller/src/billy/mouth.rs:36-56 | The ramp starts from 0 after a reversal and from the old duty otherwise. Equal does nothing more, and from above it lands on the speed. From below it lands on speed − (speed − start) mod 8, which equals the speed if and only if the distance is a multiple of 8. |
| Mouth.MouthOpen | billy-controller/src/billy/mouth.rs:61-63 | `mouth_open` is `mouth_set` in the opening direction. |
| Mouth.MouthClose | billy-controller/src/billy/mouth.rs:65-67 | `mouth_close` is `mouth_set` in the closing direction. |
| Mouth.MouthStop | billy-controller/src/billy/mouth.rs:69-83 | From any state it ends neutral (duty 0, both pins low) and never writes a pin while energised. It ends with the zero write, a 5 ms settle and the two low pins, keeps the remembered direction, and never writes above the starting duty. |
| Mouth.MouthStopWrites | billy-controller/src/billy/mouth.rs:71-82 | `mouth_stop` writes current − 1 − 8·i down to at least 0 (none at duty 0), each followed by a 2 ms sleep, and then exactly the zero write, the 5 ms settle and the two low pins. |
| Mouth.SpeakSyllable | billy-controller/src/billy/mouth.rs:85-99 | A syllable ends neutral, remembering Closing, with the head untouched. It never reverses the bridge while energised and sleeps at least open time plus close time. |
| Mouth.UpRampFallsShort | billy-controller/src/billy/mouth.rs:41-44 | Opening at speed 180 from rest leaves the mouth at duty 176. |
| Mouth.FirstOpenUndriven | billy-controller/src/billy/mod.rs:62-72 | From start-up with duty 0 and both mouth pins low, the first `mouth_open` at speed ≥ 8 leaves a positive duty with both pins still low. |
| Mouth.StopThenSameDirection | billy-controller/src/billy/mouth.rs:69-83 | After `mouth_stop`, a `mouth_set` in the remembered direction at speed ≥ 8 leaves a positive duty with both pins low. |
| Movements.DirectionOf | shared-models/src/lib.rs:20-21 | `is_opening` true means Opening, and false means Closing. |
| Movements.RunAll | billy-controller/src/websocket_server.rs:96-117 | The `for` loop over the movements, each step run from the state the one before left. Its contract is carried by `Movements.RunAllSound`, `Movements.RunAllWithin`, `Movements.RunAllAppend` and `Movements.RunAllAt`. |
| Movements.RunAllSound | billy-controller/src/websocket_server.rs:96-117 | Given a sound step, an empty list does nothing. Otherwise the loop ends neutral in the last movement's direction, with the head untouched, the bridge never reversed while energised, and at least the sum of the hold durations slept. |
| Movements.RunAllWithin | billy-controller/src/websocket_server.rs:96-117 | Given a sound and bounded step, the loop writes no mouth duty above the starting duty and the largest speed. |
| Movements.RunAllAppend | billy-controller/src/websocket_server.rs:96-117 | The loop over a + b is the loop over a, followed by the loop over b from where a left off. |
| Movements.RunAllAt | billy-controller/src/websocket_server.rs:96-117 | The k-th movement runs from exactly the state the first k left. Its events lie between theirs and those of the rest, with no interleaving. |
| Movements.RunAllIgnoresStart | billy-controller/src/websocket_server.rs:97-107 | A loop whose step ignores start times runs lists that differ only in start times identically. |
| Sequencer.Actuate | billy-controller/src/websocket_server.rs:109-113 | An opening movement calls `mouth_open` and a closing one calls `mouth_close`. Both are `mouth_set` in the movement's direction. |
| Sequencer.RunMovement | billy-controller/src/websocket_server.rs:109-116 | One iteration of the loop: actuate, sleep the duration, `mouth_stop`. Its contract is carried by `Sequencer.RunMovementSound`, `Sequencer.RunMovementWithin` and `Sequencer.RunMovementTrace`. |
| Sequencer.RunMovementSound | billy-controller/src/websocket_server.rs:109-116 | One movement, from any state, ends neutral in its direction with the head untouched. It never reverses the bridge while energised and sleeps at least its duration. |
| Sequencer.RunMovementWithin | billy-controller/src/websocket_server.rs:109-116 | One movement writes no duty above the larger of its start duty and its speed. |
| Sequencer.RunMovementTrace | billy-controller/src/websocket_server.rs:109-116 | A movement's events are the actuation's, then one sleep of its duration, then `mouth_stop`'s. |
| Sequencer.RunMovementSteps | billy-controller/src/websocket_server.rs:96-117 | The movement step is sound, bounded and ignores the start time. |
| Sequencer.RunMovements | billy-controller/src/websocket_server.rs:96-117 | The movement loop of `process_command`, `Movements.RunAll` over `Sequencer.RunMovement`. Its contract is carried by `Sequencer.ProcessCommandSound`, `Sequencer.MovementInPlace` and `Movements.RunAllSound`. |
| Sequencer.ProcessCommand | billy-controller/src/websocket_server.rs:94-122 | `process_command`: the loop under the lock, nothing without it. Its contract is carried by `Sequencer.ProcessCommandSound`. |
| Sequencer.ProcessCommandSound | billy-controller/src/websocket_server.rs:87-123 | Without the lock, or with no movements, nothing happens. Otherwise the command ends neutral in the last movement's direction, with the head untouched, the bridge never reversed while energised, at least the sum of the durations slept, and no duty above the start duty and the largest speed. |
| Sequencer.CommandDutyBounded | billy-controller/src/websocket_server.rs:96-117 | Each mouth duty write of a command, taken one at a time, is at most the larger of the starting duty and the largest speed. |
| Sequencer.MovementInPlace | billy-controller/src/websocket_server.rs:96-117 | Movement k runs from the state movements 0..k left, and its events sit between theirs and the rest's. |
| Sequencer.StartTimeOnlyLogged | billy-controller/src/websocket_server.rs:97-107 | Commands that differ only in start times, audio or audio format produce identical runs. |
| Sequencer.RepeatedDirectionUndriven | billy-controller/src/websocket_server.rs:109-116 | A movement in the same direction as the one before it (speed ≥ 8) ramps to a positive duty with both mouth pins low. |
| Corrected.SetMouthDirection | billy-controller/src/billy/mouth.rs:8-31 | A direction request always ends with the pins driving that direction. It skips writes only when they already do, and writes pins only at duty 0. |
| Corrected.RampUp | billy-controller/src/billy/mouth.rs:40-45 | The rising ramp plus a final write of the target ends exactly at the target, within [current, target]. |
| Corrected.MouthRamp | billy-controller/src/billy/mouth.rs:36-56 | The ramp lands on the target from either side, without changing the pins. |
| Corrected.MouthSet | billy-controller/src/billy/mouth.rs:33-57 | From any state, it ends driving the requested direction at exactly the speed. It never reverses while energised and never writes above the old duty or the speed. |
| Corrected.RunMovement | billy-controller/src/websocket_server.rs:109-116 | One iteration with the corrected `mouth_set`. Its contract is carried by `Corrected.RunMovementSteps`. |
| Corrected.RunMovementSteps | billy-controller/src/websocket_server.rs:96-117 | The corrected movement step is sound, bounded and ignores the start time. |
| Corrected.ProcessCommand | billy-controller/src/websocket_server.rs:94-122 | `process_command` over the corrected movement. Its contract is carried by `Corrected.ProcessCommandSound` and `Corrected.EveryMovementDriven`. |
| Corrected.ProcessCommandSound | billy-controller/src/websocket_server.rs:87-123 | The corrected command keeps every guarantee of `Sequencer.ProcessCommandSound`. |
| Corrected.EveryMovementDriven | billy-controller/src/websocket_server.rs:109-116 | In the corrected command, every movement, whatever precedes it, is held for its duration driven in its direction at exactly its speed, between the events of the earlier and later movements. |

## Left out

- Peripheral set-up in `new` (timers, LEDC channels, GPIO drivers; billy-controller/src/billy/mod.rs:36-63) is hardware configuration. The register levels it leaves are a parameter of `Billy.New`.
- The HTTP server, request routing and JSON decoding (billy-controller/src/websocket_server.rs:1-85) are I/O. Commands are modelled after decoding.
- The mutex is a boolean `lockAcquired`. The model does not cover blocking or concurrency. `Mutex::lock` waits for the lock and fails only when the mutex is poisoned, which is when the `else` branch runs.
- Every `unwrap()` on a pin or PWM write is taken to succeed. Panics, and the error ignored by `let _ =` in `head_slowed_stop`, are not modelled.
- Delays are `Delay` events with a length. No clock is modelled.
- Log messages are not modelled. The start time, the audio and its format are only logged or carried, and `Sequencer.StartTimeOnlyLogged` states that.
- Billy.HeadSlowedStop: the `f32` multiply by 0.95 and the truncating cast (billy-controller/src/billy/mod.rs:96) are replaced by an integer decay parameter. `Billy.Decay95` is its floored integer stand-in, and floating-point rounding is not modelled.
- The LEDC duty register is a `u32` in the driver. The model keeps it in 0..255, the 8-bit resolution the timers are configured with. Every value the core writes is a `u8` speed, a level up to 240, or a decay of one of them.
- The code has no abort path on a failed write, no Busy rejection of a concurrent command and no command validation, so none is modelled.
- Movements.RunAllSound, Sequencer.ProcessCommandSound and Corrected.ProcessCommandSound bound the time slept from below by the sum of the hold durations. They do not give the exact total, which also includes the ramp and settle delays.
- `billy_bass.rs`, `billy_bass_tests.rs`, `main.rs` and `build.rs` are not part of this model.

## Findings

| source | as written | input that shows it | evidently intended | confidence | as-written member | corrected member |
|---|---|---|---|---|---|---|
| billy-controller/src/billy/mouth.rs:40-45 | The rising ramp writes current, current + 8, … up to the last step not above the target, with no final write of the target. | `mouth_open(180)` from duty 0 while the direction is Opening ends at duty 176. | End at the target, as the falling branch does with its final write (line 51). | medium (the code certainly does this, and the falling branch's comment suggests it is unintended); not executed | Mouth.UpRampFallsShort | Corrected.MouthSet |
| billy-controller/src/billy/mouth.rs:69-83 | `mouth_stop` sets In1 and In2 low but keeps `current_mouth_direction`. The next `mouth_set` in that direction skips the pin writes (line 10) and ramps the duty with the bridge undriven. The first opening after start-up is the same case: `new` remembers Opening (billy-controller/src/billy/mod.rs:72) but only makes In1 and In2 outputs (lines 62-63), so from low pins the first `mouth_open` ramps undriven too (`Mouth.FirstOpenUndriven`). | A command with two closing movements at speed 200: during the second, the duty reaches 200 with In1 = In2 = Low, so the motor does not move. | Every movement drives its direction. | medium; not executed | Sequencer.RepeatedDirectionUndriven | Corrected.EveryMovementDriven |
