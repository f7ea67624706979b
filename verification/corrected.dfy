/** The mouth logic as its comments and its falling branch say it was meant
    to behave: a direction request always leaves the bridge driven that
    way, and a rising ramp ends with a write of the exact target, as the
    falling one already does. The movement loop run with this `mouth_set`
    holds every movement at its speed, in its direction. */
module Corrected {
  import opened Hardware
  import opened Billy
  import opened SharedModels
  import opened Movements
  import Mouth

  /** `set_mouth_direction`, skipping the pin writes only when the pins
      already drive the requested direction, not merely when it is the
      remembered one. */
  function SetMouthDirection(f: Fish, d: MouthDirection): (r: Run)
    ensures Faithful(f.hw, r) && MouthPinSafe(f.hw, r.trace)
    ensures r.fish.dir == d && HeadUnchanged(f.hw, r.fish.hw)
    ensures Mouth.Drives(r.fish.hw, d)
    ensures d == f.dir && Mouth.Drives(f.hw, d) ==> r == Run(f, [])
    ensures !(d == f.dir && Mouth.Drives(f.hw, d)) ==> r.fish.hw.mouthDuty == 0
    ensures MouthWritesWithin(r.trace, 0, 0)
  {
    if d == f.dir && Mouth.Drives(f.hw, d) then Run(f, []) else Mouth.Reverse(f, d)
  }

  /** The rising ramp followed by a write of the target itself. */
  function RampUp(f: Fish, target: Duty): (r: Run)
    requires f.hw.mouthDuty < target
    ensures Faithful(f.hw, r) && MouthPinSafe(f.hw, r.trace)
    ensures r.fish.dir == f.dir && HeadUnchanged(f.hw, r.fish.hw)
    ensures r.fish.hw.in1 == f.hw.in1 && r.fish.hw.in2 == f.hw.in2
    ensures MouthWritesWithin(r.trace, f.hw.mouthDuty, target)
    ensures r.fish.hw.mouthDuty == target
  {
    var up := Mouth.RampUp(f, target);
    var last := [SetDuty(MouthPwm, target)];
    ReplayAppend(f.hw, up.trace, last);
    SafeAppend(f.hw, up.trace, last);
    WithinAppend(up.trace, last, f.hw.mouthDuty, target);
    Run(f.(hw := f.hw.(mouthDuty := target)), up.trace + last)
  }

  /** The duty loop, landing on the target from either side. */
  function MouthRamp(f: Fish, target: Duty): (r: Run)
    ensures Faithful(f.hw, r) && MouthPinSafe(f.hw, r.trace)
    ensures r.fish.dir == f.dir && HeadUnchanged(f.hw, r.fish.hw)
    ensures r.fish.hw.in1 == f.hw.in1 && r.fish.hw.in2 == f.hw.in2
    ensures r.fish.hw.mouthDuty == target
    ensures f.hw.mouthDuty == target ==> r == Run(f, [])
    ensures MouthWritesWithin(r.trace, 0, Max(f.hw.mouthDuty, target))
  {
    var cur := f.hw.mouthDuty;
    if cur < target then
      var r := RampUp(f, target);
      WithinWeaken(r.trace, cur, target, 0, target);
      r
    else if cur > target then
      var r := Mouth.RampDown(f, target);
      WithinWeaken(r.trace, target, cur - 1, 0, cur);
      r
    else
      Run(f, [])
  }

  /** `mouth_set` as intended: whatever the state before, the mouth ends
      driven in direction `d` at exactly `speed`, and the bridge is never
      reversed while energised. */
  function MouthSet(f: Fish, d: MouthDirection, speed: Duty): (r: Run)
    ensures Faithful(f.hw, r) && MouthPinSafe(f.hw, r.trace)
    ensures r.fish.dir == d && HeadUnchanged(f.hw, r.fish.hw)
    ensures Mouth.Drives(r.fish.hw, d) && r.fish.hw.mouthDuty == speed
    ensures MouthWritesWithin(r.trace, 0, Max(f.hw.mouthDuty, speed))
  {
    var s := SetMouthDirection(f, d);
    var m := MouthRamp(s.fish, speed);
    var bound := Max(f.hw.mouthDuty, speed);
    ThenSound(f.hw, s, m);
    WithinWeaken(s.trace, 0, 0, 0, bound);
    WithinWeaken(m.trace, 0, Max(s.fish.hw.mouthDuty, speed), 0, bound);
    WithinAppend(s.trace, m.trace, 0, bound);
    Then(s, m)
  }

  /** A movement with the corrected `mouth_set`: actuate, hold, stop. */
  function RunMovement(f: Fish, m: MouthMovement): Run
  {
    var a := MouthSet(f, DirectionOf(m), m.speed);
    Then(Then(a, Sleep(a.fish, m.durationMs)), Mouth.MouthStop(a.fish))
  }

  /** The corrected movement keeps every guarantee of the original one. */
  lemma RunMovementSteps()
    ensures SoundStep(RunMovement) && BoundedStep(RunMovement) && IgnoresStart(RunMovement)
  {
    forall f: Fish, m: MouthMovement
      ensures MovementOk(f, m, RunMovement(f, m))
      ensures MouthWritesWithin(RunMovement(f, m).trace, 0, Max(f.hw.mouthDuty, m.speed))
      ensures RunMovement(f, m) == RunMovement(f, m.(startTimeMs := 0))
    {
      var a := MouthSet(f, DirectionOf(m), m.speed);
      var hold := Sleep(a.fish, m.durationMs);
      var s := Mouth.MouthStop(a.fish);
      var bound := Max(f.hw.mouthDuty, m.speed);
      ThenSound(f.hw, a, hold);
      ThenSound(f.hw, Then(a, hold), s);
      WithinWeaken(hold.trace, 0, 0, 0, bound);
      WithinAppend(a.trace, hold.trace, 0, bound);
      WithinWeaken(s.trace, 0, a.fish.hw.mouthDuty, 0, bound);
      WithinAppend(a.trace + hold.trace, s.trace, 0, bound);
    }
  }

  /** `process_command` over the corrected movement. */
  function ProcessCommand(f: Fish, cmd: BillyBassCommand, lockAcquired: bool): Run
  {
    if lockAcquired then RunAll(RunMovement, f, cmd.mouthMovements) else Run(f, [])
  }

  /** The corrected command keeps the guarantees of the original one: the
      same final state, safety, sleeping and duty bounds. */
  lemma ProcessCommandSound(f: Fish, cmd: BillyBassCommand, lockAcquired: bool)
    ensures var r := ProcessCommand(f, cmd, lockAcquired);
      var ms := cmd.mouthMovements;
      && Faithful(f.hw, r) && MouthPinSafe(f.hw, r.trace)
      && HeadUnchanged(f.hw, r.fish.hw)
      && (!lockAcquired || ms == [] ==> r == Run(f, []))
      && (lockAcquired && ms != [] ==> MouthNeutral(r.fish.hw) && r.fish.dir == DirectionOf(ms[|ms| - 1]))
      && (lockAcquired ==> TotalDelay(r.trace) >= SumDurations(ms))
      && MouthWritesWithin(r.trace, 0, Max(f.hw.mouthDuty, MaxSpeed(ms)))
  {
    RunMovementSteps();
    RunAllSound(RunMovement, f, cmd.mouthMovements);
    RunAllWithin(RunMovement, f, cmd.mouthMovements);
  }

  /** Every movement of a command, whatever came before it, runs from the
      state the earlier ones left, opens with writes that leave the mouth
      driven in its direction at exactly its speed, and holds there for
      its duration. */
  lemma EveryMovementDriven(f: Fish, ms: seq<MouthMovement>, k: nat)
    requires k < |ms|
    ensures var before := RunAll(RunMovement, f, ms[..k]);
      var a := MouthSet(before.fish, DirectionOf(ms[k]), ms[k].speed);
      var rest := RunAll(RunMovement, RunMovement(before.fish, ms[k]).fish, ms[k + 1..]);
      && RunAll(RunMovement, f, ms).trace
           == before.trace + a.trace + [Delay(ms[k].durationMs)] + Mouth.MouthStop(a.fish).trace + rest.trace
      && Mouth.Drives(a.fish.hw, DirectionOf(ms[k])) && a.fish.hw.mouthDuty == ms[k].speed
  {
    var before := RunAll(RunMovement, f, ms[..k]);
    var a := MouthSet(before.fish, DirectionOf(ms[k]), ms[k].speed);
    var here := RunMovement(before.fish, ms[k]);
    RunAllAt(RunMovement, f, ms, k);
    assert here.trace == a.trace + [Delay(ms[k].durationMs)] + Mouth.MouthStop(a.fish).trace;
    Regroup(before.trace, a.trace, Delay(ms[k].durationMs), Mouth.MouthStop(a.fish).trace,
            RunAll(RunMovement, here.fish, ms[k + 1..]).trace);
  }

  lemma Regroup(w: seq<Event>, x: seq<Event>, e: Event, y: seq<Event>, z: seq<Event>)
    ensures w + (x + [e] + y) + z == w + x + [e] + y + z
  {
  }
}
