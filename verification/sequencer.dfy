/** The command sequencer behind the `/command` endpoint: under the fish's
    lock, each movement of a command runs to completion, in array order,
    before the next one starts. */
module Sequencer {
  import opened Hardware
  import opened Billy
  import opened Mouth
  import opened SharedModels
  import opened Movements

  /** The actuation half of a movement: `mouth_open(speed)` when it opens,
      `mouth_close(speed)` when it closes. */
  function Actuate(f: Fish, m: MouthMovement): (r: Run)
    ensures m.isOpening ==> r == MouthOpen(f, m.speed)
    ensures !m.isOpening ==> r == MouthClose(f, m.speed)
    ensures r == MouthSet(f, DirectionOf(m), m.speed)
  {
    if m.isOpening then MouthOpen(f, m.speed) else MouthClose(f, m.speed)
  }

  /** One iteration of the movement loop: actuate, hold for `durationMs`,
      stop. The start time is only logged. */
  function RunMovement(f: Fish, m: MouthMovement): Run
  {
    var a := Actuate(f, m);
    Then(Then(a, Sleep(a.fish, m.durationMs)), MouthStop(a.fish))
  }

  /** Whatever the state before, a movement leaves the mouth neutral,
      remembering the movement's direction, the head untouched, and the
      bridge never reversed while energised; it sleeps at least its hold
      time. */
  lemma RunMovementSound(f: Fish, m: MouthMovement)
    ensures MovementOk(f, m, RunMovement(f, m))
  {
    var a := Actuate(f, m);
    var hold := Sleep(a.fish, m.durationMs);
    ThenSound(f.hw, a, hold);
    ThenSound(f.hw, Then(a, hold), MouthStop(a.fish));
  }

  /** A movement writes no mouth duty above the larger of the duty it
      started from and its speed. */
  lemma RunMovementWithin(f: Fish, m: MouthMovement)
    ensures MouthWritesWithin(RunMovement(f, m).trace, 0, Max(f.hw.mouthDuty, m.speed))
  {
    var a := Actuate(f, m);
    var hold := Sleep(a.fish, m.durationMs);
    var s := MouthStop(a.fish);
    var bound := Max(f.hw.mouthDuty, m.speed);
    WithinWeaken(hold.trace, 0, 0, 0, bound);
    WithinAppend(a.trace, hold.trace, 0, bound);
    WithinWeaken(s.trace, 0, a.fish.hw.mouthDuty, 0, bound);
    WithinAppend(a.trace + hold.trace, s.trace, 0, bound);
  }

  /** The writes of a movement are those of its actuation, one sleep of
      `durationMs`, and those of `mouth_stop`, in that order. */
  lemma RunMovementTrace(f: Fish, m: MouthMovement)
    ensures var a := Actuate(f, m);
      var t := RunMovement(f, m).trace;
      && |t| > |a.trace|
      && t[..|a.trace|] == a.trace
      && t[|a.trace|] == Delay(m.durationMs)
      && t[|a.trace| + 1..] == MouthStop(a.fish).trace
  {
    var a := Actuate(f, m);
    SplitAround(a.trace, Delay(m.durationMs), MouthStop(a.fish).trace);
  }

  /** Locating the middle event of a three-part trace. */
  lemma SplitAround(x: seq<Event>, e: Event, y: seq<Event>)
    ensures var t := x + [e] + y;
      |t| > |x| && t[..|x|] == x && t[|x|] == e && t[|x| + 1..] == y
  {
    var t := x + [e] + y;
    assert t[|x| + 1..] == y;
  }

  /** The movement step meets what the loop needs of it. */
  lemma RunMovementSteps()
    ensures SoundStep(RunMovement) && BoundedStep(RunMovement) && IgnoresStart(RunMovement)
  {
    forall f: Fish, m: MouthMovement
      ensures MovementOk(f, m, RunMovement(f, m))
      ensures MouthWritesWithin(RunMovement(f, m).trace, 0, Max(f.hw.mouthDuty, m.speed))
      ensures RunMovement(f, m) == RunMovement(f, m.(startTimeMs := 0))
    {
      RunMovementSound(f, m);
      RunMovementWithin(f, m);
    }
  }

  /** The movement loop of `process_command`. */
  function RunMovements(f: Fish, ms: seq<MouthMovement>): Run
  {
    RunAll(RunMovement, f, ms)
  }

  /** `process_command`. The mutex is a flag: when `lock()` fails nothing
      runs and nothing changes. */
  function ProcessCommand(f: Fish, cmd: BillyBassCommand, lockAcquired: bool): Run
  {
    if lockAcquired then RunMovements(f, cmd.mouthMovements) else Run(f, [])
  }

  /** What a command does to the fish: nothing without the lock or without
      movements; otherwise every movement in order, ending neutral in the
      last movement's direction with the head untouched, never reversing
      the bridge while energised, sleeping at least the sum of the hold
      times, and never writing a duty above the starting duty and the
      largest speed. */
  lemma ProcessCommandSound(f: Fish, cmd: BillyBassCommand, lockAcquired: bool)
    ensures var r := ProcessCommand(f, cmd, lockAcquired);
      var ms := cmd.mouthMovements;
      && Faithful(f.hw, r) && MouthPinSafe(f.hw, r.trace)
      && HeadUnchanged(f.hw, r.fish.hw)
      && (!lockAcquired || ms == [] ==> r == Run(f, []))
      && (lockAcquired && ms != [] ==> MouthNeutral(r.fish.hw) && r.fish.dir == DirectionOf(ms[|ms| - 1]))
      && (lockAcquired ==> TotalDelay(r.trace) >= SumDurations(ms))
      && MouthWritesWithin(r.trace, 0, Max(f.hw.mouthDuty, MaxSpeed(ms)))
  {
    RunMovementSteps();
    RunAllSound(RunMovement, f, cmd.mouthMovements);
    RunAllWithin(RunMovement, f, cmd.mouthMovements);
  }

  /** Write by write: every mouth duty a command writes is at most the
      larger of the duty it started from and the largest speed it asks
      for. */
  lemma CommandDutyBounded(f: Fish, cmd: BillyBassCommand, lockAcquired: bool, i: nat)
    requires i < |ProcessCommand(f, cmd, lockAcquired).trace|
    requires IsMouthDutyWrite(ProcessCommand(f, cmd, lockAcquired).trace[i])
    ensures ProcessCommand(f, cmd, lockAcquired).trace[i].duty <= Max(f.hw.mouthDuty, MaxSpeed(cmd.mouthMovements))
  {
    ProcessCommandSound(f, cmd, lockAcquired);
    WithinAt(ProcessCommand(f, cmd, lockAcquired).trace, 0, Max(f.hw.mouthDuty, MaxSpeed(cmd.mouthMovements)), i);
  }

  /** The k-th movement of a command runs from exactly the state the
      first k left, and its writes sit between theirs and those of the
      rest. */
  lemma MovementInPlace(f: Fish, ms: seq<MouthMovement>, k: nat)
    requires k < |ms|
    ensures var before := RunMovements(f, ms[..k]);
      var here := RunMovement(before.fish, ms[k]);
      RunMovements(f, ms).trace
        == before.trace + here.trace + RunMovements(here.fish, ms[k + 1..]).trace
  {
    RunAllAt(RunMovement, f, ms, k);
  }

  /** The start times, the audio and its format are only logged: two
      commands whose movements agree on everything else drive the motor
      identically. */
  lemma StartTimeOnlyLogged(f: Fish, c: BillyBassCommand, c': BillyBassCommand, lockAcquired: bool)
    requires |c.mouthMovements| == |c'.mouthMovements|
    requires forall i :: 0 <= i < |c.mouthMovements| ==> SameButStart(c.mouthMovements[i], c'.mouthMovements[i])
    ensures ProcessCommand(f, c, lockAcquired) == ProcessCommand(f, c', lockAcquired)
  {
    RunMovementSteps();
    RunAllIgnoresStart(RunMovement, f, c.mouthMovements, c'.mouthMovements);
  }

  /** As written, a movement in the same direction as the one before it
      ramps the duty up with both mouth pins low: the stop that ended the
      earlier movement released the bridge, and the direction check sees
      no change. */
  lemma RepeatedDirectionUndriven(f: Fish, ms: seq<MouthMovement>, k: nat)
    requires 0 < k < |ms|
    requires ms[k - 1].isOpening == ms[k].isOpening && ms[k].speed >= RampStep
    ensures var before := RunMovements(f, ms[..k]);
      var a := Actuate(before.fish, ms[k]);
      a.fish.hw.mouthDuty > 0 && a.fish.hw.in1 == Low && a.fish.hw.in2 == Low
  {
    var before := RunMovements(f, ms[..k]);
    RunMovementSteps();
    RunAllSound(RunMovement, f, ms[..k]);
    assert ms[..k][k - 1] == ms[k - 1];
    var b := before.fish;
    assert MouthNeutral(b.hw) && b.dir == DirectionOf(ms[k]);
    MouthSetLands(b, DirectionOf(ms[k]), ms[k].speed);
    assert ms[k].speed % RampStep < RampStep;
  }
}
