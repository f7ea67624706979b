/** The mouth motor: the direction state machine that guards the H-bridge,
    the stepped duty ramp, and the open, close, stop and syllable
    movements built from them. */
module Mouth {
  import opened Hardware
  import opened Ramp
  import opened Billy

  const SettleMs := 20
  const RampStep := 8
  const UpDelayMs := 3
  const DownDelayMs := 2
  const StopDelayMs := 5

  /** The (In1, In2) levels that drive the mouth in direction `d`. */
  function DirectionLevels(d: MouthDirection): (Level, Level)
  {
    match d
    case Opening => (Low, High)
    case Closing => (High, Low)
  }

  /** Each direction energises exactly one side of the bridge, and the two
      directions use opposite polarities. */
  lemma DirectionsOpposite(d: MouthDirection, e: MouthDirection)
    ensures DirectionLevels(d).0 != DirectionLevels(d).1
    ensures d != e ==> DirectionLevels(d).0 == DirectionLevels(e).1 && DirectionLevels(d).1 == DirectionLevels(e).0
  {
  }

  /** The mouth pins are set for direction `d`. */
  predicate Drives(h: Hw, d: MouthDirection)
  {
    (h.in1, h.in2) == DirectionLevels(d)
  }

  /** The pins' part of a direction change. */
  function DirectionPins(d: MouthDirection): seq<Event>
  {
    [SetPin(In1, DirectionLevels(d).0), SetPin(In2, DirectionLevels(d).1)]
  }

  /** Zero the duty, settle, then write the pins for `d`. Only the duty
      write and the settle are skipped when the duty is already 0. */
  function Reverse(f: Fish, d: MouthDirection): (r: Run)
    ensures Faithful(f.hw, r) && MouthPinSafe(f.hw, r.trace)
    ensures r.fish.dir == d && HeadUnchanged(f.hw, r.fish.hw)
    ensures r.fish.hw.mouthDuty == 0 && Drives(r.fish.hw, d)
    ensures f.hw.mouthDuty > 0 ==> r.trace == [SetDuty(MouthPwm, 0), Delay(SettleMs)] + DirectionPins(d)
    ensures f.hw.mouthDuty == 0 ==> r.trace == DirectionPins(d)
    ensures MouthWritesWithin(r.trace, 0, 0)
  {
    var stop := if f.hw.mouthDuty > 0 then [SetDuty(MouthPwm, 0), Delay(SettleMs)] else [];
    var pins := DirectionPins(d);
    var h0 := if f.hw.mouthDuty > 0 then f.hw.(mouthDuty := 0) else f.hw;
    var h1 := h0.(in1 := DirectionLevels(d).0, in2 := DirectionLevels(d).1);
    assert Replay(f.hw, stop) == h0 && MouthPinSafe(f.hw, stop) by {
      if f.hw.mouthDuty > 0 {
        assert stop[1..] == [Delay(SettleMs)];
        assert [Delay(SettleMs)][1..] == [];
        assert Replay(f.hw, stop) == Replay(f.hw.(mouthDuty := 0), [Delay(SettleMs)]);
        assert Replay(f.hw.(mouthDuty := 0), [Delay(SettleMs)]) == f.hw.(mouthDuty := 0);
      } else {
        assert Replay(f.hw, stop) == f.hw;
      }
    }
    assert Replay(h0, pins) == h1;
    assert MouthPinSafe(h0, pins);
    ReplayAppend(f.hw, stop, pins);
    SafeAppend(f.hw, stop, pins);
    assert MouthWritesWithin(stop + pins, 0, 0) by {
      WithinAppend(stop, pins, 0, 0);
    }
    Run(Fish(h1, d), stop + pins)
  }

  /** `set_mouth_direction`: a request for the remembered direction changes
      nothing at all; any other request zeroes the duty (with a settle
      delay) before the pins are rewritten, so the bridge is never
      reversed while energised. */
  function SetMouthDirection(f: Fish, d: MouthDirection): (r: Run)
    ensures Faithful(f.hw, r) && MouthPinSafe(f.hw, r.trace)
    ensures r.fish.dir == d && HeadUnchanged(f.hw, r.fish.hw)
    ensures d == f.dir ==> r == Run(f, [])
    ensures d != f.dir ==> r.fish.hw.mouthDuty == 0 && Drives(r.fish.hw, d)
    ensures d != f.dir && f.hw.mouthDuty > 0 ==>
              |r.trace| == 4 && r.trace[..2] == [SetDuty(MouthPwm, 0), Delay(SettleMs)]
    ensures forall i :: 0 <= i < |r.trace| && IsMouthPinWrite(r.trace[i]) ==> d != f.dir
    ensures MouthWritesWithin(r.trace, 0, 0)
  {
    if d == f.dir then Run(f, []) else Reverse(f, d)
  }

  /** The rising half of the duty loop of `mouth_set`: from the current
      duty `cur` up to `target` in steps of 8, 3 ms apart. It stops at the
      last step not above the target. */
  function RampUp(f: Fish, target: Duty): (r: Run)
    requires f.hw.mouthDuty < target
    ensures Faithful(f.hw, r) && MouthPinSafe(f.hw, r.trace)
    ensures r.fish.dir == f.dir && HeadUnchanged(f.hw, r.fish.hw)
    ensures r.fish.hw.in1 == f.hw.in1 && r.fish.hw.in2 == f.hw.in2
    ensures forall i :: 0 <= i < |r.trace| ==> !r.trace[i].SetPin?
    ensures MouthWritesWithin(r.trace, f.hw.mouthDuty, target)
    ensures r.fish.hw.mouthDuty == target - (target - f.hw.mouthDuty) % RampStep
  {
    var cur := f.hw.mouthDuty;
    var ws := StepUp(cur, target, RampStep);
    var t := DutyWrites(MouthPwm, ws, UpDelayMs);
    var h := f.hw.(mouthDuty := Last(ws));
    assert Last(ws) == target - (target - cur) % RampStep by {
      StepUpLast(cur, target, RampStep);
    }
    assert Replay(f.hw, t) == h by {
      DutyWritesReplay(f.hw, MouthPwm, ws, UpDelayMs);
    }
    assert MouthWritesWithin(t, cur, target) by {
      DutyWritesWithin(MouthPwm, ws, UpDelayMs, cur, target);
    }
    assert MouthPinSafe(f.hw, t) by {
      NoPinWriteSafe(f.hw, t);
    }
    Run(f.(hw := h), t)
  }

  /** The falling half of the duty loop of `mouth_set`: from just below the
      current duty down towards `target` in steps of 8, 2 ms apart, then a
      last write of the target itself. */
  function RampDown(f: Fish, target: Duty): (r: Run)
    requires f.hw.mouthDuty > target
    ensures Faithful(f.hw, r) && MouthPinSafe(f.hw, r.trace)
    ensures r.fish.dir == f.dir && HeadUnchanged(f.hw, r.fish.hw)
    ensures r.fish.hw.in1 == f.hw.in1 && r.fish.hw.in2 == f.hw.in2
    ensures forall i :: 0 <= i < |r.trace| ==> !r.trace[i].SetPin?
    ensures MouthWritesWithin(r.trace, target, f.hw.mouthDuty - 1)
    ensures r.fish.hw.mouthDuty == target
  {
    var cur := f.hw.mouthDuty;
    var ws := StepDown(target, cur, RampStep);
    var ramp := DutyWrites(MouthPwm, ws, DownDelayMs);
    var last := [SetDuty(MouthPwm, target)];
    var t := ramp + last;
    assert Replay(f.hw, t) == f.hw.(mouthDuty := target) by {
      DutyWritesReplay(f.hw, MouthPwm, ws, DownDelayMs);
      ReplayAppend(f.hw, ramp, last);
    }
    assert MouthWritesWithin(t, target, cur - 1) by {
      forall i | 0 <= i < |ws|
        ensures target <= ws[i] <= cur - 1
      {
        assert RampStep * i >= 0;
      }
      DutyWritesWithin(MouthPwm, ws, DownDelayMs, target, cur - 1);
      WithinAppend(ramp, last, target, cur - 1);
    }
    assert MouthPinSafe(f.hw, t) by {
      NoPinWriteSafe(f.hw, t);
    }
    Run(f.(hw := f.hw.(mouthDuty := target)), t)
  }

  /** The duty loop of `mouth_set` from the current duty to `target`:
      rising, falling, or nothing when already there. No write leaves the
      range between the current duty and the target. */
  function MouthRamp(f: Fish, target: Duty): (r: Run)
    ensures Faithful(f.hw, r) && MouthPinSafe(f.hw, r.trace)
    ensures r.fish.dir == f.dir && HeadUnchanged(f.hw, r.fish.hw)
    ensures r.fish.hw.in1 == f.hw.in1 && r.fish.hw.in2 == f.hw.in2
    ensures f.hw.mouthDuty == target ==> r == Run(f, [])
    ensures f.hw.mouthDuty > target ==> r.fish.hw.mouthDuty == target
    ensures f.hw.mouthDuty < target ==>
              r.fish.hw.mouthDuty == target - (target - f.hw.mouthDuty) % RampStep
    ensures MouthWritesWithin(r.trace, 0, Max(f.hw.mouthDuty, target))
  {
    var cur := f.hw.mouthDuty;
    if cur < target then
      var r := RampUp(f, target);
      WithinWeaken(r.trace, cur, target, 0, target);
      r
    else if cur > target then
      var r := RampDown(f, target);
      WithinWeaken(r.trace, target, cur - 1, 0, cur);
      r
    else
      Run(f, [])
  }

  /** `mouth_set`: set the direction, then ramp the duty towards `speed`.
      The direction ends as requested and the bridge is never reversed
      while energised; the pins are rewritten only on a change of the
      remembered direction. */
  function MouthSet(f: Fish, d: MouthDirection, speed: Duty): (r: Run)
    ensures Faithful(f.hw, r) && MouthPinSafe(f.hw, r.trace)
    ensures r.fish.dir == d && HeadUnchanged(f.hw, r.fish.hw)
    ensures d != f.dir ==> Drives(r.fish.hw, d)
    ensures d == f.dir ==> r.fish.hw.in1 == f.hw.in1 && r.fish.hw.in2 == f.hw.in2
    ensures MouthWritesWithin(r.trace, 0, Max(f.hw.mouthDuty, speed))
  {
    var s := SetMouthDirection(f, d);
    var m := MouthRamp(s.fish, speed);
    var bound := Max(f.hw.mouthDuty, speed);
    ThenSound(f.hw, s, m);
    WithinWeaken(s.trace, 0, 0, 0, bound);
    WithinWeaken(m.trace, 0, Max(s.fish.hw.mouthDuty, speed), 0, bound);
    WithinAppend(s.trace, m.trace, 0, bound);
    Then(s, m)
  }

  /** Where `mouth_set` leaves the duty. The ramp starts from the duty the
      direction change left: 0 after a reversal, the old duty otherwise.
      From there nothing is written when already at `speed`, a falling ramp
      lands on `speed` exactly, and a rising one stops at the last step of
      8 not above it, which is `speed` only when the distance is a multiple
      of 8. */
  lemma MouthSetLands(f: Fish, d: MouthDirection, speed: Duty)
    ensures RampStart(f, d) == speed ==> MouthSet(f, d, speed) == SetMouthDirection(f, d)
    ensures RampStart(f, d) > speed ==> MouthSet(f, d, speed).fish.hw.mouthDuty == speed
    ensures RampStart(f, d) < speed ==>
              MouthSet(f, d, speed).fish.hw.mouthDuty == speed - (speed - RampStart(f, d)) % RampStep
    ensures RampStart(f, d) < speed ==>
              (MouthSet(f, d, speed).fish.hw.mouthDuty == speed <==> (speed - RampStart(f, d)) % RampStep == 0)
  {
    var s := SetMouthDirection(f, d);
    var m := MouthRamp(s.fish, speed);
    assert MouthSet(f, d, speed) == Then(s, m);
    assert s.fish.hw.mouthDuty == RampStart(f, d);
    if RampStart(f, d) == speed {
      assert m == Run(s.fish, []);
      assert s.trace + [] == s.trace;
    }
  }

  /** The duty the ramp of `mouth_set` starts from: 0 after a reversal,
      the old duty otherwise. */
  function RampStart(f: Fish, d: MouthDirection): Duty
  {
    if d == f.dir then f.hw.mouthDuty else 0
  }

  /** `mouth_open`. */
  function MouthOpen(f: Fish, speed: Duty): (r: Run)
    ensures r == MouthSet(f, Opening, speed)
    ensures r.fish.dir == Opening
    ensures Faithful(f.hw, r) && MouthPinSafe(f.hw, r.trace)
  {
    MouthSet(f, Opening, speed)
  }

  /** `mouth_close`. */
  function MouthClose(f: Fish, speed: Duty): (r: Run)
    ensures r == MouthSet(f, Closing, speed)
    ensures r.fish.dir == Closing
    ensures Faithful(f.hw, r) && MouthPinSafe(f.hw, r.trace)
  {
    MouthSet(f, Closing, speed)
  }

  /** The tail of `mouth_stop`: a final zero write, a 5 ms settle, both
      pins low. */
  function StopTail(): seq<Event>
  {
    [SetDuty(MouthPwm, 0), Delay(StopDelayMs), SetPin(In1, Low), SetPin(In2, Low)]
  }

  /** `mouth_stop`: ramp the duty down from wherever it is, in steps of 8
      from just below it, then zero it and set both pins low. From any
      duty and direction this leaves the mouth neutral; the remembered
      direction is kept. */
  function MouthStop(f: Fish): (r: Run)
    ensures Faithful(f.hw, r) && MouthPinSafe(f.hw, r.trace)
    ensures MouthNeutral(r.fish.hw)
    ensures r.fish.dir == f.dir && HeadUnchanged(f.hw, r.fish.hw)
    ensures |r.trace| >= 4 && r.trace[|r.trace| - 4..] == StopTail()
    ensures f.hw.mouthDuty == 0 ==> r.trace == StopTail()
    ensures MouthWritesWithin(r.trace, 0, f.hw.mouthDuty)
    ensures TotalDelay(r.trace) >= StopDelayMs
  {
    var ws := StepDown(0, f.hw.mouthDuty, RampStep);
    var ramp := DutyWrites(MouthPwm, ws, DownDelayMs);
    var h0 := Replay(f.hw, ramp);
    var hw := f.hw.(mouthDuty := 0, in1 := Low, in2 := Low);
    DutyWritesReplay(f.hw, MouthPwm, ws, DownDelayMs);
    NoPinWriteSafe(f.hw, ramp);
    assert Replay(h0, StopTail()) == hw;
    assert MouthPinSafe(h0, StopTail());
    ReplayAppend(f.hw, ramp, StopTail());
    SafeAppend(f.hw, ramp, StopTail());
    TotalDelayAppend(ramp, StopTail());
    DutyWritesWithin(MouthPwm, ws, DownDelayMs, 0, f.hw.mouthDuty);
    assert MouthWritesWithin(StopTail(), 0, f.hw.mouthDuty);
    WithinAppend(ramp, StopTail(), 0, f.hw.mouthDuty);
    assert (ramp + StopTail())[|ramp + StopTail()| - 4..] == StopTail();
    Run(Fish(hw, f.dir), ramp + StopTail())
  }

  /** The events of the rising ramp, write by write: the current duty,
      then each step of 8 above it not past the target, each followed by a
      3 ms sleep, and nothing after the last of them. */
  lemma RampUpWrites(f: Fish, target: Duty)
    requires f.hw.mouthDuty < target
    ensures |RampUp(f, target).trace| == 2 * ((target - f.hw.mouthDuty) / RampStep + 1)
    ensures forall i :: 0 <= i <= (target - f.hw.mouthDuty) / RampStep ==>
              && IsWrite(RampUp(f, target).trace[2 * i], MouthPwm, f.hw.mouthDuty + RampStep * i)
              && RampUp(f, target).trace[2 * i + 1] == Delay(UpDelayMs)
  {
    var cur := f.hw.mouthDuty;
    assert RampUp(f, target).trace == DutyWrites(MouthPwm, StepUp(cur, target, RampStep), UpDelayMs);
    UpRampWrites(MouthPwm, cur, target, RampStep, UpDelayMs);
  }

  /** The events of the falling ramp, write by write: one below the current
      duty, then each step of 8 below that not past the target, each
      followed by a 2 ms sleep, and last a write of the target itself. */
  lemma RampDownWrites(f: Fish, target: Duty)
    requires f.hw.mouthDuty > target
    ensures |RampDown(f, target).trace| == 2 * DownSteps(target, f.hw.mouthDuty, RampStep) + 1
    ensures forall i :: 0 <= i < DownSteps(target, f.hw.mouthDuty, RampStep) ==>
              && IsWrite(RampDown(f, target).trace[2 * i], MouthPwm, f.hw.mouthDuty - 1 - RampStep * i)
              && RampDown(f, target).trace[2 * i + 1] == Delay(DownDelayMs)
    ensures RampDown(f, target).trace[|RampDown(f, target).trace| - 1] == SetDuty(MouthPwm, target)
  {
    var cur := f.hw.mouthDuty;
    var tail := [SetDuty(MouthPwm, target)];
    assert RampDown(f, target).trace == DutyWrites(MouthPwm, StepDown(target, cur, RampStep), DownDelayMs) + tail;
    DownRampThen(MouthPwm, target, cur, RampStep, DownDelayMs, tail);
  }

  /** The events of `mouth_stop`, write by write: from one below the
      current duty down in steps of 8 to at least 0, each followed by a
      2 ms sleep, then the zero write, the 5 ms settle and the two low
      pins. */
  lemma MouthStopWrites(f: Fish)
    ensures |MouthStop(f).trace| == 2 * DownSteps(0, f.hw.mouthDuty, RampStep) + 4
    ensures forall i :: 0 <= i < DownSteps(0, f.hw.mouthDuty, RampStep) ==>
              && IsWrite(MouthStop(f).trace[2 * i], MouthPwm, f.hw.mouthDuty - 1 - RampStep * i)
              && MouthStop(f).trace[2 * i + 1] == Delay(DownDelayMs)
    ensures MouthStop(f).trace[2 * DownSteps(0, f.hw.mouthDuty, RampStep)..] == StopTail()
  {
    var cur := f.hw.mouthDuty;
    assert MouthStop(f).trace == DutyWrites(MouthPwm, StepDown(0, cur, RampStep), DownDelayMs) + StopTail();
    DownRampThen(MouthPwm, 0, cur, RampStep, DownDelayMs, StopTail());
  }

  /** `speak_syllable`: open, hold, close, hold, stop. It always ends with
      the mouth neutral and remembering the closing direction, and sleeps
      at least the two hold times. */
  function SpeakSyllable(f: Fish, openSpeed: Duty, closeSpeed: Duty, openTime: U32, closeTime: U32): (r: Run)
    ensures Faithful(f.hw, r) && MouthPinSafe(f.hw, r.trace)
    ensures MouthNeutral(r.fish.hw)
    ensures r.fish.dir == Closing && HeadUnchanged(f.hw, r.fish.hw)
    ensures TotalDelay(r.trace) >= openTime + closeTime
  {
    var o := MouthOpen(f, openSpeed);
    var o' := Then(o, Sleep(o.fish, openTime));
    ThenSound(f.hw, o, Sleep(o.fish, openTime));
    var c := MouthClose(o'.fish, closeSpeed);
    var c' := Then(o', c);
    ThenSound(f.hw, o', c);
    var c'' := Then(c', Sleep(c'.fish, closeTime));
    ThenSound(f.hw, c', Sleep(c'.fish, closeTime));
    var s := MouthStop(c''.fish);
    ThenSound(f.hw, c'', s);
    Then(c'', s)
  }

  /** The rising ramp stops short of its target whenever the distance is
      not a multiple of 8: asked to open at 180 from rest, the mouth is
      left at 176. */
  lemma UpRampFallsShort(hw: Hw)
    requires hw.mouthDuty == 0
    ensures MouthOpen(New(hw), 180).fish.hw.mouthDuty == 176
  {
    assert (180 - 0) % RampStep == 4;
  }

  /** Construction remembers Opening but writes no pin, so from pins that
      start low the first `mouth_open` skips the pin writes and ramps the
      duty up with the bridge undriven. */
  lemma FirstOpenUndriven(hw: Hw, speed: Duty)
    requires hw.mouthDuty == 0 && hw.in1 == Low && hw.in2 == Low && speed >= RampStep
    ensures var r := MouthOpen(New(hw), speed);
      r.fish.hw.mouthDuty > 0 && r.fish.hw.in1 == Low && r.fish.hw.in2 == Low
  {
    assert speed % RampStep < RampStep;
  }

  /** `mouth_stop` sets both pins low but keeps the remembered direction,
      so a following `mouth_set` in that same direction skips the pin
      writes and ramps the duty up with the bridge undriven. */
  lemma StopThenSameDirection(f: Fish, speed: Duty)
    requires speed >= RampStep
    ensures var r := MouthSet(MouthStop(f).fish, f.dir, speed);
      r.fish.hw.mouthDuty > 0 && r.fish.hw.in1 == Low && r.fish.hw.in2 == Low
  {
    var s := MouthStop(f);
    assert speed % RampStep < RampStep;
  }
}
