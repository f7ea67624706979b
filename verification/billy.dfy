/** The fish controller itself: its software state, its construction, and
    the head motor's two movements. */
module Billy {
  import opened Hardware
  import opened Ramp

  datatype MouthDirection = Opening | Closing

  /** The controller: the registers it owns and the mouth direction it
      remembers having set. */
  datatype Fish = Fish(hw: Hw, dir: MouthDirection)

  /** What an operation leaves behind: the new controller state and the
      writes and delays it performed, in order. */
  datatype Run = Run(fish: Fish, trace: seq<Event>)

  /** A run whose reported registers are what its trace leaves behind
      when started from `h`. */
  predicate Faithful(h: Hw, r: Run)
  {
    r.fish.hw == Replay(h, r.trace)
  }

  /** Running `second` after `first`: the state `second` leaves, and the two
      traces one after the other. */
  function Then(first: Run, second: Run): Run
  {
    Run(second.fish, first.trace + second.trace)
  }

  /** Sequential composition keeps the registers faithful to the trace, is
      safe exactly when both parts are, and adds up the delays. */
  lemma ThenSound(h: Hw, first: Run, second: Run)
    requires Faithful(h, first) && Faithful(first.fish.hw, second)
    ensures Faithful(h, Then(first, second))
    ensures MouthPinSafe(h, Then(first, second).trace)
      <==> MouthPinSafe(h, first.trace) && MouthPinSafe(first.fish.hw, second.trace)
    ensures TotalDelay(Then(first, second).trace) == TotalDelay(first.trace) + TotalDelay(second.trace)
  {
    ReplayAppend(h, first.trace, second.trace);
    SafeAppend(h, first.trace, second.trace);
    TotalDelayAppend(first.trace, second.trace);
  }

  /** A blocking sleep of `ms` milliseconds. */
  function Sleep(f: Fish, ms: nat): (r: Run)
    ensures Faithful(f.hw, r) && r.fish == f && TotalDelay(r.trace) == ms
    ensures MouthPinSafe(f.hw, r.trace) && MouthWritesWithin(r.trace, 0, 0)
  {
    Run(f, [Delay(ms)])
  }

  /** Construction. The register levels right after peripheral set-up are
      whatever the drivers leave, so they are a parameter; the remembered
      mouth direction is fixed. */
  function New(hw: Hw): (f: Fish)
    ensures f.dir == Opening
    ensures f.hw == hw
  {
    Fish(hw, Opening)
  }

  const HoldStep := 16
  const HoldDelayMs := 5
  const DecayDelayMs := 50

  /** The levels of the soft hold, 0, 16, ..., 240. */
  function HoldLevels(): (ws: seq<Duty>)
    ensures |ws| == 16 && Last(ws) == 240
    ensures forall i :: 0 <= i < |ws| - 1 ==> ws[i] < ws[i + 1]
  {
    seq(16, i requires 0 <= i < 16 => 16 * i)
  }

  /** The firmware's loop `(0..256).step_by(16)` produces exactly the
      levels of `HoldLevels`: sixteen of them, so the soft hold stops short
      of the 255 ceiling. */
  lemma HoldLevelsAreRange()
    ensures StepUp(0, 255, HoldStep) == HoldLevels()
  {
    var ws, hs := StepUp(0, 255, HoldStep), HoldLevels();
    assert Last(ws) == 16 * (|ws| - 1);
    assert |ws| == 16;
    assert forall i :: 0 <= i < 16 ==> ws[i] == hs[i];
  }

  /** `head_hold_soft` over a given list of levels: drive the head one way
      (In3 high, In4 low), then write each level with 5 ms between them. */
  function HoldSoftWith(f: Fish, ws: seq<Duty>): (r: Run)
    requires |ws| > 0
    ensures r.fish.hw == Replay(f.hw, r.trace)
    ensures r.fish.dir == f.dir && MouthUnchanged(f.hw, r.fish.hw)
    ensures r.trace == [SetPin(In3, High), SetPin(In4, Low)] + DutyWrites(HeadPwm, ws, HoldDelayMs)
    ensures r.fish.hw.in3 == High && r.fish.hw.in4 == Low && r.fish.hw.headDuty == Last(ws)
    ensures forall i :: 0 <= i < |r.trace| ==> !IsMouthPinWrite(r.trace[i])
    ensures MouthPinSafe(f.hw, r.trace)
  {
    var pins := [SetPin(In3, High), SetPin(In4, Low)];
    var ramp := DutyWrites(HeadPwm, ws, HoldDelayMs);
    var h1 := f.hw.(in3 := High, in4 := Low);
    assert Replay(f.hw, pins) == h1;
    DutyWritesReplay(h1, HeadPwm, ws, HoldDelayMs);
    ReplayAppend(f.hw, pins, ramp);
    NoPinWriteSafe(f.hw, pins + ramp);
    Run(Fish(h1.(headDuty := Last(ws)), f.dir), pins + ramp)
  }

  /** `head_hold_soft`: the soft hold ramps the head up to 240, not to the
      255 ceiling, and leaves the mouth alone. */
  function HeadHoldSoft(f: Fish): (r: Run)
    ensures r.fish.hw == Replay(f.hw, r.trace)
    ensures r.fish.dir == f.dir && MouthUnchanged(f.hw, r.fish.hw)
    ensures |r.trace| >= 2 && r.trace[..2] == [SetPin(In3, High), SetPin(In4, Low)]
    ensures r.fish.hw.in3 == High && r.fish.hw.in4 == Low && r.fish.hw.headDuty == 240
    ensures forall i :: 0 <= i < |r.trace| ==> !IsMouthPinWrite(r.trace[i])
    ensures MouthPinSafe(f.hw, r.trace)
  {
    HoldSoftWith(f, HoldLevels())
  }

  /** After the two pin writes, `head_hold_soft` writes exactly the levels
      0, 16, ..., 240 to the head channel in increasing order, each followed
      by a 5 ms sleep. */
  lemma HeadHoldSoftWrites(f: Fish)
    ensures var t := HeadHoldSoft(f).trace;
      && |t| == 34
      && (forall i :: 0 <= i < 16 ==> t[2 + 2 * i] == SetDuty(HeadPwm, 16 * i))
      && (forall i :: 0 <= i < 16 ==> t[3 + 2 * i] == Delay(HoldDelayMs))
  {
    var t := HeadHoldSoft(f).trace;
    var ws := HoldLevels();
    assert t[2..] == DutyWrites(HeadPwm, ws, HoldDelayMs);
    forall i | 0 <= i < 16
      ensures t[2 + 2 * i] == SetDuty(HeadPwm, 16 * i) && t[3 + 2 * i] == Delay(HoldDelayMs)
    {
      DutyWritesAt(HeadPwm, ws, HoldDelayMs, i);
      assert t[2 + 2 * i] == t[2..][2 * i];
      assert t[3 + 2 * i] == t[2..][2 * i + 1];
    }
  }

  /** An integer decay rule never raises the duty. */
  ghost predicate NonIncreasing(dec: Duty -> Duty)
  {
    forall x: Duty :: dec(x) <= x
  }

  /** A decay rule that strictly lowers every positive duty. */
  ghost predicate StrictlyDecays(dec: Duty -> Duty)
  {
    forall x: Duty :: x > 0 ==> dec(x) < x
  }

  /** The levels written by the loop of `head_slowed_stop` from duty `d`:
      while the duty is positive, compute dec(duty); stop if it would not
      change, otherwise write it. Each write is below the one before, so the
      loop ends after at most `d` writes, at 0 or at a level `dec` keeps. */
  function DecayLevels(dec: Duty -> Duty, d: Duty): (ws: seq<Duty>)
    requires NonIncreasing(dec)
    ensures |ws| <= d
    ensures forall i :: 0 <= i < |ws| ==> ws[i] < d
    ensures forall i :: 0 <= i < |ws| - 1 ==> ws[i + 1] < ws[i]
    ensures forall i :: 0 <= i < |ws| ==> ws[i] == dec(if i == 0 then d else ws[i - 1])
    ensures var final := if ws == [] then d else Last(ws); final == 0 || dec(final) == final
    decreases d
  {
    if d == 0 || dec(d) == d then []
    else [dec(d)] + DecayLevels(dec, dec(d))
  }

  /** `head_slowed_stop` with the floating-point `* 0.95` replaced by the
      integer rule `dec`. */
  function HeadSlowedStop(f: Fish, dec: Duty -> Duty): (r: Run)
    requires NonIncreasing(dec)
    ensures r.fish.hw == Replay(f.hw, r.trace)
    ensures r.fish.dir == f.dir && MouthUnchanged(f.hw, r.fish.hw)
    ensures r.fish.hw.in3 == f.hw.in3 && r.fish.hw.in4 == f.hw.in4
    ensures r.fish.hw.headDuty <= f.hw.headDuty
    ensures f.hw.headDuty == 0 ==> r == Run(f, [])
    ensures r.fish.hw.headDuty == 0 || dec(r.fish.hw.headDuty) == r.fish.hw.headDuty
    ensures StrictlyDecays(dec) ==> r.fish.hw.headDuty == 0
    ensures MouthPinSafe(f.hw, r.trace)
  {
    var ws := DecayLevels(dec, f.hw.headDuty);
    var t := DutyWrites(HeadPwm, ws, DecayDelayMs);
    DutyWritesReplay(f.hw, HeadPwm, ws, DecayDelayMs);
    NoPinWriteSafe(f.hw, t);
    var final := if ws == [] then f.hw.headDuty else Last(ws);
    assert final <= f.hw.headDuty;
    assert StrictlyDecays(dec) ==> final == 0;
    Run(f.(hw := f.hw.(headDuty := final)), t)
  }

  /** The events of `head_slowed_stop`, write by write: each level of the
      decay loop written to the head channel in order, each followed by a
      50 ms sleep, and nothing else. */
  lemma HeadSlowedStopWrites(f: Fish, dec: Duty -> Duty)
    requires NonIncreasing(dec)
    ensures |HeadSlowedStop(f, dec).trace| == 2 * |DecayLevels(dec, f.hw.headDuty)|
    ensures forall i :: 0 <= i < |DecayLevels(dec, f.hw.headDuty)| ==>
              && HeadSlowedStop(f, dec).trace[2 * i] == SetDuty(HeadPwm, DecayLevels(dec, f.hw.headDuty)[i])
              && HeadSlowedStop(f, dec).trace[2 * i + 1] == Delay(DecayDelayMs)
  {
    var ws := DecayLevels(dec, f.hw.headDuty);
    assert HeadSlowedStop(f, dec).trace == DutyWrites(HeadPwm, ws, DecayDelayMs);
    DutyWritesPairs(HeadPwm, ws, DecayDelayMs);
  }

  /** The integer stand-in for the firmware's `duty * 0.95`, floored. */
  function Decay95(d: Duty): (r: Duty)
    ensures r <= d
    ensures d > 0 ==> r < d
    ensures d - r <= d / 20 + 1
  {
    d * 95 / 100
  }

  /** With the 95 % rule the head always comes to rest at duty 0. */
  lemma SlowedStopReachesRest(f: Fish)
    ensures NonIncreasing(Decay95)
    ensures HeadSlowedStop(f, Decay95).fish.hw.headDuty == 0
  {
    assert StrictlyDecays(Decay95);
  }
}
