/** The movement loop of a command, independent of what one movement does:
    a left-to-right run of a step over the movement list, each step starting
    from the state the previous one left. */
module Movements {
  import opened Hardware
  import opened Billy
  import opened SharedModels

  /** `is_opening` names the direction: true opens, false closes. */
  function DirectionOf(m: MouthMovement): (d: MouthDirection)
    ensures d == Opening <==> m.isOpening
  {
    if m.isOpening then Opening else Closing
  }

  function SumDurations(ms: seq<MouthMovement>): nat
    decreases |ms|
  {
    if ms == [] then 0 else ms[0].durationMs + SumDurations(ms[1..])
  }

  function MaxSpeed(ms: seq<MouthMovement>): Duty
    decreases |ms|
  {
    if ms == [] then 0 else Max(ms[0].speed, MaxSpeed(ms[1..]))
  }

  /** The `for` loop over the movements: `step` for each one in array
      order, each finished before the next starts. */
  function RunAll(step: (Fish, MouthMovement) -> Run, f: Fish, ms: seq<MouthMovement>): Run
    decreases |ms|
  {
    if ms == [] then Run(f, [])
    else
      var first := step(f, ms[0]);
      Then(first, RunAll(step, first.fish, ms[1..]))
  }

  /** What one movement promises: faithful and safe writes, the mouth left
      neutral in the movement's direction, the head untouched, and at
      least the hold time slept. */
  predicate MovementOk(f: Fish, m: MouthMovement, r: Run)
  {
    && Faithful(f.hw, r) && MouthPinSafe(f.hw, r.trace)
    && MouthNeutral(r.fish.hw) && r.fish.dir == DirectionOf(m)
    && HeadUnchanged(f.hw, r.fish.hw)
    && TotalDelay(r.trace) >= m.durationMs
  }

  ghost predicate SoundStep(step: (Fish, MouthMovement) -> Run)
  {
    forall f: Fish, m: MouthMovement :: MovementOk(f, m, step(f, m))
  }

  /** A step that writes no mouth duty above the larger of the duty it
      starts from and the movement's speed. */
  ghost predicate BoundedStep(step: (Fish, MouthMovement) -> Run)
  {
    forall f: Fish, m: MouthMovement :: MouthWritesWithin(step(f, m).trace, 0, Max(f.hw.mouthDuty, m.speed))
  }

  /** A step that does not look at the start time. */
  ghost predicate IgnoresStart(step: (Fish, MouthMovement) -> Run)
  {
    forall f: Fish, m: MouthMovement :: step(f, m) == step(f, m.(startTimeMs := 0))
  }

  /** An empty list does nothing; otherwise the loop ends neutral in the
      last movement's direction with the head untouched, and sleeps at
      least the sum of the hold durations. */
  lemma {:induction false} RunAllSound(step: (Fish, MouthMovement) -> Run, f: Fish, ms: seq<MouthMovement>)
    requires SoundStep(step)
    ensures var r := RunAll(step, f, ms);
      && Faithful(f.hw, r) && MouthPinSafe(f.hw, r.trace)
      && HeadUnchanged(f.hw, r.fish.hw)
      && (ms == [] ==> r == Run(f, []))
      && (ms != [] ==> MouthNeutral(r.fish.hw) && r.fish.dir == DirectionOf(ms[|ms| - 1]))
      && TotalDelay(r.trace) >= SumDurations(ms)
    decreases |ms|
  {
    if ms != [] {
      var first := step(f, ms[0]);
      var rest := RunAll(step, first.fish, ms[1..]);
      assert MovementOk(f, ms[0], first);
      RunAllSound(step, first.fish, ms[1..]);
      ThenSound(f.hw, first, rest);
      if ms[1..] != [] {
        assert ms[1..][|ms[1..]| - 1] == ms[|ms| - 1];
      }
    }
  }

  /** The loop writes no mouth duty above the starting duty and the
      largest speed it was given. */
  lemma {:induction false} RunAllWithin(step: (Fish, MouthMovement) -> Run, f: Fish, ms: seq<MouthMovement>)
    requires SoundStep(step) && BoundedStep(step)
    ensures MouthWritesWithin(RunAll(step, f, ms).trace, 0, Max(f.hw.mouthDuty, MaxSpeed(ms)))
    decreases |ms|
  {
    if ms != [] {
      var first := step(f, ms[0]);
      var rest := RunAll(step, first.fish, ms[1..]);
      var bound := Max(f.hw.mouthDuty, MaxSpeed(ms));
      assert MovementOk(f, ms[0], first);
      RunAllWithin(step, first.fish, ms[1..]);
      WithinWeaken(first.trace, 0, Max(f.hw.mouthDuty, ms[0].speed), 0, bound);
      WithinWeaken(rest.trace, 0, Max(first.fish.hw.mouthDuty, MaxSpeed(ms[1..])), 0, bound);
      WithinAppend(first.trace, rest.trace, 0, bound);
    }
  }

  /** Running a concatenation of movement lists is running the first list
      and then the second from where the first left off: movements run in
      array order and no two of them interleave. */
  lemma {:induction false} RunAllAppend(step: (Fish, MouthMovement) -> Run, f: Fish, a: seq<MouthMovement>, b: seq<MouthMovement>)
    ensures RunAll(step, f, a + b) == Then(RunAll(step, f, a), RunAll(step, RunAll(step, f, a).fish, b))
    decreases |a|
  {
    if a == [] {
      assert a + b == b;
    } else {
      var first := step(f, a[0]);
      assert (a + b)[0] == a[0];
      assert (a + b)[1..] == a[1..] + b;
      RunAllAppend(step, first.fish, a[1..], b);
      var x := RunAll(step, first.fish, a[1..]);
      var y := RunAll(step, x.fish, b);
      assert first.trace + (x.trace + y.trace) == (first.trace + x.trace) + y.trace;
    }
  }

  /** The k-th movement runs from exactly the state the first k movements
      left, and its writes sit between theirs and those of the rest. */
  lemma RunAllAt(step: (Fish, MouthMovement) -> Run, f: Fish, ms: seq<MouthMovement>, k: nat)
    requires k < |ms|
    ensures var before := RunAll(step, f, ms[..k]);
      var here := step(before.fish, ms[k]);
      RunAll(step, f, ms).trace
        == before.trace + here.trace + RunAll(step, here.fish, ms[k + 1..]).trace
  {
    var before := RunAll(step, f, ms[..k]);
    var here := step(before.fish, ms[k]);
    var rest := RunAll(step, here.fish, ms[k + 1..]);
    assert ms == ms[..k] + ms[k..];
    RunAllAppend(step, f, ms[..k], ms[k..]);
    assert RunAll(step, before.fish, ms[k..]) == Then(here, rest) by {
      assert ms[k..][0] == ms[k] && ms[k..][1..] == ms[k + 1..];
    }
    assert before.trace + (here.trace + rest.trace) == before.trace + here.trace + rest.trace;
  }

  /** Two movements that agree on everything but their start time. */
  predicate SameButStart(m: MouthMovement, m': MouthMovement)
  {
    m.isOpening == m'.isOpening && m.speed == m'.speed && m.durationMs == m'.durationMs
  }

  /** A loop whose step ignores start times runs two lists that differ
      only in start times identically. */
  lemma {:induction false} RunAllIgnoresStart(step: (Fish, MouthMovement) -> Run, f: Fish, ms: seq<MouthMovement>, ms': seq<MouthMovement>)
    requires IgnoresStart(step)
    requires |ms| == |ms'|
    requires forall i :: 0 <= i < |ms| ==> SameButStart(ms[i], ms'[i])
    ensures RunAll(step, f, ms) == RunAll(step, f, ms')
    decreases |ms|
  {
    if ms != [] {
      var m, m' := ms[0], ms'[0];
      assert m.(startTimeMs := 0) == m'.(startTimeMs := 0);
      assert step(f, m) == step(f, m.(startTimeMs := 0));
      assert step(f, m') == step(f, m'.(startTimeMs := 0));
      RunAllIgnoresStart(step, step(f, ms[0]).fish, ms[1..], ms'[1..]);
    }
  }
}
