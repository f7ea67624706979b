/** The hardware boundary of the fish controller.

    The control logic never reads a sensor: all it does is write PWM duty
    levels and H-bridge direction pins, and sleep. An operation is therefore
    modelled as the ordered trace of those writes and delays, and the
    register state of the board is whatever that trace leaves behind
    (`Replay`). Pin and PWM writes are taken to succeed. */
module Hardware {

  /** A PWM duty level at the LEDC driver's 8-bit resolution. */
  type Duty = d: int | 0 <= d <= 255

  /** An unsigned 32-bit value, such as a millisecond count. */
  type U32 = x: int | 0 <= x < 0x1_0000_0000

  datatype Level = Low | High

  /** In1/In2 drive the mouth's H-bridge half, In3/In4 the head's. */
  datatype Pin = In1 | In2 | In3 | In4

  /** The two LEDC channels: the enable line of each motor. */
  datatype Channel = MouthPwm | HeadPwm

  datatype Event =
    | SetDuty(channel: Channel, duty: Duty)
    | SetPin(pin: Pin, level: Level)
    | Delay(ms: nat)

  /** The registers the controller owns: one duty and two pins per motor. */
  datatype Hw = Hw(mouthDuty: Duty, in1: Level, in2: Level,
                   headDuty: Duty, in3: Level, in4: Level)

  /** The effect of one event on the registers. */
  function Step(h: Hw, e: Event): Hw
  {
    match e
    case SetDuty(MouthPwm, d) => h.(mouthDuty := d)
    case SetDuty(HeadPwm, d) => h.(headDuty := d)
    case SetPin(In1, l) => h.(in1 := l)
    case SetPin(In2, l) => h.(in2 := l)
    case SetPin(In3, l) => h.(in3 := l)
    case SetPin(In4, l) => h.(in4 := l)
    case Delay(_) => h
  }

  /** The registers after a whole trace, written in order. */
  function Replay(h: Hw, t: seq<Event>): Hw
    decreases |t|
  {
    if t == [] then h else Replay(Step(h, t[0]), t[1..])
  }

  lemma {:induction false} ReplayAppend(h: Hw, a: seq<Event>, b: seq<Event>)
    ensures Replay(h, a + b) == Replay(Replay(h, a), b)
    decreases |a|
  {
    if a == [] {
      assert a + b == b;
    } else {
      assert (a + b)[0] == a[0];
      assert (a + b)[1..] == a[1..] + b;
      ReplayAppend(Step(h, a[0]), a[1..], b);
    }
  }

  predicate IsMouthPinWrite(e: Event)
  {
    e.SetPin? && (e.pin == In1 || e.pin == In2)
  }

  predicate IsMouthDutyWrite(e: Event)
  {
    e.SetDuty? && e.channel == MouthPwm
  }

  /** The H-bridge safety rule: a mouth direction pin is written only while
      the mouth's duty register, as left by the earlier writes, is 0. */
  predicate MouthPinSafe(h: Hw, t: seq<Event>)
    decreases |t|
  {
    t == [] ||
    ((IsMouthPinWrite(t[0]) ==> h.mouthDuty == 0) && MouthPinSafe(Step(h, t[0]), t[1..]))
  }

  lemma {:induction false} SafeAppend(h: Hw, a: seq<Event>, b: seq<Event>)
    ensures MouthPinSafe(h, a + b) <==> MouthPinSafe(h, a) && MouthPinSafe(Replay(h, a), b)
    decreases |a|
  {
    if a == [] {
      assert a + b == b;
    } else {
      assert (a + b)[0] == a[0];
      assert (a + b)[1..] == a[1..] + b;
      SafeAppend(Step(h, a[0]), a[1..], b);
    }
  }

  /** A trace without mouth pin writes is safe from any register state. */
  lemma {:induction false} NoPinWriteSafe(h: Hw, t: seq<Event>)
    requires forall i :: 0 <= i < |t| ==> !IsMouthPinWrite(t[i])
    ensures MouthPinSafe(h, t)
    decreases |t|
  {
    if t != [] {
      NoPinWriteSafe(Step(h, t[0]), t[1..]);
    }
  }

  /** Every mouth duty written by `t` lies in [lo, hi]. */
  predicate MouthWritesWithin(t: seq<Event>, lo: int, hi: int)
    decreases |t|
  {
    t == [] ||
    ((IsMouthDutyWrite(t[0]) ==> lo <= t[0].duty <= hi) && MouthWritesWithin(t[1..], lo, hi))
  }

  /** The recursive bound agrees with its pointwise reading. */
  lemma {:induction false} WithinAt(t: seq<Event>, lo: int, hi: int, i: int)
    requires MouthWritesWithin(t, lo, hi) && 0 <= i < |t| && IsMouthDutyWrite(t[i])
    ensures lo <= t[i].duty <= hi
    decreases i
  {
    if i > 0 {
      WithinAt(t[1..], lo, hi, i - 1);
    }
  }

  /** Total time the trace spends sleeping. */
  function TotalDelay(t: seq<Event>): nat
    decreases |t|
  {
    if t == [] then 0
    else (if t[0].Delay? then t[0].ms else 0) + TotalDelay(t[1..])
  }

  lemma {:induction false} TotalDelayAppend(a: seq<Event>, b: seq<Event>)
    ensures TotalDelay(a + b) == TotalDelay(a) + TotalDelay(b)
    decreases |a|
  {
    if a == [] {
      assert a + b == b;
    } else {
      assert (a + b)[0] == a[0];
      assert (a + b)[1..] == a[1..] + b;
      TotalDelayAppend(a[1..], b);
    }
  }

  /** The mouth is neutral: no duty and both direction pins low. */
  predicate MouthNeutral(h: Hw)
  {
    h.mouthDuty == 0 && h.in1 == Low && h.in2 == Low
  }

  predicate HeadUnchanged(h: Hw, h': Hw)
  {
    h'.headDuty == h.headDuty && h'.in3 == h.in3 && h'.in4 == h.in4
  }

  predicate MouthUnchanged(h: Hw, h': Hw)
  {
    h'.mouthDuty == h.mouthDuty && h'.in1 == h.in1 && h'.in2 == h.in2
  }

  /** The register state after writing duty `d` to channel `ch`. */
  function WithDuty(h: Hw, ch: Channel, d: Duty): Hw
  {
    Step(h, SetDuty(ch, d))
  }

  /** A `for` loop that writes each level of `ws` to `ch` and sleeps `ms`
      after each write. */
  function DutyWrites(ch: Channel, ws: seq<Duty>, ms: nat): (t: seq<Event>)
    ensures |t| == 2 * |ws|
    ensures forall i :: 0 <= i < |t| ==> !t[i].SetPin?
    ensures forall i :: 0 <= i < |t| && t[i].SetDuty? ==> t[i].channel == ch && t[i].duty in ws
    decreases |ws|
  {
    if ws == [] then []
    else
      var rest := DutyWrites(ch, ws[1..], ms);
      assert forall i :: 0 <= i < |rest| && rest[i].SetDuty? ==> rest[i].duty in ws;
      [SetDuty(ch, ws[0]), Delay(ms)] + rest
  }

  /** After a ramp loop the channel holds the last level written, and
      nothing else has changed. */
  lemma {:induction false} DutyWritesReplay(h: Hw, ch: Channel, ws: seq<Duty>, ms: nat)
    ensures Replay(h, DutyWrites(ch, ws, ms)) == if ws == [] then h else WithDuty(h, ch, ws[|ws| - 1])
    decreases |ws|
  {
    if ws != [] {
      var t := DutyWrites(ch, ws, ms);
      var h1 := Step(Step(h, SetDuty(ch, ws[0])), Delay(ms));
      assert t[0] == SetDuty(ch, ws[0]) && t[1] == Delay(ms);
      assert t[2..] == DutyWrites(ch, ws[1..], ms);
      assert Replay(h, t) == Replay(h1, t[2..]);
      DutyWritesReplay(h1, ch, ws[1..], ms);
    }
  }

  /** The i-th write of a ramp loop and the sleep that follows it. */
  lemma {:induction false} DutyWritesAt(ch: Channel, ws: seq<Duty>, ms: nat, i: nat)
    requires i < |ws|
    ensures DutyWrites(ch, ws, ms)[2 * i] == SetDuty(ch, ws[i])
    ensures DutyWrites(ch, ws, ms)[2 * i + 1] == Delay(ms)
    decreases i
  {
    var t := DutyWrites(ch, ws, ms);
    assert t[2..] == DutyWrites(ch, ws[1..], ms);
    if i > 0 {
      DutyWritesAt(ch, ws[1..], ms, i - 1);
      assert t[2 * i] == t[2..][2 * (i - 1)];
      assert t[2 * i + 1] == t[2..][2 * (i - 1) + 1];
    }
  }

  /** `e` writes level `d` to channel `ch`. */
  predicate IsWrite(e: Event, ch: Channel, d: int)
  {
    e.SetDuty? && e.channel == ch && e.duty == d
  }

  /** A ramp loop, write by write: the i-th level, then the sleep. */
  lemma DutyWritesPairs(ch: Channel, ws: seq<Duty>, ms: nat)
    ensures var t := DutyWrites(ch, ws, ms);
      forall i :: 0 <= i < |ws| ==> t[2 * i] == SetDuty(ch, ws[i]) && t[2 * i + 1] == Delay(ms)
  {
    forall i | 0 <= i < |ws|
      ensures DutyWrites(ch, ws, ms)[2 * i] == SetDuty(ch, ws[i])
      ensures DutyWrites(ch, ws, ms)[2 * i + 1] == Delay(ms)
    {
      DutyWritesAt(ch, ws, ms, i);
    }
  }

  /** Appending events keeps the earlier ones in place. */
  lemma PrefixKept(t: seq<Event>, u: seq<Event>)
    ensures forall i :: 0 <= i < |t| ==> (t + u)[i] == t[i]
    ensures (t + u)[|t|..] == u
  {
  }

  lemma {:induction false} WithinAppend(a: seq<Event>, b: seq<Event>, lo: int, hi: int)
    requires MouthWritesWithin(a, lo, hi) && MouthWritesWithin(b, lo, hi)
    ensures MouthWritesWithin(a + b, lo, hi)
    decreases |a|
  {
    if a == [] {
      assert a + b == b;
    } else {
      assert (a + b)[0] == a[0];
      assert (a + b)[1..] == a[1..] + b;
      WithinAppend(a[1..], b, lo, hi);
    }
  }

  lemma {:induction false} WithinWeaken(t: seq<Event>, lo: int, hi: int, lo': int, hi': int)
    requires MouthWritesWithin(t, lo, hi) && lo' <= lo && hi <= hi'
    ensures MouthWritesWithin(t, lo', hi')
    decreases |t|
  {
    if t != [] {
      WithinWeaken(t[1..], lo, hi, lo', hi');
    }
  }

  /** A ramp loop writes only the levels it was given. */
  lemma {:induction false} DutyWritesWithin(ch: Channel, ws: seq<Duty>, ms: nat, lo: int, hi: int)
    requires forall i :: 0 <= i < |ws| ==> lo <= ws[i] <= hi
    ensures MouthWritesWithin(DutyWrites(ch, ws, ms), lo, hi)
    decreases |ws|
  {
    if ws != [] {
      var t := DutyWrites(ch, ws, ms);
      assert t[2..] == DutyWrites(ch, ws[1..], ms);
      DutyWritesWithin(ch, ws[1..], ms, lo, hi);
      assert t[1..][1..] == t[2..];
    }
  }

  function Max(a: int, b: int): int
  {
    if a < b then b else a
  }
}
