/** The duty sequences produced by the firmware's stepped `for` loops:
    `(lo..=hi).step_by(k)` rising, and `(lo..hi).rev().step_by(k)` falling. */
module Ramp {
  import opened Hardware

  function Last(ws: seq<Duty>): Duty
    requires |ws| > 0
  {
    ws[|ws| - 1]
  }

  /** `(lo..=hi).step_by(k)`: lo, lo + k, lo + 2k, ... as long as they do
      not pass hi. */
  function StepUp(lo: Duty, hi: Duty, k: nat): (ws: seq<Duty>)
    requires k >= 1
    ensures |ws| > 0 <==> lo <= hi
    ensures |ws| > 0 ==> hi < Last(ws) + k
    ensures forall i :: 0 <= i < |ws| ==> ws[i] == lo + k * i && ws[i] <= hi
    decreases hi - lo
  {
    if lo > hi then []
    else
      var rest := if lo + k <= hi then StepUp(lo + k, hi, k) else [];
      assert forall i :: 0 <= i < |rest| ==> rest[i] == lo + k * (i + 1) by {
        forall i | 0 <= i < |rest|
          ensures rest[i] == lo + k * (i + 1)
        {
          MulDistrib(k, i + 1, 1);
        }
      }
      [lo] + rest
  }

  /** `(lo..hi).rev().step_by(k)`: hi - 1, hi - 1 - k, ... as long as they
      do not pass below lo. The bound hi itself is never produced. */
  function StepDown(lo: Duty, hi: Duty, k: nat): (ws: seq<Duty>)
    requires k >= 1
    ensures |ws| > 0 <==> lo < hi
    ensures |ws| > 0 ==> Last(ws) - k < lo
    ensures forall i :: 0 <= i < |ws| ==> ws[i] == hi - 1 - k * i && lo <= ws[i]
    decreases hi - lo
  {
    if hi <= lo then []
    else
      var rest := if hi - k > lo then StepDown(lo, hi - k, k) else [];
      var ws := [hi - 1] + rest;
      assert forall i :: 0 <= i < |ws| ==> ws[i] == hi - 1 - k * i && lo <= ws[i] by {
        forall i | 0 <= i < |ws|
          ensures ws[i] == hi - 1 - k * i && lo <= ws[i]
        {
          if i > 0 {
            assert ws[i] == rest[i - 1];
            MulDistrib(k, i, 1);
          }
        }
      }
      assert rest != [] ==> Last(ws) == Last(rest);
      ws
  }

  /** Every level of the rising ramp is lo plus a multiple of k, so the
      last one is the largest such level not above hi: it reaches hi
      exactly when hi - lo is a multiple of k. */
  lemma StepUpLast(lo: Duty, hi: Duty, k: nat)
    requires k >= 1 && lo <= hi
    ensures Last(StepUp(lo, hi, k)) == hi - (hi - lo) % k
    ensures Last(StepUp(lo, hi, k)) == hi <==> (hi - lo) % k == 0
  {
    var ws := StepUp(lo, hi, k);
    var n := |ws| - 1;
    assert Last(ws) == lo + k * n;
    DivModUnique(hi - lo, k, n, hi - Last(ws));
  }

  /** The number of levels of either ramp: one per step of k that fits. */
  lemma StepLengths(lo: Duty, hi: Duty, k: nat)
    requires k >= 1
    ensures lo <= hi ==> |StepUp(lo, hi, k)| == (hi - lo) / k + 1
    ensures lo < hi ==> |StepDown(lo, hi, k)| == (hi - 1 - lo) / k + 1
  {
    if lo <= hi {
      var n := |StepUp(lo, hi, k)| - 1;
      StepUpLast(lo, hi, k);
      DivUnique(hi - lo, k, n, hi - Last(StepUp(lo, hi, k)));
    }
    if lo < hi {
      var ws := StepDown(lo, hi, k);
      var n := |ws| - 1;
      assert Last(ws) == hi - 1 - k * n;
      DivUnique(hi - 1 - lo, k, n, Last(ws) - lo);
    }
  }

  /** A rising ramp loop writes lo, lo + k, ... as far as hi allows, each
      followed by its sleep. */
  lemma UpRampWrites(ch: Channel, lo: Duty, hi: Duty, k: nat, ms: nat)
    requires k >= 1 && lo <= hi
    ensures var t := DutyWrites(ch, StepUp(lo, hi, k), ms);
      var n := (hi - lo) / k + 1;
      && |t| == 2 * n
      && (forall i :: 0 <= i < n ==> IsWrite(t[2 * i], ch, lo + k * i))
      && (forall i :: 0 <= i < n ==> t[2 * i + 1] == Delay(ms))
  {
    var ws := StepUp(lo, hi, k);
    var t := DutyWrites(ch, ws, ms);
    StepLengths(lo, hi, k);
    DutyWritesPairs(ch, ws, ms);
    forall i | 0 <= i < |ws|
      ensures IsWrite(t[2 * i], ch, lo + k * i) && t[2 * i + 1] == Delay(ms)
    {
      assert t[2 * i] == SetDuty(ch, ws[i]);
    }
  }

  /** The number of levels of the falling ramp from hi down to lo. */
  function DownSteps(lo: Duty, hi: Duty, k: nat): nat
    requires k >= 1
  {
    if hi <= lo then 0 else (hi - 1 - lo) / k + 1
  }

  /** A falling ramp loop followed by `tail`: the loop writes hi - 1,
      hi - 1 - k, ... as far as lo allows, each followed by its sleep, and
      the tail comes after the last of them. */
  lemma DownRampThen(ch: Channel, lo: Duty, hi: Duty, k: nat, ms: nat, tail: seq<Event>)
    requires k >= 1 && lo <= hi
    ensures var t := DutyWrites(ch, StepDown(lo, hi, k), ms) + tail;
      var n := DownSteps(lo, hi, k);
      && |t| == 2 * n + |tail|
      && (forall i :: 0 <= i < n ==> IsWrite(t[2 * i], ch, hi - 1 - k * i))
      && (forall i :: 0 <= i < n ==> t[2 * i + 1] == Delay(ms))
      && t[2 * n..] == tail
  {
    var ramp := DutyWrites(ch, StepDown(lo, hi, k), ms);
    StepLengths(lo, hi, k);
    DutyWritesPairs(ch, StepDown(lo, hi, k), ms);
    PrefixKept(ramp, tail);
  }

  lemma DivUnique(x: int, k: int, q: int, r: int)
    requires k >= 1 && 0 <= r < k && x == k * q + r
    ensures x / k == q
  {
    DivModUnique(x, k, q, r);
  }

  lemma DivModUnique(x: int, k: int, q: int, r: int)
    requires k >= 1 && 0 <= r < k && x == k * q + r
    ensures x % k == r
  {
    var q', r' := x / k, x % k;
    assert x == k * q' + r' && 0 <= r' < k;
    MulDistrib(k, q', q);
    assert k * (q' - q) == r - r';
    if q' - q >= 1 {
      MulMonotone(k, q' - q);
    } else if q' - q <= -1 {
      MulMonotone(k, q - q');
      MulDistrib(k, q, q');
    }
  }

  lemma MulDistrib(k: int, a: int, b: int)
    ensures k * a - k * b == k * (a - b)
  {
  }

  lemma MulMonotone(k: int, d: int)
    requires k >= 1 && d >= 1
    ensures k * d >= k
  {
  }
}
