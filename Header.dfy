/**
 * The status bar: a clock showing hours and minutes, and a battery level
 * that drains by one point per tick and jumps back to full when empty.
 */
module Header {
  import opened Text

  const InitialBattery := 88

  /** One battery tick: a level of one or less recharges to 100, any other
      level loses a point. */
  function BatteryStep(b: int): (r: int)
    ensures 1 <= b <= 100 ==> 1 <= r <= 100
    ensures b > 1 ==> r < b
    ensures r == 100 <==> b <= 1 || b == 101
  {
    if b <= 1 then 100 else b - 1
  }

  /** The level after `n` ticks. */
  function Ticks(b: int, n: nat): int
  {
    if n == 0 then b else BatteryStep(Ticks(b, n - 1))
  }

  /** From a level in range, `k` ticks short of empty drain it by `k`. */
  lemma {:induction false} TicksDrain(b: int, k: nat)
    requires k < b
    ensures Ticks(b, k) == b - k
  {
    if k > 0 {
      TicksDrain(b, k - 1);
    }
  }

  /** A level `b` of at least one is back at full after exactly `b` ticks,
      so the cycle from full has period 100. */
  lemma TicksRecharge(b: int)
    requires b >= 1
    ensures Ticks(b, b) == 100
    ensures forall k :: 0 < k < b ==> Ticks(b, k) != 100 || b - k == 100
  {
    TicksDrain(b, b - 1);
    forall k | 0 < k < b
      ensures Ticks(b, k) == b - k
    {
      TicksDrain(b, k);
    }
  }

  /** A leading zero does not change the value of a digit string. */
  lemma {:induction false} LeadingZero(s: string)
    requires IsDigits(s)
    ensures IsDigits("0" + s) && DigitsValue("0" + s) == DigitsValue(s)
  {
    if s != [] {
      LeadingZero(s[..|s| - 1]);
      assert ("0" + s)[..|"0" + s| - 1] == "0" + s[..|s| - 1];
    }
  }

  /** `n.toString().padStart(2, '0')` for `n` below 100: two digits that
      denote `n`. */
  function TwoDigits(n: nat): (r: string)
    requires n < 100
    ensures |r| == 2 && IsDigits(r) && DigitsValue(r) == n
  {
    var s := NatToString(n);
    if |s| == 1 then
      LeadingZero(s);
      PadStart2(s)
    else
      PadStart2(s)
  }

  /** Two two-character halves around a colon can be cut apart again. */
  lemma Halves(a: string, b: string)
    requires |a| == 2 && |b| == 2
    ensures var r := a + [':'] + b; |r| == 5 && r[2] == ':' && r[..2] == a && r[3..] == b
  {
    var r := a + [':'] + b;
    assert r[..2] == a;
    assert r[3..] == b;
  }

  /** `formatTime`: zero-padded hours and minutes joined by a colon; both
      halves read back as the numbers shown. */
  function FormatTime(hours: nat, minutes: nat): (r: string)
    requires hours < 24 && minutes < 60
    ensures |r| == 5 && r[2] == ':'
    ensures IsDigits(r[..2]) && DigitsValue(r[..2]) == hours
    ensures IsDigits(r[3..]) && DigitsValue(r[3..]) == minutes
  {
    var hh := TwoDigits(hours);
    var mm := TwoDigits(minutes);
    Halves(hh, mm);
    hh + [':'] + mm
  }

  /** Distinct times of day are shown differently. */
  lemma FormatTimeInjective(h1: nat, m1: nat, h2: nat, m2: nat)
    requires h1 < 24 && m1 < 60 && h2 < 24 && m2 < 60
    requires FormatTime(h1, m1) == FormatTime(h2, m2)
    ensures h1 == h2 && m1 == m2
  {
    var r := FormatTime(h1, m1);
    assert DigitsValue(r[..2]) == h1 && DigitsValue(r[..2]) == h2;
    assert DigitsValue(r[3..]) == m1 && DigitsValue(r[3..]) == m2;
  }

  /** The header's state: the time of the last clock tick and the battery
      level. */
  class StatusBar {
    var hours: nat
    var minutes: nat
    var battery: int

    predicate Valid()
      reads this
    {
      hours < 24 && minutes < 60 && 1 <= battery <= 100
    }

    /** The header mounts showing the current time and a battery at 88. */
    constructor(h: nat, m: nat)
      requires h < 24 && m < 60
      ensures Valid()
      ensures hours == h && minutes == m && battery == InitialBattery
    {
      hours := h;
      minutes := m;
      battery := InitialBattery;
    }

    /** The one-second timer: the clock takes the new time of day. */
    method ClockTick(h: nat, m: nat)
      requires Valid() && h < 24 && m < 60
      modifies this
      ensures Valid()
      ensures hours == h && minutes == m && battery == old(battery)
    {
      hours := h;
      minutes := m;
    }

    /** The thirty-second timer. */
    method BatteryTick()
      requires Valid()
      modifies this
      ensures Valid()
      ensures battery == BatteryStep(old(battery))
      ensures hours == old(hours) && minutes == old(minutes)
    {
      if battery <= 1 {
        battery := 100;
      } else {
        battery := battery - 1;
      }
    }

    /** The clock text shown. */
    function Clock(): (r: string)
      requires Valid()
      reads this
      ensures |r| == 5 && IsDigits(r[..2]) && IsDigits(r[3..])
      ensures DigitsValue(r[..2]) == hours && DigitsValue(r[3..]) == minutes
    {
      FormatTime(hours, minutes)
    }
  }
}
