/**
  Decimal formatting of the clock's numbers, as Python's `f"{n:02}"`
  renders a non-negative integer: at least two digits, zero-padded on the
  left, and as many digits as the number needs beyond that.

  The alarm check compares `f"{hour:02}:{mins:02}"` with the alarm's own
  string; `AlarmKeyMatch` shows that this comparison is integer equality of
  hour and minute, which is how the controller states it.
 */
module Format {

  /** The character of one decimal digit. */
  function Digit(d: nat): (c: char)
    requires d < 10
    ensures '0' <= c <= '9'
    ensures c as int - '0' as int == d
  {
    (d + '0' as int) as char
  }

  /** `str(n)`: the decimal digits of `n`, most significant first. */
  function Decimal(n: nat): (s: string)
    ensures forall i :: 0 <= i < |s| ==> '0' <= s[i] <= '9'
    ensures n < 10 <==> |s| == 1
    ensures n < 100 <==> |s| <= 2
    ensures 1 <= |s|
  {
    if n < 10 then [Digit(n)] else Decimal(n / 10) + [Digit(n % 10)]
  }

  /** `f"{n:02}"`: zero-padded to two digits, longer when `n` needs it. */
  function Pad2(n: nat): (s: string)
    ensures forall i :: 0 <= i < |s| ==> '0' <= s[i] <= '9'
    ensures 2 <= |s|
    ensures n < 100 <==> |s| == 2
    ensures n >= 100 ==> |s| >= 3
  {
    if n < 10 then ['0', Digit(n)] else Decimal(n)
  }

  /** Reads back a two-digit decimal string. */
  function ParseTwo(s: string): int
    requires |s| == 2
  {
    10 * (s[0] as int - '0' as int) + (s[1] as int - '0' as int)
  }

  /** Reading back a two-digit rendering gives the number again. */
  lemma Pad2RoundTrip(n: nat)
    requires n < 100
    ensures |Pad2(n)| == 2
    ensures ParseTwo(Pad2(n)) == n
  {
    if n >= 10 {
      assert Decimal(n / 10) == [Digit(n / 10)];
      assert Pad2(n) == [Digit(n / 10), Digit(n % 10)];
    }
  }

  /** `f"{n:02}"` is injective on 0..99. */
  lemma Pad2Injective(a: nat, b: nat)
    requires a < 100 && b < 100
    ensures Pad2(a) == Pad2(b) <==> a == b
  {
    Pad2RoundTrip(a);
    Pad2RoundTrip(b);
  }

  /** The string the alarm check compares, `f"{hour:02}:{mins:02}"`. */
  function AlarmKey(hour: nat, mins: nat): (s: string)
    ensures |s| >= 5
    ensures hour < 100 && mins < 100 <==> |s| == 5
  {
    Pad2(hour) + ":" + Pad2(mins)
  }

  /**
    Comparing the alarm strings is comparing hour and minute, for any
    clock hour (even one past 23, which the local tick can produce) against
    an alarm hour and minute in their ranges.
   */
  lemma AlarmKeyMatch(hour: nat, mins: nat, alarmHour: nat, alarmMin: nat)
    requires mins < 60
    requires alarmHour < 24 && alarmMin < 60
    ensures AlarmKey(hour, mins) == AlarmKey(alarmHour, alarmMin)
            <==> hour == alarmHour && mins == alarmMin
  {
    var k, a := AlarmKey(hour, mins), AlarmKey(alarmHour, alarmMin);
    assert |Pad2(mins)| == 2 && |Pad2(alarmMin)| == 2 && |Pad2(alarmHour)| == 2;
    if hour >= 100 {
      assert |k| >= 6 && |a| == 5;
    } else if k == a {
      assert Pad2(hour) == k[..2] == a[..2] == Pad2(alarmHour);
      assert Pad2(mins) == k[3..] == a[3..] == Pad2(alarmMin);
      Pad2Injective(hour, alarmHour);
      Pad2Injective(mins, alarmMin);
    }
  }
}
