/**
 * `formatTime`: seconds rendered as `M:SS` below an hour and `H:MM:SS`
 * from an hour on. The input is a JavaScript number; NaN and the
 * infinities are separate cases, finite values are reals, and `%` is the
 * JavaScript remainder, which truncates toward zero.
 */
module Formatters {
  import opened Wrappers
  import opened Strings

  datatype JsNumber = Finite(value: real) | NaN | Infinity | NegativeInfinity

  /** Truncation toward zero. */
  function Trunc(x: real): int
  {
    if x >= 0.0 then x.Floor else -((-x).Floor)
  }

  /** The JavaScript `x % y` on finite operands: the sign follows the dividend. */
  function JsRem(x: real, y: real): real
    requires y != 0.0
  {
    x - y * (Trunc(x / y) as real)
  }

  /** `Math.floor(seconds / 3600)`. */
  function Hours(s: real): int { (s / 3600.0).Floor }

  /** `Math.floor((seconds % 3600) / 60)`. */
  function Minutes(s: real): int { (JsRem(s, 3600.0) / 60.0).Floor }

  /** `Math.floor(seconds % 60)`. */
  function Seconds(s: real): int { JsRem(s, 60.0).Floor }

  function FormatFinite(s: real): string
  {
    var hrs := Hours(s);
    var formattedMins := PadStart(IntToString(Minutes(s)), if hrs > 0 then 2 else 1, '0');
    var formattedSecs := PadStart(IntToString(Seconds(s)), 2, '0');
    if hrs > 0 then IntToString(hrs) + ":" + formattedMins + ":" + formattedSecs
    else formattedMins + ":" + formattedSecs
  }

  /** `formatTime(seconds)`: NaN and the infinities render as `0:00`. */
  function FormatTime(seconds: JsNumber): (r: string)
    ensures !seconds.Finite? ==> r == "0:00"
  {
    match seconds
    case Finite(s) => FormatFinite(s)
    case _ => "0:00"
  }

  /** Dividing by a positive `d` keeps bounds scaled by `d`. */
  lemma DivBounds(x: real, d: real, lo: real, hi: real)
    requires d > 0.0 && lo * d <= x < hi * d
    ensures lo <= x / d < hi
  {
    assert (x / d) * d == x;
  }

  /** For non-negative `s`, flooring `s / d` is integer division of the whole seconds. */
  lemma FloorDiv(s: real, d: int)
    requires s >= 0.0 && d > 0
    ensures (s / (d as real)).Floor == s.Floor / d
  {
    var n := s.Floor;
    var q := n / d;
    assert q * d <= n < q * d + d;
    assert (q as real) * (d as real) <= s < ((q + 1) as real) * (d as real) by {
      assert (q * d) as real == (q as real) * (d as real);
      assert ((q + 1) * d) as real == ((q + 1) as real) * (d as real);
    }
    DivBounds(s, d as real, q as real, (q + 1) as real);
  }

  /** For non-negative `s`, the JavaScript remainder by `d` is non-negative and floors to `floor(s) mod d`. */
  lemma JsRemFloor(s: real, d: int)
    requires s >= 0.0 && d > 0
    ensures JsRem(s, d as real) >= 0.0
    ensures JsRem(s, d as real).Floor == s.Floor % d
  {
    var n := s.Floor;
    FloorDiv(s, d);
    assert Trunc(s / (d as real)) == n / d;
    assert JsRem(s, d as real) == s - ((n / d) * d) as real;
  }

  /** The three fields of a non-negative time recombine into its whole seconds. */
  lemma FieldsDecompose(s: real)
    requires s >= 0.0
    ensures Hours(s) == s.Floor / 3600
    ensures Minutes(s) == (s.Floor % 3600) / 60
    ensures Seconds(s) == s.Floor % 60
    ensures 0 <= Minutes(s) < 60 && 0 <= Seconds(s) < 60
    ensures Hours(s) * 3600 + Minutes(s) * 60 + Seconds(s) == s.Floor
  {
    FloorDiv(s, 3600);
    JsRemFloor(s, 3600);
    FloorDiv(JsRem(s, 3600.0), 60);
    JsRemFloor(s, 60);
    WholeFields(s.Floor);
  }

  /** Hours, minutes within the hour and seconds within the minute recombine into `n`. */
  lemma WholeFields(n: nat)
    ensures (n % 3600) % 60 == n % 60 && 0 <= (n % 3600) / 60 < 60
    ensures (n / 3600) * 3600 + ((n % 3600) / 60) * 60 + n % 60 == n
  {
    var r := n % 3600;
    assert n == (n / 3600) * 3600 + r;
    assert r == (r / 60) * 60 + r % 60;
    assert n % 60 == r % 60 by {
      assert n == ((n / 3600) * 60 + r / 60) * 60 + r % 60;
    }
  }

  /** Two decimal digits of `k`. */
  function TwoDigits(k: nat): (r: string)
    requires k < 100
    ensures |r| == 2 && AllDigits(r) && DigitsValue(r) == k
  {
    var r := [DigitChar(k / 10), DigitChar(k % 10)];
    assert r[..1] == [r[0]] && r[..1][..0] == [];
    assert DigitsValue(r[..1]) == k / 10;
    assert DigitsValue(r) == (k / 10) * 10 + k % 10;
    r
  }

  /** The clock face of `n` whole seconds, written directly from its hours, minutes and seconds. */
  function ClockFace(n: nat): string
  {
    if n < 3600 then NatToString(n / 60) + ":" + TwoDigits(n % 60)
    else NatToString(n / 3600) + ":" + TwoDigits((n / 60) % 60) + ":" + TwoDigits(n % 60)
  }

  lemma PadTwo(k: nat)
    requires k < 100
    ensures PadStart(IntToString(k), 2, '0') == TwoDigits(k)
  {
    if k >= 10 {
      assert NatToString(k / 10) == [DigitChar(k / 10)];
    }
  }

  lemma MinutesOfHour(n: nat)
    ensures (n % 3600) / 60 == (n / 60) % 60
  {
  }

  /**
   * A finite non-negative time renders as its clock face: minutes unpadded
   * below an hour, hours then two-digit minutes from an hour on, and always
   * two-digit seconds.
   */
  lemma FormatTimeIsClockFace(s: real)
    requires s >= 0.0
    ensures FormatTime(Finite(s)) == ClockFace(s.Floor)
  {
    if s.Floor >= 3600 {
      FormatTimeIsClockFaceLong(s);
    } else {
      FormatTimeIsClockFaceShort(s);
    }
  }

  /** Under an hour: unpadded minutes and two-digit seconds. */
  lemma FormatTimeIsClockFaceShort(s: real)
    requires s >= 0.0 && s.Floor < 3600
    ensures FormatTime(Finite(s)) == ClockFace(s.Floor)
  {
    FieldsDecompose(s);
    assert Hours(s) == 0;
    ShortFaceFromFields(s.Floor, Minutes(s), Seconds(s));
  }

  /** From an hour on: hours, two-digit minutes, two-digit seconds. */
  lemma FormatTimeIsClockFaceLong(s: real)
    requires s >= 0.0 && s.Floor >= 3600
    ensures FormatTime(Finite(s)) == ClockFace(s.Floor)
  {
    FieldsDecompose(s);
    LongFaceFromFields(s.Floor, Hours(s), Minutes(s), Seconds(s));
  }

  /** The short clock face spelled with `formatTime`'s padding of its minute and second fields. */
  lemma ShortFaceFromFields(n: nat, m: int, sec: int)
    requires n < 3600 && m == (n % 3600) / 60 && sec == n % 60
    ensures ClockFace(n) == PadStart(IntToString(m), 1, '0') + ":" + PadStart(IntToString(sec), 2, '0')
  {
    var minutes, seconds := PadStart(IntToString(m), 1, '0'), PadStart(IntToString(sec), 2, '0');
    ShortMinutes(n);
    PadOne(m);
    assert minutes == NatToString(n / 60);
    PadTwo(sec);
    assert seconds == TwoDigits(n % 60);
    ShortFace(n);
  }

  /** The clock face below an hour. */
  lemma ShortFace(n: nat)
    requires n < 3600
    ensures ClockFace(n) == NatToString(n / 60) + ":" + TwoDigits(n % 60)
  {
  }

  /** Below an hour the minutes within the hour are all the minutes. */
  lemma ShortMinutes(n: nat)
    requires n < 3600
    ensures (n % 3600) / 60 == n / 60
  {
    assert n % 3600 == n;
  }

  /** Padding to width one never adds a character. */
  lemma PadOne(k: nat)
    ensures PadStart(IntToString(k), 1, '0') == NatToString(k)
  {
  }

  /** The long clock face spelled with `formatTime`'s padding of its three fields. */
  lemma LongFaceFromFields(n: nat, h: int, m: int, sec: int)
    requires n >= 3600 && h == n / 3600 && m == (n % 3600) / 60 && sec == n % 60
    ensures ClockFace(n) ==
      IntToString(h) + ":" + PadStart(IntToString(m), 2, '0') + ":" + PadStart(IntToString(sec), 2, '0')
  {
    var fm, fs := PadStart(IntToString(m), 2, '0'), PadStart(IntToString(sec), 2, '0');
    MinutesOfHour(n);
    PadTwo(m);
    assert fm == TwoDigits((n / 60) % 60);
    PadTwo(sec);
    assert fs == TwoDigits(n % 60);
    assert IntToString(h) == NatToString(n / 3600);
    LongFace(n);
  }

  /** The clock face from an hour on. */
  lemma LongFace(n: nat)
    requires n >= 3600
    ensures ClockFace(n) == NatToString(n / 3600) + ":" + TwoDigits((n / 60) % 60) + ":" + TwoDigits(n % 60)
  {
  }

  /** Reads a clock face back: `M:SS` or `H:MM:SS`, every field decimal digits. */
  function ParseClock(r: string): Option<nat>
  {
    ClockFields(Split(r, ':'))
  }

  /** The value of the colon-separated fields of a clock face. */
  function ClockFields(f: seq<string>): Option<nat>
  {
    if !AllNumeric(f) then None
    else if |f| == 2 then Some(DigitsValue(f[0]) * 60 + DigitsValue(f[1]))
    else if |f| == 3 then Some(DigitsValue(f[0]) * 3600 + DigitsValue(f[1]) * 60 + DigitsValue(f[2]))
    else None
  }

  /** Every field is a non-empty run of decimal digits. */
  predicate AllNumeric(f: seq<string>)
  {
    forall i :: 0 <= i < |f| ==> f[i] != [] && AllDigits(f[i])
  }

  lemma NoColonInDigits(s: string)
    requires AllDigits(s)
    ensures ':' !in s
  {
  }

  /** The two fields of a clock face under an hour read back as its seconds. */
  lemma ShortFieldsValue(n: nat)
    requires n < 3600
    ensures ClockFields([NatToString(n / 60), TwoDigits(n % 60)]) == Some(n)
  {
    NatToStringRoundTrip(n / 60);
    var f := [NatToString(n / 60), TwoDigits(n % 60)];
    assert AllNumeric(f);
  }

  lemma ClockFaceFieldsShort(n: nat)
    requires n < 3600
    ensures Split(ClockFace(n), ':') == [NatToString(n / 60), TwoDigits(n % 60)]
  {
    var sec := TwoDigits(n % 60);
    var m := NatToString(n / 60);
    NoColonInDigits(sec);
    NoColonInDigits(m);
    SplitField(m, ':', sec);
    assert ClockFace(n) == m + [':'] + sec;
    assert Split(sec, ':') == [sec];
  }

  lemma ClockFaceRoundTripShort(n: nat)
    requires n < 3600
    ensures ParseClock(ClockFace(n)) == Some(n)
  {
    ClockFaceFieldsShort(n);
    ShortFieldsValue(n);
  }

  lemma SplitThree(h: string, m: string, sec: string)
    requires ':' !in h && ':' !in m && ':' !in sec
    ensures Split(h + ":" + m + ":" + sec, ':') == [h, m, sec]
  {
    var tail := m + [':'] + sec;
    assert Split(tail, ':') == [m, sec] by {
      assert Split(sec, ':') == [sec];
      SplitField(m, ':', sec);
    }
    assert h + ":" + m + ":" + sec == h + [':'] + tail;
    SplitField(h, ':', tail);
  }

  lemma ClockFaceFieldsLong(n: nat)
    requires n >= 3600
    ensures Split(ClockFace(n), ':') == [NatToString(n / 3600), TwoDigits((n / 60) % 60), TwoDigits(n % 60)]
  {
    var sec := TwoDigits(n % 60);
    var h := NatToString(n / 3600);
    var m := TwoDigits((n / 60) % 60);
    NoColonInDigits(sec);
    NoColonInDigits(h);
    NoColonInDigits(m);
    SplitThree(h, m, sec);
  }

  /** Three clock fields read back as hours, minutes and seconds. */
  lemma ThreeFieldsValue(h: nat, m: nat, sec: nat)
    requires m < 100 && sec < 100
    ensures ClockFields([NatToString(h), TwoDigits(m), TwoDigits(sec)]) == Some(h * 3600 + m * 60 + sec)
  {
    NatToStringRoundTrip(h);
    var f := [NatToString(h), TwoDigits(m), TwoDigits(sec)];
    assert AllNumeric(f);
  }

  /** The three fields of a clock face from an hour on read back as its seconds. */
  lemma LongFieldsValue(n: nat)
    ensures ClockFields([NatToString(n / 3600), TwoDigits((n / 60) % 60), TwoDigits(n % 60)]) == Some(n)
  {
    ThreeFieldsValue(n / 3600, (n / 60) % 60, n % 60);
    ClockArithmetic(n);
  }

  lemma ClockFaceRoundTripLong(n: nat)
    requires n >= 3600
    ensures ParseClock(ClockFace(n)) == Some(n)
  {
    ClockFaceFieldsLong(n);
    LongFieldsValue(n);
  }

  lemma ClockArithmetic(n: nat)
    ensures (n / 3600) * 3600 + ((n / 60) % 60) * 60 + n % 60 == n
  {
    var q := n / 60;
    assert n == 60 * q + n % 60;
    assert q == 60 * (q / 60) + q % 60;
    assert n / 3600 == q / 60;
  }

  /** The clock face of `n` reads back as `n`. */
  lemma ClockFaceRoundTrip(n: nat)
    ensures ParseClock(ClockFace(n)) == Some(n)
  {
    if n < 3600 {
      ClockFaceRoundTripShort(n);
    } else {
      ClockFaceRoundTripLong(n);
    }
  }

  /** Parsing the rendering of a finite non-negative time recovers its whole seconds. */
  lemma FormatTimeRoundTrip(s: real)
    requires s >= 0.0
    ensures ParseClock(FormatTime(Finite(s))) == Some(s.Floor)
  {
    FormatTimeIsClockFace(s);
    ClockFaceRoundTrip(s.Floor);
  }

  /** A clock face ends with a colon and the two digits of the seconds. */
  lemma ClockFaceEnds(n: nat)
    ensures var r := ClockFace(n);
      |r| >= 4 && r[|r| - 3] == ':' && r[|r| - 2..] == TwoDigits(n % 60)
  {
    var p := if n < 3600 then NatToString(n / 60) else NatToString(n / 3600) + ":" + TwoDigits((n / 60) % 60);
    var r := p + ":" + TwoDigits(n % 60);
    assert ClockFace(n) == r;
    assert r[|r| - 2..] == TwoDigits(n % 60);
  }

  /** The seconds field is always the last two characters, both digits, after a colon. */
  lemma SecondsFieldTwoDigits(s: real)
    requires s >= 0.0
    ensures var r := FormatTime(Finite(s));
      |r| >= 4 && r[|r| - 3] == ':' && AllDigits(r[|r| - 2..])
      && DigitsValue(r[|r| - 2..]) == s.Floor % 60
  {
    FormatTimeIsClockFace(s);
    ClockFaceEnds(s.Floor);
  }

  /** The clock face of a concrete number of seconds, from its three fields. */
  lemma ClockFaceOf(n: nat, h: nat, m: nat, sec: nat)
    requires h == n / 3600 && m == (n / 60) % 60 && sec == n % 60
    ensures n < 3600 ==> ClockFace(n) == NatToString(n / 60) + ":" + TwoDigits(sec)
    ensures n >= 3600 ==> ClockFace(n) == NatToString(h) + ":" + TwoDigits(m) + ":" + TwoDigits(sec)
  {
  }

  lemma ClockFaceValuesLong()
    ensures ClockFace(3725) == "1:02:05" && ClockFace(4512) == "1:15:12"
  {
    ClockFaceOf(3725, 1, 2, 5);
    ClockFaceOf(4512, 1, 15, 12);
  }

  lemma ClockFaceValuesShort()
    ensures ClockFace(435) == "7:15" && ClockFace(1256) == "20:56"
    ensures ClockFace(0) == "0:00" && ClockFace(65) == "1:05"
  {
    ClockFaceOf(435, 0, 7, 15);
    ClockFaceOf(1256, 0, 20, 56);
    ClockFaceOf(0, 0, 0, 0);
    ClockFaceOf(65, 0, 1, 5);
  }

  /**
   * The fixture episode lengths and annotation times, and the documented
   * small cases.
   */
  lemma FormatTimeExamples()
    ensures FormatTime(Finite(3725.0)) == "1:02:05" && FormatTime(Finite(4512.0)) == "1:15:12"
    ensures FormatTime(Finite(435.0)) == "7:15" && FormatTime(Finite(1256.0)) == "20:56"
    ensures FormatTime(Finite(0.0)) == "0:00" && FormatTime(Finite(65.0)) == "1:05"
    ensures FormatTime(NaN) == "0:00"
  {
    ClockFaceValuesLong();
    ClockFaceValuesShort();
    FormatTimeIsClockFace(3725.0);
    FormatTimeIsClockFace(4512.0);
    FormatTimeIsClockFace(435.0);
    FormatTimeIsClockFace(1256.0);
    FormatTimeIsClockFace(0.0);
    FormatTimeIsClockFace(65.0);
  }

  /**
   * A negative input is not guarded. Above -3600 the hour is -1, so the
   * short form is used, and the minutes field is `floor(s / 60)`, which is
   * negative: the output starts with a minus sign, and the seconds field
   * keeps the sign of the JavaScript remainder.
   */
  lemma FormatTimeNegative(s: real)
    requires -3600.0 < s < 0.0
    ensures Hours(s) == -1
    ensures Minutes(s) == (s / 60.0).Floor < 0
    ensures Seconds(s) == JsRem(s, 60.0).Floor <= 0
    ensures FormatTime(Finite(s)) == IntToString(Minutes(s)) + ":" + PadStart(IntToString(Seconds(s)), 2, '0')
    ensures FormatTime(Finite(s))[0] == '-'
  {
    assert Trunc(s / 3600.0) == 0;
    assert JsRem(s, 3600.0) == s;
    var ms := IntToString(Minutes(s));
    assert |ms| >= 2;
    assert PadStart(ms, 1, '0') == ms;
  }

  /** -5 seconds, a whole negative minute, and a whole negative hour. */
  lemma FormatTimeNegativeExamples()
    ensures FormatTime(Finite(-5.0)) == "-1:-5"
    ensures FormatTime(Finite(-60.0)) == "-1:00"
    ensures FormatTime(Finite(-3600.0)) == "0:00"
  {
    FormatTimeMinusFive();
    FormatTimeMinusMinute();
    FormatTimeMinusHour();
  }

  lemma FormatTimeMinusFive()
    ensures FormatTime(Finite(-5.0)) == "-1:-5"
  {
    assert Trunc(-5.0 / 3600.0) == 0 && Trunc(-5.0 / 60.0) == 0;
    assert Hours(-5.0) == -1 && Minutes(-5.0) == -1 && Seconds(-5.0) == -5;
    assert IntToString(-1) == "-1" && IntToString(-5) == "-5";
  }

  /** A whole negative minute: the remainder is zero, so only the minutes carry a sign. */
  lemma FormatTimeMinusMinute()
    ensures FormatTime(Finite(-60.0)) == "-1:00"
  {
    assert Trunc(-60.0 / 3600.0) == 0 && Trunc(-60.0 / 60.0) == -1;
    assert Hours(-60.0) == -1 && Minutes(-60.0) == -1 && Seconds(-60.0) == 0;
    assert IntToString(-1) == "-1" && IntToString(0) == "0";
  }

  /** A whole negative hour: both remainders are zero and the hour of -1 is not shown. */
  lemma FormatTimeMinusHour()
    ensures FormatTime(Finite(-3600.0)) == "0:00"
  {
    assert Trunc(-3600.0 / 3600.0) == -1 && Trunc(-3600.0 / 60.0) == -60;
    assert Hours(-3600.0) == -1 && Minutes(-3600.0) == 0 && Seconds(-3600.0) == 0;
    assert IntToString(0) == "0";
  }
}
