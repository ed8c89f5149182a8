/** The two spellings timed_lights.py accepts for a switching time: a clock
    time `HH[:MM[:SS]]` (`_calc_time`) and a sun event with an optional
    signed offset `sunset|sunrise[(+|-)[[HH:]MM:]SS]` (`_calc_sun_time`),
    both read with an anchored regular-expression match that may leave text
    over at the end, and `_calc_seconds`. */
module TimeSyntax {
  import opened Base
  import opened Text

  /** A `(hours, minutes, seconds)` tuple. */
  datatype TimeTuple = TimeTuple(hours: int, minutes: int, seconds: int)

  /** The result of `_calc_sun_time`: the event kind (`"set"` or `"rise"`),
      the normalised offset text and the signed offset parts. */
  datatype SunTime = SunTime(kind: string, offset: string, parts: TimeTuple)

  /** The range check both parsers apply; a leap second is allowed. */
  predicate InRange(h: int, m: int, s: int)
  {
    0 <= h <= 23 && 0 <= m <= 59 && 0 <= s <= 60
  }

  /** `\d\d` matches at index `i`. */
  predicate DigitPairAt(text: string, i: nat)
  {
    i + 2 <= |text| && IsDigit(text[i]) && IsDigit(text[i + 1])
  }

  predicate ColonAt(text: string, i: nat)
  {
    i < |text| && text[i] == ':'
  }

  /** `int()` of the two digits at index `i`. */
  function PairAt(text: string, i: nat): (n: nat)
    requires DigitPairAt(text, i)
    ensures n < 100
  {
    TwoDigits(text[i], text[i + 1])
  }

  /** `_calc_time`: `(\d\d)(?::(\d\d)(?::(\d\d))?)?` matched at the start;
      missing minutes and seconds count as 0; out-of-range values give
      `None`. */
  function CalcTime(text: string): (r: Option<TimeTuple>)
    ensures r.Some? ==> InRange(r.value.hours, r.value.minutes, r.value.seconds)
    ensures r.Some? ==> DigitPairAt(text, 0) && r.value.hours == PairAt(text, 0)
  {
    if !DigitPairAt(text, 0) then None
    else
      var hasMinutes := ColonAt(text, 2) && DigitPairAt(text, 3);
      var hasSeconds := hasMinutes && ColonAt(text, 5) && DigitPairAt(text, 6);
      var h := PairAt(text, 0);
      var m := if hasMinutes then PairAt(text, 3) else 0;
      var s := if hasSeconds then PairAt(text, 6) else 0;
      if InRange(h, m, s) then Some(TimeTuple(h, m, s)) else None
  }

  /** `{:02d}:{:02d}:{:02d}` of an in-range time. */
  function FormatTime(h: nat, m: nat, s: nat): (text: string)
    requires InRange(h, m, s)
    ensures |text| == 8
  {
    Pad2(h) + ":" + Pad2(m) + ":" + Pad2(s)
  }

  /** The offset group of the sun expression, as the regular expression's
      backtracking finds it: a sign followed by `HH:MM:SS`, else by `MM:SS`,
      else by `SS`; failing all three, the whole optional group is skipped
      and there is no sign. */
  datatype Offset = NoOffset | Signed(sign: char, h: nat, m: nat, s: nat)

  /** The offset group read from `rest`, the text after `sunset` or
      `sunrise`. */
  function ParseOffset(rest: string): (o: Offset)
    ensures o.Signed? ==> |rest| > 0 && rest[0] == o.sign && (o.sign == '+' || o.sign == '-')
    ensures o.Signed? ==> o.h < 100 && o.m < 100 && o.s < 100
  {
    if |rest| > 0 && (rest[0] == '+' || rest[0] == '-') then
      if DigitPairAt(rest, 1) && ColonAt(rest, 3) && DigitPairAt(rest, 4)
         && ColonAt(rest, 6) && DigitPairAt(rest, 7) then
        Signed(rest[0], PairAt(rest, 1), PairAt(rest, 4), PairAt(rest, 7))
      else if DigitPairAt(rest, 1) && ColonAt(rest, 3) && DigitPairAt(rest, 4) then
        Signed(rest[0], 0, PairAt(rest, 1), PairAt(rest, 4))
      else if DigitPairAt(rest, 1) then
        Signed(rest[0], 0, 0, PairAt(rest, 1))
      else
        NoOffset
    else
      NoOffset
  }

  /** `sun(set|rise)` matched at the start. */
  function SunKind(text: string): (k: Option<string>)
    ensures k.Some? ==> (k.value == "set" || k.value == "rise") && StartsWith(text, "sun" + k.value)
  {
    if StartsWith(text, "sunset") then Some("set")
    else if StartsWith(text, "sunrise") then Some("rise")
    else None
  }

  /** `mult * p` for the offset's sign. */
  function Signed3(sign: char, h: int, m: int, s: int): TimeTuple
  {
    var mult := if sign == '+' then 1 else -1;
    TimeTuple(mult * h, mult * m, mult * s)
  }

  /** `_calc_sun_time`. */
  function CalcSunTime(text: string): (r: Option<SunTime>)
    ensures r.Some? ==> (r.value.kind == "set" || r.value.kind == "rise") && StartsWith(text, "sun" + r.value.kind)
    ensures r.Some? ==> r.value.offset == "00:00:00" || (|r.value.offset| == 9 && r.value.offset[0] in "+-")
  {
    match SunKind(text)
    case None => None
    case Some(kind) =>
      match ParseOffset(text[3 + |kind|..])
      case NoOffset => Some(SunTime(kind, "00:00:00", TimeTuple(0, 0, 0)))
      case Signed(sign, h, m, s) =>
        if InRange(h, m, s) then Some(SunTime(kind, [sign] + FormatTime(h, m, s), Signed3(sign, h, m, s)))
        else None
  }

  /** `_calc_seconds`. */
  function CalcSeconds(t: TimeTuple): (r: int)
    ensures InRange(t.hours, t.minutes, t.seconds) ==> 0 <= r <= 86400
  {
    t.seconds + t.minutes * 60 + t.hours * 60 * 60
  }

  /** Below the leap second, distinct in-range times are distinct numbers
      of seconds. */
  lemma CalcSecondsInjective(a: TimeTuple, b: TimeTuple)
    requires InRange(a.hours, a.minutes, a.seconds) && a.seconds < 60
    requires InRange(b.hours, b.minutes, b.seconds) && b.seconds < 60
    requires CalcSeconds(a) == CalcSeconds(b)
    ensures a == b
  {
  }

  /** Every in-range time printed as `HH:MM:SS` reads back as itself,
      whatever follows it. */
  lemma CalcTimeFormat(h: nat, m: nat, s: nat, rest: string)
    requires InRange(h, m, s)
    ensures CalcTime(FormatTime(h, m, s) + rest) == Some(TimeTuple(h, m, s))
  {
    var text := FormatTime(h, m, s) + rest;
    var ph, pm, ps := Pad2(h), Pad2(m), Pad2(s);
    assert text[0] == ph[0] && text[1] == ph[1] && text[2] == ':';
    assert text[3] == pm[0] && text[4] == pm[1] && text[5] == ':';
    assert text[6] == ps[0] && text[7] == ps[1];
  }

  /** `HH` alone, not followed by `:MM`: minutes and seconds default to 0
      and the hours are range-checked. */
  lemma CalcTimeHours(h: nat, rest: string)
    requires h < 100
    requires !(ColonAt(rest, 0) && DigitPairAt(rest, 1))
    ensures h <= 23 ==> CalcTime(Pad2(h) + rest) == Some(TimeTuple(h, 0, 0))
    ensures h > 23 ==> CalcTime(Pad2(h) + rest) == None
  {
    var text := Pad2(h) + rest;
    assert ColonAt(text, 2) == ColonAt(rest, 0);
    assert DigitPairAt(text, 3) == DigitPairAt(rest, 1);
  }

  /** `HH:MM`, not followed by `:SS`: seconds default to 0. */
  lemma CalcTimeHoursMinutes(h: nat, m: nat, rest: string)
    requires h < 100 && m < 100
    requires !(ColonAt(rest, 0) && DigitPairAt(rest, 1))
    ensures h <= 23 && m <= 59 ==> CalcTime(Pad2(h) + ":" + Pad2(m) + rest) == Some(TimeTuple(h, m, 0))
    ensures !(h <= 23 && m <= 59) ==> CalcTime(Pad2(h) + ":" + Pad2(m) + rest) == None
  {
    var ph, pm := Pad2(h), Pad2(m);
    var text := ph + ":" + pm + rest;
    assert text[0] == ph[0] && text[1] == ph[1] && text[2] == ':';
    assert text[3] == pm[0] && text[4] == pm[1];
    assert ColonAt(text, 5) == ColonAt(rest, 0);
    assert DigitPairAt(text, 6) == DigitPairAt(rest, 1);
  }

  /** `HH:MM:SS`, whatever follows: all three parts are range-checked. */
  lemma CalcTimeFull(h: nat, m: nat, s: nat, rest: string)
    requires h < 100 && m < 100 && s < 100
    ensures InRange(h, m, s) ==> CalcTime(Pad2(h) + ":" + Pad2(m) + ":" + Pad2(s) + rest) == Some(TimeTuple(h, m, s))
    ensures !InRange(h, m, s) ==> CalcTime(Pad2(h) + ":" + Pad2(m) + ":" + Pad2(s) + rest) == None
  {
    var ph, pm, ps := Pad2(h), Pad2(m), Pad2(s);
    var text := ph + ":" + pm + ":" + ps + rest;
    assert text[0] == ph[0] && text[1] == ph[1] && text[2] == ':';
    assert text[3] == pm[0] && text[4] == pm[1] && text[5] == ':';
    assert text[6] == ps[0] && text[7] == ps[1];
  }

  /** Reading a clock time normalises it: the result printed as `HH:MM:SS`
      reads back to the same tuple. */
  lemma CalcTimeNormalises(text: string)
    ensures CalcTime(text).Some? ==>
      var t := CalcTime(text).value;
      CalcTime(FormatTime(t.hours, t.minutes, t.seconds)) == Some(t)
  {
    if CalcTime(text).Some? {
      var t := CalcTime(text).value;
      CalcTimeFormat(t.hours, t.minutes, t.seconds, "");
      assert FormatTime(t.hours, t.minutes, t.seconds) + "" == FormatTime(t.hours, t.minutes, t.seconds);
    }
  }

  /** No text is both a clock time and a sun time: one starts with a digit,
      the other with `s`. */
  lemma TimeOrSun(text: string)
    ensures !(CalcTime(text).Some? && CalcSunTime(text).Some?)
  {
    if CalcSunTime(text).Some? {
      var k := CalcSunTime(text).value.kind;
      assert text[0] == ("sun" + k)[0] == 's';
    }
  }

  /** `sun` followed by a kind selects that kind. */
  lemma SunKindOf(kind: string, rest: string)
    requires kind == "set" || kind == "rise"
    ensures SunKind("sun" + kind + rest) == Some(kind)
    ensures ("sun" + kind + rest)[3 + |kind|..] == rest
  {
    var text := "sun" + kind + rest;
    assert text[..3 + |kind|] == "sun" + kind;
    if kind == "rise" {
      assert text[3] == 'r';
      assert !StartsWith(text, "sunset");
    }
  }

  /** Reading a sun time normalises it: `sun` + kind + the normalised offset
      reads back to the same result. */
  lemma CalcSunTimeNormalises(text: string)
    ensures CalcSunTime(text).Some? ==>
      var r := CalcSunTime(text).value;
      CalcSunTime("sun" + r.kind + r.offset) == Some(r)
  {
    if CalcSunTime(text).Some? {
      var r := CalcSunTime(text).value;
      SunKindOf(r.kind, r.offset);
      SunKindOf(r.kind, text[3 + |r.kind|..]);
      assert text == "sun" + r.kind + text[3 + |r.kind|..];
      match ParseOffset(text[3 + |r.kind|..]) {
        case NoOffset =>
          assert r.offset[0] == '0';
        case Signed(sign, h, m, sec) =>
          OffsetFormat(sign, h, m, sec);
      }
    }
  }

  /** A signed offset printed as `(+|-)HH:MM:SS` reads back as itself. */
  lemma OffsetFormat(sign: char, h: nat, m: nat, s: nat)
    requires sign == '+' || sign == '-'
    requires InRange(h, m, s)
    ensures ParseOffset([sign] + FormatTime(h, m, s)) == Signed(sign, h, m, s)
  {
    var o := [sign] + FormatTime(h, m, s);
    var ph, pm, ps := Pad2(h), Pad2(m), Pad2(s);
    assert o == [sign] + ph + ":" + pm + ":" + ps;
    assert o[1] == ph[0] && o[2] == ph[1] && o[3] == ':';
    assert o[4] == pm[0] && o[5] == pm[1] && o[6] == ':';
    assert o[7] == ps[0] && o[8] == ps[1];
  }

  /** `(+|-)SS`, not followed by `:SS`: the seconds alone. */
  lemma OffsetSeconds(sign: char, s: nat, rest: string)
    requires sign == '+' || sign == '-'
    requires s < 100
    requires !(ColonAt(rest, 0) && DigitPairAt(rest, 1))
    ensures ParseOffset([sign] + Pad2(s) + rest) == Signed(sign, 0, 0, s)
  {
    var ps := Pad2(s);
    var o := [sign] + ps + rest;
    assert o[0] == sign && o[1] == ps[0] && o[2] == ps[1];
    assert ColonAt(o, 3) == ColonAt(rest, 0);
    assert DigitPairAt(o, 4) == DigitPairAt(rest, 1);
  }

  /** `(+|-)MM:SS`, not followed by `:SS`: the first pair is minutes. */
  lemma OffsetMinutes(sign: char, m: nat, s: nat, rest: string)
    requires sign == '+' || sign == '-'
    requires m < 100 && s < 100
    requires !(ColonAt(rest, 0) && DigitPairAt(rest, 1))
    ensures ParseOffset([sign] + Pad2(m) + ":" + Pad2(s) + rest) == Signed(sign, 0, m, s)
  {
    var pm, ps := Pad2(m), Pad2(s);
    var o := [sign] + pm + ":" + ps + rest;
    assert o[0] == sign && o[1] == pm[0] && o[2] == pm[1] && o[3] == ':';
    assert o[4] == ps[0] && o[5] == ps[1];
    assert ColonAt(o, 6) == ColonAt(rest, 0);
    assert DigitPairAt(o, 7) == DigitPairAt(rest, 1);
  }

  /** `(+|-)HH:MM:SS`, whatever follows. */
  lemma OffsetFull(sign: char, h: nat, m: nat, s: nat, rest: string)
    requires sign == '+' || sign == '-'
    requires h < 100 && m < 100 && s < 100
    ensures ParseOffset([sign] + Pad2(h) + ":" + Pad2(m) + ":" + Pad2(s) + rest) == Signed(sign, h, m, s)
  {
    var ph, pm, ps := Pad2(h), Pad2(m), Pad2(s);
    var o := [sign] + ph + ":" + pm + ":" + ps + rest;
    assert o[0] == sign && o[1] == ph[0] && o[2] == ph[1] && o[3] == ':';
    assert o[4] == pm[0] && o[5] == pm[1] && o[6] == ':';
    assert o[7] == ps[0] && o[8] == ps[1];
  }

  /** Without a sign followed by two digits the offset group is skipped and
      the offset is zero, whatever the rest holds. */
  lemma SunNoOffset(kind: string, rest: string)
    requires kind == "set" || kind == "rise"
    requires !(|rest| > 0 && (rest[0] == '+' || rest[0] == '-') && DigitPairAt(rest, 1))
    ensures CalcSunTime("sun" + kind + rest) == Some(SunTime(kind, "00:00:00", TimeTuple(0, 0, 0)))
  {
    SunKindOf(kind, rest);
  }

  /** `sun` + kind followed by a signed offset group. */
  lemma SunSigned(kind: string, off: string)
    requires kind == "set" || kind == "rise"
    requires ParseOffset(off).Signed?
    ensures var o := ParseOffset(off);
      InRange(o.h, o.m, o.s) ==>
      CalcSunTime("sun" + kind + off) == Some(SunTime(kind, [o.sign] + FormatTime(o.h, o.m, o.s), Signed3(o.sign, o.h, o.m, o.s)))
    ensures var o := ParseOffset(off);
      !InRange(o.h, o.m, o.s) ==> CalcSunTime("sun" + kind + off) == None
  {
    SunKindOf(kind, off);
  }

  /** A seconds offset `(+|-)SS` is widened to `(+|-)00:00:SS` and signed;
      more than 60 seconds gives `None`. */
  lemma SunSeconds(kind: string, sign: char, s: nat, rest: string)
    requires kind == "set" || kind == "rise"
    requires sign == '+' || sign == '-'
    requires s < 100
    requires !(ColonAt(rest, 0) && DigitPairAt(rest, 1))
    ensures var off := [sign] + Pad2(s) + rest;
      s <= 60 ==>
      CalcSunTime("sun" + kind + off) == Some(SunTime(kind, [sign] + FormatTime(0, 0, s), Signed3(sign, 0, 0, s)))
    ensures var off := [sign] + Pad2(s) + rest;
      s > 60 ==> CalcSunTime("sun" + kind + off) == None
  {
    OffsetSeconds(sign, s, rest);
    SunSigned(kind, [sign] + Pad2(s) + rest);
  }

  /** A minutes offset `(+|-)MM:SS` is widened to `(+|-)00:MM:SS` and
      signed; out-of-range minutes or seconds give `None`. */
  lemma SunMinutesSeconds(kind: string, sign: char, m: nat, s: nat, rest: string)
    requires kind == "set" || kind == "rise"
    requires sign == '+' || sign == '-'
    requires m < 100 && s < 100
    requires !(ColonAt(rest, 0) && DigitPairAt(rest, 1))
    ensures var off := [sign] + Pad2(m) + ":" + Pad2(s) + rest;
      m <= 59 && s <= 60 ==>
      CalcSunTime("sun" + kind + off) == Some(SunTime(kind, [sign] + FormatTime(0, m, s), Signed3(sign, 0, m, s)))
    ensures var off := [sign] + Pad2(m) + ":" + Pad2(s) + rest;
      !(m <= 59 && s <= 60) ==> CalcSunTime("sun" + kind + off) == None
  {
    OffsetMinutes(sign, m, s, rest);
    SunSigned(kind, [sign] + Pad2(m) + ":" + Pad2(s) + rest);
  }

  /** A full offset `(+|-)HH:MM:SS` is kept and signed; an out-of-range
      part gives `None`. */
  lemma SunFull(kind: string, sign: char, h: nat, m: nat, s: nat, rest: string)
    requires kind == "set" || kind == "rise"
    requires sign == '+' || sign == '-'
    requires h < 100 && m < 100 && s < 100
    ensures var off := [sign] + Pad2(h) + ":" + Pad2(m) + ":" + Pad2(s) + rest;
      InRange(h, m, s) ==>
      CalcSunTime("sun" + kind + off) == Some(SunTime(kind, [sign] + FormatTime(h, m, s), Signed3(sign, h, m, s)))
    ensures var off := [sign] + Pad2(h) + ":" + Pad2(m) + ":" + Pad2(s) + rest;
      !InRange(h, m, s) ==> CalcSunTime("sun" + kind + off) == None
  {
    OffsetFull(sign, h, m, s, rest);
    SunSigned(kind, [sign] + Pad2(h) + ":" + Pad2(m) + ":" + Pad2(s) + rest);
  }

  /** A `-` offset is the `+` offset with every part negated: both parse or
      neither does, and the offsets in seconds are opposite. */
  lemma SunSignSymmetry(kind: string, rest: string)
    requires kind == "set" || kind == "rise"
    ensures CalcSunTime("sun" + kind + "+" + rest).Some? <==> CalcSunTime("sun" + kind + "-" + rest).Some?
    ensures CalcSunTime("sun" + kind + "+" + rest).Some? ==>
      CalcSeconds(CalcSunTime("sun" + kind + "-" + rest).value.parts)
      == -CalcSeconds(CalcSunTime("sun" + kind + "+" + rest).value.parts)
  {
    var plus, minus := "+" + rest, "-" + rest;
    assert "sun" + kind + "+" + rest == "sun" + kind + plus;
    assert "sun" + kind + "-" + rest == "sun" + kind + minus;
    OffsetSignFree(rest);
    if ParseOffset(plus).Signed? {
      var o := ParseOffset(plus);
      SunSigned(kind, plus);
      SunSigned(kind, minus);
      SignedSeconds(o.h, o.m, o.s);
    } else {
      SunKindOf(kind, plus);
      SunKindOf(kind, minus);
    }
  }

  /** Negating the sign negates the offset in seconds. */
  lemma SignedSeconds(h: int, m: int, s: int)
    ensures CalcSeconds(Signed3('-', h, m, s)) == -CalcSeconds(Signed3('+', h, m, s))
  {
    assert Signed3('+', h, m, s) == TimeTuple(h, m, s);
    assert Signed3('-', h, m, s) == TimeTuple(-h, -m, -s);
  }

  /** The sign does not take part in choosing the offset group's form. */
  lemma OffsetSignFree(rest: string)
    ensures ParseOffset("+" + rest).Signed? <==> ParseOffset("-" + rest).Signed?
    ensures ParseOffset("+" + rest).Signed? ==>
      ParseOffset("-" + rest) == ParseOffset("+" + rest).(sign := '-')
  {
    var plus, minus := "+" + rest, "-" + rest;
    assert forall i :: 1 <= i < |plus| ==> plus[i] == minus[i];
    assert DigitPairAt(plus, 1) == DigitPairAt(minus, 1);
    assert DigitPairAt(plus, 4) == DigitPairAt(minus, 4);
    assert DigitPairAt(plus, 7) == DigitPairAt(minus, 7);
    assert ColonAt(plus, 3) == ColonAt(minus, 3) && ColonAt(plus, 6) == ColonAt(minus, 6);
  }

  /** The parts of a sun offset share its sign, and the offset is at most
      one day (`23:59:60`) either way. */
  lemma SunOffsetBounds(text: string)
    ensures CalcSunTime(text).Some? ==>
      var r := CalcSunTime(text).value;
      && -86400 <= CalcSeconds(r.parts) <= 86400
      && (r.offset[0] == '-' ==> CalcSeconds(r.parts) <= 0)
      && (r.offset[0] != '-' ==> CalcSeconds(r.parts) >= 0)
  {
  }

  /** A minutes offset is widened to `HH:MM:SS`. */
  lemma ExampleMinutesOffset()
    ensures CalcSunTime("sunset+10:00") == Some(SunTime("set", "+00:10:00", TimeTuple(0, 10, 0)))
  {
    SunKindOf("set", "+10:00");
    assert "sunset+10:00" == "sun" + "set" + "+10:00";
    assert ParseOffset("+10:00") == Signed('+', 0, 10, 0);
    assert Pad2(0) == "00" && Pad2(10) == "10";
    assert FormatTime(0, 10, 0) == "00:10:00";
    assert ['+'] + FormatTime(0, 10, 0) == "+00:10:00";
  }

  lemma ExampleNegativeOffset()
    ensures CalcSunTime("sunset-30:00") == Some(SunTime("set", "-00:30:00", TimeTuple(0, -30, 0)))
    ensures CalcSeconds(TimeTuple(0, -30, 0)) == -1800
  {
    SunKindOf("set", "-30:00");
    assert "sunset-30:00" == "sun" + "set" + "-30:00";
    assert ParseOffset("-30:00") == Signed('-', 0, 30, 0);
    assert Pad2(0) == "00" && Pad2(30) == "30";
    assert FormatTime(0, 30, 0) == "00:30:00";
    assert ['-'] + FormatTime(0, 30, 0) == "-00:30:00";
  }

  /** A one-digit field makes the offset group fail, so the sign is ignored
      and the offset is zero. */
  lemma ExampleIgnoredOffset()
    ensures CalcSunTime("sunrise+1:00") == Some(SunTime("rise", "00:00:00", TimeTuple(0, 0, 0)))
  {
    SunKindOf("rise", "+1:00");
    assert "sunrise+1:00" == "sun" + "rise" + "+1:00";
    assert ParseOffset("+1:00") == NoOffset;
  }

  /** A clock time needs two-digit hours and is range-checked. */
  lemma ExampleClockTimes()
    ensures CalcTime("23:30") == Some(TimeTuple(23, 30, 0))
    ensures CalcTime("7:30") == None
    ensures CalcTime("24:00") == None
  {
  }
}
