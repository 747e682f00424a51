/** Canonical timestamp text: what is accepted, and that writing and reading are inverse. */
module Timestamps {
  import opened Timeline
  import opened CivilTime

  // ---------------------------------------------------------------------------
  // Digits
  // ---------------------------------------------------------------------------

  predicate IsDigit(c: char) { '0' <= c <= '9' }

  predicate AllDigits(text: string) { forall i :: 0 <= i < |text| ==> IsDigit(text[i]) }

  function DigitOf(c: char): int { c as int - '0' as int }

  function ValueOf(text: string): int
    decreases |text|
  {
    if text == "" then 0 else 10 * ValueOf(text[..|text| - 1]) + DigitOf(text[|text| - 1])
  }

  function Pow10(n: nat): nat { if n == 0 then 1 else 10 * Pow10(n - 1) }

  /** The last `width` decimal digits, with leading zeros. */
  function Padded(n: nat, width: nat): string
    decreases width
  {
    if width == 0 then "" else Padded(n / 10, width - 1) + [('0' as int + n % 10) as char]
  }

  lemma {:induction false} PaddedDigits(n: nat, width: nat)
    ensures |Padded(n, width)| == width && AllDigits(Padded(n, width))
    ensures n < Pow10(width) ==> ValueOf(Padded(n, width)) == n
    decreases width
  {
    if width > 0 {
      PaddedDigits(n / 10, width - 1);
      var text := Padded(n, width);
      assert text[..|text| - 1] == Padded(n / 10, width - 1);
    }
  }

  lemma {:induction false} ValuePadded(text: string)
    requires AllDigits(text)
    ensures 0 <= ValueOf(text) < Pow10(|text|) && Padded(ValueOf(text), |text|) == text
    decreases |text|
  {
    if text != "" {
      var init, last := text[..|text| - 1], text[|text| - 1];
      assert forall i :: 0 <= i < |init| ==> IsDigit(text[i]);
      ValuePadded(init);
      assert IsDigit(last);
      assert ValueOf(text) / 10 == ValueOf(init) && ValueOf(text) % 10 == DigitOf(last);
      assert text == init + [last];
    }
  }

  // ---------------------------------------------------------------------------
  // The written form
  // ---------------------------------------------------------------------------

  datatype Fields = Fields(year: nat, month: nat, day: nat, hour: nat, minute: nat, second: nat, fraction: string)

  /** Every field fits the width it is written in. */
  predicate Fit(f: Fields) {
    && f.year < 10000 && f.month < 100 && f.day < 100 && f.hour < 100 && f.minute < 100 && f.second < 100
    && AllDigits(f.fraction) && |f.fraction| <= 9
  }

  function DateText(f: Fields): string { Padded(f.year, 4) + "-" + Padded(f.month, 2) + "-" + Padded(f.day, 2) }

  function TimeText(f: Fields): string { Padded(f.hour, 2) + ":" + Padded(f.minute, 2) + ":" + Padded(f.second, 2) }

  function Stem(f: Fields): string { DateText(f) + "T" + TimeText(f) }

  function Tail(fraction: string): string {
    if fraction == "" then "Z" else "." + fraction + "Z"
  }

  function TextOf(f: Fields): string { Stem(f) + Tail(f.fraction) }

  predicate Punctuated(text: string)
    requires |text| >= 19
  {
    text[4] == '-' && text[7] == '-' && text[10] == 'T' && text[13] == ':' && text[16] == ':'
  }

  predicate StemDigits(text: string)
    requires |text| >= 19
  {
    && AllDigits(text[0..4]) && AllDigits(text[5..7]) && AllDigits(text[8..10])
    && AllDigits(text[11..13]) && AllDigits(text[14..16]) && AllDigits(text[17..19])
  }

  function StemFields(text: string, fraction: string): Fields
    requires |text| >= 19 && StemDigits(text)
  {
    ValuePadded(text[0..4]); ValuePadded(text[5..7]); ValuePadded(text[8..10]);
    ValuePadded(text[11..13]); ValuePadded(text[14..16]); ValuePadded(text[17..19]);
    Fields(ValueOf(text[0..4]), ValueOf(text[5..7]), ValueOf(text[8..10]),
           ValueOf(text[11..13]), ValueOf(text[14..16]), ValueOf(text[17..19]), fraction)
  }

  /** The fraction of what follows the seconds, if that is well formed. */
  function FractionOf(tail: string): Option<string> {
    if tail == "Z" then Some("")
    else if 3 <= |tail| <= 11 && tail[0] == '.' && tail[|tail| - 1] == 'Z' && AllDigits(tail[1..|tail| - 1])
    then Some(tail[1..|tail| - 1])
    else None
  }

  function FieldsOf(text: string): Option<Fields> {
    if |text| < 20 || !Punctuated(text) || !StemDigits(text) then None
    else
      match FractionOf(text[19..])
      case None => None
      case Some(fraction) => Some(StemFields(text, fraction))
  }

  lemma StemSlices(f: Fields)
    ensures var s := Stem(f);
            && |s| == 19 && Punctuated(s) && s[0..4] == Padded(f.year, 4) && s[5..7] == Padded(f.month, 2)
            && s[8..10] == Padded(f.day, 2)
            && s[11..13] == Padded(f.hour, 2) && s[14..16] == Padded(f.minute, 2) && s[17..19] == Padded(f.second, 2)
  {
    DateSlices(f);
    TimeSlices(f);
    hide DateText, TimeText, Padded;
    var s, d, t := Stem(f), DateText(f), TimeText(f);
    assert s[0..4] == d[0..4] && s[5..7] == d[5..7] && s[8..10] == d[8..10];
    assert s[11..13] == t[0..2] && s[14..16] == t[3..5] && s[17..19] == t[6..8];
  }

  lemma DateSlices(f: Fields)
    ensures var d := DateText(f);
            && |d| == 10 && d[4] == '-' && d[7] == '-'
            && d[0..4] == Padded(f.year, 4) && d[5..7] == Padded(f.month, 2) && d[8..10] == Padded(f.day, 2)
  {
    PaddedDigits(f.year, 4); PaddedDigits(f.month, 2); PaddedDigits(f.day, 2);
    hide Padded, AllDigits, ValueOf, Pow10;
  }

  lemma TimeSlices(f: Fields)
    ensures var t := TimeText(f);
            && |t| == 8 && t[2] == ':' && t[5] == ':'
            && t[0..2] == Padded(f.hour, 2) && t[3..5] == Padded(f.minute, 2) && t[6..8] == Padded(f.second, 2)
  {
    PaddedDigits(f.hour, 2); PaddedDigits(f.minute, 2); PaddedDigits(f.second, 2);
    hide Padded, AllDigits, ValueOf, Pow10;
  }

  lemma StemApart(s: string, t: string)
    requires |s| == |t| == 19 && Punctuated(s) && Punctuated(t)
    requires s[0..4] == t[0..4] && s[5..7] == t[5..7] && s[8..10] == t[8..10]
    requires s[11..13] == t[11..13] && s[14..16] == t[14..16] && s[17..19] == t[17..19]
    ensures s == t
  {
    assert s == s[0..4] + "-" + s[5..7] + "-" + s[8..10] + "T" + s[11..13] + ":" + s[14..16] + ":" + s[17..19];
    assert t == t[0..4] + "-" + t[5..7] + "-" + t[8..10] + "T" + t[11..13] + ":" + t[14..16] + ":" + t[17..19];
  }

  lemma TailExact(tail: string, fraction: string)
    ensures FractionOf(tail) == Some(fraction) <==> AllDigits(fraction) && |fraction| <= 9 && tail == Tail(fraction)
  {
    if tail == Tail(fraction) && fraction != "" {
      assert tail[1..|tail| - 1] == fraction;
    }
  }

  lemma Widths()
    ensures Pow10(2) == 100 && Pow10(4) == 10000
  {
    assert Pow10(4) == 10 * Pow10(3);
  }

  lemma StemValues(s: string, fraction: string)
    requires |s| == 19 && Punctuated(s) && StemDigits(s)
    ensures Stem(StemFields(s, fraction)) == s
    ensures AllDigits(fraction) && |fraction| <= 9 ==> Fit(StemFields(s, fraction))
  {
    var f := StemFields(s, fraction);
    Widths();
    ValuePadded(s[0..4]); ValuePadded(s[5..7]); ValuePadded(s[8..10]);
    ValuePadded(s[11..13]); ValuePadded(s[14..16]); ValuePadded(s[17..19]);
    StemSlices(f);
    hide Padded, AllDigits, ValueOf, Pow10, Stem;
    StemApart(Stem(f), s);
  }

  lemma StemReadBack(f: Fields)
    requires Fit(f)
    ensures |Stem(f)| == 19 && Punctuated(Stem(f)) && StemDigits(Stem(f)) && StemFields(Stem(f), f.fraction) == f
  {
    Widths();
    StemSlices(f);
    PaddedDigits(f.year, 4); PaddedDigits(f.month, 2); PaddedDigits(f.day, 2);
    PaddedDigits(f.hour, 2); PaddedDigits(f.minute, 2); PaddedDigits(f.second, 2);
    hide Padded, AllDigits, ValueOf, Pow10, Stem;
  }

  lemma StemLocal(text: string, fraction: string)
    requires |text| >= 19
    ensures Punctuated(text) == Punctuated(text[..19]) && StemDigits(text) == StemDigits(text[..19])
    ensures StemDigits(text) ==> StemFields(text, fraction) == StemFields(text[..19], fraction)
  {
    var s := text[..19];
    assert text[0..4] == s[0..4] && text[5..7] == s[5..7] && text[8..10] == s[8..10];
    assert text[11..13] == s[11..13] && text[14..16] == s[14..16] && text[17..19] == s[17..19];
    hide AllDigits, ValueOf;
  }

  /** Reading and writing the fields are inverse, both ways. */
  lemma FieldsExact(text: string, f: Fields)
    ensures FieldsOf(text) == Some(f) <==> Fit(f) && text == TextOf(f)
  {
    if FieldsOf(text) == Some(f) {
      TailExact(text[19..], f.fraction);
      StemLocal(text, f.fraction);
      hide AllDigits, ValueOf, FractionOf, Stem, Tail, StemDigits, Punctuated, StemFields;
      StemValues(text[..19], f.fraction);
      assert text == text[..19] + text[19..];
    }
    if Fit(f) && text == TextOf(f) {
      StemReadBack(f);
      assert text[..19] == Stem(f) && text[19..] == Tail(f.fraction);
      TailExact(text[19..], f.fraction);
      StemLocal(text, f.fraction);
      hide AllDigits, ValueOf, FractionOf, Stem, StemDigits, Punctuated, StemFields;
    }
  }

  // ---------------------------------------------------------------------------
  // The instant that is meant
  // ---------------------------------------------------------------------------

  /** The fields name a day and a time of day that exist. */
  predicate Meaningful(f: Fields) {
    && ValidDate(CivilDate(f.year, f.month, f.day))
    && f.hour <= 23 && f.minute <= 59 && f.second <= 59
  }

  function SecondsOf(f: Fields): int {
    DaysFromCivil(CivilDate(f.year, f.month, f.day)) * 86400 + f.hour * 3600 + f.minute * 60 + f.second
  }

  function FractionNs(fraction: string): int
    requires |fraction| <= 9
  {
    ValueOf(fraction) * Pow10(9 - |fraction|)
  }

  function InstantOf(f: Fields): int
    requires |f.fraction| <= 9
  {
    SecondsOf(f) * NS_PER_SECOND + FractionNs(f.fraction)
  }

  datatype Parsed = Instant(ns: int) | Malformed | Overflow

  /** What a text means: the instant its fields name, if they name one on the timeline. */
  function Meaning(text: string): Parsed {
    match FieldsOf(text)
    case None => Malformed
    case Some(f) =>
      if !Meaningful(f) || SecondsOf(f) < 0 then Malformed
      else if InstantOf(f) > MAX_TIMESTAMP_NS then Overflow
      else Instant(InstantOf(f))
  }

  lemma FieldsFit(text: string)
    ensures FieldsOf(text).Some? ==> Fit(FieldsOf(text).value)
  {
    if FieldsOf(text).Some? { FieldsExact(text, FieldsOf(text).value); }
  }

  /** The fields an instant is written with. */
  function WrittenFields(ns: nat): Fields {
    var seconds := ns / NS_PER_SECOND;
    var date := CivilFromDays(seconds / 86400);
    var s := seconds % 86400;
    Fields(if date.year < 0 then 0 else date.year, if date.month < 0 then 0 else date.month, if date.day < 0 then 0
           else date.day,
           s / 3600, s % 3600 / 60, s % 60, Padded(ns % NS_PER_SECOND, 9))
  }

  function Format(ns: int): string {
    if ns < 0 then "<invalid>" else TextOf(WrittenFields(ns))
  }

  lemma NanoDigits(ns: nat)
    ensures var text := Padded(ns % NS_PER_SECOND, 9);
            AllDigits(text) && |text| == 9 && FractionNs(text) == ns % NS_PER_SECOND
  {
    assert Pow10(9) == NS_PER_SECOND by {
      assert Pow10(5) == 100_000;
      assert Pow10(9) == 10_000 * Pow10(5);
    }
    PaddedDigits(ns % NS_PER_SECOND, 9);
    hide Padded, ValueOf, AllDigits;
  }

  /** On the timeline the year has four digits. */
  lemma YearFits(days: int)
    requires 0 <= days <= 47482
    ensures 1970 <= CivilFromDays(days).year < 10000
  {
    var c := CivilFromDays(days);
    DayRoundTrip(days);
    var s := DayShifted(days);
    CivilOf(s);
    EraBounds(s, days);
  }

  lemma EraBounds(s: Shifted, days: int)
    requires InEra(s) && DayOf(s) == days && 0 <= days <= 47482
    ensures 1969 <= s.year + s.era * 400 < 9000
    ensures s.year + s.era * 400 == 1969 ==> s.day >= 306
  {
    assert 0 <= YearStart(s.year) + s.day <= 146097;
    assert 4 <= s.era <= 5;
  }

  lemma WrittenMeans(ns: int)
    requires 0 <= ns <= MAX_TIMESTAMP_NS
    ensures var f := WrittenFields(ns); Fit(f) && Meaningful(f) && InstantOf(f) == ns && SecondsOf(f) >= 0
  {
    var seconds := ns / NS_PER_SECOND;
    var days := seconds / 86400;
    InstantParts(ns);
    NanoDigits(ns);
    DayRoundTrip(days);
    YearFits(days);
    ShortMonths(CivilFromDays(days));
    ClockParts(seconds % 86400);
    hide DaysFromCivil, CivilFromDays, Padded, AllDigits, FractionNs, ValidDate;
    var f := WrittenFields(ns);
    assert CivilDate(f.year, f.month, f.day) == CivilFromDays(days);
    assert SecondsOf(f) == days * 86400 + seconds % 86400;
  }

  lemma InstantParts(ns: int)
    requires 0 <= ns <= MAX_TIMESTAMP_NS
    ensures var seconds := ns / NS_PER_SECOND;
            && ns == seconds * NS_PER_SECOND + ns % NS_PER_SECOND && 0 <= seconds
            && seconds == seconds / 86400 * 86400 + seconds % 86400 && 0 <= seconds / 86400 <= 47482
  {
  }

  /** Hours, minutes and seconds of a second of the day. */
  lemma ClockParts(s: int)
    requires 0 <= s < 86400
    ensures 0 <= s / 3600 <= 23 && 0 <= s % 3600 / 60 <= 59 && 0 <= s % 60 <= 59
    ensures s / 3600 * 3600 + s % 3600 / 60 * 60 + s % 60 == s
  {
  }

  lemma ClockReadBack(h: int, m: int, s: int)
    requires 0 <= h <= 23 && 0 <= m <= 59 && 0 <= s <= 59
    ensures var t := h * 3600 + m * 60 + s; 0 <= t < 86400 && t / 3600 == h && t % 3600 / 60 == m && t % 60 == s
  {
    var t := h * 3600 + m * 60 + s;
    QuotientIs(t, 3600, h, m * 60 + s);
    QuotientIs(m * 60 + s, 60, m, s);
    QuotientIs(t, 60, h * 60 + m, s);
  }

  lemma ShortMonths(c: CivilDate)
    requires ValidDate(c)
    ensures c.month <= 12 && c.day <= 31
  {
  }

  /** Every instant of the timeline is read back from its text. */
  lemma FormatThenParse(ns: int)
    requires 0 <= ns <= MAX_TIMESTAMP_NS
    ensures Meaning(Format(ns)) == Instant(ns)
  {
    var f := WrittenFields(ns);
    WrittenMeans(ns);
    hide Fit, Meaningful, WrittenFields, TextOf, FieldsOf, SecondsOf;
    FieldsExact(TextOf(f), f);
  }

  /** A text with nine fraction digits that means an instant is the one text written for it. */
  lemma ParseThenFormat(text: string)
    requires Meaning(text).Instant? && |text| == 30
    ensures Format(Meaning(text).ns) == text
  {
    var f := FieldsOf(text).value;
    var ns := Meaning(text).ns;
    FieldsExact(text, f);
    FieldsFit(text);
    StemSlices(f);
    assert |f.fraction| == 9;
    hide FieldsOf, TextOf;
    SameInstant(f, ns);
  }

  lemma SameInstant(f: Fields, ns: int)
    requires Fit(f) && Meaningful(f) && |f.fraction| == 9 && InstantOf(f) == ns && SecondsOf(f) >= 0
    ensures ns >= 0 && WrittenFields(ns) == f
  {
    var c := CivilDate(f.year, f.month, f.day);
    NanosOf(f.fraction);
    DateRoundTrip(c);
    var n, s := ValueOf(f.fraction), SecondsOf(f);
    hide CivilFromDays, DaysFromCivil, Padded, AllDigits, ValueOf, IsLeap, FractionNs, WrittenFields;
    var clock := f.hour * 3600 + f.minute * 60 + f.second;
    ClockReadBack(f.hour, f.minute, f.second);
    QuotientIs(ns, NS_PER_SECOND, s, n);
    QuotientIs(s, 86400, DaysFromCivil(c), clock);
    hide InstantOf, SecondsOf, ValidDate;
    WrittenIs(ns, c, clock);
  }

  lemma WrittenIs(ns: nat, c: CivilDate, clock: int)
    requires CivilFromDays(ns / NS_PER_SECOND / 86400) == c && c.year >= 0 && c.month >= 0 && c.day >= 0
    requires ns / NS_PER_SECOND % 86400 == clock
    ensures WrittenFields(ns) == Fields(c.year, c.month, c.day, clock / 3600, clock % 3600 / 60, clock % 60,
                                        Padded(ns % NS_PER_SECOND, 9))
  {
    hide CivilFromDays, Padded;
  }

  lemma NanosOf(fraction: string)
    requires AllDigits(fraction) && |fraction| == 9
    ensures FractionNs(fraction) == ValueOf(fraction) && 0 <= ValueOf(fraction) < NS_PER_SECOND
    ensures Padded(ValueOf(fraction), 9) == fraction
  {
    ValuePadded(fraction);
    assert Pow10(9) == NS_PER_SECOND by {
      assert Pow10(5) == 100_000;
      assert Pow10(9) == 10_000 * Pow10(5);
    }
    assert Pow10(0) == 1;
    hide ValueOf, Padded;
  }

  // ---------------------------------------------------------------------------
  // The parser
  // ---------------------------------------------------------------------------

  method ParseFixedDigits(text: string, offset: nat, count: nat) returns (value: Option<nat>)
    ensures value == if offset + count <= |text| && AllDigits(text[offset..offset + count])
                     then (ValuePadded(text[offset..offset + count]); Some(ValueOf(text[offset..offset + count])))
                         else None
  {
    if offset + count > |text| { return None; }
    var v, i := 0, 0;
    while i < count
      invariant i <= count && AllDigits(text[offset..offset + i]) && v == ValueOf(text[offset..offset + i]) && v >= 0
    {
      if !IsDigit(text[offset + i]) {
        assert text[offset..offset + count][i] == text[offset + i];
        return None;
      }
      assert text[offset..offset + i + 1] == text[offset..offset + i] + [text[offset + i]];
      v := v * 10 + DigitOf(text[offset + i]);
      i := i + 1;
    }
    return Some(v);
  }

  /**
   Where the fraction ends and what it is worth in nanoseconds; `None` for one without digits or with more than nine.
   */
  method ParseFraction(text: string) returns (end: nat, nanos: Option<int>)
    requires |text| >= 20
    ensures 19 <= end <= |text|
    ensures nanos.Some? ==> (end == |text| - 1 && text[end] == 'Z' <==> FractionOf(text[19..]).Some?)
    ensures nanos.Some? && FractionOf(text[19..]).Some? ==>
      |FractionOf(text[19..]).value| <= 9 && nanos.value == FractionNs(FractionOf(text[19..]).value)
    ensures nanos.None? ==> FractionOf(text[19..]).None?
  {
    var cursor := 19;
    if text[19] != '.' {
      WithoutFraction(text);
      return 19, Some(0);
    }
    cursor := 20;
    var value := 0;
    while cursor < |text| && IsDigit(text[cursor])
      invariant 20 <= cursor <= |text| && cursor - 20 <= 9
      invariant AllDigits(text[20..cursor]) && value == ValueOf(text[20..cursor])
    {
      if cursor - 20 >= 9 {
        TooManyDigits(text, cursor);
        return cursor, None;
      }
      assert text[20..cursor + 1] == text[20..cursor] + [text[cursor]];
      value := value * 10 + DigitOf(text[cursor]);
      cursor := cursor + 1;
    }
    FractionEnds(text, cursor);
    if cursor == 20 { return cursor, None; }
    var i := cursor - 20;
    ghost var digits := i;
    assert value == ValueOf(text[20..cursor]) * Pow10(0);
    while i < 9
      invariant digits <= i <= 9 && value == ValueOf(text[20..cursor]) * Pow10(i - digits)
    {
      TenTimes(ValueOf(text[20..cursor]), i - digits);
      value := value * 10;
      i := i + 1;
    }
    return cursor, Some(value);
  }

  lemma TenTimes(v: int, n: nat)
    ensures v * Pow10(n) * 10 == v * Pow10(n + 1)
  {
  }

  lemma WithoutFraction(text: string)
    requires |text| >= 20 && text[19] != '.'
    ensures FractionOf(text[19..]).Some? <==> |text| == 20 && text[19] == 'Z'
    ensures FractionOf(text[19..]).Some? ==> FractionOf(text[19..]).value == "" && FractionNs("") == 0
  {
    assert text[19..][0] == text[19];
  }

  lemma TooManyDigits(text: string, cursor: nat)
    requires |text| >= 20 && text[19] == '.' && cursor == 29 < |text| && AllDigits(text[20..29]) && IsDigit(text[29])
    ensures FractionOf(text[19..]).None?
  {
    var tail := text[19..];
    assert tail[10] == text[29];
    forall i | 1 <= i <= 10 ensures IsDigit(tail[i]) {
      if i < 10 { assert tail[i] == text[20..29][i - 1]; }
    }
  }

  lemma FractionEnds(text: string, cursor: nat)
    requires |text| >= 20 && text[19] == '.' && 20 <= cursor <= |text| && cursor <= 29
    requires AllDigits(text[20..cursor]) && (cursor < |text| ==> !IsDigit(text[cursor]))
    ensures FractionOf(text[19..]).Some? <==> cursor > 20 && cursor == |text| - 1 && text[cursor] == 'Z'
    ensures FractionOf(text[19..]).Some? ==> FractionOf(text[19..]).value == text[20..cursor]
  {
    var tail := text[19..];
    assert tail[0] == '.' && (cursor < |text| ==> tail[cursor - 19] == text[cursor]);
    forall i | 1 <= i < cursor - 19 ensures IsDigit(tail[i]) {
      assert tail[i] == text[20..cursor][i - 1];
    }
    if FractionOf(tail).Some? {
      DigitsWithin(tail);
      assert |tail| - 1 == cursor - 19;
    }
    if cursor == |text| - 1 { assert tail[1..|tail| - 1] == text[20..cursor]; }
  }

  lemma DigitsWithin(tail: string)
    requires |tail| >= 3 && AllDigits(tail[1..|tail| - 1])
    ensures forall i :: 1 <= i < |tail| - 1 ==> IsDigit(tail[i])
  {
    forall i | 1 <= i < |tail| - 1 ensures IsDigit(tail[i]) {
      assert tail[i] == tail[1..|tail| - 1][i - 1];
    }
  }

  /** Strict reading of the canonical form. */
  method ParseTimestamp(text: string) returns (parsed: Parsed)
    ensures parsed == Meaning(text)
  {
    hide AllDigits, ValueOf, FractionOf, DaysFromCivil, DaysInMonth, FractionNs, IsLeap;
    if |text| < 20 { return Malformed; }
    if !(text[4] == '-' && text[7] == '-' && text[10] == 'T' && text[13] == ':' && text[16] == ':') {
      return Malformed;
    }
    var year := ParseFixedDigits(text, 0, 4);
    var month := ParseFixedDigits(text, 5, 2);
    var day := ParseFixedDigits(text, 8, 2);
    var hour := ParseFixedDigits(text, 11, 2);
    var minute := ParseFixedDigits(text, 14, 2);
    var second := ParseFixedDigits(text, 17, 2);
    if year.None? || month.None? || day.None? || hour.None? || minute.None? || second.None? { return Malformed; }
    var end, nanos := ParseFraction(text);
    if nanos.None? { return Malformed; }
    if end >= |text| || text[end] != 'Z' || end + 1 != |text| { return Malformed; }
    FieldsFit(text);
    ghost var f := FieldsOf(text).value;
    assert f == Fields(year.value, month.value, day.value, hour.value, minute.value, second.value, f.fraction);
    if month.value < 1 || month.value > 12 { return Malformed; }
    if day.value < 1 || day.value > DaysInMonth(year.value, month.value) { return Malformed; }
    if hour.value > 23 || minute.value > 59 || second.value > 59 { return Malformed; }
    var days := DaysFromCivil(CivilDate(year.value, month.value, day.value));
    var seconds := days * 86400 + hour.value * 3600 + minute.value * 60 + second.value;
    if seconds < 0 { return Malformed; }
    var total := seconds * NS_PER_SECOND + nanos.value;
    if total > MAX_TIMESTAMP_NS { return Overflow; }
    return Instant(total);
  }
}
