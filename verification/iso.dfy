/** Python's `datetime.isoformat()` and `datetime.fromisoformat()` for naive
    datetimes, and `str.strip()`, as the lock file's text format needs them. */
module Iso {
  import opened Wrappers
  import opened Timestamps

  function Pow10(w: nat): (p: nat)
    ensures p >= 1
  {
    if w == 0 then 1 else 10 * Pow10(w - 1)
  }

  predicate IsDigit(c: char) {
    '0' <= c <= '9'
  }

  predicate AllDigits(s: string) {
    forall i :: 0 <= i < |s| ==> IsDigit(s[i])
  }

  function DigitChar(d: nat): (c: char)
    requires d < 10
    ensures IsDigit(c)
  {
    ('0' as int + d) as char
  }

  /** `n` zero-padded to exactly `w` decimal digits, as `%0wd` prints it. */
  function Digits(n: nat, w: nat): (s: string)
    requires n < Pow10(w)
    ensures |s| == w
    ensures AllDigits(s)
  {
    if w == 0 then "" else Digits(n / 10, w - 1) + [DigitChar(n % 10)]
  }

  /** The number an all-digit string spells. */
  function DigitsValue(s: string): (n: nat)
    requires AllDigits(s)
    ensures n < Pow10(|s|)
  {
    if s == [] then 0
    else 10 * DigitsValue(s[..|s| - 1]) + (s[|s| - 1] as int - '0' as int)
  }

  /** A fixed-width numeric field: only ASCII digits are accepted. */
  function ParseField(s: string): (r: Option<nat>)
    ensures r.Some? <==> AllDigits(s)
  {
    if AllDigits(s) then Some(DigitsValue(s)) else None
  }

  lemma {:induction false} DigitsRoundTrip(n: nat, w: nat)
    requires n < Pow10(w)
    ensures ParseField(Digits(n, w)) == Some(n)
  {
    if w > 0 {
      var s := Digits(n, w);
      DigitsRoundTrip(n / 10, w - 1);
      assert s[..|s| - 1] == Digits(n / 10, w - 1);
    }
  }

  /** `date.isoformat()`: YYYY-MM-DD. */
  function DateText(t: Timestamp): (s: string)
    ensures |s| == 10
  {
    Digits(t.year, 4) + "-" + Digits(t.month, 2) + "-" + Digits(t.day, 2)
  }

  /** HH:MM:SS, the clock part of `datetime.isoformat()`. */
  function ClockText(t: Timestamp): (s: string)
    ensures |s| == 8
  {
    Digits(t.hour, 2) + ":" + Digits(t.minute, 2) + ":" + Digits(t.second, 2)
  }

  /** `datetime.isoformat()` with the default separator 'T': the
      microseconds appear, as six digits, only when they are not zero. */
  function Format(t: Timestamp): (s: string)
    ensures |s| == if t.micro == 0 then 19 else 26
    ensures IsDigit(s[0]) && IsDigit(s[|s| - 1])
  {
    DateText(t) + "T" + ClockText(t)
      + (if t.micro == 0 then "" else "." + Digits(t.micro, 6))
  }

  /** The datetime with the given fields, or None where `datetime(...)`
      raises ValueError. */
  function Build(year: int, month: int, day: int, hour: int, minute: int,
                 second: int, micro: int): (r: Option<Timestamp>)
    ensures r.Some? ==> r.value == DateTime(year, month, day, hour, minute, second, micro)
    ensures r.None? ==> !Valid(DateTime(year, month, day, hour, minute, second, micro))
  {
    var d := DateTime(year, month, day, hour, minute, second, micro);
    if Valid(d) then Some(d) else None
  }

  /** The fields of YYYY-MM-DD. */
  datatype DateFields = DateFields(year: nat, month: nat, day: nat)

  function ParseDate(s: string): (r: Option<DateFields>)
    requires |s| == 10
  {
    var y := ParseField(s[..4]);
    var m := ParseField(s[5..7]);
    var d := ParseField(s[8..10]);
    if s[4] == '-' && s[7] == '-' && y.Some? && m.Some? && d.Some?
    then Some(DateFields(y.value, m.value, d.value))
    else None
  }

  /** The fields of a time text: HH, HH:MM or HH:MM:SS, the absent ones zero. */
  datatype ClockFields = ClockFields(hour: nat, minute: nat, second: nat)

  function ParseClock(s: string): (r: Option<ClockFields>)
  {
    if |s| == 2 then
      var h := ParseField(s);
      if h.Some? then Some(ClockFields(h.value, 0, 0)) else None
    else if |s| == 5 then
      var h := ParseField(s[..2]);
      var m := ParseField(s[3..]);
      if s[2] == ':' && h.Some? && m.Some? then Some(ClockFields(h.value, m.value, 0)) else None
    else if |s| == 8 then
      var h := ParseField(s[..2]);
      var m := ParseField(s[3..5]);
      var c := ParseField(s[6..]);
      if s[2] == ':' && s[5] == ':' && h.Some? && m.Some? && c.Some?
      then Some(ClockFields(h.value, m.value, c.value))
      else None
    else None
  }

  /** The fraction after SS: three digits are milliseconds, six microseconds. */
  function ParseFraction(s: string): (r: Option<nat>)
    ensures r.Some? ==> r.value < 1000000
  {
    if |s| == 3 then
      var f := ParseField(s);
      if f.Some? then Some(f.value * 1000) else None
    else if |s| == 6 then
      var f := ParseField(s);
      if f.Some? then Some(f.value) else None
    else None
  }

  /** A clock and the fraction after its '.', read together. */
  function WithFraction(clock: string, fraction: string): (r: Option<(ClockFields, nat)>)
    ensures r.Some? <==> ParseClock(clock).Some? && ParseFraction(fraction).Some?
  {
    var c := ParseClock(clock);
    var f := ParseFraction(fraction);
    if c.Some? && f.Some? then Some((c.value, f.value)) else None
  }

  /** The time part after the separator: `HH`, `HH:MM` or `HH:MM:SS`. A '.'
      after any of these fields starts a fraction that runs to the end of
      the text; after the seconds a ':' starts one too, since CPython's
      parser then leaves its field loop whichever separator it read. */
  function ParseTime(s: string): (r: Option<(ClockFields, nat)>)
  {
    if |s| > 2 && s[2] == '.' then WithFraction(s[..2], s[3..])
    else if |s| > 5 && s[5] == '.' then WithFraction(s[..5], s[6..])
    else if |s| > 8 && (s[8] == '.' || s[8] == ':') then WithFraction(s[..8], s[9..])
    else
      var c := ParseClock(s);
      if c.Some? then Some((c.value, 0)) else None
  }

  /** `datetime.fromisoformat(s)` for naive datetimes, None where it raises.
      After the ten-character date any single character separates the time. */
  function Parse(s: string): (r: Option<Timestamp>)
    ensures r.Some? ==> |s| >= 10 && AllDigits(s[..4])
  {
    if |s| < 10 then None
    else
      var d := ParseDate(s[..10]);
      if d.None? then None
      else if |s| == 10 then Build(d.value.year, d.value.month, d.value.day, 0, 0, 0, 0)
      else
        var t := ParseTime(s[11..]);
        if t.None? then None
        else
          var (c, f) := t.value;
          Build(d.value.year, d.value.month, d.value.day, c.hour, c.minute, c.second, f)
  }

  /** A fraction may follow the hour: "HH.fff" is read. */
  lemma FractionAfterHour(clock: string, fraction: string)
    requires |clock| == 2 && ParseClock(clock).Some? && ParseFraction(fraction).Some?
    ensures ParseTime(clock + "." + fraction) == Some((ParseClock(clock).value, ParseFraction(fraction).value))
  {
    var s := clock + "." + fraction;
    assert s[..2] == clock && s[3..] == fraction;
  }

  /** A fraction may follow the minute: "HH:MM.fff" is read. */
  lemma FractionAfterMinute(clock: string, fraction: string)
    requires |clock| == 5 && ParseClock(clock).Some? && ParseFraction(fraction).Some?
    ensures ParseTime(clock + "." + fraction) == Some((ParseClock(clock).value, ParseFraction(fraction).value))
  {
    var s := clock + "." + fraction;
    assert s[2] == clock[2] == ':';
    assert s[..5] == clock && s[6..] == fraction;
  }

  lemma DateTextParses(t: Timestamp)
    ensures ParseDate(DateText(t)) == Some(DateFields(t.year, t.month, t.day))
  {
    var s := DateText(t);
    assert s[..4] == Digits(t.year, 4);
    assert s[5..7] == Digits(t.month, 2);
    assert s[8..10] == Digits(t.day, 2);
    DigitsRoundTrip(t.year, 4);
    DigitsRoundTrip(t.month, 2);
    DigitsRoundTrip(t.day, 2);
  }

  lemma ClockTextParses(t: Timestamp)
    ensures ParseClock(ClockText(t)) == Some(ClockFields(t.hour, t.minute, t.second))
  {
    var s := ClockText(t);
    assert s[..2] == Digits(t.hour, 2);
    assert s[3..5] == Digits(t.minute, 2);
    assert s[6..] == Digits(t.second, 2);
    DigitsRoundTrip(t.hour, 2);
    DigitsRoundTrip(t.minute, 2);
    DigitsRoundTrip(t.second, 2);
  }

  /** The time part of `isoformat()` without microseconds reads back. */
  lemma WholeSecondsParse(t: Timestamp)
    requires t.micro == 0
    ensures ParseTime(ClockText(t)) == Some((ClockFields(t.hour, t.minute, t.second), 0))
  {
    var rest := ClockText(t);
    assert rest[2] == ':' && rest[5] == ':';
    ClockTextParses(t);
  }

  /** The time part of `isoformat()` with microseconds reads back. */
  lemma MicrosecondsParse(t: Timestamp)
    requires t.micro != 0
    ensures ParseTime(ClockText(t) + "." + Digits(t.micro, 6))
            == Some((ClockFields(t.hour, t.minute, t.second), t.micro))
  {
    var rest := ClockText(t) + "." + Digits(t.micro, 6);
    assert rest[2] == ':' && rest[5] == ':' && rest[8] == '.';
    assert rest[..8] == ClockText(t);
    assert rest[9..] == Digits(t.micro, 6);
    ClockTextParses(t);
    DigitsRoundTrip(t.micro, 6);
  }

  /** What `isoformat()` writes, `fromisoformat()` reads back unchanged. */
  lemma {:induction false} FormatParseRoundTrip(t: Timestamp)
    ensures Parse(Format(t)) == Some(t)
  {
    var s := Format(t);
    assert s[..10] == DateText(t);
    DateTextParses(t);
    if t.micro == 0 {
      assert s[11..] == ClockText(t);
      WholeSecondsParse(t);
    } else {
      assert s[11..] == ClockText(t) + "." + Digits(t.micro, 6);
      MicrosecondsParse(t);
    }
  }

  /** Distinct timestamps are written as distinct texts. */
  lemma FormatInjective(a: Timestamp, b: Timestamp)
    requires Format(a) == Format(b)
    ensures a == b
  {
    FormatParseRoundTrip(a);
    FormatParseRoundTrip(b);
  }

  /** An all-digit field is the zero-padded spelling of its own value. */
  lemma {:induction false} ValueDigitsRoundTrip(s: string)
    requires AllDigits(s)
    ensures DigitsValue(s) < Pow10(|s|)
    ensures Digits(DigitsValue(s), |s|) == s
  {
    if s != [] {
      var init := s[..|s| - 1];
      ValueDigitsRoundTrip(init);
      var n := DigitsValue(s);
      assert n / 10 == DigitsValue(init);
      assert DigitChar(n % 10) == s[|s| - 1];
      assert s == init + [s[|s| - 1]];
    }
  }

  lemma DateTextOfParse(s: string, t: Timestamp)
    requires |s| == 10 && ParseDate(s) == Some(DateFields(t.year, t.month, t.day))
    ensures DateText(t) == s
  {
    assert s[4] == '-' && s[7] == '-';
    assert AllDigits(s[..4]) && t.year == DigitsValue(s[..4]);
    assert AllDigits(s[5..7]) && t.month == DigitsValue(s[5..7]);
    assert AllDigits(s[8..10]) && t.day == DigitsValue(s[8..10]);
    ValueDigitsRoundTrip(s[..4]);
    ValueDigitsRoundTrip(s[5..7]);
    ValueDigitsRoundTrip(s[8..10]);
    assert s == s[..4] + "-" + s[5..7] + "-" + s[8..10];
  }

  lemma ClockTextOfParse(s: string, t: Timestamp)
    requires |s| == 8 && ParseClock(s) == Some(ClockFields(t.hour, t.minute, t.second))
    ensures ClockText(t) == s
  {
    assert s[2] == ':' && s[5] == ':';
    assert AllDigits(s[..2]) && t.hour == DigitsValue(s[..2]);
    assert AllDigits(s[3..5]) && t.minute == DigitsValue(s[3..5]);
    assert AllDigits(s[6..]) && t.second == DigitsValue(s[6..]);
    ValueDigitsRoundTrip(s[..2]);
    ValueDigitsRoundTrip(s[3..5]);
    ValueDigitsRoundTrip(s[6..]);
    assert s == s[..2] + ":" + s[3..5] + ":" + s[6..];
  }

  /** The spellings `isoformat()` itself produces: separator 'T', seconds
      always, and six fraction digits only when they are not all zero. */
  predicate Canonical(s: string) {
    && |s| >= 19 && s[10] == 'T'
    && (|s| == 19 || (|s| == 26 && s[19] == '.' && ParseField(s[20..]) != Some(0)))
  }

  /** Every text `isoformat()` writes is canonical. */
  lemma FormatIsCanonical(t: Timestamp)
    ensures Canonical(Format(t))
  {
    var s := Format(t);
    assert s[10] == 'T';
    if t.micro != 0 {
      assert s[19] == '.';
      assert s[20..] == Digits(t.micro, 6);
      DigitsRoundTrip(t.micro, 6);
    }
  }

  /** What `Parse` makes of a text with a time part. */
  lemma ParseParts(s: string)
    requires |s| > 11 && Parse(s).Some?
    ensures ParseDate(s[..10]).Some? && ParseTime(s[11..]).Some?
    ensures var d := ParseDate(s[..10]).value;
            var (c, f) := ParseTime(s[11..]).value;
            Parse(s).value == DateTime(d.year, d.month, d.day, c.hour, c.minute, c.second, f)
  {
  }

  /** An eight-character time part that parses is a full clock without fraction. */
  lemma FullClockOnly(rest: string)
    requires |rest| == 8 && ParseTime(rest).Some?
    ensures ParseClock(rest).Some? && ParseTime(rest).value == (ParseClock(rest).value, 0)
  {
  }

  /** A fifteen-character time part that parses, with '.' after the seconds,
      is a full clock and a six-digit fraction. */
  lemma FullClockWithFraction(rest: string)
    requires |rest| == 15 && rest[8] == '.' && ParseTime(rest).Some?
    ensures ParseClock(rest[..8]).Some? && ParseFraction(rest[9..]).Some?
    ensures ParseTime(rest).value == (ParseClock(rest[..8]).value, ParseFraction(rest[9..]).value)
  {
  }

  /** A canonical text without fraction digits. */
  lemma SecondsFormRoundTrip(s: string)
    requires Canonical(s) && |s| == 19 && Parse(s).Some?
    ensures Format(Parse(s).value) == s
  {
    var t := Parse(s).value;
    ParseParts(s);
    var rest := s[11..];
    assert ParseTime(rest) == Some((ClockFields(t.hour, t.minute, t.second), t.micro));
    DateTextOfParse(s[..10], t);
    FullClockOnly(rest);
    assert ParseClock(rest) == Some(ClockFields(t.hour, t.minute, t.second)) && t.micro == 0;
    ClockTextOfParse(rest, t);
    assert s == s[..10] + "T" + rest;
  }

  /** A canonical text with six fraction digits. */
  lemma FractionFormRoundTrip(s: string)
    requires Canonical(s) && |s| == 26 && Parse(s).Some?
    ensures Format(Parse(s).value) == s
  {
    var t := Parse(s).value;
    ParseParts(s);
    var rest := s[11..];
    assert ParseTime(rest) == Some((ClockFields(t.hour, t.minute, t.second), t.micro));
    DateTextOfParse(s[..10], t);
    assert rest[8] == '.';
    FullClockWithFraction(rest);
    assert ParseClock(rest[..8]) == Some(ClockFields(t.hour, t.minute, t.second));
    ClockTextOfParse(rest[..8], t);
    var fraction := rest[9..];
    assert fraction == s[20..];
    assert ParseFraction(fraction) == Some(t.micro);
    ValueDigitsRoundTrip(fraction);
    assert s == s[..10] + "T" + rest[..8] + "." + fraction;
  }

  /** The other direction of the round trip: a canonical text that
      `fromisoformat()` accepts is what `isoformat()` writes for the result. */
  lemma ParseFormatRoundTrip(s: string)
    requires Canonical(s) && Parse(s).Some?
    ensures Format(Parse(s).value) == s
  {
    if |s| == 19 {
      SecondsFormRoundTrip(s);
    } else {
      FractionFormRoundTrip(s);
    }
  }

  /** Characters `str.isspace()` holds for. */
  predicate IsSpace(c: char) {
    || ('\t' <= c <= '\r') || ('\U{1c}' <= c <= '\U{1f}') || c == ' '
    || c == '\U{85}' || c == '\U{a0}' || c == '\U{1680}'
    || ('\U{2000}' <= c <= '\U{200a}') || c == '\U{2028}' || c == '\U{2029}'
    || c == '\U{202f}' || c == '\U{205f}' || c == '\U{3000}'
  }

  predicate AllSpace(s: string) {
    forall i :: 0 <= i < |s| ==> IsSpace(s[i])
  }

  /** The text without its leading whitespace. */
  function StripLeft(s: string): (r: string)
    ensures |r| <= |s| && r == s[|s| - |r|..]
    ensures forall i :: 0 <= i < |s| - |r| ==> IsSpace(s[i])
    ensures r == [] || !IsSpace(r[0])
  {
    if s != [] && IsSpace(s[0]) then StripLeft(s[1..]) else s
  }

  /** The text without its trailing whitespace. */
  function StripRight(s: string): (r: string)
    ensures |r| <= |s| && r == s[..|r|]
    ensures forall i :: |r| <= i < |s| ==> IsSpace(s[i])
    ensures r == [] || !IsSpace(r[|r| - 1])
  {
    if s != [] && IsSpace(s[|s| - 1]) then StripRight(s[..|s| - 1]) else s
  }

  /** `r` is `s` with the whitespace `s[..i]` cut off before it and only
      whitespace after it. */
  predicate CutFrom(s: string, r: string, i: int) {
    && 0 <= i <= |s| - |r|
    && r == s[i..i + |r|] && AllSpace(s[..i]) && AllSpace(s[i + |r|..])
  }

  /** `str.strip()`: the text without its leading and trailing whitespace.
      What is cut off at either end is whitespace, and what remains neither
      begins nor ends with it. */
  function Strip(s: string): (r: string)
    ensures exists i :: CutFrom(s, r, i)
    ensures r == [] || (!IsSpace(r[0]) && !IsSpace(r[|r| - 1]))
  {
    var left := StripLeft(s);
    var r := StripRight(left);
    TwoCuts(s, left, r);
    r
  }

  /** A cut at the front followed by a cut at the back is one slice. */
  lemma TwoCuts(s: string, left: string, r: string)
    requires |left| <= |s| && left == s[|s| - |left|..]
    requires forall k :: 0 <= k < |s| - |left| ==> IsSpace(s[k])
    requires |r| <= |left| && r == left[..|r|]
    requires forall k :: |r| <= k < |left| ==> IsSpace(left[k])
    ensures CutFrom(s, r, |s| - |left|)
  {
    var i := |s| - |left|;
    assert r == s[i..i + |r|];
    assert s[i + |r|..] == left[|r|..];
  }

  /** `strip()` is the only cut of its kind: a text made of whitespace, a
      middle that neither begins nor ends with whitespace, and whitespace
      again, strips to that middle. */
  lemma {:induction false} StripUnique(lead: string, middle: string, trail: string)
    requires AllSpace(lead) && AllSpace(trail)
    requires middle == [] || (!IsSpace(middle[0]) && !IsSpace(middle[|middle| - 1]))
    ensures Strip(lead + middle + trail) == middle
  {
    var s := lead + middle + trail;
    if middle == [] {
      var spaces := lead + trail;
      assert AllSpace(spaces) by {
        forall k | 0 <= k < |spaces| ensures IsSpace(spaces[k]) {
          if k >= |lead| {
            assert spaces[k] == trail[k - |lead|];
          }
        }
      }
      assert s == spaces + [];
      LeftCut(spaces, []);
    } else {
      assert s == lead + (middle + trail);
      LeftCut(lead, middle + trail);
      RightCut(middle, trail);
    }
  }

  /** Leading whitespace before a text that does not begin with it is cut. */
  lemma {:induction false} LeftCut(lead: string, rest: string)
    requires AllSpace(lead)
    requires rest == [] || !IsSpace(rest[0])
    ensures StripLeft(lead + rest) == rest
  {
    if lead != [] {
      assert (lead + rest)[1..] == lead[1..] + rest;
      LeftCut(lead[1..], rest);
    }
  }

  /** Trailing whitespace after a text that does not end with it is cut. */
  lemma {:induction false} RightCut(rest: string, trail: string)
    requires AllSpace(trail)
    requires rest == [] || !IsSpace(rest[|rest| - 1])
    ensures StripRight(rest + trail) == rest
  {
    if trail != [] {
      assert (rest + trail)[..|rest + trail| - 1] == rest + trail[..|trail| - 1];
      RightCut(rest, trail[..|trail| - 1]);
    }
  }

  /** Text whose ends are not whitespace is left as it is by `strip()`. */
  lemma StripKeeps(s: string)
    requires s == [] || (!IsSpace(s[0]) && !IsSpace(s[|s| - 1]))
    ensures Strip(s) == s
  {
  }

  /** Stripping twice is stripping once. */
  lemma StripIdempotent(s: string)
    ensures Strip(Strip(s)) == Strip(s)
  {
    StripKeeps(Strip(s));
  }

  /** What the lock writer stores is what the trigger reads back after
      stripping and parsing it. */
  lemma StoredLockRoundTrip(t: Timestamp)
    ensures Parse(Strip(Format(t))) == Some(t)
  {
    StripKeeps(Format(t));
    FormatParseRoundTrip(t);
  }
}
