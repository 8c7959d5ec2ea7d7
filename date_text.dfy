/** Calendar readings of a JavaScript `Date` and the two labels the event and
    journal screens build from them. A `Date` is represented by the values
    its getters return in the device's time zone: `getFullYear()`,
    `getMonth()` (0-based), `getDate()`, `getHours()`, `getMinutes()`, and
    `getTime()` (milliseconds since the epoch). */
module DateText {
  import opened Wrappers
  import opened JsText

  datatype DateTime = DateTime(year: int, month0: int, day: int, hours: int, minutes: int, epochMs: int)

  /** The ranges the getters of a `Date` guarantee. */
  predicate ValidDate(d: DateTime)
  {
    0 <= d.month0 < 12 && 1 <= d.day <= 31 && 0 <= d.hours < 24 && 0 <= d.minutes < 60
  }

  // ------------------------------------------------------------ the date

  /** `` `${getFullYear()}년 ${getMonth() + 1}월 ${getDate()}일` `` */
  function FormatDate(d: DateTime): string
  {
    NumberToString(d.year) + "년 " + NumberToString(d.month0 + 1) + "월 " + NumberToString(d.day) + "일"
  }

  /** The longest prefix of `s` made of digits. */
  function LeadingDigits(s: string): (r: string)
    ensures |r| <= |s| && r == s[..|r|] && AllDigits(r)
    ensures |r| < |s| ==> !IsDigit(s[|r|])
  {
    if s != [] && IsDigit(s[0]) then [s[0]] + LeadingDigits(s[1..]) else []
  }

  /** Digits followed by something that does not start with a digit: the
      digits are the leading digits. */
  lemma {:induction false} LeadingDigitsOf(a: string, rest: string)
    requires AllDigits(a) && (rest == [] || !IsDigit(rest[0]))
    ensures LeadingDigits(a + rest) == a
    decreases |a|
  {
    if a != [] {
      assert (a + rest)[0] == a[0];
      assert (a + rest)[1..] == a[1..] + rest;
      LeadingDigitsOf(a[1..], rest);
    } else {
      assert a + rest == rest;
    }
  }

  /** Reads back a non-negative decimal number at the start of `s`, with the
      text that follows it. */
  function ReadNumber(s: string): Option<(nat, string)>
  {
    var digits := LeadingDigits(s);
    if digits == [] then None else Some((DigitsValue(digits), s[|digits|..]))
  }

  /** Reads back a number written by `String(n)` for an integer `n`. */
  function ReadInt(s: string): Option<(int, string)>
  {
    var negative := s != [] && s[0] == '-';
    var r := ReadNumber(if negative then s[1..] else s);
    if r.None? then None
    else Some((if negative then -(r.value.0 as int) else r.value.0 as int, r.value.1))
  }

  /** The text after `word`, when `s` starts with it. */
  function After(s: string, word: string): Option<string>
  {
    if |word| <= |s| && s[..|word|] == word then Some(s[|word|..]) else None
  }

  /** A number followed by `word`: the number and the text after `word`. */
  function ReadField(s: string, word: string): Option<(int, string)>
  {
    match ReadInt(s)
    case None => None
    case Some((n, rest)) =>
      match After(rest, word)
      case None => None
      case Some(tail) => Some((n, tail))
  }

  /** Reads a date label back into (year, month as shown, day). */
  function ParseDate(s: string): Option<(int, int, int)>
  {
    match ReadField(s, "년 ")
    case None => None
    case Some((y, r1)) =>
      match ReadField(r1, "월 ")
      case None => None
      case Some((m, r2)) =>
        match ReadField(r2, "일")
        case None => None
        case Some((day, r3)) => if r3 == [] then Some((y, m, day)) else None
  }

  /** A number written by `String(n)`, followed by text that does not start
      with a digit, reads back as `n`. */
  lemma ReadIntOf(n: int, rest: string)
    requires rest != [] && !IsDigit(rest[0])
    ensures ReadInt(NumberToString(n) + rest) == Some((n, rest))
  {
    if n < 0 {
      ReadNegativeOf(-n, rest);
    } else {
      ReadNaturalOf(n, rest);
    }
  }

  /** `String(-k)` for a positive `k`, then a non-digit, reads back as `-k`. */
  lemma ReadNegativeOf(k: nat, rest: string)
    requires k > 0 && rest != [] && !IsDigit(rest[0])
    ensures ReadInt(NumberToString(-(k as int)) + rest) == Some((-(k as int), rest))
  {
    var s := NumberToString(-(k as int)) + rest;
    assert s[0] == '-';
    ReadNumberOf(k, rest, s[1..]);
  }

  /** `String(k)` for a natural `k`, then a non-digit, reads back as `k`. */
  lemma ReadNaturalOf(k: nat, rest: string)
    requires rest != [] && !IsDigit(rest[0])
    ensures ReadInt(NumberToString(k) + rest) == Some((k, rest))
  {
    var s := NumberToString(k) + rest;
    assert s[0] == Decimal(k)[0];
    ReadNumberOf(k, rest, s);
  }

  /** The digits of `k` followed by a non-digit read back as `k`. */
  lemma ReadNumberOf(k: nat, rest: string, s: string)
    requires rest != [] && !IsDigit(rest[0]) && s == Decimal(k) + rest
    ensures ReadNumber(s) == Some((k, rest))
  {
    var digits := Decimal(k);
    LeadingDigitsOf(digits, rest);
    DecimalRoundTrip(k);
    assert s[|digits|..] == rest;
  }

  /** `String(n)`, then `word`, then anything: reads back as `n` and what
      follows `word`. */
  lemma ReadFieldOf(n: int, word: string, tail: string)
    requires word != [] && !IsDigit(word[0])
    ensures ReadField(NumberToString(n) + word + tail, word) == Some((n, tail))
  {
    var rest := word + tail;
    assert NumberToString(n) + word + tail == NumberToString(n) + rest;
    ReadIntOf(n, rest);
    assert rest[..|word|] == word && rest[|word|..] == tail;
  }

  /** The three fields of a date label, read one after the other. */
  lemma ParseDateOf(s: string, y: int, r1: string, m: int, r2: string, day: int)
    requires ReadField(s, "년 ") == Some((y, r1))
    requires ReadField(r1, "월 ") == Some((m, r2))
    requires ReadField(r2, "일") == Some((day, []))
    ensures ParseDate(s) == Some((y, m, day))
  {
  }

  /** The label of `d` splits into its three fields. */
  lemma FormatDateFields(d: DateTime)
    ensures var dd := NumberToString(d.day) + "일";
            var r1 := NumberToString(d.month0 + 1) + "월 " + dd;
            && ReadField(FormatDate(d), "년 ") == Some((d.year, r1))
            && ReadField(r1, "월 ") == Some((d.month0 + 1, dd))
            && ReadField(dd, "일") == Some((d.day, []))
  {
    var y, m, dd := NumberToString(d.year), NumberToString(d.month0 + 1), NumberToString(d.day);
    var r2 := dd + "일";
    var r1 := m + "월 " + r2;
    assert FormatDate(d) == y + "년 " + r1;
    ReadFieldOf(d.year, "년 ", r1);
    ReadFieldOf(d.month0 + 1, "월 ", r2);
    assert r2 == dd + "일" + [];
    ReadFieldOf(d.day, "일", []);
  }

  /** The date label reads back as the year, the 1-based month and the day:
      the label determines the date, and the month shown is 1 to 12. */
  lemma FormatDateRoundTrip(d: DateTime)
    requires ValidDate(d)
    ensures ParseDate(FormatDate(d)) == Some((d.year, d.month0 + 1, d.day))
    ensures 1 <= d.month0 + 1 <= 12
  {
    FormatDateFields(d);
    var r2 := NumberToString(d.day) + "일";
    var r1 := NumberToString(d.month0 + 1) + "월 " + r2;
    ParseDateOf(FormatDate(d), d.year, r1, d.month0 + 1, r2, d.day);
  }

  /** Two dates with different year, month or day have different labels. */
  lemma FormatDateInjective(a: DateTime, b: DateTime)
    requires ValidDate(a) && ValidDate(b)
    requires FormatDate(a) == FormatDate(b)
    ensures a.year == b.year && a.month0 == b.month0 && a.day == b.day
  {
    FormatDateRoundTrip(a);
    FormatDateRoundTrip(b);
  }

  // ------------------------------------------------------------ the time

  /** `n.toString().padStart(2, "0")`. */
  function TwoDigits(n: nat): string
  {
    PadStart(Decimal(n), 2, '0')
  }

  /** `` `${getHours() padded}:${getMinutes() padded}` `` */
  function FormatTime(d: DateTime): string
    requires d.hours >= 0 && d.minutes >= 0
  {
    TwoDigits(d.hours) + ":" + TwoDigits(d.minutes)
  }

  /** Below 100 the padded text is exactly two digits whose value is `n`. */
  lemma TwoDigitsValue(n: nat)
    requires n < 100
    ensures var t := TwoDigits(n); |t| == 2 && AllDigits(t) && DigitsValue(t) == n
  {
    var s := Decimal(n);
    DecimalRoundTrip(n);
    if n < 10 {
      assert TwoDigits(n) == ['0'] + s;
      assert DigitsValue(['0'] + s) == DigitsValue(['0']) * 10 + DigitsValue(s) by {
        assert (['0'] + s)[..1] == ['0'];
      }
    } else {
      assert |Decimal(n / 10)| == 1;
    }
  }

  /** Reads an `HH:MM` label back into hours and minutes. */
  function ParseTime(s: string): Option<(nat, nat)>
  {
    if |s| == 5 && s[2] == ':' && AllDigits(s[..2]) && AllDigits(s[3..])
    then Some((DigitsValue(s[..2]), DigitsValue(s[3..])))
    else None
  }

  /** Two two-digit halves around a colon read back as their values. */
  lemma ParseTimeOf(h: string, m: string)
    requires |h| == 2 && AllDigits(h) && |m| == 2 && AllDigits(m)
    ensures var t := h + ":" + m; |t| == 5 && t[2] == ':'
    ensures ParseTime(h + ":" + m) == Some((DigitsValue(h), DigitsValue(m)))
  {
    var t := h + ":" + m;
    assert t[..2] == h;
    assert t[3..] == m;
  }

  /** For a valid time the label is `HH:MM`: five characters, the colon in
      the middle, two zero-padded digits on each side that read back as the
      hours and the minutes. */
  lemma FormatTimeRoundTrip(d: DateTime)
    requires ValidDate(d)
    ensures var t := FormatTime(d); |t| == 5 && t[2] == ':'
    ensures ParseTime(FormatTime(d)) == Some((d.hours as nat, d.minutes as nat))
  {
    TwoDigitsValue(d.hours);
    TwoDigitsValue(d.minutes);
    ParseTimeOf(TwoDigits(d.hours), TwoDigits(d.minutes));
  }
}
