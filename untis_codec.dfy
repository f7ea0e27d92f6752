/** `PyUntisDate` and `PyUntisTime`: the backend's compact date (`YYYYMMDD`) and
    time (`HHMM`) strings and the calendar values they stand for.

    Parsing is `datetime.strptime`, which turns its format into a regular
    expression and takes the FIRST match the regex engine finds, trying the
    alternatives of each directive in their written order and backtracking when
    a later directive cannot match; the string is rejected if that match does not
    reach its end. The functions below follow that search literally, for the
    directives %Y, %m, %d, %H and %M. Only ASCII digits count as digits here. */
module UntisCodec {
  import opened Json
  import opened Calendar

  /** One way a regex alternative matches at the start of a string: how many
      characters it consumes and the number they denote. */
  datatype Piece = Piece(len: nat, value: nat)

  /** The strptime directives the core uses. */
  datatype Directive = Year | Month | DayOfMonth | Hour | Minute

  /** The alternatives of a directive's regex that match at the start of `s`, in
      the order the regex lists them. */
  function Alts(d: Directive, s: string): (ps: seq<Piece>)
    ensures forall i | 0 <= i < |ps| :: 1 <= ps[i].len <= |s|
    ensures d != Year ==> forall i | 0 <= i < |ps| :: ps[i].len <= 2
    ensures d == Hour || d == Minute ==> forall i | 0 <= i < |ps| :: |s| >= 1 && IsDigit(s[0]) && (ps[i].len == 2 ==> IsDigit(s[1]))
    ensures d == Hour ==> forall i | 0 <= i < |ps| :: ps[i].value <= 23
    ensures d == Minute ==> forall i | 0 <= i < |ps| :: ps[i].value <= 59
  {
    match d
    case Year => YearAlts(s)
    case Month => MonthAlts(s)
    case DayOfMonth => DayAlts(s)
    case Hour => HourAlts(s)
    case Minute => MinuteAlts(s)
  }

  /** %Y: `\d\d\d\d`. */
  function YearAlts(s: string): (ps: seq<Piece>)
    ensures forall i | 0 <= i < |ps| :: 1 <= ps[i].len <= |s|
  {
    if |s| >= 4 && AllDigits(s[..4]) then [Piece(4, DigitsValue(s[..4]))] else []
  }

  /** %m: `1[0-2]|0[1-9]|[1-9]`. */
  function MonthAlts(s: string): (ps: seq<Piece>)
    ensures forall i | 0 <= i < |ps| :: 1 <= ps[i].len <= |s| && ps[i].len <= 2
  {
    (if |s| >= 2 && s[0] == '1' && '0' <= s[1] <= '2' then [Piece(2, 10 + DigitValue(s[1]))] else [])
    + (if |s| >= 2 && s[0] == '0' && '1' <= s[1] <= '9' then [Piece(2, DigitValue(s[1]))] else [])
    + (if |s| >= 1 && '1' <= s[0] <= '9' then [Piece(1, DigitValue(s[0]))] else [])
  }

  /** %d: `3[01]|[12]\d|0[1-9]|[1-9]| [1-9]`. */
  function DayAlts(s: string): (ps: seq<Piece>)
    ensures forall i | 0 <= i < |ps| :: 1 <= ps[i].len <= |s| && ps[i].len <= 2
  {
    (if |s| >= 2 && s[0] == '3' && '0' <= s[1] <= '1' then [Piece(2, 30 + DigitValue(s[1]))] else [])
    + (if |s| >= 2 && '1' <= s[0] <= '2' && IsDigit(s[1]) then [Piece(2, 10 * DigitValue(s[0]) + DigitValue(s[1]))] else [])
    + (if |s| >= 2 && s[0] == '0' && '1' <= s[1] <= '9' then [Piece(2, DigitValue(s[1]))] else [])
    + (if |s| >= 1 && '1' <= s[0] <= '9' then [Piece(1, DigitValue(s[0]))] else [])
    + (if |s| >= 2 && s[0] == ' ' && '1' <= s[1] <= '9' then [Piece(2, DigitValue(s[1]))] else [])
  }

  /** %H: `2[0-3]|[0-1]\d|\d`. */
  function HourAlts(s: string): (ps: seq<Piece>)
    ensures forall i | 0 <= i < |ps| :: 1 <= ps[i].len <= |s| && ps[i].len <= 2 && ps[i].value <= 23
    ensures forall i | 0 <= i < |ps| :: |s| >= 1 && IsDigit(s[0]) && (ps[i].len == 2 ==> IsDigit(s[1]))
  {
    (if |s| >= 2 && s[0] == '2' && '0' <= s[1] <= '3' then [Piece(2, 20 + DigitValue(s[1]))] else [])
    + (if |s| >= 2 && '0' <= s[0] <= '1' && IsDigit(s[1]) then [Piece(2, 10 * DigitValue(s[0]) + DigitValue(s[1]))] else [])
    + (if |s| >= 1 && IsDigit(s[0]) then [Piece(1, DigitValue(s[0]))] else [])
  }

  /** %M: `[0-5]\d|\d`. */
  function MinuteAlts(s: string): (ps: seq<Piece>)
    ensures forall i | 0 <= i < |ps| :: 1 <= ps[i].len <= |s| && ps[i].len <= 2 && ps[i].value <= 59
    ensures forall i | 0 <= i < |ps| :: |s| >= 1 && IsDigit(s[0]) && (ps[i].len == 2 ==> IsDigit(s[1]))
  {
    (if |s| >= 2 && '0' <= s[0] <= '5' && IsDigit(s[1]) then [Piece(2, 10 * DigitValue(s[0]) + DigitValue(s[1]))] else [])
    + (if |s| >= 1 && IsDigit(s[0]) then [Piece(1, DigitValue(s[0]))] else [])
  }

  /** The regex engine's first match of two consecutive directives at the start of
      `s`: the first of the alternatives `firsts` after which directive `second`
      matches at all, paired with `second`'s first alternative there. */
  function FirstOfTwo(s: string, firsts: seq<Piece>, second: Directive): (r: Option<(Piece, Piece)>)
    requires forall i | 0 <= i < |firsts| :: firsts[i].len <= |s|
    ensures r.Some? ==> r.value.0 in firsts && r.value.0.len <= |s|
    ensures r.Some? ==> var rest := s[r.value.0.len..]; Alts(second, rest) != [] && r.value.1 == Alts(second, rest)[0]
  {
    if firsts == [] then None
    else
      var rest := s[firsts[0].len..];
      var seconds := Alts(second, rest);
      if seconds != [] then Some((firsts[0], seconds[0]))
      else FirstOfTwo(s, firsts[1..], second)
  }

  // ---------------------------------------------------------------------------
  // Dates: "%Y%m%d"

  /** The match of `%Y%m%d` at the start of `s`, as the date it names and the
      number of characters it consumed. */
  datatype DateMatch = DateMatch(civil: Civil, end: nat)

  /** %Y has a single alternative, so the search backtracks only between %m and %d. */
  function MatchYmd(s: string): (r: Option<DateMatch>)
    ensures r.Some? ==> r.value.end <= |s|
  {
    var ys := Alts(Year, s);
    if ys == [] then None
    else
      var rest := s[4..];
      match FirstOfTwo(rest, Alts(Month, rest), DayOfMonth)
      case None => None
      case Some((m, d)) => Some(DateMatch(Civil(ys[0].value, m.value, d.value), 4 + m.len + d.len))
  }

  /** `datetime.strptime(s, "%Y%m%d")`, as a date ordinal. */
  function StrptimeDate(s: string): Result<Day> {
    match MatchYmd(s)
    case None => Err(ValueError)                          // does not match the format
    case Some(DateMatch(c, end)) =>
      if end != |s| then Err(ValueError)                  // unconverted data remains
      else if !ValidCivil(c) then Err(ValueError)         // year 0, or a day the month lacks
      else CivilRoundTrip(c); Ok(Ordinal(c))
  }

  /** `date.strftime("%Y%m%d")`: year, month and day zero-padded to 4, 2 and 2 digits. */
  function FormatDate(n: Day): string {
    var c := ToCivil(n);
    Digits4(c.year) + Digits2(c.month) + Digits2(c.day)
  }

  /** `date.strftime("%d.%m.%Y")`. */
  function ReadableDate(n: Day): string {
    var c := ToCivil(n);
    Digits2(c.day) + "." + Digits2(c.month) + "." + Digits4(c.year)
  }

  /** A `PyUntisDate`: the calendar date and the `untis_date` string kept beside it. */
  datatype UntisDate = UntisDate(date: Day, untisDate: string)

  /** `PyUntisDate(date=date, untis_date=untisDate)`; `Null` and `None` stand for an
      argument left out. A given date wins and is formatted; otherwise
      `str(untis_date)` is kept verbatim and parsed. */
  function NewUntisDate(date: Option<Day>, untisDate: Json): (r: Result<UntisDate>)
    ensures date.None? && untisDate.Null? ==> r == Err(ValueError)
    ensures date.Some? ==> r.Ok? && r.value.date == date.value
    ensures date.Some? ==> |r.value.untisDate| == 8 && AllDigits(r.value.untisDate)
    ensures date.None? && untisDate.Str? && r.Ok? ==> r.value.untisDate == untisDate.s
    ensures date.None? && untisDate.Int? && r.Ok? ==> r.value.untisDate == IntToString(untisDate.i)
    ensures date.None? && r.Ok? ==> StrptimeDate(r.value.untisDate) == Ok(r.value.date)
    ensures date.None? && untisDate.Str? ==> (r.Ok? <==> StrptimeDate(untisDate.s).Ok?)
    ensures date.None? && untisDate.Int? ==> (r.Ok? <==> StrptimeDate(IntToString(untisDate.i)).Ok?)
    ensures date.None? && !untisDate.Str? && !untisDate.Int? ==> r == Err(ValueError)
    ensures r.Err? ==> r.error == ValueError
  {
    if date.Some? then
      Ok(FromDay(date.value))
    else
      match untisDate
      case Null => Err(ValueError)
      case Int(i) =>
        var s := IntToString(i);
        var d :- StrptimeDate(s);
        Ok(UntisDate(d, s))
      case Str(s) =>
        var d :- StrptimeDate(s);
        Ok(UntisDate(d, s))
      // str() of a boolean, list or dict starts with a letter or a bracket
      case _ => Err(ValueError)
  }

  /** `PyUntisDate(date=d)`. */
  function FromDay(d: Day): UntisDate {
    UntisDate(d, FormatDate(d))
  }

  /** `PyUntisDate(untis_date=raw)`. */
  function ParseUntisDate(raw: Json): Result<UntisDate> {
    NewUntisDate(None, raw)
  }

  // ---------------------------------------------------------------------------
  // Digits and directives

  lemma DigitsValue2(s: string)
    requires |s| == 2 && AllDigits(s)
    ensures DigitsValue(s) == 10 * DigitValue(s[0]) + DigitValue(s[1])
  {
    DigitsValueAppend([], s[0]);
    assert [] + [s[0]] == [s[0]];
    DigitsValueAppend([s[0]], s[1]);
    assert [s[0]] + [s[1]] == s;
  }

  lemma DigitsValue4(s: string)
    requires |s| == 4 && AllDigits(s)
    ensures DigitsValue(s) == 1000 * DigitValue(s[0]) + 100 * DigitValue(s[1]) + 10 * DigitValue(s[2]) + DigitValue(s[3])
  {
    DigitsValue2(s[..2]);
    DigitsValueAppend(s[..2], s[2]);
    assert s[..2] + [s[2]] == s[..3];
    DigitsValueAppend(s[..3], s[3]);
    assert s[..3] + [s[3]] == s;
  }

  lemma DigitValueInjective(c: char, d: char)
    requires IsDigit(c) && IsDigit(d) && DigitValue(c) == DigitValue(d)
    ensures c == d
  {
  }

  /** A string of four digits is the zero-padded form of its value. */
  lemma FourDigitsAreDigits4(s: string)
    requires |s| == 4 && AllDigits(s)
    ensures DigitsValue(s) < 10000 && s == Digits4(DigitsValue(s))
  {
    DigitsValue4(s);
    var v := DigitsValue(s);
    var t := Digits4(v);
    DigitsValue4(t);
    var a, b, c, d := DigitValue(s[0]), DigitValue(s[1]), DigitValue(s[2]), DigitValue(s[3]);
    var a', b', c', d' := DigitValue(t[0]), DigitValue(t[1]), DigitValue(t[2]), DigitValue(t[3]);
    assert a == a' && b == b' && c == c' && d == d';
    DigitValueInjective(s[0], t[0]);
    DigitValueInjective(s[1], t[1]);
    DigitValueInjective(s[2], t[2]);
    DigitValueInjective(s[3], t[3]);
  }

  /** A string of two digits is the zero-padded form of its value. */
  lemma TwoDigitsAreDigits2(s: string)
    requires |s| == 2 && AllDigits(s)
    ensures DigitsValue(s) < 100 && s == Digits2(DigitsValue(s))
  {
    DigitsValue2(s);
    var t := Digits2(DigitsValue(s));
    DigitsValue2(t);
    DigitValueInjective(s[0], t[0]);
    DigitValueInjective(s[1], t[1]);
  }

  /** On two leading digits a, b (v = 10a + b), %m offers the two-digit reading when
      v is a month, then the one-digit reading a when a is not 0. */
  lemma MonthOnDigits(s: string)
    requires |s| >= 2 && IsDigit(s[0]) && IsDigit(s[1])
    ensures var a := DigitValue(s[0]); var v := 10 * a + DigitValue(s[1]);
      Alts(Month, s) == (if 1 <= v <= 12 then [Piece(2, v)] else []) + (if a >= 1 then [Piece(1, a)] else [])
  {
  }

  /** Likewise %d, with the days 1 to 31. */
  lemma DayOnDigits(s: string)
    requires |s| >= 2 && IsDigit(s[0]) && IsDigit(s[1])
    ensures var a := DigitValue(s[0]); var v := 10 * a + DigitValue(s[1]);
      Alts(DayOfMonth, s) == (if 1 <= v <= 31 then [Piece(2, v)] else []) + (if a >= 1 then [Piece(1, a)] else [])
  {
  }

  /** %H offers the two-digit reading up to 23, then always the one-digit one. */
  lemma HourOnDigits(s: string)
    requires |s| >= 2 && IsDigit(s[0]) && IsDigit(s[1])
    ensures var a := DigitValue(s[0]); var v := 10 * a + DigitValue(s[1]);
      Alts(Hour, s) == (if v <= 23 then [Piece(2, v)] else []) + [Piece(1, a)]
  {
  }

  /** %M offers the two-digit reading up to 59, then always the one-digit one. */
  lemma MinuteOnDigits(s: string)
    requires |s| >= 2 && IsDigit(s[0]) && IsDigit(s[1])
    ensures var a := DigitValue(s[0]); var v := 10 * a + DigitValue(s[1]);
      Alts(Minute, s) == (if v <= 59 then [Piece(2, v)] else []) + [Piece(1, a)]
  {
  }

  // ---------------------------------------------------------------------------
  // Properties of the date codec

  lemma YearOfDigits4(y: nat, rest: string)
    requires y < 10000
    ensures Alts(Year, Digits4(y) + rest) == [Piece(4, y)]
  {
    assert (Digits4(y) + rest)[..4] == Digits4(y);
  }

  lemma MonthDayOfDigits(m: nat, d: nat)
    requires 1 <= m <= 12 && 1 <= d <= 31
    ensures var rest := Digits2(m) + Digits2(d);
      FirstOfTwo(rest, Alts(Month, rest), DayOfMonth) == Some((Piece(2, m), Piece(2, d)))
  {
    var ms, ds := Digits2(m), Digits2(d);
    var rest := ms + ds;
    MonthOnDigits(rest);
    DigitsValue2(ms);
    assert rest[2..] == ds;
    DayOnDigits(ds);
    DigitsValue2(ds);
  }

  /** What `%Y%m%d` reads from the canonical form of a date. */
  lemma MatchOfFormat(n: Day)
    ensures MatchYmd(FormatDate(n)) == Some(DateMatch(ToCivil(n), 8))
  {
    var c := ToCivil(n);
    var ms, ds := Digits2(c.month), Digits2(c.day);
    var s := FormatDate(n);
    YearOfDigits4(c.year, ms + ds);
    assert s == Digits4(c.year) + (ms + ds);
    assert s[4..] == ms + ds;
    MonthDayOfDigits(c.month, c.day);
  }

  /** Round trip: re-parsing the `untis_date` that `PyUntisDate(date=d)` wrote gives
      back `d`. */
  lemma DateFormatRoundTrip(n: Day)
    ensures ParseUntisDate(Str(FromDay(n).untisDate)) == Ok(FromDay(n))
  {
    StrptimeOfFormat(n);
    ParseString(FormatDate(n));
  }

  /** `strptime` reads the canonical form of a date back as that date. */
  lemma StrptimeOfFormat(n: Day)
    ensures StrptimeDate(FormatDate(n)) == Ok(n)
  {
    var c, s := ToCivil(n), FormatDate(n);
    MatchOfFormat(n);
    assert MatchYmd(s) == Some(DateMatch(c, 8)) && |s| == 8;
  }

  /** The backend's integer form of a date from year 1000 on, `int` of its
      `YYYYMMDD` string, parses back to that date and to the same string. */
  lemma IntegerDateRoundTrip(n: Day)
    requires ToCivil(n).year >= 1000
    ensures var s := FormatDate(n); AllDigits(s) && ParseUntisDate(Int(DigitsValue(s))) == Ok(FromDay(n))
  {
    var c, s := ToCivil(n), FormatDate(n);
    assert s[0] == Digits4(c.year)[0] == DigitChar(c.year / 1000);
    DigitCharValue(c.year / 1000);
    DigitsRoundTrip(s);
    StrptimeOfFormat(n);
  }

  /** A string that parses is kept as the date's `untis_date`. */
  lemma ParseString(s: string)
    requires StrptimeDate(s).Ok?
    ensures ParseUntisDate(Str(s)) == Ok(UntisDate(StrptimeDate(s).value, s))
  {
  }

  /** The date `%Y%m%d` reads from eight digits, when it reads all of them: the
      first four, the next two and the last two as numbers. */
  lemma MatchOfEightDigits(s: string)
    requires |s| == 8 && AllDigits(s)
    requires MatchYmd(s).Some? && MatchYmd(s).value.end == 8
    ensures MatchYmd(s).value.civil == Civil(DigitsValue(s[..4]), DigitsValue(s[4..6]), DigitsValue(s[6..8]))
  {
    var rest := s[4..];
    var pair := FirstOfTwo(rest, Alts(Month, rest), DayOfMonth).value;
    var mp, dp := pair.0, pair.1;
    assert MatchYmd(s).value == DateMatch(Civil(DigitsValue(s[..4]), mp.value, dp.value), 4 + mp.len + dp.len);
    assert mp.len == 2 && dp.len == 2;
    TwoDigitPiece(Month, rest, mp);
    assert rest[..2] == s[4..6];
    TwoDigitPiece(DayOfMonth, rest[2..], dp);
    assert rest[2..][..2] == s[6..8];
  }

  /** A two-character reading of %m or %d on digits is their value. */
  lemma TwoDigitPiece(d: Directive, t: string, p: Piece)
    requires d == Month || d == DayOfMonth
    requires |t| >= 2 && IsDigit(t[0]) && IsDigit(t[1]) && p in Alts(d, t) && p.len == 2
    ensures p.value == DigitsValue(t[..2])
  {
    DigitsValue2(t[..2]);
    if d == Month {
      MonthOnDigits(t);
    } else {
      DayOnDigits(t);
    }
  }

  /** Every eight-digit string that parses is the canonical form of its date: the
      `YYYYMMDD` format is the only spelling of a date with eight digits. */
  lemma EightDigitDatesAreCanonical(s: string)
    requires |s| == 8 && AllDigits(s) && StrptimeDate(s).Ok?
    ensures FormatDate(StrptimeDate(s).value) == s
  {
    StrptimeDateOk(s);
    MatchOfEightDigits(s);
    var c := MatchYmd(s).value.civil;
    CivilRoundTrip(c);
    assert ToCivil(StrptimeDate(s).value) == c;
    EightDigitsSplit(s);
  }

  /** What a successful `StrptimeDate` found. */
  lemma StrptimeDateOk(s: string)
    requires StrptimeDate(s).Ok?
    ensures MatchYmd(s).Some? && MatchYmd(s).value.end == |s| && ValidCivil(MatchYmd(s).value.civil)
    ensures StrptimeDate(s).value == Ordinal(MatchYmd(s).value.civil)
  {
  }

  /** Eight digits are the padded year, month and day they spell. */
  lemma EightDigitsSplit(s: string)
    requires |s| == 8 && AllDigits(s)
    ensures DigitsValue(s[..4]) < 10000 && DigitsValue(s[4..6]) < 100 && DigitsValue(s[6..8]) < 100
    ensures Digits4(DigitsValue(s[..4])) + Digits2(DigitsValue(s[4..6])) + Digits2(DigitsValue(s[6..8])) == s
  {
    var ys, ms, ds := s[..4], s[4..6], s[6..8];
    FourDigitsAreDigits4(ys);
    TwoDigitsAreDigits2(ms);
    TwoDigitsAreDigits2(ds);
    assert s == ys + ms + ds;
  }

  lemma FormatValue(n: Day)
    ensures var c := ToCivil(n);
      AllDigits(FormatDate(n)) && DigitsValue(FormatDate(n)) == c.year * 10000 + c.month * 100 + c.day
  {
    var c := ToCivil(n);
    var ys, ms, ds := Digits4(c.year), Digits2(c.month), Digits2(c.day);
    DigitsValue2(ms);
    DigitsValue2(ds);
    DigitsValueAppend(ys, ms[0]);
    DigitsValueAppend(ys + [ms[0]], ms[1]);
    assert ys + [ms[0]] + [ms[1]] == ys + ms;
    DigitsValueAppend(ys + ms, ds[0]);
    DigitsValueAppend(ys + ms + [ds[0]], ds[1]);
    assert ys + ms + [ds[0]] + [ds[1]] == FormatDate(n);
  }

  lemma LexIsNumeric(c: Civil, d: Civil)
    requires ValidCivil(c) && ValidCivil(d)
    ensures CivilBefore(c, d) <==> c.year * 10000 + c.month * 100 + c.day < d.year * 10000 + d.month * 100 + d.day
  {
    var p, q := c.month * 100 + c.day, d.month * 100 + d.day;
    assert 0 <= p < 10000 && 0 <= q < 10000;
    if c.year < d.year {
      assert c.year * 10000 + 10000 <= d.year * 10000;
    } else if d.year < c.year {
      assert d.year * 10000 + 10000 <= c.year * 10000;
    }
  }

  /** Ordering dates by calendar value is ordering their canonical strings by
      numeric value. */
  lemma DateOrderIsNumericOrder(a: Day, b: Day)
    ensures AllDigits(FormatDate(a)) && AllDigits(FormatDate(b))
    ensures a < b <==> DigitsValue(FormatDate(a)) < DigitsValue(FormatDate(b))
  {
    FormatValue(a);
    FormatValue(b);
    OrdinalOrder(ToCivil(a), ToCivil(b));
    LexIsNumeric(ToCivil(a), ToCivil(b));
  }

  /** `make_readable` shows the same day, month and year as `untis_date`, reordered
      as DD.MM.YYYY. */
  lemma ReadableMatchesUntis(n: Day)
    ensures var s := FormatDate(n);
      ReadableDate(n) == s[6..8] + "." + s[4..6] + "." + s[..4]
  {
    var c := ToCivil(n);
    var s := FormatDate(n);
    assert s[..4] == Digits4(c.year) && s[4..6] == Digits2(c.month) && s[6..8] == Digits2(c.day);
  }

  lemma Year2024(rest: string)
    ensures Alts(Year, "2024" + rest) == [Piece(4, 2024)]
  {
    assert Digits4(2024) == "2024";
    YearOfDigits4(2024, rest);
  }

  /** strptime backtracks: seven digits are read with a one-digit day. */
  lemma SevenDigitDate()
    ensures StrptimeDate("2024111") == Ok(Ordinal(Civil(2024, 11, 1)))
  {
    Year2024("111");
    assert "2024111" == "2024" + "111" && "2024111"[4..] == "111";
    MonthOnDigits("111");
    assert "111"[2..] == "1";
    assert Alts(DayOfMonth, "1") == [Piece(1, 1)];
  }

  /** Six digits are read with one-digit month and day: the two-digit month leaves
      no day, so the search falls back to the one-digit month. */
  lemma SixDigitDate()
    ensures StrptimeDate("202411") == Ok(Ordinal(Civil(2024, 1, 1)))
  {
    Year2024("11");
    assert "202411" == "2024" + "11" && "202411"[4..] == "11";
    BacktrackToOneDigitMonth();
    assert MatchYmd("202411") == Some(DateMatch(Civil(2024, 1, 1), 6));
  }

  lemma BacktrackToOneDigitMonth()
    ensures FirstOfTwo("11", Alts(Month, "11"), DayOfMonth) == Some((Piece(1, 1), Piece(1, 1)))
  {
    MonthOnDigits("11");
    assert Alts(Month, "11") == [Piece(2, 11), Piece(1, 1)];
    assert "11"[2..] == "" && Alts(DayOfMonth, "") == [];
    assert "11"[1..] == "1";
    assert Alts(DayOfMonth, "1") == [Piece(1, 1)];
    assert FirstOfTwo("11", [Piece(1, 1)], DayOfMonth) == Some((Piece(1, 1), Piece(1, 1)));
  }

  /** A day the month lacks is refused. */
  lemma MissingDayRejected()
    ensures StrptimeDate("20240230") == Err(ValueError)
  {
    Year2024("0230");
    assert "20240230" == "2024" + "0230" && "20240230"[4..] == "0230";
    MonthOnDigits("0230");
    assert "0230"[2..] == "30";
    DayOnDigits("30");
    assert MatchYmd("20240230") == Some(DateMatch(Civil(2024, 2, 30), 8));
  }

  // ---------------------------------------------------------------------------
  // Times: "%H%M"

  datatype TimeMatch = TimeMatch(hour: nat, minute: nat, end: nat)

  function MatchHm(s: string): (r: Option<TimeMatch>)
    ensures r.Some? ==> 1 <= r.value.end <= |s| && r.value.end <= 4
    ensures r.Some? ==> r.value.hour <= 23 && r.value.minute <= 59
    ensures r.Some? ==> forall k | 0 <= k < r.value.end :: IsDigit(s[k])
  {
    match FirstOfTwo(s, Alts(Hour, s), Minute)
    case None => None
    case Some((h, m)) =>
      HmPieces(s, h, m);
      Some(TimeMatch(h.value, m.value, h.len + m.len))
  }

  /** The hour and minute pieces of a match of `%H%M` are in range and cover
      digits only. */
  lemma HmPieces(s: string, h: Piece, m: Piece)
    requires FirstOfTwo(s, Alts(Hour, s), Minute) == Some((h, m))
    ensures 1 <= h.len + m.len <= |s| && h.len + m.len <= 4 && h.value <= 23 && m.value <= 59
    ensures forall k | 0 <= k < h.len + m.len :: IsDigit(s[k])
  {
    HourPiece(s, h);
    var rest := s[h.len..];
    MinutePiece(rest, m);
    DigitsAcross(s, h.len, m.len);
  }

  lemma HourPiece(s: string, h: Piece)
    requires h in Alts(Hour, s)
    ensures 1 <= h.len <= 2 && h.len <= |s| && h.value <= 23
    ensures IsDigit(s[0]) && (h.len == 2 ==> IsDigit(s[1]))
  {
  }

  lemma MinutePiece(t: string, m: Piece)
    requires Alts(Minute, t) != [] && m == Alts(Minute, t)[0]
    ensures 1 <= m.len <= 2 && m.len <= |t| && m.value <= 59
    ensures IsDigit(t[0]) && (m.len == 2 ==> IsDigit(t[1]))
  {
  }

  /** Two runs of one or two digits, one after the other. */
  lemma DigitsAcross(s: string, a: nat, b: nat)
    requires 1 <= a <= 2 && 1 <= b <= 2 && a + b <= |s|
    requires IsDigit(s[0]) && (a == 2 ==> IsDigit(s[1]))
    requires IsDigit(s[a..][0]) && (b == 2 ==> IsDigit(s[a..][1]))
    ensures forall k | 0 <= k < a + b :: IsDigit(s[k])
  {
    assert s[a..][0] == s[a];
    assert b == 2 ==> s[a..][1] == s[a + 1];
  }

  type HourOfDay = h: nat | h <= 23
  type MinuteOfHour = m: nat | m <= 59

  /** A clock reading: hour and minute. */
  datatype Clock = Clock(hour: HourOfDay, minute: MinuteOfHour)

  /** `datetime.strptime(s, "%H%M")`, as hour and minute. */
  function StrptimeTime(s: string): (r: Result<Clock>)
    ensures r.Ok? ==> 1 <= |s| <= 4 && AllDigits(s)
  {
    match MatchHm(s)
    case None => Err(ValueError)
    case Some(TimeMatch(h, m, end)) => if end != |s| then Err(ValueError) else Ok(Clock(h, m))
  }

  /** A `PyUntisTime`: the time of day and the `untis_time` string kept beside it. */
  datatype UntisTime = UntisTime(hour: HourOfDay, minute: MinuteOfHour, untisTime: string)

  /** Minutes since midnight: times compare by this value. */
  function TimeValue(t: UntisTime): int {
    60 * t.hour + t.minute
  }

  /** `time.strftime("%H:%M")`. */
  function ReadableTime(t: UntisTime): string {
    Digits2(t.hour) + ":" + Digits2(t.minute)
  }

  /** `str(untis_time)`: strings are kept, ints written in decimal; `None` for
      None and for values whose `str()` starts with neither a digit nor a sign. */
  function TimeText(untisTime: Json): Option<string> {
    match untisTime
    case Int(i) => Some(IntToString(i))
    case Str(s) => Some(s)
    case _ => None
  }

  /** `PyUntisTime(untis_time=untisTime)` as written: `str(untis_time)` is kept and
      parsed by strptime with `%H%M` without any padding. */
  function NewUntisTimeAsWritten(untisTime: Json): (r: Result<UntisTime>)
    ensures untisTime.Null? ==> r == Err(ValueError)
    ensures r.Ok? ==> TimeText(untisTime) == Some(r.value.untisTime)
    ensures r.Ok? ==> StrptimeTime(r.value.untisTime) == Ok(Clock(r.value.hour, r.value.minute))
  {
    match TimeText(untisTime)
    case None => Err(ValueError)
    case Some(s) =>
      var c :- StrptimeTime(s);
      Ok(UntisTime(c.hour, c.minute, s))
  }

  /** `PyUntisTime(untis_time=untisTime)` as intended: `str(untis_time)` is kept,
      and zero-filled to four characters before parsing, so that the backend's
      integer 130 is 01:30 and 0 is midnight. */
  function NewUntisTime(untisTime: Json): (r: Result<UntisTime>)
    ensures untisTime.Null? ==> r == Err(ValueError)
    ensures r.Ok? ==> TimeText(untisTime) == Some(r.value.untisTime)
    ensures r.Ok? ==> StrptimeTime(PadLeft(r.value.untisTime, 4)) == Ok(Clock(r.value.hour, r.value.minute))
  {
    match TimeText(untisTime)
    case None => Err(ValueError)
    case Some(s) =>
      var c :- StrptimeTime(PadLeft(s, 4));
      Ok(UntisTime(c.hour, c.minute, s))
  }

  // ---------------------------------------------------------------------------
  // Properties of the time codec

  /** A four-digit HHMM string parses exactly when its hour and minute are in
      range, to hour `v / 100` and minute `v % 100` of its value `v`. */
  lemma FourDigitTimes(s: string)
    requires |s| == 4 && AllDigits(s)
    ensures var v := DigitsValue(s);
      StrptimeTime(s).Ok? <==> v / 100 <= 23 && v % 100 <= 59
    ensures var v := DigitsValue(s);
      StrptimeTime(s).Ok? ==> StrptimeTime(s).value == Clock(v / 100, v % 100)
  {
    var v := DigitsValue(s);
    DigitsValue4(s);
    var hv, mv := 10 * DigitValue(s[0]) + DigitValue(s[1]), 10 * DigitValue(s[2]) + DigitValue(s[3]);
    assert v / 100 == hv && v % 100 == mv;
    HourOnDigits(s);
    MinuteOnDigits(s[2..]);
    assert s[1..][0] == s[1];
    if hv <= 23 && mv <= 59 {
      assert MatchHm(s) == Some(TimeMatch(hv, mv, 4));
    } else if MatchHm(s).Some? {
      var pair := FirstOfTwo(s, Alts(Hour, s), Minute).value;
      assert pair.0.len <= 2 && pair.1.len <= 2;
    }
  }

  /** A lone "0" is no time at all: strptime finds no minute after the hour. */
  lemma ZeroIsRejectedAsWritten()
    ensures NewUntisTimeAsWritten(Int(0)) == Err(ValueError)
  {
    assert TimeText(Int(0)) == Some("0");
    assert MatchHm("0") == None by {
      assert Alts(Hour, "0") == [Piece(1, 0)];
      assert "0"[1..] == "" && Alts(Minute, "") == [];
      assert FirstOfTwo("0", [Piece(1, 0)], Minute) == None by {
        assert [Piece(1, 0)][1..] == [];
      }
    }
    assert StrptimeTime("0") == Err(ValueError);
  }

  lemma Text130()
    ensures IntToString(130) == "130"
  {
    assert NatToString(13) == "13";
  }

  lemma Match130()
    ensures MatchHm("130") == Some(TimeMatch(13, 0, 3))
  {
    HourOnDigits("130");
    assert "130"[2..] == "0";
    assert Alts(Minute, "0") == [Piece(1, 0)];
  }

  /** Without padding, 01:30 (sent as 130) is read as 13:00. */
  lemma OneThirtyMisreadAsWritten()
    ensures NewUntisTimeAsWritten(Int(130)) == Ok(UntisTime(13, 0, "130"))
  {
    Text130();
    Match130();
  }

  lemma Text1300()
    ensures IntToString(1300) == "1300"
  {
    assert NatToString(13) == "13";
    assert NatToString(130) == "130";
  }

  /** 13:00 itself (sent as 1300) is read as 13:00 too. */
  lemma OnePmAsWritten()
    ensures NewUntisTimeAsWritten(Int(1300)) == Ok(UntisTime(13, 0, "1300"))
  {
    Text1300();
    DigitsValue4("1300");
    FourDigitTimes("1300");
  }

  lemma Text45()
    ensures IntToString(45) == "45"
  {
    assert NatToString(4) == "4";
  }

  lemma Match45()
    ensures MatchHm("45") == Some(TimeMatch(4, 5, 2))
  {
    HourOnDigits("45");
    assert "45"[1..] == "5";
    assert Alts(Minute, "5") == [Piece(1, 5)];
  }

  /** Without padding, 00:45 (sent as 45) is read as 04:05. */
  lemma FortyFiveMisreadAsWritten()
    ensures NewUntisTimeAsWritten(Int(45)) == Ok(UntisTime(4, 5, "45"))
  {
    Text45();
    Match45();
    assert StrptimeTime("45") == Ok(Clock(4, 5));
  }

  /** With zero-filling, every time the backend sends as the integer 100*h + m is
      read as h:m, including midnight and the hours before three. */
  lemma IntegerTimesRoundTrip(h: nat, m: nat)
    requires h <= 23 && m <= 59
    ensures NewUntisTime(Int(100 * h + m)) == Ok(UntisTime(h, m, IntToString(100 * h + m)))
  {
    var v := 100 * h + m;
    HundredsOf(h, m);
    var s := Digits4(v);
    ZeroFilledIsDigits4(v);
    assert PadLeft(IntToString(v), 4) == s;
    FourDigitsAreDigits4(s);
    FourDigitTimes(s);
    assert StrptimeTime(s) == Ok(Clock(h, m));
  }

  lemma HundredsOf(h: nat, m: nat)
    requires m <= 99
    ensures (100 * h + m) / 100 == h && (100 * h + m) % 100 == m
  {
  }

  /** Zero-filling to four characters leaves a number of five or more digits, and
      the sign of a negative one, in place. */
  lemma ZeroFilledOutOfRange(v: int)
    ensures v >= 10000 ==> |PadLeft(IntToString(v), 4)| >= 5
    ensures v < 0 ==> !AllDigits(PadLeft(IntToString(v), 4))
  {
    var s := IntToString(v);
    var p := PadLeft(s, 4);
    if v >= 10000 {
      var n1, n2, n3, n4 := v / 10, v / 10 / 10, v / 10 / 10 / 10, v / 10 / 10 / 10 / 10;
      assert n4 >= 1 && n3 >= 10 && n2 >= 10 && n1 >= 10;
      assert |NatToString(v)| == |NatToString(n1)| + 1;
      assert |NatToString(n1)| == |NatToString(n2)| + 1;
      assert |NatToString(n2)| == |NatToString(n3)| + 1;
      assert |NatToString(n3)| == |NatToString(n4)| + 1;
    }
    if v < 0 {
      assert p[|p| - |s|..][0] == s[0] == '-';
      assert !IsDigit(p[|p| - |s|]);
    }
  }

  /** A time parsed from an integer comes from the integer 100*hour + minute. */
  lemma IntegerTimeValue(v: int)
    requires NewUntisTime(Int(v)).Ok?
    ensures var t := NewUntisTime(Int(v)).value; v == 100 * t.hour + t.minute
  {
    var p := PadLeft(IntToString(v), 4);
    ZeroFilledOutOfRange(v);
    assert 0 <= v < 10000;
    ZeroFilledIsDigits4(v);
    FourDigitsAreDigits4(p);
    FourDigitTimes(p);
  }

  lemma IntToStringInjective(v: int, w: int)
    ensures IntToString(v) == IntToString(w) <==> v == w
  {
    IntStringRoundTrip(v);
    IntStringRoundTrip(w);
  }

  lemma ClockOrder(h: nat, m: nat, h': nat, m': nat)
    requires m <= 59 && m' <= 59
    ensures 60 * h + m == 60 * h' + m' <==> 100 * h + m == 100 * h' + m'
    ensures 60 * h + m < 60 * h' + m' <==> 100 * h + m < 100 * h' + m'
  {
    if h < h' {
      assert 60 * h + 60 <= 60 * h' && 100 * h + 100 <= 100 * h';
    } else if h' < h {
      assert 60 * h' + 60 <= 60 * h && 100 * h' + 100 <= 100 * h;
    }
  }

  /** For times the backend sends as integers, equal times have equal `untis_time`
      strings and the other way round; and times compare as their integers do. */
  lemma IntegerTimesAreCanonical(v: int, w: int)
    requires NewUntisTime(Int(v)).Ok? && NewUntisTime(Int(w)).Ok?
    ensures var a, b := NewUntisTime(Int(v)).value, NewUntisTime(Int(w)).value;
      (TimeValue(a) == TimeValue(b) <==> a.untisTime == b.untisTime)
      && (TimeValue(a) < TimeValue(b) <==> v < w)
  {
    var a, b := NewUntisTime(Int(v)).value, NewUntisTime(Int(w)).value;
    IntegerTimeValue(v);
    IntegerTimeValue(w);
    IntToStringInjective(v, w);
    ClockOrder(a.hour, a.minute, b.hour, b.minute);
  }

  /** Without padding that property fails: 130 and 1300 are both 13:00. */
  lemma IntegerTimesNotCanonicalAsWritten()
    ensures NewUntisTimeAsWritten(Int(130)).Ok? && NewUntisTimeAsWritten(Int(1300)).Ok?
    ensures var a, b := NewUntisTimeAsWritten(Int(130)).value, NewUntisTimeAsWritten(Int(1300)).value;
      TimeValue(a) == TimeValue(b) && a.untisTime != b.untisTime
  {
    OneThirtyMisreadAsWritten();
    OnePmAsWritten();
  }

  /** Text of four or more characters is not zero-filled, so the two readings
      agree on it. */
  lemma LongTextsAgree(untisTime: Json)
    requires TimeText(untisTime).Some? && |TimeText(untisTime).value| >= 4
    ensures NewUntisTimeAsWritten(untisTime) == NewUntisTime(untisTime)
  {
    var s := TimeText(untisTime).value;
    assert PadLeft(s, 4) == PadLeft(s, 4)[0..] == s;
  }

  /** The decimal text of a number of at least 1000 has at least four digits. */
  lemma FourDigitsFromThousand(v: int)
    requires v >= 1000
    ensures |IntToString(v)| >= 4
  {
    var n1, n2, n3 := v / 10, v / 10 / 10, v / 10 / 10 / 10;
    assert n3 >= 1 && n2 >= 10 && n1 >= 10;
    assert |NatToString(v)| == |NatToString(n1)| + 1;
    assert |NatToString(n1)| == |NatToString(n2)| + 1;
    assert |NatToString(n2)| == |NatToString(n3)| + 1;
  }

  /** The times from 10:00 on, sent as integers of four digits, are read
      correctly even without zero-filling. */
  lemma IntegerTimesFromTenAsWritten(h: nat, m: nat)
    requires 10 <= h <= 23 && m <= 59
    ensures NewUntisTimeAsWritten(Int(100 * h + m)) == NewUntisTime(Int(100 * h + m))
    ensures NewUntisTimeAsWritten(Int(100 * h + m)) == Ok(UntisTime(h, m, IntToString(100 * h + m)))
  {
    FourDigitsFromThousand(100 * h + m);
    LongTextsAgree(Int(100 * h + m));
    IntegerTimesRoundTrip(h, m);
  }

  /** The decimal text of a number below 1000, digit by digit. */
  lemma ShortDecimalText(v: nat)
    requires v < 1000
    ensures v < 10 ==> IntToString(v) == [DigitChar(v)]
    ensures 10 <= v < 100 ==> IntToString(v) == [DigitChar(v / 10), DigitChar(v % 10)]
    ensures 100 <= v ==> IntToString(v) == [DigitChar(v / 100), DigitChar(v / 10 % 10), DigitChar(v % 10)]
  {
    if 10 <= v < 100 {
      assert NatToString(v / 10) == [DigitChar(v / 10)];
    } else if 100 <= v {
      assert v / 10 / 10 == v / 100 && v / 100 < 10;
      assert NatToString(v / 100) == [DigitChar(v / 100)];
      assert NatToString(v / 10) == [DigitChar(v / 100), DigitChar(v / 10 % 10)];
    }
  }

  /** A single digit is an hour with no minute after it. */
  lemma OneDigitTimeRejected(d: nat)
    requires d < 10
    ensures StrptimeTime([DigitChar(d)]) == Err(ValueError)
  {
    var s := [DigitChar(d)];
    DigitCharValue(d);
    assert Alts(Hour, s) == [Piece(1, d)];
    assert s[1..] == [] && Alts(Minute, []) == [];
    assert FirstOfTwo(s, [Piece(1, d)], Minute) == None by {
      assert [Piece(1, d)][1..] == [];
    }
  }

  /** Two digits are read as a one-digit hour and a one-digit minute. */
  lemma TwoDigitTimeAsWritten(a: nat, b: nat)
    requires a <= 9 && b <= 9
    ensures StrptimeTime([DigitChar(a), DigitChar(b)]) == Ok(Clock(a, b))
  {
    var s := [DigitChar(a), DigitChar(b)];
    DigitCharValue(a);
    DigitCharValue(b);
    HourOnDigits(s);
    var one := [Piece(1, a)];
    assert s[1..] == [DigitChar(b)];
    assert Alts(Minute, s[1..]) == [Piece(1, b)];
    assert FirstOfTwo(s, one, Minute) == Some((Piece(1, a), Piece(1, b)));
    if 10 * a + b <= 23 {
      var two := [Piece(2, 10 * a + b)] + one;
      assert Alts(Hour, s) == two;
      assert s[2..] == [] && Alts(Minute, s[2..]) == [];
      assert two[1..] == one;
      assert FirstOfTwo(s, two, Minute) == FirstOfTwo(s, one, Minute);
    } else {
      assert Alts(Hour, s) == one;
    }
    assert MatchHm(s) == Some(TimeMatch(a, b, 2));
  }

  /** Three digits `h x y` with `hx` an hour: `%H` takes `hx`, leaving `y` for `%M`. */
  lemma ThreeDigitTimeLongHourAsWritten(h: nat, x: nat, y: nat)
    requires 1 <= h <= 2 && x <= 9 && y <= 9 && 10 * h + x <= 23
    ensures StrptimeTime([DigitChar(h), DigitChar(x), DigitChar(y)]) == Ok(Clock(10 * h + x, y))
  {
    var s := [DigitChar(h), DigitChar(x), DigitChar(y)];
    DigitCharValue(h);
    DigitCharValue(x);
    DigitCharValue(y);
    HourOnDigits(s);
    assert s[2..] == [DigitChar(y)];
    assert Alts(Minute, [DigitChar(y)]) == [Piece(1, y)];
    assert FirstOfTwo(s, Alts(Hour, s), Minute) == Some((Piece(2, 10 * h + x), Piece(1, y)));
    assert MatchHm(s) == Some(TimeMatch(10 * h + x, y, 3));
  }

  /** Three digits `h x y` with `hx` past 23: `%H` takes `h`, leaving `xy` for `%M`. */
  lemma ThreeDigitTimeShortHourAsWritten(h: nat, x: nat, y: nat)
    requires 2 <= h <= 9 && x <= 5 && y <= 9 && 10 * h + x > 23
    ensures StrptimeTime([DigitChar(h), DigitChar(x), DigitChar(y)]) == Ok(Clock(h, 10 * x + y))
  {
    var s := [DigitChar(h), DigitChar(x), DigitChar(y)];
    DigitCharValue(h);
    DigitCharValue(x);
    DigitCharValue(y);
    HourOnDigits(s);
    assert Alts(Hour, s) == [Piece(1, h)];
    assert s[1..] == [DigitChar(x), DigitChar(y)];
    MinuteOnDigits(s[1..]);
    assert FirstOfTwo(s, Alts(Hour, s), Minute) == Some((Piece(1, h), Piece(2, 10 * x + y)));
    assert MatchHm(s) == Some(TimeMatch(h, 10 * x + y, 3));
  }

  /** The decimal text of a three-digit number is its three digits. */
  lemma ThreeDigitText(h: nat, x: nat, y: nat)
    requires 1 <= h <= 9 && x <= 9 && y <= 9
    ensures IntToString(100 * h + 10 * x + y) == [DigitChar(h), DigitChar(x), DigitChar(y)]
  {
    var v := 100 * h + 10 * x + y;
    assert v / 10 == 10 * h + x;
    assert v / 100 == h && v / 10 % 10 == x && v % 10 == y;
    ShortDecimalText(v);
  }

  /** What the unpadded reading makes of an integer, given what strptime makes of its text. */
  lemma AsWrittenOfText(v: nat, text: string, c: Clock)
    requires IntToString(v) == text && StrptimeTime(text) == Ok(c)
    ensures NewUntisTimeAsWritten(Int(v)) == Ok(UntisTime(c.hour, c.minute, text))
  {
  }

  /** A one-digit integer time is rejected as written. */
  lemma OneDigitIntegerTimeAsWritten(v: nat)
    requires v < 10
    ensures NewUntisTimeAsWritten(Int(v)) == Err(ValueError)
  {
    ShortDecimalText(v);
    OneDigitTimeRejected(v);
  }

  /** A two-digit integer time `xy` is read as x:0y as written. */
  lemma TwoDigitIntegerTimeAsWritten(x: nat, y: nat)
    requires 1 <= x <= 9 && y <= 9
    ensures NewUntisTimeAsWritten(Int(10 * x + y)) == Ok(UntisTime(x, y, IntToString(10 * x + y)))
  {
    var v := 10 * x + y;
    assert v / 10 == x && v % 10 == y;
    ShortDecimalText(v);
    TwoDigitTimeAsWritten(x, y);
    AsWrittenOfText(v, [DigitChar(x), DigitChar(y)], Clock(x, y));
  }

  /** A three-digit integer time `hxy` below 240 is read as hx:0y as written. */
  lemma ThreeDigitIntegerTimeLongHourAsWritten(h: nat, x: nat, y: nat)
    requires 1 <= h <= 2 && x <= 9 && y <= 9 && 10 * h + x <= 23
    ensures NewUntisTimeAsWritten(Int(100 * h + 10 * x + y)) == Ok(UntisTime(10 * h + x, y, IntToString(100 * h + 10 * x + y)))
  {
    ThreeDigitText(h, x, y);
    ThreeDigitTimeLongHourAsWritten(h, x, y);
    AsWrittenOfText(100 * h + 10 * x + y, [DigitChar(h), DigitChar(x), DigitChar(y)], Clock(10 * h + x, y));
  }

  /** Below 02:40 the unpadded reading of an integer time is wrong: nothing, or
      the leading digits taken as a two-digit hour. */
  lemma IntegerTimesBeforeTwoFortyMisreadAsWritten(h: nat, m: nat)
    requires h <= 23 && m <= 59 && 100 * h + m < 240
    ensures NewUntisTimeAsWritten(Int(100 * h + m)) != Ok(UntisTime(h, m, IntToString(100 * h + m)))
  {
    var v := 100 * h + m;
    var x, y := m / 10, m % 10;
    assert m == 10 * x + y;
    if h == 0 && m < 10 {
      assert v == m;
      OneDigitIntegerTimeAsWritten(v);
    } else if h == 0 {
      assert v == 10 * x + y;
      TwoDigitIntegerTimeAsWritten(x, y);
      assert NewUntisTimeAsWritten(Int(v)) == Ok(UntisTime(x, y, IntToString(v)));
    } else {
      assert v == 100 * h + 10 * x + y;
      ThreeDigitIntegerTimeLongHourAsWritten(h, x, y);
      assert NewUntisTimeAsWritten(Int(v)) == Ok(UntisTime(10 * h + x, y, IntToString(v)));
    }
  }

  /** From 02:40 to 09:59 the three digits are read as a one-digit hour and a
      two-digit minute, which is right. */
  lemma ThreeDigitTimesFromTwoFortyAsWritten(h: nat, m: nat)
    requires h <= 9 && m <= 59 && 240 <= 100 * h + m
    ensures NewUntisTimeAsWritten(Int(100 * h + m)) == Ok(UntisTime(h, m, IntToString(100 * h + m)))
  {
    var v := 100 * h + m;
    var x, y := m / 10, m % 10;
    assert m == 10 * x + y && v == 100 * h + 10 * x + y;
    ThreeDigitText(h, x, y);
    ThreeDigitTimeShortHourAsWritten(h, x, y);
    AsWrittenOfText(v, [DigitChar(h), DigitChar(x), DigitChar(y)], Clock(h, m));
  }

  /** The unpadded reading of an integer time agrees with the zero-filled one
      exactly from 02:40 on. */
  lemma IntegerTimesAsWrittenFromTwoForty(h: nat, m: nat)
    requires h <= 23 && m <= 59
    ensures NewUntisTimeAsWritten(Int(100 * h + m)) == NewUntisTime(Int(100 * h + m)) <==> 240 <= 100 * h + m
  {
    IntegerTimesRoundTrip(h, m);
    if 100 * h + m < 240 {
      IntegerTimesBeforeTwoFortyMisreadAsWritten(h, m);
    } else if h <= 9 {
      ThreeDigitTimesFromTwoFortyAsWritten(h, m);
    } else {
      IntegerTimesFromTenAsWritten(h, m);
    }
  }

  /** `make_readable` of a time read from an integer shows its zero-filled digits
      as HH:MM. */
  lemma ReadableTimeOfInteger(h: nat, m: nat)
    requires h <= 23 && m <= 59
    ensures NewUntisTime(Int(100 * h + m)).Ok?
    ensures var t := NewUntisTime(Int(100 * h + m)).value;
      var p := Digits4(100 * h + m);
      ReadableTime(t) == p[..2] + ":" + p[2..]
  {
    IntegerTimesRoundTrip(h, m);
    var v := 100 * h + m;
    var p := Digits4(v);
    DigitsValue4(p);
    var hs, ms := Digits2(h), Digits2(m);
    DigitsValue2(hs);
    DigitsValue2(ms);
    DigitsValue2(p[..2]);
    DigitsValue2(p[2..]);
    assert DigitsValue(p[..2]) == h && DigitsValue(p[2..]) == m;
    TwoDigitsAreDigits2(p[..2]);
    TwoDigitsAreDigits2(p[2..]);
  }
}
