/** The pattern builder of ZISO8601DateFormatter: the `DateFormatter`
    pattern chosen for an option set and the UTC offset of the formatter's
    time zone. The tokens are opaque field symbols of the Unicode date-pattern
    table (UTS #35); only which of them appear, and in which order, is modelled. */
module Pattern {
  import opened FormatOptions

  // Each segment below is the value its local variable holds when the
  // builder joins them: the first writer wins where several flags compete.

  /** "YYYY" (week-numbering year) with week of year, else "yyyy" with year. */
  function YearField(o: Options): string {
    if WeekOfYear in o then "YYYY" else if Year in o then "yyyy" else ""
  }

  /** The dash between year and month, present even when both are empty. */
  function DateSeparator(o: Options): string {
    if DashSeparatorInDate in o then "-" else ""
  }

  function MonthField(o: Options): string {
    if Month in o then "MM" else ""
  }

  /** The week of year, wrapped in dashes with the dash option; with the dash
      option and no week of year, the dash between month and day. */
  function WeekField(o: Options): string {
    if DashSeparatorInDate in o then
      (if WeekOfYear in o then "-'W'ww-" else "-")
    else if WeekOfYear in o then "'W'ww" else ""
  }

  /** Day of week, else day of month, else day of year. */
  function DayField(o: Options): string {
    if WeekOfYear in o then "ee"
    else if Month in o then "dd"
    else if Day in o then "DDD"
    else ""
  }

  function DateTimeSeparator(o: Options): string {
    if Time !in o then ""
    else if SpaceBetweenDateAndTime in o then " "
    else "'T'"
  }

  /** One of the hour, minute and second tokens, present only with time. */
  function TimeField(o: Options, token: string): string {
    if Time in o then token else ""
  }

  function TimeSeparator(o: Options): string {
    if Time in o && ColonSeparatorInTime in o then ":" else ""
  }

  function FractionField(o: Options): string {
    if Time in o && FractionalSeconds in o then ".SSS" else ""
  }

  /** "ZZZ" renders a basic `+HHMM` offset and "ZZZZZ" an extended `+HH:MM`
      offset or `Z` for UTC; without the colon option the extended token is
      still chosen for a zero offset. */
  function ZoneField(o: Options, secondsFromGMT: int): string {
    if TimeZone !in o then ""
    else if ColonSeparatorInTimeZone !in o && secondsFromGMT != 0 then "ZZZ"
    else "ZZZZZ"
  }

  /** The first five segments of the join. */
  function DatePart(o: Options): string {
    YearField(o) + DateSeparator(o) + MonthField(o) + WeekField(o) + DayField(o)
  }

  /** The next seven segments of the join. */
  function TimePart(o: Options): string {
    DateTimeSeparator(o) + TimeField(o, "HH") + TimeSeparator(o) + TimeField(o, "mm") +
    TimeSeparator(o) + TimeField(o, "ss") + FractionField(o)
  }

  /** The pattern for option set `o` under a time zone `secondsFromGMT`
      seconds away from UTC: the thirteen segments joined in a fixed order. */
  function DateFormat(o: Options, secondsFromGMT: int): string {
    DatePart(o) + TimePart(o) + ZoneField(o, secondsFromGMT)
  }

  // ---------------------------------------------------------------------
  // The shape of the date and time parts.

  /** With the dash option the date part is year, dash, month, the week of
      year wrapped in dashes (or a lone dash), day; the dashes stay when the
      fields beside them are empty. Without it nothing separates the fields. */
  lemma DashWrapping(o: Options)
    ensures DashSeparatorInDate in o ==>
      DatePart(o) == YearField(o) + "-" + MonthField(o) +
        (if WeekOfYear in o then "-'W'ww-" else "-") + DayField(o)
    ensures DashSeparatorInDate !in o ==>
      DatePart(o) == YearField(o) + MonthField(o) +
        (if WeekOfYear in o then "'W'ww" else "") + DayField(o)
  {
  }

  /** Without the time option the time part is empty, whatever the fractional
      seconds, colon and space options say. With it, the time part is the
      date/time separator (a space or a quoted `T`), then hour, minute and
      second joined by a colon or by nothing, then the optional fraction. */
  lemma TimeShape(o: Options)
    ensures Time !in o ==> TimePart(o) == ""
    ensures Time in o ==>
      var sep := if ColonSeparatorInTime in o then ":" else "";
      TimePart(o) ==
        (if SpaceBetweenDateAndTime in o then " " else "'T'") +
        "HH" + sep + "mm" + sep + "ss" +
        (if FractionalSeconds in o then ".SSS" else "")
  {
  }

  // ---------------------------------------------------------------------
  // Which tokens appear. No two token kinds share a letter, so the letters
  // of the pattern tell which tokens were chosen.

  /** The alphabet of the pattern: each character occurs exactly under the
      options that select a token or separator containing it. In particular
      the year token is "YYYY" whenever week of year is set, even without
      year; the day token is day of week with week of year, else day of month
      with month (whether or not day is set), else day of year; nothing of
      the time appears without the time option; and dashes appear exactly
      with the dash option. */
  lemma {:induction false} PatternChars(o: Options, secondsFromGMT: int, c: char)
    ensures c in DateFormat(o, secondsFromGMT) <==>
      || (c == 'Y' && WeekOfYear in o)
      || (c == 'y' && Year in o && WeekOfYear !in o)
      || (c == '-' && DashSeparatorInDate in o)
      || (c == 'M' && Month in o)
      || ((c == 'W' || c == 'w') && WeekOfYear in o)
      || (c == '\'' && (WeekOfYear in o || (Time in o && SpaceBetweenDateAndTime !in o)))
      || (c == 'e' && WeekOfYear in o)
      || (c == 'd' && Month in o && WeekOfYear !in o)
      || (c == 'D' && Day in o && Month !in o && WeekOfYear !in o)
      || (c == 'T' && Time in o && SpaceBetweenDateAndTime !in o)
      || (c == ' ' && Time in o && SpaceBetweenDateAndTime in o)
      || ((c == 'H' || c == 'm' || c == 's') && Time in o)
      || (c == ':' && Time in o && ColonSeparatorInTime in o)
      || ((c == '.' || c == 'S') && Time in o && FractionalSeconds in o)
      || (c == 'Z' && TimeZone in o)
  {
    DatePartChars(o, c);
    TimePartChars(o, c);
    ZoneFieldChars(o, secondsFromGMT, c);
  }

  /** The year token leads the pattern. */
  lemma YearFirst(o: Options, secondsFromGMT: int)
    ensures WeekOfYear in o ==> "YYYY" <= DateFormat(o, secondsFromGMT)
    ensures Year in o && WeekOfYear !in o ==> "yyyy" <= DateFormat(o, secondsFromGMT)
  {
  }

  /** The zone token ends the pattern: none without the time-zone option;
      "ZZZ" exactly when the colon option is off and the offset is not zero;
      "ZZZZZ" otherwise. No other token has a 'Z'. */
  lemma {:induction false} ZoneToken(o: Options, secondsFromGMT: int)
    ensures multiset(DateFormat(o, secondsFromGMT))['Z'] ==
      if TimeZone !in o then 0
      else if ColonSeparatorInTimeZone !in o && secondsFromGMT != 0 then 3
      else 5
  {
    DatePartChars(o, 'Z');
    TimePartChars(o, 'Z');
    ZoneCount(o, secondsFromGMT);
    CountAfter(DatePart(o) + TimePart(o), ZoneField(o, secondsFromGMT), 'Z');
  }

  /** The three options that only qualify the time have no effect without it. */
  lemma TimeQualifiersInert(a: Options, b: Options, secondsFromGMT: int)
    requires Time !in a
    requires a - {FractionalSeconds, ColonSeparatorInTime, SpaceBetweenDateAndTime} ==
             b - {FractionalSeconds, ColonSeparatorInTime, SpaceBetweenDateAndTime}
    ensures DateFormat(a, secondsFromGMT) == DateFormat(b, secondsFromGMT)
  {
    var q := {FractionalSeconds, ColonSeparatorInTime, SpaceBetweenDateAndTime};
    forall f | f !in q ensures f in a <==> f in b {
      assert f in a - q <==> f in b - q;
    }
    TimeShape(a);
    TimeShape(b);
    assert DatePart(a) == DatePart(b);
    assert ZoneField(a, secondsFromGMT) == ZoneField(b, secondsFromGMT);
  }

  /** The offset matters only through whether it is zero, and only for the
      time-zone option without its colon option. */
  lemma {:induction false} OffsetOnlyThroughZero(o: Options, x: int, y: int)
    ensures DateFormat(o, x) == DateFormat(o, y) <==>
      TimeZone !in o || ColonSeparatorInTimeZone in o || (x == 0 <==> y == 0)
  {
    if TimeZone in o && ColonSeparatorInTimeZone !in o && (x == 0 <==> y != 0) {
      ZoneToken(o, x);
      ZoneToken(o, y);
    }
  }

  // ---------------------------------------------------------------------
  // Concrete patterns, whatever the offset unless stated.

  /** The RFC 3339 preset, the `date-time` production of section 5.6 of
      RFC 3339. */
  lemma InternetDateTimePattern(secondsFromGMT: int)
    ensures DateFormat(WithInternetDateTime, secondsFromGMT) == "yyyy-MM-dd'T'HH:mm:ssZZZZZ"
  {
    InternetDateTimeMembers(WeekOfYear);
    InternetDateTimeLiteral();
    var o := {Year, Month, Day, DashSeparatorInDate, Time, ColonSeparatorInTime,
              TimeZone, ColonSeparatorInTimeZone};
    assert DatePart(o) == "yyyy-MM-dd";
    assert TimePart(o) == "'T'HH:mm:ss";
  }

  lemma FullDatePattern(secondsFromGMT: int)
    ensures DateFormat(WithFullDate, secondsFromGMT) == "yyyy-MM-dd"
  {
  }

  lemma FullTimePattern(secondsFromGMT: int)
    ensures DateFormat(WithFullTime, secondsFromGMT) == "'T'HH:mm:ssZZZZZ"
  {
  }

  lemma EmptyPattern(secondsFromGMT: int)
    ensures DateFormat({}, secondsFromGMT) == ""
  {
  }

  /** At offset zero, the time-zone option alone has the same effective flags
      as the time-zone option with its colon flag. */
  lemma NormalizeAddsZoneColon()
    ensures Normalize({TimeZone}, 0) == {TimeZone, ColonSeparatorInTimeZone}
  {
    assert Effective({TimeZone}, 0, ColonSeparatorInTimeZone);
  }

  /** Year and day of year with the dash option: the dash that stands for the
      absent week of year doubles the separator. */
  lemma OrdinalDatePattern(secondsFromGMT: int)
    ensures DateFormat({Year, Day, DashSeparatorInDate}, secondsFromGMT) == "yyyy--DDD"
  {
  }

  /** The dashes stay when the fields beside them are missing. */
  lemma WeekDatePattern(secondsFromGMT: int)
    ensures DateFormat({WeekOfYear, DashSeparatorInDate}, secondsFromGMT) == "YYYY--'W'ww-ee"
    ensures DateFormat({DashSeparatorInDate}, secondsFromGMT) == "--"
  {
  }

  /** Day of week beats day of month, and month alone brings day of month. */
  lemma WeekAndMonthPattern(secondsFromGMT: int)
    ensures DateFormat({WeekOfYear, Month}, secondsFromGMT) == "YYYYMM'W'wwee"
    ensures DateFormat({Month}, secondsFromGMT) == "MMdd"
  {
  }

  /** The compact time form. */
  lemma CompactTimePattern(secondsFromGMT: int)
    ensures DateFormat({Time, FractionalSeconds}, secondsFromGMT) == "'T'HHmmss.SSS"
  {
  }

  /** The time-zone token alone, by offset. */
  lemma TimeZoneOnlyPattern(secondsFromGMT: int)
    ensures DateFormat({TimeZone}, secondsFromGMT) == if secondsFromGMT == 0 then "ZZZZZ" else "ZZZ"
  {
  }

  // ---------------------------------------------------------------------
  // What the pattern keeps of the options.

  /** Whether flag `f` shows in the pattern of `o`. A flag shadowed by a
      stronger one and a time qualifier without time do not show. The
      time-zone colon flag shows whenever the extended token is chosen: with
      the time-zone option and either the colon flag or a zero offset, so at
      offset zero it shows even when it is not in `o`. */
  predicate Effective(o: Options, secondsFromGMT: int, f: Flag) {
    match f
    case Year => Year in o && WeekOfYear !in o
    case Month => Month in o
    case WeekOfYear => WeekOfYear in o
    case Day => Day in o && Month !in o && WeekOfYear !in o
    case Time => Time in o
    case TimeZone => TimeZone in o
    case SpaceBetweenDateAndTime => Time in o && SpaceBetweenDateAndTime in o
    case DashSeparatorInDate => DashSeparatorInDate in o
    case ColonSeparatorInTime => Time in o && ColonSeparatorInTime in o
    case ColonSeparatorInTimeZone =>
      TimeZone in o && (ColonSeparatorInTimeZone in o || secondsFromGMT == 0)
    case FractionalSeconds => Time in o && FractionalSeconds in o
  }

  /** The normal form of a configuration: its effective flags. It drops the
      flags that do not show and, at offset zero with the time-zone option,
      adds the time-zone colon flag. */
  function Normalize(o: Options, secondsFromGMT: int): (n: Options)
    ensures forall f :: f in n <==> Effective(o, secondsFromGMT, f)
  {
    set f | f in AllFlags && Effective(o, secondsFromGMT, f)
  }

  /** Whether the letters of flag `f` occur in pattern `p`. */
  predicate Shows(p: string, f: Flag) {
    match f
    case Year => 'y' in p
    case Month => 'M' in p
    case WeekOfYear => 'W' in p
    case Day => 'D' in p
    case Time => 'H' in p
    case TimeZone => 'Z' in p
    case SpaceBetweenDateAndTime => ' ' in p
    case DashSeparatorInDate => '-' in p
    case ColonSeparatorInTime => ':' in p
    case ColonSeparatorInTimeZone => multiset(p)['Z'] == 5
    case FractionalSeconds => 'S' in p
  }

  /** Reads the effective flags back from a pattern. */
  function Decode(p: string): (o: Options)
    ensures forall f :: f in o <==> Shows(p, f)
  {
    set f | f in AllFlags && Shows(p, f)
  }

  /** Decoding a pattern recovers exactly the effective flags of the
      configuration that produced it. */
  lemma {:induction false} DecodeDateFormat(o: Options, secondsFromGMT: int)
    ensures Decode(DateFormat(o, secondsFromGMT)) == Normalize(o, secondsFromGMT)
  {
    var p := DateFormat(o, secondsFromGMT);
    forall f ensures f in Decode(p) <==> f in Normalize(o, secondsFromGMT) {
      if f == ColonSeparatorInTimeZone {
        ZoneToken(o, secondsFromGMT);
      } else {
        ShowsEffective(o, secondsFromGMT, f);
      }
    }
  }

  /** One flag of `DecodeDateFormat`. */
  lemma {:induction false} ShowsEffective(o: Options, secondsFromGMT: int, f: Flag)
    requires f != ColonSeparatorInTimeZone
    ensures Shows(DateFormat(o, secondsFromGMT), f) <==> Effective(o, secondsFromGMT, f)
  {
    match f
    case Year => PatternChars(o, secondsFromGMT, 'y');
    case Month => PatternChars(o, secondsFromGMT, 'M');
    case WeekOfYear => PatternChars(o, secondsFromGMT, 'W');
    case Day => PatternChars(o, secondsFromGMT, 'D');
    case Time => PatternChars(o, secondsFromGMT, 'H');
    case TimeZone => PatternChars(o, secondsFromGMT, 'Z');
    case SpaceBetweenDateAndTime => PatternChars(o, secondsFromGMT, ' ');
    case DashSeparatorInDate => PatternChars(o, secondsFromGMT, '-');
    case ColonSeparatorInTime => PatternChars(o, secondsFromGMT, ':');
    case FractionalSeconds => PatternChars(o, secondsFromGMT, 'S');
  }

  /** Replacing the options by their normal form, which drops the flags that
      do not show and may add the time-zone colon flag, leaves the pattern
      unchanged. */
  lemma NormalizeKeepsDateFormat(o: Options, secondsFromGMT: int)
    ensures DateFormat(Normalize(o, secondsFromGMT), secondsFromGMT) == DateFormat(o, secondsFromGMT)
  {
    var n := Normalize(o, secondsFromGMT);
    assert YearField(n) == YearField(o);
    assert DateSeparator(n) == DateSeparator(o);
    assert MonthField(n) == MonthField(o);
    assert WeekField(n) == WeekField(o);
    assert DayField(n) == DayField(o);
    assert DateTimeSeparator(n) == DateTimeSeparator(o);
    assert TimeSeparator(n) == TimeSeparator(o);
    assert FractionField(n) == FractionField(o);
    assert TimeField(n, "HH") == TimeField(o, "HH");
    assert TimeField(n, "mm") == TimeField(o, "mm");
    assert TimeField(n, "ss") == TimeField(o, "ss");
    assert ZoneField(n, secondsFromGMT) == ZoneField(o, secondsFromGMT);
  }

  /** Two configurations give the same pattern exactly when they have the same
      effective flags: the builder loses nothing beyond its precedence rules. */
  lemma {:induction false} SameDateFormat(a: Options, x: int, b: Options, y: int)
    ensures DateFormat(a, x) == DateFormat(b, y) <==> Normalize(a, x) == Normalize(b, y)
  {
    DecodeDateFormat(a, x);
    DecodeDateFormat(b, y);
    if Normalize(a, x) == Normalize(b, y) {
      var n := Normalize(a, x);
      NormalizeKeepsDateFormat(a, x);
      NormalizeKeepsDateFormat(b, y);
      OffsetOnlyThroughZero(n, x, y);
      assert Effective(a, x, TimeZone) == Effective(b, y, TimeZone);
      assert Effective(a, x, ColonSeparatorInTimeZone) == Effective(b, y, ColonSeparatorInTimeZone);
    }
  }

  // ---------------------------------------------------------------------
  // Helpers: the characters of each part and segment.

  lemma DatePartChars(o: Options, c: char)
    ensures c in DatePart(o) <==>
      || (c == 'Y' && WeekOfYear in o)
      || (c == 'y' && Year in o && WeekOfYear !in o)
      || (c == '-' && DashSeparatorInDate in o)
      || (c == 'M' && Month in o)
      || ((c == '\'' || c == 'W' || c == 'w') && WeekOfYear in o)
      || (c == 'e' && WeekOfYear in o)
      || (c == 'd' && Month in o && WeekOfYear !in o)
      || (c == 'D' && Day in o && Month !in o && WeekOfYear !in o)
  {
    YearFieldChars(o, c);
    WeekFieldChars(o, c);
    DayFieldChars(o, c);
  }

  lemma TimePartChars(o: Options, c: char)
    ensures c in TimePart(o) <==>
      || ((c == '\'' || c == 'T') && Time in o && SpaceBetweenDateAndTime !in o)
      || (c == ' ' && Time in o && SpaceBetweenDateAndTime in o)
      || ((c == 'H' || c == 'm' || c == 's') && Time in o)
      || (c == ':' && Time in o && ColonSeparatorInTime in o)
      || ((c == '.' || c == 'S') && Time in o && FractionalSeconds in o)
  {
    DateTimeSeparatorChars(o, c);
    FractionFieldChars(o, c);
  }

  lemma YearFieldChars(o: Options, c: char)
    ensures c in YearField(o) <==>
      (c == 'Y' && WeekOfYear in o) || (c == 'y' && Year in o && WeekOfYear !in o)
  {
  }

  lemma WeekFieldChars(o: Options, c: char)
    ensures c in WeekField(o) <==>
      (c == '-' && DashSeparatorInDate in o) || ((c == '\'' || c == 'W' || c == 'w') && WeekOfYear in o)
  {
  }

  lemma DayFieldChars(o: Options, c: char)
    ensures c in DayField(o) <==>
      (c == 'e' && WeekOfYear in o) || (c == 'd' && Month in o && WeekOfYear !in o) ||
      (c == 'D' && Day in o && Month !in o && WeekOfYear !in o)
  {
  }

  lemma DateTimeSeparatorChars(o: Options, c: char)
    ensures c in DateTimeSeparator(o) <==>
      Time in o && (if SpaceBetweenDateAndTime in o then c == ' ' else c == '\'' || c == 'T')
  {
  }

  lemma FractionFieldChars(o: Options, c: char)
    ensures c in FractionField(o) <==> (c == '.' || c == 'S') && Time in o && FractionalSeconds in o
  {
  }

  /** A character absent from a prefix is counted in the suffix alone. */
  lemma CountAfter(prefix: string, suffix: string, c: char)
    requires c !in prefix
    ensures multiset(prefix + suffix)[c] == multiset(suffix)[c]
  {
    assert multiset(prefix + suffix) == multiset(prefix) + multiset(suffix);
  }

  lemma ZoneCount(o: Options, secondsFromGMT: int)
    ensures multiset(ZoneField(o, secondsFromGMT))['Z'] ==
      if TimeZone !in o then 0
      else if ColonSeparatorInTimeZone !in o && secondsFromGMT != 0 then 3
      else 5
  {
  }

  lemma ZoneFieldChars(o: Options, secondsFromGMT: int, c: char)
    ensures c in ZoneField(o, secondsFromGMT) <==> c == 'Z' && TimeZone in o
  {
  }
}
