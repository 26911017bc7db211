/** The class ZISO8601DateFormatter: a `DateFormatter` subclass that keeps the
    pattern for its option set in a private cache and installs that cache as
    the inherited `dateFormat` before every conversion. */
module ZISO8601 {
  import opened FormatOptions
  import opened Pattern

  datatype Option<T> = None | Some(value: T)

  /** The formatter's state: its options, the cached pattern, and the two
      pieces of inherited `DateFormatter` state the class touches — the
      installed pattern and the UTC offset of the time zone. */
  class ZISO8601DateFormatter {
    var formatOptions: Options
    /** `_dateOptionsFormat`: the pattern computed when the options were last assigned. */
    var cachedFormat: string
    /** The inherited `dateFormat` pattern used by rendering and parsing. */
    var dateFormat: string
    /** `timeZone.secondsFromGMT()` of the inherited time zone. */
    var secondsFromGMT: int

    /** Whether the cache holds the pattern of the current options and offset. */
    predicate UpToDate()
      reads this
    {
      cachedFormat == DateFormat(formatOptions, secondsFromGMT)
    }

    /** A fresh formatter has the RFC 3339 preset, but the cache keeps its
        initial empty string: the observer of `formatOptions` does not run
        for the property's default value. */
    constructor(secondsFromGMT: int)
      ensures formatOptions == WithInternetDateTime && this.secondsFromGMT == secondsFromGMT
      ensures cachedFormat == "" && dateFormat == ""
      ensures !UpToDate()
    {
      formatOptions := WithInternetDateTime;
      cachedFormat := "";
      dateFormat := "";
      this.secondsFromGMT := secondsFromGMT;
      InternetDateTimePattern(secondsFromGMT);
    }

    /** The pattern builder. It reads the `formatOptions` field, not its
        parameter, and the offset of the current time zone. */
    method DateFormatFrom(options: Options) returns (pattern: string)
      ensures pattern == DateFormat(formatOptions, secondsFromGMT)
    {
      var year, month, weekOfYear, day := "", "", "", "";
      var hour, minute, second, fractionalSeconds, timeZone := "", "", "", "", "";
      var dateAndTime, inDate, inTime := "", "", "";

      if WeekOfYear in formatOptions {
        year := "YYYY";
        day := "ee";
        weekOfYear := "'W'ww";
      }
      assert year == (if WeekOfYear in formatOptions then "YYYY" else "");
      if Year in formatOptions {
        if year == "" {
          year := "yyyy";
        }
      }
      assert year == YearField(formatOptions);
      if Month in formatOptions {
        month := "MM";
        if day == "" {
          day := "dd";
        }
      }
      if Day in formatOptions {
        if day == "" {
          day := "DDD";
        }
      }
      assert day == DayField(formatOptions) && month == MonthField(formatOptions);
      if Time in formatOptions {
        hour := "HH";
        minute := "mm";
        second := "ss";
        dateAndTime := "'T'";
        if FractionalSeconds in formatOptions {
          fractionalSeconds := ".SSS";
        }
        if ColonSeparatorInTime in formatOptions {
          inTime := ":";
        }
        if SpaceBetweenDateAndTime in formatOptions {
          dateAndTime := " ";
        }
      }
      assert dateAndTime == DateTimeSeparator(formatOptions) && inTime == TimeSeparator(formatOptions);
      assert hour == TimeField(formatOptions, "HH") && minute == TimeField(formatOptions, "mm");
      assert second == TimeField(formatOptions, "ss") && fractionalSeconds == FractionField(formatOptions);
      if TimeZone in formatOptions {
        if ColonSeparatorInTimeZone in formatOptions {
          timeZone := "ZZZZZ";
        } else if secondsFromGMT != 0 {
          timeZone := "ZZZ";
        } else {
          timeZone := "ZZZZZ";
        }
      }
      assert timeZone == ZoneField(formatOptions, secondsFromGMT);
      if DashSeparatorInDate in formatOptions {
        inDate := "-";
        if |weekOfYear| > 0 {
          weekOfYear := "-" + weekOfYear + "-";
        } else {
          weekOfYear := inDate;
        }
      }
      assert inDate == DateSeparator(formatOptions) && weekOfYear == WeekField(formatOptions);

      pattern := year + inDate + month + weekOfYear + day + dateAndTime +
                 hour + inTime + minute + inTime + second + fractionalSeconds + timeZone;

      Regroup(year, inDate, month, weekOfYear, day, dateAndTime,
              hour, inTime, minute, inTime, second, fractionalSeconds, timeZone);
    }

    /** Assigning `formatOptions` recomputes the cache, which is then up to date. */
    method SetFormatOptions(options: Options)
      modifies this`formatOptions, this`cachedFormat
      ensures formatOptions == options
      ensures cachedFormat == DateFormat(options, secondsFromGMT)
      ensures UpToDate()
    {
      formatOptions := options;
      cachedFormat := DateFormatFrom(formatOptions);
    }

    /** Changing the time zone leaves the cache as it was. An up-to-date
        cache stays so exactly when the change cannot matter: no time-zone
        token, the colon option, or an offset that stays zero or non-zero. */
    method SetTimeZone(secondsFromGMT: int)
      modifies this`secondsFromGMT
      ensures this.secondsFromGMT == secondsFromGMT
      ensures old(UpToDate()) ==>
        (UpToDate() <==>
          TimeZone !in formatOptions || ColonSeparatorInTimeZone in formatOptions ||
          (old(this.secondsFromGMT) == 0 <==> secondsFromGMT == 0))
    {
      OffsetOnlyThroughZero(formatOptions, this.secondsFromGMT, secondsFromGMT);
      this.secondsFromGMT := secondsFromGMT;
    }

    /** `string(from:)`: installs the cached pattern, then renders with it.
        `render` stands for the inherited `DateFormatter` rendering, which
        also reads the formatter's time zone; it is given the UTC offset. */
    method StringFrom<D>(date: D, render: (string, int, D) -> string) returns (s: string)
      modifies this`dateFormat
      ensures dateFormat == cachedFormat
      ensures s == render(cachedFormat, secondsFromGMT, date)
      ensures UpToDate() ==> s == render(DateFormat(formatOptions, secondsFromGMT), secondsFromGMT, date)
    {
      dateFormat := cachedFormat;
      s := render(dateFormat, secondsFromGMT, date);
    }

    /** `date(from:)`: installs the cached pattern, then parses with it.
        `parse` stands for the inherited `DateFormatter` parsing, which also
        reads the formatter's time zone; it is given the UTC offset. */
    method DateFrom<D>(text: string, parse: (string, int, string) -> Option<D>) returns (d: Option<D>)
      modifies this`dateFormat
      ensures dateFormat == cachedFormat
      ensures d == parse(cachedFormat, secondsFromGMT, text)
      ensures UpToDate() ==> d == parse(DateFormat(formatOptions, secondsFromGMT), secondsFromGMT, text)
    {
      dateFormat := cachedFormat;
      d := parse(dateFormat, secondsFromGMT, text);
    }

    /** Corrected `string(from:)`: rebuilds the cache from the current options
        and time zone before installing it, so a conversion never uses a
        pattern that is missing or stale. */
    method StringFromCurrent<D>(date: D, render: (string, int, D) -> string) returns (s: string)
      modifies this`cachedFormat, this`dateFormat
      ensures UpToDate() && dateFormat == cachedFormat
      ensures s == render(DateFormat(formatOptions, secondsFromGMT), secondsFromGMT, date)
    {
      cachedFormat := DateFormatFrom(formatOptions);
      dateFormat := cachedFormat;
      s := render(dateFormat, secondsFromGMT, date);
    }

    /** Corrected `date(from:)`, rebuilding the cache as `StringFromCurrent` does. */
    method DateFromCurrent<D>(text: string, parse: (string, int, string) -> Option<D>) returns (d: Option<D>)
      modifies this`cachedFormat, this`dateFormat
      ensures UpToDate() && dateFormat == cachedFormat
      ensures d == parse(DateFormat(formatOptions, secondsFromGMT), secondsFromGMT, text)
    {
      cachedFormat := DateFormatFrom(formatOptions);
      dateFormat := cachedFormat;
      d := parse(dateFormat, secondsFromGMT, text);
    }
  }

  /** As written, a formatter used without assigning its options renders with
      the empty pattern, not with the pattern of its RFC 3339 preset. */
  method FreshFormatterUsesEmptyPattern<D>(date: D, render: (string, int, D) -> string) returns (s: string)
    ensures s == render("", 0, date)
    ensures DateFormat(WithInternetDateTime, 0) == "yyyy-MM-dd'T'HH:mm:ssZZZZZ"
  {
    var f := new ZISO8601DateFormatter(0);
    s := f.StringFrom(date, render);
    InternetDateTimePattern(0);
  }

  /** With the corrected conversion, the same formatter renders with the
      RFC 3339 pattern. */
  method FreshFormatterUsesPreset<D>(date: D, render: (string, int, D) -> string) returns (s: string)
    ensures s == render("yyyy-MM-dd'T'HH:mm:ssZZZZZ", 0, date)
  {
    var f := new ZISO8601DateFormatter(0);
    s := f.StringFromCurrent(date, render);
    InternetDateTimePattern(0);
  }

  /** As written, options holding the time zone without its colon, set while
      the zone is UTC, keep the extended token after a move to UTC+1, although
      the pattern for that offset has the basic one. */
  method StaleAfterTimeZoneChange<D>(date: D, render: (string, int, D) -> string) returns (s: string)
    ensures s == render("ZZZZZ", 3600, date)
    ensures DateFormat({TimeZone}, 3600) == "ZZZ"
  {
    var f := new ZISO8601DateFormatter(0);
    f.SetFormatOptions({TimeZone});
    TimeZoneOnlyPattern(0);
    f.SetTimeZone(3600);
    s := f.StringFrom(date, render);
    TimeZoneOnlyPattern(3600);
  }

  /** With the corrected conversion, the same sequence renders with the
      basic token of the new offset. */
  method CurrentAfterTimeZoneChange<D>(date: D, render: (string, int, D) -> string) returns (s: string)
    ensures s == render("ZZZ", 3600, date)
  {
    var f := new ZISO8601DateFormatter(0);
    f.SetFormatOptions({TimeZone});
    f.SetTimeZone(3600);
    s := f.StringFromCurrent(date, render);
    TimeZoneOnlyPattern(3600);
  }

  /** The thirteen-way join of the builder, grouped as date, time and zone. */
  lemma Regroup(a: string, b: string, c: string, d: string, e: string,
                f: string, g: string, h: string, i: string, j: string, k: string, l: string,
                m: string)
    ensures a + b + c + d + e + f + g + h + i + j + k + l + m ==
            (a + b + c + d + e) + (f + g + h + i + j + k + l) + m
  {
  }
}
