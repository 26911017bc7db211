# ZISO8601DateFormatter in Dafny

ZISO8601DateFormatter is a `DateFormatter` subclass that formats and parses
ISO 8601 / RFC 3339 timestamps. The caller picks the fields to include as an
option set. The formatter turns that set into a `DateFormatter` pattern and
keeps it in a private cache. Before every `string(from:)` and `date(from:)`,
it installs the cached pattern as the inherited `dateFormat`.

This project models three parts:

- The option set (`options.dfy`, module `FormatOptions`): eleven flags, their
  bits in the raw value, and the three presets.
- The pattern builder (`pattern.dfy`, module `Pattern`). `DateFormat(o, secondsFromGMT)`
  is the pattern for options `o` under a time zone `secondsFromGMT` seconds from
  UTC. It is the join of thirteen segments in a fixed order; each segment function
  gives the value its local variable holds in the builder. Its partners:
  - `Normalize` gives the flags that actually show in the pattern.
  - `Decode` reads those flags back from the pattern's letters.
  - The lemmas prove that the pattern determines exactly the normalized flags.
- The formatter object (`formatter.dfy`, class `ZISO8601.ZISO8601DateFormatter`):
  - `DateFormatFrom` is the builder written step by step, as in the source, and
    proved equal to `DateFormat`.
  - `SetFormatOptions` is the `formatOptions` setter with its observer.
  - `SetTimeZone` is the inherited time-zone setter, which leaves the cache alone.
  - `StringFrom` and `DateFrom` are the two overridden conversions.

The inherited rendering and parsing of `DateFormatter` are passed in as
functions (`render`, `parse`) of the pattern, the time zone and the input. The
time zone appears only as its UTC offset in seconds.

The model follows the code as written, including these behaviours:

- A new formatter has the RFC 3339 preset (`ZISO8601DateFormatter.swift:14`),
  but its cached pattern is the empty string. The property observer does not
  run for a stored property's default value, so until the options are
  assigned, conversions use an empty pattern
  (`ZISO8601.ZISO8601DateFormatter.constructor`).
- The builder reads the current time zone's offset (`ZISO8601DateFormatter.swift:74`),
  but only an options change runs the builder. When the time-zone option is
  set without its colon option, and the offset moves to or from zero, the
  cached pattern is stale (`ZISO8601.ZISO8601DateFormatter.SetTimeZone`).
- With the dash option, dashes are emitted next to empty fields
  (`ZISO8601DateFormatter.swift:82-93`), so the separator doubles where ISO 8601
  has one dash. A week date gives `YYYY--'W'ww-ee`, because the month between
  the two dashes is empty. An ordinal date gives `yyyy--DDD`, because the lone
  dash that replaces the absent week of year (line 88) follows the year/month
  dash. ISO 8601 writes `YYYY-'W'ww-e` and `yyyy-DDD`
  (`Pattern.WeekDatePattern`, `Pattern.OrdinalDatePattern`). The model keeps
  this join as written and does not propose a corrected one.
- The builder ignores its `options` argument and reads the `formatOptions`
  property. The one caller passes that same property, so the results agree.

The first two are listed under "## Findings". The model keeps the conversions
as written (`StringFrom`, `DateFrom`). Beside them, `StringFromCurrent` and
`DateFromCurrent` are the corrected conversions, which rebuild the pattern first.

## Model

| member | source | states |
|---|---|---|
| FormatOptions.Bit | ZISO8601DateFormatter.swift:125-144 | Every flag sits below bit 12 and none uses bit 3. |
| FormatOptions.BitInjective | ZISO8601DateFormatter.swift:125-144 | Distinct flags occupy distinct bits. |
| FormatOptions.MaskIsShiftedBit | ZISO8601DateFormatter.swift:125-144 | The raw value of each flag is `1 << Bit(f)`, as each flag is declared. |
| FormatOptions.UnionRawValue | ZISO8601DateFormatter.swift:149 | The raw value of a union is the bitwise OR of the raw values: the sum less the shared bits, so a union of disjoint sets adds them. |
| FormatOptions.InternetDateTimeMembers | ZISO8601DateFormatter.swift:146-149 | The RFC 3339 preset holds every flag except week of year, the date/time space and fractional seconds. Its members are exactly those of the full-date and full-time presets. |
| FormatOptions.InternetDateTimeLiteral | ZISO8601DateFormatter.swift:146-149 | The RFC 3339 preset, written out as a set of eight flags. |
| FormatOptions.InternetDateTimeRawValue | ZISO8601DateFormatter.swift:125-149 | Raw values of the presets: full date 0x113, full time 0x660, RFC 3339 0x773. |
| Pattern.DashWrapping | ZISO8601DateFormatter.swift:82-93 | With the dash option, the date part is year, `-`, month, then the week wrapped in dashes (or a lone `-`), then day. Dashes stay even next to empty fields. Without it, the fields are joined with no separator. |
| Pattern.TimeShape | ZISO8601DateFormatter.swift:51-68 | Without the time option the time part is empty. With it, the time part is a `'T'` or a space, then `HH`, `mm`, `ss` joined by `:` or by nothing, then an optional `.SSS`. |
| Pattern.PatternChars | ZISO8601DateFormatter.swift:20-96 | For every character, it occurs in the pattern iff an option selecting a token that contains it is set. This covers the precedence rules: `YYYY` over `yyyy`; `ee` over `dd` over `DDD`; month alone brings `dd`. No time letters appear without time; `-` appears iff the dash option is set. |
| Pattern.YearFirst | ZISO8601DateFormatter.swift:26-36 | The pattern starts with `YYYY` when week of year is set. Otherwise it starts with `yyyy` when year is set. |
| Pattern.ZoneToken | ZISO8601DateFormatter.swift:70-80 | The pattern holds 0, 3 or 5 `Z`s. It has none without the time-zone option. It has `ZZZ` exactly when the colon option is off and the offset is non-zero, and `ZZZZZ` otherwise. |
| Pattern.TimeQualifiersInert | ZISO8601DateFormatter.swift:51-68 | Without the time option, fractional seconds, the time colon and the date/time space do not change the pattern. |
| Pattern.OffsetOnlyThroughZero | ZISO8601DateFormatter.swift:70-80 | Two offsets give the same pattern iff the time-zone option is off, or its colon option is on, or both offsets are zero or both non-zero. |
| Pattern.InternetDateTimePattern | ZISO8601DateFormatter.swift:20-96 | The RFC 3339 preset gives `yyyy-MM-dd'T'HH:mm:ssZZZZZ` at every offset. |
| Pattern.FullDatePattern | ZISO8601DateFormatter.swift:20-96 | The full-date preset gives `yyyy-MM-dd`. |
| Pattern.FullTimePattern | ZISO8601DateFormatter.swift:20-96 | The full-time preset gives `'T'HH:mm:ssZZZZZ`. |
| Pattern.EmptyPattern | ZISO8601DateFormatter.swift:20-96 | The empty option set gives the empty pattern. |
| Pattern.WeekDatePattern | ZISO8601DateFormatter.swift:82-90 | Week of year with dashes gives `YYYY--'W'ww-ee`. Dashes alone give `--`. |
| Pattern.OrdinalDatePattern | ZISO8601DateFormatter.swift:82-93 | Year, day and the dash option give `yyyy--DDD`: the dash for the absent week of year doubles the separator. |
| Pattern.WeekAndMonthPattern | ZISO8601DateFormatter.swift:26-43 | Week of year with month gives `YYYYMM'W'wwee`. Month alone gives `MMdd`. |
| Pattern.CompactTimePattern | ZISO8601DateFormatter.swift:51-68 | Time with fractional seconds gives `'T'HHmmss.SSS`. |
| Pattern.TimeZoneOnlyPattern | ZISO8601DateFormatter.swift:70-80 | The time-zone option alone gives `ZZZZZ` at offset zero and `ZZZ` at any other offset. |
| Pattern.Normalize | ZISO8601DateFormatter.swift:20-96 | The normal form holds exactly the flags that take effect under the builder's precedence rules and the offset. It drops shadowed flags and time qualifiers without time. With the time-zone option at offset zero, it adds the time-zone colon flag, because the extended token is chosen anyway. |
| Pattern.Decode | ZISO8601DateFormatter.swift:20-96 | The flags read back from a pattern are exactly those whose letters occur in it. For the time-zone colon, that means five `Z`s. |
| Pattern.DecodeDateFormat | ZISO8601DateFormatter.swift:20-96 | Decoding the pattern of a configuration gives back exactly its normalized flags. |
| Pattern.NormalizeKeepsDateFormat | ZISO8601DateFormatter.swift:20-96 | The normalized flags produce the same pattern as the original options. |
| Pattern.NormalizeAddsZoneColon | ZISO8601DateFormatter.swift:70-80 | At offset zero, `{TimeZone}` normalizes to `{TimeZone, ColonSeparatorInTimeZone}`. |
| Pattern.SameDateFormat | ZISO8601DateFormatter.swift:20-96 | Two configurations give the same pattern iff their normalized flags are equal. |
| ZISO8601.ZISO8601DateFormatter.constructor | ZISO8601DateFormatter.swift:12-18 | A new formatter has the RFC 3339 preset, an empty cached pattern and an empty installed pattern. Its cache is not up to date. |
| ZISO8601.ZISO8601DateFormatter.DateFormatFrom | ZISO8601DateFormatter.swift:20-96 | The step-by-step builder returns `DateFormat` of the formatter's own options and offset, whatever its argument. |
| ZISO8601.ZISO8601DateFormatter.SetFormatOptions | ZISO8601DateFormatter.swift:14-18 | Assigning the options stores them and recomputes the cache, which is then up to date. Nothing else changes. |
| ZISO8601.ZISO8601DateFormatter.SetTimeZone | ZISO8601DateFormatter.swift:70-80 | Changing the offset leaves the cache as it was. An up-to-date cache stays up to date iff the zone token cannot change: no time-zone option, the colon option, or unchanged zero-ness of the offset. |
| ZISO8601.ZISO8601DateFormatter.StringFrom | ZISO8601DateFormatter.swift:98-102 | Installs the cached pattern and renders with it and the current offset. With an up-to-date cache, the pattern is that of the current options and offset. |
| ZISO8601.ZISO8601DateFormatter.DateFrom | ZISO8601DateFormatter.swift:104-108 | Installs the cached pattern and parses with it and the current offset. With an up-to-date cache, the pattern is that of the current options and offset. |
| ZISO8601.ZISO8601DateFormatter.StringFromCurrent | ZISO8601DateFormatter.swift:98-102 | Corrected conversion: it rebuilds the cache from the current options and offset, installs it, and renders with exactly that pattern and offset. |
| ZISO8601.ZISO8601DateFormatter.DateFromCurrent | ZISO8601DateFormatter.swift:104-108 | Corrected conversion: it rebuilds the cache from the current options and offset, installs it, and parses with exactly that pattern and offset. |
| ZISO8601.FreshFormatterUsesEmptyPattern | ZISO8601DateFormatter.swift:12-18 | A new formatter at UTC whose options were never assigned renders with `""`, while its preset's pattern is `yyyy-MM-dd'T'HH:mm:ssZZZZZ`. |
| ZISO8601.FreshFormatterUsesPreset | ZISO8601DateFormatter.swift:12-18 | With the corrected conversion, a new formatter renders with `yyyy-MM-dd'T'HH:mm:ssZZZZZ`. |
| ZISO8601.StaleAfterTimeZoneChange | ZISO8601DateFormatter.swift:70-80 | Options `[.withTimeZone]` are set at UTC, then the zone moves to UTC+1. Rendering at UTC+1 still uses `ZZZZZ`, although the pattern for the new offset is `ZZZ`. |
| ZISO8601.CurrentAfterTimeZoneChange | ZISO8601DateFormatter.swift:70-80 | With the corrected conversion, the same sequence renders with `ZZZ`. |

## Left out

- `DateFormatter` rendering and parsing: these are Foundation code. They appear as the `render` and `parse` parameters, which receive the pattern, the time zone's offset and the input. Nothing is assumed about what they compute.
- ZISO8601.ZISO8601DateFormatter.StringFrom: the result is modelled as independent of the formatter's locale and calendar, which Foundation also reads; only the pattern and the offset reach `render` and `parse`.
- ZISO8601.ZISO8601DateFormatter.DateFrom: the result is modelled as independent of the formatter's locale and calendar, which Foundation also reads; only the pattern and the offset reach `render` and `parse`.
- ZISO8601.ZISO8601DateFormatter.StringFromCurrent: the result is modelled as independent of the formatter's locale and calendar, which Foundation also reads; only the pattern and the offset reach `render` and `parse`.
- ZISO8601.ZISO8601DateFormatter.DateFromCurrent: the result is modelled as independent of the formatter's locale and calendar, which Foundation also reads; only the pattern and the offset reach `render` and `parse`.
- The time-zone database: a time zone is reduced to `secondsFromGMT()` at the moment the pattern is built. Offset changes over time, such as daylight saving, are not modelled.
- FormatOptions.RawValue: `init(rawValue:)` and bits outside the eleven flags are not modelled. An option set is a set of flags, and its raw value is only computed for the presets.
- The `OptionSet` protocol machinery (insert, remove, intersection) is not modelled; the builder only uses membership and union.
- The presets and most flags are declared as `static var`, so they could be reassigned at run time. They are modelled as constants.
- Thread safety: the class has no locking. Concurrent use of one formatter is not modelled.
- Other inherited `DateFormatter` state (locale, calendar, the public `dateFormat` setter) is not modelled. This class never reads it directly; the inherited rendering and parsing do.

## Findings

| source | as written | input that shows it | evidently intended | confidence | as-written member | corrected member |
|---|---|---|---|---|---|---|
| ZISO8601DateFormatter.swift:12-18 | The cached pattern starts as `""`. It is only filled by the `formatOptions` observer, which does not run for the property's default value. | A new formatter, `string(from:)` without assigning `formatOptions` | Render with the default preset's pattern, `yyyy-MM-dd'T'HH:mm:ssZZZZZ` | high, not executed | ZISO8601.FreshFormatterUsesEmptyPattern | ZISO8601.ZISO8601DateFormatter.StringFromCurrent |
| ZISO8601DateFormatter.swift:70-80 | The zone token depends on the time zone's offset, but only an options change rebuilds the cache. | `formatOptions = [.withTimeZone]` at UTC, then `timeZone` set to UTC+1, then `string(from:)` | Use `ZZZ`, the token for a non-zero offset without the colon option | medium, not executed | ZISO8601.StaleAfterTimeZoneChange | ZISO8601.ZISO8601DateFormatter.StringFromCurrent |
