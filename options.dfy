/** The option set of ZISO8601DateFormatter: eleven independent flags, each
    one bit of a raw unsigned word, and three presets built as unions. */
module FormatOptions {

  datatype Flag =
    | Year
    | Month
    | WeekOfYear
    | Day
    | Time
    | TimeZone
    | SpaceBetweenDateAndTime
    | DashSeparatorInDate
    | ColonSeparatorInTime
    | ColonSeparatorInTimeZone
    | FractionalSeconds

  /** An option set. Membership is `OptionSet.contains`, `+` is union. Any
      subset is a valid option set; no validation is done. */
  type Options = set<Flag>

  /** Every flag, in bit order. */
  const AllFlags: seq<Flag> := [
    Year, Month, WeekOfYear, Day, Time, TimeZone, SpaceBetweenDateAndTime,
    DashSeparatorInDate, ColonSeparatorInTime, ColonSeparatorInTimeZone, FractionalSeconds]

  /** The bit a flag occupies in the raw value. Bit 3 is unused. */
  function Bit(f: Flag): (b: nat)
    ensures b < 12 && b != 3
  {
    match f
    case Year => 0
    case Month => 1
    case WeekOfYear => 2
    case Day => 4
    case Time => 5
    case TimeZone => 6
    case SpaceBetweenDateAndTime => 7
    case DashSeparatorInDate => 8
    case ColonSeparatorInTime => 9
    case ColonSeparatorInTimeZone => 10
    case FractionalSeconds => 11
  }

  /** `1 << n`. */
  function Pow2(n: nat): (p: nat)
    ensures p >= 1
  {
    if n == 0 then 1 else 2 * Pow2(n - 1)
  }

  /** The raw value of a single flag; `MaskIsShiftedBit` proves it is `1 << Bit(f)`. */
  function Mask(f: Flag): nat {
    match f
    case Year => 0x1
    case Month => 0x2
    case WeekOfYear => 0x4
    case Day => 0x10
    case Time => 0x20
    case TimeZone => 0x40
    case SpaceBetweenDateAndTime => 0x80
    case DashSeparatorInDate => 0x100
    case ColonSeparatorInTime => 0x200
    case ColonSeparatorInTimeZone => 0x400
    case FractionalSeconds => 0x800
  }

  /** What flag `f` adds to the raw value of `s`. */
  function Term(s: Options, f: Flag): nat {
    if f in s then Mask(f) else 0
  }

  /** `rawValue` of an option set: the sum of the masks of its members. */
  function RawValue(s: Options): nat {
    Term(s, Year) +
    Term(s, Month) +
    Term(s, WeekOfYear) +
    Term(s, Day) +
    Term(s, Time) +
    Term(s, TimeZone) +
    Term(s, SpaceBetweenDateAndTime) +
    Term(s, DashSeparatorInDate) +
    Term(s, ColonSeparatorInTime) +
    Term(s, ColonSeparatorInTimeZone) +
    Term(s, FractionalSeconds)
  }

  /** The mask of each flag is one shifted by its bit, as the declarations
      of the flags write it. */
  lemma {:induction false} MaskIsShiftedBit(f: Flag)
    ensures Mask(f) == Pow2(Bit(f))
  {
    assert Pow2(0) == 0x1;
    assert Pow2(1) == 0x2;
    assert Pow2(2) == 0x4;
    assert Pow2(3) == 0x8;
    assert Pow2(4) == 0x10;
    assert Pow2(5) == 0x20;
    assert Pow2(6) == 0x40;
    assert Pow2(7) == 0x80;
    assert Pow2(8) == 0x100;
    assert Pow2(9) == 0x200;
    assert Pow2(10) == 0x400;
    assert Pow2(11) == 0x800;
  }

  /** Union, as the array literal `[a, b]` of two option sets. */
  function Union(a: Options, b: Options): (r: Options)
    ensures forall f :: f in r <==> f in a || f in b
  {
    a + b
  }

  /** The raw value of a union is the bitwise OR of the raw values: the sum,
      less the bits the two sets share. A union of disjoint sets adds them. */
  lemma UnionRawValue(a: Options, b: Options)
    ensures RawValue(Union(a, b)) + RawValue(a * b) == RawValue(a) + RawValue(b)
    ensures a * b == {} ==> RawValue(Union(a, b)) == RawValue(a) + RawValue(b)
  {
    forall f ensures Term(Union(a, b), f) + Term(a * b, f) == Term(a, f) + Term(b, f) {
      TermUnion(a, b, f);
    }
  }

  lemma TermUnion(a: Options, b: Options, f: Flag)
    ensures Term(Union(a, b), f) + Term(a * b, f) == Term(a, f) + Term(b, f)
  {
  }

  const WithFullDate: Options := {Year, Month, Day, DashSeparatorInDate}
  const WithFullTime: Options := {Time, ColonSeparatorInTime, TimeZone, ColonSeparatorInTimeZone}
  /** The RFC 3339 preset, the default of a new formatter. */
  const WithInternetDateTime: Options := Union(WithFullDate, WithFullTime)

  /** Distinct flags occupy distinct bits. */
  lemma BitInjective(f: Flag, g: Flag)
    requires Bit(f) == Bit(g)
    ensures f == g
  {
  }

  /** The members of the RFC 3339 preset are those of the two others. */
  lemma InternetDateTimeMembers(f: Flag)
    ensures f in WithInternetDateTime <==> f != WeekOfYear && f != SpaceBetweenDateAndTime && f != FractionalSeconds
    ensures f in WithInternetDateTime <==> f in WithFullDate || f in WithFullTime
  {
  }

  /** The RFC 3339 preset written out. */
  lemma InternetDateTimeLiteral()
    ensures WithInternetDateTime == {Year, Month, Day, DashSeparatorInDate, Time,
                                     ColonSeparatorInTime, TimeZone, ColonSeparatorInTimeZone}
  {
  }

  /** The raw value of the RFC 3339 preset. */
  lemma InternetDateTimeRawValue()
    ensures RawValue(WithInternetDateTime) == 0x773
    ensures RawValue(WithFullDate) == 0x113 && RawValue(WithFullTime) == 0x660
  {
  }
}
