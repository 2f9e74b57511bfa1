/** `_months_to_age_str` (backend/src/app.py): an age in months written as
    months below a year, and as years plus the remaining months otherwise,
    with "s" on every count other than 1. */
module AgeLabels {
  import opened Wrappers
  import opened Strings

  /** `f"{n} {unit}{'s' if n != 1 else ''}"`. */
  function Counted(n: int, unit: string): string {
    IntToString(n) + " " + unit + (if n != 1 then "s" else "")
  }

  /** The label of `months` after `int(months)`. Python's `//` and `%` are
      only reached with `months >= 12`, where they agree with Dafny's. */
  function AgeLabel(months: int): string {
    if months < 12 then Counted(months, "month")
    else
      var years := Counted(months / 12, "year");
      if months % 12 != 0 then years + " " + Counted(months % 12, "month") else years
  }

  /** `_months_to_age_str(months)`: `None` stays `None`. */
  function MonthsToAgeStr(months: Option<int>): (r: Option<string>)
    ensures r.None? <==> months.None?
    ensures months.Some? ==> r == Some(AgeLabel(months.value))
  {
    match months
    case None => None
    case Some(m) => Some(AgeLabel(m))
  }

  // ---------------------------------------------------------------------
  // Reading a label back
  // ---------------------------------------------------------------------

  /** Reads a decimal count followed by `" " + unit`, singular or plural, from
      the front of `s`: the count and what follows the unit. */
  function ReadCount(s: string, unit: string): Option<(nat, string)> {
    var k := LeadingDigits(s);
    if k == 0 then None
    else
      var rest := s[k..];
      var singular := " " + unit;
      var plural := singular + "s";
      if |rest| >= |plural| && rest[..|plural|] == plural then Some((DigitsValue(s[..k]), rest[|plural|..]))
      else if |rest| >= |singular| && rest[..|singular|] == singular then Some((DigitsValue(s[..k]), rest[|singular|..]))
      else None
  }

  /** The number of months a label written by `AgeLabel` stands for. */
  function ParseAge(s: string): Option<int> {
    match ReadCount(s, "month")
    case Some((n, rest)) => if rest == [] then Some(n) else None
    case None =>
      match ReadCount(s, "year")
      case None => None
      case Some((y, rest)) => AfterYears(y, rest)
  }

  /** The rest of a label after `y` years: nothing, or a space and a count of
      months. */
  function AfterYears(y: nat, rest: string): Option<int> {
    if rest == [] then Some(12 * y)
    else if rest[0] != ' ' then None
    else
      match ReadCount(rest[1..], "month")
      case Some((r, tail)) => if tail == [] then Some(12 * y + r) else None
      case None => None
  }

  /** A count written by `Counted` reads back, with what follows it, as long
      as that does not start with an `s`. */
  lemma ReadCounted(n: nat, unit: string, tail: string)
    requires unit != [] && (tail == [] || tail[0] != 's')
    ensures ReadCount(Counted(n, unit) + tail, unit) == Some((n, tail))
  {
    var d := NatToString(n);
    var sfx := if n != 1 then "s" else "";
    var rest := " " + unit + sfx + tail;
    var s := Counted(n, unit) + tail;
    assert s == d + rest;
    LeadingDigitsOfConcat(d, rest);
    assert s[..|d|] == d && s[|d|..] == rest;
    DigitsValueOfNatToString(n);
    var plural := " " + unit + "s";
    if n != 1 {
      assert rest == plural + tail;
      assert rest[..|plural|] == plural && rest[|plural|..] == tail;
    } else {
      var singular := " " + unit;
      assert rest == singular + tail;
      assert rest[..|singular|] == singular && rest[|singular|..] == tail;
      assert |rest| >= |plural| ==> rest[|singular|] != 's';
      assert |rest| >= |plural| ==> plural[|singular|] == 's';
    }
  }

  /** A count of years does not read as a count of months. */
  lemma YearsAreNotMonths(n: nat, tail: string)
    ensures ReadCount(Counted(n, "year") + tail, "month") == None
  {
    var d := NatToString(n);
    var rest := " " + "year" + (if n != 1 then "s" else "") + tail;
    var s := Counted(n, "year") + tail;
    assert s == d + rest;
    LeadingDigitsOfConcat(d, rest);
    assert s[|d|..] == rest;
    assert rest[1] == 'y';
  }

  /** Every label of a non-negative age reads back as that age, so distinct
      ages get distinct labels. */
  lemma AgeRoundTrip(months: nat)
    ensures ParseAge(AgeLabel(months)) == Some(months)
  {
    var y, r := months / 12, months % 12;
    assert months == 12 * y + r;
    if months < 12 {
      MonthsRoundTrip(months);
    } else if r == 0 {
      assert AgeLabel(months) == Counted(y, "year");
      YearsRoundTrip(y);
    } else {
      assert AgeLabel(months) == Counted(y, "year") + " " + Counted(r, "month");
      YearsMonthsRoundTrip(y, r);
    }
  }

  lemma MonthsRoundTrip(months: nat)
    ensures ParseAge(Counted(months, "month")) == Some(months)
  {
    ReadCounted(months, "month", "");
    assert Counted(months, "month") + "" == Counted(months, "month");
  }

  lemma YearsRoundTrip(y: nat)
    ensures ParseAge(Counted(y, "year")) == Some(12 * y)
  {
    var s := Counted(y, "year");
    assert s + "" == s;
    YearsAreNotMonths(y, "");
    ReadCounted(y, "year", "");
  }

  lemma YearsMonthsRoundTrip(y: nat, r: nat)
    ensures ParseAge(Counted(y, "year") + " " + Counted(r, "month")) == Some(12 * y + r)
  {
    var tail := " " + Counted(r, "month");
    assert Counted(y, "year") + " " + Counted(r, "month") == Counted(y, "year") + tail;
    YearsAreNotMonths(y, tail);
    ReadCounted(y, "year", tail);
    MonthsAfterYears(y, r);
  }

  lemma MonthsAfterYears(y: nat, r: nat)
    ensures AfterYears(y, " " + Counted(r, "month")) == Some(12 * y + r)
  {
    var tail := " " + Counted(r, "month");
    assert tail[1..] == Counted(r, "month") + "";
    ReadCounted(r, "month", "");
  }

  /** The layout of a label: below a year, the months alone; from a year on,
      the whole years (at least one) and, only when the remainder is not
      zero, a space and the remaining months, which are fewer than twelve.
      Every count is followed by its unit, plural unless the count is 1. */
  lemma AgeLabelLayout(months: int)
    ensures months < 12 ==> AgeLabel(months) == IntToString(months) + " month" + (if months == 1 then "" else "s")
    ensures months >= 12 ==>
      var y := months / 12; var r := months % 12;
      && y >= 1 && 0 <= r < 12 && 12 * y + r == months
      && var years := IntToString(y) + " year" + (if y == 1 then "" else "s");
      && (r == 0 ==> AgeLabel(months) == years)
      && (r != 0 ==> AgeLabel(months) == years + " " + IntToString(r) + " month" + (if r == 1 then "" else "s"))
  {
    if months < 12 {
      CountedSpelling(months, "month", " month");
    } else {
      CountedSpelling(months / 12, "year", " year");
      CountedSpelling(months % 12, "month", " month");
    }
  }

  /** `Counted` with the space and the unit written as one string. */
  lemma CountedSpelling(n: int, unit: string, spaced: string)
    requires spaced == " " + unit
    ensures Counted(n, unit) == IntToString(n) + spaced + (if n == 1 then "" else "s")
  {
  }

  /** Each count is followed by the singular unit exactly when it is 1. */
  lemma PluralUnlessOne(n: int, unit: string)
    requires unit != [] && unit[|unit| - 1] != 's'
    ensures var c := Counted(n, unit); c[|c| - 1] == 's' <==> n != 1
  {
  }
}
