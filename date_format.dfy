/**
 * `formatDate` and `formatDateRange`, which the Modern, Classic and Creative templates each define
 * identically. A month input yields "YYYY-MM" or the empty string; the rendering is "Mon YYYY".
 */
module DateFormat {

  /** The short English month names, January first. */
  const MonthNames: seq<string> :=
    ["Jan", "Feb", "Mar", "Apr", "May", "Jun", "Jul", "Aug", "Sep", "Oct", "Nov", "Dec"]

  predicate IsDigit(c: char)
  {
    '0' <= c <= '9'
  }

  function DigitValue(c: char): int
    requires IsDigit(c)
  {
    c as int - '0' as int
  }

  /** A "YYYY-MM" month with a four-digit year from 1000 on and a month from 01 to 12. */
  predicate IsYearMonth(s: string)
  {
    && |s| == 7
    && IsDigit(s[0]) && s[0] != '0' && IsDigit(s[1]) && IsDigit(s[2]) && IsDigit(s[3])
    && s[4] == '-' && IsDigit(s[5]) && IsDigit(s[6])
    && 1 <= 10 * DigitValue(s[5]) + DigitValue(s[6]) <= 12
  }

  function Month(s: string): (m: int)
    requires IsYearMonth(s)
    ensures 1 <= m <= 12
  {
    10 * DigitValue(s[5]) + DigitValue(s[6])
  }

  /**
   * `formatDate`: empty for an empty date (and only then), "Mon YYYY" for a month, and the text the
   * browser gives an unparsable date otherwise.
   */
  function FormatDate(s: string): (r: string)
    ensures r == "" <==> s == ""
    ensures IsYearMonth(s) ==> |r| == 8 && r[..3] == MonthNames[Month(s) - 1] && r[3] == ' ' && r[4..] == s[..4]
    ensures s != "" && !IsYearMonth(s) ==> r == "Invalid Date"
  {
    if s == "" then ""
    else if IsYearMonth(s) then MonthNames[Month(s) - 1] + " " + s[..4]
    else "Invalid Date"
  }

  lemma MonthNamesDistinct()
    ensures forall i, j :: 0 <= i < j < |MonthNames| ==> MonthNames[i] != MonthNames[j]
  {
  }

  /** Two different months never render alike: the rendering loses no information. */
  lemma FormatDateInjective(a: string, b: string)
    requires IsYearMonth(a) && IsYearMonth(b) && FormatDate(a) == FormatDate(b)
    ensures a == b
  {
    var r := FormatDate(a);
    assert a[..4] == r[4..] == b[..4];
    MonthNamesDistinct();
    assert MonthNames[Month(a) - 1] == r[..3] == MonthNames[Month(b) - 1];
    assert Month(a) == Month(b);
    assert a[5] == b[5] && a[6] == b[6];
    assert a == a[..4] + "-" + [a[5], a[6]];
    assert b == b[..4] + "-" + [b[5], b[6]];
  }

  /**
   * `formatDateRange`: the formatted start, the separator " - ", then "Present" for a current position or
   * the formatted end; in particular an empty start still yields a range beginning with " - ".
   */
  function FormatDateRange(start: string, end: string, current: bool): (r: string)
    ensures var s := FormatDate(start);
      && |r| >= |s| + 3
      && r[..|s|] == s
      && r[|s|..|s| + 3] == " - "
      && r[|s| + 3..] == (if current then "Present" else FormatDate(end))
    ensures start == "" ==> r[..3] == " - "
    ensures current ==> |r| >= 7 && r[|r| - 7..] == "Present"
  {
    FormatDate(start) + " - " + (if current then "Present" else FormatDate(end))
  }

  /** A position started in January 2023 and still held renders as "Jan 2023 - Present". */
  lemma CurrentPositionRange(end: string)
    ensures FormatDateRange("2023-01", end, true) == "Jan 2023 - Present"
  {
    assert IsYearMonth("2023-01") && Month("2023-01") == 1;
  }
}
