/** Calendar days. A day is an integer counting days from 1970-01-01 (day 0),
    standing for a JavaScript Date at local midnight; IsoDate renders it as
    date-fns `format(date, "yyyy-MM-dd")` does, in the proleptic Gregorian
    calendar. */
module Calendar {
  import opened Text

  /** Year, month and day of month of a day number (H. Hinnant's
      days-to-civil algorithm; `/` is floor division here as there). */
  function CivilFromDays(day: int): (int, int, int) {
    var z := day + 719468;
    var era := z / 146097;
    var doe := z - era * 146097;
    var yoe := (doe - doe / 1460 + doe / 36524 - doe / 146096) / 365;
    var doy := doe - (365 * yoe + yoe / 4 - yoe / 100);
    var mp := (5 * doy + 2) / 153;
    var d := doy - (153 * mp + 2) / 5 + 1;
    // mp is 0 for March .. 11 for February; mp / 10 is 1 exactly for
    // January and February, which belong to the next year.
    var m := mp + 3 - 12 * (mp / 10);
    var y := yoe + era * 400 + mp / 10;
    (y, m, d)
  }

  /** Decimal digits of n, without leading zeros. */
  function Digits(n: nat): (r: string)
    ensures |r| >= 1 && AllDigits(r)
  {
    if n < 10 then ['0' + n as char] else Digits(n / 10) + ['0' + (n % 10) as char]
  }

  /** n in at least `width` digits, padded with leading zeros; a negative n
      (only years before year 0) gets a leading "-". */
  function Padded(n: int, width: nat): (r: string)
    ensures forall i :: 0 <= i < |r| ==> IsDigit(r[i]) || r[i] == '-'
    decreases if n < 0 then 1 else 0
  {
    if n < 0 then "-" + Padded(-n, width)
    else
      var ds := Digits(n);
      if |ds| >= width then ds else seq(width - |ds|, _ => '0') + ds
  }

  /** "yyyy-MM-dd" for a day. */
  function IsoDate(day: int): (r: string)
    ensures 'T' !in r
  {
    var (y, m, d) := CivilFromDays(day);
    var s := Padded(y, 4) + "-" + Padded(m, 2) + "-" + Padded(d, 2);
    assert forall i :: 0 <= i < |s| ==> IsDigit(s[i]) || s[i] == '-';
    s
  }

  /** The "yyyy-MM-dd" keys of a list of days, in order. */
  function DateKeys(days: seq<int>): (r: seq<string>)
    ensures |r| == |days| && forall i :: 0 <= i < |days| ==> r[i] == IsoDate(days[i])
  {
    seq(|days|, i requires 0 <= i < |days| => IsoDate(days[i]))
  }
}
