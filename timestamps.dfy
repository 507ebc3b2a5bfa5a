/**
 * The three timestamp layouts the client accepts, tried in order with
 * `datetime.strptime`:
 *   '%Y-%m-%d %H:%M:%S', '%Y-%m-%dT%H:%M:%S', '%Y-%m-%dT%H:%M:%SZ'.
 * Each layout is a fixed-width recogniser: four-digit year, two-digit month,
 * day, hour, minute and second. As in `strptime`, literal letters match in
 * either case, the space of the first layout matches a run of whitespace,
 * and the fields must name a real calendar date and a time of day.
 */
module Timestamps {

  import opened Wrappers
  import opened Text

  datatype DateTime = DateTime(year: int, month: int, day: int, hour: int, minute: int, second: int)

  predicate IsLeapYear(y: int) {
    y % 4 == 0 && (y % 100 != 0 || y % 400 == 0)
  }

  function DaysInMonth(y: int, m: int): int
    requires 1 <= m <= 12
  {
    if m == 2 then (if IsLeapYear(y) then 29 else 28)
    else if m == 4 || m == 6 || m == 9 || m == 11 then 30
    else 31
  }

  /** What `datetime(...)` accepts: years 1 to 9999 and a real date and time of day. */
  predicate Valid(d: DateTime) {
    && 1 <= d.year <= 9999
    && 1 <= d.month <= 12
    && 1 <= d.day <= DaysInMonth(d.year, d.month)
    && 0 <= d.hour <= 23
    && 0 <= d.minute <= 59
    && 0 <= d.second <= 59
  }

  datatype Format =
    | SpaceSeparated   // '%Y-%m-%d %H:%M:%S'
    | TSeparated       // '%Y-%m-%dT%H:%M:%S'
    | TSeparatedZulu   // '%Y-%m-%dT%H:%M:%SZ'

  /** The formats in the order the client tries them. */
  const Formats: seq<Format> := [SpaceSeparated, TSeparated, TSeparatedZulu]

  predicate AllSpace(s: string) {
    forall i :: 0 <= i < |s| ==> IsSpace(s[i])
  }

  /** "YYYY-MM-DD" as year, month and day. */
  function ParseDate(s: string): Option<(int, int, int)>
    requires |s| == 10
  {
    if AllDigits(s[..4]) && s[4] == '-' && AllDigits(s[5..7]) && s[7] == '-' && AllDigits(s[8..])
    then Some((DigitsValue(s[..4]), DigitsValue(s[5..7]), DigitsValue(s[8..])))
    else None
  }

  /** "HH:MM:SS" as hour, minute and second. */
  function ParseClock(s: string): Option<(int, int, int)>
    requires |s| == 8
  {
    if AllDigits(s[..2]) && s[2] == ':' && AllDigits(s[3..5]) && s[5] == ':' && AllDigits(s[6..])
    then Some((DigitsValue(s[..2]), DigitsValue(s[3..5]), DigitsValue(s[6..])))
    else None
  }

  /** The date and time, when both parsed and together they are a valid `datetime`. */
  function Combine(date: Option<(int, int, int)>, clock: Option<(int, int, int)>): (r: Option<DateTime>)
    ensures r.Some? ==> Valid(r.value)
  {
    if date.None? || clock.None? then None
    else
      var d := DateTime(date.value.0, date.value.1, date.value.2, clock.value.0, clock.value.1, clock.value.2);
      if Valid(d) then Some(d) else None
  }

  predicate IsT(c: char) { c == 'T' || c == 't' }
  predicate IsZ(c: char) { c == 'Z' || c == 'z' }

  /** `datetime.strptime(s, f)`; `None` stands for the ValueError. */
  function Strptime(s: string, f: Format): (r: Option<DateTime>)
    ensures r.Some? ==> Valid(r.value)
    ensures r.Some? && f.SpaceSeparated? ==> |s| >= 19 && IsSpace(s[10])
    ensures r.Some? && f.TSeparated? ==> |s| == 19 && IsT(s[10])
    ensures r.Some? && f.TSeparatedZulu? ==> |s| == 20 && IsT(s[10]) && IsZ(s[19])
  {
    match f
    case SpaceSeparated =>
      if |s| >= 19 && AllSpace(s[10..|s| - 8])
      then Combine(ParseDate(s[..10]), ParseClock(s[|s| - 8..]))
      else None
    case TSeparated =>
      if |s| == 19 && IsT(s[10])
      then Combine(ParseDate(s[..10]), ParseClock(s[11..]))
      else None
    case TSeparatedZulu =>
      if |s| == 20 && IsT(s[10]) && IsZ(s[19])
      then Combine(ParseDate(s[..10]), ParseClock(s[11..19]))
      else None
  }

  /** At most one of the three layouts recognises any text. */
  lemma FormatsExclusive(s: string, i: nat, j: nat)
    requires i < j < |Formats|
    ensures Strptime(s, Formats[i]).None? || Strptime(s, Formats[j]).None?
  {
  }

  // ---------------------------------------------------------------- first match

  /** A successful parse: which format (its position in the list) and the value. */
  datatype Match = Match(index: nat, value: DateTime)

  /** The `for fmt in formats: try strptime, break` search, as a recursive function. */
  function FirstMatch(fmts: seq<Format>, s: string): (r: Option<Match>)
    ensures r.Some? ==> r.value.index < |fmts| && Strptime(s, fmts[r.value.index]) == Some(r.value.value)
    ensures r.Some? ==> forall j :: 0 <= j < r.value.index ==> Strptime(s, fmts[j]).None?
    ensures r.None? ==> forall j :: 0 <= j < |fmts| ==> Strptime(s, fmts[j]).None?
  {
    if fmts == [] then None
    else match Strptime(s, fmts[0])
      case Some(d) => Some(Match(0, d))
      case None =>
        match FirstMatch(fmts[1..], s)
        case Some(m) => Some(Match(m.index + 1, m.value))
        case None => None
  }

  /** The first-match conditions single out one answer, `FirstMatch`'s. */
  lemma FirstMatchUnique(fmts: seq<Format>, s: string, r: Option<Match>)
    requires r.Some? ==> r.value.index < |fmts| && Strptime(s, fmts[r.value.index]) == Some(r.value.value)
    requires r.Some? ==> forall j :: 0 <= j < r.value.index ==> Strptime(s, fmts[j]).None?
    requires r.None? ==> forall j :: 0 <= j < |fmts| ==> Strptime(s, fmts[j]).None?
    ensures r == FirstMatch(fmts, s)
  {
    var f := FirstMatch(fmts, s);
    if r.Some? {
      assert Strptime(s, fmts[r.value.index]).Some?;
    }
    if f.Some? {
      assert Strptime(s, fmts[f.value.index]).Some?;
    }
  }

  /**
   * The client's loop over the formats: the first one that parses wins,
   * `None` when all three fail (the `for ... else` branch).
   */
  method ParseFirst(fmts: seq<Format>, s: string) returns (r: Option<Match>)
    ensures r.Some? ==> r.value.index < |fmts| && Strptime(s, fmts[r.value.index]) == Some(r.value.value)
    ensures r.Some? ==> forall j :: 0 <= j < r.value.index ==> Strptime(s, fmts[j]).None?
    ensures r.None? ==> forall j :: 0 <= j < |fmts| ==> Strptime(s, fmts[j]).None?
  {
    r := None;
    var i := 0;
    while i < |fmts|
      invariant 0 <= i <= |fmts|
      invariant forall j :: 0 <= j < i ==> Strptime(s, fmts[j]).None?
    {
      var attempt := Strptime(s, fmts[i]);
      if attempt.Some? {
        r := Some(Match(i, attempt.value));
        return;
      }
      i := i + 1;
    }
  }

  // ---------------------------------------------------------------- rendering

  function DateText(d: DateTime): string
    requires Valid(d)
  {
    PadNat(d.year, 4) + "-" + PadNat(d.month, 2) + "-" + PadNat(d.day, 2)
  }

  function ClockText(d: DateTime): string
    requires Valid(d)
  {
    PadNat(d.hour, 2) + ":" + PadNat(d.minute, 2) + ":" + PadNat(d.second, 2)
  }

  /** `d.strftime(f)` */
  function Render(d: DateTime, f: Format): string
    requires Valid(d)
  {
    match f
    case SpaceSeparated => DateText(d) + " " + ClockText(d)
    case TSeparated => DateText(d) + "T" + ClockText(d)
    case TSeparatedZulu => DateText(d) + "T" + ClockText(d) + "Z"
  }

  lemma {:induction false} ParseDateText(d: DateTime)
    requires Valid(d)
    ensures |DateText(d)| == 10
    ensures ParseDate(DateText(d)) == Some((d.year, d.month, d.day))
  {
    var y, m, dd := PadNat(d.year, 4), PadNat(d.month, 2), PadNat(d.day, 2);
    var s := DateText(d);
    assert s == y + "-" + m + "-" + dd;
    assert s[..4] == y;
    assert s[5..7] == m;
    assert s[8..] == dd;
    PadNatValue(d.year, 4);
    PadNatValue(d.month, 2);
    PadNatValue(d.day, 2);
  }

  lemma {:induction false} ParseClockText(d: DateTime)
    requires Valid(d)
    ensures |ClockText(d)| == 8
    ensures ParseClock(ClockText(d)) == Some((d.hour, d.minute, d.second))
  {
    var h, m, sec := PadNat(d.hour, 2), PadNat(d.minute, 2), PadNat(d.second, 2);
    var s := ClockText(d);
    assert s == h + ":" + m + ":" + sec;
    assert s[..2] == h;
    assert s[3..5] == m;
    assert s[6..] == sec;
    PadNatValue(d.hour, 2);
    PadNatValue(d.minute, 2);
    PadNatValue(d.second, 2);
  }

  /** Parsing a rendered timestamp with its own format gives it back. */
  lemma {:induction false} StrptimeRender(d: DateTime, f: Format)
    requires Valid(d)
    ensures Strptime(Render(d, f), f) == Some(d)
  {
    ParseDateText(d);
    ParseClockText(d);
    var s := Render(d, f);
    var date, clock := DateText(d), ClockText(d);
    match f
    case SpaceSeparated =>
      assert s == date + " " + clock;
      assert s[..10] == date;
      assert s[|s| - 8..] == clock;
      assert s[10..|s| - 8] == " ";
    case TSeparated =>
      assert s == date + "T" + clock;
      assert s[..10] == date;
      assert s[11..] == clock;
    case TSeparatedZulu =>
      assert s == date + "T" + clock + "Z";
      assert s[..10] == date;
      assert s[11..19] == clock;
  }

  /** A timestamp rendered in any of the three layouts is found, by that layout, in the search. */
  lemma {:induction false} FirstMatchRender(d: DateTime, i: nat)
    requires Valid(d) && i < |Formats|
    ensures FirstMatch(Formats, Render(d, Formats[i])) == Some(Match(i, d))
  {
    var s := Render(d, Formats[i]);
    StrptimeRender(d, Formats[i]);
    ParseDateText(d);
    ParseClockText(d);
    assert s[10] == (if i == 0 then ' ' else 'T');
    forall j | 0 <= j < i ensures Strptime(s, Formats[j]).None? {
      FormatsExclusive(s, j, i);
    }
    FirstMatchUnique(Formats, s, Some(Match(i, d)));
  }
}
