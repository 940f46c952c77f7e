/** Date answers: what a typed date is normalised to, and the strict check a writer applies to it. */
module DateAnswers {
  import opened Prelude
  import opened Texts

  datatype Date = Date(year: nat, month: nat, day: nat)

  predicate Leap(y: nat) {
    y % 4 == 0 && (y % 100 != 0 || y % 400 == 0)
  }

  function DaysIn(y: nat, m: nat): nat {
    if m == 2 then (if Leap(y) then 29 else 28)
    else if m in {4, 6, 9, 11} then 30
    else 31
  }

  /** The calendar dates the source's date type holds: years 1 to 9999. */
  predicate ValidDate(d: Date) {
    1 <= d.year <= 9999 && 1 <= d.month <= 12 && 1 <= d.day <= DaysIn(d.year, d.month)
  }

  // ---- digits ----

  function DigitValue(c: char): nat
    requires IsDigit(c)
  {
    (c - '0') as nat
  }

  function DigitChar(n: nat): (c: char)
    requires n < 10
    ensures IsDigit(c) && DigitValue(c) == n
  {
    '0' + n as char
  }

  function Two(n: nat): (s: string)
    requires n < 100
    ensures |s| == 2 && AllDigits(s)
  {
    [DigitChar(n / 10), DigitChar(n % 10)]
  }

  function Four(n: nat): (s: string)
    requires n < 10000
    ensures |s| == 4 && AllDigits(s)
  {
    [DigitChar(n / 1000), DigitChar(n / 100 % 10), DigitChar(n / 10 % 10), DigitChar(n % 10)]
  }

  function ReadTwo(s: string): (n: nat)
    requires |s| == 2 && AllDigits(s)
    ensures n < 100
  {
    10 * DigitValue(s[0]) + DigitValue(s[1])
  }

  function ReadFour(s: string): (n: nat)
    requires |s| == 4 && AllDigits(s)
    ensures n < 10000
  {
    1000 * DigitValue(s[0]) + 100 * DigitValue(s[1]) + 10 * DigitValue(s[2]) + DigitValue(s[3])
  }

  lemma TwoRoundTrip(n: nat)
    requires n < 100
    ensures ReadTwo(Two(n)) == n
  {}

  lemma FourRoundTrip(n: nat)
    requires n < 10000
    ensures ReadFour(Four(n)) == n
  {
    var t, h := n / 10, n / 100;
    assert h / 10 == n / 1000 && t / 10 == h;
    assert n == 10 * t + n % 10 && t == 10 * h + t % 10 && h == 10 * (n / 1000) + h % 10;
  }

  lemma TwoOnto(s: string)
    requires |s| == 2 && AllDigits(s)
    ensures Two(ReadTwo(s)) == s
  {}

  lemma FourDigits(a: nat, b: nat, c: nat, d: nat)
    requires a < 10 && b < 10 && c < 10 && d < 10
    ensures var n := 1000 * a + 100 * b + 10 * c + d;
      n / 1000 == a && n / 100 % 10 == b && n / 10 % 10 == c && n % 10 == d
  {
    var n := 1000 * a + 100 * b + 10 * c + d;
    assert n == 10 * (100 * a + 10 * b + c) + d;
    assert n / 10 == 100 * a + 10 * b + c;
    assert n / 100 == 10 * a + b;
  }

  lemma FourOnto(s: string)
    requires |s| == 4 && AllDigits(s)
    ensures Four(ReadFour(s)) == s
  {
    FourDigits(DigitValue(s[0]), DigitValue(s[1]), DigitValue(s[2]), DigitValue(s[3]));
  }

  // ---- reading one spelling ----

  function Checked(y: nat, m: nat, d: nat): Option<Date> {
    if ValidDate(Date(y, m, d)) then Some(Date(y, m, d)) else None
  }

  /** The ISO forms: `YYYY-MM-DD` and the basic `YYYYMMDD`. */
  function FromIso(s: string): Option<Date> {
    if |s| == 10 && s[4] == '-' && s[7] == '-' && AllDigits(s[..4]) && AllDigits(s[5..7]) && AllDigits(s[8..10])
    then Checked(ReadFour(s[..4]), ReadTwo(s[5..7]), ReadTwo(s[8..10]))
    else if |s| == 8 && AllDigits(s)
    then Checked(ReadFour(s[..4]), ReadTwo(s[4..6]), ReadTwo(s[6..8]))
    else None
  }

  /** The day directive: one digit 1-9, the same after a blank, or two digits 01-31. */
  function ReadDay(s: string): Option<nat> {
    if |s| == 1 && IsDigit(s[0]) && s[0] != '0' then Some(DigitValue(s[0]))
    else if |s| == 2 && s[0] == ' ' && IsDigit(s[1]) && s[1] != '0' then Some(DigitValue(s[1]))
    else if |s| == 2 && AllDigits(s) && 1 <= ReadTwo(s) <= 31 then Some(ReadTwo(s))
    else None
  }

  /** The month directive: one digit 1-9 or two digits 01-12. */
  function ReadMonth(s: string): Option<nat> {
    if |s| == 1 && IsDigit(s[0]) && s[0] != '0' then Some(DigitValue(s[0]))
    else if |s| == 2 && AllDigits(s) && 1 <= ReadTwo(s) <= 12 then Some(ReadTwo(s))
    else None
  }

  /** Day, separator, month, separator, four-digit year, with the two field widths given. */
  function FromDayFirstAt(s: string, sep: char, dayWidth: nat, monthWidth: nat): Option<Date> {
    if |s| == dayWidth + monthWidth + 6 && s[dayWidth] == sep && s[dayWidth + 1 + monthWidth] == sep
       && ReadDay(s[..dayWidth]).Some? && ReadMonth(s[dayWidth + 1..dayWidth + 1 + monthWidth]).Some?
       && AllDigits(s[dayWidth + monthWidth + 2..])
    then Checked(ReadFour(s[dayWidth + monthWidth + 2..]),
                 ReadMonth(s[dayWidth + 1..dayWidth + 1 + monthWidth]).value,
                 ReadDay(s[..dayWidth]).value)
    else None
  }

  function FirstRead(a: Option<Date>, b: Option<Date>): Option<Date> {
    if a.Some? then a else b
  }

  function FromDayFirst(s: string, sep: char): Option<Date> {
    FirstRead(FromDayFirstAt(s, sep, 2, 2),
              FirstRead(FromDayFirstAt(s, sep, 2, 1), FirstRead(FromDayFirstAt(s, sep, 1, 2), FromDayFirstAt(s, sep, 1, 1))))
  }

  function ReadDate(s: string): Option<Date> {
    FirstRead(FromIso(s), FirstRead(FromDayFirst(s, '/'), FromDayFirst(s, '-')))
  }

  // ---- normalisation and the strict check ----

  function Iso(d: Date): string
    requires ValidDate(d)
  {
    Four(d.year) + "-" + Two(d.month) + "-" + Two(d.day)
  }

  lemma ReadDateIsValid(s: string)
    ensures ReadDate(s).Some? ==> ValidDate(ReadDate(s).value)
  {}

  /** The canonical text of an accepted answer; `None` when the answer is refused. */
  function Normalize(s: string): Option<string> {
    ReadDateIsValid(s);
    match ReadDate(s)
    case Some(d) => Some(Iso(d))
    case None => None
  }

  /** The writer's own check: the exact `YYYY-MM-DD` shape naming a real date. */
  predicate StrictIsoDate(s: string) {
    && |s| == 10 && s[4] == '-' && s[7] == '-'
    && AllDigits(s[..4]) && AllDigits(s[5..7]) && AllDigits(s[8..10])
    && ValidDate(Date(ReadFour(s[..4]), ReadTwo(s[5..7]), ReadTwo(s[8..10])))
  }

  // ---- which texts spell a date: a definition that does not read anything ----

  function Digit1(n: nat): string
    requires n < 10
  {
    [DigitChar(n)]
  }

  ghost predicate SpellsDay(s: string, d: nat) {
    d < 100 && (s == Two(d) || (0 < d < 10 && (s == Digit1(d) || s == " " + Digit1(d))))
  }

  ghost predicate SpellsMonth(s: string, m: nat) {
    m < 100 && (s == Two(m) || (0 < m < 10 && s == Digit1(m)))
  }

  ghost predicate SpellsDayFirst(s: string, sep: char, d: Date, day: string, month: string)
    requires ValidDate(d)
  {
    SpellsDay(day, d.day) && SpellsMonth(month, d.month) && s == day + [sep] + month + [sep] + Four(d.year)
  }

  ghost predicate Spells(s: string, d: Date)
    requires ValidDate(d)
  {
    || s == Iso(d)
    || s == Four(d.year) + Two(d.month) + Two(d.day)
    || (exists day, month :: SpellsDayFirst(s, '/', d, day, month))
    || (exists day, month :: SpellsDayFirst(s, '-', d, day, month))
  }

  // ---- reading undoes spelling ----

  lemma IsoIsRead(d: Date)
    requires ValidDate(d)
    ensures FromIso(Iso(d)) == Some(d) && StrictIsoDate(Iso(d))
  {
    var s := Iso(d);
    assert s[..4] == Four(d.year) && s[5..7] == Two(d.month) && s[8..10] == Two(d.day);
    FourRoundTrip(d.year);
    TwoRoundTrip(d.month);
    TwoRoundTrip(d.day);
  }

  lemma BasicIsRead(d: Date)
    requires ValidDate(d)
    ensures FromIso(Four(d.year) + Two(d.month) + Two(d.day)) == Some(d)
  {
    var s := Four(d.year) + Two(d.month) + Two(d.day);
    assert s[..4] == Four(d.year) && s[4..6] == Two(d.month) && s[6..8] == Two(d.day);
    FourRoundTrip(d.year);
    TwoRoundTrip(d.month);
    TwoRoundTrip(d.day);
  }

  lemma DayIsRead(s: string, d: nat)
    requires SpellsDay(s, d) && 1 <= d <= 31
    ensures ReadDay(s) == Some(d) && (|s| == 1 || |s| == 2) && (forall i :: 0 <= i < |s| ==> s[i] == ' ' || IsDigit(s[i]))
  {
    TwoRoundTrip(d);
  }

  lemma MonthIsRead(s: string, m: nat)
    requires SpellsMonth(s, m) && 1 <= m <= 12
    ensures ReadMonth(s) == Some(m) && (|s| == 1 || |s| == 2) && AllDigits(s)
  {
    TwoRoundTrip(m);
  }

  lemma Cut(day: string, month: string, year: string, sep: char)
    ensures var s := day + [sep] + month + [sep] + year;
      var a, b := |day|, |month|;
      && s[..a] == day && s[a] == sep
      && s[a + 1..a + 1 + b] == month && s[a + 1 + b] == sep
      && s[a + b + 2..] == year
  {
    var left := day + [sep];
    var s := left + month + [sep] + year;
    assert s == day + [sep] + month + [sep] + year;
    assert s[|left|..|left| + |month|] == month;
  }

  /** The separator fixes both widths, so a day-first spelling can be read in one way only. */
  lemma DayFirstIsRead(s: string, sep: char, d: Date, day: string, month: string)
    requires ValidDate(d) && SpellsDayFirst(s, sep, d, day, month) && sep in {'/', '-'}
    ensures FromDayFirst(s, sep) == Some(d)
    ensures forall i :: 0 <= i < |s| ==> s[i] == sep || s[i] == ' ' || IsDigit(s[i])
    ensures s[|day|] == sep && (|day| == 1 || |day| == 2)
  {
    DayIsRead(day, d.day);
    MonthIsRead(month, d.month);
    FourRoundTrip(d.year);
    var a, b := |day|, |month|;
    Cut(day, month, Four(d.year), sep);
    assert FromDayFirstAt(s, sep, a, b) == Some(d);
    if a == 1 {
      assert s[1] == sep;
      assert FromDayFirstAt(s, sep, 2, 1) == None by {
        if |s| == 9 { assert s[2] == month[0]; }
      }
    }
  }

  /** A day-first spelling is not an ISO one: its separator stands where ISO wants a year digit. */
  lemma DayFirstIsNotIso(s: string, sep: char, d: Date, day: string, month: string)
    requires ValidDate(d) && SpellsDayFirst(s, sep, d, day, month) && sep in {'/', '-'}
    ensures FromIso(s) == None
  {
    DayFirstIsRead(s, sep, d, day, month);
    var k := |day|;
    if |s| == 10 { assert s[..4][k] == sep; }
    if |s| == 8 { assert s[k] == sep; }
  }

  /** Every spelling of a date is read as that date. */
  lemma SpellingIsRead(s: string, d: Date)
    requires ValidDate(d) && Spells(s, d)
    ensures ReadDate(s) == Some(d)
  {
    if s == Iso(d) {
      IsoIsRead(d);
    } else if s == Four(d.year) + Two(d.month) + Two(d.day) {
      BasicIsRead(d);
    } else if day, month :| SpellsDayFirst(s, '/', d, day, month) {
      DayFirstIsRead(s, '/', d, day, month);
      DayFirstIsNotIso(s, '/', d, day, month);
    } else {
      var day, month :| SpellsDayFirst(s, '-', d, day, month);
      DayFirstIsRead(s, '-', d, day, month);
      DayFirstIsNotIso(s, '-', d, day, month);
      NoSlash(s);
    }
  }

  lemma NoSlash(s: string)
    requires forall i :: 0 <= i < |s| ==> s[i] != '/'
    ensures FromDayFirst(s, '/') == None
  {}

  // ---- whatever is read was spelled ----

  lemma IsoReadIsSpelled(s: string)
    requires FromIso(s).Some?
    ensures ValidDate(FromIso(s).value) && Spells(s, FromIso(s).value)
  {
    var d := FromIso(s).value;
    FourOnto(s[..4]);
    if |s| == 10 {
      TwoOnto(s[5..7]);
      TwoOnto(s[8..10]);
      assert s == s[..4] + "-" + s[5..7] + "-" + s[8..10];
    } else {
      TwoOnto(s[4..6]);
      TwoOnto(s[6..8]);
      assert s == s[..4] + s[4..6] + s[6..8];
    }
  }

  lemma DayReadIsSpelled(s: string)
    requires ReadDay(s).Some?
    ensures SpellsDay(s, ReadDay(s).value)
  {
    if |s| == 2 && s[0] != ' ' { TwoOnto(s); }
    if |s| == 2 && s[0] == ' ' { assert s == " " + [s[1]]; }
  }

  lemma MonthReadIsSpelled(s: string)
    requires ReadMonth(s).Some?
    ensures SpellsMonth(s, ReadMonth(s).value)
  {
    if |s| == 2 { TwoOnto(s); }
  }

  lemma DayFirstAtIsSpelled(s: string, sep: char, a: nat, b: nat)
    requires FromDayFirstAt(s, sep, a, b).Some?
    ensures
      var d := FromDayFirstAt(s, sep, a, b).value;
      ValidDate(d) && SpellsDayFirst(s, sep, d, s[..a], s[a + 1..a + 1 + b])
  {
    DayReadIsSpelled(s[..a]);
    MonthReadIsSpelled(s[a + 1..a + 1 + b]);
    FourOnto(s[a + b + 2..]);
    assert s == s[..a] + [sep] + s[a + 1..a + 1 + b] + [sep] + s[a + b + 2..];
  }

  lemma DayFirstReadIsSpelled(s: string, sep: char)
    requires FromDayFirst(s, sep).Some?
    ensures
      var d := FromDayFirst(s, sep).value;
      ValidDate(d) && exists day, month :: SpellsDayFirst(s, sep, d, day, month)
  {
    var a, b := WidthsRead(s, sep);
    DayFirstAtIsSpelled(s, sep, a, b);
  }

  lemma WidthsRead(s: string, sep: char) returns (a: nat, b: nat)
    requires FromDayFirst(s, sep).Some?
    ensures FromDayFirstAt(s, sep, a, b) == FromDayFirst(s, sep)
  {
    a := if FromDayFirstAt(s, sep, 2, 2).Some? || FromDayFirstAt(s, sep, 2, 1).Some? then 2 else 1;
    b := if FromDayFirstAt(s, sep, a, 2).Some? then 2 else 1;
  }

  // ---- main results ----

  /** The dates there are: twelve months of their own lengths, with a twenty-ninth of February in every fourth year but
      for the centuries that four hundred does not divide. */
  lemma CalendarExactly(d: Date)
    ensures ValidDate(d) <==>
      && 1 <= d.year < 10000 && 1 <= d.month <= 12 && d.day >= 1
      && (d.day <= [31, 28, 31, 30, 31, 30, 31, 31, 30, 31, 30, 31][d.month - 1]
          || (d.month == 2 && d.day == 29 && if d.year % 100 == 0 then d.year % 400 == 0 else d.year % 4 == 0))
  {
    assert d.year % 100 == 0 ==> d.year % 4 == 0;
    assert d.year % 400 == 0 ==> d.year % 100 == 0;
  }

  /** An answer is accepted exactly when it spells a real date, and it is then normalised to that date's
      full-date.  In particular no text names two dates. */
  lemma NormalizeExactly(s: string, r: string)
    ensures Normalize(s) == Some(r) <==> exists d :: ValidDate(d) && Spells(s, d) && r == Iso(d)
  {
    if Normalize(s) == Some(r) {
      ReadDateIsValid(s);
      var d := ReadDate(s).value;
      if FromIso(s).Some? {
        IsoReadIsSpelled(s);
      } else if FromDayFirst(s, '/').Some? {
        DayFirstReadIsSpelled(s, '/');
      } else {
        DayFirstReadIsSpelled(s, '-');
      }
      assert ValidDate(d) && Spells(s, d) && r == Iso(d);
    }
    if d :| ValidDate(d) && Spells(s, d) && r == Iso(d) {
      SpellingIsRead(s, d);
    }
  }

  /** The three written forms of one date normalise to the same text. */
  lemma WrittenFormsAgree(d: Date)
    requires ValidDate(d)
    ensures Normalize(Iso(d)) == Some(Iso(d))
    ensures Normalize(Two(d.day) + "/" + Two(d.month) + "/" + Four(d.year)) == Some(Iso(d))
    ensures Normalize(Two(d.day) + "-" + Two(d.month) + "-" + Four(d.year)) == Some(Iso(d))
  {
    SpellingIsRead(Iso(d), d);
    var slashed := Two(d.day) + "/" + Two(d.month) + "/" + Four(d.year);
    assert SpellsDayFirst(slashed, '/', d, Two(d.day), Two(d.month));
    SpellingIsRead(slashed, d);
    var dashed := Two(d.day) + "-" + Two(d.month) + "-" + Four(d.year);
    assert SpellsDayFirst(dashed, '-', d, Two(d.day), Two(d.month));
    SpellingIsRead(dashed, d);
  }

  /** Whatever is accepted passes the writer's strict check unchanged, and normalising again changes nothing. */
  lemma AcceptedIsStrictAndStable(s: string)
    requires Normalize(s).Some?
    ensures StrictIsoDate(Normalize(s).value)
    ensures Normalize(Normalize(s).value) == Normalize(s)
  {
    ReadDateIsValid(s);
    var d := ReadDate(s).value;
    IsoIsRead(d);
    SpellingIsRead(Iso(d), d);
  }

  /** The strict check accepts exactly the texts that normalising leaves alone. */
  lemma StrictIffFixedPoint(s: string)
    ensures StrictIsoDate(s) <==> Normalize(s) == Some(s)
  {
    if StrictIsoDate(s) {
      IsoReadIsSpelled(s);
      FourOnto(s[..4]);
      TwoOnto(s[5..7]);
      TwoOnto(s[8..10]);
      assert s == s[..4] + "-" + s[5..7] + "-" + s[8..10];
      assert s == Iso(FromIso(s).value);
    }
    if Normalize(s) == Some(s) {
      AcceptedIsStrictAndStable(s);
    }
  }
}
