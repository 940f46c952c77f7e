/** The text a materialised Charge is recognised by: its Deal, Term, Lead and occurrence as one JSON object with sorted
    keys.  It must name them uniquely, or two different Charges would pass for one. */
module ChargeReference {
  type Id = string

  /** A column of the occurrence: a text, blank when absent, or a number. */
  datatype Scalar = TextScalar(s: string) | NumberScalar(r: real)

  datatype Occurrence = Occurrence(trigger: Scalar, date: Scalar, delay: Scalar, event: Scalar)

  datatype MaterialKey = MaterialKey(deal: Id, term: Id, lead: Id, occurrence: Occurrence)

  // ---- JSON texts ----

  const DOUBLE_QUOTE: char := 34 as char
  const BACKSLASH: char := 92 as char

  function HexDigit(n: nat): char
    requires n < 16
  {
    if n < 10 then '0' + n as char else 'a' + (n - 10) as char
  }

  function Hex4(n: nat): string
    requires n < 0x1_0000
  {
    [HexDigit(n / 4096), HexDigit(n / 256 % 16), HexDigit(n / 16 % 16), HexDigit(n % 16)]
  }

  predicate Printable(c: char) { ' ' <= c <= '~' && c != DOUBLE_QUOTE && c != BACKSLASH }

  /** The letter of a short escape; blank when there is none. */
  function ShortEscape(c: char): string {
    var n := c as int;
    if c == DOUBLE_QUOTE then "\"" else if c == BACKSLASH then "\\" else if n == 10 then "n" else if n == 13 then "r"
    else if n == 9 then "t" else if n == 12 then "f" else if n == 8 then "b" else ""
  }

  /** One character: as it is, by a short escape, by its four hexadecimal digits, or as a surrogate pair of them. */
  function Escape(c: char): string {
    var n := c as nat;
    if Printable(c) then [c]
    else if ShortEscape(c) != "" then "\\" + ShortEscape(c)
    else if n < 0x1_0000 then "\\u" + Hex4(n)
    else "\\u" + Hex4(0xD800 + (n - 0x1_0000) / 1024 % 1024) + "\\u" + Hex4(0xDC00 + (n - 0x1_0000) % 1024)
  }

  function EscapeAll(s: string): string { if s == "" then "" else Escape(s[0]) + EscapeAll(s[1..]) }

  function Quote(s: string): string { "\"" + EscapeAll(s) + "\"" }

  /** `numeral` stands for the way a number is written. */
  function Json(v: Scalar, numeral: real -> string): string {
    match v
    case TextScalar(s) => Quote(s)
    case NumberScalar(r) => numeral(r)
  }

  function Part(tag: string, value: string, rest: string): string { tag + (value + rest) }

  function TermPart(k: MaterialKey): string { Part("},\"payment_term_id\":", Quote(k.term), "}") }

  function TypePart(k: MaterialKey, numeral: real -> string): string {
    Part(",\"trigger_type\":", Json(k.occurrence.trigger, numeral), TermPart(k))
  }

  function EventPart(k: MaterialKey, numeral: real -> string): string {
    Part(",\"trigger_event\":", Json(k.occurrence.event, numeral), TypePart(k, numeral))
  }

  function DelayPart(k: MaterialKey, numeral: real -> string): string {
    Part(",\"trigger_delay_days\":", Json(k.occurrence.delay, numeral), EventPart(k, numeral))
  }

  function DatePart(k: MaterialKey, numeral: real -> string): string {
    Part(",\"occurrence\":{\"trigger_date\":", Json(k.occurrence.date, numeral), DelayPart(k, numeral))
  }

  function LeadPart(k: MaterialKey, numeral: real -> string): string {
    Part(",\"lead_id\":", Quote(k.lead), DatePart(k, numeral))
  }

  function ReferenceText(k: MaterialKey, numeral: real -> string): string {
    Part("{\"deal_id\":", Quote(k.deal), LeadPart(k, numeral))
  }

  // ---- reading one character back ----

  lemma HexDigitInjective(a: nat, b: nat)
    requires a < 16 && b < 16 && HexDigit(a) == HexDigit(b)
    ensures a == b
  {
  }

  lemma Hex4Injective(a: nat, b: nat)
    requires a < 0x1_0000 && b < 0x1_0000 && Hex4(a) == Hex4(b)
    ensures a == b
  {
    var x, y := Hex4(a), Hex4(b);
    assert x[0] == y[0] && x[1] == y[1] && x[2] == y[2] && x[3] == y[3];
    HexDigitInjective(a / 4096, b / 4096);
    HexDigitInjective(a / 256 % 16, b / 256 % 16);
    HexDigitInjective(a / 16 % 16, b / 16 % 16);
    HexDigitInjective(a % 16, b % 16);
    Digits16(a);
    Digits16(b);
  }

  lemma Digits16(n: nat)
    requires n < 0x1_0000
    ensures n == 4096 * (n / 4096) + 256 * (n / 256 % 16) + 16 * (n / 16 % 16) + n % 16
  {
    var h, t := n / 16, n / 256;
    assert t / 16 == n / 4096 && h / 16 == t;
    assert n == 16 * h + n % 16 && h == 16 * t + h % 16 && t == 16 * (n / 4096) + t % 16;
  }

  lemma EscapeHeads(c: char)
    ensures Escape(c) != "" && Escape(c)[0] != DOUBLE_QUOTE
    ensures Printable(c) <==> Escape(c)[0] != BACKSLASH
    ensures !Printable(c) ==> |Escape(c)| >= 2 && (ShortEscape(c) == "" <==> Escape(c)[1] == 'u')
  {
  }

  lemma ShortEscapesDiffer(a: char, b: char)
    requires ShortEscape(a) != "" && ShortEscape(a) == ShortEscape(b)
    ensures a == b
  {
    assert |ShortEscape(a)| == 1 && ShortEscape(a)[0] == ShortEscape(b)[0];
  }

  /** The first six characters of a hexadecimal escape hold the value of its first unit. */
  function FirstUnit(c: char): nat {
    var n := c as nat;
    if n < 0x1_0000 then n else 0xD800 + (n - 0x1_0000) / 1024 % 1024
  }

  lemma HexEscapeUnit(c: char)
    requires !Printable(c) && ShortEscape(c) == ""
    ensures FirstUnit(c) < 0x1_0000 && |Escape(c)| >= 6 && Escape(c)[2..6] == Hex4(FirstUnit(c))
    ensures (c as nat) >= 0x1_0000 <==> 0xD800 <= FirstUnit(c) < 0xDC00
  {
    var n := c as nat;
    if n >= 0x1_0000 {
      var first := Hex4(FirstUnit(c));
      assert Escape(c) == "\\u" + first + ("\\u" + Hex4(0xDC00 + (n - 0x1_0000) % 1024));
      assert ("\\u" + first)[2..6] == first;
    } else {
      assert ("\\u" + Hex4(n))[2..6] == Hex4(n);
    }
  }

  lemma Halves(n: nat)
    requires n < 0x10_0000
    ensures n / 1024 % 1024 == n / 1024 && n == 1024 * (n / 1024) + n % 1024
  {
  }

  lemma PairUnit(c: char)
    requires (c as nat) >= 0x1_0000
    ensures |Escape(c)| == 12 && Escape(c)[8..12] == Hex4(0xDC00 + ((c as nat) - 0x1_0000) % 1024)
    ensures c as nat == 0x1_0000 + 1024 * (FirstUnit(c) - 0xD800) + ((c as nat) - 0x1_0000) % 1024
  {
    var n := (c as nat) - 0x1_0000;
    Halves(n);
    var second := Hex4(0xDC00 + n % 1024);
    var head := "\\u" + Hex4(FirstUnit(c)) + "\\u";
    assert Escape(c) == head + second && |head| == 8;
  }

  /** No escape begins another: what is written of one character tells which it was, whatever follows. */
  lemma EscapesPrefixFree(a: char, b: char, x: string, y: string)
    requires Escape(a) + x == Escape(b) + y
    ensures a == b && x == y
  {
    EscapeHeads(a);
    EscapeHeads(b);
    assert (Escape(a) + x)[0] == Escape(a)[0] && (Escape(b) + y)[0] == Escape(b)[0];
    if !Printable(a) {
      assert (Escape(a) + x)[1] == Escape(a)[1] && (Escape(b) + y)[1] == Escape(b)[1];
      if ShortEscape(a) != "" {
        assert ShortEscape(a)[0] == ShortEscape(b)[0];
        ShortEscapesDiffer(a, b);
      } else {
        HexEscapesPrefixFree(a, b, x, y);
      }
    }
    SameHead(Escape(a), x, y);
  }

  lemma SameHead(head: string, x: string, y: string)
    requires head + x == head + y
    ensures x == y
  {
    assert (head + x)[|head|..] == x && (head + y)[|head|..] == y;
  }

  lemma HexEscapesPrefixFree(a: char, b: char, x: string, y: string)
    requires !Printable(a) && ShortEscape(a) == "" && !Printable(b) && ShortEscape(b) == ""
    requires Escape(a) + x == Escape(b) + y
    ensures a == b
  {
    HexEscapeUnit(a);
    HexEscapeUnit(b);
    assert (Escape(a) + x)[2..6] == Escape(a)[2..6] && (Escape(b) + y)[2..6] == Escape(b)[2..6];
    Hex4Injective(FirstUnit(a), FirstUnit(b));
    if a as nat >= 0x1_0000 {
      PairUnit(a);
      PairUnit(b);
      assert (Escape(a) + x)[8..12] == Escape(a)[8..12] && (Escape(b) + y)[8..12] == Escape(b)[8..12];
      Hex4Injective(0xDC00 + ((a as nat) - 0x1_0000) % 1024, 0xDC00 + ((b as nat) - 0x1_0000) % 1024);
    }
  }

  // ---- texts, scalars, references ----

  function Closed(s: string, x: string): string { EscapeAll(s) + ("\"" + x) }

  lemma Regroup(a: string, b: string, c: string)
    ensures (a + b) + c == a + (b + c)
  {
  }

  lemma ClosedBlank(x: string)
    ensures Closed("", x) == "\"" + x && Closed("", x)[0] == DOUBLE_QUOTE && Closed("", x)[1..] == x
  {
    assert EscapeAll("") == "";
  }

  lemma ClosedMore(s: string, x: string)
    requires s != ""
    ensures Closed(s, x) == Escape(s[0]) + Closed(s[1..], x)
    ensures Closed(s, x) != "" && Closed(s, x)[0] != DOUBLE_QUOTE
  {
    Regroup(Escape(s[0]), EscapeAll(s[1..]), "\"" + x);
    EscapeHeads(s[0]);
  }

  lemma {:induction false} QuotedTextsDiffer(s: string, t: string, x: string, y: string)
    requires Closed(s, x) == Closed(t, y)
    ensures s == t && x == y
    decreases |s|
  {
    ClosedBlank(x);
    ClosedBlank(y);
    if s != "" { ClosedMore(s, x); }
    if t != "" { ClosedMore(t, y); }
    if s != "" {
      EscapesPrefixFree(s[0], t[0], Closed(s[1..], x), Closed(t[1..], y));
      QuotedTextsDiffer(s[1..], t[1..], x, y);
    }
  }

  lemma QuoteIsClosed(s: string, x: string)
    ensures Quote(s) + x == "\"" + Closed(s, x)
  {
    Regroup("\"" + EscapeAll(s), "\"", x);
    Regroup("\"", EscapeAll(s), "\"" + x);
  }

  lemma QuotePart(tag: string, s: string, t: string, x: string, y: string)
    requires Part(tag, Quote(s), x) == Part(tag, Quote(t), y)
    ensures s == t && x == y
  {
    SameHead(tag, Quote(s) + x, Quote(t) + y);
    QuoteIsClosed(s, x);
    QuoteIsClosed(t, y);
    SameHead("\"", Closed(s, x), Closed(t, y));
    QuotedTextsDiffer(s, t, x, y);
  }

  predicate NumeralChar(c: char) { '0' <= c <= '9' || c in {'-', '+', '.', 'e'} }

  /** Numbers are written apart, and with the characters of numbers. */
  ghost predicate Numerals(numeral: real -> string) {
    && (forall r :: numeral(r) != "" && forall i :: 0 <= i < |numeral(r)| ==> NumeralChar(numeral(r)[i]))
    && (forall q, r :: numeral(q) == numeral(r) ==> q == r)
  }

  predicate Ends(x: string) { x != "" && (x[0] == ',' || x[0] == '}') }

  lemma HeadInside(m: string, n: string, x: string, y: string)
    requires |m| < |n| && m + x == n + y && x != ""
    ensures n[|m|] == x[0]
  {
    assert (n + y)[|m|] == n[|m|] && (m + x)[|m|] == x[0];
  }

  lemma NumeralsApart(m: string, n: string, x: string, y: string)
    requires forall i :: 0 <= i < |m| ==> NumeralChar(m[i])
    requires forall i :: 0 <= i < |n| ==> NumeralChar(n[i])
    requires Ends(x) && Ends(y) && m + x == n + y
    ensures m == n && x == y
  {
    if |m| < |n| { HeadInside(m, n, x, y); }
    if |n| < |m| { HeadInside(n, m, y, x); }
    assert m == (m + x)[..|m|] && n == (n + y)[..|n|];
    SameHead(m, x, y);
  }

  lemma JsonHead(v: Scalar, numeral: real -> string)
    requires Numerals(numeral)
    ensures Json(v, numeral) != "" && (Json(v, numeral)[0] == DOUBLE_QUOTE <==> v.TextScalar?)
  {
    if v.NumberScalar? { assert NumeralChar(numeral(v.r)[0]); }
  }

  lemma ScalarPart(tag: string, v: Scalar, w: Scalar, x: string, y: string, numeral: real -> string)
    requires Numerals(numeral) && Ends(x) && Ends(y)
    requires Part(tag, Json(v, numeral), x) == Part(tag, Json(w, numeral), y)
    ensures v == w && x == y
  {
    SameHead(tag, Json(v, numeral) + x, Json(w, numeral) + y);
    JsonHead(v, numeral);
    JsonHead(w, numeral);
    assert (Json(v, numeral) + x)[0] == Json(v, numeral)[0] && (Json(w, numeral) + y)[0] == Json(w, numeral)[0];
    if v.TextScalar? {
      QuotePart(tag, v.s, w.s, x, y);
    } else {
      NumeralsApart(numeral(v.r), numeral(w.r), x, y);
    }
  }

  /** Two Charges have the same reference exactly when they are of the same Deal, Term, Lead and occurrence. */
  lemma ReferenceNamesTheKey(a: MaterialKey, b: MaterialKey, numeral: real -> string)
    requires Numerals(numeral)
    ensures ReferenceText(a, numeral) == ReferenceText(b, numeral) <==> a == b
  {
    if ReferenceText(a, numeral) == ReferenceText(b, numeral) { SameReferenceSameKey(a, b, numeral); }
  }

  lemma SameReferenceSameKey(a: MaterialKey, b: MaterialKey, numeral: real -> string)
    requires Numerals(numeral) && ReferenceText(a, numeral) == ReferenceText(b, numeral)
    ensures a == b
  {
    var x, y := a.occurrence, b.occurrence;
    QuotePart("{\"deal_id\":", a.deal, b.deal, LeadPart(a, numeral), LeadPart(b, numeral));
    QuotePart(",\"lead_id\":", a.lead, b.lead, DatePart(a, numeral), DatePart(b, numeral));
    ScalarPart(",\"occurrence\":{\"trigger_date\":", x.date, y.date, DelayPart(a, numeral), DelayPart(b, numeral), numeral);
    ScalarPart(",\"trigger_delay_days\":", x.delay, y.delay, EventPart(a, numeral), EventPart(b, numeral), numeral);
    ScalarPart(",\"trigger_event\":", x.event, y.event, TypePart(a, numeral), TypePart(b, numeral), numeral);
    ScalarPart(",\"trigger_type\":", x.trigger, y.trigger, TermPart(a), TermPart(b), numeral);
    QuotePart("},\"payment_term_id\":", a.term, b.term, "}", "}");
  }
}
