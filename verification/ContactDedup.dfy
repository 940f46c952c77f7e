/** Contact de-duplication by phone: the canonical form of a number, the stored spellings that stand for it, and the
    find-or-create that consults all of them before it writes. */
module ContactDedup {
  import opened Prelude
  import opened Texts
  import opened StoreOutcomes

  predicate Separator(c: char) { White(c) || c == '(' || c == ')' || c == '.' || c == '-' }

  predicate PhoneChar(c: char) { c == '+' || IsDigit(c) || Separator(c) }

  function DropSeparators(s: string): (r: string)
    ensures forall i :: 0 <= i < |r| ==> r[i] in s && !Separator(r[i])
  {
    if s == "" then ""
    else if Separator(s[0]) then DropSeparators(s[1..])
    else [s[0]] + DropSeparators(s[1..])
  }

  /** From the bare digits and the presence of a leading plus to the canonical number, "" if there is none. */
  function CanonicalOf(bare: string, plus: bool): string
    requires bare != "" && AllDigits(bare)
  {
    var digits := if "00972" <= bare then bare[2..] else bare;
    if "972" <= digits then (if |digits| == 12 then "+" + digits else "")
    else if !plus && digits[0] == '0' && (|digits| == 9 || |digits| == 10) then "+972" + digits[1..]
    else if plus && 8 <= |digits| <= 15 then "+" + digits
    else ""
  }

  function NormalizePhone(phone: string): string {
    var raw := Strip(phone);
    if raw == "" || !(forall i :: 0 <= i < |raw| ==> PhoneChar(raw[i])) || '+' in raw[1..] then ""
    else
      var plus := raw[0] == '+';
      var bare := DropSeparators(if plus then raw[1..] else raw);
      if bare == "" || !AllDigits(bare) then "" else CanonicalOf(bare, plus)
  }

  /** The exact spellings looked up for one canonical number. */
  function Equivalents(n: string): seq<string> {
    if "+972" <= n then [n, n[1..], "00" + n[1..], "0" + n[4..]] else [n]
  }

  // ---- canonical numbers ----

  /** The shape of every canonical number: a domestic one of 8 or 9 national digits, or a foreign one. */
  ghost predicate Canonical(n: string) {
    && 9 <= |n| <= 16 && n[0] == '+' && AllDigits(n[1..])
    && ("+972" <= n ==> |n| == 12 || |n| == 13)
    && !("+00972" <= n)
  }

  lemma NormalizeIsCanonical(phone: string)
    requires NormalizePhone(phone) != ""
    ensures Canonical(NormalizePhone(phone))
  {
    var raw := Strip(phone);
    var plus := raw[0] == '+';
    var bare := DropSeparators(if plus then raw[1..] else raw);
    CanonicalOfIsCanonical(bare, plus);
  }

  lemma PlusPrefix(digits: string)
    ensures "+00972" <= "+" + digits <==> "00972" <= digits
    ensures "+972" <= "+" + digits <==> "972" <= digits
  {
    var n := "+" + digits;
    assert "+00972" == "+" + "00972" && "+972" == "+" + "972" && n[1..] == digits;
    if "00972" <= digits { assert n[..6] == "+" + digits[..5]; }
    if "972" <= digits { assert n[..4] == "+" + digits[..3]; }
    if "+00972" <= n { assert digits[..5] == n[..6][1..]; }
    if "+972" <= n { assert digits[..3] == n[..4][1..]; }
  }

  lemma PlusIsCanonical(digits: string)
    requires AllDigits(digits) && 8 <= |digits| <= 15 && !("00972" <= digits)
    requires "972" <= digits ==> |digits| == 11 || |digits| == 12
    ensures Canonical("+" + digits)
  {
    PlusPrefix(digits);
    assert ("+" + digits)[1..] == digits;
  }

  lemma CanonicalOfIsCanonical(bare: string, plus: bool)
    requires bare != "" && AllDigits(bare) && CanonicalOf(bare, plus) != ""
    ensures Canonical(CanonicalOf(bare, plus))
  {
    var digits := if "00972" <= bare then bare[2..] else bare;
    if "972" <= digits {
      assert digits[0] == '9';
      PlusIsCanonical(digits);
    } else if !plus && digits[0] == '0' && (|digits| == 9 || |digits| == 10) {
      var whole := "972" + digits[1..];
      assert whole[0] == '9' && "+972" + digits[1..] == "+" + whole;
      PlusIsCanonical(whole);
    } else {
      PlusIsCanonical(digits);
    }
  }

  lemma DigitsSurvive(s: string)
    requires AllDigits(s)
    ensures DropSeparators(s) == s
  {
    if s != "" {
      assert !Separator(s[0]);
      DigitsSurvive(s[1..]);
    }
  }

  lemma DigitsArePlain(digits: string)
    requires digits != "" && AllDigits(digits)
    ensures Strip(digits) == digits && digits[0] != '+' && '+' !in digits[1..]
    ensures forall i :: 0 <= i < |digits| ==> PhoneChar(digits[i])
  {
    StripFixesExactlyStripped(digits);
  }

  /** On a text of digits normalising is just the digit rule. */
  lemma NormalizeDigits(digits: string)
    requires digits != "" && AllDigits(digits)
    ensures NormalizePhone(digits) == CanonicalOf(digits, false)
  {
    DigitsArePlain(digits);
    DigitsSurvive(digits);
  }

  /** So it is after a leading plus. */
  lemma NormalizePlus(n: string)
    requires |n| > 1 && n[0] == '+' && AllDigits(n[1..])
    ensures NormalizePhone(n) == CanonicalOf(n[1..], true)
  {
    assert n[|n| - 1] == n[1..][|n| - 2];
    StripFixesExactlyStripped(n);
    DigitsSurvive(n[1..]);
    forall i | 0 <= i < |n| ensures PhoneChar(n[i]) {
      if i > 0 { assert n[i] == n[1..][i - 1]; }
    }
    assert '+' !in n[1..];
  }

  lemma PrefixFacts(n: string)
    requires Canonical(n)
    ensures "972" <= n[1..] <==> "+972" <= n
    ensures !("00972" <= n[1..])
  {
    if "972" <= n[1..] { assert n[..4] == "+" + n[1..][..3]; }
    if "+972" <= n { assert n[1..][..3] == n[1..4]; }
  }

  /** Normalising a canonical number gives it back, except for the domestic landlines of eight national digits, which
      are then refused. */
  lemma NormalizeStableExactly(n: string)
    requires Canonical(n)
    ensures NormalizePhone(n) == n <==> !("+972" <= n && |n| == 12)
  {
    NormalizePlus(n);
    PrefixFacts(n);
    assert n == "+" + n[1..];
  }

  /** So normalising is idempotent on a phone exactly when it does not come to such a landline. */
  lemma NormalizeIdempotentExactly(phone: string)
    ensures var n := NormalizePhone(phone);
      NormalizePhone(n) == n <==> !("+972" <= n && |n| == 12)
  {
    var n := NormalizePhone(phone);
    if n == "" {
      StripFixesExactlyStripped("");
    } else {
      NormalizeIsCanonical(phone);
      NormalizeStableExactly(n);
    }
  }

  lemma BareInternational(plain: string)
    requires AllDigits(plain) && "972" <= plain
    ensures NormalizePhone(plain) == if |plain| == 12 then "+" + plain else ""
  {
    NormalizeDigits(plain);
    assert plain[0] == '9';
  }

  lemma ZeroedInternational(plain: string)
    requires AllDigits(plain) && "972" <= plain
    ensures NormalizePhone("00" + plain) == if |plain| == 12 then "+" + plain else ""
  {
    NormalizeDigits("00" + plain);
    assert ("00" + plain)[2..] == plain;
    assert ("00" + plain)[..5] == "00" + plain[..3];
  }

  lemma NationalSpelling(national: string)
    requires AllDigits(national) && (|national| == 8 || |national| == 9)
    ensures NormalizePhone("0" + national) == if "0972" <= national then "" else "+972" + national
  {
    var zero := "0" + national;
    NormalizeDigits(zero);
    assert zero[1..] == national && zero[0] == '0';
    if "0972" <= national {
      assert zero[..5] == "0" + national[..4];
      assert zero[2..] == national[1..] && national[1..][..3] == national[..4][1..];
    }
  }

  /** A landline of nine digits: normalised once it is canonical, normalised twice it is gone. */
  lemma LandlineIsRefused(national: string)
    requires AllDigits(national) && |national| == 8 && !("0972" <= national)
    ensures NormalizePhone("0" + national) == "+972" + national
    ensures NormalizePhone(NormalizePhone("0" + national)) == ""
  {
    var n := "+972" + national;
    NationalSpelling(national);
    assert n[1..] == "972" + national;
    NormalizePlus(n);
  }

  lemma SomeLandline() returns (phone: string)
    ensures NormalizePhone(phone) != "" && NormalizePhone(NormalizePhone(phone)) == ""
  {
    var national := "21234567";
    assert national[0] == '2';
    LandlineIsRefused(national);
    phone := "0" + national;
  }

  lemma DomesticSpellings(n: string)
    requires Canonical(n) && "+972" <= n
    ensures |n| == 12 || |n| == 13
    ensures NormalizePhone(n[1..]) == n <==> |n| == 13
    ensures NormalizePhone("00" + n[1..]) == n <==> |n| == 13
    ensures NormalizePhone("0" + n[4..]) == n <==> !("0972" <= n[4..])
  {
    var national, plain := n[4..], n[1..];
    PrefixFacts(n);
    assert national == plain[3..] && n == "+" + plain && n == "+972" + national;
    BareInternational(plain);
    ZeroedInternational(plain);
    NationalSpelling(national);
  }

  /** The spellings under which a domestic number is looked up all normalise to it exactly when it has nine national
      digits and these do not begin with 0972. */
  lemma SpellingsReadBackExactly(n: string)
    requires Canonical(n) && "+972" <= n
    ensures (forall e :: e in Equivalents(n) ==> NormalizePhone(e) == n) <==> |n| == 13 && !("0972" <= n[4..])
  {
    DomesticSpellings(n);
    NormalizeStableExactly(n);
    SpellingList(n);
    assert n in Equivalents(n) && n[1..] in Equivalents(n) && "00" + n[1..] in Equivalents(n) && "0" + n[4..] in Equivalents(n);
  }

  lemma SpellingList(n: string)
    requires Canonical(n) && "+972" <= n
    ensures forall e :: e in Equivalents(n) <==> e in {n, n[1..], "00" + n[1..], "0" + n[4..]}
  {}

  /** No stored spelling stands for two canonical numbers, so the lookup of one never finds the record of another. */
  lemma SpellingClassesDisjoint(a: string, b: string, e: string)
    requires Canonical(a) && Canonical(b) && e in Equivalents(a) && e in Equivalents(b)
    ensures a == b
  {
    SpellingNames(a, e);
    SpellingNames(b, e);
  }

  /** What a spelling tells about its number, by its first characters and length. */
  lemma SpellingNames(n: string, e: string)
    requires Canonical(n) && e in Equivalents(n)
    ensures
      n == if e[0] == '+' then e
           else if e[0] == '9' then "+" + e
           else if |e| >= 13 then "+" + e[2..]
           else "+972" + e[1..]
  {
    if "+972" <= n {
      assert n == "+" + n[1..] && n == "+972" + n[4..];
      assert n[1] == '9';
      assert ("00" + n[1..])[2..] == n[1..] && ("0" + n[4..])[1..] == n[4..];
    }
  }

  // ---- what a phone is read as ----

  /** The digits of a text, in order. */
  function DigitsIn(s: string): string {
    if s == "" then "" else (if '0' <= s[0] <= '9' then [s[0]] else "") + DigitsIn(s[1..])
  }

  lemma {:induction false} DropAppend(s: string, c: char)
    ensures DropSeparators(s + [c]) == DropSeparators(s) + if Separator(c) then "" else [c]
    decreases |s|
  {
    if s == "" {
      assert (s + [c])[1..] == "";
    } else {
      assert (s + [c])[1..] == s[1..] + [c];
      DropAppend(s[1..], c);
    }
  }

  predicate Dropped(c: char) { White(c) || c == '(' || c == ')' || c == '.' || c == '-' }

  /** These are the places of the characters that are not dropped, in order, and the characters stand there. */
  ghost predicate KeptAt(s: string, at: seq<int>, kept: string) {
    && (forall i :: i in at <==> 0 <= i < |s| && !Dropped(s[i]))
    && (forall k, l :: 0 <= k < l < |at| ==> at[k] < at[l])
    && |kept| == |at| && forall k :: 0 <= k < |at| ==> 0 <= at[k] < |s| && kept[k] == s[at[k]]
  }

  lemma KeptAtDropped(s: string, c: char, at: seq<int>, kept: string)
    requires KeptAt(s, at, kept) && Dropped(c)
    ensures KeptAt(s + [c], at, kept)
  {
    var t := s + [c];
    assert t[|s|] == c && forall i :: 0 <= i < |s| ==> t[i] == s[i];
  }

  lemma KeptAtTaken(s: string, c: char, at: seq<int>, kept: string)
    requires KeptAt(s, at, kept) && !Dropped(c)
    ensures KeptAt(s + [c], at + [|s|], kept + [c])
  {
    var t, n, more := s + [c], |at|, at + [|s|];
    assert t[|s|] == c && forall i :: 0 <= i < |s| ==> t[i] == s[i];
    forall i ensures i in more <==> 0 <= i < |t| && !Dropped(t[i]) { assert i in more <==> i in at || i == |s|; }
    forall k, l | 0 <= k < l < |more| ensures more[k] < more[l] {
      if l == n { assert more[k] == at[k] && at[k] in at; } else { assert more[k] == at[k] && more[l] == at[l]; }
    }
    forall k | 0 <= k < |more| ensures 0 <= more[k] < |t| && (kept + [c])[k] == t[more[k]] {
      if k < n { assert more[k] == at[k]; }
    }
  }

  lemma KeptAtLast(s: string, c: char, at: seq<int>) returns (more: seq<int>)
    requires KeptAt(s, at, DropSeparators(s))
    ensures KeptAt(s + [c], more, DropSeparators(s + [c]))
  {
    more := if Dropped(c) then at else at + [|s|];
    var kept := DropSeparators(s);
    DropAppend(s, c);
    assert kept + "" == kept;
    if Dropped(c) { KeptAtDropped(s, c, at, kept); } else { KeptAtTaken(s, c, at, kept); }
  }

  /** Dropping separators keeps every other character, in order, and nothing else. */
  lemma {:induction false} DropKeepsTheRest(s: string) returns (at: seq<int>)
    ensures KeptAt(s, at, DropSeparators(s))
    decreases |s|
  {
    if s == "" {
      at := [];
    } else {
      at := DropKeepsTheRest(s[..|s| - 1]);
      at := KeptAtLast(s[..|s| - 1], s[|s| - 1], at);
      assert s[..|s| - 1] + [s[|s| - 1]] == s;
    }
  }

  /** A phone is written with digits and separators, and a plus at most in front. */
  predicate PhoneText(s: string) {
    && s != ""
    && (forall i :: 0 <= i < |s| ==>
          '0' <= s[i] <= '9' || White(s[i]) || s[i] == '(' || s[i] == ')' || s[i] == '.' || s[i] == '-' || s[i] == '+')
    && forall i :: 0 < i < |s| ==> s[i] != '+'
  }

  /** The number some digits stand for, given with a plus in front or without. */
  predicate NumberFor(n: string, digits: string, plus: bool) {
    var d := if "00972" <= digits then digits[2..] else digits;
    if "972" <= d then n == (if |d| == 12 then "+" + d else "")
    else if plus then n == (if 8 <= |d| <= 15 then "+" + d else "")
    else n == (if (|d| == 9 || |d| == 10) && d[0] == '0' then "+972" + d[1..] else "")
  }

  lemma {:induction false} DroppedIsDigits(s: string)
    requires forall i :: 0 <= i < |s| ==> PhoneChar(s[i]) && s[i] != '+'
    ensures DropSeparators(s) == DigitsIn(s) && AllDigits(DigitsIn(s))
    decreases |s|
  {
    if s != "" {
      DroppedIsDigits(s[1..]);
      assert IsDigit(s[0]) <==> !Separator(s[0]);
    }
  }

  lemma {:induction false} DigitsJoin(a: string, b: string)
    ensures DigitsIn(a + b) == DigitsIn(a) + DigitsIn(b)
    decreases |a|
  {
    if a == "" {
      assert a + b == b;
    } else {
      assert (a + b)[1..] == a[1..] + b;
      DigitsJoin(a[1..], b);
    }
  }

  lemma {:induction false} NoDigitsInBlanks(s: string)
    requires forall i :: 0 <= i < |s| ==> White(s[i])
    ensures DigitsIn(s) == ""
    decreases |s|
  {
    if s != "" {
      assert White(s[0]);
      NoDigitsInBlanks(s[1..]);
    }
  }

  lemma DigitsOfStripped(s: string)
    ensures DigitsIn(Strip(s)) == DigitsIn(s)
  {
    var i, j := StripCutsBlanks(s);
    assert s == s[..i] + (s[i..j] + s[j..]);
    DigitsJoin(s[..i], s[i..j] + s[j..]);
    DigitsJoin(s[i..j], s[j..]);
    NoDigitsInBlanks(s[..i]);
    NoDigitsInBlanks(s[j..]);
  }

  lemma PhoneTextExactly(raw: string)
    ensures PhoneText(raw) <==> raw != "" && (forall i :: 0 <= i < |raw| ==> PhoneChar(raw[i])) && '+' !in raw[1..]
  {
    if raw != "" && '+' !in raw[1..] {
      forall i | 0 < i < |raw| ensures raw[i] != '+' { assert raw[i] == raw[1..][i - 1]; }
    }
  }

  lemma BareIsDigits(raw: string)
    requires PhoneText(raw)
    ensures DropSeparators(if raw[0] == '+' then raw[1..] else raw) == DigitsIn(raw) && AllDigits(DigitsIn(raw))
  {
    if raw[0] == '+' { DroppedIsDigits(raw[1..]); } else { DroppedIsDigits(raw); }
  }

  /** A phone is read by its digits and by whether a plus stands in front, and by nothing else in it; anything but a phone
      text with a digit is refused. */
  lemma NormalizeExactly(phone: string)
    ensures
      if PhoneText(Strip(phone)) && DigitsIn(phone) != ""
      then NumberFor(NormalizePhone(phone), DigitsIn(phone), Strip(phone)[0] == '+')
      else NormalizePhone(phone) == ""
  {
    var raw := Strip(phone);
    DigitsOfStripped(phone);
    PhoneTextExactly(raw);
    if PhoneText(raw) { BareIsDigits(raw); }
  }

  /** So two phones with the same digits, both with a plus or both without, are one number however they are spaced. */
  lemma SpacingDoesNotMatter(a: string, b: string)
    requires PhoneText(Strip(a)) && PhoneText(Strip(b)) && DigitsIn(a) == DigitsIn(b)
    requires Strip(a)[0] == '+' <==> Strip(b)[0] == '+'
    ensures NormalizePhone(a) == NormalizePhone(b)
  {
    NormalizeExactly(a);
    NormalizeExactly(b);
  }

  // ---- find or create ----

  datatype Row = Row(id: nat, name: string, phone: string)

  datatype Reply =
    | Invalid | InvalidPhone | MissingName | UnsupportedField | LookupError | Ambiguous | Existing(id: nat) | New(id: nat)
    | CreateError | OutcomeUnknown

  /** One call: what was asked, whether the store can be reached, which of the lookups succeed, and how a create would
      end, through a writer that tells outcomes apart or by posting directly. */
  datatype Request = Request(phone: string, name: string, notes: bool, reachable: bool, lookups: seq<bool>,
                             direct: bool, outcome: AddOutcome)

  function ClassOf(rows: seq<Row>, n: string): seq<Row> {
    if rows == [] then []
    else
      ClassOf(rows[..|rows| - 1], n)
      + if rows[|rows| - 1].phone in Equivalents(n) then [rows[|rows| - 1]] else []
  }

  function LookupOk(lookups: seq<bool>, i: nat): bool { i < |lookups| && lookups[i] }

  predicate LookupsOk(lookups: seq<bool>, n: string) {
    forall i :: 0 <= i < |Equivalents(n)| ==> LookupOk(lookups, i)
  }

  /** A direct post that raises or brings no id back is reported as a failed lookup. */
  function CreateReply(direct: bool, o: AddOutcome, id: nat): Reply {
    match o
    case Created => New(id)
    case Failed => if direct then LookupError else CreateError
    case _ => if direct then LookupError else OutcomeUnknown
  }

  function FindOrCreate(rows: seq<Row>, nextId: nat, q: Request): (seq<Row>, Reply) {
    var n := NormalizePhone(q.phone);
    if n == "" && q.name == "" then (rows, Invalid)
    else if n == "" then (rows, InvalidPhone)
    else if q.name == "" then (rows, MissingName)
    else if q.notes then (rows, UnsupportedField)
    else if !q.reachable || !LookupsOk(q.lookups, n) then (rows, LookupError)
    else
      var found := ClassOf(rows, n);
      if |found| > 1 then (rows, Ambiguous)
      else if |found| == 1 then (rows, Existing(found[0].id))
      else (if Writes(q.outcome) then rows + [Row(nextId, q.name, n)] else rows, CreateReply(q.direct, q.outcome, nextId))
  }

  ghost predicate ValidRows(rows: seq<Row>, nextId: nat) {
    && (forall i :: 0 <= i < |rows| ==> rows[i].id < nextId)
    && (forall i, j :: 0 <= i < j < |rows| ==> rows[i].id != rows[j].id)
  }

  class ContactTable {
    var rows: seq<Row>
    var nextId: nat

    ghost predicate Valid()
      reads this
    {
      ValidRows(rows, nextId)
    }

    constructor ()
      ensures Valid() && rows == []
    {
      rows, nextId := [], 0;
    }

    method Lookup(spelling: string) returns (found: seq<Row>)
      ensures forall r :: r in found <==> r in rows && r.phone == spelling
    {
      found := [];
      for k := 0 to |rows|
        invariant forall r :: r in found <==> r in rows[..k] && r.phone == spelling
      {
        if rows[k].phone == spelling { found := found + [rows[k]]; }
      }
    }

    /** Looks every spelling up and collects the records by id. */
    method Gather(normalized: string, lookups: seq<bool>) returns (byId: map<nat, Row>, failed: bool)
      requires Valid()
      ensures failed <==> !LookupsOk(lookups, normalized)
      ensures forall id :: id in byId ==> byId[id] in rows && byId[id].id == id && byId[id].phone in Equivalents(normalized)
      ensures !failed ==> forall r :: r in rows && r.phone in Equivalents(normalized) ==> r.id in byId
    {
      var spellings := Equivalents(normalized);
      byId, failed := map[], false;
      for i := 0 to |spellings|
        invariant failed <==> exists k :: 0 <= k < i && !LookupOk(lookups, k)
        invariant forall id :: id in byId ==> byId[id] in rows && byId[id].id == id && byId[id].phone in spellings
        invariant !failed ==> forall r :: r in rows && r.phone in spellings[..i] ==> r.id in byId
      {
        if !LookupOk(lookups, i) {
          failed := true;
        } else {
          var found := Lookup(spellings[i]);
          ghost var before := byId;
          for k := 0 to |found|
            invariant forall id :: id in byId ==> byId[id] in rows && byId[id].id == id && byId[id].phone in spellings
            invariant before.Keys <= byId.Keys
            invariant forall m :: 0 <= m < k ==> found[m].id in byId
          {
            assert found[k] in found;
            byId := byId[found[k].id := found[k]];
          }
        }
      }
      assert spellings[..|spellings|] == spellings;
    }

    method FindOrCreateContact(q: Request) returns (reply: Reply)
      requires Valid()
      modifies this
      ensures Valid()
      ensures (rows, reply) == FindOrCreate(old(rows), old(nextId), q)
    {
      var normalized := NormalizePhone(q.phone);
      if normalized == "" && q.name == "" { return Invalid; }
      if normalized == "" { return InvalidPhone; }
      if q.name == "" { return MissingName; }
      if q.notes { return UnsupportedField; }
      if !q.reachable { return LookupError; }
      var byId, failed := Gather(normalized, q.lookups);
      if failed { return LookupError; }
      ghost var found := ClassOf(rows, normalized);
      ClassMembers(rows, normalized);
      CountById(rows, nextId, normalized, byId);
      if |byId| > 1 { return Ambiguous; }
      if |byId| == 1 {
        var id :| id in byId;
        OnlyMember(found, byId, id);
        return Existing(id);
      }
      var newId := nextId;
      if Writes(q.outcome) {
        rows := rows + [Row(nextId, q.name, normalized)];
        nextId := nextId + 1;
      }
      return CreateReply(q.direct, q.outcome, newId);
    }
  }

  lemma {:induction false} ClassMembers(rows: seq<Row>, n: string)
    ensures forall r :: r in ClassOf(rows, n) <==> r in rows && r.phone in Equivalents(n)
    decreases |rows|
  {
    if rows != [] {
      ClassMembers(rows[..|rows| - 1], n);
      assert rows == rows[..|rows| - 1] + [rows[|rows| - 1]];
    }
  }

  ghost function Ids(rows: seq<Row>): set<nat> { set r | r in rows :: r.id }

  lemma {:induction false} DistinctCount(rows: seq<Row>, nextId: nat, n: string)
    requires ValidRows(rows, nextId)
    ensures |Ids(ClassOf(rows, n))| == |ClassOf(rows, n)|
    decreases |rows|
  {
    if rows != [] {
      var front, last := rows[..|rows| - 1], rows[|rows| - 1];
      DistinctCount(front, nextId, n);
      ClassMembers(front, n);
      var before := ClassOf(front, n);
      if last.phone in Equivalents(n) {
        assert Ids(before + [last]) == Ids(before) + {last.id};
        assert last.id !in Ids(before);
      } else {
        assert before + [] == before;
      }
    }
  }

  lemma CountById(rows: seq<Row>, nextId: nat, n: string, byId: map<nat, Row>)
    requires ValidRows(rows, nextId)
    requires forall id :: id in byId ==> byId[id] in rows && byId[id].id == id && byId[id].phone in Equivalents(n)
    requires forall r :: r in rows && r.phone in Equivalents(n) ==> r.id in byId
    ensures |byId| == |ClassOf(rows, n)|
  {
    ClassMembers(rows, n);
    DistinctCount(rows, nextId, n);
    assert byId.Keys == Ids(ClassOf(rows, n));
  }

  lemma OnlyMember(found: seq<Row>, byId: map<nat, Row>, id: nat)
    requires |found| == 1 && id in byId && byId[id] in found && byId[id].id == id
    ensures found[0].id == id
  {}

  // ---- at most one record per number, over any run ----

  lemma {:induction false} ClassAppend(rows: seq<Row>, r: Row, n: string)
    ensures ClassOf(rows + [r], n) == ClassOf(rows, n) + if r.phone in Equivalents(n) then [r] else []
  {
    assert (rows + [r])[..|rows|] == rows;
  }

  lemma CallShape(rows: seq<Row>, nextId: nat, q: Request)
    ensures
      var n, after := NormalizePhone(q.phone), FindOrCreate(rows, nextId, q).0;
      after == rows || (n != "" && ClassOf(rows, n) == [] && after == rows + [Row(nextId, q.name, n)])
  {}

  /** One call, however its lookups and its create end, never makes a second record for any number. */
  lemma CallKeepsOnePerNumber(rows: seq<Row>, nextId: nat, q: Request, n: string)
    requires Canonical(n)
    ensures
      var after := ClassOf(FindOrCreate(rows, nextId, q).0, n);
      |after| <= 1 || after == ClassOf(rows, n)
  {
    CallShape(rows, nextId, q);
    var written := NormalizePhone(q.phone);
    if FindOrCreate(rows, nextId, q).0 != rows {
      ClassAppend(rows, Row(nextId, q.name, written), n);
      NormalizeIsCanonical(q.phone);
      OnlyOwnClass(n, written);
    }
  }

  lemma OnlyOwnClass(n: string, written: string)
    requires Canonical(n) && Canonical(written)
    ensures written in Equivalents(n) ==> written == n
  {
    if written in Equivalents(n) { SpellingClassesDisjoint(n, written, written); }
  }

  function RunCalls(rows: seq<Row>, nextId: nat, calls: seq<Request>): seq<Row>
    decreases |calls|
  {
    if calls == [] then rows else RunCalls(FindOrCreate(rows, nextId, calls[0]).0, nextId + 1, calls[1..])
  }

  /** Over any run of calls, a number that starts with at most one record, under whatever spelling, keeps at most one. */
  lemma {:induction false} RunKeepsOnePerNumber(rows: seq<Row>, nextId: nat, calls: seq<Request>, n: string)
    requires Canonical(n) && |ClassOf(rows, n)| <= 1
    ensures |ClassOf(RunCalls(rows, nextId, calls), n)| <= 1
    decreases |calls|
  {
    if calls != [] {
      CallKeepsOnePerNumber(rows, nextId, calls[0], n);
      RunKeepsOnePerNumber(FindOrCreate(rows, nextId, calls[0]).0, nextId + 1, calls[1..], n);
    }
  }

  lemma {:induction false} RunKeepsFoundClass(rows: seq<Row>, nextId: nat, calls: seq<Request>, n: string)
    requires Canonical(n) && ClassOf(rows, n) != []
    ensures ClassOf(RunCalls(rows, nextId, calls), n) == ClassOf(rows, n)
    decreases |calls|
  {
    if calls != [] {
      CallKeepsFoundClass(rows, nextId, calls[0], n);
      RunKeepsFoundClass(FindOrCreate(rows, nextId, calls[0]).0, nextId + 1, calls[1..], n);
    }
  }

  lemma CallKeepsFoundClass(rows: seq<Row>, nextId: nat, q: Request, n: string)
    requires Canonical(n) && ClassOf(rows, n) != []
    ensures ClassOf(FindOrCreate(rows, nextId, q).0, n) == ClassOf(rows, n)
  {
    CallShape(rows, nextId, q);
    var written := NormalizePhone(q.phone);
    if FindOrCreate(rows, nextId, q).0 != rows {
      ClassAppend(rows, Row(nextId, q.name, written), n);
      NormalizeIsCanonical(q.phone);
      OnlyOwnClass(n, written);
    }
  }

  lemma NewUnfolds(rows: seq<Row>, nextId: nat, q: Request, n: string)
    requires FindOrCreate(rows, nextId, q).1.New? && n == NormalizePhone(q.phone)
    ensures n != "" && |ClassOf(rows, n)| == 0
    ensures FindOrCreate(rows, nextId, q).0 == rows + [Row(nextId, q.name, n)]
    ensures FindOrCreate(rows, nextId, q).1 == New(nextId)
  {
  }

  /** A call that gets as far as the records: name given, no notes, store and lookups answering. */
  predicate Searches(q: Request) {
    NormalizePhone(q.phone) != "" && q.name != "" && !q.notes && q.reachable && LookupsOk(q.lookups, NormalizePhone(q.phone))
  }

  lemma SoleIsFound(rows: seq<Row>, nextId: nat, again: Request, r: Row)
    requires Searches(again) && ClassOf(rows, NormalizePhone(again.phone)) == [r]
    ensures FindOrCreate(rows, nextId, again) == (rows, Existing(r.id))
  {
  }

  /** After a call that created a record, and any further calls, a call with any phone that normalises alike finds that
      same record and writes nothing. */
  lemma FoundAgain(rows: seq<Row>, nextId: nat, q: Request, calls: seq<Request>, again: Request, later: nat)
    requires FindOrCreate(rows, nextId, q).1.New?
    requires NormalizePhone(again.phone) == NormalizePhone(q.phone) && Searches(again)
    ensures
      var (created, reply) := FindOrCreate(rows, nextId, q);
      var after := RunCalls(created, nextId + 1, calls);
      FindOrCreate(after, later, again) == (after, Existing(reply.id))
  {
    var n := NormalizePhone(q.phone);
    var r := Row(nextId, q.name, n);
    NewUnfolds(rows, nextId, q, n);
    OwnSpelling(n);
    ClassAppend(rows, r, n);
    NormalizeIsCanonical(q.phone);
    RunKeepsFoundClass(rows + [r], nextId + 1, calls, n);
    SoleIsFound(RunCalls(rows + [r], nextId + 1, calls), later, again, r);
  }

  lemma OwnSpelling(n: string)
    ensures n in Equivalents(n)
  {
  }

  // ---- one call, exactly ----

  /** The records that stand for the number, by their ids. */
  ghost function Standing(rows: seq<Row>, n: string): set<nat> {
    set r | r in rows && (r.phone == n || ("+972" <= n && r.phone in {n[1..], "00" + n[1..], "0" + n[4..]})) :: r.id
  }

  lemma StandingIsClass(rows: seq<Row>, nextId: nat, n: string)
    requires ValidRows(rows, nextId) && Canonical(n)
    ensures |ClassOf(rows, n)| == |Standing(rows, n)|
    ensures |ClassOf(rows, n)| == 1 ==> ClassOf(rows, n)[0].id in Standing(rows, n)
  {
    ClassMembers(rows, n);
    DistinctCount(rows, nextId, n);
    if "+972" <= n { SpellingList(n); }
    assert Ids(ClassOf(rows, n)) == Standing(rows, n);
    if |ClassOf(rows, n)| == 1 { assert ClassOf(rows, n)[0] in ClassOf(rows, n); }
  }

  /** What is refused before any lookup, in the order it is looked at. */
  function Refusal(n: string, q: Request): Option<Reply> {
    if n == "" then Some(if q.name == "" then Invalid else InvalidPhone)
    else if q.name == "" then Some(MissingName)
    else if q.notes then Some(UnsupportedField)
    else if !q.reachable then Some(LookupError)
    else None
  }

  /** What a call does, by the number its phone is read as: one record of the number is the answer, several are ambiguous,
      and with none a record of the name and the number is written. */
  lemma CallExactly(rows: seq<Row>, nextId: nat, q: Request)
    requires ValidRows(rows, nextId)
    ensures var (after, reply) := FindOrCreate(rows, nextId, q);
      var n := NormalizePhone(q.phone);
      var ids := Standing(rows, n);
      if Refusal(n, q).Some? then after == rows && reply == Refusal(n, q).value
      else if !LookupsOk(q.lookups, n) then after == rows && reply == LookupError
      else if |ids| > 1 then after == rows && reply == Ambiguous
      else if |ids| == 1 then after == rows && reply.Existing? && reply.id in ids
      else
        && after == (if q.outcome == Created || q.outcome == CreatedWithoutId || q.outcome == UnknownWritten
                     then rows + [Row(nextId, q.name, n)] else rows)
        && reply == (if q.outcome == Created then New(nextId) else if q.direct then LookupError
                     else if q.outcome == Failed then CreateError else OutcomeUnknown)
  {
    var n := NormalizePhone(q.phone);
    if n != "" {
      NormalizeIsCanonical(q.phone);
      StandingIsClass(rows, nextId, n);
      if Refusal(n, q) == None { SearchUnfolds(rows, nextId, q, n); }
    }
  }

  lemma SearchUnfolds(rows: seq<Row>, nextId: nat, q: Request, n: string)
    requires n == NormalizePhone(q.phone) && n != "" && q.name != "" && !q.notes && q.reachable
    ensures var found := ClassOf(rows, n);
      FindOrCreate(rows, nextId, q) ==
        if !LookupsOk(q.lookups, n) then (rows, LookupError)
        else if |found| > 1 then (rows, Ambiguous)
        else if |found| == 1 then (rows, Existing(found[0].id))
        else (if Writes(q.outcome) then rows + [Row(nextId, q.name, n)] else rows, CreateReply(q.direct, q.outcome, nextId))
  {
  }
}
