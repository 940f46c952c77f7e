/** Merging contacts from several address books: one record per phone, one per name where there is no phone. */
module ContactMerge {
  import opened Texts
  import opened OwnerLists

  datatype Contact = Contact(name: string, phone: string, email: string, company: string, source: string)

  /** A dictionary that keeps its keys in insertion order. */
  datatype OrderedDict = OrderedDict(keys: seq<string>, at: map<string, Contact>) {
    ghost predicate Valid() {
      && (forall k :: k in keys <==> k in at)
      && (forall i, j :: 0 <= i < j < |keys| ==> keys[i] != keys[j])
    }

    function Put(k: string, c: Contact): OrderedDict {
      OrderedDict(if k in at then keys else keys + [k], at[k := c])
    }

    function Values(): seq<Contact>
      requires forall k :: k in keys ==> k in at
    {
      seq(|keys|, i requires 0 <= i < |keys| => at[keys[i]])
    }
  }

  const EmptyDict := OrderedDict([], map[])

  datatype Book = Book(byPhone: OrderedDict, noPhone: OrderedDict)

  /** Fills the blanks of an existing record and adds the source; the name is not touched. */
  function Absorb(existing: Contact, c: Contact): Contact {
    existing.(email := if existing.email == "" && c.email != "" then c.email else existing.email,
              company := if existing.company == "" && c.company != "" then c.company else existing.company,
              source := AddOwner(existing.source, c.source))
  }

  function PreferLonger(existing: string, name: string): string {
    if |name| > |existing| then name else existing
  }

  function AbsorbNamed(existing: Contact, c: Contact): Contact {
    Absorb(existing, c).(name := PreferLonger(existing.name, Strip(c.name)))
  }

  function NameKey(c: Contact, lower: string -> string): string { lower(Strip(c.name)) }

  function Step(b: Book, c: Contact, lower: string -> string): Book {
    if c.phone != "" then
      b.(byPhone := b.byPhone.Put(c.phone,
           if c.phone in b.byPhone.at then AbsorbNamed(b.byPhone.at[c.phone], c) else c))
    else if Strip(c.name) != "" then
      var key := NameKey(c, lower);
      b.(noPhone := b.noPhone.Put(key, if key in b.noPhone.at then Absorb(b.noPhone.at[key], c) else c))
    else b
  }

  function Fold(b: Book, xs: seq<Contact>, lower: string -> string): Book
    decreases |xs|
  {
    if xs == [] then b else Fold(Step(b, xs[0], lower), xs[1..], lower)
  }

  const EmptyBook := Book(EmptyDict, EmptyDict)

  ghost predicate ValidBook(b: Book, lower: string -> string) {
    && b.byPhone.Valid() && b.noPhone.Valid()
    && (forall p :: p in b.byPhone.at ==> p != "" && b.byPhone.at[p].phone == p)
    && (forall k :: k in b.noPhone.at ==>
          var c := b.noPhone.at[k]; c.phone == "" && Strip(c.name) != "" && NameKey(c, lower) == k)
  }

  lemma PutKeepsValid(d: OrderedDict, k: string, c: Contact)
    requires d.Valid()
    ensures d.Put(k, c).Valid()
  {
    if k !in d.at {
      forall j | j in d.keys + [k] ensures j in d.at[k := c] {}
      forall j | j in d.at[k := c] ensures j in d.keys + [k] {
        if j == k { assert (d.keys + [k])[|d.keys|] == k; }
      }
    }
  }

  lemma PhoneStepKeepsValid(b: Book, c: Contact, lower: string -> string)
    requires ValidBook(b, lower) && c.phone != ""
    ensures ValidBook(Step(b, c, lower), lower)
  {
    PutKeepsValid(b.byPhone, c.phone, if c.phone in b.byPhone.at then AbsorbNamed(b.byPhone.at[c.phone], c) else c);
  }

  lemma NamedPutKeepsValid(b: Book, key: string, c: Contact, lower: string -> string)
    requires ValidBook(b, lower) && c.phone == "" && Strip(c.name) != "" && NameKey(c, lower) == key
    ensures ValidBook(Book(b.byPhone, b.noPhone.Put(key, c)), lower)
  {
    PutKeepsValid(b.noPhone, key, c);
  }

  lemma NameStepKeepsValid(b: Book, c: Contact, lower: string -> string)
    requires ValidBook(b, lower) && c.phone == ""
    ensures ValidBook(Step(b, c, lower), lower)
  {
    if Strip(c.name) != "" {
      var key := NameKey(c, lower);
      NamedPutKeepsValid(b, key, if key in b.noPhone.at then Absorb(b.noPhone.at[key], c) else c, lower);
    }
  }

  lemma StepKeepsValid(b: Book, c: Contact, lower: string -> string)
    requires ValidBook(b, lower)
    ensures ValidBook(Step(b, c, lower), lower)
  {
    if c.phone != "" { PhoneStepKeepsValid(b, c, lower); } else { NameStepKeepsValid(b, c, lower); }
  }

  lemma {:induction false} FoldKeepsValid(b: Book, xs: seq<Contact>, lower: string -> string)
    requires ValidBook(b, lower)
    ensures ValidBook(Fold(b, xs, lower), lower)
    decreases |xs|
  {
    if xs != [] {
      StepKeepsValid(b, xs[0], lower);
      FoldKeepsValid(Step(b, xs[0], lower), xs[1..], lower);
    }
  }

  function BookOf(xs: seq<Contact>, lower: string -> string): (b: Book)
    ensures ValidBook(b, lower)
  {
    FoldKeepsValid(EmptyBook, xs, lower);
    Fold(EmptyBook, xs, lower)
  }

  function Merged(xs: seq<Contact>, lower: string -> string): seq<Contact> {
    BookOf(xs, lower).byPhone.Values() + BookOf(xs, lower).noPhone.Values()
  }

  method MergeContacts(all: seq<Contact>, lower: string -> string) returns (out: seq<Contact>)
    ensures out == Merged(all, lower)
  {
    var byPhone, noPhone := EmptyDict, EmptyDict;
    for i := 0 to |all|
      invariant ValidBook(Book(byPhone, noPhone), lower)
      invariant Fold(Book(byPhone, noPhone), all[i..], lower) == BookOf(all, lower)
    {
      var c := all[i];
      assert all[i..][0] == c && all[i..][1..] == all[i + 1..];
      StepKeepsValid(Book(byPhone, noPhone), c, lower);
      var name := Strip(c.name);
      if c.phone != "" {
        if c.phone in byPhone.at {
          var existing := byPhone.at[c.phone];
          if |name| > |existing.name| { existing := existing.(name := name); }
          if existing.email == "" && c.email != "" { existing := existing.(email := c.email); }
          if existing.company == "" && c.company != "" { existing := existing.(company := c.company); }
          existing := existing.(source := AddOwner(existing.source, c.source));
          byPhone := byPhone.Put(c.phone, existing);
        } else {
          byPhone := byPhone.Put(c.phone, c);
        }
      } else if name != "" {
        var key := lower(name);
        if key in noPhone.at {
          var existing := noPhone.at[key];
          if existing.email == "" && c.email != "" { existing := existing.(email := c.email); }
          if existing.company == "" && c.company != "" { existing := existing.(company := c.company); }
          existing := existing.(source := AddOwner(existing.source, c.source));
          noPhone := noPhone.Put(key, existing);
        } else {
          noPhone := noPhone.Put(key, c);
        }
      }
    }
    out := byPhone.Values() + noPhone.Values();
  }

  // ---- merging is an incremental fold ----

  lemma {:induction false} FoldAppend(b: Book, xs: seq<Contact>, ys: seq<Contact>, lower: string -> string)
    ensures Fold(b, xs + ys, lower) == Fold(Fold(b, xs, lower), ys, lower)
    decreases |xs|
  {
    if xs == [] {
      assert xs + ys == ys;
    } else {
      assert (xs + ys)[0] == xs[0] && (xs + ys)[1..] == xs[1..] + ys;
      FoldAppend(Step(b, xs[0], lower), xs[1..], ys, lower);
    }
  }

  /** The first n entries of a dictionary. */
  ghost function Take(d: OrderedDict, n: nat): OrderedDict
    requires d.Valid() && n <= |d.keys|
  {
    OrderedDict(d.keys[..n], map k | k in d.at && k in d.keys[..n] :: d.at[k])
  }

  lemma TakeMore(d: OrderedDict, n: nat)
    requires d.Valid() && n < |d.keys|
    ensures Take(d, n + 1) == Take(d, n).Put(d.keys[n], d.at[d.keys[n]]) && d.keys[n] !in Take(d, n).at
  {
    assert d.keys[..n + 1] == d.keys[..n] + [d.keys[n]];
    assert d.keys[n] !in d.keys[..n];
    assert Take(d, n + 1).at == Take(d, n).at[d.keys[n] := d.at[d.keys[n]]];
  }

  /** Feeding the merged phone records back rebuilds the phone part, entry by entry. */
  lemma {:induction false} RefillPhones(b: Book, n: nat, lower: string -> string)
    requires ValidBook(b, lower) && n <= |b.byPhone.keys|
    ensures Fold(Book(Take(b.byPhone, n), EmptyDict), b.byPhone.Values()[n..], lower) == Book(b.byPhone, EmptyDict)
    decreases |b.byPhone.keys| - n
  {
    var d := b.byPhone;
    if n == |d.keys| {
      assert d.keys[..n] == d.keys;
      assert Take(d, n).at == d.at;
    } else {
      var c := d.at[d.keys[n]];
      assert d.Values()[n..][0] == c && d.Values()[n..][1..] == d.Values()[n + 1..];
      TakeMore(d, n);
      RefillPhones(b, n + 1, lower);
    }
  }

  lemma {:induction false} RefillNames(b: Book, n: nat, lower: string -> string)
    requires ValidBook(b, lower) && n <= |b.noPhone.keys|
    ensures Fold(Book(b.byPhone, Take(b.noPhone, n)), b.noPhone.Values()[n..], lower) == b
    decreases |b.noPhone.keys| - n
  {
    var d := b.noPhone;
    if n == |d.keys| {
      assert d.keys[..n] == d.keys;
      assert Take(d, n).at == d.at;
    } else {
      var c := d.at[d.keys[n]];
      assert d.Values()[n..][0] == c && d.Values()[n..][1..] == d.Values()[n + 1..];
      TakeMore(d, n);
      RefillNames(b, n + 1, lower);
    }
  }

  lemma MergedRebuildsBook(xs: seq<Contact>, lower: string -> string)
    ensures BookOf(Merged(xs, lower), lower) == BookOf(xs, lower)
  {
    var b := BookOf(xs, lower);
    FoldAppend(EmptyBook, b.byPhone.Values(), b.noPhone.Values(), lower);
    assert Take(b.byPhone, 0) == EmptyDict && Take(b.noPhone, 0) == EmptyDict;
    assert b.byPhone.Values()[0..] == b.byPhone.Values() && b.noPhone.Values()[0..] == b.noPhone.Values();
    RefillPhones(b, 0, lower);
    RefillNames(b, 0, lower);
  }

  /** A merged list can be merged on: later contacts join it exactly as if everything had been merged at once.
      With nothing to add, merging twice is merging once. */
  lemma MergeResumes(xs: seq<Contact>, ys: seq<Contact>, lower: string -> string)
    ensures Merged(Merged(xs, lower) + ys, lower) == Merged(xs + ys, lower)
    ensures Merged(Merged(xs, lower), lower) == Merged(xs, lower)
  {
    MergedRebuildsBook(xs, lower);
    FoldAppend(EmptyBook, Merged(xs, lower), ys, lower);
    FoldAppend(EmptyBook, xs, ys, lower);
  }

  // ---- what each output record holds, class by class ----

  /** The contacts that carry a phone, in arrival order. */
  function PhoneClass(xs: seq<Contact>, phone: string): seq<Contact> {
    if xs == [] then []
    else
      var before := PhoneClass(xs[..|xs| - 1], phone);
      if xs[|xs| - 1].phone == phone then before + [xs[|xs| - 1]] else before
  }

  /** The contacts without a phone whose name has the key, in arrival order. */
  function NameClass(xs: seq<Contact>, key: string, lower: string -> string): seq<Contact> {
    if xs == [] then []
    else
      var c := xs[|xs| - 1];
      var before := NameClass(xs[..|xs| - 1], key, lower);
      if c.phone == "" && Strip(c.name) != "" && NameKey(c, lower) == key then before + [c] else before
  }

  function FirstNonEmpty(texts: seq<string>): string {
    if texts == [] then "" else if texts[0] != "" then texts[0] else FirstNonEmpty(texts[1..])
  }

  function Emails(cs: seq<Contact>): seq<string> { seq(|cs|, i requires 0 <= i < |cs| => cs[i].email) }
  function Companies(cs: seq<Contact>): seq<string> { seq(|cs|, i requires 0 <= i < |cs| => cs[i].company) }

  ghost function OwnersOf(cs: seq<Contact>): set<string> {
    if cs == [] then {} else OwnersOf(cs[..|cs| - 1]) + Owners(cs[|cs| - 1].source)
  }

  lemma {:induction false} FirstNonEmptyAppend(texts: seq<string>, t: string)
    ensures FirstNonEmpty(texts + [t]) == if FirstNonEmpty(texts) != "" then FirstNonEmpty(texts) else t
    decreases |texts|
  {
    if texts != [] {
      assert (texts + [t])[1..] == texts[1..] + [t];
      FirstNonEmptyAppend(texts[1..], t);
    }
  }

  /** The record of a class: first email and company given, exactly the owners of all its members. */
  ghost predicate Summarises(r: Contact, cs: seq<Contact>) {
    && r.email == FirstNonEmpty(Emails(cs))
    && r.company == FirstNonEmpty(Companies(cs))
    && Owners(r.source) == OwnersOf(cs)
  }

  lemma AbsorbSummarises(r: Contact, cs: seq<Contact>, c: Contact)
    requires Summarises(r, cs)
    ensures Summarises(Absorb(r, c), cs + [c])
  {
    assert Emails(cs + [c]) == Emails(cs) + [c.email];
    assert Companies(cs + [c]) == Companies(cs) + [c.company];
    FirstNonEmptyAppend(Emails(cs), c.email);
    FirstNonEmptyAppend(Companies(cs), c.company);
    AddOwnerIsUnion(r.source, c.source);
    assert (cs + [c])[..|cs|] == cs;
  }

  lemma AloneSummarises(c: Contact)
    ensures Summarises(c, [c])
  {
    assert Emails([c]) == [c.email] && Companies([c]) == [c.company];
    assert OwnersOf([c]) == OwnersOf([c][..0]) + Owners(c.source);
  }

  lemma SplitLast(xs: seq<Contact>, lower: string -> string)
    requires xs != []
    ensures BookOf(xs, lower) == Step(BookOf(xs[..|xs| - 1], lower), xs[|xs| - 1], lower)
  {
    var front, c := xs[..|xs| - 1], xs[|xs| - 1];
    assert xs == front + [c];
    FoldAppend(EmptyBook, front, [c], lower);
    assert [c][1..] == [];
  }

  /** Each phone of the input has one record, which summarises exactly the contacts with that phone. */
  lemma {:induction false} PhoneRecord(xs: seq<Contact>, phone: string, lower: string -> string)
    requires phone != ""
    ensures phone in BookOf(xs, lower).byPhone.at <==> PhoneClass(xs, phone) != []
    ensures phone in BookOf(xs, lower).byPhone.at ==>
              Summarises(BookOf(xs, lower).byPhone.at[phone], PhoneClass(xs, phone))
    decreases |xs|
  {
    if xs != [] {
      var front, c := xs[..|xs| - 1], xs[|xs| - 1];
      PhoneRecord(front, phone, lower);
      SplitLast(xs, lower);
      if c.phone == phone {
        var before := BookOf(front, lower).byPhone.at;
        if phone in before {
          AbsorbSummarises(before[phone], PhoneClass(front, phone), c);
        } else {
          AloneSummarises(c);
        }
      }
    }
  }

  /** The same for the contacts that have only a name. */
  lemma {:induction false} NameRecord(xs: seq<Contact>, key: string, lower: string -> string)
    ensures key in BookOf(xs, lower).noPhone.at <==> NameClass(xs, key, lower) != []
    ensures key in BookOf(xs, lower).noPhone.at ==>
              Summarises(BookOf(xs, lower).noPhone.at[key], NameClass(xs, key, lower))
    ensures key in BookOf(xs, lower).noPhone.at ==>
              BookOf(xs, lower).noPhone.at[key].name == NameClass(xs, key, lower)[0].name
    decreases |xs|
  {
    if xs != [] {
      var front, c := xs[..|xs| - 1], xs[|xs| - 1];
      NameRecord(front, key, lower);
      SplitLast(xs, lower);
      if c.phone == "" && Strip(c.name) != "" && NameKey(c, lower) == key {
        var before := BookOf(front, lower).noPhone.at;
        if key in before {
          AbsorbSummarises(before[key], NameClass(front, key, lower), c);
        } else {
          AloneSummarises(c);
        }
      }
    }
  }

  // ---- every contact lands in exactly one record ----

  ghost predicate LandsIn(c: Contact, r: Contact, lower: string -> string) {
    if c.phone != "" then r.phone == c.phone
    else r.phone == "" && Strip(r.name) != "" && NameKey(r, lower) == NameKey(c, lower)
  }

  lemma {:induction false} MemberOfClass(xs: seq<Contact>, i: nat, lower: string -> string)
    requires i < |xs|
    ensures PhoneClass(xs, xs[i].phone) != []
    ensures xs[i].phone == "" && Strip(xs[i].name) != "" ==> NameClass(xs, NameKey(xs[i], lower), lower) != []
    decreases |xs|
  {
    if i < |xs| - 1 {
      assert xs[..|xs| - 1][i] == xs[i];
      MemberOfClass(xs[..|xs| - 1], i, lower);
    }
  }

  /** No two output records share a phone or, without one, a name key. */
  lemma OutputKeysUnique(xs: seq<Contact>, lower: string -> string, i: nat, j: nat)
    requires i < |Merged(xs, lower)| && j < |Merged(xs, lower)|
    requires LandsIn(Merged(xs, lower)[i], Merged(xs, lower)[j], lower)
    ensures i == j
  {
    var b := BookOf(xs, lower);
    var n := |b.byPhone.keys|;
    var out := Merged(xs, lower);
    if i < n {
      assert out[i] == b.byPhone.at[b.byPhone.keys[i]];
    } else {
      assert out[i] == b.noPhone.at[b.noPhone.keys[i - n]];
    }
    if j < n {
      assert out[j] == b.byPhone.at[b.byPhone.keys[j]];
    } else {
      assert out[j] == b.noPhone.at[b.noPhone.keys[j - n]];
    }
  }

  lemma PhoneLands(xs: seq<Contact>, i: nat, lower: string -> string) returns (at: nat)
    requires i < |xs| && xs[i].phone != ""
    ensures at < |Merged(xs, lower)| && LandsIn(xs[i], Merged(xs, lower)[at], lower)
  {
    var b := BookOf(xs, lower);
    MemberOfClass(xs, i, lower);
    PhoneRecord(xs, xs[i].phone, lower);
    at :| 0 <= at < |b.byPhone.keys| && b.byPhone.keys[at] == xs[i].phone;
  }

  lemma NameLands(xs: seq<Contact>, i: nat, lower: string -> string) returns (at: nat)
    requires i < |xs| && xs[i].phone == "" && Strip(xs[i].name) != ""
    ensures at < |Merged(xs, lower)| && LandsIn(xs[i], Merged(xs, lower)[at], lower)
  {
    var b := BookOf(xs, lower);
    var key := NameKey(xs[i], lower);
    MemberOfClass(xs, i, lower);
    NameRecord(xs, key, lower);
    var k :| 0 <= k < |b.noPhone.keys| && b.noPhone.keys[k] == key;
    at := |b.byPhone.keys| + k;
    assert Merged(xs, lower)[at] == b.noPhone.at[key];
  }

  lemma LandTogether(c: Contact, a: Contact, b: Contact, lower: string -> string)
    requires LandsIn(c, a, lower) && LandsIn(c, b, lower)
    ensures LandsIn(a, b, lower)
  {
  }

  /** Every input contact with a phone or a name lands in exactly one output record. */
  lemma LandsExactlyOnce(xs: seq<Contact>, i: nat, lower: string -> string) returns (at: nat)
    requires i < |xs| && (xs[i].phone != "" || Strip(xs[i].name) != "")
    ensures at < |Merged(xs, lower)| && LandsIn(xs[i], Merged(xs, lower)[at], lower)
    ensures forall k :: 0 <= k < |Merged(xs, lower)| && LandsIn(xs[i], Merged(xs, lower)[k], lower) ==> k == at
  {
    if xs[i].phone != "" { at := PhoneLands(xs, i, lower); } else { at := NameLands(xs, i, lower); }
    var out := Merged(xs, lower);
    forall k | 0 <= k < |out| && LandsIn(xs[i], out[k], lower) ensures k == at {
      LandTogether(xs[i], out[k], out[at], lower);
      OutputKeysUnique(xs, lower, k, at);
    }
  }

  // ---- the order of the records ----

  /** Contact i carries the phone, and no contact up to it carries the other. */
  ghost predicate PhoneBefore(xs: seq<Contact>, a: string, b: string) {
    exists i :: 0 <= i < |xs| && xs[i].phone == a && forall m :: 0 <= m <= i ==> xs[m].phone != b
  }

  predicate HasKey(c: Contact, key: string, lower: string -> string) {
    c.phone == "" && Strip(c.name) != "" && lower(Strip(c.name)) == key
  }

  ghost predicate NameBefore(xs: seq<Contact>, a: string, b: string, lower: string -> string) {
    exists i :: 0 <= i < |xs| && HasKey(xs[i], a, lower) && forall m :: 0 <= m <= i ==> !HasKey(xs[m], b, lower)
  }

  lemma PhoneStaysBefore(front: seq<Contact>, c: Contact, a: string, b: string)
    requires PhoneBefore(front, a, b)
    ensures PhoneBefore(front + [c], a, b)
  {
    var i :| 0 <= i < |front| && front[i].phone == a && forall m :: 0 <= m <= i ==> front[m].phone != b;
    assert (front + [c])[i].phone == a && forall m :: 0 <= m <= i ==> (front + [c])[m].phone != b;
  }

  lemma NameStaysBefore(front: seq<Contact>, c: Contact, a: string, b: string, lower: string -> string)
    requires NameBefore(front, a, b, lower)
    ensures NameBefore(front + [c], a, b, lower)
  {
    var i :| 0 <= i < |front| && HasKey(front[i], a, lower) && forall m :: 0 <= m <= i ==> !HasKey(front[m], b, lower);
    assert HasKey((front + [c])[i], a, lower) && forall m :: 0 <= m <= i ==> !HasKey((front + [c])[m], b, lower);
  }

  lemma NewPhoneIsLast(front: seq<Contact>, c: Contact, a: string, lower: string -> string)
    requires a in BookOf(front, lower).byPhone.at && c.phone != "" && c.phone !in BookOf(front, lower).byPhone.at
    ensures PhoneBefore(front + [c], a, c.phone)
  {
    PhoneRecord(front, a, lower);
    PhoneRecord(front, c.phone, lower);
    PhoneClassMembers(front, a);
    PhoneClassMembers(front, c.phone);
    var x := PhoneClass(front, a)[0];
    assert x in PhoneClass(front, a);
    var i :| 0 <= i < |front| && front[i] == x;
    assert (front + [c])[i].phone == a && forall m :: 0 <= m <= i ==> (front + [c])[m] in front;
  }

  lemma NewNameIsLast(front: seq<Contact>, c: Contact, a: string, key: string, lower: string -> string)
    requires a in BookOf(front, lower).noPhone.at && HasKey(c, key, lower) && key !in BookOf(front, lower).noPhone.at
    ensures NameBefore(front + [c], a, key, lower)
  {
    NameRecord(front, a, lower);
    NameRecord(front, key, lower);
    NameClassMembers(front, a, lower);
    NameClassMembers(front, key, lower);
    var x := NameClass(front, a, lower)[0];
    assert x in NameClass(front, a, lower);
    var i :| 0 <= i < |front| && front[i] == x;
    assert HasKey((front + [c])[i], a, lower) && forall m :: 0 <= m <= i ==> (front + [c])[m] in front;
  }

  lemma {:induction false} PhoneClassMembers(xs: seq<Contact>, phone: string)
    ensures forall c :: c in PhoneClass(xs, phone) <==> c in xs && c.phone == phone
    decreases |xs|
  {
    if xs != [] {
      PhoneClassMembers(xs[..|xs| - 1], phone);
      assert xs == xs[..|xs| - 1] + [xs[|xs| - 1]];
    }
  }

  lemma {:induction false} NameClassMembers(xs: seq<Contact>, key: string, lower: string -> string)
    ensures forall c :: c in NameClass(xs, key, lower) <==> c in xs && HasKey(c, key, lower)
    decreases |xs|
  {
    if xs != [] {
      NameClassMembers(xs[..|xs| - 1], key, lower);
      assert xs == xs[..|xs| - 1] + [xs[|xs| - 1]];
    }
  }

  lemma {:induction false} PhonesInOrder(xs: seq<Contact>, i: nat, j: nat, lower: string -> string)
    requires i < j < |BookOf(xs, lower).byPhone.keys|
    ensures PhoneBefore(xs, BookOf(xs, lower).byPhone.keys[i], BookOf(xs, lower).byPhone.keys[j])
    decreases |xs|
  {
    var front, c := xs[..|xs| - 1], xs[|xs| - 1];
    var before := BookOf(front, lower).byPhone.keys;
    SplitLast(xs, lower);
    assert xs == front + [c];
    if j < |before| {
      PhonesInOrder(front, i, j, lower);
      PhoneStaysBefore(front, c, before[i], before[j]);
    } else {
      NewPhoneIsLast(front, c, before[i], lower);
    }
  }

  lemma {:induction false} NamesInOrder(xs: seq<Contact>, i: nat, j: nat, lower: string -> string)
    requires i < j < |BookOf(xs, lower).noPhone.keys|
    ensures NameBefore(xs, BookOf(xs, lower).noPhone.keys[i], BookOf(xs, lower).noPhone.keys[j], lower)
    decreases |xs|
  {
    var front, c := xs[..|xs| - 1], xs[|xs| - 1];
    var before := BookOf(front, lower).noPhone.keys;
    SplitLast(xs, lower);
    assert xs == front + [c];
    if j < |before| {
      NamesInOrder(front, i, j, lower);
      NameStaysBefore(front, c, before[i], before[j], lower);
    } else {
      NewNameIsLast(front, c, before[i], NameKey(c, lower), lower);
    }
  }

  lemma MergedAt(xs: seq<Contact>, i: nat, lower: string -> string)
    requires i < |Merged(xs, lower)|
    ensures var book := BookOf(xs, lower);
      var n, c := |book.byPhone.keys|, Merged(xs, lower)[i];
      && |Merged(xs, lower)| == n + |book.noPhone.keys|
      && (if i < n then c.phone != "" && c.phone == book.byPhone.keys[i]
          else c.phone == "" && lower(Strip(c.name)) == book.noPhone.keys[i - n])
  {
    var book := BookOf(xs, lower);
    if i < |book.byPhone.keys| {
      assert book.byPhone.keys[i] in book.byPhone.keys;
    } else {
      assert book.noPhone.keys[i - |book.byPhone.keys|] in book.noPhone.keys;
    }
  }

  lemma MergedPhones(xs: seq<Contact>, i: nat, j: nat, a: string, b: string, lower: string -> string)
    requires i < j < |Merged(xs, lower)| && a == Merged(xs, lower)[i].phone && b == Merged(xs, lower)[j].phone && b != ""
    ensures a != "" && PhoneBefore(xs, a, b)
  {
    MergedAt(xs, i, lower);
    MergedAt(xs, j, lower);
    PhonesInOrder(xs, i, j, lower);
  }

  lemma NamesInOrderAt(xs: seq<Contact>, i: nat, j: nat, a: string, b: string, lower: string -> string)
    requires i < j < |BookOf(xs, lower).noPhone.keys|
    requires a == BookOf(xs, lower).noPhone.keys[i] && b == BookOf(xs, lower).noPhone.keys[j]
    ensures NameBefore(xs, a, b, lower)
  {
    NamesInOrder(xs, i, j, lower);
  }

  lemma MergedNames(xs: seq<Contact>, i: nat, j: nat, a: string, b: string, lower: string -> string)
    requires i < j < |Merged(xs, lower)| && Merged(xs, lower)[i].phone == "" && Merged(xs, lower)[j].phone == ""
    requires a == lower(Strip(Merged(xs, lower)[i].name)) && b == lower(Strip(Merged(xs, lower)[j].name))
    ensures NameBefore(xs, a, b, lower)
  {
    var n, keys := |BookOf(xs, lower).byPhone.keys|, BookOf(xs, lower).noPhone.keys;
    assert n <= i < n + |keys| && a == keys[i - n] by { MergedAt(xs, i, lower); }
    assert n <= j < n + |keys| && b == keys[j - n] by { MergedAt(xs, j, lower); }
    NamesInOrderAt(xs, i - n, j - n, a, b, lower);
  }

  /** The records with a phone come first, by the first contact with their phone, and those without after them, by the
      first contact of their name. */
  lemma MergedInOrder(xs: seq<Contact>, i: nat, j: nat, lower: string -> string)
    requires i < j < |Merged(xs, lower)|
    ensures var a, b := Merged(xs, lower)[i], Merged(xs, lower)[j];
      && (b.phone != "" ==> a.phone != "" && PhoneBefore(xs, a.phone, b.phone))
      && (a.phone == "" ==> b.phone == "" && NameBefore(xs, lower(Strip(a.name)), lower(Strip(b.name)), lower))
  {
    var a, b := Merged(xs, lower)[i], Merged(xs, lower)[j];
    if b.phone != "" {
      MergedPhones(xs, i, j, a.phone, b.phone, lower);
    } else if a.phone == "" {
      MergedNames(xs, i, j, lower(Strip(a.name)), lower(Strip(b.name)), lower);
    }
  }

  // ---- which name survives ----

  function LongestStripped(cs: seq<Contact>): nat {
    if cs == [] then 0
    else
      var rest := LongestStripped(cs[..|cs| - 1]);
      if |Strip(cs[|cs| - 1].name)| > rest then |Strip(cs[|cs| - 1].name)| else rest
  }

  /** The kept name is the first one as it came, unless a later name, stripped, is longer than that: then it is a
      longest later one. */
  ghost predicate NameRule(cs: seq<Contact>, kept: string)
    requires cs != []
  {
    if LongestStripped(cs[1..]) <= |cs[0].name| then kept == cs[0].name
    else |kept| == LongestStripped(cs[1..]) && exists k :: 1 <= k < |cs| && kept == Strip(cs[k].name)
  }

  lemma NameRuleStep(cs: seq<Contact>, kept: string, c: Contact)
    requires cs != [] && NameRule(cs, kept)
    ensures NameRule(cs + [c], PreferLonger(kept, Strip(c.name)))
  {
    var more := cs + [c];
    assert more[1..] == cs[1..] + [c] && more[0] == cs[0];
    assert more[1..][..|more[1..]| - 1] == cs[1..];
    var next := PreferLonger(kept, Strip(c.name));
    if LongestStripped(more[1..]) > |more[0].name| {
      if next == kept {
        var k :| 1 <= k < |cs| && kept == Strip(cs[k].name);
        assert more[k] == cs[k];
      } else {
        assert more[|cs|] == c;
      }
    }
  }

  lemma {:induction false} KeptName(xs: seq<Contact>, phone: string, lower: string -> string)
    requires phone != "" && PhoneClass(xs, phone) != []
    ensures phone in BookOf(xs, lower).byPhone.at
    ensures NameRule(PhoneClass(xs, phone), BookOf(xs, lower).byPhone.at[phone].name)
    decreases |xs|
  {
    PhoneRecord(xs, phone, lower);
    var front, c := xs[..|xs| - 1], xs[|xs| - 1];
    SplitLast(xs, lower);
    PhoneRecord(front, phone, lower);
    var before := PhoneClass(front, phone);
    if before != [] {
      KeptName(front, phone, lower);
      if c.phone == phone {
        NameRuleStep(before, BookOf(front, lower).byPhone.at[phone].name, c);
      }
    }
  }

  ghost predicate KeepsALongestName(xs: seq<Contact>, phone: string, lower: string -> string)
    requires phone in BookOf(xs, lower).byPhone.at
  {
    |Strip(BookOf(xs, lower).byPhone.at[phone].name)| == LongestStripped(PhoneClass(xs, phone))
  }

  lemma {:induction false} LongestOfParts(cs: seq<Contact>)
    requires cs != []
    ensures LongestStripped(cs) ==
      if LongestStripped(cs[1..]) > |Strip(cs[0].name)| then LongestStripped(cs[1..]) else |Strip(cs[0].name)|
    decreases |cs|
  {
    if |cs| == 1 {
      assert cs[..0] == [];
    } else {
      LongestOfParts(cs[..|cs| - 1]);
      assert cs[..|cs| - 1][1..] == cs[1..][..|cs[1..]| - 1];
    }
  }

  /** The longest-name promise holds exactly when no later name falls between the first name stripped and the first
      name with its surrounding blanks; for a first name that came stripped it always holds. */
  lemma LongestNameExactly(xs: seq<Contact>, phone: string, lower: string -> string)
    requires phone != "" && PhoneClass(xs, phone) != []
    ensures phone in BookOf(xs, lower).byPhone.at
    ensures
      var cs := PhoneClass(xs, phone);
      KeepsALongestName(xs, phone, lower)
      <==> !(|Strip(cs[0].name)| < LongestStripped(cs[1..]) <= |cs[0].name|)
    ensures Stripped(PhoneClass(xs, phone)[0].name) ==> KeepsALongestName(xs, phone, lower)
  {
    PhoneRecord(xs, phone, lower);
    KeptName(xs, phone, lower);
    var cs := PhoneClass(xs, phone);
    LongestOfParts(cs);
    StripFixesExactlyStripped(cs[0].name);
    var kept := BookOf(xs, lower).byPhone.at[phone].name;
    if LongestStripped(cs[1..]) > |cs[0].name| {
      var k :| 1 <= k < |cs| && kept == Strip(cs[k].name);
      StripFixesExactlyStripped(cs[k].name);
      StripFixesExactlyStripped(kept);
    }
  }

  lemma ClassOfTwo(first: Contact, second: Contact)
    requires first.phone == second.phone
    ensures PhoneClass([first, second], first.phone) == [first, second]
    ensures LongestStripped([first, second][1..]) == |Strip(second.name)|
  {
    assert [first, second][..1] == [first] && [first][..0] == [];
    assert [first, second][1..] == [second] && [second][..0] == [];
    assert PhoneClass([first], first.phone) == PhoneClass([], first.phone) + [first] == [first];
    assert [first] + [second] == [first, second];
  }

  lemma PaddedNames()
    ensures |Strip(" A")| == 1 && |Strip("BC")| == 2
  {
    assert " A"[1..] == "A" && StripLeft(" A") == StripLeft("A") == "A";
    StripFixesExactlyStripped("BC");
  }

  /** It does fail: a padded short name keeps out a longer one. */
  lemma PaddedNameWins(lower: string -> string)
    ensures
      var xs := [Contact(" A", "050", "", "", "a"), Contact("BC", "050", "", "", "b")];
      "050" in BookOf(xs, lower).byPhone.at && !KeepsALongestName(xs, "050", lower)
  {
    var first, second := Contact(" A", "050", "", "", "a"), Contact("BC", "050", "", "", "b");
    ClassOfTwo(first, second);
    PaddedNames();
    LongestNameExactly([first, second], "050", lower);
  }
}
