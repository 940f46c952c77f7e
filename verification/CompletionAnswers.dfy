/** Answers to the question loop: which are accepted, the form they are kept in, and what each one changes. */
module CompletionAnswers {
  import opened Prelude
  import opened Texts
  import opened DateAnswers
  import opened Vocabulary
  import opened CompletionEngine

  // ---- what is accepted ----

  predicate Local(s: string) { s != "" && forall i :: 0 <= i < |s| ==> s[i] != '@' && !White(s[i]) }

  /** One "@", and after it a dot with something on both sides. */
  predicate EmailForm(s: string) {
    exists at, dot :: 0 <= at < dot < |s| && s[at] == '@' && s[dot] == '.'
      && Local(s[..at]) && Local(s[at + 1..dot]) && Local(s[dot + 1..])
  }

  function Digits(s: string): nat {
    if s == "" then 0 else Digits(s[1..]) + if IsDigit(s[0]) then 1 else 0
  }

  /** The number a value stands for, when it stands for one. */
  function NumberOf(v: Value): Option<real> {
    match v
    case Number(r) => Some(r)
    case Text(_, reading) => reading
    case _ => None
  }

  predicate WholeNumber(r: real) { r == r.Floor as real }

  predicate NumberAccepted(bound: Bound, r: real) {
    && (bound in {Positive, PositiveInteger} ==> r > 0.0)
    && (bound in {NonNegative, NonNegativeInteger} ==> r >= 0.0)
    && (bound in {PositiveInteger, NonNegativeInteger} ==> WholeNumber(r))
  }

  predicate FormAccepted(form: Form, s: string) {
    match form
    case AnyText => true
    case EmailText => EmailForm(s)
    case PhoneText => Digits(s) >= 7
  }

  predicate InputAccepted(input: InputType, v: Value) {
    match input
    case Select(choices) => Chosen(v, choices)
    case Link => v.Text? && LooseRecordId(v.s)
    case NumberInput(bound) => NumberOf(v).Some? && NumberAccepted(bound, NumberOf(v).value)
    case CurrencyInput(bound) => NumberOf(v).Some? && NumberAccepted(bound, NumberOf(v).value)
    case Percent(bound) => NumberOf(v).Some? && NumberAccepted(bound, NumberOf(v).value) && 0.0 <= NumberOf(v).value <= 100.0
    case DateInput => v.Text? && Normalize(v.s).Some?
    case TextInput(form) => v.Text? && Strip(v.s) != "" && FormAccepted(form, v.s)
    case Computed => false
  }

  predicate Accepts(c: FieldContract, v: Value) { Askable(c) && Present(v) && InputAccepted(c.rule.input, v) }

  /** The form an accepted answer is kept in: a number for a number, the full date for a date, else the text given. */
  function Kept(c: FieldContract, v: Value): Value
    requires Accepts(c, v)
  {
    match c.rule.input
    case NumberInput(_) => Number(NumberOf(v).value)
    case CurrencyInput(_) => Number(NumberOf(v).value)
    case Percent(_) => Number(NumberOf(v).value)
    case DateInput => Word(Normalize(v.s).value)
    case Select(_) => Word(v.s)
    case Link => Word(v.s)
    case TextInput(_) => Word(v.s)
    case Computed => Nothing
  }

  /** What is kept says what was answered: the very number, the very text, or for a date the full-date of the day the
      text spells. */
  ghost predicate SaysTheSame(input: InputType, v: Value, kept: Value) {
    match input
    case NumberInput(_) => kept.Number? && (v == Number(kept.r) || (v.Text? && v.reading == Some(kept.r)))
    case CurrencyInput(_) => kept.Number? && (v == Number(kept.r) || (v.Text? && v.reading == Some(kept.r)))
    case Percent(_) => kept.Number? && (v == Number(kept.r) || (v.Text? && v.reading == Some(kept.r)))
    case DateInput => v.Text? && kept.Text? && exists d :: ValidDate(d) && Spells(v.s, d) && kept.s == Iso(d)
    case Select(_) => v.Text? && kept.Text? && kept.s == v.s
    case Link => v.Text? && kept.Text? && kept.s == v.s
    case TextInput(_) => v.Text? && kept.Text? && kept.s == v.s
    case Computed => false
  }

  lemma KeptSaysTheSame(c: FieldContract, v: Value)
    requires Accepts(c, v)
    ensures SaysTheSame(c.rule.input, v, Kept(c, v))
  {
    if c.rule.input == DateInput { NormalizeExactly(v.s, Normalize(v.s).value); }
  }

  lemma {:induction false} DigitsAppend(s: string, c: char)
    ensures Digits(s + [c]) == Digits(s) + if IsDigit(c) then 1 else 0
    decreases |s|
  {
    if s == "" {
      assert (s + [c])[1..] == "";
    } else {
      assert (s + [c])[1..] == s[1..] + [c];
      DigitsAppend(s[1..], c);
    }
  }

  /** A text has as many digits as it has places with one. */
  lemma {:induction false} DigitsCounted(s: string)
    ensures Digits(s) == |set i | 0 <= i < |s| && '0' <= s[i] <= '9'|
    decreases |s|
  {
    var places := set i | 0 <= i < |s| && '0' <= s[i] <= '9';
    if s == "" {
      assert places == {};
    } else {
      var n := |s| - 1;
      var front := s[..n];
      DigitsCounted(front);
      DigitsAppend(front, s[n]);
      assert front + [s[n]] == s;
      var before := set i | 0 <= i < n && '0' <= front[i] <= '9';
      assert places == before + if IsDigit(s[n]) then {n} else {};
    }
  }

  // ---- applying an answer ----

  function FindField(fields: seq<FieldContract>, f: Field): Option<FieldContract> {
    if fields == [] then None else if fields[0].name == f then Some(fields[0]) else FindField(fields[1..], f)
  }

  datatype Answered = Applied(writer: Writer) | UnknownField | InvalidValue

  function ApplyAnswer(w: Writer, f: Field, v: Value): Answered {
    match FindField(w.contract.fields, f)
    case None => UnknownField
    case Some(c) => if Accepts(c, v) then Applied(w.(current := w.current[f := Kept(c, v)])) else InvalidValue
  }

  // ---- well-formed contracts ----

  ghost predicate DistinctNames(fields: seq<FieldContract>) {
    forall i, j :: 0 <= i < j < |fields| ==> fields[i].name != fields[j].name
  }

  ghost predicate AskableField(e: EntityContract, f: Field) {
    exists i :: 0 <= i < |e.fields| && e.fields[i].name == f && Askable(e.fields[i])
  }

  /** Names are distinct; a follow-up and the first field of a one-of group can be asked for; a field with a deriver
      is never asked for. */
  ghost predicate WellFormed(e: EntityContract) {
    && DistinctNames(e.fields)
    && (forall k :: 0 <= k < |e.fields| && e.fields[k].followup.Some? ==> AskableField(e, e.fields[k].followup.value.field))
    && (forall g :: 0 <= g < |e.oneOf| ==> e.oneOf[g] != [] && AskableField(e, e.oneOf[g][0]))
    && (forall k :: 0 <= k < |e.fields| && e.fields[k].name == DocumentStatus ==> !Askable(e.fields[k]))
  }

  lemma {:induction false} FindIsThere(fields: seq<FieldContract>, i: nat)
    requires i < |fields| && DistinctNames(fields)
    ensures FindField(fields, fields[i].name) == Some(fields[i])
    decreases |fields|
  {
    if i > 0 {
      assert fields[1..][i - 1] == fields[i];
      FindIsThere(fields[1..], i - 1);
    }
  }

  // ---- resolution, field by field ----

  lemma {:induction false} ResolveMisses(w: Writer, fields: seq<FieldContract>, f: Field)
    requires forall i :: 0 <= i < |fields| ==> fields[i].name != f
    ensures f !in Resolve(w, fields)
    decreases |fields|
  {
    if fields != [] { ResolveMisses(w, fields[..|fields| - 1], f); }
  }

  /** What a field resolves to is settled at its own place in the contract. */
  lemma {:induction false} ResolvedAt(w: Writer, fields: seq<FieldContract>, i: nat)
    requires i < |fields| && DistinctNames(fields)
    ensures Get(Resolve(w, fields), fields[i].name) == FirstPresent(w, fields[i], SOURCES, Resolve(w, fields[..i]))
    decreases |fields|
  {
    var n := |fields| - 1;
    var front := fields[..n];
    if i == n {
      ResolveMisses(w, front, fields[n].name);
      FirstPresentOrNothing(w, fields[n], SOURCES, Resolve(w, front));
    } else {
      ResolvedAt(w, front, i);
      assert front[..i] == fields[..i];
    }
  }

  lemma {:induction false} FirstPresentOrNothing(w: Writer, c: FieldContract, sources: seq<Source>, values: Values)
    ensures var v := FirstPresent(w, c, sources, values); Present(v) || v == Nothing
    decreases |sources|
  {
    if sources != [] { FirstPresentOrNothing(w, c, sources[1..], values); }
  }

  /** What a field has when nothing is derived: its own value, an inherited one, its default. */
  function Direct(w: Writer, c: FieldContract): Value {
    if Present(Get(w.current, c.name)) then Get(w.current, c.name)
    else if Present(Inherit(c.rule.inherit, Context(w))) then Inherit(c.rule.inherit, Context(w))
    else if Present(c.rule.default) then c.rule.default
    else Nothing
  }

  lemma FirstPresentUnfolds(w: Writer, c: FieldContract, values: Values)
    ensures FirstPresent(w, c, SOURCES, values) ==
      if Present(Get(w.current, c.name)) then Get(w.current, c.name)
      else if Present(Inherit(c.rule.inherit, Context(w))) then Inherit(c.rule.inherit, Context(w))
      else if c.rule.derived && Present(Derive(c.name, values)) then Derive(c.name, values)
      else if Present(c.rule.default) then c.rule.default
      else Nothing
  {
    assert SOURCES[1..] == [Inherited, Derived, Default, User];
    assert SOURCES[1..][1..] == [Derived, Default, User];
    assert SOURCES[1..][1..][1..] == [Default, User];
    assert SOURCES[1..][1..][1..][1..] == [User];
    assert FirstPresent(w, c, [User], values) == if Present(Get(w.current, c.name)) then Get(w.current, c.name) else Nothing;
    assert FirstPresent(w, c, [Default, User], values)
        == if Present(c.rule.default) then c.rule.default else FirstPresent(w, c, [User], values);
    assert FirstPresent(w, c, [Derived, Default, User], values)
        == if c.rule.derived && Present(Derive(c.name, values)) then Derive(c.name, values)
           else FirstPresent(w, c, [Default, User], values);
  }

  /** The resolved value of a field that can be asked for. */
  lemma AskableResolves(w: Writer, i: nat)
    requires WellFormed(w.contract) && i < |w.contract.fields| && Askable(w.contract.fields[i])
    ensures Get(Resolved(w), w.contract.fields[i].name) == Direct(w, w.contract.fields[i])
  {
    var fields := w.contract.fields;
    ResolvedAt(w, fields, i);
    FirstPresentUnfolds(w, fields[i], Resolve(w, fields[..i]));
  }

  // ---- open fields ----

  predicate Open(w: Writer, c: FieldContract) { Askable(c) && !Present(Direct(w, c)) }

  function OpenAmong(w: Writer, fields: seq<FieldContract>): nat {
    if fields == [] then 0
    else OpenAmong(w, fields[..|fields| - 1]) + if Open(w, fields[|fields| - 1]) then 1 else 0
  }

  /** How many fields a user could still be asked for. */
  function OpenFields(w: Writer): nat { OpenAmong(w, w.contract.fields) }

  lemma MissingIsAskable(e: EntityContract, values: Values, f: Field)
    requires WellFormed(e)
    requires (exists k :: 0 <= k < |e.fields| && AsksFor(e.fields[k], f, values))
          || (exists g :: 0 <= g < |e.oneOf| && StandsFor(e.oneOf[g], f, values))
    ensures AskableField(e, f) && Absent(values, f)
  {
    if k :| 0 <= k < |e.fields| && AsksFor(e.fields[k], f, values) {
      assert AskableField(e, e.fields[k].followup.value.field);
    } else {
      var g :| 0 <= g < |e.oneOf| && StandsFor(e.oneOf[g], f, values);
      assert Absent(values, e.oneOf[g][0]);
    }
  }

  lemma AskableFieldIsThis(e: EntityContract, i: nat)
    requires WellFormed(e) && i < |e.fields| && AskableField(e, e.fields[i].name)
    ensures Askable(e.fields[i])
  {
    var k :| 0 <= k < |e.fields| && e.fields[k].name == e.fields[i].name && Askable(e.fields[k]);
    assert k == i || k < i || i < k;
  }

  lemma MissingIsOpen(w: Writer, i: nat)
    requires WellFormed(w.contract) && i < |w.contract.fields|
    requires IsMissing(w.contract, Resolved(w), w.contract.fields[i])
    ensures Open(w, w.contract.fields[i])
  {
    var c := w.contract.fields[i];
    if !(Askable(c) && Absent(Resolved(w), c.name)) {
      MissingIsAskable(w.contract, Resolved(w), c.name);
      AskableFieldIsThis(w.contract, i);
    }
    AskableResolves(w, i);
  }

  lemma {:induction false} MissingIsThere(e: EntityContract, values: Values, fields: seq<FieldContract>, k: nat)
    requires k < |MissingAmong(e, values, fields)|
    ensures exists i :: 0 <= i < |fields| && fields[i] == MissingAmong(e, values, fields)[k] && IsMissing(e, values, fields[i])
    decreases |fields|
  {
    var front := fields[..|fields| - 1];
    if k < |MissingAmong(e, values, front)| { MissingIsThere(e, values, front, k); }
  }

  lemma {:induction false} MissingIsListed(e: EntityContract, values: Values, fields: seq<FieldContract>, i: nat)
    requires i < |fields| && IsMissing(e, values, fields[i])
    ensures MissingAmong(e, values, fields) != []
    decreases |fields|
  {
    if i < |fields| - 1 { MissingIsListed(e, values, fields[..|fields| - 1], i); }
  }

  /** The place of the next field: it is missing, and open. */
  lemma NextIsOpen(w: Writer) returns (i: nat)
    requires WellFormed(w.contract) && NextField(w).Some?
    ensures i < |w.contract.fields| && w.contract.fields[i] == NextField(w).value && Open(w, w.contract.fields[i])
    ensures IsMissing(w.contract, Resolved(w), w.contract.fields[i])
  {
    MissingIsThere(w.contract, Resolved(w), w.contract.fields, 0);
    i :| 0 <= i < |w.contract.fields| && w.contract.fields[i] == Missing(w)[0]
         && IsMissing(w.contract, Resolved(w), w.contract.fields[i]);
    MissingIsOpen(w, i);
  }

  // ---- one answer ----

  lemma KeptIsPresent(c: FieldContract, v: Value)
    requires Accepts(c, v)
    ensures Present(Kept(c, v))
  {
    if c.rule.input == DateInput { AcceptedIsStrictAndStable(v.s); }
  }

  lemma {:induction false} OpenElsewhere(w: Writer, f: Field, kept: Value, fields: seq<FieldContract>)
    requires forall i :: 0 <= i < |fields| ==> fields[i].name != f
    ensures OpenAmong(w.(current := w.current[f := kept]), fields) == OpenAmong(w, fields)
    decreases |fields|
  {
    if fields != [] {
      OpenElsewhere(w, f, kept, fields[..|fields| - 1]);
      assert Direct(w.(current := w.current[f := kept]), fields[|fields| - 1]) == Direct(w, fields[|fields| - 1]);
    }
  }

  lemma {:induction false} OpenAfterAnswer(w: Writer, kept: Value, fields: seq<FieldContract>, i: nat)
    requires i < |fields| && DistinctNames(fields) && Present(kept) && Open(w, fields[i])
    ensures OpenAmong(w.(current := w.current[fields[i].name := kept]), fields) == OpenAmong(w, fields) - 1
    decreases |fields|
  {
    var n := |fields| - 1;
    var w1 := w.(current := w.current[fields[i].name := kept]);
    if i == n {
      OpenElsewhere(w, fields[i].name, kept, fields[..n]);
      assert !Open(w1, fields[n]);
    } else {
      OpenAfterAnswer(w, kept, fields[..n], i);
      assert Direct(w1, fields[n]) == Direct(w, fields[n]);
    }
  }

  /** An accepted answer to the next field closes exactly one open field, whatever further fields it makes required; the
      field answered has the number, the text or the day that was answered, and every other field a user could be asked for resolves as before. */
  lemma NextAnswerClosesOne(w: Writer, v: Value)
    requires WellFormed(w.contract) && NextField(w).Some? && ApplyAnswer(w, NextField(w).value.name, v).Applied?
    ensures var c := NextField(w).value;
      var w1 := ApplyAnswer(w, c.name, v).writer;
      && Accepts(c, v)
      && w1 == w.(current := w.current[c.name := Kept(c, v)])
      && !Present(Get(w.current, c.name)) && Absent(Resolved(w), c.name)
      && OpenFields(w1) == OpenFields(w) - 1
      && Get(Resolved(w1), c.name) == Kept(c, v) && SaysTheSame(c.rule.input, v, Get(Resolved(w1), c.name))
      && forall j :: 0 <= j < |w.contract.fields| && Askable(w.contract.fields[j]) && w.contract.fields[j].name != c.name ==>
           Get(Resolved(w1), w.contract.fields[j].name) == Get(Resolved(w), w.contract.fields[j].name)
  {
    var i := NextIsOpen(w);
    var fields := w.contract.fields;
    var c := fields[i];
    FindIsThere(fields, i);
    KeptIsPresent(c, v);
    KeptSaysTheSame(c, v);
    OpenAfterAnswer(w, Kept(c, v), fields, i);
    var w1 := ApplyAnswer(w, c.name, v).writer;
    AskableResolves(w, i);
    AskableResolves(w1, i);
    forall j | 0 <= j < |fields| && Askable(fields[j]) && fields[j].name != c.name
      ensures Get(Resolved(w1), fields[j].name) == Get(Resolved(w), fields[j].name)
    {
      AskableResolves(w, j);
      AskableResolves(w1, j);
    }
  }

  // ---- the loop ----

  /** Answers given one after the other, each to the field asked at that point; None when one is not asked for or not
      accepted. */
  function AnswerAll(w: Writer, answers: seq<Value>): Option<Writer>
    decreases |answers|
  {
    if answers == [] then Some(w)
    else match NextField(w)
      case None => None
      case Some(c) =>
        match ApplyAnswer(w, c.name, answers[0])
        case Applied(w1) => AnswerAll(w1, answers[1..])
        case _ => None
  }

  /** The question loop ends: no run of accepted answers is longer than the number of fields open at its start, each
      closes one, no value that was present is asked for again or overwritten, and a run that has used them all up is
      complete. */
  lemma {:induction false} LoopTerminates(w: Writer, answers: seq<Value>)
    requires WellFormed(w.contract) && AnswerAll(w, answers).Some?
    ensures var w1 := AnswerAll(w, answers).value;
      && w1.contract == w.contract && w1.source == w.source && w1.identity == w.identity
      && OpenFields(w1) == OpenFields(w) - |answers|
      && (forall f :: Present(Get(w.current, f)) ==> Get(w1.current, f) == Get(w.current, f))
      && (OpenFields(w1) == 0 ==> Missing(w1) == [])
    decreases |answers|
  {
    if answers != [] {
      NextAnswerClosesOne(w, answers[0]);
      LoopTerminates(ApplyAnswer(w, NextField(w).value.name, answers[0]).writer, answers[1..]);
    } else if OpenFields(w) == 0 && Missing(w) != [] {
      var i := NextIsOpen(w);
      OpenCounted(w, w.contract.fields, i);
    }
  }

  lemma {:induction false} OpenCounted(w: Writer, fields: seq<FieldContract>, i: nat)
    requires i < |fields| && Open(w, fields[i])
    ensures OpenAmong(w, fields) > 0
    decreases |fields|
  {
    if i < |fields| - 1 { OpenCounted(w, fields[..|fields| - 1], i); }
  }

  // ---- completion can always be reached ----

  const SampleId := "rec0"
  const SamplePhone := "0000000"
  const SampleEmail := "a@b.c"

  lemma SamplesAreAccepted()
    ensures LooseRecordId(SampleId)
    ensures Digits(SamplePhone) == 7 && Strip(SamplePhone) != ""
    ensures EmailForm(SampleEmail) && Strip(SampleEmail) != ""
  {
    assert SamplePhone[1..] == "000000" && SamplePhone[1..][1..] == "00000" && SamplePhone[1..][1..][1..] == "0000";
    assert Digits("0000") == 4 by { assert "0000"[1..] == "000" && "000"[1..] == "00" && "00"[1..] == "0" && "0"[1..] == ""; }
    assert SampleEmail[1] == '@' && SampleEmail[3] == '.';
    assert Local(SampleEmail[..1]) && Local(SampleEmail[2..3]) && Local(SampleEmail[4..]);
    StripFixesExactlyStripped(SamplePhone);
    StripFixesExactlyStripped(SampleEmail);
  }

  lemma SomeDate() returns (s: string)
    ensures s != "" && Normalize(s).Some?
  {
    var d := Date(2000, 1, 1);
    WrittenFormsAgree(d);
    s := Iso(d);
  }

  lemma SomeText(form: Form) returns (s: string)
    ensures s != "" && Strip(s) != "" && FormAccepted(form, s)
  {
    SamplesAreAccepted();
    s := if form == PhoneText then SamplePhone else SampleEmail;
  }

  lemma AnswerExists(c: FieldContract) returns (v: Value)
    requires Askable(c)
    ensures Accepts(c, v)
  {
    match c.rule.input {
      case Select(choices) =>
        SampleIsOffered(choices);
        v := Word(Sample(choices));
      case Link =>
        SamplesAreAccepted();
        v := Word(SampleId);
      case DateInput =>
        var s := SomeDate();
        v := Word(s);
      case TextInput(form) =>
        var s := SomeText(form);
        v := Word(s);
      case _ => v := Number(1.0);
    }
  }

  /** From any values whatever, some run of accepted answers completes the entity, and none needs more of them than
      there were open fields. */
  lemma {:induction false} CompletionIsReachable(w: Writer) returns (answers: seq<Value>)
    requires WellFormed(w.contract) && !w.contract.systemOnly
    ensures AnswerAll(w, answers).Some? && Complete(AnswerAll(w, answers).value)
    ensures |answers| <= OpenFields(w)
    decreases OpenFields(w)
  {
    if NextField(w) == None {
      answers := [];
    } else {
      var i := NextIsOpen(w);
      FindIsThere(w.contract.fields, i);
      var v := AnswerExists(w.contract.fields[i]);
      NextAnswerClosesOne(w, v);
      var rest := CompletionIsReachable(ApplyAnswer(w, NextField(w).value.name, v).writer);
      answers := [v] + rest;
      assert answers[1..] == rest;
    }
  }
}
