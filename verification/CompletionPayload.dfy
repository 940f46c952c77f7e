/** What a completed entity hands on: a payload keyed by column, made of values that answers put there. */
module CompletionPayload {
  import opened Prelude
  import opened Texts
  import opened DateAnswers
  import opened Vocabulary
  import opened CompletionEngine
  import opened CompletionAnswers

  type Payload = map<Column, Value>

  function At(p: Payload, col: Column): Value { if col in p then p[col] else Nothing }

  predicate Carried(c: FieldContract) { c.rule.persisted && c.rule.input != Computed }

  function PayloadOf(values: Values, fields: seq<FieldContract>): Payload {
    if fields == [] then map[]
    else
      var c := fields[|fields| - 1];
      var rest := PayloadOf(values, fields[..|fields| - 1]);
      if Carried(c) && Present(Get(values, c.name)) then rest[c.column := Get(values, c.name)] else rest
  }

  /** Blocked while a field is missing. */
  function CompletePayload(w: Writer): Option<Payload> {
    if Complete(w) then Some(PayloadOf(Resolved(w), w.contract.fields)) else None
  }

  // ---- where a payload's values come from ----

  ghost predicate OwnColumns(fields: seq<FieldContract>) {
    forall i, j :: 0 <= i < j < |fields| ==> fields[i].column != fields[j].column
  }

  lemma {:induction false} PayloadMisses(values: Values, fields: seq<FieldContract>, col: Column)
    requires forall i :: 0 <= i < |fields| && Carried(fields[i]) ==> fields[i].column != col
    ensures col !in PayloadOf(values, fields)
    decreases |fields|
  {
    if fields != [] { PayloadMisses(values, fields[..|fields| - 1], col); }
  }

  lemma {:induction false} PayloadCame(values: Values, fields: seq<FieldContract>, col: Column) returns (i: nat)
    requires col in PayloadOf(values, fields)
    ensures i < |fields| && fields[i].column == col && Carried(fields[i]) && Present(Get(values, fields[i].name))
    decreases |fields|
  {
    var n := |fields| - 1;
    if Carried(fields[n]) && Present(Get(values, fields[n].name)) && fields[n].column == col {
      i := n;
    } else {
      i := PayloadCame(values, fields[..n], col);
    }
  }

  /** A column holds what its field resolved to, or is absent when that is. */
  lemma {:induction false} PayloadAt(values: Values, fields: seq<FieldContract>, i: nat)
    requires i < |fields| && OwnColumns(fields) && Carried(fields[i])
    ensures var col := fields[i].column;
      && (col in PayloadOf(values, fields) <==> Present(Get(values, fields[i].name)))
      && (col in PayloadOf(values, fields) ==> PayloadOf(values, fields)[col] == Get(values, fields[i].name))
    decreases |fields|
  {
    var n := |fields| - 1;
    if i == n {
      PayloadMisses(values, fields[..n], fields[n].column);
    } else {
      PayloadAt(values, fields[..n], i);
    }
  }

  // ---- values put there by answers ----

  /** The values an accepted answer leaves. */
  predicate Settled(input: InputType, v: Value) {
    match input
    case Select(choices) => v.Text? && v == Word(v.s) && Offers(choices, v.s) && v.s != ""
    case Link => v.Text? && v == Word(v.s) && LooseRecordId(v.s)
    case NumberInput(bound) => v.Number? && NumberAccepted(bound, v.r)
    case CurrencyInput(bound) => v.Number? && NumberAccepted(bound, v.r)
    case Percent(bound) => v.Number? && NumberAccepted(bound, v.r) && 0.0 <= v.r <= 100.0
    case DateInput => v.Text? && v == Word(v.s) && StrictIsoDate(v.s)
    case TextInput(form) => v.Text? && v == Word(v.s) && v.s != ""
    case Computed => false
  }

  lemma KeptIsSettled(c: FieldContract, v: Value)
    requires Accepts(c, v)
    ensures Settled(c.rule.input, Kept(c, v))
  {
    if c.rule.input == DateInput { AcceptedIsStrictAndStable(v.s); }
  }

  /** Nothing is inherited, and every value is one an accepted answer to its field left. */
  ghost predicate FromAnswers(w: Writer) {
    && Context(w) == map[]
    && forall i :: 0 <= i < |w.contract.fields| && w.contract.fields[i].name in w.current ==>
         Askable(w.contract.fields[i]) && Settled(w.contract.fields[i].rule.input, w.current[w.contract.fields[i].name])
  }

  /** Nothing is inherited, and every value of a field that can be asked for is one an accepted answer left. */
  ghost predicate AskedFromAnswers(w: Writer) {
    && Context(w) == map[]
    && forall i :: 0 <= i < |w.contract.fields| && Askable(w.contract.fields[i]) && w.contract.fields[i].name in w.current ==>
         Settled(w.contract.fields[i].rule.input, w.current[w.contract.fields[i].name])
  }

  lemma FromAnswersIsAsked(w: Writer)
    requires FromAnswers(w)
    ensures AskedFromAnswers(w)
  {
  }

  lemma EmptyIsFromAnswers(e: EntityContract)
    ensures FromAnswers(Writer(e, map[], map[], map[]))
  {
  }

  /** Answers, to whatever fields and in whatever order, keep it so. */
  lemma AnswersKeepFromAnswers(w: Writer, f: Field, v: Value)
    requires WellFormed(w.contract) && FromAnswers(w) && ApplyAnswer(w, f, v).Applied?
    ensures FromAnswers(ApplyAnswer(w, f, v).writer)
  {
    var w1 := ApplyAnswer(w, f, v).writer;
    forall i | 0 <= i < |w.contract.fields| && w.contract.fields[i].name in w1.current
      ensures Askable(w.contract.fields[i]) && Settled(w.contract.fields[i].rule.input, w1.current[w.contract.fields[i].name])
    {
      if w.contract.fields[i].name == f {
        FindIsThere(w.contract.fields, i);
        KeptIsSettled(w.contract.fields[i], v);
      }
    }
  }

  lemma {:induction false} NothingInherited(keys: seq<ContextKey>)
    ensures Inherit(keys, map[]) == Nothing
    decreases |keys|
  {
    if keys != [] { NothingInherited(keys[1..]); }
  }

  /** So a field that can be asked for is absent, or has its default, or what an answer left. */
  lemma FieldFromAnswers(w: Writer, i: nat)
    requires WellFormed(w.contract) && AskedFromAnswers(w) && i < |w.contract.fields| && Askable(w.contract.fields[i])
    ensures var c := w.contract.fields[i];
      var v := Get(Resolved(w), c.name);
      v == Nothing || Settled(c.rule.input, v) || (v == c.rule.default && Present(v))
    ensures var c := w.contract.fields[i]; Present(c.rule.default) ==> Present(Get(Resolved(w), c.name))
  {
    AskableResolves(w, i);
    NothingInherited(w.contract.fields[i].rule.inherit);
  }

  /** A field no one is asked for and that has no deriver has its default, or nothing. */
  lemma UnaskedHasDefault(w: Writer, i: nat)
    requires WellFormed(w.contract) && FromAnswers(w) && i < |w.contract.fields| && !Askable(w.contract.fields[i])
    requires w.contract.fields[i].name != DocumentStatus
    ensures var c := w.contract.fields[i];
      Get(Resolved(w), c.name) == if Present(c.rule.default) then c.rule.default else Nothing
  {
    var c := w.contract.fields[i];
    assert c.name !in w.current;
    ResolvedAt(w, w.contract.fields, i);
    FirstPresentUnfolds(w, c, Resolve(w, w.contract.fields[..i]));
    NothingInherited(c.rule.inherit);
  }

  /** A field always required is present in a complete entity. */
  lemma RequiredIsPresent(w: Writer, i: nat)
    requires Complete(w) && i < |w.contract.fields|
    requires Askable(w.contract.fields[i]) && IsRequired(w.contract.fields[i], Resolved(w))
    ensures Present(Get(Resolved(w), w.contract.fields[i].name))
  {
    if Absent(Resolved(w), w.contract.fields[i].name) {
      assert IsMissing(w.contract, Resolved(w), w.contract.fields[i]);
      MissingIsListed(w.contract, Resolved(w), w.contract.fields, i);
    }
  }

  /** A field keeps the value it got at its place through the rest of the resolution. */
  lemma ResolvedEarly(w: Writer, fields: seq<FieldContract>, j: nat, i: nat)
    requires j < i <= |fields| && DistinctNames(fields)
    ensures Get(Resolve(w, fields[..i]), fields[j].name) == Get(Resolve(w, fields), fields[j].name)
  {
    ResolvedAt(w, fields, j);
    ResolvedAt(w, fields[..i], j);
    assert fields[..i][..j] == fields[..j];
  }

  /** A derived document status is the one its requirement asks for, when nothing else gave it a value. */
  lemma DerivedStatus(w: Writer, j: nat, i: nat)
    requires WellFormed(w.contract) && j < i < |w.contract.fields|
    requires w.contract.fields[j].name == DocumentRequirement && w.contract.fields[i].name == DocumentStatus
    requires w.contract.fields[i].rule.derived && w.contract.fields[i].rule.inherit == [] && w.contract.fields[i].rule.default == Nothing
    ensures var values := Resolved(w);
      Get(values, DocumentStatus) ==
        if Present(Get(w.current, DocumentStatus)) then Get(w.current, DocumentStatus) else Derive(DocumentStatus, values)
  {
    var fields := w.contract.fields;
    ResolvedAt(w, fields, i);
    FirstPresentUnfolds(w, fields[i], Resolve(w, fields[..i]));
    ResolvedEarly(w, fields, j, i);
  }

  // ---- a completed entity, field by field ----

  /** The entity was completed from nothing by accepted answers. */
  ghost predicate AnsweredAll(w: Writer) {
    WellFormed(w.contract) && OwnColumns(w.contract.fields) && FromAnswers(w) && Complete(w)
  }

  function PayloadFor(w: Writer): Payload { PayloadOf(Resolved(w), w.contract.fields) }

  /** The column of a field that can be asked for: absent, or with the field's default, or with what an answer left; and
      there when the field is required or has a default. */
  lemma ColumnFromAnswers(w: Writer, i: nat)
    requires AnsweredAll(w) && i < |w.contract.fields| && Askable(w.contract.fields[i]) && Carried(w.contract.fields[i])
    ensures var c := w.contract.fields[i];
      var v := At(PayloadFor(w), c.column);
      && (c.column in PayloadFor(w) <==> v != Nothing)
      && (v == Nothing || Settled(c.rule.input, v) || (v == c.rule.default && Present(v)))
      && (IsRequired(c, Resolved(w)) || Present(c.rule.default) ==> v != Nothing)
      && v == Get(Resolved(w), c.name)
  {
    FromAnswersIsAsked(w);
    FieldFromAnswers(w, i);
    PayloadAt(Resolved(w), w.contract.fields, i);
    if IsRequired(w.contract.fields[i], Resolved(w)) { RequiredIsPresent(w, i); }
  }

  /** A carried field no one is asked for has its default in its column, or nothing. */
  lemma UnaskedColumn(w: Writer, i: nat)
    requires AnsweredAll(w) && i < |w.contract.fields| && !Askable(w.contract.fields[i]) && Carried(w.contract.fields[i])
    requires w.contract.fields[i].name != DocumentStatus
    ensures var c := w.contract.fields[i];
      && (c.column in PayloadFor(w) <==> Present(c.rule.default))
      && (c.column in PayloadFor(w) ==> PayloadFor(w)[c.column] == c.rule.default)
  {
    UnaskedHasDefault(w, i);
    PayloadAt(Resolved(w), w.contract.fields, i);
  }

  /** The column of a document status derived from a requirement that stands before it. */
  lemma DocumentStatusValue(w: Writer, j: nat, i: nat)
    requires AnsweredAll(w) && j < i < |w.contract.fields| && !Askable(w.contract.fields[i]) && Carried(w.contract.fields[i])
    requires w.contract.fields[j].name == DocumentRequirement && w.contract.fields[i].name == DocumentStatus
    requires w.contract.fields[i].rule.derived && w.contract.fields[i].rule.inherit == [] && w.contract.fields[i].rule.default == Nothing
    ensures var v := Derive(DocumentStatus, Resolved(w));
      var c := w.contract.fields[i].column;
      Present(v) ==> c in PayloadFor(w) && PayloadFor(w)[c] == v
  {
    assert DocumentStatus !in w.current;
    DerivedStatus(w, j, i);
    PayloadAt(Resolved(w), w.contract.fields, i);
  }

  // ---- what one answer changes ----

  /** What a field can draw on is the same in both: its own value, what is inherited, and what a status derives from. */
  predicate SameSources(w: Writer, w1: Writer, g: Field, x: Values, y: Values) {
    && Get(w.current, g) == Get(w1.current, g) && Context(w) == Context(w1)
    && (g == DocumentStatus ==> Get(x, DocumentRequirement) == Get(y, DocumentRequirement))
  }

  lemma {:induction false} FirstPresentElsewhere(w: Writer, w1: Writer, c: FieldContract, sources: seq<Source>, x: Values, y: Values)
    requires SameSources(w, w1, c.name, x, y)
    ensures FirstPresent(w, c, sources, x) == FirstPresent(w1, c, sources, y)
    decreases |sources|
  {
    if sources != [] { FirstPresentElsewhere(w, w1, c, sources[1..], x, y); }
  }

  lemma SettleElsewhere(w: Writer, w1: Writer, c: FieldContract, x: Values, y: Values, g: Field)
    requires SameSources(w, w1, g, x, y) && Get(x, g) == Get(y, g)
    ensures Get(Settle(w, c, x), g) == Get(Settle(w1, c, y), g)
  {
    if c.name == g { FirstPresentElsewhere(w, w1, c, SOURCES, x, y); }
  }

  /** The two writers have the same values but in field f. */
  ghost predicate AlikeBut(w: Writer, w1: Writer, f: Field) {
    Context(w) == Context(w1) && forall g :: g != f ==> Get(w.current, g) == Get(w1.current, g)
  }

  lemma {:induction false} ResolveAlike(w: Writer, w1: Writer, f: Field, fields: seq<FieldContract>, g: Field)
    requires AlikeBut(w, w1, f) && g != f && (g == DocumentStatus ==> f != DocumentRequirement)
    ensures Get(Resolve(w1, fields), g) == Get(Resolve(w, fields), g)
    decreases |fields|
  {
    if fields != [] {
      var front := fields[..|fields| - 1];
      ResolveAlike(w, w1, f, front, g);
      if g == DocumentStatus { ResolveAlike(w, w1, f, front, DocumentRequirement); }
      SettleElsewhere(w, w1, fields[|fields| - 1], Resolve(w, front), Resolve(w1, front), g);
    }
  }

  /** Another value of one field leaves what every other field resolves to; only the document requirement has a field
      derived from it. */
  lemma ResolveElsewhere(w: Writer, f: Field, kept: Value, fields: seq<FieldContract>, g: Field)
    requires g != f && (g == DocumentStatus ==> f != DocumentRequirement)
    ensures Get(Resolve(w.(current := w.current[f := kept]), fields), g) == Get(Resolve(w, fields), g)
  {
    ResolveAlike(w, w.(current := w.current[f := kept]), f, fields, g);
  }

  lemma {:induction false} PayloadElsewhere(x: Values, y: Values, fields: seq<FieldContract>, col: Column)
    requires forall i :: 0 <= i < |fields| && fields[i].column == col ==> Get(x, fields[i].name) == Get(y, fields[i].name)
    ensures At(PayloadOf(x, fields), col) == At(PayloadOf(y, fields), col)
    decreases |fields|
  {
    if fields != [] { PayloadElsewhere(x, y, fields[..|fields| - 1], col); }
  }

  ghost predicate NoDocuments(e: EntityContract) {
    forall k :: 0 <= k < |e.fields| ==> e.fields[k].name != DocumentStatus
  }

  /** Nothing is derived from the field in the entity. */
  ghost predicate StandsAlone(e: EntityContract, f: Field) { f == DocumentRequirement ==> NoDocuments(e) }

  /** An accepted answer changes the payload in its own column, to the number, the text or the day
      that was answered, and, when nothing is derived from its
      field, in no other. */
  lemma AnswerChangesItsColumn(w: Writer, i: nat, v: Value)
    requires WellFormed(w.contract) && OwnColumns(w.contract.fields)
    requires i < |w.contract.fields| && Carried(w.contract.fields[i]) && Accepts(w.contract.fields[i], v)
    requires StandsAlone(w.contract, w.contract.fields[i].name)
    ensures var c := w.contract.fields[i];
      var w1 := w.(current := w.current[c.name := Kept(c, v)]);
      && ApplyAnswer(w, c.name, v) == Applied(w1)
      && (FromAnswers(w) ==> FromAnswers(w1))
      && At(PayloadFor(w1), c.column) == Kept(c, v) && SaysTheSame(c.rule.input, v, At(PayloadFor(w1), c.column))
      && forall col :: col != c.column ==> At(PayloadFor(w1), col) == At(PayloadFor(w), col)
  {
    var fields, c := w.contract.fields, w.contract.fields[i];
    var w1 := w.(current := w.current[c.name := Kept(c, v)]);
    FindIsThere(fields, i);
    if FromAnswers(w) { AnswersKeepFromAnswers(w, c.name, v); }
    AskableResolves(w1, i);
    KeptIsPresent(c, v);
    KeptSaysTheSame(c, v);
    PayloadAt(Resolved(w1), fields, i);
    forall col | col != c.column ensures At(PayloadFor(w1), col) == At(PayloadFor(w), col) {
      OtherColumnStays(w, c.name, Kept(c, v), col);
    }
  }

  lemma OtherColumnStays(w: Writer, f: Field, kept: Value, col: Column)
    requires StandsAlone(w.contract, f)
    requires forall k :: 0 <= k < |w.contract.fields| && w.contract.fields[k].column == col ==> w.contract.fields[k].name != f
    ensures At(PayloadFor(w.(current := w.current[f := kept])), col) == At(PayloadFor(w), col)
  {
    var fields, w1 := w.contract.fields, w.(current := w.current[f := kept]);
    forall k | 0 <= k < |fields| && fields[k].column == col
      ensures Get(Resolved(w1), fields[k].name) == Get(Resolved(w), fields[k].name)
    {
      ResolveElsewhere(w, f, kept, fields, fields[k].name);
    }
    PayloadElsewhere(Resolved(w1), Resolved(w), fields, col);
  }

  // ---- an entity with every question answered ----

  ghost predicate AllAnswered(w: Writer) {
    forall i :: 0 <= i < |w.contract.fields| && Askable(w.contract.fields[i]) ==>
      Present(Get(w.current, w.contract.fields[i].name))
  }

  /** Nothing is missing then. */
  lemma AllAnsweredIsComplete(w: Writer)
    requires WellFormed(w.contract) && !w.contract.systemOnly && AllAnswered(w)
    ensures Complete(w)
  {
    if Missing(w) != [] { var _ := NextIsOpen(w); }
  }

  /** Every question can be answered. */
  lemma {:induction false} AnswerFirst(e: EntityContract, n: nat) returns (w: Writer)
    requires WellFormed(e) && n <= |e.fields|
    ensures w.contract == e && FromAnswers(w)
    ensures forall i :: 0 <= i < n && Askable(e.fields[i]) ==> Present(Get(w.current, e.fields[i].name))
    decreases n
  {
    if n == 0 {
      w := Writer(e, map[], map[], map[]);
      EmptyIsFromAnswers(e);
    } else {
      w := AnswerFirst(e, n - 1);
      var c := e.fields[n - 1];
      if Askable(c) {
        var v := AnswerExists(c);
        FindIsThere(e.fields, n - 1);
        KeptIsPresent(c, v);
        AnswersKeepFromAnswers(w, c.name, v);
        w := ApplyAnswer(w, c.name, v).writer;
      }
    }
  }

  lemma AnsweredExists(e: EntityContract) returns (w: Writer)
    requires WellFormed(e) && !e.systemOnly
    ensures w.contract == e && FromAnswers(w) && AllAnswered(w) && Complete(w)
  {
    w := AnswerFirst(e, |e.fields|);
    AllAnsweredIsComplete(w);
  }

  /** With every question answered, another accepted answer to one of them leaves an answered, complete entity in which
      the field has that answer's kept form. */
  lemma AnswerStands(w: Writer, i: nat, v: Value)
    requires WellFormed(w.contract) && !w.contract.systemOnly && FromAnswers(w) && AllAnswered(w)
    requires i < |w.contract.fields| && Accepts(w.contract.fields[i], v)
    ensures var c := w.contract.fields[i];
      var w1 := w.(current := w.current[c.name := Kept(c, v)]);
      && ApplyAnswer(w, c.name, v) == Applied(w1)
      && FromAnswers(w1) && AllAnswered(w1) && Complete(w1)
      && Get(Resolved(w1), c.name) == Kept(c, v)
  {
    var c := w.contract.fields[i];
    var w1 := w.(current := w.current[c.name := Kept(c, v)]);
    FindIsThere(w.contract.fields, i);
    AnswersKeepFromAnswers(w, c.name, v);
    KeptIsPresent(c, v);
    AllAnsweredIsComplete(w1);
    AskableResolves(w1, i);
  }
}
