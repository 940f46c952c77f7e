/** The rules of the question loop, said without its functions: what is taken over from the context, which fields are
    asked for, and which answers are accepted. */
module AnswerRules {
  import opened Prelude
  import opened Texts
  import opened DateAnswers
  import opened Vocabulary
  import opened CompletionEngine
  import opened CompletionAnswers

  // ---- what a field has ----

  /** The field has a value that is not empty. */
  predicate Given(values: Values, f: Field) {
    f in values
    && match values[f]
       case Nothing => false
       case Text(s, _) => |s| > 0
       case Items(items) => |items| > 0
       case _ => true
  }

  /** What the context holds: the identity of the entity goes before the source it was begun from. */
  predicate InContext(w: Writer, k: ContextKey, v: Value) {
    if k in w.identity then w.identity[k] == v else k in w.source && w.source[k] == v
  }

  /** A field inherits the value of the first of its keys that the context has something for. */
  lemma {:induction false} InheritsFirst(w: Writer, keys: seq<ContextKey>) returns (n: nat)
    ensures n <= |keys|
    ensures forall k, v :: 0 <= k < n && InContext(w, keys[k], v) ==> !Present(v)
    ensures n < |keys| ==> InContext(w, keys[n], Inherit(keys, Context(w))) && Present(Inherit(keys, Context(w)))
    ensures n == |keys| ==> Inherit(keys, Context(w)) == Nothing
    decreases |keys|
  {
    if keys == [] || (keys[0] in Context(w) && Present(Context(w)[keys[0]])) {
      n := 0;
    } else {
      n := InheritsFirst(w, keys[1..]);
      n := n + 1;
      forall k, v | 0 <= k < n && InContext(w, keys[k], v) ensures !Present(v) {
        if k > 0 { assert keys[k] == keys[1..][k - 1]; }
      }
    }
  }

  /** A document status follows from the requirement: none needs no document, the other three need one. */
  lemma StatusFollows(values: Values)
    ensures var v := Derive(DocumentStatus, values);
      var asked :=
        if DocumentRequirement in values && values[DocumentRequirement].Text? then values[DocumentRequirement].s else "";
      && (asked == "none" ==> v == Text("not_required", None))
      && (asked == "receipt_required" || asked == "invoice_required" || asked == "expense_document_required" ==>
            v == Text("required", None))
      && (asked !in {"none", "receipt_required", "invoice_required", "expense_document_required"} ==> v == Nothing)
  {
  }

  // ---- which fields are asked for ----

  /** The value of the field is one of these words. */
  predicate Says(values: Values, f: Field, words: seq<string>) { f in values && values[f].Text? && values[f].s in words }

  ghost predicate Needed(c: FieldContract, values: Values) {
    || c.rule.required == Always
    || (c.rule.required == Conditional && c.rule.when != []
        && if c.rule.allConditions
           then forall k :: 0 <= k < |c.rule.when| ==> Says(values, c.rule.when[k].field, c.rule.when[k].words)
           else exists k :: 0 <= k < |c.rule.when| && Says(values, c.rule.when[k].field, c.rule.when[k].words))
  }

  /** A word chosen in another field asks for this one. */
  ghost predicate AskedBy(e: EntityContract, values: Values, f: Field) {
    exists k :: 0 <= k < |e.fields| && e.fields[k].followup.Some? && e.fields[k].followup.value.field == f
      && Says(values, e.fields[k].name, e.fields[k].followup.value.words)
  }

  predicate NoneGiven(group: seq<Field>, values: Values) { forall i :: 0 <= i < |group| ==> !Given(values, group[i]) }

  predicate StandsInFor(group: seq<Field>, f: Field, values: Values) {
    group != [] && group[0] == f && NoneGiven(group, values)
  }

  /** One of several fields is needed, none is there, and this is the first of them. */
  ghost predicate StandsIn(e: EntityContract, values: Values, f: Field) {
    exists g :: 0 <= g < |e.oneOf| && StandsInFor(e.oneOf[g], f, values)
  }

  lemma GivenIsPresent(values: Values, f: Field)
    ensures Given(values, f) <==> Present(Get(values, f))
  {
  }

  lemma NeededIsRequired(c: FieldContract, values: Values)
    ensures Needed(c, values) <==> IsRequired(c, values)
  {
    forall k | 0 <= k < |c.rule.when|
      ensures Says(values, c.rule.when[k].field, c.rule.when[k].words) <==> Matches(c.rule.when[k], values)
    {
    }
  }

  lemma AskedByIsFollowed(e: EntityContract, values: Values, f: Field)
    ensures AskedBy(e, values, f) && !Given(values, f) <==> exists k :: 0 <= k < |e.fields| && AsksFor(e.fields[k], f, values)
  {
    if AskedBy(e, values, f) && !Given(values, f) {
      var k :| 0 <= k < |e.fields| && e.fields[k].followup.Some? && e.fields[k].followup.value.field == f
        && Says(values, e.fields[k].name, e.fields[k].followup.value.words);
      assert AsksFor(e.fields[k], f, values);
    }
  }

  lemma NoneGivenIsNone(group: seq<Field>, values: Values)
    ensures NoneGiven(group, values) <==> NoneOf(group, values)
  {
  }

  lemma StandsInForIsFor(group: seq<Field>, f: Field, values: Values)
    ensures StandsInFor(group, f, values) <==> StandsFor(group, f, values)
  {
    NoneGivenIsNone(group, values);
  }

  lemma StandsInIsFor(e: EntityContract, values: Values, f: Field)
    ensures StandsIn(e, values, f) <==> exists g :: 0 <= g < |e.oneOf| && StandsFor(e.oneOf[g], f, values)
  {
    if StandsIn(e, values, f) {
      var g :| 0 <= g < |e.oneOf| && StandsInFor(e.oneOf[g], f, values);
      StandsInForIsFor(e.oneOf[g], f, values);
    }
    if g :| 0 <= g < |e.oneOf| && StandsFor(e.oneOf[g], f, values) { StandsInForIsFor(e.oneOf[g], f, values); }
  }

  lemma {:induction false} MissingListed(e: EntityContract, values: Values, fields: seq<FieldContract>)
    ensures forall c :: c in MissingAmong(e, values, fields) <==> c in fields && IsMissing(e, values, c)
    decreases |fields|
  {
    if fields != [] {
      MissingListed(e, values, fields[..|fields| - 1]);
      assert fields == fields[..|fields| - 1] + [fields[|fields| - 1]];
    }
  }

  /** A field is missing exactly when it is asked for by its own rule and empty, or by a word chosen elsewhere and empty,
      or in the name of a group none of which is there. */
  lemma MissingExactly(w: Writer, c: FieldContract)
    requires c in w.contract.fields
    ensures c in Missing(w) <==>
      || (c.rule.manual && c.rule.input != Computed && Needed(c, Resolved(w)) && !Given(Resolved(w), c.name))
      || (AskedBy(w.contract, Resolved(w), c.name) && !Given(Resolved(w), c.name))
      || StandsIn(w.contract, Resolved(w), c.name)
  {
    MissingListed(w.contract, Resolved(w), w.contract.fields);
    GivenIsPresent(Resolved(w), c.name);
    NeededIsRequired(c, Resolved(w));
    AskedByIsFollowed(w.contract, Resolved(w), c.name);
    StandsInIsFor(w.contract, Resolved(w), c.name);
  }

  // ---- which answers are accepted ----

  /** The number an answer gives, as a number or spelled out. */
  predicate Gives(v: Value, r: real) { v == Number(r) || (v.Text? && v.s != "" && v.reading == Some(r)) }

  ghost predicate WithinBound(bound: Bound, r: real) {
    match bound
    case AnyNumber => true
    case Positive => r > 0.0
    case NonNegative => r >= 0.0
    case PositiveInteger => r > 0.0 && r - r.Floor as real == 0.0
    case NonNegativeInteger => r >= 0.0 && r - r.Floor as real == 0.0
  }

  /** Seven digits or more. */
  predicate SevenDigits(s: string) { |set i | 0 <= i < |s| && '0' <= s[i] <= '9'| >= 7 }

  /** What is accepted for each kind of question. */
  ghost predicate Suits(input: InputType, v: Value) {
    match input
    case Select(choices) => v.Text? && v.s != "" && Offers(choices, v.s)
    case Link => v.Text? && |v.s| > 3 && v.s[0] == 'r' && v.s[1] == 'e' && v.s[2] == 'c'
                 && forall i :: 3 <= i < |v.s| ==> AlphaNumeric(v.s[i])
    case NumberInput(bound) => exists r :: Gives(v, r) && WithinBound(bound, r)
    case CurrencyInput(bound) => exists r :: Gives(v, r) && WithinBound(bound, r)
    case Percent(bound) => exists r :: Gives(v, r) && WithinBound(bound, r) && 0.0 <= r <= 100.0
    case DateInput => v.Text? && exists d :: ValidDate(d) && Spells(v.s, d)
    case TextInput(form) => v.Text? && (exists i :: 0 <= i < |v.s| && !White(v.s[i]))
                            && (form == EmailText ==> EmailForm(v.s)) && (form == PhoneText ==> SevenDigits(v.s))
    case Computed => false
  }

  lemma BoundKept(bound: Bound, r: real)
    ensures WithinBound(bound, r) <==> NumberAccepted(bound, r)
  {
  }

  lemma NumberSuits(bound: Bound, v: Value, percent: bool)
    requires Present(v)
    ensures (exists r :: Gives(v, r) && WithinBound(bound, r) && (percent ==> 0.0 <= r <= 100.0))
       <==> (NumberOf(v).Some? && NumberAccepted(bound, NumberOf(v).value) && (percent ==> 0.0 <= NumberOf(v).value <= 100.0))
  {
    if NumberOf(v).Some? {
      var r := NumberOf(v).value;
      BoundKept(bound, r);
      assert Gives(v, r);
      forall q | Gives(v, q) ensures q == r {}
    }
  }

  lemma DateSuits(s: string)
    ensures Normalize(s).Some? <==> exists d :: ValidDate(d) && Spells(s, d)
  {
    if Normalize(s).Some? { NormalizeExactly(s, Normalize(s).value); }
    if d :| ValidDate(d) && Spells(s, d) { NormalizeExactly(s, Iso(d)); }
  }

  lemma TextSuits(form: Form, s: string)
    ensures Strip(s) != "" && FormAccepted(form, s) <==>
      && (exists i :: 0 <= i < |s| && !White(s[i]))
      && (form == EmailText ==> EmailForm(s)) && (form == PhoneText ==> SevenDigits(s))
  {
    var _, _ := StripCutsBlanks(s);
    DigitsCounted(s);
  }

  /** An answer is accepted exactly when a user may give one and it suits the question. */
  lemma AcceptedExactly(c: FieldContract, v: Value)
    ensures Accepts(c, v) <==> c.rule.manual && Suits(c.rule.input, v)
  {
    match c.rule.input {
      case NumberInput(bound) => if Present(v) { NumberSuits(bound, v, false); }
      case CurrencyInput(bound) => if Present(v) { NumberSuits(bound, v, false); }
      case Percent(bound) => if Present(v) { NumberSuits(bound, v, true); }
      case DateInput => if v.Text? { DateSuits(v.s); EmptyIsNoDate(); }
      case TextInput(form) => if v.Text? { TextSuits(form, v.s); }
      case Link => if v.Text? && |v.s| > 3 { assert v.s[..3] == [v.s[0], v.s[1], v.s[2]]; }
      case _ =>
    }
  }

  lemma EmptyIsNoDate()
    ensures Normalize("") == None
  {
  }
}
