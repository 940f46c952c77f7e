/** The field-completion engine: contracts that say what an entity needs, the values it has from each source, the fields
    still missing, and the answers that fill them. */
module CompletionEngine {
  import opened Prelude
  import opened Texts
  import opened DateAnswers
  import opened Vocabulary

  // ---- names ----

  /** The fields of the supported entities, and after them the marks the router leaves among the values. */
  datatype Field =
    | Name | Domain | Owner | OriginLead | CounterpartyContact | CounterpartyOrganization
    | DealTypeField | RelationshipTypeField | BusinessDealTypeField | RelationshipRoleField | EngagementDurationField
    | CurrencyField | CommercialStatusField | EstimatedValueBasisField | EstimatedValueRangeField | EstimatedValueNotes
    | Stage | StartDate | EndDate | Notes | TotalCharged | TotalCollected | Outstanding
    | Deal | DirectionField | CalculationType | FixedAmount | RatePct | CalculationBasis | TierConfiguration
    | CustomCalculationRule | UnitRate | MinimumAmount | MaximumAmount | Cadence | InstallmentCount
    | TriggerType | TriggerDate | TriggerDelayDays | TriggerEvent | DueRule | SpecificDueDate | ScheduleAnchorDate
    | NetDays | GracePeriodDays | StatusField | NextDueDate | VatRuleField
    | Reference | BillingTerm | Amount | OriginalDueDate | CurrentExpectedDate | CollectionStateField | BaseAmount
    | Quantity | VatAmount | TriggerEvidence | OriginalTermsSnapshot | TotalPaid | RemainingBalance
    | PromisedPaymentDate | PromisedPaymentAmount | DocumentRequirement | DocumentStatus
    | Lead | BasisValue | TermCalcType | Charge | PaidAt | Method | PaymentTerm
    | Phone | Email | Company | RoleCategory | OrganizationName
    | CounterpartyKind | PendingLinkChoice | PendingNestedCreate | PendingApprovalNonce

  /** The columns a payload is keyed by.  A column is named after its text in the store: `Reference` and
      `ChargeReference` are two columns, and so are `Currency` and `CurrencyCode`. */
  datatype Column =
    | ContactNameColumn | ContactPhone | ContactEmail | ContactCompany | RoleCategoryColumn | OrganizationNameColumn
    | DealName | DealDomain | DealOwner | OriginLeadColumn | CounterpartyContactColumn | CounterpartyOrganizationColumn
    | DealTypeCode | RelationshipTypeColumn | BusinessDealTypeColumn | RelationshipRoleColumn | EngagementDurationColumn
    | CurrencyColumn | CommercialStatusColumn | EstimatedValueBasisColumn | EstimatedValueRangeColumn
    | EstimatedValueNotesColumn | StageColumn | StartDateColumn | EndDateColumn | NotesColumn
    | TotalChargedColumn | TotalCollectedColumn | OutstandingColumn
    | DealColumn | NameColumn | DirectionColumn | CalculationTypeCode | FixedAmountColumn | RatePctColumn
    | CalculationBasisCode | TierConfigurationColumn | CustomCalculationRuleColumn | UnitRateColumn
    | MinimumAmountColumn | MaximumAmountColumn | CadenceCode | InstallmentCountColumn | TriggerTypeCode
    | TriggerDateColumn | TriggerDelayDaysColumn | TriggerEventColumn | DueRuleColumn | SpecificDueDateColumn
    | ScheduleAnchorDateColumn | NetDaysColumn | GracePeriodDaysColumn | StatusColumn | NextDueDateColumn | VatRuleColumn
    | ChargeReferenceColumn | ReferenceColumn | BillingTermColumn | AmountColumn | CurrencyCode
    | OriginalDueDateColumn | CurrentExpectedDateColumn | CollectionStateColumn | BaseAmountColumn | QuantityColumn
    | VatAmountColumn | TriggerEvidenceColumn | OriginalTermsSnapshotColumn | TotalPaidColumn | RemainingBalanceColumn
    | PromisedPaymentDateColumn | PromisedPaymentAmountColumn | DocumentRequirementColumn | DocumentStatusColumn
    | DealIdKey | PaymentTermIdKey | LeadIdKey | BasisValueKey | TermCalcTypeKey
    | NoColumn | ChargeColumn | LowerAmount | PaidAtColumn | LowerStatus | LowerReference | MethodColumn | PaymentTermColumn

  datatype Entity = DealEntity | PaymentTermEntity | OrganizationEntity | ChargeEntity | ChargeFromTermEntity
                  | PaymentEntity | ContactEntity

  // ---- values ----

  /** A value as the flow holds it.  Of a text, `reading` is the finite number its digits spell, if they spell one. */
  datatype Value =
    | Nothing
    | Text(s: string, reading: Option<real>)
    | Number(r: real)
    | Flag(b: bool)
    | Items(items: seq<string>)
    | Tokens(field: Field, tokens: map<string, string>)
    | Offer(offered: Field, nested: Entity, candidate: string, question: string)

  function Word(s: string): Value { Text(s, None) }

  function TextOf(v: Value): string { if v.Text? then v.s else "" }

  predicate Present(v: Value) { v != Nothing && !(v.Text? && v.s == "") && !(v.Items? && v.items == []) }

  type Values = map<Field, Value>

  function Get(values: Values, f: Field): Value { if f in values then values[f] else Nothing }

  predicate OneOf(v: Value, words: seq<string>) { v.Text? && v.s in words }

  predicate Chosen(v: Value, choices: ChoiceSet) { v.Text? && Offers(choices, v.s) }

  // ---- contracts ----

  /** What an entity can inherit from its context. */
  datatype ContextKey =
    | NameKey | PhoneKey | EmailKey | CompanyKey | OrganizationNameKey | DealNameKey | DomainKey | OwnerKey | OwnerIdKey
    | LeadIdentityKey | OriginLeadIdKey | LeadKey | ContactIdKey | CounterpartyContactKey | OrganizationIdKey
    | CounterpartyOrganizationKey | DealIdentityKey | DealKey | DirectionKey | CurrencyKey | PaymentTermIdentityKey
    | BillingTermKey | OriginalDueDateKey | DueDateKey | ChargeIdKey | ChargeKey | OtherKey(text: string)

  type ContextValues = map<ContextKey, Value>

  datatype Bound = AnyNumber | Positive | NonNegative | PositiveInteger | NonNegativeInteger
  datatype Form = AnyText | EmailText | PhoneText

  /** The kind of answer a field takes, with what its validation asks of it. */
  datatype InputType =
    | Select(choices: ChoiceSet)
    | Link
    | NumberInput(bound: Bound)
    | CurrencyInput(bound: Bound)
    | Percent(bound: Bound)
    | DateInput
    | TextInput(form: Form)
    | Computed

  datatype Required = Always | Optional | Conditional
  datatype Condition = Condition(field: Field, words: seq<string>)

  /** What a contract says of one field. */
  datatype Rule = Rule(
    input: InputType, required: Required, when: seq<Condition>, allConditions: bool,
    inherit: seq<ContextKey>, derived: bool, default: Value, manual: bool, persisted: bool)

  /** A further field to ask for when one of these words is chosen. */
  datatype FollowUp = FollowUp(words: seq<string>, field: Field)

  datatype FieldContract = FieldContract(name: Field, column: Column, rule: Rule, followup: Option<FollowUp>)

  datatype EntityContract = EntityContract(
    entity: Entity, fields: seq<FieldContract>, oneOf: seq<seq<Field>>, systemOnly: bool)

  /** A rule with the usual settings. */
  function Plain(input: InputType): Rule {
    Rule(input, Optional, [], true, [], false, Nothing, true, true)
  }

  predicate Matches(c: Condition, values: Values) { OneOf(Get(values, c.field), c.words) }

  predicate AllMatch(cs: seq<Condition>, values: Values) { forall i :: 0 <= i < |cs| ==> Matches(cs[i], values) }

  predicate AnyMatches(cs: seq<Condition>, values: Values) { exists i :: 0 <= i < |cs| && Matches(cs[i], values) }

  predicate IsRequired(c: FieldContract, values: Values) {
    match c.rule.required
    case Always => true
    case Optional => false
    case Conditional =>
      && c.rule.when != []
      && (if c.rule.allConditions then AllMatch(c.rule.when, values) else AnyMatches(c.rule.when, values))
  }

  /** A field a user can be asked for. */
  predicate Askable(c: FieldContract) { c.rule.input != Computed && c.rule.manual }

  // ---- the values an entity has ----

  datatype Writer = Writer(contract: EntityContract, current: Values, source: ContextValues, identity: ContextValues)

  datatype Source = Existing | Inherited | Derived | Default | User

  const SOURCES := [Existing, Inherited, Derived, Default, User]

  function Context(w: Writer): ContextValues { w.source + w.identity }

  function Inherit(keys: seq<ContextKey>, context: ContextValues): Value {
    if keys == [] then Nothing
    else if keys[0] in context && Present(context[keys[0]]) then context[keys[0]]
    else Inherit(keys[1..], context)
  }

  /** The one derived field: a document status follows from the document requirement. */
  function Derive(f: Field, values: Values): Value {
    if f != DocumentStatus then Nothing
    else if OneOf(Get(values, DocumentRequirement), ["none"]) then Word("not_required")
    else if Chosen(Get(values, DocumentRequirement), DocumentRequirements) then Word("required")
    else Nothing
  }

  function Candidate(w: Writer, c: FieldContract, source: Source, values: Values): Value {
    match source
    case Existing => Get(w.current, c.name)
    case User => Get(w.current, c.name)
    case Inherited => Inherit(c.rule.inherit, Context(w))
    case Derived => if c.rule.derived then Derive(c.name, values) else Nothing
    case Default => c.rule.default
  }

  /** The first source that has a value. */
  function FirstPresent(w: Writer, c: FieldContract, sources: seq<Source>, values: Values): Value {
    if sources == [] then Nothing
    else if Present(Candidate(w, c, sources[0], values)) then Candidate(w, c, sources[0], values)
    else FirstPresent(w, c, sources[1..], values)
  }

  function Settle(w: Writer, c: FieldContract, values: Values): Values {
    var v := FirstPresent(w, c, SOURCES, values);
    if Present(v) then values[c.name := v] else values
  }

  function Resolve(w: Writer, fields: seq<FieldContract>): Values {
    if fields == [] then map[] else Settle(w, fields[|fields| - 1], Resolve(w, fields[..|fields| - 1]))
  }

  function Resolved(w: Writer): Values { Resolve(w, w.contract.fields) }

  method ResolvedValues(w: Writer) returns (values: Values)
    ensures values == Resolved(w)
  {
    var fields := w.contract.fields;
    values := map[];
    for i := 0 to |fields|
      invariant values == Resolve(w, fields[..i])
    {
      assert fields[..i + 1][..i] == fields[..i];
      ghost var before := values;
      var c := fields[i];
      var j := 0;
      var found := false;
      while j < |SOURCES| && !found
        invariant 0 <= j <= |SOURCES|
        invariant !found ==> values == before && FirstPresent(w, c, SOURCES, before) == FirstPresent(w, c, SOURCES[j..], before)
        invariant found ==> values == Settle(w, c, before)
        decreases |SOURCES| - j, !found
      {
        var candidate := Candidate(w, c, SOURCES[j], values);
        assert SOURCES[j..][1..] == SOURCES[j + 1..];
        if Present(candidate) {
          values := values[c.name := candidate];
          found := true;
        } else {
          j := j + 1;
        }
      }
    }
    assert fields[..|fields|] == fields;
  }

  // ---- the fields still missing ----

  predicate Absent(values: Values, f: Field) { !Present(Get(values, f)) }

  predicate NoneOf(group: seq<Field>, values: Values) { forall i :: 0 <= i < |group| ==> Absent(values, group[i]) }

  predicate AsksFor(controller: FieldContract, f: Field, values: Values) {
    && controller.followup.Some? && controller.followup.value.field == f
    && OneOf(Get(values, controller.name), controller.followup.value.words)
    && Absent(values, f)
  }

  predicate StandsFor(group: seq<Field>, f: Field, values: Values) { group != [] && group[0] == f && NoneOf(group, values) }

  predicate IsMissing(e: EntityContract, values: Values, c: FieldContract) {
    || (Askable(c) && IsRequired(c, values) && Absent(values, c.name))
    || (exists k :: 0 <= k < |e.fields| && AsksFor(e.fields[k], c.name, values))
    || (exists g :: 0 <= g < |e.oneOf| && StandsFor(e.oneOf[g], c.name, values))
  }

  function MissingAmong(e: EntityContract, values: Values, fields: seq<FieldContract>): seq<FieldContract> {
    if fields == [] then []
    else
      MissingAmong(e, values, fields[..|fields| - 1])
      + if IsMissing(e, values, fields[|fields| - 1]) then [fields[|fields| - 1]] else []
  }

  /** The missing fields, in contract order. */
  function Missing(w: Writer): seq<FieldContract> { MissingAmong(w.contract, Resolved(w), w.contract.fields) }

  predicate Complete(w: Writer) { !w.contract.systemOnly && Missing(w) == [] }

  /** The field to ask next. */
  function NextField(w: Writer): Option<FieldContract> { if Missing(w) == [] then None else Some(Missing(w)[0]) }

  method AskedFields(e: EntityContract, values: Values) returns (asked: set<FieldContract>)
    ensures forall c :: c in asked <==> c in e.fields && Askable(c) && IsRequired(c, values) && Absent(values, c.name)
  {
    asked := {};
    for i := 0 to |e.fields|
      invariant forall c :: c in asked <==> c in e.fields[..i] && Askable(c) && IsRequired(c, values) && Absent(values, c.name)
    {
      var c := e.fields[i];
      if Askable(c) && IsRequired(c, values) && Absent(values, c.name) { asked := asked + {c}; }
    }
  }

  method FollowUps(e: EntityContract, values: Values) returns (followed: set<Field>)
    ensures forall f :: f in followed <==> exists k :: 0 <= k < |e.fields| && AsksFor(e.fields[k], f, values)
  {
    followed := {};
    for i := 0 to |e.fields|
      invariant forall f :: f in followed <==> exists k :: 0 <= k < i && AsksFor(e.fields[k], f, values)
    {
      var c := e.fields[i];
      if c.followup.Some? && AsksFor(c, c.followup.value.field, values) { followed := followed + {c.followup.value.field}; }
    }
  }

  method Representatives(e: EntityContract, values: Values) returns (standing: set<Field>)
    ensures forall f :: f in standing <==> exists g :: 0 <= g < |e.oneOf| && StandsFor(e.oneOf[g], f, values)
  {
    standing := {};
    for g := 0 to |e.oneOf|
      invariant forall f :: f in standing <==> exists k :: 0 <= k < g && StandsFor(e.oneOf[k], f, values)
    {
      if e.oneOf[g] != [] && NoneOf(e.oneOf[g], values) { standing := standing + {e.oneOf[g][0]}; }
    }
  }

  method MissingFields(w: Writer) returns (r: Option<seq<FieldContract>>)
    ensures r == if w.contract.systemOnly then None else Some(Missing(w))
  {
    if w.contract.systemOnly { return None; }
    var e := w.contract;
    var values := ResolvedValues(w);
    var asked := AskedFields(e, values);
    var followed := FollowUps(e, values);
    var standing := Representatives(e, values);
    var ordered: seq<FieldContract> := [];
    for i := 0 to |e.fields|
      invariant ordered == MissingAmong(e, values, e.fields[..i])
    {
      assert e.fields[..i + 1][..i] == e.fields[..i];
      var c := e.fields[i];
      if c in asked || c.name in followed || c.name in standing { ordered := ordered + [c]; }
    }
    assert e.fields[..|e.fields|] == e.fields;
    r := Some(ordered);
  }
}
