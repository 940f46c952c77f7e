/** The router over a completion session: it asks, takes answers in people's words, offers to create a missing Contact or
    Organization in a nested completion, and queues what is complete for approval. */
module CompletionRouter {
  import opened Prelude
  import opened Texts
  import opened CompletionEngine
  import opened CompletionAnswers
  import opened CompletionPayload
  import opened CommercialContracts
  import opened CommercialChecks
  import opened CommercialTranslation
  import opened CompletionSession

  // ---- what the router cannot see ----

  /** Reading a Payment Term: nothing usable, or the Deals it is linked to and its calculation type. */
  datatype TermRead = TermUnreadable | TermFound(deals: seq<string>, calcType: string)

  /** Looking a name up: one record, nothing with an offer to create it, several, or nothing. */
  datatype Resolution = One(id: string) | NoneButCreate(question: string) | Several(tokens: map<string, string>) | NotFound

  /** `nonce` is the random mark minted when a nested completion is queued. */
  datatype World = World(term: TermRead, resolution: Resolution, lookup: bool, nonce: string, queueFails: bool)

  // ---- what it answers ----

  datatype Hint = Hint(nested: Entity, returnField: Option<Field>, nonce: string)
  datatype QueueCall = QueueCall(tool: Entity, payload: Payload, hint: Option<Hint>)

  datatype Verdict = Clarify(field: Field) | Tool(call: QueueCall) | Block
  datatype Route = Route(verdict: Verdict, session: Session)

  /** A route, or an error raised through the caller. */
  datatype Routed = Routed(route: Route) | Raised

  // ---- looking at a session ----

  function LinkText(v: Value): string { if v.Text? then Strip(v.s) else "" }

  function Put(w: Writer, f: Field, v: Value): Writer { w.(current := w.current[f := v]) }

  /** For a Charge from a Term: once the Term is known, read its calculation type into the values.  None blocks. */
  function TermContext(s: Session, term: TermRead): Option<Session> {
    var w := Active(s);
    var termId := LinkText(Get(w.current, BillingTerm));
    if w.contract.entity != ChargeFromTermEntity || termId == "" || Get(w.current, TermCalcType) != Nothing then Some(s)
    else if !RecordId(termId) || term.TermUnreadable? then None
    else if LinkText(Get(w.current, Deal)) != "" && LinkText(Get(w.current, Deal)) !in term.deals then None
    else Some(WithTop(s, Put(w, TermCalcType, Word(term.calcType))))
  }

  function KeysOf(e: Entity): seq<Column> {
    match e
    case OrganizationEntity => [OrganizationNameColumn]
    case ContactEntity => [ContactNameColumn, ContactPhone]
    case DealEntity => [DealName, DealDomain, DealOwner]
    case PaymentTermEntity => TermKeys()
    case ChargeEntity => ChargeKeys()
    case ChargeFromTermEntity => [DealIdKey, PaymentTermIdKey]
    case PaymentEntity => PaymentKeys()
  }

  function LinksOf(e: Entity): seq<Column> {
    match e
    case OrganizationEntity => []
    case ContactEntity => []
    case DealEntity => [DealOwner, OriginLeadColumn, CounterpartyContactColumn, CounterpartyOrganizationColumn]
    case PaymentTermEntity => [DealColumn]
    case ChargeEntity => [DealColumn, BillingTermColumn]
    case ChargeFromTermEntity => [DealIdKey, PaymentTermIdKey, LeadIdKey]
    case PaymentEntity => [ChargeColumn, DealIdKey, PaymentTermColumn, CounterpartyContactColumn, CounterpartyOrganizationColumn]
  }

  /** Mark a complete child with a fresh nonce. */
  function Marked(s: Session, nonce: string): Session {
    if |s| == 1 then s else WithTop(s, Put(Active(s), PendingApprovalNonce, Word(nonce)))
  }

  /** Hand the complete active entity to the queue. */
  function Finish(s: Session, world: World): Route {
    var w := Active(s);
    var hint := if |s| == 1 then None else Some(Hint(w.contract.entity, Top(s).returnField, world.nonce));
    match CompletePayload(w)
    case None => Route(Block, s)
    case Some(p) =>
      if AllThere(p, KeysOf(w.contract.entity)) && LinksGood(p, LinksOf(w.contract.entity)) && !world.queueFails
      then Route(Tool(QueueCall(w.contract.entity, p, hint)), s)
      else Route(Block, s)
  }

  function Inspect(s: Session, world: World): Route {
    match TermContext(s, world.term)
    case None => Route(Block, s)
    case Some(s1) =>
      match NextField(Active(s1))
      case Some(c) => Route(Clarify(c.name), s1)
      case None => Finish(Marked(s1, world.nonce), world)
  }

  /** A restored session either asks its next question, or has none to ask and blocks. */
  function Restore(state: seq<StoredFrame>): Option<Route> {
    match Deserialize(state)
    case None => None
    case Some(s) =>
      match NextField(Active(s))
      case None => Some(Route(Block, s))
      case Some(c) => Some(Route(Clarify(c.name), s))
  }

  // ---- answers ----

  function AnswerField(s: Session, f: Field, v: Value, world: World): Route {
    match Answer(s, f, v)
    case Done(s1) => Inspect(s1, world)
    case _ => Route(Block, s)
  }

  /** The routes rebuild a session of one frame around the active entity. */
  function Rebuilt(w: Writer): Session { [Frame(w, None)] }

  function Cleared(w: Writer, mark: Field): Writer { w.(current := w.current - {mark}) }

  function IsOrganizationKind(v: Value): bool { OneOf(v, ["organization"]) }

  /** An answer to "who is the counterparty" may name an Organization, which has a field of its own. */
  function TargetField(f: Field, organization: bool): Field {
    if f == CounterpartyContact && organization then CounterpartyOrganization else f
  }

  predicate PendingOn(v: Value, f: Field) { v.Tokens? && v.field == f }

  predicate OfferedOn(v: Value, f: Field) { v.Offer? && v.offered == f }

  function Reply(v: Value): string { if v.Text? then Strip(v.s) else "" }

  function AnswerHuman(s: Session, v: Value, world: World): Routed {
    match NextField(Active(s))
    case None => Routed(Inspect(s, world))
    case Some(c) =>
      if v.Text? && LooseRecordId(Strip(v.s)) then Routed(AnswerField(s, c.name, Word(Strip(v.s)), world))
      else AnswerChoice(s, c, v, world)
  }

  /** A choice among records shown before: the mark is used up whether or not the reply is one of them. */
  function AnswerChoice(s: Session, c: FieldContract, v: Value, world: World): Routed {
    var pending := Get(Active(s).current, PendingLinkChoice);
    if PendingOn(pending, c.name) then
      var cleared := Cleared(Active(s), PendingLinkChoice);
      if Reply(v) in pending.tokens && pending.tokens[Reply(v)] != "" then
        var f := TargetField(c.name, IsOrganizationKind(Get(cleared.current, CounterpartyKind)));
        Routed(AnswerField(Rebuilt(cleared), f, Word(pending.tokens[Reply(v)]), world))
      else AnswerOffer(Rebuilt(cleared), c, v, world)
    else AnswerOffer(s, c, v, world)
  }

  function ConfirmWords(): seq<string> { ["כן", "yes", "y", "אישור", "מאשר"] }
  function DeclineWords(): seq<string> { ["לא", "no", "n", "ביטול", "בטל"] }

  function NameField(e: Entity): Option<Field> {
    match e
    case OrganizationEntity => Some(OrganizationName)
    case ContactEntity => Some(Name)
    case _ => None
  }

  /** A yes or no to an offer made before to create the missing record. */
  function AnswerOffer(s: Session, c: FieldContract, v: Value, world: World): Routed {
    var offer := Get(Active(s).current, PendingNestedCreate);
    if !OfferedOn(offer, c.name) then AnswerKind(s, c, v, world)
    else
      var cleared := Rebuilt(Cleared(Active(s), PendingNestedCreate));
      if Reply(v) in ConfirmWords() then
        match NameField(offer.nested)
        case None => Routed(Route(Block, cleared))
        case Some(nameField) =>
          match BeginNested(cleared, ContractOf(offer.nested), TargetField(c.name, offer.nested == OrganizationEntity),
                            map[nameField := Word(offer.candidate)], map[])
          case Done(nested) => Routed(Inspect(nested, world))
          case _ => Raised
      else if Reply(v) in DeclineWords() then Routed(Route(Clarify(c.name), cleared))
      else Routed(Route(Clarify(c.name), s))
  }

  function Lower(c: char): char { if 'A' <= c <= 'Z' then c - 'A' + 'a' else c }

  function Folded(s: string): string { seq(|s|, i requires 0 <= i < |s| => Lower(s[i])) }

  function OrganizationWords(): seq<string> { ["ארגון", "organization", "company"] }
  function ContactWords(): seq<string> { ["איש קשר", "contact", "person"] }

  /** Which kind of counterparty is meant. */
  function AnswerKind(s: Session, c: FieldContract, v: Value, world: World): Routed {
    if c.name == CounterpartyContact && Folded(Reply(v)) in OrganizationWords() then
      Routed(Route(Clarify(c.name), Rebuilt(Put(Active(s), CounterpartyKind, Word("organization")))))
    else if c.name == CounterpartyContact && Folded(Reply(v)) in ContactWords() then
      Routed(Route(Clarify(c.name), Rebuilt(Put(Active(s), CounterpartyKind, Word("contact")))))
    else if c.rule.input != Link then Routed(AnswerField(s, c.name, v, world))
    else if !world.lookup then Routed(Route(Block, s))
    else AnswerName(s, c, v, world)
  }

  /** The table a name is looked up in, as far as creation can be offered there. */
  function CreatableTarget(f: Field, w: Writer): Option<Entity> {
    if f == CounterpartyContact then
      var kind := Get(w.current, CounterpartyKind);
      if CounterpartyKind !in w.current || OneOf(kind, ["contact"]) then Some(ContactEntity)
      else if IsOrganizationKind(kind) then Some(OrganizationEntity)
      else None
    else if f == CounterpartyOrganization then Some(OrganizationEntity)
    else None
  }

  /** A name, looked up. */
  function AnswerName(s: Session, c: FieldContract, v: Value, world: World): Routed {
    var target := CreatableTarget(c.name, Active(s));
    match world.resolution
    case One(id) => Routed(AnswerField(s, TargetField(c.name, target == Some(OrganizationEntity)), Word(id), world))
    case NoneButCreate(question) =>
      if target == None then Routed(Route(Block, s))
      else Routed(Route(Clarify(c.name),
        Rebuilt(Put(Active(s), PendingNestedCreate, Offer(c.name, target.value, Reply(v), question)))))
    case Several(tokens) =>
      Routed(Route(Clarify(c.name),
        if tokens == map[] then s else Rebuilt(Put(Active(s), PendingLinkChoice, Tokens(c.name, tokens)))))
    case NotFound => Routed(Route(Block, s))
  }

  // ---- an approval comes back ----

  datatype Resumption = Mismatch | Corrupted(abandon: Session) | Resumed(route: Route) | ResumeRaised

  /** Fold an approved record into the parent it was queued from: only into the very child its nonce was minted for. */
  function ResumeNested(
    state: seq<StoredFrame>, nested: Entity, returnField: Field, nonce: string, id: string, world: World
  ): Resumption {
    match Deserialize(state)
    case None => Mismatch
    case Some(s) =>
      if |s| < 2 || Active(s).contract.entity != nested || Top(s).returnField != Some(returnField)
         || Get(Active(s).current, PendingApprovalNonce) != Word(nonce) then Mismatch
      else if id == "" then Corrupted(s)
      else
        match ResumeParent(s, id)
        case Done(s1) => Resumed(Inspect(s1, world))
        case Blocked => Corrupted(s)
        case _ => ResumeRaised
  }
}
