/** What becomes of a parent while its nested child is completed and approved: exactly which events leave it parked, hand
    it on, or give it up. */
module ParkedParent {
  import opened Prelude
  import opened Texts
  import opened CompletionEngine
  import opened CompletionAnswers
  import opened CompletionPayload
  import opened CommercialContracts
  import opened ContractLaws
  import opened CompletionSession
  import opened CompletionRouter
  import opened RouterLaws
  import opened RouterSafety
  import opened CompletionSlot

  /** The parent is where it was, under a child. */
  predicate StillParked(s: Session, next: Option<Session>)
    requires |s| == 2
  {
    next.Some? && |next.value| == 2 && next.value[0] == s[0]
  }

  /** An approval that is a no-answer, or comes to a child that is no longer complete, cleans the child up. */
  predicate CleansUp(s: Session, ref: Continuation, id: string) {
    NamesChild(s, ref) && (id == "" || !Complete(Active(s)))
  }

  predicate Folds(s: Session, ref: Continuation, id: string) {
    NamesChild(s, ref) && id != "" && Complete(Active(s)) && LooseRecordId(id)
  }

  /** The events that end the parking. */
  predicate Ends(s: Session, ev: Event) {
    match ev
    case Begin(w, world) => Inspect(Start(w), world).verdict != Block
    case Message(_, _) => NextField(Active(s)) == None
    case Human(_, _) => false
    case FieldAnswer(_, _, _) => false
    case Approval(ref, id, _) => CleansUp(s, ref, id) || Folds(s, ref, id)
    case Discard => true
  }

  /** What the slot holds after an event that ends the parking: after a clean-up the parent alone; after a fold the parent
      with its link, unless it has nothing more to ask; after anything else what was begun, or nothing. */
  function Left(s: Session, ev: Event): Option<Session>
    requires |s| == 2 && s[1].returnField.Some?
  {
    match ev
    case Begin(w, world) => AfterBegin(None, Inspect(Start(w), world))
    case Approval(ref, id, _) =>
      if CleansUp(s, ref, id) then Some([s[0]])
      else if NextField(Active(WithLink(s, id))).Some? then Some(WithLink(s, id))
      else None
    case _ => None
  }

  lemma MessageFate(slot: Slot, s: Session, v: Value, world: World)
    requires Valid(slot) && slot.session == Some(s) && |s| == 2
    ensures var next := Step(slot, Message(v, world)).session;
      if NextField(Active(s)) == None then next == None else StillParked(s, next)
  {
    MessageUnfolds(slot, v, world);
    AnswersKeepSound(s, v, world);
  }

  lemma AnswerFate(slot: Slot, s: Session, v: Value, world: World)
    requires Valid(slot) && slot.session == Some(s) && |s| == 2
    ensures StillParked(s, Step(slot, Human(v, world)).session)
  {
    AnswersKeepSound(s, v, world);
  }

  lemma FieldAnswerFate(slot: Slot, s: Session, f: Field, v: Value, world: World)
    requires Valid(slot) && slot.session == Some(s) && |s| == 2
    ensures StillParked(s, Step(slot, FieldAnswer(f, v, world)).session)
  {
    AnswerFieldKeepsSound(s, f, v, world);
    FieldAnswerUnfolds(slot, f, v, world);
  }

  lemma FoldedAsks(s: Session, id: string, world: World)
    requires Sound(s) && |s| == 2
    ensures var r := Inspect(WithLink(s, id), world);
      r.session == WithLink(s, id) && (r.verdict.Clarify? <==> NextField(Active(WithLink(s, id))).Some?)
  {
    FoldedIsSound(s, id);
    InspectOnlyMarks(WithLink(s, id), world);
    InspectUnfolds(WithLink(s, id), world);
  }

  lemma ApprovalFate(slot: Slot, s: Session, ref: Continuation, id: string, world: World)
    requires Valid(slot) && slot.session == Some(s) && |s| == 2
    ensures var next := Step(slot, Approval(ref, id, world)).session;
      if CleansUp(s, ref, id) || Folds(s, ref, id) then next == Left(s, Approval(ref, id, world)) else next == Some(s)
  {
    ApprovalUnfolds(slot, ref, id, world);
    ApprovalExactly(s, ref, id, world);
    if CleansUp(s, ref, id) { ParentIsSound(s); }
    if Folds(s, ref, id) { FoldedAsks(s, id, world); }
  }

  lemma BeginFate(slot: Slot, s: Session, w: Writer, world: World)
    requires slot.session == Some(s) && |s| == 2
    ensures var r := Inspect(Start(w), world);
      && Step(slot, Begin(w, world)).session == AfterBegin(Some(s), r)
      && |r.session| == 1
  {
    InspectUnfolds(Start(w), world);
    BeginUnfolds(slot, w, world);
  }

  /** The fate of a parked parent under every event, exactly: it stays parked unless the event ends the parking, and then
      this is what is left. */
  lemma ParentFateExactly(slot: Slot, s: Session, ev: Event)
    requires Valid(slot) && slot.session == Some(s) && |s| == 2
    ensures StillParked(s, Step(slot, ev).session) <==> !Ends(s, ev)
    ensures Ends(s, ev) ==> Step(slot, ev).session == Left(s, ev)
  {
    match ev
    case Begin(w, world) => BeginFate(slot, s, w, world);
    case Message(v, world) => MessageFate(slot, s, v, world);
    case Human(v, world) => AnswerFate(slot, s, v, world);
    case FieldAnswer(f, v, world) => FieldAnswerFate(slot, s, f, v, world);
    case Approval(ref, id, world) => ApprovalFate(slot, s, ref, id, world);
    case Discard =>
  }

  // ---- an entity with nothing under it ----

  /** What is kept of a route: a queued entity is done with, anything else stays. */
  predicate Keeps(next: Option<Session>, r: Route) {
    if r.verdict.Tool? && |r.session| == 1 then next == None else next == Some(r.session)
  }

  lemma RouteIsKept(s: Session, r: Routed)
    requires r.Routed?
    ensures Keeps(AfterRouted(s, r), r.route)
  {
  }

  lemma HumanUnfolds(slot: Slot, s: Session, v: Value, world: World)
    requires slot.session == Some(s)
    ensures Step(slot, Human(v, world)).session == AfterRouted(s, AnswerHuman(s, v, world))
  {
  }

  lemma RootHumanFate(slot: Slot, s: Session, v: Value, world: World)
    requires Valid(slot) && slot.session == Some(s) && |s| == 1
    ensures AnswerHuman(s, v, world).Routed?
    ensures Keeps(Step(slot, Human(v, world)).session, AnswerHuman(s, v, world).route)
  {
    AnswersKeepSound(s, v, world);
    HumanUnfolds(slot, s, v, world);
    RouteIsKept(s, AnswerHuman(s, v, world));
  }

  lemma RootMessageFate(slot: Slot, s: Session, v: Value, world: World)
    requires Valid(slot) && slot.session == Some(s) && |s| == 1
    ensures AnswerHuman(s, v, world).Routed?
    ensures if NextField(Active(s)) == None then Step(slot, Message(v, world)).session == None
            else Keeps(Step(slot, Message(v, world)).session, AnswerHuman(s, v, world).route)
  {
    AnswersKeepSound(s, v, world);
    MessageUnfolds(slot, v, world);
    RouteIsKept(s, AnswerHuman(s, v, world));
  }

  lemma RootApprovalFate(slot: Slot, s: Session, ref: Continuation, id: string, world: World)
    requires Valid(slot) && slot.session == Some(s) && |s| == 1
    ensures Step(slot, Approval(ref, id, world)).session == Some(s)
  {
    ApprovalUnfolds(slot, ref, id, world);
    ApprovalExactly(s, ref, id, world);
  }

  /** What becomes of an entity with nothing under it: an answer leaves what the router left of it, and nothing once it is
      queued; a message to one with no question empties the slot; no approval is for it; another completion takes its place
      when that has a question, and both are gone when that is queued at once. */
  lemma RootFateExactly(slot: Slot, s: Session, ev: Event)
    requires Valid(slot) && slot.session == Some(s) && |s| == 1
    ensures var next := Step(slot, ev).session;
      match ev
      case Begin(w, world) =>
        (match Inspect([Frame(w, None)], world).verdict
         case Clarify(_) => next == Some(Inspect([Frame(w, None)], world).session)
         case Tool(_) => next == None
         case Block => next == Some(s))
      case Message(v, world) =>
        if NextField(Active(s)) == None then next == None
        else AnswerHuman(s, v, world).Routed? && Keeps(next, AnswerHuman(s, v, world).route)
      case Human(v, world) => AnswerHuman(s, v, world).Routed? && Keeps(next, AnswerHuman(s, v, world).route)
      case FieldAnswer(f, v, world) => Keeps(next, AnswerField(s, f, v, world))
      case Approval(_, _, _) => next == Some(s)
      case Discard => next == None
  {
    match ev
    case Begin(w, world) => BeginUnfolds(slot, w, world);
    case Message(v, world) => RootMessageFate(slot, s, v, world);
    case Human(v, world) => RootHumanFate(slot, s, v, world);
    case FieldAnswer(f, v, world) => FieldAnswerUnfolds(slot, f, v, world);
    case Approval(ref, id, world) => RootApprovalFate(slot, s, ref, id, world);
    case Discard =>
  }

  /** A nonce is counted as folded exactly when its approval folds a record into the parent it was parked under. */
  lemma FoldedExactly(slot: Slot, ev: Event)
    requires Valid(slot)
    ensures Step(slot, ev).folded
         == if ev.Approval? && slot.session.Some? && Folds(slot.session.value, ev.ref, ev.id)
            then slot.folded + [ev.ref.nonce] else slot.folded
  {
    match ev
    case Begin(w, world) => BeginUnfolds(slot, w, world);
    case Approval(ref, id, world) =>
      if slot.session.Some? {
        ApprovalUnfolds(slot, ref, id, world);
        ApprovalExactly(slot.session.value, ref, id, world);
      }
    case _ =>
  }

  /** No event of the run ends the parking. */
  ghost predicate NeverEnds(slot: Slot, events: seq<Event>)
    decreases |events|
  {
    || events == []
    || ((slot.session.Some? ==> !Ends(slot.session.value, events[0])) && NeverEnds(Step(slot, events[0]), events[1..]))
  }

  /** Through such a run the parent waits unchanged under its child. */
  lemma {:induction false} ParentWaitsThroughRun(slot: Slot, s: Session, events: seq<Event>)
    requires Valid(slot) && slot.session == Some(s) && |s| == 2 && FreshNonces(slot, events)
    ensures NeverEnds(slot, events) ==> StillParked(s, Run(slot, events).session)
    decreases |events|
  {
    if events != [] && NeverEnds(slot, events) {
      ParentFateExactly(slot, s, events[0]);
      StepKeepsValid(slot, events[0]);
      ParentWaitsThroughRun(Step(slot, events[0]), Step(slot, events[0]).session.value, events[1..]);
    }
  }

  /** So "the parent is never lost" fails: the parent of a complete child is given up, with nothing queued for it, by a
      message that arrives before the approval. */
  lemma MessageDropsParkedParent(slot: Slot, s: Session, v: Value, world: World, ref: Continuation, id: string, later: World)
    requires Valid(slot) && slot.session == Some(s) && |s| == 2
    ensures Step(slot, Message(v, world)).session == None <==> NextField(Active(s)) == None
    ensures NextField(Active(s)) == None ==>
      Step(Step(slot, Message(v, world)), Approval(ref, id, later)).folded == slot.folded
  {
    MessageFate(slot, s, v, world);
  }

  // ---- a parked parent ----

  /** An Organization with its name, queued under the nonce. */
  function NamedOrganization(nonce: string): Writer {
    Writer(OrganizationContract(), map[OrganizationName := Word("Acme"), PendingApprovalNonce := Word(nonce)], map[], map[])
  }

  /** A Deal that waits for it. */
  function WaitingDeal(nonce: string): Session {
    [Frame(Writer(DealContract(), map[], map[], map[]), None),
     Frame(NamedOrganization(nonce), Some(CounterpartyOrganization))]
  }

  lemma NamedOrganizationIsComplete(nonce: string)
    ensures Complete(NamedOrganization(nonce)) && NextField(NamedOrganization(nonce)) == None
  {
    var w := NamedOrganization(nonce);
    OrganizationWellFormed();
    TableAt(1, OrganizationRow, OrganizationRule, 0);
    assert AllAnswered(w);
    AllAnsweredIsComplete(w);
  }

  lemma WaitingDealIsParked(nonce: string)
    ensures Sound(WaitingDeal(nonce)) && Valid(Slot(Some(WaitingDeal(nonce)), {nonce}, []))
  {
    EntityOfContract(DealEntity);
    EntityOfContract(OrganizationEntity);
  }

  /** One message empties that slot. */
  lemma MessageEmptiesASlot(nonce: string, v: Value, world: World)
    ensures var slot := Slot(Some(WaitingDeal(nonce)), {nonce}, []);
      Valid(slot) && Step(slot, Message(v, world)).session == None
  {
    WaitingDealIsParked(nonce);
    NamedOrganizationIsComplete(nonce);
    MessageFate(Slot(Some(WaitingDeal(nonce)), {nonce}, []), WaitingDeal(nonce), v, world);
  }

  lemma MalformedIdLeavesParked(slot: Slot, s: Session, ref: Continuation, id: string, world: World)
    requires Sound(s) && slot.session == Some(s) && NamesChild(s, ref) && Complete(Active(s))
    requires id != "" && !LooseRecordId(id)
    ensures Resume(s, ref, id, world) == ResumeRaised
    ensures Step(slot, Approval(ref, id, world)).session == Some(s)
  {
    ApprovalExactly(s, ref, id, world);
    ApprovalUnfolds(slot, ref, id, world);
  }

  /** An approval of that child with an id of the wrong form raises, and leaves the child parked. */
  lemma MalformedIdRaises(nonce: string, world: World)
    ensures var s := WaitingDeal(nonce);
      var ref := Continuation(OrganizationEntity, CounterpartyOrganization, nonce);
      && Resume(s, ref, "rec", world) == ResumeRaised
      && Step(Slot(Some(s), {nonce}, []), Approval(ref, "rec", world)).session == Some(s)
  {
    var s := WaitingDeal(nonce);
    var ref := Continuation(OrganizationEntity, CounterpartyOrganization, nonce);
    WaitingDealIsParked(nonce);
    NamedOrganizationIsComplete(nonce);
    EntityOfContract(OrganizationEntity);
    MalformedIdLeavesParked(Slot(Some(s), {nonce}, []), s, ref, "rec", world);
  }
}
