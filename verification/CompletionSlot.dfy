/** The one slot a conversation's completion is kept in, through messages, approvals and rejections in any order. */
module CompletionSlot {
  import opened Prelude
  import opened Texts
  import opened Vocabulary
  import opened CompletionEngine
  import opened CompletionAnswers
  import opened CommercialContracts
  import opened ContractLaws
  import opened CompletionSession
  import opened CompletionRouter
  import opened RouterLaws
  import opened RouterSafety

  /** `minted` holds every nonce brought in so far, `folded` those whose approval was folded into a parent. */
  datatype Slot = Slot(session: Option<Session>, minted: set<string>, folded: seq<string>)

  /** What an approval names: the entity it created, the field it returns to, and its nonce. */
  datatype Continuation = Continuation(nested: Entity, returnField: Field, nonce: string)

  /** A completion is begun, whatever the slot holds; a message restores the slot first; an answer goes to the router as
      it is; an approval brings the id of the record it created, or "" when it was rejected or left no evidence; a cancel
      word or a fresh command discards what is there. */
  datatype Event =
    | Begin(writer: Writer, world: World)
    | Message(reply: Value, world: World)
    | Human(reply: Value, world: World)
    | FieldAnswer(field: Field, value: Value, world: World)
    | Approval(ref: Continuation, id: string, world: World)
    | Discard

  function Brings(ev: Event): set<string> { if ev.Discard? then {} else {ev.world.nonce} }

  /** A completion is begun with a standing contract and values that carry no mark of the router. */
  predicate Proper(ev: Event) {
    ev.Begin? ==> ev.writer.contract == ContractOf(ev.writer.contract.entity) && PendingNestedCreate !in ev.writer.current
  }

  /** What is kept of a route: a queued root is done with, a queued child stays parked. */
  function KeptOf(r: Route): Option<Session> {
    if r.verdict.Tool? && |r.session| == 1 then None else Some(r.session)
  }

  function AfterRouted(s: Session, r: Routed): Option<Session> { if r.Raised? then Some(s) else KeptOf(r.route) }

  function AfterResume(s: Session, r: Resumption): Option<Session> {
    match r
    case Mismatch => Some(s)
    case ResumeRaised => Some(s)
    case Corrupted(t) => if AbandonNested(t).Done? then Some(AbandonNested(t).session) else Some(s)
    case Resumed(route) => if route.verdict.Clarify? then Some(route.session) else None
  }

  /** A completion just begun takes the slot when it has a question; one complete at once leaves it empty, and one that
      blocks leaves it alone. */
  function AfterBegin(before: Option<Session>, r: Route): Option<Session> {
    match r.verdict
    case Clarify(_) => Some(r.session)
    case Tool(_) => None
    case Block => before
  }

  function Resume(s: Session, ref: Continuation, id: string, world: World): Resumption {
    ResumeNested(Serialize(s), ref.nested, ref.returnField, ref.nonce, id, world)
  }

  function Step(slot: Slot, ev: Event): Slot {
    var minted := slot.minted + Brings(ev);
    if ev.Begin? then Slot(AfterBegin(slot.session, Inspect(Start(ev.writer), ev.world)), minted, slot.folded)
    else if slot.session == None || ev.Discard? then Slot(None, minted, slot.folded)
    else
      var s := slot.session.value;
      match ev
      case Message(v, world) =>
        var restored := Restore(Serialize(s));
        if restored == None || restored.value.verdict == Block then Slot(None, minted, slot.folded)
        else Slot(AfterRouted(restored.value.session, AnswerHuman(restored.value.session, v, world)), minted, slot.folded)
      case Human(v, world) => Slot(AfterRouted(s, AnswerHuman(s, v, world)), minted, slot.folded)
      case FieldAnswer(f, v, world) => Slot(KeptOf(AnswerField(s, f, v, world)), minted, slot.folded)
      case Approval(ref, id, world) =>
        var r := Resume(s, ref, id, world);
        Slot(AfterResume(s, r), minted, if r.Resumed? then slot.folded + [ref.nonce] else slot.folded)
  }

  function Run(slot: Slot, events: seq<Event>): Slot
    decreases |events|
  {
    if events == [] then slot else Run(Step(slot, events[0]), events[1..])
  }

  /** Every event is proper and brings a nonce never brought before. */
  ghost predicate FreshNonces(slot: Slot, events: seq<Event>)
    decreases |events|
  {
    || events == []
    || (Proper(events[0]) && Brings(events[0]) !! slot.minted && FreshNonces(Step(slot, events[0]), events[1..]))
  }

  // ---- what every run keeps ----

  ghost predicate Parked(s: Session, n: string) { |s| == 2 && NonceOf(s) == Word(n) }

  ghost predicate Valid(slot: Slot) {
    && (slot.session.Some? ==> Sound(slot.session.value))
    && (slot.session.Some? ==> forall n :: Parked(slot.session.value, n) ==> n in slot.minted && n !in slot.folded)
    && (forall n :: n in slot.folded ==> n in slot.minted)
    && NoRepeats(slot.folded)
  }

  lemma SoundComesBack(s: Session)
    requires Sound(s)
    ensures Deserialize(Serialize(s)) == Some(s)
  {
    StoredSessionsComeBackExactly(s);
  }

  /** A child's nonce changes only by minting. */
  lemma ChildNonce(s: Session, f: Field, v: Value, world: World)
    requires Sound(s) && |s| == 2
    ensures NonceOf(AnswerField(s, f, v, world).session) in {NonceOf(s), Word(world.nonce)}
  {
    if Answer(s, f, v).Done? {
      AnswerKeepsNonce(s, f, v);
      AnswerKeepsSound(s, f, v, Answer(s, f, v).session);
      InspectOnlyMarks(Answer(s, f, v).session, world);
    }
  }

  lemma AnswerKeepsNonce(s: Session, f: Field, v: Value)
    requires Standing(Active(s)) && Answer(s, f, v).Done?
    ensures NonceOf(Answer(s, f, v).session) == NonceOf(s)
    ensures Active(Answer(s, f, v).session).contract == Active(s).contract
  {
    AnswerWritesAField(Active(s), f, v);
  }

  lemma ChildHumanNonce(s: Session, v: Value, world: World)
    requires Sound(s) && |s| == 2
    ensures AnswerHuman(s, v, world).Routed?
    ensures NonceOf(AnswerHuman(s, v, world).route.session) in {NonceOf(s), Word(world.nonce)}
  {
    ChildAnswersGoStraight(s, v, world);
    var next := NextField(Active(s));
    if next == None {
      InspectOnlyMarks(s, world);
    } else {
      ChildNonce(s, next.value.name, v, world);
      if v.Text? { ChildNonce(s, next.value.name, Word(Strip(v.s)), world); }
    }
  }

  lemma HumanNonce(s: Session, v: Value, world: World)
    requires Sound(s) && AnswerHuman(s, v, world).Routed? && |AnswerHuman(s, v, world).route.session| == 2
    ensures NonceOf(AnswerHuman(s, v, world).route.session)
         in {Nothing, Word(world.nonce)} + if |s| == 2 then {NonceOf(s)} else {}
  {
    if |s| == 1 { RootAnswersAreFine(s, v, world); } else { ChildHumanNonce(s, v, world); }
  }

  /** A new state of the slot is valid when its session is sound and any nonce in it is the fresh one or stood there. */
  lemma NextIsValid(slot: Slot, s: Session, nonce: string, next: Option<Session>)
    requires Valid(slot) && slot.session == Some(s) && nonce !in slot.minted
    requires next.Some? ==> Sound(next.value)
    requires next.Some? && |next.value| == 2 ==>
      NonceOf(next.value) in {Nothing, Word(nonce)} + if |s| == 2 then {NonceOf(s)} else {}
    ensures Valid(Slot(next, slot.minted + {nonce}, slot.folded))
  {
    if next.Some? { assert forall n :: Parked(next.value, n) ==> n == nonce || Parked(s, n); }
  }

  lemma HumanKeepsValid(slot: Slot, v: Value, world: World)
    requires Valid(slot) && slot.session.Some? && world.nonce !in slot.minted
    ensures Valid(Slot(AfterRouted(slot.session.value, AnswerHuman(slot.session.value, v, world)),
                       slot.minted + {world.nonce}, slot.folded))
  {
    var s := slot.session.value;
    AnswersKeepSound(s, v, world);
    var r := AnswerHuman(s, v, world);
    if |r.route.session| == 2 { HumanNonce(s, v, world); }
    NextIsValid(slot, s, world.nonce, AfterRouted(s, r));
  }

  lemma FieldAnswerUnfolds(slot: Slot, f: Field, v: Value, world: World)
    requires slot.session.Some?
    ensures Step(slot, FieldAnswer(f, v, world))
         == Slot(KeptOf(AnswerField(slot.session.value, f, v, world)), slot.minted + {world.nonce}, slot.folded)
  {
  }

  lemma FieldAnswerKeepsValid(slot: Slot, f: Field, v: Value, world: World)
    requires Valid(slot) && slot.session.Some? && world.nonce !in slot.minted
    ensures Valid(Step(slot, FieldAnswer(f, v, world)))
  {
    var s := slot.session.value;
    AnswerFieldKeepsSound(s, f, v, world);
    if |s| == 2 { ChildNonce(s, f, v, world); }
    NextIsValid(slot, s, world.nonce, KeptOf(AnswerField(s, f, v, world)));
    FieldAnswerUnfolds(slot, f, v, world);
  }

  // ---- an approval ----

  predicate NamesChild(s: Session, ref: Continuation) {
    |s| == 2 && Active(s).contract.entity == ref.nested && Top(s).returnField == Some(ref.returnField) && NonceOf(s) == Word(ref.nonce)
  }

  /** The parent with its link field set. */
  function WithLink(s: Session, id: string): Session
    requires |s| == 2 && s[1].returnField.Some?
  {
    [Frame(Put(s[0].writer, s[1].returnField.value, Word(id)), s[0].returnField)]
  }

  lemma ParentAnswers(parent: Frame, f: Field, id: string)
    requires parent.writer.contract == DealContract() && Counterparty(f)
    ensures Answer([parent], f, Word(id)) ==
      if LooseRecordId(id) then Done([Frame(Put(parent.writer, f, Word(id)), parent.returnField)]) else Invalid
  {
    DealHasCounterparties(f);
  }

  lemma ParentTakesTheId(s: Session, id: string)
    requires Sound(s) && |s| == 2
    ensures ResumeParent(s, id) ==
      if !Complete(Active(s)) then Blocked else if LooseRecordId(id) then Done(WithLink(s, id)) else Invalid
  {
    assert s[..1] == [s[0]];
    ParentAnswers(s[0], s[1].returnField.value, id);
  }

  lemma FoldedIsSound(s: Session, id: string)
    requires Sound(s) && |s| == 2
    ensures Sound(WithLink(s, id)) && Active(WithLink(s, id)).contract.entity == DealEntity
  {
    var f := s[1].returnField.value;
    assert Get(Put(s[0].writer, f, Word(id)).current, PendingNestedCreate) == Get(s[0].writer.current, PendingNestedCreate);
  }

  lemma ResumeUnfolds(s: Session, ref: Continuation, id: string, world: World)
    requires Sound(s)
    ensures Resume(s, ref, id, world) ==
      if !NamesChild(s, ref) then Mismatch
      else if id == "" then Corrupted(s)
      else match ResumeParent(s, id)
        case Done(s1) => Resumed(Inspect(s1, world))
        case Blocked => Corrupted(s)
        case _ => ResumeRaised
  {
    SoundComesBack(s);
  }

  /** What an approval does to a sound session, exactly.  It is refused untouched unless it names the parked child, by
      entity, return field and nonce.  It then cleans the child up when it brings no id, or the child is no longer
      complete; with a well-formed id it folds, and a malformed id raises and leaves the child parked. */
  lemma ApprovalExactly(s: Session, ref: Continuation, id: string, world: World)
    requires Sound(s)
    ensures var r := Resume(s, ref, id, world);
      && (r == Mismatch <==> !NamesChild(s, ref))
      && (NamesChild(s, ref) ==>
            r == if id == "" || !Complete(Active(s)) then Corrupted(s)
                 else if LooseRecordId(id) then Resumed(Inspect(WithLink(s, id), world))
                 else ResumeRaised)
  {
    ResumeUnfolds(s, ref, id, world);
    if |s| == 2 { ParentTakesTheId(s, id); }
  }

  /** A fold sets exactly one field of the parent, the link it was begun for, which was absent, to the approved id, and
      changes nothing else: neither the parent's other values nor anything inspection might add. */
  lemma FoldSetsOneAbsentField(s: Session, ref: Continuation, id: string, world: World)
    requires Sound(s) && Resume(s, ref, id, world).Resumed?
    ensures NamesChild(s, ref) && LooseRecordId(id)
    ensures !Present(Get(s[0].writer.current, ref.returnField)) && Counterparty(ref.returnField)
    ensures Resume(s, ref, id, world).route.session == WithLink(s, id)
    ensures Active(WithLink(s, id)) == s[0].writer.(current := s[0].writer.current[ref.returnField := Word(id)])
  {
    ApprovalExactly(s, ref, id, world);
    FoldedIsSound(s, id);
    InspectOnlyMarks(WithLink(s, id), world);
  }

  /** A rejection gives the parent back as it was when the child was begun. */
  lemma RejectionRestoresTheParent(s: Session, ref: Continuation, world: World)
    requires Sound(s) && NamesChild(s, ref)
    ensures AfterResume(s, Resume(s, ref, "", world)) == Some([s[0]])
    ensures Sound([s[0]])
  {
    ApprovalExactly(s, ref, "", world);
    assert s[..1] == [s[0]];
  }

  lemma ParentIsSound(s: Session)
    requires Sound(s) && |s| == 2
    ensures AbandonNested(s) == Done([s[0]]) && Sound([s[0]])
  {
    assert s[..1] == [s[0]];
  }

  /** An approval leaves the session alone, or leaves a root, or nothing; a fold never leaves the child. */
  lemma AfterApproval(s: Session, ref: Continuation, id: string, world: World)
    requires Sound(s)
    ensures var r := Resume(s, ref, id, world);
      var s1 := AfterResume(s, r);
      && (s1.Some? ==> Sound(s1.value) && (s1.value == s || |s1.value| == 1))
      && (r.Resumed? ==> Parked(s, ref.nonce) && (s1.Some? ==> |s1.value| == 1))
  {
    ApprovalExactly(s, ref, id, world);
    var r := Resume(s, ref, id, world);
    if r.Resumed? {
      FoldSetsOneAbsentField(s, ref, id, world);
      FoldedIsSound(s, id);
    } else if r.Corrupted? {
      ParentIsSound(s);
    }
  }

  lemma ApprovalUnfolds(slot: Slot, ref: Continuation, id: string, world: World)
    requires slot.session.Some?
    ensures var r := Resume(slot.session.value, ref, id, world);
      Step(slot, Approval(ref, id, world))
        == Slot(AfterResume(slot.session.value, r), slot.minted + {world.nonce},
                if r.Resumed? then slot.folded + [ref.nonce] else slot.folded)
  {
  }

  lemma NextAfterFold(slot: Slot, s: Session, next: Option<Session>, folded: bool, nonce: string, minted: string)
    requires Valid(slot) && slot.session == Some(s)
    requires next.Some? ==> Sound(next.value) && (next.value == s || |next.value| == 1)
    requires folded ==> Parked(s, nonce) && (next.Some? ==> |next.value| == 1)
    ensures Valid(Slot(next, slot.minted + {minted}, if folded then slot.folded + [nonce] else slot.folded))
  {
  }

  lemma ApprovalKeepsValid(slot: Slot, ref: Continuation, id: string, world: World)
    requires Valid(slot) && slot.session.Some?
    ensures Valid(Step(slot, Approval(ref, id, world)))
  {
    var s := slot.session.value;
    var r := Resume(s, ref, id, world);
    ApprovalUnfolds(slot, ref, id, world);
    AfterApproval(s, ref, id, world);
    NextAfterFold(slot, s, AfterResume(s, r), r.Resumed?, ref.nonce, world.nonce);
  }

  /** A message is an answer when the active entity has a question, and gives the slot up when it has none. */
  lemma MessageUnfolds(slot: Slot, v: Value, world: World)
    requires slot.session.Some? && Sound(slot.session.value)
    ensures var s := slot.session.value;
      Step(slot, Message(v, world))
        == Slot(if NextField(Active(s)) == None then None else AfterRouted(s, AnswerHuman(s, v, world)),
                slot.minted + {world.nonce}, slot.folded)
  {
    SoundComesBack(slot.session.value);
  }

  lemma MessageKeepsValid(slot: Slot, v: Value, world: World)
    requires Valid(slot) && slot.session.Some? && world.nonce !in slot.minted
    ensures Valid(Step(slot, Message(v, world)))
  {
    MessageUnfolds(slot, v, world);
    HumanKeepsValid(slot, v, world);
  }

  lemma StartIsSound(w: Writer, world: World)
    requires Proper(Begin(w, world))
    ensures Sound(Inspect(Start(w), world).session) && |Inspect(Start(w), world).session| == 1
  {
    InspectKeepsSound(Start(w), world);
  }

  lemma BeginUnfolds(slot: Slot, w: Writer, world: World)
    ensures Step(slot, Begin(w, world))
         == Slot(AfterBegin(slot.session, Inspect(Start(w), world)), slot.minted + {world.nonce}, slot.folded)
  {
  }

  lemma BeginKeepsValid(slot: Slot, w: Writer, world: World)
    requires Valid(slot) && Proper(Begin(w, world))
    ensures Valid(Step(slot, Begin(w, world)))
  {
    StartIsSound(w, world);
    BeginUnfolds(slot, w, world);
  }

  lemma StepKeepsValid(slot: Slot, ev: Event)
    requires Valid(slot) && Proper(ev) && Brings(ev) !! slot.minted
    ensures Valid(Step(slot, ev))
  {
    if ev.Begin? {
      BeginKeepsValid(slot, ev.writer, ev.world);
    } else if slot.session.Some? && !ev.Discard? {
      assert ev.world.nonce in Brings(ev);
      match ev
      case Message(v, world) => MessageKeepsValid(slot, v, world);
      case Human(v, world) => HumanKeepsValid(slot, v, world);
      case FieldAnswer(f, v, world) => FieldAnswerKeepsValid(slot, f, v, world);
      case Approval(ref, id, world) => ApprovalKeepsValid(slot, ref, id, world);
    }
  }

  // ---- every run ----

  /** In every run of the slot, through completions begun, messages, answers, re-inspections that mint again, approvals
      delivered late, twice, or for an older nonce, cancellations, and whatever is begun after them: the session is
      sound, and no nonce is ever folded twice. */
  lemma {:induction false} EachNonceFoldsAtMostOnce(slot: Slot, events: seq<Event>)
    requires Valid(slot) && FreshNonces(slot, events)
    ensures Valid(Run(slot, events))
    decreases |events|
  {
    if events != [] {
      StepKeepsValid(slot, events[0]);
      EachNonceFoldsAtMostOnce(Step(slot, events[0]), events[1..]);
    }
  }
}
