/** Stacks of nested completions: a Contact or Organization completed inside the entity that needs it, and folded back. */
module CompletionSession {
  import opened Prelude
  import opened Texts
  import opened CompletionEngine
  import opened CompletionAnswers
  import opened CommercialContracts
  import opened ContractLaws

  datatype Frame = Frame(writer: Writer, returnField: Option<Field>)

  type Session = s: seq<Frame> | s != []
    witness [Frame(Writer(EntityContract(DealEntity, [], [], false), map[], map[], map[]), None)]

  function Start(w: Writer): Session { [Frame(w, None)] }

  function Top(s: Session): Frame { s[|s| - 1] }

  function Active(s: Session): Writer { Top(s).writer }

  function WithTop(s: Session, w: Writer): Session { s[|s| - 1 := Top(s).(writer := w)] }

  /** What the source raises, or the session it returns. */
  datatype Outcome = Done(session: Session) | Blocked | Unknown | Invalid

  function Answer(s: Session, f: Field, v: Value): Outcome {
    match ApplyAnswer(Active(s), f, v)
    case Applied(w) => Done(WithTop(s, w))
    case UnknownField => Unknown
    case InvalidValue => Invalid
  }

  /** A child completion that will return into a link field of the active entity. */
  function BeginNested(s: Session, child: EntityContract, returnField: Field, current: Values, source: ContextValues): Outcome {
    match FindField(Active(s).contract.fields, returnField)
    case None => Unknown
    case Some(c) =>
      if c.rule.input != Link then Blocked
      else Done(s + [Frame(Writer(child, current, source, Active(s).identity), Some(returnField))])
  }

  /** Pop the completed child and put its record id into the parent's link field. */
  function ResumeParent(s: Session, id: string): Outcome {
    if |s| < 2 || !Complete(Active(s)) then Blocked
    else
      match Top(s).returnField
      case None => Unknown
      case Some(f) => Answer(s[..|s| - 1], f, Word(id))
  }

  /** Pop the child and touch nothing of the parent. */
  function AbandonNested(s: Session): Outcome { if |s| < 2 then Blocked else Done(s[..|s| - 1]) }

  // ---- a child and its parent ----

  /** Answers given to the active entity one after the other; those not accepted change nothing. */
  function AnswerMany(s: Session, answers: seq<(Field, Value)>): Session
    decreases |answers|
  {
    if answers == [] then s
    else match Answer(s, answers[0].0, answers[0].1)
      case Done(s1) => AnswerMany(s1, answers[1..])
      case _ => AnswerMany(s, answers[1..])
  }

  lemma {:induction false} AnswersStayOnTop(s: Session, answers: seq<(Field, Value)>)
    ensures var s1 := AnswerMany(s, answers);
      |s1| == |s| && s1[..|s| - 1] == s[..|s| - 1] && Top(s1).returnField == Top(s).returnField
    decreases |answers|
  {
    if answers != [] {
      var given := Answer(s, answers[0].0, answers[0].1);
      AnswersStayOnTop(if given.Done? then given.session else s, answers[1..]);
    }
  }

  /** Abandoning a child restores the parent exactly, whatever was answered in between and however deep the stack. */
  lemma AbandonUndoesBegin(
    s: Session, child: EntityContract, returnField: Field, current: Values, source: ContextValues,
    answers: seq<(Field, Value)>)
    requires BeginNested(s, child, returnField, current, source).Done?
    ensures AbandonNested(AnswerMany(BeginNested(s, child, returnField, current, source).session, answers)) == Done(s)
  {
    var nested := BeginNested(s, child, returnField, current, source).session;
    AnswersStayOnTop(nested, answers);
    assert nested[..|s|] == s;
  }

  /** Resuming does exactly one thing: it sets the link field the child was begun for, to the given id. */
  lemma ResumeSetsOneField(
    s: Session, child: EntityContract, returnField: Field, current: Values, source: ContextValues,
    answers: seq<(Field, Value)>, id: string)
    requires WellFormed(Active(s).contract)
    requires BeginNested(s, child, returnField, current, source).Done?
    ensures var s1 := AnswerMany(BeginNested(s, child, returnField, current, source).session, answers);
      var r := ResumeParent(s1, id);
      && (r.Done? ==> r.session == WithTop(s, Active(s).(current := Active(s).current[returnField := Word(id)])))
      && (r.Done? ==> Complete(Active(s1)) && LooseRecordId(id))
      && (Complete(Active(s1)) && LooseRecordId(id) && FindField(Active(s).contract.fields, returnField).value.rule.manual ==> r.Done?)
  {
    var nested := BeginNested(s, child, returnField, current, source).session;
    AnswersStayOnTop(nested, answers);
    assert nested[..|s|] == s;
    var s1 := AnswerMany(nested, answers);
    assert s1[..|s1| - 1] == s;
  }

  // ---- persistence ----

  datatype StoredFrame = StoredFrame(
    entity: Entity, current: Values, source: ContextValues, identity: ContextValues, returnField: Option<Field>)

  function Store(f: Frame): StoredFrame {
    StoredFrame(f.writer.contract.entity, f.writer.current, f.writer.source, f.writer.identity, f.returnField)
  }

  function Load(f: StoredFrame): Frame {
    Frame(Writer(ContractOf(f.entity), f.current, f.source, f.identity), f.returnField)
  }

  function Serialize(s: seq<Frame>): (r: seq<StoredFrame>)
    ensures |r| == |s|
  {
    if s == [] then [] else [Store(s[0])] + Serialize(s[1..])
  }

  function LoadAll(state: seq<StoredFrame>): (r: seq<Frame>)
    ensures |r| == |state|
  {
    if state == [] then [] else [Load(state[0])] + LoadAll(state[1..])
  }

  /** An empty state is refused. */
  function Deserialize(state: seq<StoredFrame>): Option<Session> {
    if state == [] then None else Some(LoadAll(state))
  }

  ghost predicate DefaultContracts(s: seq<Frame>) {
    forall i :: 0 <= i < |s| ==> s[i].writer.contract == ContractOf(s[i].writer.contract.entity)
  }

  lemma {:induction false} LoadedAsStored(s: seq<Frame>)
    ensures LoadAll(Serialize(s)) == s <==> DefaultContracts(s)
    decreases |s|
  {
    if s != [] {
      LoadedAsStored(s[1..]);
      assert Serialize(s)[1..] == Serialize(s[1..]);
      assert LoadAll(Serialize(s))[1..] == LoadAll(Serialize(s[1..]));
      assert LoadAll(Serialize(s))[0] == Load(Store(s[0]));
      if DefaultContracts(s) {
        assert forall i :: 0 <= i < |s[1..]| ==> s[1..][i] == s[i + 1];
        assert s == [s[0]] + s[1..];
      }
      if LoadAll(Serialize(s)) == s {
        assert Load(Store(s[0])) == s[0];
        assert LoadAll(Serialize(s[1..])) == s[1..];
        forall i | 0 <= i < |s| ensures s[i].writer.contract == ContractOf(s[i].writer.contract.entity) {
          if i > 0 { assert s[1..][i - 1] == s[i]; }
        }
      }
    }
  }

  /** A session survives being stored and read back exactly when its contracts are the standing ones. */
  lemma StoredSessionsComeBackExactly(s: Session)
    ensures Deserialize(Serialize(s)) == Some(s) <==> DefaultContracts(s)
  {
    LoadedAsStored(s);
  }

  // ---- the pointer an approval carries ----

  datatype ContinuationRef = ContinuationRef(
    version: int, kind: string, sessionKey: string, channel: string, nestedEntity: string, returnField: string, nonce: string)

  /** A dictionary that may lack entries. */
  datatype RefEntries = RefEntries(
    version: Option<int>, kind: Option<string>, sessionKey: Option<string>, channel: Option<string>,
    nestedEntity: Option<string>, returnField: Option<string>, nonce: Option<string>)

  const REF_VERSION := 1
  const REF_KIND := "commercial_completion"

  function ToEntries(r: ContinuationRef): RefEntries {
    RefEntries(Some(r.version), Some(r.kind), Some(r.sessionKey), Some(r.channel), Some(r.nestedEntity), Some(r.returnField),
               Some(r.nonce))
  }

  predicate Filled(o: Option<string>) { o.Some? && o.value != "" }

  function FromEntries(raw: Option<RefEntries>): Option<ContinuationRef> {
    if raw == None || raw.value.version != Some(REF_VERSION) || raw.value.kind != Some(REF_KIND) then None
    else
      var e := raw.value;
      if Filled(e.sessionKey) && Filled(e.channel) && Filled(e.nestedEntity) && Filled(e.returnField) && Filled(e.nonce)
      then Some(ContinuationRef(REF_VERSION, REF_KIND, e.sessionKey.value, e.channel.value, e.nestedEntity.value,
                                e.returnField.value, e.nonce.value))
      else None
  }

  predicate Canonical(r: ContinuationRef) {
    && r.version == REF_VERSION && r.kind == REF_KIND
    && r.sessionKey != "" && r.channel != "" && r.nestedEntity != "" && r.returnField != "" && r.nonce != ""
  }

  /** A pointer is read back as itself exactly when it is a canonical one with nothing empty, and whatever is read is
      such a pointer and writes the very entries it was read from. */
  lemma ReferencesRoundTripExactly(r: ContinuationRef, raw: RefEntries)
    ensures FromEntries(Some(ToEntries(r))) == Some(r) <==> Canonical(r)
    ensures FromEntries(Some(ToEntries(r))) == None <==> !Canonical(r)
    ensures FromEntries(Some(raw)).Some? ==> Canonical(FromEntries(Some(raw)).value) && ToEntries(FromEntries(Some(raw)).value) == raw
  {
  }
}
