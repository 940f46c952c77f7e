/** The router as it runs: step by step over a session it replaces, with one effect, the calls it hands to the queue. */
module RouterMethods {
  import opened Prelude
  import opened Texts
  import opened CompletionEngine
  import opened CompletionAnswers
  import opened CompletionPayload
  import opened CommercialContracts
  import opened CommercialChecks
  import opened CommercialTranslation
  import opened CompletionSession
  import opened CompletionRouter

  method DeserializeSession(state: seq<StoredFrame>) returns (r: Option<Session>)
    ensures r == Deserialize(state)
  {
    var frames: seq<Frame> := [];
    assert state[0..] == state;
    for i := 0 to |state|
      invariant frames + LoadAll(state[i..]) == LoadAll(state)
    {
      assert LoadAll(state[i..]) == [Load(state[i])] + LoadAll(state[i + 1..]) by {
        assert state[i..][0] == state[i] && state[i..][1..] == state[i + 1..];
      }
      frames := frames + [Load(state[i])];
    }
    assert LoadAll(state[|state|..]) == [];
    assert frames == LoadAll(state);
    if frames == [] { return None; }
    r := Some(frames);
  }

  /** The queue calls a route stands for. */
  function CallsOf(r: Route): seq<QueueCall> { if r.verdict.Tool? then [r.verdict.call] else [] }

  function CallsOfRouted(r: Routed): seq<QueueCall> { if r.Routed? then CallsOf(r.route) else [] }

  class Router {
    var queued: seq<QueueCall>

    constructor ()
      ensures queued == []
    {
      queued := [];
    }

    method InspectSession(start: Session, world: World) returns (r: Route)
      modifies this
      ensures r == Inspect(start, world) && queued == old(queued) + CallsOf(r)
    {
      var s := start;
      var contextualized := TermContext(s, world.term);
      if contextualized == None { return Route(Block, s); }
      s := contextualized.value;
      var next := NextField(Active(s));
      if next.Some? { return Route(Clarify(next.value.name), s); }
      var hint: Option<Hint> := None;
      if |s| > 1 {
        s := Marked(s, world.nonce);
        hint := Some(Hint(Active(s).contract.entity, Top(s).returnField, world.nonce));
      }
      var w := Active(s);
      var payload := CompletePayload(w);
      if payload == None || !AllThere(payload.value, KeysOf(w.contract.entity))
         || !LinksGood(payload.value, LinksOf(w.contract.entity)) || world.queueFails {
        return Route(Block, s);
      }
      var call := QueueCall(w.contract.entity, payload.value, hint);
      queued := queued + [call];
      r := Route(Tool(call), s);
    }

    method AnswerSessionField(s: Session, f: Field, v: Value, world: World) returns (r: Route)
      modifies this
      ensures r == AnswerField(s, f, v, world) && queued == old(queued) + CallsOf(r)
    {
      var answered := Answer(s, f, v);
      if !answered.Done? { return Route(Block, s); }
      r := InspectSession(answered.session, world);
    }

    method AnswerHumanText(start: Session, v: Value, world: World) returns (r: Routed)
      modifies this
      ensures r == AnswerHuman(start, v, world) && queued == old(queued) + CallsOfRouted(r)
    {
      var s := start;
      var next := NextField(Active(s));
      if next == None {
        var route := InspectSession(s, world);
        return Routed(route);
      }
      var c := next.value;
      if v.Text? && LooseRecordId(Strip(v.s)) {
        var route := AnswerSessionField(s, c.name, Word(Strip(v.s)), world);
        return Routed(route);
      }
      var pending := Get(Active(s).current, PendingLinkChoice);
      if PendingOn(pending, c.name) {
        var cleared := Cleared(Active(s), PendingLinkChoice);
        s := Rebuilt(cleared);
        if Reply(v) in pending.tokens && pending.tokens[Reply(v)] != "" {
          var f := TargetField(c.name, IsOrganizationKind(Get(cleared.current, CounterpartyKind)));
          var route := AnswerSessionField(s, f, Word(pending.tokens[Reply(v)]), world);
          return Routed(route);
        }
      }
      r := AnswerOfferText(s, c, v, world);
    }

    method AnswerOfferText(s: Session, c: FieldContract, v: Value, world: World) returns (r: Routed)
      modifies this
      ensures r == AnswerOffer(s, c, v, world) && queued == old(queued) + CallsOfRouted(r)
    {
      var offer := Get(Active(s).current, PendingNestedCreate);
      if !OfferedOn(offer, c.name) {
        r := AnswerKindText(s, c, v, world);
        return;
      }
      var cleared := Rebuilt(Cleared(Active(s), PendingNestedCreate));
      if Reply(v) in ConfirmWords() {
        var nameField := NameField(offer.nested);
        if nameField == None { return Routed(Route(Block, cleared)); }
        var returnField := TargetField(c.name, offer.nested == OrganizationEntity);
        var nested := BeginNested(cleared, ContractOf(offer.nested), returnField, map[nameField.value := Word(offer.candidate)], map[]);
        if !nested.Done? { return Raised; }
        var route := InspectSession(nested.session, world);
        return Routed(route);
      }
      if Reply(v) in DeclineWords() { return Routed(Route(Clarify(c.name), cleared)); }
      r := Routed(Route(Clarify(c.name), s));
    }

    method AnswerKindText(s: Session, c: FieldContract, v: Value, world: World) returns (r: Routed)
      modifies this
      ensures r == AnswerKind(s, c, v, world) && queued == old(queued) + CallsOfRouted(r)
    {
      if c.name == CounterpartyContact && Folded(Reply(v)) in OrganizationWords() {
        return Routed(Route(Clarify(c.name), Rebuilt(Put(Active(s), CounterpartyKind, Word("organization")))));
      }
      if c.name == CounterpartyContact && Folded(Reply(v)) in ContactWords() {
        return Routed(Route(Clarify(c.name), Rebuilt(Put(Active(s), CounterpartyKind, Word("contact")))));
      }
      if c.rule.input != Link {
        var route := AnswerSessionField(s, c.name, v, world);
        return Routed(route);
      }
      if !world.lookup { return Routed(Route(Block, s)); }
      if world.resolution.One? {
        var organization := CreatableTarget(c.name, Active(s)) == Some(OrganizationEntity);
        var route := AnswerSessionField(s, TargetField(c.name, organization), Word(world.resolution.id), world);
        return Routed(route);
      }
      r := AnswerName(s, c, v, world);
    }
  }
}
