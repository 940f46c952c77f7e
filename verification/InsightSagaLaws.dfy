/** What every run of the link saga keeps, whatever the store does. */
module InsightSagaLaws {
  import opened Prelude
  import opened Texts
  import opened InsightContent
  import opened InsightTables
  import opened StoreOutcomes
  import opened InsightSaga

  // ---- rows and their places ----

  /** Row i of the table, when there is one, is an Inbox record of the insight. */
  predicate InboxAt(rows: seq<Inbox>, i: int, id: Id, insight: string) {
    0 <= i < |rows| && rows[i].id == id && Marked(rows[i].raw, insight)
  }

  ghost predicate IsInbox(rows: seq<Inbox>, id: Id, insight: string) { exists i :: InboxAt(rows, i, id, insight) }

  predicate EventAt(rows: seq<Event>, i: int, id: Id, insight: string, decision: Id) {
    0 <= i < |rows| && rows[i].id == id && EventOf(rows[i], insight, decision)
  }

  ghost predicate IsEvent(rows: seq<Event>, id: Id, insight: string, decision: Id) {
    exists i :: EventAt(rows, i, id, insight, decision)
  }

  lemma IsInboxAppend(rows: seq<Inbox>, r: Inbox, id: Id, insight: string)
    requires IsInbox(rows, id, insight) || (r.id == id && Marked(r.raw, insight))
    ensures IsInbox(rows + [r], id, insight)
  {
    if IsInbox(rows, id, insight) {
      var i :| InboxAt(rows, i, id, insight);
      assert InboxAt(rows + [r], i, id, insight);
    } else {
      assert InboxAt(rows + [r], |rows|, id, insight);
    }
  }

  lemma IsEventAppend(rows: seq<Event>, r: Event, id: Id, insight: string, d: Id)
    requires IsEvent(rows, id, insight, d) || (r.id == id && EventOf(r, insight, d))
    ensures IsEvent(rows + [r], id, insight, d)
  {
    if IsEvent(rows, id, insight, d) {
      var i :| EventAt(rows, i, id, insight, d);
      assert EventAt(rows + [r], i, id, insight, d);
    } else {
      assert EventAt(rows + [r], |rows|, id, insight, d);
    }
  }

  lemma InboxForIsInbox(db: Db, insight: string)
    requires InboxFor(db, insight).Some?
    ensures IsInbox(db.inboxes, InboxFor(db, insight).value.id, insight)
  {
    InboxForIsFound(db, insight);
    var i :| 0 <= i < |db.inboxes| && db.inboxes[i] == InboxFor(db, insight).value;
    assert InboxAt(db.inboxes, i, InboxFor(db, insight).value.id, insight);
  }

  lemma EventForIsEvent(db: Db, insight: string, d: Id)
    requires EventFor(db, insight, d).Some?
    ensures IsEvent(db.events, EventFor(db, insight, d).value.id, insight, d)
  {
    EventForIsFound(db, insight, d);
    var i :| 0 <= i < |db.events| && db.events[i] == EventFor(db, insight, d).value;
    assert EventAt(db.events, i, EventFor(db, insight, d).value.id, insight, d);
  }

  lemma IsEventIsFound(db: Db, id: Id, insight: string, d: Id)
    requires IsEvent(db.events, id, insight, d)
    ensures EventFor(db, insight, d).Some?
  {
    var i :| EventAt(db.events, i, id, insight, d);
    FoundEvents(db.events, insight, d);
    assert db.events[i] in FindEvents(db.events, insight, d);
    EventForIsFound(db, insight, d);
  }

  // ---- one add ----

  lemma AddInboxValid(db: Db, raw: string, o: AddOutcome)
    requires ValidDb(db)
    ensures ValidDb(AddInbox(db, raw, o))
  {
  }

  lemma AddInboxFacts(db: Db, raw: string, insight: string, o: AddOutcome)
    requires Marked(raw, insight)
    ensures |FindInboxes(AddInbox(db, raw, o).inboxes, insight)| == |FindInboxes(db.inboxes, insight)| + One(Writes(o))
    ensures Writes(o) ==> IsInbox(AddInbox(db, raw, o).inboxes, db.clock, insight)
  {
    if Writes(o) {
      var r := Inbox(db.clock, db.clock, raw, Pending, [], []);
      FindInboxesAppend(db.inboxes, r, insight);
      IsInboxAppend(db.inboxes, r, db.clock, insight);
    }
  }

  lemma AddEventValid(db: Db, raw: string, d: Id, o: AddOutcome)
    requires ValidDb(db)
    ensures ValidDb(AddEvent(db, raw, d, o))
  {
  }

  lemma AddEventFacts(db: Db, v: InsightView, d: Id, o: AddOutcome, of: Id)
    requires RecordId(v.recordId)
    ensures |FindEvents(AddEvent(db, Compose(v), d, o).events, v.recordId, of)|
         == |FindEvents(db.events, v.recordId, of)| + One(Writes(o) && of == d)
    ensures Writes(o) ==> IsEvent(AddEvent(db, Compose(v), d, o).events, db.clock, v.recordId, d)
  {
    if Writes(o) {
      ComposedContentIsFound(v);
      var e := Event(db.clock, db.clock, Compose(v), [d]);
      FindEventsAppend(db.events, e, v.recordId, of);
      IsEventAppend(db.events, e, db.clock, v.recordId, d);
    }
  }

  // ---- W1 ----

  function One(b: bool): nat { if b then 1 else 0 }

  /** How many records the two adds of a step write when nothing was there before: the second happens only after an
      unknown outcome whose record the re-check did not see. */
  function Adds(first: AddOutcome, recheck: bool, second: AddOutcome): nat {
    One(Writes(first)) + One(Unknown(first) && !(recheck && first == UnknownWritten) && Writes(second))
  }

  function InboxesWritten(db: Db, v: InsightView, w: Weather): nat {
    if !w.inboxRead || InboxFor(db, v.recordId).Some? then 0 else Adds(w.inboxAdd, w.inboxRecheck, w.inboxAddAgain)
  }

  lemma FoundIffSome(db: Db, insight: string)
    ensures InboxFor(db, insight).Some? <==> |FindInboxes(db.inboxes, insight)| > 0
    ensures InboxFor(db, insight).Some? ==> IsInbox(db.inboxes, InboxFor(db, insight).value.id, insight)
  {
    InboxForIsFound(db, insight);
    if InboxFor(db, insight).Some? { InboxForIsInbox(db, insight); }
  }

  lemma FirstInboxFacts(db: Db, v: InsightView, o: AddOutcome)
    requires ValidDb(db) && RecordId(v.recordId) && InboxFor(db, v.recordId) == None
    ensures var db1 := AddInbox(db, Compose(v), o);
      && ValidDb(db1)
      && |FindInboxes(db1.inboxes, v.recordId)| == One(Writes(o))
      && (InboxFor(db1, v.recordId).Some? <==> Writes(o))
      && (Writes(o) ==>
            IsInbox(db1.inboxes, db.clock, v.recordId)
            && IsInbox(db1.inboxes, InboxFor(db1, v.recordId).value.id, v.recordId))
  {
    FoundIffSome(db, v.recordId);
    AddInboxValid(db, Compose(v), o);
    ComposedContentIsFound(v);
    AddInboxFacts(db, Compose(v), v.recordId, o);
    FoundIffSome(AddInbox(db, Compose(v), o), v.recordId);
  }

  lemma SettleInboxFacts(db: Db, v: InsightView, w: Weather)
    requires ValidDb(db) && RecordId(v.recordId)
    ensures var (db1, reply) := SettleInbox(db, v, w);
      && ValidDb(db1) && db1.decisions == db.decisions && db1.events == db.events
      && |FindInboxes(db1.inboxes, v.recordId)| == |FindInboxes(db.inboxes, v.recordId)|
           + One(!(w.inboxRecheck && InboxFor(db, v.recordId).Some?) && Writes(w.inboxAddAgain))
      && (reply.AddedAs? ==> IsInbox(db1.inboxes, reply.id, v.recordId))
  {
    FoundIffSome(db, v.recordId);
    if !(w.inboxRecheck && InboxFor(db, v.recordId).Some?) {
      AddInboxValid(db, Compose(v), w.inboxAddAgain);
      ComposedContentIsFound(v);
      AddInboxFacts(db, Compose(v), v.recordId, w.inboxAddAgain);
      assert SettleInbox(db, v, w) == (AddInbox(db, Compose(v), w.inboxAddAgain), ReplyTo(w.inboxAddAgain, db.clock));
    }
  }

  lemma PlaceInboxFacts(db: Db, v: InsightView, w: Weather)
    requires ValidDb(db) && RecordId(v.recordId) && InboxFor(db, v.recordId) == None
    ensures var (db1, reply) := PlaceInbox(db, v, w);
      && ValidDb(db1) && db1.decisions == db.decisions && db1.events == db.events
      && |FindInboxes(db1.inboxes, v.recordId)| == Adds(w.inboxAdd, w.inboxRecheck, w.inboxAddAgain)
      && (reply.AddedAs? ==> IsInbox(db1.inboxes, reply.id, v.recordId))
  {
    FirstInboxFacts(db, v, w.inboxAdd);
    if Unknown(w.inboxAdd) { SettleInboxFacts(AddInbox(db, Compose(v), w.inboxAdd), v, w); }
  }

  /** The Inbox step writes exactly that many records, and holds an Inbox record of its insight. */
  lemma InboxStepWrites(db: Db, v: InsightView, w: Weather)
    requires ValidDb(db) && RecordId(v.recordId)
    ensures var (db1, h) := RunInbox(db, v, w);
      && ValidDb(db1) && db1.decisions == db.decisions && db1.events == db.events
      && |FindInboxes(db1.inboxes, v.recordId)| == |FindInboxes(db.inboxes, v.recordId)| + InboxesWritten(db, v, w)
      && (h.Hold? ==> IsInbox(db1.inboxes, h.id, v.recordId))
  {
    FoundIffSome(db, v.recordId);
    if w.inboxRead && InboxFor(db, v.recordId) == None {
      PlaceInboxFacts(db, v, w);
      FoundIffSome(PlaceInbox(db, v, w).0, v.recordId);
    }
  }

  // ---- an Inbox update ----

  ghost predicate KeepsIdentity(f: Inbox -> Inbox) {
    forall r :: f(r).raw == r.raw && f(r).id == r.id && f(r).created == r.created
  }

  lemma UpdateValid(db: Db, id: Id, f: Inbox -> Inbox, u: UpdateOutcome)
    requires ValidDb(db) && KeepsIdentity(f)
    ensures ValidDb(ApplyToInbox(db, id, f, u))
  {
    if u.applied { UpdateInboxesAt(db.inboxes, id, f); }
  }

  lemma UpdateKeepsInboxes(rows: seq<Inbox>, id: Id, f: Inbox -> Inbox, insight: string)
    requires KeepsIdentity(f)
    ensures |FindInboxes(UpdateInboxes(rows, id, f), insight)| == |FindInboxes(rows, insight)|
  {
    UpdateKeepsSearch(rows, id, f, insight);
    UpdateInboxesAt(FindInboxes(rows, insight), id, f);
  }

  lemma UpdateKeepsInbox(rows: seq<Inbox>, id: Id, f: Inbox -> Inbox, insight: string, held: Id)
    requires KeepsIdentity(f) && IsInbox(rows, held, insight)
    ensures IsInbox(UpdateInboxes(rows, id, f), held, insight)
  {
    UpdateInboxesAt(rows, id, f);
    var k :| InboxAt(rows, k, held, insight);
    assert InboxAt(UpdateInboxes(rows, id, f), k, held, insight);
  }

  // ---- W2 ----

  lemma AddDecisionFacts(db: Db, title: string, o: AddOutcome)
    requires ValidDb(db)
    ensures ValidDb(AddDecision(db, title, o))
    ensures AddDecision(db, title, o).inboxes == db.inboxes && AddDecision(db, title, o).events == db.events
  {
  }

  lemma CreateDecisionFacts(db: Db, v: InsightView, inbox: Id, w: Weather)
    requires ValidDb(db) && IsInbox(db.inboxes, inbox, v.recordId)
    ensures var db1 := ApplyToInbox(AddDecision(db, Title(v), Created), inbox, Suggest(db.clock), w.preLink);
      && ValidDb(db1)
      && |FindInboxes(db1.inboxes, v.recordId)| == |FindInboxes(db.inboxes, v.recordId)|
      && IsInbox(db1.inboxes, inbox, v.recordId)
      && HasDecision(db1.decisions, db.clock)
  {
    var db1 := AddDecision(db, Title(v), Created);
    assert db1.decisions[|db.decisions|].id == db.clock;
    UpdateValid(db1, inbox, Suggest(db.clock), w.preLink);
    UpdateKeepsInboxes(db.inboxes, inbox, Suggest(db.clock), v.recordId);
    UpdateKeepsInbox(db.inboxes, inbox, Suggest(db.clock), v.recordId, inbox);
  }

  lemma DecisionStepFacts(db: Db, v: InsightView, target: Target, inbox: Held, w: Weather)
    requires ValidDb(db) && inbox.Hold? && IsInbox(db.inboxes, inbox.id, v.recordId)
    ensures var (db1, h) := RunDecision(db, v, target, inbox, w);
      && ValidDb(db1)
      && |FindInboxes(db1.inboxes, v.recordId)| == |FindInboxes(db.inboxes, v.recordId)|
      && IsInbox(db1.inboxes, inbox.id, v.recordId)
      && db1.events == db.events
      && (h.Hold? && target == NewDecision ==> HasDecision(db1.decisions, h.id))
      && (h.Hold? && target != NewDecision ==> h.id == target.id)
  {
    AddDecisionFacts(db, Title(v), w.decisionAdd);
    CreateDecisionFacts(db, v, inbox.id, w);
  }

  // ---- W3 ----

  function EventsWritten(db: Db, v: InsightView, d: Id, w: Weather): nat {
    if !w.eventRead || EventFor(db, v.recordId, d).Some? then 0 else Adds(w.eventAdd, w.eventRecheck, w.eventAddAgain)
  }

  lemma EventFoundIffSome(db: Db, insight: string, d: Id)
    ensures EventFor(db, insight, d).Some? <==> |FindEvents(db.events, insight, d)| > 0
    ensures EventFor(db, insight, d).Some? ==> IsEvent(db.events, EventFor(db, insight, d).value.id, insight, d)
  {
    EventForIsFound(db, insight, d);
    if EventFor(db, insight, d).Some? { EventForIsEvent(db, insight, d); }
  }

  lemma FirstEventFacts(db: Db, v: InsightView, d: Id, o: AddOutcome)
    requires ValidDb(db) && RecordId(v.recordId) && EventFor(db, v.recordId, d) == None
    ensures var db1 := AddEvent(db, Compose(v), d, o);
      && ValidDb(db1)
      && |FindEvents(db1.events, v.recordId, d)| == One(Writes(o))
      && (EventFor(db1, v.recordId, d).Some? <==> Writes(o))
      && (Writes(o) ==> IsEvent(db1.events, db.clock, v.recordId, d))
  {
    EventFoundIffSome(db, v.recordId, d);
    AddEventValid(db, Compose(v), d, o);
    AddEventFacts(db, v, d, o, d);
    EventFoundIffSome(AddEvent(db, Compose(v), d, o), v.recordId, d);
  }

  lemma SettleEventFacts(db: Db, v: InsightView, d: Id, w: Weather)
    requires ValidDb(db) && RecordId(v.recordId)
    ensures var (db1, reply) := SettleEvent(db, v, d, w);
      && ValidDb(db1) && db1.decisions == db.decisions && db1.inboxes == db.inboxes
      && |FindEvents(db1.events, v.recordId, d)| == |FindEvents(db.events, v.recordId, d)|
           + One(!(w.eventRecheck && EventFor(db, v.recordId, d).Some?) && Writes(w.eventAddAgain))
      && (reply.AddedAs? ==> IsEvent(db1.events, reply.id, v.recordId, d))
  {
    EventFoundIffSome(db, v.recordId, d);
    AddEventValid(db, Compose(v), d, w.eventAddAgain);
    AddEventFacts(db, v, d, w.eventAddAgain, d);
  }

  lemma PlaceEventFacts(db: Db, v: InsightView, d: Id, w: Weather)
    requires ValidDb(db) && RecordId(v.recordId) && EventFor(db, v.recordId, d) == None
    ensures var (db1, reply) := PlaceEvent(db, v, d, w);
      && ValidDb(db1) && db1.decisions == db.decisions && db1.inboxes == db.inboxes
      && |FindEvents(db1.events, v.recordId, d)| == Adds(w.eventAdd, w.eventRecheck, w.eventAddAgain)
      && (reply.AddedAs? ==> IsEvent(db1.events, reply.id, v.recordId, d))
  {
    FirstEventFacts(db, v, d, w.eventAdd);
    if Unknown(w.eventAdd) { SettleEventFacts(AddEvent(db, Compose(v), d, w.eventAdd), v, d, w); }
  }

  /** The Event step writes exactly that many records, and holds an Event of its insight and decision. */
  lemma EventStepWrites(db: Db, v: InsightView, d: Id, w: Weather)
    requires ValidDb(db) && RecordId(v.recordId)
    ensures var (db1, h) := RunEvent(db, v, d, w);
      && ValidDb(db1) && db1.decisions == db.decisions && db1.inboxes == db.inboxes
      && |FindEvents(db1.events, v.recordId, d)| == |FindEvents(db.events, v.recordId, d)| + EventsWritten(db, v, d, w)
      && (h.Hold? ==> IsEvent(db1.events, h.id, v.recordId, d))
  {
    EventFoundIffSome(db, v.recordId, d);
    if w.eventRead && EventFor(db, v.recordId, d) == None {
      PlaceEventFacts(db, v, d, w);
      EventFoundIffSome(PlaceEvent(db, v, d, w).0, v.recordId, d);
    }
  }

  // ---- W4 ----

  /** A verified link is a link of the held Inbox record, whose text carries the insight's marker. */
  lemma LinkStepFacts(db: Db, v: InsightView, inbox: Id, d: Id, e: Id, w: Weather)
    requires ValidDb(db) && IsInbox(db.inboxes, inbox, v.recordId)
    ensures var (db1, linked) := RunLink(db, inbox, d, e, w);
      && ValidDb(db1) && db1.decisions == db.decisions && db1.events == db.events
      && |FindInboxes(db1.inboxes, v.recordId)| == |FindInboxes(db.inboxes, v.recordId)|
      && IsInbox(db1.inboxes, inbox, v.recordId)
      && (linked ==> Verified(db1, inbox, d, e))
  {
    UpdateValid(db, inbox, LinkUp(d, e), w.link);
    UpdateKeepsInboxes(db.inboxes, inbox, LinkUp(d, e), v.recordId);
    UpdateKeepsInbox(db.inboxes, inbox, LinkUp(d, e), v.recordId, inbox);
  }

  lemma HeldInboxIsMarked(db: Db, inbox: Id, insight: string)
    requires ValidDb(db) && IsInbox(db.inboxes, inbox, insight)
    ensures GetInbox(db.inboxes, inbox).Some? && Marked(GetInbox(db.inboxes, inbox).value.raw, insight)
  {
    var k :| InboxAt(db.inboxes, k, inbox, insight);
    GetInboxIsThere(db.inboxes, db.inboxes[k]);
  }

  // ---- the shape of a report ----

  /** Four steps in order: those that passed, then at most one that failed, then only skipped ones; and the report
      names a record for each of the first three steps that passed, and for no other. */
  predicate WellShaped(r: LinkResult, k: nat) {
    && |r.steps| == 4
    && k <= 4
    && (forall i :: 0 <= i < 4 ==> r.steps[i].0 == StepNames[i])
    && (forall i :: 0 <= i < k ==> Passed(r.steps[i].1))
    && (k < 4 ==> r.steps[k].1 == StepFailed)
    && (forall i :: k < i < 4 ==> r.steps[i].1 == Skipped)
    && (r.inboxId.Some? <==> k >= 1)
    && (r.decisionId.Some? <==> k >= 2)
    && (r.eventId.Some? <==> k >= 3)
  }

  lemma StopStepsShape(done: seq<(StepName, StepStatus)>)
    requires |done| < 4
    ensures |StopSteps(done)| == 4
    ensures StopSteps(done)[..|done|] == done && StopSteps(done)[|done|] == (StepNames[|done|], StepFailed)
    ensures forall i :: |done| < i < 4 ==> StopSteps(done)[i] == (StepNames[i], Skipped)
  {
    assert SkipFrom(4) == [];
    assert SkipFrom(3) == [(LinkStep, Skipped)];
    assert SkipFrom(2) == [(EventStep, Skipped), (LinkStep, Skipped)];
    assert SkipFrom(1) == [(DecisionStep, Skipped), (EventStep, Skipped), (LinkStep, Skipped)];
  }

  lemma HeldPassed(db: Db, v: InsightView, target: Target, inbox: Held, d: Id, w: Weather)
    ensures RunInbox(db, v, w).1.Hold? ==> Passed(RunInbox(db, v, w).1.status)
    ensures inbox.Hold? && RunDecision(db, v, target, inbox, w).1.Hold? ==> Passed(RunDecision(db, v, target, inbox, w).1.status)
    ensures RunEvent(db, v, d, w).1.Hold? ==> Passed(RunEvent(db, v, d, w).1.status)
  {
  }
}
