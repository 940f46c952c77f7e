/** When a run of the link saga on a well-behaved store completes, what a partial run towards an existing decision
    leaves possible, and that no run touches another insight's records. */
module InsightSagaProgress {
  import opened Prelude
  import opened Texts
  import opened InsightContent
  import opened InsightTables
  import opened StoreOutcomes
  import opened InsightSaga
  import opened InsightSagaLaws
  import opened InsightSagaHolds
  import opened InsightSagaRuns
  import opened InsightSagaReruns
  import opened InsightSagaTexts

  /** What a caller can check before the run. */
  predicate CanComplete(db: Db, v: InsightView, target: Target) {
    match InboxFor(db, v.recordId)
    case None => target.ExistingDecision? || !OpenTitle(db.decisions, Title(v))
    case Some(r) =>
      && r.status != Rejected
      && match target
         case ExistingDecision(d) => r.suggested == [] || d in r.suggested
         case NewDecision =>
           if r.suggested == [] then !OpenTitle(db.decisions, Title(v)) else HasDecision(db.decisions, r.suggested[0])
  }

  predicate Passes(db: Db, v: InsightView, target: Target, w: Weather) {
    var (db1, inbox) := RunInbox(db, v, w);
    inbox.Hold? && RunDecision(db1, v, target, inbox, w).1.Hold?
  }

  lemma FairFirstInbox(db: Db, v: InsightView)
    requires ValidDb(db) && RecordId(v.recordId) && InboxFor(db, v.recordId) == None
    ensures ConvergeInbox(AddInbox(db, Compose(v), Created), v, db.clock, Fair) == Hold(db.clock, Ok, [])
  {
    ComposedContentIsFound(v);
    FirstAddIsFound(db, Compose(v), Created, v.recordId);
  }

  lemma FairInboxStep(db: Db, v: InsightView)
    requires ValidDb(db) && RecordId(v.recordId)
    ensures RunInbox(db, v, Fair).1 ==
      match InboxFor(db, v.recordId)
      case None => Hold(db.clock, Ok, [])
      case Some(r) => if r.status == Rejected then Stop else Hold(r.id, Reused, r.suggested)
  {
    if InboxFor(db, v.recordId) == None { FairFirstInbox(db, v); }
  }

  lemma FairPasses(db: Db, v: InsightView, target: Target)
    requires ValidDb(db) && RecordId(v.recordId)
    ensures Passes(db, v, target, Fair) <==> CanComplete(db, v, target)
  {
    FairInboxStep(db, v);
    InboxStepWrites(db, v, Fair);
  }

  lemma FairEventStep(db: Db, v: InsightView, d: Id)
    requires ValidDb(db) && RecordId(v.recordId)
    ensures RunEvent(db, v, d, Fair).1.Hold?
  {
  }

  lemma FairLinkStep(db: Db, v: InsightView, inbox: Id, d: Id, e: Id)
    requires ValidDb(db) && IsInbox(db.inboxes, inbox, v.recordId)
    ensures RunLink(db, inbox, d, e, Fair).1
  {
    HeldInboxIsMarked(db, inbox, v.recordId);
    GetAfterUpdate(db.inboxes, inbox, LinkUp(d, e));
  }

  lemma FairFromEvent(db: Db, v: InsightView, inbox: Id, d: Id, done: seq<(StepName, StepStatus)>)
    requires ValidDb(db) && RecordId(v.recordId) && IsInbox(db.inboxes, inbox, v.recordId)
    requires |done| == 2 && PassedInOrder(done)
    ensures Complete(FromEvent(db, v, inbox, d, done, Fair).1)
  {
    EventStepWrites(db, v, d, Fair);
    FairEventStep(db, v, d);
    var (db1, event) := RunEvent(db, v, d, Fair);
    FairLinkStep(db1, v, inbox, d, event.id);
    FromEventShape(db, v, inbox, d, done, Fair);
  }

  lemma FromDecisionUnfolds(db: Db, v: InsightView, target: Target, inbox: Held, done: seq<(StepName, StepStatus)>, w: Weather)
    requires inbox.Hold? && |done| == 1 && RunDecision(db, v, target, inbox, w).1.Hold?
    ensures var (db1, decision) := RunDecision(db, v, target, inbox, w);
      FromDecision(db, v, target, inbox, done, w)
        == FromEvent(db1, v, inbox.id, decision.id, done + [(DecisionStep, decision.status)], w)
  {
  }

  lemma FairFromDecision(db: Db, v: InsightView, target: Target, inbox: Held, done: seq<(StepName, StepStatus)>)
    requires ValidDb(db) && RecordId(v.recordId) && inbox.Hold? && IsInbox(db.inboxes, inbox.id, v.recordId)
    requires |done| == 1 && PassedInOrder(done) && RunDecision(db, v, target, inbox, Fair).1.Hold?
    ensures Complete(FromDecision(db, v, target, inbox, done, Fair).1)
  {
    FromDecisionUnfolds(db, v, target, inbox, done, Fair);
    DecisionStepFacts(db, v, target, inbox, Fair);
    HeldPassed(db, v, target, inbox, 0, Fair);
    var (db1, decision) := RunDecision(db, v, target, inbox, Fair);
    FairFromEvent(db1, v, inbox.id, decision.id, done + [(DecisionStep, decision.status)]);
  }

  lemma PassingRunCompletes(db: Db, v: InsightView, target: Target)
    requires ValidDb(db) && RecordId(v.recordId) && Passes(db, v, target, Fair)
    ensures Complete(Execute(db, v, target, Fair).1)
  {
    InboxStepWrites(db, v, Fair);
    var (db1, inbox) := RunInbox(db, v, Fair);
    HeldPassed(db, v, target, inbox, 0, Fair);
    FairFromDecision(db1, v, target, inbox, [(InboxStep, inbox.status)]);
  }

  lemma FairRunCompletes(db: Db, v: InsightView, target: Target)
    requires ValidDb(db) && RecordId(v.recordId)
    ensures Complete(Execute(db, v, target, Fair).1) <==> CanComplete(db, v, target)
  {
    FairPasses(db, v, target);
    if Complete(Execute(db, v, target, Fair).1) {
      var _, _, _, _ := CompleteStages(db, v, target, Fair);
    } else if CanComplete(db, v, target) {
      PassingRunCompletes(db, v, target);
    }
  }

  /** The same said with the records: the one found is not rejected, and the target is an existing decision that the
      suggestion does not contradict, or a new one and none of that title is open, or the one suggested still stands. */
  ghost predicate Completable(db: Db, v: InsightView, target: Target) {
    var found := InboxFor(db, v.recordId);
    && (found.Some? ==> found.value.status != Rejected)
    && var suggested := if found.Some? then found.value.suggested else [];
    && (target.ExistingDecision? ==> suggested == [] || target.id in suggested)
    && (target.NewDecision? && suggested == [] ==> !OpenDecisionOf(db.decisions, v.title))
    && (target.NewDecision? && suggested != [] ==> exists i :: 0 <= i < |db.decisions| && db.decisions[i].id == suggested[0])
  }

  /** On a well-behaved store a run completes exactly when the insight is not rejected and the target agrees with what
      was recorded before: an existing decision with an empty or matching suggestion, a new one with no open decision
      of that title, or the suggested one still standing. */
  lemma FairRunCompletesExactly(db: Db, v: InsightView, target: Target)
    requires ValidDb(db) && RecordId(v.recordId)
    ensures Complete(Execute(db, v, target, Fair).1) <==> Completable(db, v, target)
  {
    FairRunCompletes(db, v, target);
    OpenTitleIsOpenDecision(db.decisions, v);
  }

  // ---- what a partial run leaves ----

  /** Every Inbox record of the insight satisfies p. */
  ghost predicate AllInboxes(db: Db, insight: string, p: Inbox -> bool) {
    forall r :: r in FindInboxes(db.inboxes, insight) ==> p(r)
  }

  lemma AddKeepsAll(db: Db, v: InsightView, o: AddOutcome, p: Inbox -> bool)
    requires RecordId(v.recordId) && AllInboxes(db, v.recordId, p)
    requires p(Inbox(db.clock, db.clock, Compose(v), Pending, [], []))
    ensures AllInboxes(AddInbox(db, Compose(v), o), v.recordId, p)
  {
    FindInboxesAppend(db.inboxes, Inbox(db.clock, db.clock, Compose(v), Pending, [], []), v.recordId);
  }

  lemma UpdateKeepsAll(db: Db, insight: string, id: Id, f: Inbox -> Inbox, u: UpdateOutcome, p: Inbox -> bool)
    requires KeepsIdentity(f) && AllInboxes(db, insight, p) && forall r :: p(f(r))
    ensures AllInboxes(ApplyToInbox(db, id, f, u), insight, p)
  {
    if u.applied {
      UpdateKeepsSearch(db.inboxes, id, f, insight);
      UpdateInboxesAt(FindInboxes(db.inboxes, insight), id, f);
    }
  }

  lemma InboxStepKeepsAll(db: Db, v: InsightView, w: Weather, p: Inbox -> bool)
    requires ValidDb(db) && RecordId(v.recordId) && AllInboxes(db, v.recordId, p)
    requires forall c :: p(Inbox(c, c, Compose(v), Pending, [], []))
    ensures AllInboxes(RunInbox(db, v, w).0, v.recordId, p)
  {
    AddKeepsAll(db, v, w.inboxAdd, p);
    AddKeepsAll(AddInbox(db, Compose(v), w.inboxAdd), v, w.inboxAddAgain, p);
  }

  predicate OpenTo(r: Inbox, d: Id) { r.status != Rejected && (r.suggested == [] || d in r.suggested) }

  lemma AllOpenCanComplete(db: Db, v: InsightView, d: Id)
    requires AllInboxes(db, v.recordId, r => OpenTo(r, d))
    ensures CanComplete(db, v, ExistingDecision(d))
  {
    InboxForIsFound(db, v.recordId);
    FoundInboxes(db.inboxes, v.recordId);
  }

  lemma FromEventKeepsOpen(db: Db, v: InsightView, inbox: Id, d: Id, done: seq<(StepName, StepStatus)>, w: Weather)
    requires ValidDb(db) && RecordId(v.recordId) && |done| == 2
    ensures var db1 := FromEvent(db, v, inbox, d, done, w).0;
      && (CanComplete(db, v, ExistingDecision(d)) && InboxFor(db, v.recordId).Some? ==> CanComplete(db1, v, ExistingDecision(d)))
      && (AllInboxes(db, v.recordId, r => OpenTo(r, d)) ==> AllInboxes(db1, v.recordId, r => OpenTo(r, d)))
  {
    EventStepWrites(db, v, d, w);
    var (db1, event) := RunEvent(db, v, d, w);
    if event.Hold? {
      var f := LinkUp(d, event.id);
      if InboxFor(db, v.recordId).Some? { InboxForAfterUpdate(db1, inbox, f, w.link, v.recordId); }
      if AllInboxes(db, v.recordId, r => OpenTo(r, d)) {
        assert AllInboxes(db1, v.recordId, r => OpenTo(r, d));
        UpdateKeepsAll(db1, v.recordId, inbox, f, w.link, r => OpenTo(r, d));
      }
    }
  }

  lemma FromDecisionKeepsOpen(db: Db, v: InsightView, d: Id, inbox: Held, done: seq<(StepName, StepStatus)>, w: Weather)
    requires ValidDb(db) && RecordId(v.recordId) && inbox.Hold? && |done| == 1
    ensures var db1 := FromDecision(db, v, ExistingDecision(d), inbox, done, w).0;
      && (CanComplete(db, v, ExistingDecision(d)) && InboxFor(db, v.recordId).Some? ==> CanComplete(db1, v, ExistingDecision(d)))
      && (AllInboxes(db, v.recordId, r => OpenTo(r, d)) ==> AllInboxes(db1, v.recordId, r => OpenTo(r, d)))
  {
    if RunDecision(db, v, ExistingDecision(d), inbox, w).1.Hold? {
      FromEventKeepsOpen(db, v, inbox.id, d, done + [(DecisionStep, Reused)], w);
    }
  }

  lemma FirstRunKeepsOpen(db: Db, v: InsightView, d: Id, w: Weather)
    requires ValidDb(db) && RecordId(v.recordId) && InboxFor(db, v.recordId) == None
    ensures AllInboxes(Execute(db, v, ExistingDecision(d), w).0, v.recordId, r => OpenTo(r, d))
  {
    InboxForIsFound(db, v.recordId);
    InboxStepKeepsAll(db, v, w, r => OpenTo(r, d));
    InboxStepWrites(db, v, w);
    var (db1, inbox) := RunInbox(db, v, w);
    if inbox.Hold? { FromDecisionKeepsOpen(db1, v, d, inbox, [(InboxStep, inbox.status)], w); }
  }

  lemma RunKeepsOpen(db: Db, v: InsightView, d: Id, w: Weather)
    requires ValidDb(db) && RecordId(v.recordId) && CanComplete(db, v, ExistingDecision(d))
    ensures CanComplete(Execute(db, v, ExistingDecision(d), w).0, v, ExistingDecision(d))
  {
    if InboxFor(db, v.recordId) == None {
      FirstRunKeepsOpen(db, v, d, w);
      AllOpenCanComplete(Execute(db, v, ExistingDecision(d), w).0, v, d);
    } else {
      var inbox := RunInbox(db, v, w).1;
      if inbox.Hold? { FromDecisionKeepsOpen(db, v, d, inbox, [(InboxStep, inbox.status)], w); }
    }
  }

  /** A run towards an existing decision, however it ends, never closes the way to that decision: a later run on a
      well-behaved store still completes. */
  lemma PartialRunsCanBeFinished(db: Db, v: InsightView, d: Id, w: Weather)
    requires ValidDb(db) && RecordId(v.recordId) && CanComplete(db, v, ExistingDecision(d))
    ensures Complete(Execute(Execute(db, v, ExistingDecision(d), w).0, v, ExistingDecision(d), Fair).1)
  {
    OneRunWrites(db, v, ExistingDecision(d), w, d);
    RunKeepsOpen(db, v, d, w);
    FairRunCompletes(Execute(db, v, ExistingDecision(d), w).0, v, ExistingDecision(d));
  }

  // ---- other insights ----

  lemma MarkedByOne(text: string, a: string, b: string)
    requires Marked(text, a) && Marked(text, b)
    ensures a == b
  {
    MarkerInjective(a, b);
  }

  lemma AddLeavesOthers(db: Db, v: InsightView, o: AddOutcome, other: string)
    requires RecordId(v.recordId) && RecordId(other) && other != v.recordId
    ensures FindInboxes(AddInbox(db, Compose(v), o).inboxes, other) == FindInboxes(db.inboxes, other)
  {
    ComposedContentIsMarkedExactly(v, other);
    FindInboxesAppend(db.inboxes, Inbox(db.clock, db.clock, Compose(v), Pending, [], []), other);
  }

  lemma UpdateLeavesOthers(db: Db, v: InsightView, id: Id, f: Inbox -> Inbox, other: string)
    requires ValidDb(db) && KeepsIdentity(f) && IsInbox(db.inboxes, id, v.recordId) && other != v.recordId
    ensures FindInboxes(UpdateInboxes(db.inboxes, id, f), other) == FindInboxes(db.inboxes, other)
  {
    var rows := FindInboxes(db.inboxes, other);
    UpdateKeepsSearch(db.inboxes, id, f, other);
    UpdateInboxesAt(rows, id, f);
    FoundInboxes(db.inboxes, other);
    var k :| InboxAt(db.inboxes, k, id, v.recordId);
    forall i | 0 <= i < |rows| ensures rows[i].id != id {
      assert rows[i] in rows;
      if rows[i].id == id {
        GetInboxIsThere(db.inboxes, rows[i]);
        GetInboxIsThere(db.inboxes, db.inboxes[k]);
        MarkedByOne(rows[i].raw, other, v.recordId);
      }
    }
    assert UpdateInboxes(rows, id, f) == rows;
  }

  lemma AddEventLeavesOthers(db: Db, v: InsightView, d: Id, o: AddOutcome, other: string, of: Id)
    requires RecordId(v.recordId) && RecordId(other) && other != v.recordId
    ensures FindEvents(AddEvent(db, Compose(v), d, o).events, other, of) == FindEvents(db.events, other, of)
  {
    ComposedContentIsMarkedExactly(v, other);
    FindEventsAppend(db.events, Event(db.clock, db.clock, Compose(v), [d]), other, of);
  }

  ghost predicate Untouched(db: Db, db1: Db, other: string, of: Id) {
    && FindInboxes(db1.inboxes, other) == FindInboxes(db.inboxes, other)
    && FindEvents(db1.events, other, of) == FindEvents(db.events, other, of)
  }

  lemma EventStepLeavesOthers(db: Db, v: InsightView, d: Id, w: Weather, other: string, of: Id)
    requires RecordId(v.recordId) && RecordId(other) && other != v.recordId
    ensures FindEvents(RunEvent(db, v, d, w).0.events, other, of) == FindEvents(db.events, other, of)
  {
    AddEventLeavesOthers(db, v, d, w.eventAdd, other, of);
    AddEventLeavesOthers(AddEvent(db, Compose(v), d, w.eventAdd), v, d, w.eventAddAgain, other, of);
  }

  lemma LinkStepLeavesOthers(
    db: Db, v: InsightView, inbox: Id, d: Id, e: Id, done: seq<(StepName, StepStatus)>, w: Weather, other: string, of: Id)
    requires ValidDb(db) && IsInbox(db.inboxes, inbox, v.recordId) && other != v.recordId && |done| == 3
    ensures Untouched(db, FromLink(db, inbox, d, e, done, w).0, other, of)
  {
    UpdateLeavesOthers(db, v, inbox, LinkUp(d, e), other);
  }

  lemma FromEventLeavesOthers(
    db: Db, v: InsightView, inbox: Id, d: Id, done: seq<(StepName, StepStatus)>, w: Weather, other: string, of: Id)
    requires ValidDb(db) && RecordId(v.recordId) && RecordId(other) && other != v.recordId
    requires IsInbox(db.inboxes, inbox, v.recordId) && |done| == 2
    ensures Untouched(db, FromEvent(db, v, inbox, d, done, w).0, other, of)
  {
    EventStepLeavesOthers(db, v, d, w, other, of);
    EventStepWrites(db, v, d, w);
    var (db1, event) := RunEvent(db, v, d, w);
    if event.Hold? { LinkStepLeavesOthers(db1, v, inbox, d, event.id, done + [(EventStep, event.status)], w, other, of); }
  }

  lemma DecisionStepLeavesOthers(db: Db, v: InsightView, target: Target, inbox: Held, w: Weather, other: string, of: Id)
    requires ValidDb(db) && inbox.Hold? && IsInbox(db.inboxes, inbox.id, v.recordId) && other != v.recordId
    ensures Untouched(db, RunDecision(db, v, target, inbox, w).0, other, of)
  {
    UpdateLeavesOthers(db, v, inbox.id, Suggest(db.clock), other);
  }

  lemma FromDecisionLeavesOthers(
    db: Db, v: InsightView, target: Target, inbox: Held, done: seq<(StepName, StepStatus)>, w: Weather, other: string, of: Id)
    requires ValidDb(db) && RecordId(v.recordId) && RecordId(other) && other != v.recordId
    requires inbox.Hold? && IsInbox(db.inboxes, inbox.id, v.recordId) && |done| == 1
    ensures Untouched(db, FromDecision(db, v, target, inbox, done, w).0, other, of)
  {
    DecisionStepLeavesOthers(db, v, target, inbox, w, other, of);
    var (db1, decision) := RunDecision(db, v, target, inbox, w);
    if decision.Hold? {
      FromDecisionUnfolds(db, v, target, inbox, done, w);
      DecisionStepFacts(db, v, target, inbox, w);
      FromEventLeavesOthers(db1, v, inbox.id, decision.id, done + [(DecisionStep, decision.status)], w, other, of);
    }
  }

  lemma InboxStepLeavesOthers(db: Db, v: InsightView, w: Weather, other: string)
    requires RecordId(v.recordId) && RecordId(other) && other != v.recordId
    ensures FindInboxes(RunInbox(db, v, w).0.inboxes, other) == FindInboxes(db.inboxes, other)
  {
    AddLeavesOthers(db, v, w.inboxAdd, other);
    AddLeavesOthers(AddInbox(db, Compose(v), w.inboxAdd), v, w.inboxAddAgain, other);
  }

  /** A run for one insight leaves every other insight's Inbox records and Events exactly as they were. */
  lemma OtherInsightsUntouched(db: Db, v: InsightView, target: Target, w: Weather, other: string, of: Id)
    requires ValidDb(db) && RecordId(v.recordId) && RecordId(other) && other != v.recordId
    ensures Untouched(db, Execute(db, v, target, w).0, other, of)
  {
    InboxStepLeavesOthers(db, v, w, other);
    InboxStepWrites(db, v, w);
    var (db1, inbox) := RunInbox(db, v, w);
    if inbox.Hold? { FromDecisionLeavesOthers(db1, v, target, inbox, [(InboxStep, inbox.status)], w, other, of); }
  }
}
