/** Runs after runs of the link saga: what a rerun may change, when it completes, and when it never can. */
module InsightSagaReruns {
  import opened Prelude
  import opened Texts
  import opened InsightContent
  import opened InsightTables
  import opened StoreOutcomes
  import opened InsightSaga
  import opened InsightSagaLaws
  import opened InsightSagaHolds
  import opened InsightSagaRuns

  // ---- refusals ----

  /** A record marked as rejected, and a target other than the one recorded before, are refused and nothing is written. */
  lemma RefusedUnwritten(db: Db, v: InsightView, target: Target, w: Weather)
    requires InboxFor(db, v.recordId).Some?
    requires var r := InboxFor(db, v.recordId).value;
      r.status == Rejected || (target.ExistingDecision? && r.suggested != [] && target.id !in r.suggested)
    ensures Execute(db, v, target, w).0 == db && !Complete(Execute(db, v, target, w).1)
  {
    var (db1, inbox) := RunInbox(db, v, w);
    if inbox.Stop? {
      StoppedShape([], Execute(db, v, target, w).1);
    } else {
      HeldPassed(db, v, target, inbox, 0, w);
      StoppedShape([(InboxStep, inbox.status)], Execute(db, v, target, w).1);
    }
  }

  // ---- an update and the row it changes ----

  lemma {:induction false} GetAfterUpdate(rows: seq<Inbox>, id: Id, f: Inbox -> Inbox)
    requires KeepsIdentity(f) && GetInbox(rows, id).Some?
    ensures GetInbox(UpdateInboxes(rows, id, f), id) == Some(f(GetInbox(rows, id).value))
    decreases |rows|
  {
    UpdateInboxesAt(rows, id, f);
    if rows[0].id != id {
      GetAfterUpdate(rows[1..], id, f);
      UpdateInboxesAt(rows[1..], id, f);
      assert UpdateInboxes(rows, id, f)[1..] == UpdateInboxes(rows[1..], id, f);
    }
  }

  lemma {:induction false} OldestAfterUpdate(rows: seq<Inbox>, id: Id, f: Inbox -> Inbox)
    requires KeepsIdentity(f) && rows != []
    ensures OldestInbox(UpdateInboxes(rows, id, f)) == Some(UpdateRow(OldestInbox(rows).value, id, f))
    decreases |rows|
  {
    UpdateInboxesAt(rows, id, f);
    UpdateInboxesAt(rows[1..], id, f);
    assert UpdateInboxes(rows, id, f)[1..] == UpdateInboxes(rows[1..], id, f);
    if rows[1..] != [] { OldestAfterUpdate(rows[1..], id, f); }
  }

  lemma InboxForAfterUpdate(db: Db, id: Id, f: Inbox -> Inbox, u: UpdateOutcome, insight: string)
    requires KeepsIdentity(f) && InboxFor(db, insight).Some?
    ensures InboxFor(ApplyToInbox(db, id, f, u), insight)
         == Some(if u.applied then UpdateRow(InboxFor(db, insight).value, id, f) else InboxFor(db, insight).value)
  {
    if u.applied {
      UpdateKeepsSearch(db.inboxes, id, f, insight);
      InboxForIsFound(db, insight);
      OldestAfterUpdate(FindInboxes(db.inboxes, insight), id, f);
    }
  }

  lemma FoundIsGot(db: Db, insight: string)
    requires ValidDb(db) && InboxFor(db, insight).Some?
    ensures GetInbox(db.inboxes, InboxFor(db, insight).value.id) == InboxFor(db, insight)
  {
    InboxForIsFound(db, insight);
    GetInboxIsThere(db.inboxes, InboxFor(db, insight).value);
  }

  lemma SettledUpdateChangesNothing(rows: seq<Inbox>, id: Id, f: Inbox -> Inbox, r: Inbox)
    requires GetInbox(rows, id) == Some(r) && f(r) == r
    requires forall i, j :: 0 <= i < j < |rows| ==> rows[i].id != rows[j].id
    ensures UpdateInboxes(rows, id, f) == rows
  {
    UpdateInboxesAt(rows, id, f);
    forall i | 0 <= i < |rows| ensures UpdateInboxes(rows, id, f)[i] == rows[i] {
      GetInboxIsThere(rows, rows[i]);
    }
  }

  // ---- reruns ----

  /** A store that says an update was done has done it. */
  predicate Honest(u: UpdateOutcome) { u.reported ==> u.applied }

  /** What a complete run leaves: the Inbox record the search finds is linked to one decision and one Event, the one
      found for that decision. */
  ghost predicate LinkedTo(db: Db, v: InsightView, inbox: Id, d: Id, e: Id) {
    && ValidDb(db)
    && InboxFor(db, v.recordId).Some? && EventFor(db, v.recordId, d).Some? && EventFor(db, v.recordId, d).value.id == e
    && var r := InboxFor(db, v.recordId).value;
    && r.id == inbox && r.status == Linked && r.suggested == [d] && r.events == [e]
  }

  lemma DecisionStepLeaves(db: Db, v: InsightView, target: Target, inbox: Held, w: Weather)
    requires inbox.Hold? && InboxFor(db, v.recordId).Some?
    ensures var db1 := RunDecision(db, v, target, inbox, w).0;
      && InboxFor(db1, v.recordId).Some? && InboxFor(db1, v.recordId).value.id == InboxFor(db, v.recordId).value.id
      && db1.events == db.events
  {
    var db1 := AddDecision(db, Title(v), w.decisionAdd);
    InboxForAfterUpdate(db1, inbox.id, Suggest(db.clock), w.preLink, v.recordId);
  }

  lemma CompleteLeavesLinked(db: Db, v: InsightView, target: Target, w: Weather)
    requires ValidDb(db) && RecordId(v.recordId) && Complete(Execute(db, v, target, w).1) && Honest(w.link)
    requires var (db1, r) := Execute(db, v, target, w);
      HoldsOldest(db, v, w) && (r.decisionId.Some? ==> HoldsOldestEvent(db, v, r.decisionId.value, w))
    ensures var (db1, r) := Execute(db, v, target, w);
      && r.inboxId.Some? && r.decisionId.Some? && r.eventId.Some?
      && LinkedTo(db1, v, r.inboxId.value, r.decisionId.value, r.eventId.value)
  {
    CompleteMeansLinked(db, v, target, w);
    var db3, inbox, d, e := CompleteStages(db, v, target, w);
    InboxStepWrites(db, v, w);
    InboxStepLeaves(db, v, w);
    var db1 := RunInbox(db, v, w).0;
    DecisionStepFacts(db1, v, target, inbox, w);
    DecisionStepLeaves(db1, v, target, inbox, w);
    var db2 := RunDecision(db1, v, target, inbox, w).0;
    EventStepWrites(db2, v, d, w);
    EventStepLeaves(db2, v, d, w);
    InboxForAfterUpdate(db3, inbox.id, LinkUp(d, e), w.link, v.recordId);
  }

  lemma LinkedRunIsIdle(db: Db, v: InsightView, inbox: Id, d: Id, e: Id, target: Target, w: Weather)
    requires LinkedTo(db, v, inbox, d, e)
    ensures RunInbox(db, v, w).0 == db
    ensures RunInbox(db, v, w).1 in {Stop, Hold(inbox, Reused, [d])}
    ensures RunDecision(db, v, target, Hold(inbox, Reused, [d]), w).0 == db
    ensures RunDecision(db, v, target, Hold(inbox, Reused, [d]), w).1 in {Stop, Hold(d, Reused, [])}
    ensures RunEvent(db, v, d, w).0 == db && RunEvent(db, v, d, w).1 in {Stop, Hold(e, Reused, [])}
    ensures RunLink(db, inbox, d, e, w).0 == db
  {
    FoundIsGot(db, v.recordId);
    SettledUpdateChangesNothing(db.inboxes, inbox, LinkUp(d, e), InboxFor(db, v.recordId).value);
  }

  /** Running a linked insight again changes nothing in the store, for every target and every way the store behaves,
      and a rerun that completes reports the same three records. */
  lemma LinkedStaysLinked(db: Db, v: InsightView, inbox: Id, d: Id, e: Id, target: Target, w: Weather)
    requires LinkedTo(db, v, inbox, d, e)
    ensures Execute(db, v, target, w).0 == db
    ensures Complete(Execute(db, v, target, w).1) ==>
      Execute(db, v, target, w).1.inboxId == Some(inbox)
      && Execute(db, v, target, w).1.decisionId == Some(d) && Execute(db, v, target, w).1.eventId == Some(e)
  {
    LinkedRunIsIdle(db, v, inbox, d, e, target, w);
    if Complete(Execute(db, v, target, w).1) {
      var _, _, _, _ := CompleteStages(db, v, target, w);
    }
  }

  /** An Inbox record of the insight and an Event of it and the decision are there to be found. */
  predicate Settled(db: Db, v: InsightView, d: Id) {
    InboxFor(db, v.recordId).Some? && EventFor(db, v.recordId, d).Some?
  }

  /** The same records, of which Inbox records may have been updated. */
  predicate NoRecordAdded(db: Db, db1: Db) {
    |db1.inboxes| == |db.inboxes| && db1.decisions == db.decisions && db1.events == db.events
  }

  lemma SettledRunAddsNone(db: Db, v: InsightView, d: Id, w: Weather)
    requires Settled(db, v, d)
    ensures var db1 := Execute(db, v, ExistingDecision(d), w).0;
      NoRecordAdded(db, db1) && Settled(db1, v, d)
  {
    var inbox, event := RunInbox(db, v, w).1, RunEvent(db, v, d, w).1;
    if inbox.Hold? && event.Hold? {
      UpdateInboxesAt(db.inboxes, inbox.id, LinkUp(d, event.id));
      InboxForAfterUpdate(db, inbox.id, LinkUp(d, event.id), w.link, v.recordId);
    }
  }

  lemma {:induction false} SettledRunsAddNone(db: Db, v: InsightView, d: Id, jobs: seq<Job>)
    requires Settled(db, v, d) && forall i :: 0 <= i < |jobs| ==> jobs[i].target == ExistingDecision(d)
    ensures NoRecordAdded(db, RunAll(db, v, jobs))
    decreases |jobs|
  {
    if jobs != [] {
      SettledRunAddsNone(db, v, d, jobs[0].weather);
      SettledRunsAddNone(Execute(db, v, ExistingDecision(d), jobs[0].weather).0, v, d, jobs[1..]);
    }
  }

  lemma VerifiedIsFound(db: Db, inbox: Id, d: Id, e: Id, insight: string)
    requires Verified(db, inbox, d, e) && Marked(GetInbox(db.inboxes, inbox).value.raw, insight)
    ensures InboxFor(db, insight).Some?
  {
    GotInboxIsThere(db.inboxes, inbox);
    FoundInboxes(db.inboxes, insight);
    InboxForIsFound(db, insight);
  }

  lemma CompleteIsSettled(db: Db, v: InsightView, target: Target, w: Weather)
    requires ValidDb(db) && RecordId(v.recordId) && Complete(Execute(db, v, target, w).1)
    ensures var (db1, r) := Execute(db, v, target, w); r.decisionId.Some? && Settled(db1, v, r.decisionId.value)
  {
    CompleteMeansLinked(db, v, target, w);
    var (db1, r) := Execute(db, v, target, w);
    VerifiedIsFound(db1, r.inboxId.value, r.decisionId.value, r.eventId.value, v.recordId);
    IsEventIsFound(db1, r.eventId.value, v.recordId, r.decisionId.value);
  }

  /** After a run that reported complete, any number of reruns towards the decision it linked add no record at all,
      however the store behaved and behaves, and however many duplicates there are. */
  lemma {:induction false} RerunsAddNoRecord(db: Db, v: InsightView, target: Target, w: Weather, jobs: seq<Job>)
    requires ValidDb(db) && RecordId(v.recordId) && Complete(Execute(db, v, target, w).1)
    requires forall i :: 0 <= i < |jobs| ==>
      jobs[i].target.ExistingDecision? && Execute(db, v, target, w).1.decisionId == Some(jobs[i].target.id)
    ensures NoRecordAdded(Execute(db, v, target, w).0, RunAll(Execute(db, v, target, w).0, v, jobs))
  {
    CompleteIsSettled(db, v, target, w);
    var (db1, r) := Execute(db, v, target, w);
    SettledRunsAddNone(db1, v, r.decisionId.value, jobs);
  }

  /** After a complete run that held the oldest records and whose link was written when it was reported, rerunning
      changes no record either, for every target and every way the store behaves. */
  lemma RerunChangesNothing(db: Db, v: InsightView, target: Target, w: Weather, again: Target, w2: Weather)
    requires ValidDb(db) && RecordId(v.recordId) && Complete(Execute(db, v, target, w).1) && Honest(w.link)
    requires var (db1, r) := Execute(db, v, target, w);
      HoldsOldest(db, v, w) && (r.decisionId.Some? ==> HoldsOldestEvent(db, v, r.decisionId.value, w))
    ensures var (db1, r) := Execute(db, v, target, w);
      var (db2, r2) := Execute(db1, v, again, w2);
      && db2 == db1
      && (Complete(r2) ==> r2.inboxId == r.inboxId && r2.decisionId == r.decisionId && r2.eventId == r.eventId)
  {
    CompleteLeavesLinked(db, v, target, w);
    var (db1, r) := Execute(db, v, target, w);
    LinkedStaysLinked(db1, v, r.inboxId.value, r.decisionId.value, r.eventId.value, again, w2);
  }
}
