/** Whole runs of the link saga: what a report means, and what any number of runs adds to the store. */
module InsightSagaRuns {
  import opened Prelude
  import opened Texts
  import opened InsightContent
  import opened InsightTables
  import opened StoreOutcomes
  import opened InsightSaga
  import opened InsightSagaLaws

  // ---- the report ----

  ghost predicate Shaped(r: LinkResult) { exists k: nat :: WellShaped(r, k) }

  predicate PassedInOrder(done: seq<(StepName, StepStatus)>) {
    |done| <= 4 && forall i :: 0 <= i < |done| ==> done[i].0 == StepNames[i] && Passed(done[i].1)
  }

  lemma StoppedShape(done: seq<(StepName, StepStatus)>, r: LinkResult)
    requires |done| < 4 && PassedInOrder(done) && r.steps == StopSteps(done)
    requires (r.inboxId.Some? <==> |done| >= 1) && (r.decisionId.Some? <==> |done| >= 2) && (r.eventId.Some? <==> |done| >= 3)
    ensures Shaped(r) && !Complete(r)
  {
    StopStepsShape(done);
    assert forall i :: 0 <= i < |done| ==> r.steps[i] == StopSteps(done)[..|done|][i];
    assert WellShaped(r, |done|);
  }

  lemma FromLinkShape(db: Db, inbox: Id, d: Id, e: Id, done: seq<(StepName, StepStatus)>, w: Weather)
    requires |done| == 3 && PassedInOrder(done)
    ensures Shaped(FromLink(db, inbox, d, e, done, w).1)
    ensures Complete(FromLink(db, inbox, d, e, done, w).1) <==> RunLink(db, inbox, d, e, w).1
  {
    var r := FromLink(db, inbox, d, e, done, w).1;
    if RunLink(db, inbox, d, e, w).1 {
      assert WellShaped(r, 4);
    } else {
      StoppedShape(done, r);
    }
  }

  lemma FromEventShape(db: Db, v: InsightView, inbox: Id, d: Id, done: seq<(StepName, StepStatus)>, w: Weather)
    requires |done| == 2 && PassedInOrder(done)
    ensures var (db1, event) := RunEvent(db, v, d, w);
      var r := FromEvent(db, v, inbox, d, done, w).1;
      Shaped(r) && (Complete(r) <==> event.Hold? && RunLink(db1, inbox, d, event.id, w).1)
  {
    var (db1, event) := RunEvent(db, v, d, w);
    HeldPassed(db, v, NewDecision, Stop, d, w);
    if event.Stop? {
      StoppedShape(done, FromEvent(db, v, inbox, d, done, w).1);
    } else {
      FromLinkShape(db1, inbox, d, event.id, done + [(EventStep, event.status)], w);
    }
  }

  lemma FromDecisionShape(db: Db, v: InsightView, target: Target, inbox: Held, done: seq<(StepName, StepStatus)>, w: Weather)
    requires inbox.Hold? && |done| == 1 && PassedInOrder(done)
    ensures var (db1, decision) := RunDecision(db, v, target, inbox, w);
      var r := FromDecision(db, v, target, inbox, done, w).1;
      && Shaped(r)
      && (Complete(r) ==> decision.Hold?)
  {
    var (db1, decision) := RunDecision(db, v, target, inbox, w);
    HeldPassed(db, v, target, inbox, 0, w);
    if decision.Stop? {
      StoppedShape(done, FromDecision(db, v, target, inbox, done, w).1);
    } else {
      FromEventShape(db1, v, inbox.id, decision.id, done + [(DecisionStep, decision.status)], w);
    }
  }

  /** Every run reports the four steps in order: a prefix that passed, one failure unless all passed, the rest skipped;
      it names a record for each of the first three steps that passed and for no other. */
  lemma ReportsFourStepsInOrder(db: Db, v: InsightView, target: Target, w: Weather)
    ensures Shaped(Execute(db, v, target, w).1)
    ensures Complete(Execute(db, v, target, w).1) ==> RunInbox(db, v, w).1.Hold?
  {
    var (db1, inbox) := RunInbox(db, v, w);
    HeldPassed(db, v, target, inbox, 0, w);
    if inbox.Stop? {
      StoppedShape([], Execute(db, v, target, w).1);
    } else {
      FromDecisionShape(db1, v, target, inbox, [(InboxStep, inbox.status)], w);
    }
  }

  /** The steps by name, and what they may have come to; complete are exactly the reports without a failure. */
  lemma StepsAreNamed(db: Db, v: InsightView, target: Target, w: Weather)
    ensures var r := Execute(db, v, target, w).1;
      && |r.steps| == 4
      && r.steps[0].0 == InboxStep && r.steps[1].0 == DecisionStep && r.steps[2].0 == EventStep && r.steps[3].0 == LinkStep
      && (Complete(r) <==> forall i :: 0 <= i < 4 ==> r.steps[i].1 == Ok || r.steps[i].1 == Reused)
      && (!Complete(r) ==> exists i :: 0 <= i < 4 && r.steps[i].1 == StepFailed)
  {
    ReportsFourStepsInOrder(db, v, target, w);
    var k: nat :| WellShaped(Execute(db, v, target, w).1, k);
  }

  // ---- the stages of one run ----

  /** What a run does, stage by stage, when each stage is reached. */
  ghost predicate Stages(db: Db, v: InsightView, target: Target, w: Weather, db3: Db, inbox: Held, d: Id, e: Id) {
    && RunInbox(db, v, w).1 == inbox && inbox.Hold?
    && var (db2, decision) := RunDecision(RunInbox(db, v, w).0, v, target, inbox, w);
    && decision.Hold? && decision.id == d
    && RunEvent(db2, v, d, w).0 == db3
    && RunEvent(db2, v, d, w).1.Hold? && RunEvent(db2, v, d, w).1.id == e
  }

  /** A complete run went through every stage. */
  lemma CompleteStages(db: Db, v: InsightView, target: Target, w: Weather) returns (db3: Db, inbox: Held, d: Id, e: Id)
    requires Complete(Execute(db, v, target, w).1)
    ensures Stages(db, v, target, w, db3, inbox, d, e)
    ensures Execute(db, v, target, w) == FromLink(db3, inbox.id, d, e, Execute(db, v, target, w).1.steps[..3], w)
    ensures RunLink(db3, inbox.id, d, e, w).1
  {
    ReportsFourStepsInOrder(db, v, target, w);
    var db1;
    db1, inbox := RunInbox(db, v, w).0, RunInbox(db, v, w).1;
    var done1 := [(InboxStep, inbox.status)];
    HeldPassed(db, v, target, inbox, 0, w);
    FromDecisionShape(db1, v, target, inbox, done1, w);
    var (db2, decision) := RunDecision(db1, v, target, inbox, w);
    HeldPassed(db1, v, target, inbox, 0, w);
    d := decision.id;
    var done2 := done1 + [(DecisionStep, decision.status)];
    FromEventShape(db2, v, inbox.id, d, done2, w);
    var event := RunEvent(db2, v, d, w).1;
    HeldPassed(db2, v, target, inbox, d, w);
    e := event.id;
    db3 := RunEvent(db2, v, d, w).0;
    var done3 := done2 + [(EventStep, event.status)];
    FromLinkShape(db3, inbox.id, d, e, done3, w);
    assert Execute(db, v, target, w).1.steps[..3] == done3;
  }

  /** Complete means linked: the stored Inbox record carries the insight's marker, is Linked, and names the decision and
      the Event reported; the Event stands in the store, carries the marker and belongs to that decision; and the
      decision is the one asked for, or one that stands in the store. */
  lemma CompleteMeansLinked(db: Db, v: InsightView, target: Target, w: Weather)
    requires ValidDb(db) && RecordId(v.recordId) && Complete(Execute(db, v, target, w).1)
    ensures var (db4, r) := Execute(db, v, target, w);
      && r.inboxId.Some? && r.decisionId.Some? && r.eventId.Some?
      && ValidDb(db4)
      && GetInbox(db4.inboxes, r.inboxId.value).Some?
      && (var inbox := GetInbox(db4.inboxes, r.inboxId.value).value;
          && inbox.id == r.inboxId.value && Marked(inbox.raw, v.recordId) && inbox.status == Linked
          && r.decisionId.value in inbox.suggested && r.eventId.value in inbox.events)
      && IsEvent(db4.events, r.eventId.value, v.recordId, r.decisionId.value)
      && (if target == NewDecision then HasDecision(db4.decisions, r.decisionId.value) else r.decisionId.value == target.id)
  {
    var db3, inbox, d, e := CompleteStages(db, v, target, w);
    InboxStepWrites(db, v, w);
    var db1 := RunInbox(db, v, w).0;
    DecisionStepFacts(db1, v, target, inbox, w);
    var db2 := RunDecision(db1, v, target, inbox, w).0;
    EventStepWrites(db2, v, d, w);
    LinkStepFacts(db3, v, inbox.id, d, e, w);
    HeldInboxIsMarked(RunLink(db3, inbox.id, d, e, w).0, inbox.id, v.recordId);
    GotInboxIsThere(RunLink(db3, inbox.id, d, e, w).0.inboxes, inbox.id);
  }

  // ---- growth ----

  function Max(a: nat, b: nat): nat { if a < b then b else a }

  function Inboxes(db: Db, v: InsightView): nat { |FindInboxes(db.inboxes, v.recordId)| }

  function Events(db: Db, v: InsightView, d: Id): nat { |FindEvents(db.events, v.recordId, d)| }

  lemma OtherEventsStay(db: Db, v: InsightView, d: Id, w: Weather, of: Id)
    requires RecordId(v.recordId) && of != d
    ensures Events(RunEvent(db, v, d, w).0, v, of) == Events(db, v, of)
  {
    AddEventFacts(db, v, d, w.eventAdd, of);
    AddEventFacts(AddEvent(db, Compose(v), d, w.eventAdd), v, d, w.eventAddAgain, of);
  }

  lemma EventStepGrowth(db: Db, v: InsightView, d: Id, w: Weather, of: Id)
    requires ValidDb(db) && RecordId(v.recordId)
    ensures w.eventRecheck ==> Events(RunEvent(db, v, d, w).0, v, of) <= Max(1, Events(db, v, of))
  {
    if of == d {
      EventStepWrites(db, v, d, w);
      EventFoundIffSome(db, v.recordId, d);
    } else {
      OtherEventsStay(db, v, d, w, of);
    }
  }

  lemma FromEventGrowth(db: Db, v: InsightView, inbox: Id, d: Id, done: seq<(StepName, StepStatus)>, w: Weather, of: Id)
    requires ValidDb(db) && RecordId(v.recordId) && IsInbox(db.inboxes, inbox, v.recordId) && |done| == 2
    ensures var db1 := FromEvent(db, v, inbox, d, done, w).0;
      && ValidDb(db1) && db1.decisions == db.decisions
      && Inboxes(db1, v) == Inboxes(db, v)
      && (w.eventRecheck ==> Events(db1, v, of) <= Max(1, Events(db, v, of)))
  {
    EventStepWrites(db, v, d, w);
    EventStepGrowth(db, v, d, w, of);
    var (db1, event) := RunEvent(db, v, d, w);
    if event.Hold? { LinkStepFacts(db1, v, inbox, d, event.id, w); }
  }

  lemma DecisionStepGrowth(db: Db, v: InsightView, target: Target, inbox: Held, w: Weather)
    requires inbox.Hold?
    ensures var db1 := RunDecision(db, v, target, inbox, w).0;
      && |db1.decisions| <= |db.decisions| + One(!OpenTitle(db.decisions, Title(v)))
      && |db.decisions| <= |db1.decisions| && db1.decisions[..|db.decisions|] == db.decisions
      && (|db1.decisions| > |db.decisions| ==> OpenTitle(db1.decisions, Title(v)))
  {
    var db1 := AddDecision(db, Title(v), w.decisionAdd);
    if Writes(w.decisionAdd) { assert db1.decisions[|db.decisions|] == Decision(db.clock, Title(v), true); }
  }

  lemma FromDecisionGrowth(
    db: Db, v: InsightView, target: Target, inbox: Held, done: seq<(StepName, StepStatus)>, w: Weather, of: Id)
    requires ValidDb(db) && RecordId(v.recordId) && inbox.Hold? && IsInbox(db.inboxes, inbox.id, v.recordId) && |done| == 1
    ensures var db1 := FromDecision(db, v, target, inbox, done, w).0;
      && ValidDb(db1)
      && Inboxes(db1, v) == Inboxes(db, v)
      && (w.eventRecheck ==> Events(db1, v, of) <= Max(1, Events(db, v, of)))
      && db1.decisions == RunDecision(db, v, target, inbox, w).0.decisions
  {
    DecisionStepFacts(db, v, target, inbox, w);
    var (db1, decision) := RunDecision(db, v, target, inbox, w);
    if decision.Hold? {
      FromEventGrowth(db1, v, inbox.id, decision.id, done + [(DecisionStep, decision.status)], w, of);
    }
  }

  /** One run, whatever the store does: it writes exactly InboxesWritten records of its insight into the Inbox table,
      brings no (insight, decision) pair beyond one Event when its re-check reads, and creates at most one decision,
      under a title no open decision has. */
  lemma OneRunWrites(db: Db, v: InsightView, target: Target, w: Weather, of: Id)
    requires ValidDb(db) && RecordId(v.recordId)
    ensures var db1 := Execute(db, v, target, w).0;
      && ValidDb(db1)
      && Inboxes(db1, v) == Inboxes(db, v) + InboxesWritten(db, v, w)
      && (w.eventRecheck ==> Events(db1, v, of) <= Max(1, Events(db, v, of)))
      && |db.decisions| <= |db1.decisions| <= |db.decisions| + One(!OpenTitle(db.decisions, Title(v)))
      && db1.decisions[..|db.decisions|] == db.decisions
      && (|db1.decisions| > |db.decisions| ==> OpenTitle(db1.decisions, Title(v)))
  {
    InboxStepWrites(db, v, w);
    var (db1, inbox) := RunInbox(db, v, w);
    if inbox.Hold? {
      DecisionStepGrowth(db1, v, target, inbox, w);
      FromDecisionGrowth(db1, v, target, inbox, [(InboxStep, inbox.status)], w, of);
    }
  }

  /** The one way a run writes two Inbox records: nothing was there, the first add was lost on the way back although it
      was written, the read that would have shown it failed too, and the second add was written as well. */
  lemma TwoInboxesExactly(db: Db, v: InsightView, target: Target, w: Weather)
    requires ValidDb(db) && RecordId(v.recordId)
    ensures Inboxes(Execute(db, v, target, w).0, v) >= Inboxes(db, v) + 2
       <==> w.inboxRead && Inboxes(db, v) == 0
            && w.inboxAdd == UnknownWritten && !w.inboxRecheck && Writes(w.inboxAddAgain)
  {
    OneRunWrites(db, v, target, w, 0);
    FoundIffSome(db, v.recordId);
  }

  /** So it happens: the first add was written, its answer and the re-check were lost. */
  lemma TwoInboxesCanBeWritten(v: InsightView, target: Target)
    requires RecordId(v.recordId)
    ensures Inboxes(Execute(EmptyDb, v, target, Fair.(inboxAdd := UnknownWritten, inboxRecheck := false)).0, v) == 2
  {
    OneRunWrites(EmptyDb, v, target, Fair.(inboxAdd := UnknownWritten, inboxRecheck := false), 0);
    FoundIffSome(EmptyDb, v.recordId);
  }

  // ---- any number of serialised runs ----

  datatype Job = Job(target: Target, weather: Weather)

  function RunAll(db: Db, v: InsightView, jobs: seq<Job>): Db
    decreases |jobs|
  {
    if jobs == [] then db else RunAll(Execute(db, v, jobs[0].target, jobs[0].weather).0, v, jobs[1..])
  }

  /** The reads that follow a lost write succeed. */
  predicate Rechecks(jobs: seq<Job>) {
    forall i :: 0 <= i < |jobs| ==> jobs[i].weather.inboxRecheck && jobs[i].weather.eventRecheck
  }

  lemma PrefixKeepsOpenTitle(rows: seq<Decision>, more: seq<Decision>, title: string)
    requires |rows| <= |more| && more[..|rows|] == rows && OpenTitle(rows, title)
    ensures OpenTitle(more, title)
  {
    var i :| 0 <= i < |rows| && rows[i].open && rows[i].title == title;
    assert more[i] == more[..|rows|][i];
  }

  lemma RunWritesOnce(db: Db, v: InsightView, job: Job, of: Id)
    requires ValidDb(db) && RecordId(v.recordId)
    ensures var db1 := Execute(db, v, job.target, job.weather).0;
      && ValidDb(db1)
      && (Rechecks([job]) ==> Inboxes(db1, v) <= Max(1, Inboxes(db, v)) && Events(db1, v, of) <= Max(1, Events(db, v, of)))
      && |db.decisions| <= |db1.decisions| <= |db.decisions| + One(!OpenTitle(db.decisions, Title(v)))
      && (OpenTitle(db.decisions, Title(v)) || |db1.decisions| > |db.decisions| ==> OpenTitle(db1.decisions, Title(v)))
  {
    OneRunWrites(db, v, job.target, job.weather, of);
    FoundIffSome(db, v.recordId);
    var db1 := Execute(db, v, job.target, job.weather).0;
    if OpenTitle(db.decisions, Title(v)) { PrefixKeepsOpenTitle(db.decisions, db1.decisions, Title(v)); }
    assert Rechecks([job]) ==> [job][0].weather.inboxRecheck && [job][0].weather.eventRecheck;
  }

  /** Over any serialised runs for one insight, with any outcomes of the adds and updates and any other reads failing,
      there comes to be at most one Inbox record of the insight and one Event per decision, beyond what was there, and
      at most one decision is created in all. */
  lemma {:induction false} RunsWriteOnce(db: Db, v: InsightView, jobs: seq<Job>, of: Id)
    requires ValidDb(db) && RecordId(v.recordId)
    ensures var end := RunAll(db, v, jobs);
      && ValidDb(end)
      && (Rechecks(jobs) ==> Inboxes(end, v) <= Max(1, Inboxes(db, v)) && Events(end, v, of) <= Max(1, Events(db, v, of)))
      && |db.decisions| <= |end.decisions| <= |db.decisions| + One(!OpenTitle(db.decisions, Title(v)))
    decreases |jobs|
  {
    if jobs != [] {
      var db1 := Execute(db, v, jobs[0].target, jobs[0].weather).0;
      RunWritesOnce(db, v, jobs[0], of);
      RunsWriteOnce(db1, v, jobs[1..], of);
    }
  }
}
