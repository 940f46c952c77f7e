/** Runs of the link saga for a new decision: exactly which of them leave a decision that no later run for a new
    decision can take up. */
module InsightSagaOrphans {
  import opened Prelude
  import opened Texts
  import opened InsightContent
  import opened InsightTables
  import opened StoreOutcomes
  import opened InsightSaga
  import opened InsightSagaLaws
  import opened InsightSagaHolds
  import opened InsightSagaRuns
  import opened InsightSagaReruns
  import opened InsightSagaProgress

  // ---- a decision lost ----

  predicate Suggests(found: Option<Inbox>) { found.Some? && found.value.suggested != [] }

  /** An open decision of the insight's title stands, and the Inbox record the searches find suggests none. */
  ghost predicate Orphaned(db: Db, v: InsightView) {
    ValidDb(db) && OpenTitle(db.decisions, Title(v)) && !Suggests(InboxFor(db, v.recordId))
  }

  /** The new decision gets recorded in the Inbox record held: by the suggestion, or else by the link. */
  predicate Recorded(db: Db, v: InsightView, inbox: Id, w: Weather) {
    var db1 := ApplyToInbox(AddDecision(db, Title(v), Created), inbox, Suggest(db.clock), w.preLink);
    w.decisionAdd == Created && (w.preLink.applied || (RunEvent(db1, v, db.clock, w).1.Hold? && w.link.applied))
  }

  /** The run writes a new decision and the oldest Inbox record does not get to know it. */
  predicate LosesDecision(db: Db, v: InsightView, w: Weather) {
    var (db1, inbox) := RunInbox(db, v, w);
    && inbox.Hold? && inbox.suggested == []
    && w.titleRead && !OpenTitle(db.decisions, Title(v)) && Writes(w.decisionAdd)
    && !(HoldsOldest(db, v, w) && Recorded(db1, v, inbox.id, w))
  }

  lemma AddedTitleIsOpen(db: Db, title: string, o: AddOutcome)
    requires !OpenTitle(db.decisions, title)
    ensures OpenTitle(AddDecision(db, title, o).decisions, title) <==> Writes(o)
    ensures Writes(o) ==> HasDecision(AddDecision(db, title, o).decisions, db.clock)
  {
    if Writes(o) { assert AddDecision(db, title, o).decisions[|db.decisions|] == Decision(db.clock, title, true); }
  }

  /** From the decision on: what the next search finds. */
  lemma FromEventLeaves(db: Db, v: InsightView, inbox: Id, d: Id, done: seq<(StepName, StepStatus)>, w: Weather)
    requires ValidDb(db) && RecordId(v.recordId) && InboxFor(db, v.recordId).Some? && |done| == 2
    ensures
      var db1 := FromEvent(db, v, inbox, d, done, w).0;
      var before, found := InboxFor(db, v.recordId).value, InboxFor(db1, v.recordId);
      && db1.decisions == db.decisions
      && found == Some(if RunEvent(db, v, d, w).1.Hold? && w.link.applied
                       then UpdateRow(before, inbox, LinkUp(d, RunEvent(db, v, d, w).1.id)) else before)
  {
    EventStepWrites(db, v, d, w);
    var (db1, event) := RunEvent(db, v, d, w);
    if event.Hold? { InboxForAfterUpdate(db1, inbox, LinkUp(d, event.id), w.link, v.recordId); }
  }

  lemma NewDecisionLeaves(db: Db, v: InsightView, inbox: Held, done: seq<(StepName, StepStatus)>, w: Weather)
    requires ValidDb(db) && RecordId(v.recordId) && InboxFor(db, v.recordId).Some? && |done| == 1
    requires inbox.Hold? && inbox.suggested == [] && InboxFor(db, v.recordId).value.suggested == []
    requires IsInbox(db.inboxes, inbox.id, v.recordId)
    requires w.titleRead && !OpenTitle(db.decisions, Title(v)) && w.decisionAdd == Created
    ensures
      var db1 := FromDecision(db, v, NewDecision, inbox, done, w).0;
      var found := InboxFor(db1, v.recordId);
      && OpenTitle(db1.decisions, Title(v)) && HasDecision(db1.decisions, db.clock)
      && found.Some? && (InboxFor(db, v.recordId).value.status != Rejected ==> found.value.status != Rejected)
      && found.value.suggested ==
           if InboxFor(db, v.recordId).value.id == inbox.id && Recorded(db, v, inbox.id, w) then [db.clock] else []
  {
    AddedTitleIsOpen(db, Title(v), Created);
    CreateDecisionFacts(db, v, inbox.id, w);
    var db1 := AddDecision(db, Title(v), Created);
    InboxForAfterUpdate(db1, inbox.id, Suggest(db.clock), w.preLink, v.recordId);
    var db2 := ApplyToInbox(db1, inbox.id, Suggest(db.clock), w.preLink);
    FromEventLeaves(db2, v, inbox.id, db.clock, done + [(DecisionStep, Ok)], w);
  }

  lemma RunWithoutCreating(db: Db, v: InsightView, w: Weather)
    requires ValidDb(db) && RecordId(v.recordId) && RunInbox(db, v, w).1.Hold?
    requires var inbox := RunInbox(db, v, w).1;
      inbox.suggested == [] && !(w.titleRead && !OpenTitle(db.decisions, Title(v)) && w.decisionAdd == Created)
    ensures
      var db1 := Execute(db, v, NewDecision, w).0;
      && db1.inboxes == RunInbox(db, v, w).0.inboxes
      && (OpenTitle(db.decisions, Title(v)) ==> db1.decisions == db.decisions)
      && (!OpenTitle(db.decisions, Title(v)) ==> (OpenTitle(db1.decisions, Title(v)) <==> w.titleRead && Writes(w.decisionAdd)))
  {
    InboxStepWrites(db, v, w);
    if !OpenTitle(db.decisions, Title(v)) { AddedTitleIsOpen(RunInbox(db, v, w).0, Title(v), w.decisionAdd); }
  }

  /** While nothing is suggested and no open decision has the title, a run for a new decision leaves the insight
      orphaned exactly when it loses the decision. */
  lemma OrphanedExactly(db: Db, v: InsightView, w: Weather)
    requires ValidDb(db) && RecordId(v.recordId)
    requires !OpenTitle(db.decisions, Title(v)) && !Suggests(InboxFor(db, v.recordId))
    ensures Orphaned(Execute(db, v, NewDecision, w).0, v) <==> LosesDecision(db, v, w)
  {
    OneRunWrites(db, v, NewDecision, w, 0);
    InboxStepWrites(db, v, w);
    InboxStepLeaves(db, v, w);
    var (db1, inbox) := RunInbox(db, v, w);
    if inbox.Hold? {
      if w.titleRead && w.decisionAdd == Created {
        NewDecisionLeaves(db1, v, inbox, [(InboxStep, inbox.status)], w);
      } else {
        RunWithoutCreating(db, v, w);
      }
    }
  }

  // ---- what a rerun can still do ----

  lemma TakenUpStaysOpen(db: Db, v: InsightView, w: Weather)
    requires ValidDb(db) && RecordId(v.recordId) && CanComplete(db, v, NewDecision) && Suggests(InboxFor(db, v.recordId))
    ensures CanComplete(Execute(db, v, NewDecision, w).0, v, NewDecision)
  {
    var (db1, inbox) := RunInbox(db, v, w);
    if inbox.Hold? && w.priorRead {
      FromEventLeaves(db, v, inbox.id, inbox.suggested[0], [(InboxStep, inbox.status), (DecisionStep, Reused)], w);
    }
  }

  lemma FreshRunStaysOpenExactly(db: Db, v: InsightView, w: Weather)
    requires ValidDb(db) && RecordId(v.recordId) && CanComplete(db, v, NewDecision) && !Suggests(InboxFor(db, v.recordId))
    ensures CanComplete(Execute(db, v, NewDecision, w).0, v, NewDecision) <==> !LosesDecision(db, v, w)
  {
    InboxStepWrites(db, v, w);
    InboxStepLeaves(db, v, w);
    var (db1, inbox) := RunInbox(db, v, w);
    if inbox.Hold? {
      if w.titleRead && w.decisionAdd == Created {
        NewDecisionLeaves(db1, v, inbox, [(InboxStep, inbox.status)], w);
      } else {
        RunWithoutCreating(db, v, w);
      }
    }
  }

  /** A run for a new decision that could have completed, however it ends, can be finished by a later run for a new
      decision on a well-behaved store exactly when it did not lose the decision. */
  lemma NewDecisionCanBeFinishedExactly(db: Db, v: InsightView, w: Weather)
    requires ValidDb(db) && RecordId(v.recordId) && CanComplete(db, v, NewDecision)
    ensures Complete(Execute(Execute(db, v, NewDecision, w).0, v, NewDecision, Fair).1) <==> !LosesDecision(db, v, w)
  {
    OneRunWrites(db, v, NewDecision, w, 0);
    FairRunCompletes(Execute(db, v, NewDecision, w).0, v, NewDecision);
    if Suggests(InboxFor(db, v.recordId)) {
      InboxStepLeaves(db, v, w);
      TakenUpStaysOpen(db, v, w);
    } else {
      FreshRunStaysOpenExactly(db, v, w);
    }
  }

  lemma OrphanedDecisionStep(db: Db, v: InsightView, inbox: Held, done: seq<(StepName, StepStatus)>, w: Weather)
    requires inbox.Hold? && inbox.suggested == [] && OpenTitle(db.decisions, Title(v)) && |done| == 1
    ensures FromDecision(db, v, NewDecision, inbox, done, w)
         == (db, LinkResult(StopSteps(done), Some(inbox.id), None, None))
  {
  }

  lemma OrphanedStep(db: Db, v: InsightView, w: Weather)
    requires RecordId(v.recordId) && Orphaned(db, v)
    ensures Orphaned(Execute(db, v, NewDecision, w).0, v) && !Complete(Execute(db, v, NewDecision, w).1)
  {
    InboxStepWrites(db, v, w);
    InboxStepLeaves(db, v, w);
    var (db1, inbox) := RunInbox(db, v, w);
    if inbox.Stop? {
      StoppedShape([], Execute(db, v, NewDecision, w).1);
    } else {
      HeldPassed(db, v, NewDecision, inbox, 0, w);
      OrphanedDecisionStep(db1, v, inbox, [(InboxStep, inbox.status)], w);
      StoppedShape([(InboxStep, inbox.status)], Execute(db, v, NewDecision, w).1);
    }
  }

  /** From an orphaned insight no number of runs that ask for a new decision ever completes, however the store behaves;
      a run towards an existing decision completes unless the insight was rejected. */
  lemma {:induction false} OrphanedNeverCompletes(db: Db, v: InsightView, jobs: seq<Job>, w: Weather, d: Id)
    requires RecordId(v.recordId) && Orphaned(db, v)
    requires forall i :: 0 <= i < |jobs| ==> jobs[i].target == NewDecision
    ensures Orphaned(RunAll(db, v, jobs), v)
    ensures !Complete(Execute(RunAll(db, v, jobs), v, NewDecision, w).1)
    ensures Complete(Execute(RunAll(db, v, jobs), v, ExistingDecision(d), Fair).1)
       <==> InboxFor(RunAll(db, v, jobs), v.recordId) == None || InboxFor(RunAll(db, v, jobs), v.recordId).value.status != Rejected
    decreases |jobs|
  {
    if jobs == [] {
      OrphanedStep(db, v, w);
      FairRunCompletes(db, v, ExistingDecision(d));
    } else {
      OrphanedStep(db, v, jobs[0].weather);
      OrphanedNeverCompletes(Execute(db, v, NewDecision, jobs[0].weather).0, v, jobs[1..], w, d);
    }
  }

  // ---- inputs at which a new decision is lost ----

  lemma EmptyDbIsOpen(v: InsightView)
    ensures ValidDb(EmptyDb) && InboxFor(EmptyDb, v.recordId) == None && !OpenTitle(EmptyDb.decisions, Title(v))
    ensures CanComplete(EmptyDb, v, NewDecision)
  {
  }

  lemma FirstInboxIsHeld(v: InsightView, w: Weather)
    requires RecordId(v.recordId) && w.inboxRead && (w.inboxAdd == Created || w.inboxAddAgain == Created)
    requires w.inboxAdd in {Created, UnknownWritten}
    ensures var inbox := RunInbox(EmptyDb, v, w).1; inbox.Hold? && inbox.suggested == []
  {
    EmptyDbIsOpen(v);
    PlacedInboxIsFound(EmptyDb, v, w);
    var (db1, reply) := PlaceInbox(EmptyDb, v, w);
    assert RunInbox(EmptyDb, v, w) == (db1, if reply.AddedAs? then ConvergeInbox(db1, v, reply.id, w) else Stop);
    InboxStepLeaves(EmptyDb, v, w);
  }

  lemma LosingRunIsFinal(v: InsightView, w: Weather)
    requires RecordId(v.recordId) && LosesDecision(EmptyDb, v, w)
    ensures CanComplete(EmptyDb, v, NewDecision)
    ensures !Complete(Execute(Execute(EmptyDb, v, NewDecision, w).0, v, NewDecision, Fair).1)
  {
    EmptyDbIsOpen(v);
    NewDecisionCanBeFinishedExactly(EmptyDb, v, w);
  }

  /** The decision was written and its id did not come back: nothing else goes wrong, and no rerun completes. */
  lemma LostIdIsFinal(v: InsightView)
    requires RecordId(v.recordId)
    ensures var db := Execute(EmptyDb, v, NewDecision, Fair.(decisionAdd := UnknownWritten)).0;
      !Complete(Execute(db, v, NewDecision, Fair).1)
  {
    var w := Fair.(decisionAdd := UnknownWritten);
    EmptyDbIsOpen(v);
    FirstInboxIsHeld(v, w);
    LosingRunIsFinal(v, w);
  }

  /** The suggestion was not written, which is passed over, and the run stopped at the Event step. */
  lemma LostSuggestionIsFinal(v: InsightView)
    requires RecordId(v.recordId)
    ensures var w := Fair.(preLink := UpdateOutcome(false, false), eventRead := false);
      var db := Execute(EmptyDb, v, NewDecision, w).0;
      !Complete(Execute(db, v, NewDecision, Fair).1)
  {
    var w := Fair.(preLink := UpdateOutcome(false, false), eventRead := false);
    EmptyDbIsOpen(v);
    FirstInboxIsHeld(v, w);
    LosingRunIsFinal(v, w);
  }

  /** The record held was the second of two: the suggestion and the link went to the one no search will find first. */
  lemma BlindHoldIsFinal(v: InsightView)
    requires RecordId(v.recordId)
    ensures var w := Fair.(inboxAdd := UnknownWritten, inboxRecheck := false, inboxConverge := false);
      var db := Execute(EmptyDb, v, NewDecision, w).0;
      !Complete(Execute(db, v, NewDecision, Fair).1)
  {
    var w := Fair.(inboxAdd := UnknownWritten, inboxRecheck := false, inboxConverge := false);
    EmptyDbIsOpen(v);
    FirstInboxIsHeld(v, w);
    LosingRunIsFinal(v, w);
  }
}
