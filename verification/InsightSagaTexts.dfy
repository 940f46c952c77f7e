/** What the records of a run say: the title of the decision it opens, the open decision that stands in its way, and the
    lines an Inbox record and an Event carry. */
module InsightSagaTexts {
  import opened Prelude
  import opened Texts
  import opened InsightContent
  import opened InsightTables
  import opened StoreOutcomes
  import opened InsightSaga
  import opened InsightSagaLaws
  import opened InsightSagaHolds
  import opened InsightSagaRuns

  // ---- the decision ----

  /** A text by its first 120 characters, all of it when it has no more. */
  predicate Heads(head: string, text: string) { head <= text && |head| == if |text| < 120 then |text| else 120 }

  /** An open decision that is called what this text would be called. */
  ghost predicate OpenDecisionOf(rows: seq<Decision>, text: string) {
    exists d :: d in rows && d.open && Heads(d.title, text)
  }

  lemma OneHead(a: string, b: string, text: string)
    requires Heads(a, text) && Heads(b, text)
    ensures a == b
  {
    assert a == text[..|a|] && b == text[..|b|];
  }

  lemma OpenTitleIsOpenDecision(rows: seq<Decision>, v: InsightView)
    ensures Heads(Title(v), v.title)
    ensures OpenTitle(rows, Title(v)) <==> OpenDecisionOf(rows, v.title)
  {
    if OpenTitle(rows, Title(v)) {
      var i :| 0 <= i < |rows| && rows[i].open && rows[i].title == Title(v);
      assert rows[i] in rows;
    }
    if OpenDecisionOf(rows, v.title) {
      var d :| d in rows && d.open && Heads(d.title, v.title);
      OneHead(d.title, Title(v), v.title);
      var i :| 0 <= i < |rows| && rows[i] == d;
      assert rows[i].open && rows[i].title == Title(v);
    }
  }

  /** A decision was recorded for the insight before. */
  predicate SuggestedBefore(db: Db, v: InsightView) {
    InboxFor(db, v.recordId).Some? && InboxFor(db, v.recordId).value.suggested != []
  }

  lemma EventStepKeepsDecisions(db: Db, v: InsightView, d: Id, w: Weather)
    ensures RunEvent(db, v, d, w).0.decisions == db.decisions
  {
  }

  lemma LastStepsKeepDecisions(db: Db, v: InsightView, inbox: Id, d: Id, done: seq<(StepName, StepStatus)>, w: Weather)
    requires |done| == 2
    ensures FromEvent(db, v, inbox, d, done, w).0.decisions == db.decisions
  {
    EventStepKeepsDecisions(db, v, d, w);
  }

  lemma FirstStepKeepsDecisions(db: Db, v: InsightView, w: Weather)
    ensures RunInbox(db, v, w).0.decisions == db.decisions && RunInbox(db, v, w).0.events == db.events
  {
  }

  lemma DecisionsFromDecision(
    db: Db, v: InsightView, target: Target, inbox: Held, done: seq<(StepName, StepStatus)>, w: Weather)
    requires inbox.Hold? && |done| == 1
    ensures FromDecision(db, v, target, inbox, done, w).0.decisions == RunDecision(db, v, target, inbox, w).0.decisions
  {
    var (db1, decision) := RunDecision(db, v, target, inbox, w);
    if decision.Hold? {
      LastStepsKeepDecisions(db1, v, inbox.id, decision.id, done + [(DecisionStep, decision.status)], w);
    }
  }

  lemma DecisionsOfARun(db: Db, v: InsightView, target: Target, w: Weather)
    requires RecordId(v.recordId)
    ensures var (db1, inbox) := RunInbox(db, v, w);
      && db1.decisions == db.decisions
      && (inbox.Hold? ==> (inbox.suggested != [] <==> SuggestedBefore(db, v)))
      && Execute(db, v, target, w).0.decisions
           == if inbox.Hold? then RunDecision(db1, v, target, inbox, w).0.decisions else db.decisions
  {
    InboxStepLeaves(db, v, w);
    FirstStepKeepsDecisions(db, v, w);
    var (db1, inbox) := RunInbox(db, v, w);
    if inbox.Hold? { DecisionsFromDecision(db1, v, target, inbox, [(InboxStep, inbox.status)], w); }
  }

  /** A run opens a decision exactly when it was asked for a new one, came past its Inbox step, found none recorded
      before, and could read that no open decision has the title.  The one it opens is open and is called what the
      insight is called, up to 120 characters. */
  lemma DecisionOpenedExactly(db: Db, v: InsightView, target: Target, w: Weather)
    requires RecordId(v.recordId)
    ensures var more := Execute(db, v, target, w).0.decisions;
      && (if target == NewDecision && RunInbox(db, v, w).1.Hold? && !SuggestedBefore(db, v)
             && w.titleRead && !OpenDecisionOf(db.decisions, v.title) && Writes(w.decisionAdd)
          then |more| == |db.decisions| + 1 && more[..|db.decisions|] == db.decisions
               && more[|db.decisions|].open && Heads(more[|db.decisions|].title, v.title)
          else more == db.decisions)
  {
    DecisionsOfARun(db, v, target, w);
    OpenTitleIsOpenDecision(db.decisions, v);
  }

  /** With an open decision of that title in the store, whoever opened it, a run that should open a new one and has none
      to go back to writes no decision and no Event, and does not complete. */
  lemma OpenDecisionRefuses(db: Db, v: InsightView, w: Weather)
    requires RecordId(v.recordId) && !SuggestedBefore(db, v) && OpenDecisionOf(db.decisions, v.title)
    ensures var (db1, r) := Execute(db, v, NewDecision, w);
      db1.decisions == db.decisions && db1.events == db.events && r.decisionId == None && !Complete(r)
  {
    DecisionsOfARun(db, v, NewDecision, w);
    OpenTitleIsOpenDecision(db.decisions, v);
    var (db1, inbox) := RunInbox(db, v, w);
    HeldPassed(db, v, NewDecision, inbox, 0, w);
    if inbox.Stop? {
      StoppedShape([], Execute(db, v, NewDecision, w).1);
    } else {
      StoppedShape([(InboxStep, inbox.status)], Execute(db, v, NewDecision, w).1);
    }
  }

  // ---- the Inbox record and the Event ----

  /** The lines of a text as they stand, blank ones included. */
  function Lines(s: string): seq<string> { LinesFrom(s, "") }

  lemma LinesJoin(a: string, b: string)
    ensures Lines(a + "\n" + b) == Lines(a) + Lines(b)
  {
    LinesAtBreak(a, b, "");
  }

  /** What a record made from the insight reads, line by line: its title, its description and its next action where it
      has them, the note on where it comes from, and the marker. */
  ghost predicate Tells(raw: string, v: InsightView) {
    Lines(raw)
    == Lines("תובנה: " + v.title)
       + (if v.description == "" then [] else Lines(v.description))
       + (if v.nextAction == "" then [] else Lines("פעולה הבאה (מהתובנה): " + v.nextAction))
       + Lines("מקור: תובנה פנימית (Learnings & Insights) — לא אומת מול מקור חיצוני")
       + ["[insight:" + v.recordId + "]"]
  }

  lemma NextActionLine(nextAction: string)
    ensures "\nפעולה הבאה (מהתובנה): " + nextAction == "\n" + ("פעולה הבאה (מהתובנה): " + nextAction)
  {
  }

  lemma LinesOfParts(title: string, description: string, hasNext: bool, next: string, note: string)
    ensures Lines(title + (if description != "" then "\n" + description else "") + (if hasNext then "\n" + next else "")
                  + "\n" + note)
         == Lines(title) + (if description == "" then [] else Lines(description)) + (if hasNext then Lines(next) else [])
            + Lines(note)
  {
    var a := title + if description != "" then "\n" + description else "";
    var b := a + if hasNext then "\n" + next else "";
    assert a == if description != "" then title + "\n" + description else title;
    assert b == if hasNext then a + "\n" + next else a;
    LinesJoin(title, description);
    LinesJoin(a, next);
    LinesJoin(b, note);
  }

  lemma ComposedTells(v: InsightView)
    requires RecordId(v.recordId)
    ensures Tells(Compose(v), v)
  {
    NextActionLine(v.nextAction);
    LinesOfParts("תובנה: " + v.title, v.description, v.nextAction != "", "פעולה הבאה (מהתובנה): " + v.nextAction, SOURCE_LABEL);
    LinesJoin(Body(v), Marker(v.recordId));
    MarkerIsOneLine(v.recordId);
    NoBreakOneLine(Marker(v.recordId), "");
    assert "" + Marker(v.recordId) == Marker(v.recordId);
  }

  /** What may become of an Inbox record: it is left alone, or one decision is suggested in it, or it is linked to one
      decision and one Event. */
  predicate Touched(before: Inbox, after: Inbox) {
    && after.id == before.id && after.created == before.created && after.raw == before.raw
    && (after.suggested == before.suggested || |after.suggested| == 1)
    && ((after.status == before.status && after.events == before.events)
        || (after.status == Linked && |after.suggested| == 1 && |after.events| == 1))
  }

  /** The rows there were, touched at most, and behind them new ones with this text, which came in as pending. */
  predicate InboxesGrow(rows: seq<Inbox>, more: seq<Inbox>, raw: string) {
    && |rows| <= |more|
    && (forall i :: 0 <= i < |rows| ==> Touched(rows[i], more[i]))
    && (forall i :: |rows| <= i < |more| ==> Touched(Inbox(more[i].id, more[i].created, raw, Pending, [], []), more[i]))
  }

  predicate EventsGrow(rows: seq<Event>, more: seq<Event>, raw: string, d: Id) {
    && |rows| <= |more| && more[..|rows|] == rows
    && forall i :: |rows| <= i < |more| ==> more[i].raw == raw && more[i].decisions == [d]
  }

  ghost predicate KeepsTouched(f: Inbox -> Inbox) { forall a, b :: Touched(a, b) ==> Touched(a, f(b)) }

  lemma UpdateGrows(rows: seq<Inbox>, more: seq<Inbox>, raw: string, id: Id, f: Inbox -> Inbox)
    requires InboxesGrow(rows, more, raw) && KeepsTouched(f) && KeepsIdentity(f)
    ensures InboxesGrow(rows, UpdateInboxes(more, id, f), raw)
  {
    UpdateInboxesAt(more, id, f);
    var all := UpdateInboxes(more, id, f);
    forall i | 0 <= i < |rows| ensures Touched(rows[i], all[i]) {
      assert Touched(rows[i], more[i]);
      assert all[i] == UpdateRow(more[i], id, f);
    }
    forall i | |rows| <= i < |all| ensures Touched(Inbox(all[i].id, all[i].created, raw, Pending, [], []), all[i]) {
      assert Touched(Inbox(more[i].id, more[i].created, raw, Pending, [], []), more[i]);
      assert all[i] == UpdateRow(more[i], id, f) && f(more[i]).id == more[i].id;
    }
  }

  lemma FirstStepGrows(db: Db, v: InsightView, w: Weather)
    ensures InboxesGrow(db.inboxes, RunInbox(db, v, w).0.inboxes, Compose(v)) && RunInbox(db, v, w).0.events == db.events
  {
    var db1 := AddInbox(db, Compose(v), w.inboxAdd);
    assert InboxesGrow(db.inboxes, db1.inboxes, Compose(v));
    assert InboxesGrow(db.inboxes, AddInbox(db1, Compose(v), w.inboxAddAgain).inboxes, Compose(v));
  }

  lemma SecondStepGrows(db: Db, v: InsightView, target: Target, inbox: Held, w: Weather, rows: seq<Inbox>)
    requires inbox.Hold? && InboxesGrow(rows, db.inboxes, Compose(v))
    ensures var db1 := RunDecision(db, v, target, inbox, w).0;
      InboxesGrow(rows, db1.inboxes, Compose(v)) && db1.events == db.events
  {
    UpdateGrows(rows, db.inboxes, Compose(v), inbox.id, Suggest(db.clock));
  }

  lemma ThirdStepGrows(db: Db, v: InsightView, d: Id, w: Weather)
    ensures var db1 := RunEvent(db, v, d, w).0;
      EventsGrow(db.events, db1.events, Compose(v), d) && db1.inboxes == db.inboxes
  {
    var db1 := AddEvent(db, Compose(v), d, w.eventAdd);
    assert EventsGrow(db.events, db1.events, Compose(v), d);
    assert EventsGrow(db.events, AddEvent(db1, Compose(v), d, w.eventAddAgain).events, Compose(v), d);
  }

  lemma LastStepsGrow(db: Db, v: InsightView, inbox: Id, d: Id, done: seq<(StepName, StepStatus)>, w: Weather, rows: seq<Inbox>)
    requires |done| == 2 && InboxesGrow(rows, db.inboxes, Compose(v))
    ensures var (db1, r) := FromEvent(db, v, inbox, d, done, w);
      && r.decisionId == Some(d)
      && InboxesGrow(rows, db1.inboxes, Compose(v)) && EventsGrow(db.events, db1.events, Compose(v), d)
  {
    ThirdStepGrows(db, v, d, w);
    var (db1, event) := RunEvent(db, v, d, w);
    if event.Hold? { UpdateGrows(rows, db1.inboxes, Compose(v), inbox, LinkUp(d, event.id)); }
  }

  ghost predicate TablesGrow(db: Db, db1: Db, raw: string, d: Option<Id>) {
    && InboxesGrow(db.inboxes, db1.inboxes, raw)
    && (if d == None then db1.events == db.events else EventsGrow(db.events, db1.events, raw, d.value))
  }

  /** Whatever the store does, the Inbox records a run adds read what the insight reads and so do the Events it adds,
      which belong to the decision it reports and to no other.  Of the Inbox records there were, no text is changed, and
      a status only together with the links. */
  lemma RecordsTellTheInsight(db: Db, v: InsightView, target: Target, w: Weather)
    requires RecordId(v.recordId)
    ensures exists raw ::
      Tells(raw, v) && TablesGrow(db, Execute(db, v, target, w).0, raw, Execute(db, v, target, w).1.decisionId)
  {
    ComposedTells(v);
    FirstStepGrows(db, v, w);
    var (db1, inbox) := RunInbox(db, v, w);
    if inbox.Hold? {
      SecondStepGrows(db1, v, target, inbox, w, db.inboxes);
      var (db2, decision) := RunDecision(db1, v, target, inbox, w);
      if decision.Hold? {
        var done := [(InboxStep, inbox.status)] + [(DecisionStep, decision.status)];
        LastStepsGrow(db2, v, inbox.id, decision.id, done, w, db.inboxes);
      }
    }
  }
}
