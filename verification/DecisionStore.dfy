/** The decision tables as the link saga changes them, one store call at a time. */
module DecisionStores {
  import opened Prelude
  import opened InsightContent
  import opened InsightTables
  import opened StoreOutcomes
  import opened InsightSaga

  class DecisionStore {
    var inboxes: seq<Inbox>
    var decisions: seq<Decision>
    var events: seq<Event>
    var clock: nat

    function Snapshot(): (db: Db)
      reads this
    {
      Db(inboxes, decisions, events, clock)
    }

    method AddInboxRecord(raw: string, o: AddOutcome) returns (reply: AddReply)
      modifies this
      ensures Snapshot() == AddInbox(old(Snapshot()), raw, o) && reply == ReplyTo(o, old(clock))
    {
      if Writes(o) { inboxes := inboxes + [Inbox(clock, clock, raw, Pending, [], [])]; }
      reply := ReplyTo(o, clock);
      clock := clock + 1;
    }

    method AddDecisionRecord(title: string, o: AddOutcome) returns (id: Option<Id>)
      modifies this
      ensures Snapshot() == AddDecision(old(Snapshot()), title, o) && id == (if o == Created then Some(old(clock)) else None)
    {
      if Writes(o) { decisions := decisions + [Decision(clock, title, true)]; }
      id := if o == Created then Some(clock) else None;
      clock := clock + 1;
    }

    method AddEventRecord(raw: string, d: Id, o: AddOutcome) returns (reply: AddReply)
      modifies this
      ensures Snapshot() == AddEvent(old(Snapshot()), raw, d, o) && reply == ReplyTo(o, old(clock))
    {
      if Writes(o) { events := events + [Event(clock, clock, raw, [d])]; }
      reply := ReplyTo(o, clock);
      clock := clock + 1;
    }

    method UpdateInboxRecord(id: Id, f: Inbox -> Inbox, u: UpdateOutcome) returns (done: bool)
      modifies this
      ensures Snapshot() == ApplyToInbox(old(Snapshot()), id, f, u) && done == u.reported
    {
      if u.applied { inboxes := UpdateInboxes(inboxes, id, f); }
      done := u.reported;
    }

    method InboxStep(v: InsightView, w: Weather) returns (held: Held)
      modifies this
      ensures (Snapshot(), held) == RunInbox(old(Snapshot()), v, w)
    {
      if !w.inboxRead { return Stop; }
      var inbox := InboxFor(Snapshot(), v.recordId);
      if inbox.Some? && inbox.value.status == Rejected { return Stop; }
      if inbox.Some? { return Hold(inbox.value.id, Reused, inbox.value.suggested); }
      var reply := AddInboxRecord(Compose(v), w.inboxAdd);
      if reply == AddUnknown {
        var found := if w.inboxRecheck then InboxFor(Snapshot(), v.recordId) else None;
        if found.Some? {
          reply := AddedAs(found.value.id);
        } else {
          reply := AddInboxRecord(Compose(v), w.inboxAddAgain);
        }
      }
      if !reply.AddedAs? { return Stop; }
      held := Hold(reply.id, Ok, []);
      if w.inboxConverge {
        var winner := InboxFor(Snapshot(), v.recordId);
        if winner.Some? && winner.value.id != reply.id { held := Hold(winner.value.id, Ok, winner.value.suggested); }
      }
    }

    method DecisionStep(v: InsightView, target: Target, inbox: Held, w: Weather) returns (held: Held)
      requires inbox.Hold?
      modifies this
      ensures (Snapshot(), held) == RunDecision(old(Snapshot()), v, target, inbox, w)
    {
      if target.ExistingDecision? {
        if inbox.suggested != [] && target.id !in inbox.suggested { return Stop; }
        return Hold(target.id, Reused, []);
      }
      if inbox.suggested != [] {
        if !w.priorRead || !HasDecision(decisions, inbox.suggested[0]) { return Stop; }
        return Hold(inbox.suggested[0], Reused, []);
      }
      if !w.titleRead || OpenTitle(decisions, Title(v)) { return Stop; }
      var id := AddDecisionRecord(Title(v), w.decisionAdd);
      if id == None { return Stop; }
      var _ := UpdateInboxRecord(inbox.id, Suggest(id.value), w.preLink);
      held := Hold(id.value, Ok, []);
    }

    method EventStep(v: InsightView, d: Id, w: Weather) returns (held: Held)
      modifies this
      ensures (Snapshot(), held) == RunEvent(old(Snapshot()), v, d, w)
    {
      if !w.eventRead { return Stop; }
      var event := EventFor(Snapshot(), v.recordId, d);
      if event.Some? { return Hold(event.value.id, Reused, []); }
      var reply := AddEventRecord(Compose(v), d, w.eventAdd);
      if reply == AddUnknown {
        var found := if w.eventRecheck then EventFor(Snapshot(), v.recordId, d) else None;
        if found.Some? {
          reply := AddedAs(found.value.id);
        } else {
          reply := AddEventRecord(Compose(v), d, w.eventAddAgain);
        }
      }
      if !reply.AddedAs? { return Stop; }
      held := Hold(reply.id, Ok, []);
      if w.eventConverge {
        var winner := EventFor(Snapshot(), v.recordId, d);
        if winner.Some? && winner.value.id != reply.id { held := Hold(winner.value.id, Ok, []); }
      }
    }

    method LinkStep(inbox: Id, d: Id, e: Id, w: Weather) returns (linked: bool)
      modifies this
      ensures (Snapshot(), linked) == RunLink(old(Snapshot()), inbox, d, e, w)
    {
      var done := UpdateInboxRecord(inbox, LinkUp(d, e), w.link);
      linked := done && w.verifyRead && Verified(Snapshot(), inbox, d, e);
    }

    /** The report of a stop: the next step failed, the later ones were skipped. */
    method StopReport(done: seq<(StepName, StepStatus)>) returns (steps: seq<(StepName, StepStatus)>)
      requires |done| < 4
      ensures steps == StopSteps(done)
    {
      steps := done + [(StepNames[|done|], StepFailed)];
      for later := |done| + 1 to 4
        invariant steps + SkipFrom(later) == StopSteps(done)
      {
        assert SkipFrom(later) == [(StepNames[later], Skipped)] + SkipFrom(later + 1);
        steps := steps + [(StepNames[later], Skipped)];
      }
      assert SkipFrom(4) == [];
    }

    /** One run of the saga: the store and the report it leaves are the ones Execute describes. */
    method ExecuteInsightLink(v: InsightView, target: Target, w: Weather) returns (r: LinkResult)
      modifies this
      ensures (Snapshot(), r) == Execute(old(Snapshot()), v, target, w)
    {
      var steps: seq<(StepName, StepStatus)> := [];
      var inboxId, decisionId := None, None;
      var inbox := InboxStep(v, w);
      if inbox.Stop? {
        steps := StopReport(steps);
        return LinkResult(steps, None, None, None);
      }
      inboxId := Some(inbox.id);
      steps := [(InsightSaga.InboxStep, inbox.status)];
      var decision := DecisionStep(v, target, inbox, w);
      if decision.Stop? {
        steps := StopReport(steps);
        return LinkResult(steps, inboxId, None, None);
      }
      decisionId := Some(decision.id);
      steps := steps + [(InsightSaga.DecisionStep, decision.status)];
      var event := EventStep(v, decision.id, w);
      if event.Stop? {
        steps := StopReport(steps);
        return LinkResult(steps, inboxId, decisionId, None);
      }
      steps := steps + [(InsightSaga.EventStep, event.status)];
      var linked := LinkStep(inbox.id, decision.id, event.id, w);
      if linked {
        steps := steps + [(InsightSaga.LinkStep, Ok)];
      } else {
        steps := StopReport(steps);
      }
      r := LinkResult(steps, inboxId, decisionId, Some(event.id));
    }
  }
}
