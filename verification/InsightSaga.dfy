/** The link of an insight to a decision: Inbox, Decision, Event, Link.  Each step looks for what an earlier run left
    before it writes, stops with an exact report when it cannot go on, and leaves what was written for the next run. */
module InsightSaga {
  import opened Prelude
  import opened InsightContent
  import opened InsightTables
  import opened StoreOutcomes

  // ---- what is asked for, and how the store behaves ----

  datatype Target = NewDecision | ExistingDecision(id: Id)

  /** How each store call of one run ends.  Reads say whether they succeed. */
  datatype Weather = Weather(
    inboxRead: bool, inboxAdd: AddOutcome, inboxRecheck: bool, inboxAddAgain: AddOutcome, inboxConverge: bool,
    priorRead: bool, titleRead: bool, decisionAdd: AddOutcome, preLink: UpdateOutcome,
    eventRead: bool, eventAdd: AddOutcome, eventRecheck: bool, eventAddAgain: AddOutcome, eventConverge: bool,
    link: UpdateOutcome, verifyRead: bool)

  const Fair := Weather(true, Created, true, Created, true, true, true, Created, UpdateOutcome(true, true),
                        true, Created, true, Created, true, UpdateOutcome(true, true), true)

  // ---- what is reported ----

  datatype StepName = InboxStep | DecisionStep | EventStep | LinkStep
  datatype StepStatus = Ok | Reused | StepFailed | Skipped
  datatype LinkResult = LinkResult(steps: seq<(StepName, StepStatus)>, inboxId: Option<Id>, decisionId: Option<Id>, eventId: Option<Id>)

  const StepNames := [InboxStep, DecisionStep, EventStep, LinkStep]

  predicate Passed(s: StepStatus) { s == Ok || s == Reused }

  predicate Complete(r: LinkResult) {
    |r.steps| == |StepNames| && forall i :: 0 <= i < |r.steps| ==> Passed(r.steps[i].1)
  }

  function SkipFrom(n: nat): seq<(StepName, StepStatus)>
    requires n <= 4
    decreases 4 - n
  {
    if n == 4 then [] else [(StepNames[n], Skipped)] + SkipFrom(n + 1)
  }

  /** The report of a stop: the failing step after those that passed, the later ones skipped. */
  function StopSteps(done: seq<(StepName, StepStatus)>): seq<(StepName, StepStatus)>
    requires |done| < 4
  {
    done + [(StepNames[|done|], StepFailed)] + SkipFrom(|done| + 1)
  }

  // ---- W1: Inbox ----

  /** A step either stops or hands on what it holds. */
  datatype Held = Stop | Hold(id: Id, status: StepStatus, suggested: seq<Id>)

  datatype AddReply = AddedAs(id: Id) | AddRefused | AddUnknown

  function ReplyTo(o: AddOutcome, id: Id): AddReply {
    match o
    case Created => AddedAs(id)
    case CreatedWithoutId => AddRefused
    case Failed => AddRefused
    case _ => AddUnknown
  }

  function AddInbox(db: Db, raw: string, o: AddOutcome): Db {
    db.(inboxes := if Writes(o) then db.inboxes + [Inbox(db.clock, db.clock, raw, Pending, [], [])] else db.inboxes,
        clock := db.clock + 1)
  }

  /** After an unknown outcome: look again before adding once more. */
  function SettleInbox(db: Db, v: InsightView, w: Weather): (Db, AddReply) {
    if w.inboxRecheck && InboxFor(db, v.recordId).Some? then (db, AddedAs(InboxFor(db, v.recordId).value.id))
    else (AddInbox(db, Compose(v), w.inboxAddAgain), ReplyTo(w.inboxAddAgain, db.clock))
  }

  function PlaceInbox(db: Db, v: InsightView, w: Weather): (Db, AddReply) {
    var db1 := AddInbox(db, Compose(v), w.inboxAdd);
    if Unknown(w.inboxAdd) then SettleInbox(db1, v, w) else (db1, ReplyTo(w.inboxAdd, db.clock))
  }

  /** After a write, everyone converges on the oldest record of the insight. */
  function ConvergeInbox(db: Db, v: InsightView, id: Id, w: Weather): Held {
    if w.inboxConverge && InboxFor(db, v.recordId).Some? && InboxFor(db, v.recordId).value.id != id
    then Hold(InboxFor(db, v.recordId).value.id, Ok, InboxFor(db, v.recordId).value.suggested)
    else Hold(id, Ok, [])
  }

  function RunInbox(db: Db, v: InsightView, w: Weather): (Db, Held) {
    if !w.inboxRead then (db, Stop)
    else match InboxFor(db, v.recordId)
      case Some(r) => (db, if r.status == Rejected then Stop else Hold(r.id, Reused, r.suggested))
      case None =>
        var (db1, reply) := PlaceInbox(db, v, w);
        (db1, if reply.AddedAs? then ConvergeInbox(db1, v, reply.id, w) else Stop)
  }

  // ---- W2: Decision ----

  function Title(v: InsightView): string { if |v.title| <= 120 then v.title else v.title[..120] }

  function AddDecision(db: Db, title: string, o: AddOutcome): Db {
    db.(decisions := if Writes(o) then db.decisions + [Decision(db.clock, title, true)] else db.decisions,
        clock := db.clock + 1)
  }

  function ApplyToInbox(db: Db, id: Id, f: Inbox -> Inbox, u: UpdateOutcome): Db {
    if u.applied then db.(inboxes := UpdateInboxes(db.inboxes, id, f)) else db
  }

  function Suggest(decision: Id): Inbox -> Inbox { (r: Inbox) => r.(suggested := [decision]) }

  function RunDecision(db: Db, v: InsightView, target: Target, inbox: Held, w: Weather): (Db, Held)
    requires inbox.Hold?
  {
    match target
    case ExistingDecision(d) =>
      (db, if inbox.suggested != [] && d !in inbox.suggested then Stop else Hold(d, Reused, []))
    case NewDecision =>
      if inbox.suggested != [] then
        (db, if w.priorRead && HasDecision(db.decisions, inbox.suggested[0]) then Hold(inbox.suggested[0], Reused, []) else Stop)
      else if !w.titleRead || OpenTitle(db.decisions, Title(v)) then (db, Stop)
      else
        var db1 := AddDecision(db, Title(v), w.decisionAdd);
        if w.decisionAdd != Created then (db1, Stop)
        else (ApplyToInbox(db1, inbox.id, Suggest(db.clock), w.preLink), Hold(db.clock, Ok, []))
  }

  // ---- W3: Event ----

  function AddEvent(db: Db, raw: string, decision: Id, o: AddOutcome): Db {
    db.(events := if Writes(o) then db.events + [Event(db.clock, db.clock, raw, [decision])] else db.events,
        clock := db.clock + 1)
  }

  function SettleEvent(db: Db, v: InsightView, d: Id, w: Weather): (Db, AddReply) {
    if w.eventRecheck && EventFor(db, v.recordId, d).Some? then (db, AddedAs(EventFor(db, v.recordId, d).value.id))
    else (AddEvent(db, Compose(v), d, w.eventAddAgain), ReplyTo(w.eventAddAgain, db.clock))
  }

  function PlaceEvent(db: Db, v: InsightView, d: Id, w: Weather): (Db, AddReply) {
    var db1 := AddEvent(db, Compose(v), d, w.eventAdd);
    if Unknown(w.eventAdd) then SettleEvent(db1, v, d, w) else (db1, ReplyTo(w.eventAdd, db.clock))
  }

  function ConvergeEvent(db: Db, v: InsightView, d: Id, id: Id, w: Weather): Held {
    if w.eventConverge && EventFor(db, v.recordId, d).Some? then Hold(EventFor(db, v.recordId, d).value.id, Ok, [])
    else Hold(id, Ok, [])
  }

  function RunEvent(db: Db, v: InsightView, d: Id, w: Weather): (Db, Held) {
    if !w.eventRead then (db, Stop)
    else match EventFor(db, v.recordId, d)
      case Some(e) => (db, Hold(e.id, Reused, []))
      case None =>
        var (db1, reply) := PlaceEvent(db, v, d, w);
        (db1, if reply.AddedAs? then ConvergeEvent(db1, v, d, reply.id, w) else Stop)
  }

  // ---- W4: link and read back ----

  function LinkUp(decision: Id, event: Id): Inbox -> Inbox {
    (r: Inbox) => r.(status := Linked, suggested := [decision], events := [event])
  }

  predicate Verified(db: Db, inbox: Id, decision: Id, event: Id) {
    var r := GetInbox(db.inboxes, inbox);
    r.Some? && r.value.status == Linked && decision in r.value.suggested && event in r.value.events
  }

  function RunLink(db: Db, inbox: Id, decision: Id, event: Id, w: Weather): (Db, bool) {
    var db1 := ApplyToInbox(db, inbox, LinkUp(decision, event), w.link);
    (db1, w.link.reported && w.verifyRead && Verified(db1, inbox, decision, event))
  }

  // ---- the whole run ----

  function FromLink(db: Db, inbox: Id, d: Id, e: Id, done: seq<(StepName, StepStatus)>, w: Weather): (Db, LinkResult)
    requires |done| == 3
  {
    var (db1, linked) := RunLink(db, inbox, d, e, w);
    (db1, LinkResult(if linked then done + [(LinkStep, Ok)] else StopSteps(done), Some(inbox), Some(d), Some(e)))
  }

  function FromEvent(db: Db, v: InsightView, inbox: Id, d: Id, done: seq<(StepName, StepStatus)>, w: Weather): (Db, LinkResult)
    requires |done| == 2
  {
    var (db1, event) := RunEvent(db, v, d, w);
    if event.Stop? then (db1, LinkResult(StopSteps(done), Some(inbox), Some(d), None))
    else FromLink(db1, inbox, d, event.id, done + [(EventStep, event.status)], w)
  }

  function FromDecision(
    db: Db, v: InsightView, target: Target, inbox: Held, done: seq<(StepName, StepStatus)>, w: Weather
  ): (Db, LinkResult)
    requires inbox.Hold? && |done| == 1
  {
    var (db1, decision) := RunDecision(db, v, target, inbox, w);
    if decision.Stop? then (db1, LinkResult(StopSteps(done), Some(inbox.id), None, None))
    else FromEvent(db1, v, inbox.id, decision.id, done + [(DecisionStep, decision.status)], w)
  }

  function Execute(db: Db, v: InsightView, target: Target, w: Weather): (Db, LinkResult) {
    var (db1, inbox) := RunInbox(db, v, w);
    if inbox.Stop? then (db1, LinkResult(StopSteps([]), None, None, None))
    else FromDecision(db1, v, target, inbox, [(InboxStep, inbox.status)], w)
  }
}
