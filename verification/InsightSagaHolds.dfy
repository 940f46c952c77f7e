/** The record a step of the link saga holds, and the record the next search will find. */
module InsightSagaHolds {
  import opened Prelude
  import opened Texts
  import opened InsightContent
  import opened InsightTables
  import opened StoreOutcomes
  import opened InsightSaga
  import opened InsightSagaLaws

  // ---- Inbox records ----

  /** The Inbox step hands on the oldest record unless its first add was lost on the way back although it was written,
      the re-check failed, and so did the read that converges. */
  predicate HoldsOldest(db: Db, v: InsightView, w: Weather) {
    InboxFor(db, v.recordId).Some? || w.inboxAdd != UnknownWritten || w.inboxRecheck || w.inboxConverge
  }

  lemma OldestOfOne(r: Inbox)
    ensures OldestInbox([r]) == Some(r)
  {
    assert OldestInbox([r][1..]) == None;
  }

  /** The oldest after two adds to nothing: the first if it was written, and else the second. */
  lemma OldestAfterAdds(rows: seq<Inbox>, a: Inbox, b: Inbox, o: AddOutcome, again: AddOutcome)
    requires rows == (if Writes(o) then [a] else []) + (if Writes(again) then [b] else []) && a.created < b.created
    ensures OldestInbox(rows) == if Writes(o) then Some(a) else if Writes(again) then Some(b) else None
  {
    OldestOfOne(a);
    OldestOfOne(b);
    if Writes(o) && Writes(again) {
      assert rows[1..] == [b];
    } else if Writes(o) {
      assert rows == [a];
    } else if Writes(again) {
      assert rows == [b];
    }
  }

  function NewInbox(clock: nat, raw: string): Inbox { Inbox(clock, clock, raw, Pending, [], []) }

  lemma AddIsFound(db: Db, raw: string, o: AddOutcome, insight: string)
    requires Marked(raw, insight)
    ensures FindInboxes(AddInbox(db, raw, o).inboxes, insight)
         == FindInboxes(db.inboxes, insight) + if Writes(o) then [NewInbox(db.clock, raw)] else []
  {
    FindInboxesAppend(db.inboxes, NewInbox(db.clock, raw), insight);
  }

  lemma FirstAddIsFound(db: Db, raw: string, o: AddOutcome, insight: string)
    requires Marked(raw, insight) && InboxFor(db, insight) == None
    ensures var db1 := AddInbox(db, raw, o);
      && FindInboxes(db1.inboxes, insight) == (if Writes(o) then [NewInbox(db.clock, raw)] else [])
      && InboxFor(db1, insight) == if Writes(o) then Some(NewInbox(db.clock, raw)) else None
  {
    InboxForIsFound(db, insight);
    AddIsFound(db, raw, o, insight);
    OldestOfOne(NewInbox(db.clock, raw));
  }

  /** After a lost first add and a second one the search finds the first if it was written, and else the second. */
  lemma SecondAddIsFound(db: Db, raw: string, o: AddOutcome, again: AddOutcome, insight: string)
    requires Marked(raw, insight) && InboxFor(db, insight) == None
    ensures InboxFor(AddInbox(AddInbox(db, raw, o), raw, again), insight)
         == if Writes(o) then Some(NewInbox(db.clock, raw))
            else if Writes(again) then Some(NewInbox(db.clock + 1, raw)) else None
  {
    var db1 := AddInbox(db, raw, o);
    InboxForIsFound(db, insight);
    AddIsFound(db, raw, o, insight);
    AddIsFound(db1, raw, again, insight);
    OldestAfterAdds(FindInboxes(AddInbox(db1, raw, again).inboxes, insight), NewInbox(db.clock, raw),
                    NewInbox(db.clock + 1, raw), o, again);
  }

  /** What a first Inbox step has placed: a pending record, the one reported unless that was the second of two. */
  lemma PlacedInboxIsFound(db: Db, v: InsightView, w: Weather)
    requires RecordId(v.recordId) && InboxFor(db, v.recordId) == None
    ensures
      var (db1, reply) := PlaceInbox(db, v, w);
      var found := InboxFor(db1, v.recordId);
      && (found.Some? ==> found.value in {NewInbox(db.clock, Compose(v)), NewInbox(db.clock + 1, Compose(v))})
      && (reply.AddedAs? ==>
            found.Some? && (found.value.id == reply.id <==> w.inboxAdd != UnknownWritten || w.inboxRecheck))
  {
    ComposedContentIsFound(v);
    FirstAddIsFound(db, Compose(v), w.inboxAdd, v.recordId);
    SecondAddIsFound(db, Compose(v), w.inboxAdd, w.inboxAddAgain, v.recordId);
    var db1 := AddInbox(db, Compose(v), w.inboxAdd);
    if Unknown(w.inboxAdd) {
      assert PlaceInbox(db, v, w) == SettleInbox(db1, v, w);
    } else {
      assert PlaceInbox(db, v, w) == (db1, ReplyTo(w.inboxAdd, db.clock));
    }
  }

  /** After the Inbox step: what the next search finds, and whether it is the record held. */
  lemma InboxStepLeaves(db: Db, v: InsightView, w: Weather)
    requires RecordId(v.recordId)
    ensures
      var (db1, inbox) := RunInbox(db, v, w);
      var found := InboxFor(db1, v.recordId);
      && (InboxFor(db, v.recordId).Some? ==> found == InboxFor(db, v.recordId))
      && (InboxFor(db, v.recordId) == None && found.Some? ==> found.value.status == Pending && found.value.suggested == [])
      && (inbox.Hold? ==>
            && found.Some? && found.value.status != Rejected
            && inbox.suggested == found.value.suggested
            && (found.value.id == inbox.id <==> HoldsOldest(db, v, w)))
  {
    if w.inboxRead && InboxFor(db, v.recordId) == None {
      PlacedInboxIsFound(db, v, w);
      var (db1, reply) := PlaceInbox(db, v, w);
      assert RunInbox(db, v, w) == (db1, if reply.AddedAs? then ConvergeInbox(db1, v, reply.id, w) else Stop);
    }
  }

  // ---- Events ----

  /** The same for the Event step. */
  predicate HoldsOldestEvent(db: Db, v: InsightView, d: Id, w: Weather) {
    EventFor(db, v.recordId, d).Some? || w.eventAdd != UnknownWritten || w.eventRecheck || w.eventConverge
  }

  lemma OldestEventOfOne(e: Event)
    ensures OldestEvent([e]) == Some(e)
  {
    assert OldestEvent([e][1..]) == None;
  }

  lemma OldestEventAfterAdds(rows: seq<Event>, a: Event, b: Event, o: AddOutcome, again: AddOutcome)
    requires rows == (if Writes(o) then [a] else []) + (if Writes(again) then [b] else []) && a.created < b.created
    ensures OldestEvent(rows) == if Writes(o) then Some(a) else if Writes(again) then Some(b) else None
  {
    OldestEventOfOne(a);
    OldestEventOfOne(b);
    if Writes(o) && Writes(again) {
      assert rows[1..] == [b];
    } else if Writes(o) {
      assert rows == [a];
    } else if Writes(again) {
      assert rows == [b];
    }
  }

  function NewEvent(clock: nat, raw: string, d: Id): Event { Event(clock, clock, raw, [d]) }

  lemma AddEventIsFound(db: Db, raw: string, d: Id, o: AddOutcome, insight: string)
    requires Marked(raw, insight)
    ensures FindEvents(AddEvent(db, raw, d, o).events, insight, d)
         == FindEvents(db.events, insight, d) + if Writes(o) then [NewEvent(db.clock, raw, d)] else []
  {
    FindEventsAppend(db.events, NewEvent(db.clock, raw, d), insight, d);
  }

  lemma FirstEventIsFound(db: Db, raw: string, d: Id, o: AddOutcome, insight: string)
    requires Marked(raw, insight) && EventFor(db, insight, d) == None
    ensures var db1 := AddEvent(db, raw, d, o);
      && FindEvents(db1.events, insight, d) == (if Writes(o) then [NewEvent(db.clock, raw, d)] else [])
      && EventFor(db1, insight, d) == if Writes(o) then Some(NewEvent(db.clock, raw, d)) else None
  {
    EventForIsFound(db, insight, d);
    AddEventIsFound(db, raw, d, o, insight);
    OldestEventOfOne(NewEvent(db.clock, raw, d));
  }

  lemma SecondEventIsFound(db: Db, raw: string, d: Id, o: AddOutcome, again: AddOutcome, insight: string)
    requires Marked(raw, insight) && EventFor(db, insight, d) == None
    ensures EventFor(AddEvent(AddEvent(db, raw, d, o), raw, d, again), insight, d)
         == if Writes(o) then Some(NewEvent(db.clock, raw, d))
            else if Writes(again) then Some(NewEvent(db.clock + 1, raw, d)) else None
  {
    var db1 := AddEvent(db, raw, d, o);
    EventForIsFound(db, insight, d);
    AddEventIsFound(db, raw, d, o, insight);
    AddEventIsFound(db1, raw, d, again, insight);
    OldestEventAfterAdds(FindEvents(AddEvent(db1, raw, d, again).events, insight, d), NewEvent(db.clock, raw, d),
                         NewEvent(db.clock + 1, raw, d), o, again);
  }

  lemma PlacedEventIsFound(db: Db, v: InsightView, d: Id, w: Weather)
    requires RecordId(v.recordId) && EventFor(db, v.recordId, d) == None
    ensures
      var (db1, reply) := PlaceEvent(db, v, d, w);
      var found := EventFor(db1, v.recordId, d);
      reply.AddedAs? ==> found.Some? && (found.value.id == reply.id <==> w.eventAdd != UnknownWritten || w.eventRecheck)
  {
    ComposedContentIsFound(v);
    FirstEventIsFound(db, Compose(v), d, w.eventAdd, v.recordId);
    SecondEventIsFound(db, Compose(v), d, w.eventAdd, w.eventAddAgain, v.recordId);
    var db1 := AddEvent(db, Compose(v), d, w.eventAdd);
    if Unknown(w.eventAdd) {
      assert PlaceEvent(db, v, d, w) == SettleEvent(db1, v, d, w);
    } else {
      assert PlaceEvent(db, v, d, w) == (db1, ReplyTo(w.eventAdd, db.clock));
    }
  }

  /** After the Event step: whether the record held is the one the next search finds. */
  lemma EventStepLeaves(db: Db, v: InsightView, d: Id, w: Weather)
    requires RecordId(v.recordId) && RunEvent(db, v, d, w).1.Hold?
    ensures var (db1, event) := RunEvent(db, v, d, w);
      && EventFor(db1, v.recordId, d).Some?
      && (EventFor(db1, v.recordId, d).value.id == event.id <==> HoldsOldestEvent(db, v, d, w))
  {
    if EventFor(db, v.recordId, d) == None {
      PlacedEventIsFound(db, v, d, w);
      var (db1, reply) := PlaceEvent(db, v, d, w);
      assert RunEvent(db, v, d, w) == (db1, if reply.AddedAs? then ConvergeEvent(db1, v, d, reply.id, w) else Stop);
    }
  }
}
