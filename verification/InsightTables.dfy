/** The three tables the link saga writes, the reads it makes of them, and the choice among duplicates. */
module InsightTables {
  import opened Prelude
  import opened InsightContent
  import opened StoreOutcomes

  type Id = nat

  datatype InboxStatus = Pending | Linked | Rejected

  datatype Inbox = Inbox(id: Id, created: nat, raw: string, status: InboxStatus, suggested: seq<Id>, events: seq<Id>)
  datatype Decision = Decision(id: Id, title: string, open: bool)
  datatype Event = Event(id: Id, created: nat, raw: string, decisions: seq<Id>)

  /** `clock` numbers new records; a later record has a later creation time. */
  datatype Db = Db(inboxes: seq<Inbox>, decisions: seq<Decision>, events: seq<Event>, clock: nat)

  const EmptyDb := Db([], [], [], 0)

  ghost predicate ValidDb(db: Db) {
    && (forall i :: 0 <= i < |db.inboxes| ==> db.inboxes[i].id < db.clock && db.inboxes[i].created < db.clock)
    && (forall i :: 0 <= i < |db.decisions| ==> db.decisions[i].id < db.clock)
    && (forall i :: 0 <= i < |db.events| ==> db.events[i].id < db.clock && db.events[i].created < db.clock)
    && (forall i, j :: 0 <= i < j < |db.inboxes| ==> db.inboxes[i].id != db.inboxes[j].id)
    && (forall i, j :: 0 <= i < j < |db.events| ==> db.events[i].id != db.events[j].id)
  }

  // ---- reads ----

  function FindInboxes(rows: seq<Inbox>, insight: string): seq<Inbox> {
    if rows == [] then []
    else
      FindInboxes(rows[..|rows| - 1], insight)
      + if Marked(rows[|rows| - 1].raw, insight) then [rows[|rows| - 1]] else []
  }

  predicate EventOf(e: Event, insight: string, decision: Id) { decision in e.decisions && Marked(e.raw, insight) }

  function FindEvents(rows: seq<Event>, insight: string, decision: Id): seq<Event> {
    if rows == [] then []
    else
      FindEvents(rows[..|rows| - 1], insight, decision)
      + if EventOf(rows[|rows| - 1], insight, decision) then [rows[|rows| - 1]] else []
  }

  function Before(c1: nat, id1: Id, c2: nat, id2: Id): bool { c1 < c2 || (c1 == c2 && id1 < id2) }

  /** The oldest record, by creation time and then id. */
  function OldestInbox(rows: seq<Inbox>): Option<Inbox> {
    if rows == [] then None
    else match OldestInbox(rows[1..])
      case None => Some(rows[0])
      case Some(r) => if Before(r.created, r.id, rows[0].created, rows[0].id) then Some(r) else Some(rows[0])
  }

  function OldestEvent(rows: seq<Event>): Option<Event> {
    if rows == [] then None
    else match OldestEvent(rows[1..])
      case None => Some(rows[0])
      case Some(r) => if Before(r.created, r.id, rows[0].created, rows[0].id) then Some(r) else Some(rows[0])
  }

  function InboxFor(db: Db, insight: string): Option<Inbox> { OldestInbox(FindInboxes(db.inboxes, insight)) }

  function EventFor(db: Db, insight: string, decision: Id): Option<Event> {
    OldestEvent(FindEvents(db.events, insight, decision))
  }

  function GetInbox(rows: seq<Inbox>, id: Id): Option<Inbox> {
    if rows == [] then None else if rows[0].id == id then Some(rows[0]) else GetInbox(rows[1..], id)
  }

  predicate HasDecision(rows: seq<Decision>, id: Id) { exists i :: 0 <= i < |rows| && rows[i].id == id }

  predicate OpenTitle(rows: seq<Decision>, title: string) {
    exists i :: 0 <= i < |rows| && rows[i].open && rows[i].title == title
  }

  // ---- writes ----

  function UpdateRow(r: Inbox, id: Id, f: Inbox -> Inbox): Inbox { if r.id == id then f(r) else r }

  function UpdateInboxes(rows: seq<Inbox>, id: Id, f: Inbox -> Inbox): seq<Inbox> {
    if rows == [] then [] else UpdateInboxes(rows[..|rows| - 1], id, f) + [UpdateRow(rows[|rows| - 1], id, f)]
  }

  // ---- facts about the reads ----

  lemma {:induction false} FoundInboxes(rows: seq<Inbox>, insight: string)
    ensures forall r :: r in FindInboxes(rows, insight) <==> r in rows && Marked(r.raw, insight)
    decreases |rows|
  {
    if rows != [] {
      FoundInboxes(rows[..|rows| - 1], insight);
      assert rows == rows[..|rows| - 1] + [rows[|rows| - 1]];
    }
  }

  lemma {:induction false} FoundEvents(rows: seq<Event>, insight: string, decision: Id)
    ensures forall r :: r in FindEvents(rows, insight, decision) <==> r in rows && EventOf(r, insight, decision)
    decreases |rows|
  {
    if rows != [] {
      FoundEvents(rows[..|rows| - 1], insight, decision);
      assert rows == rows[..|rows| - 1] + [rows[|rows| - 1]];
    }
  }

  /** The oldest record is one of them, and none is older. */
  lemma {:induction false} OldestInboxIsOldest(rows: seq<Inbox>)
    ensures OldestInbox(rows) == None <==> rows == []
    ensures rows != [] ==>
      OldestInbox(rows).value in rows
      && var o := OldestInbox(rows).value;
         forall r :: r in rows ==> o.created < r.created || (o.created == r.created && o.id <= r.id)
    decreases |rows|
  {
    if rows != [] {
      OldestInboxIsOldest(rows[1..]);
      assert rows == [rows[0]] + rows[1..];
    }
  }

  lemma {:induction false} OldestEventIsOldest(rows: seq<Event>)
    ensures OldestEvent(rows) == None <==> rows == []
    ensures rows != [] ==>
      OldestEvent(rows).value in rows
      && var o := OldestEvent(rows).value;
         forall r :: r in rows ==> o.created < r.created || (o.created == r.created && o.id <= r.id)
    decreases |rows|
  {
    if rows != [] {
      OldestEventIsOldest(rows[1..]);
      assert rows == [rows[0]] + rows[1..];
    }
  }

  lemma InboxForIsFound(db: Db, insight: string)
    ensures InboxFor(db, insight) == None <==> FindInboxes(db.inboxes, insight) == []
    ensures InboxFor(db, insight).Some? ==>
      InboxFor(db, insight).value in db.inboxes && Marked(InboxFor(db, insight).value.raw, insight)
  {
    OldestInboxIsOldest(FindInboxes(db.inboxes, insight));
    FoundInboxes(db.inboxes, insight);
  }

  lemma EventForIsFound(db: Db, insight: string, decision: Id)
    ensures EventFor(db, insight, decision) == None <==> FindEvents(db.events, insight, decision) == []
    ensures EventFor(db, insight, decision).Some? ==>
      EventFor(db, insight, decision).value in db.events && EventOf(EventFor(db, insight, decision).value, insight, decision)
  {
    OldestEventIsOldest(FindEvents(db.events, insight, decision));
    FoundEvents(db.events, insight, decision);
  }

  lemma FindInboxesAppend(rows: seq<Inbox>, r: Inbox, insight: string)
    ensures FindInboxes(rows + [r], insight) == FindInboxes(rows, insight) + if Marked(r.raw, insight) then [r] else []
  {
    assert (rows + [r])[..|rows|] == rows;
  }

  lemma FindEventsAppend(rows: seq<Event>, r: Event, insight: string, decision: Id)
    ensures FindEvents(rows + [r], insight, decision)
         == FindEvents(rows, insight, decision) + if EventOf(r, insight, decision) then [r] else []
  {
    assert (rows + [r])[..|rows|] == rows;
  }

  lemma {:induction false} GetInboxIsThere(rows: seq<Inbox>, r: Inbox)
    requires r in rows && forall i, j :: 0 <= i < j < |rows| ==> rows[i].id != rows[j].id
    ensures GetInbox(rows, r.id) == Some(r)
    decreases |rows|
  {
    if rows[0] != r {
      assert r in rows[1..];
      GetInboxIsThere(rows[1..], r);
    }
  }

  lemma {:induction false} GotInboxIsThere(rows: seq<Inbox>, id: Id)
    requires GetInbox(rows, id).Some?
    ensures GetInbox(rows, id).value in rows && GetInbox(rows, id).value.id == id
    decreases |rows|
  {
    if rows[0].id != id { GotInboxIsThere(rows[1..], id); }
  }

  lemma UpdateInboxesAppend(rows: seq<Inbox>, r: Inbox, id: Id, f: Inbox -> Inbox)
    ensures UpdateInboxes(rows + [r], id, f) == UpdateInboxes(rows, id, f) + [UpdateRow(r, id, f)]
  {
    assert (rows + [r])[..|rows|] == rows;
  }

  /** An update that leaves the raw text alone changes no search, only the records in it. */
  lemma {:induction false} UpdateKeepsSearch(rows: seq<Inbox>, id: Id, f: Inbox -> Inbox, insight: string)
    requires forall r :: f(r).raw == r.raw
    ensures FindInboxes(UpdateInboxes(rows, id, f), insight) == UpdateInboxes(FindInboxes(rows, insight), id, f)
    decreases |rows|
  {
    if rows != [] {
      var front, last := rows[..|rows| - 1], rows[|rows| - 1];
      UpdateKeepsSearch(front, id, f, insight);
      FindInboxesAppend(UpdateInboxes(front, id, f), UpdateRow(last, id, f), insight);
      assert UpdateRow(last, id, f).raw == last.raw;
      if Marked(last.raw, insight) {
        UpdateInboxesAppend(FindInboxes(front, insight), last, id, f);
      } else {
        assert FindInboxes(rows, insight) == FindInboxes(front, insight);
      }
    }
  }

  lemma {:induction false} UpdateInboxesAt(rows: seq<Inbox>, id: Id, f: Inbox -> Inbox)
    ensures |UpdateInboxes(rows, id, f)| == |rows|
    ensures forall i :: 0 <= i < |rows| ==> UpdateInboxes(rows, id, f)[i] == UpdateRow(rows[i], id, f)
    decreases |rows|
  {
    if rows != [] { UpdateInboxesAt(rows[..|rows| - 1], id, f); }
  }
}
