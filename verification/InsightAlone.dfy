/** The Inbox step of the link saga, told twice: as one call after another on the tables, and as the store calls of one
    process among many.  Here the second is shown to do what the first does when the process is left alone. */
module InsightAlone {
  import opened Prelude
  import opened Texts
  import opened InsightContent
  import opened InsightTables
  import opened StoreOutcomes
  import opened InsightSaga
  import Race = InsightRace

  /** The rows a race sees: the same records, of which those of the insight are known by its key. */
  ghost predicate Mirrors(db: Db, rows: seq<Race.Row>, insight: string) {
    && |rows| == |db.inboxes|
    && forall i :: 0 <= i < |rows| ==>
         && rows[i].created == db.inboxes[i].created && rows[i].id == db.inboxes[i].id
         && (rows[i].key == Race.InboxKey(insight) <==> Marked(db.inboxes[i].raw, insight))
  }

  function Key(insight: string): Race.Key { Race.InboxKey(insight) }

  /** One process, at some stage, and the rows of the table. */
  function Alone(rows: seq<Race.Row>, stage: Race.Stage, insight: string, held: map<Race.Key, Race.Hold>): Race.World {
    Race.World(rows, [], [Race.Process(insight, stage, held)])
  }

  function HowAdded(o: AddOutcome): Race.Add {
    match o
    case Created => Race.AddCreated
    case CreatedWithoutId => Race.AddWithoutId
    case Failed => Race.AddFailed
    case UnknownWritten => Race.LostWritten
    case UnknownUnwritten => Race.LostUnwritten
  }

  /** The process ended where the step ended: stopped, or at rest with the record the step holds. */
  predicate EndsAs(pr: Race.Process, insight: string, held: Held) {
    if held.Stop? then pr.stage.Stopped? else pr.stage.Resting? && Key(insight) in pr.held && pr.held[Key(insight)].id == held.id
  }

  /** A lawful run of the one process from here, to these tables and this end. */
  ghost predicate Leads(w: Race.World, actions: seq<Race.Action>, db: Db, insight: string, held: Held) {
    && Race.LawfulRun(w, actions)
    && var end := Race.Run(w, actions);
    && Mirrors(db, end.rows, insight) && |end.processes| == 1 && EndsAs(end.processes[0], insight, held)
  }

  lemma OneMore(w: Race.World, a: Race.Action, rest: seq<Race.Action>, db: Db, insight: string, held: Held)
    requires Race.Enabled(w, a) && Race.Lawful(w, a) && Leads(Race.Step(w, a), rest, db, insight, held)
    ensures Leads(w, [a] + rest, db, insight, held)
  {
    assert ([a] + rest)[1..] == rest;
    Race.RunOne(w, a, rest);
  }

  lemma NoMore(w: Race.World, db: Db, insight: string, held: Held)
    requires Mirrors(db, w.rows, insight) && |w.processes| == 1 && EndsAs(w.processes[0], insight, held)
    ensures Leads(w, [], db, insight, held)
  {
  }

  /** The world after a search and after an add. */
  lemma AfterSearchAlone(rows: seq<Race.Row>, stage: Race.Stage, insight: string, r: Race.Read)
    requires stage == Race.Look(Key(insight)) || stage == Race.Recheck(Key(insight))
    ensures var w := Alone(rows, stage, insight, map[]);
      var pr := Race.AfterSearch(w.processes[0], r, |rows|);
      Race.Enabled(w, Race.Search(0, r)) && Race.Step(w, Race.Search(0, r)) == Alone(rows, pr.stage, insight, pr.held)
  {
  }

  lemma AfterInsertAlone(rows: seq<Race.Row>, stage: Race.Stage, insight: string, o: AddOutcome, clock: nat)
    requires stage == Race.Write(Key(insight)) || stage == Race.Rewrite(Key(insight))
    ensures var w := Alone(rows, stage, insight, map[]);
      var a := Race.Insert(0, HowAdded(o), clock, clock);
      && Race.Enabled(w, a)
      && Race.Step(w, a) == Alone(Grown(rows, insight, o, clock),
                                  if o == Created then Race.Converge(Key(insight), clock)
                                  else if Unknown(o) && stage.Write? then Race.Recheck(Key(insight)) else Race.Stopped,
                                  insight, map[])
  {
    var w := Alone(rows, stage, insight, map[]);
    var pr := w.processes[0];
    assert w.processes[0 := Race.AfterInsert(pr, HowAdded(o), clock)] == [Race.AfterInsert(pr, HowAdded(o), clock)];
  }

  /** What a search that works returns. */
  ghost function Search(db: Db, rows: seq<Race.Row>, insight: string): (r: Race.Read)
    requires Mirrors(db, rows, insight)
    ensures r.ReadRows? && Race.LawfulRead(rows, Key(insight), r)
    ensures match InboxFor(db, insight) case None => r.chosen == None case Some(x) => r.chosen.Some? && r.chosen.value.id == x.id
  {
    InboxForIsFound(db, insight);
    FoundInboxes(db.inboxes, insight);
    OldestInboxIsOldest(FindInboxes(db.inboxes, insight));
    if InboxFor(db, insight) == None then
      NothingMarked(db, rows, insight);
      Race.ReadRows(rows, None)
    else
      var i :| 0 <= i < |rows| && db.inboxes[i] == InboxFor(db, insight).value;
      MarkedNotBefore(db, rows, insight, i);
      Race.ReadRows(rows, Some(rows[i]))
  }

  lemma NothingMarked(db: Db, rows: seq<Race.Row>, insight: string)
    requires Mirrors(db, rows, insight) && InboxFor(db, insight) == None
    ensures forall x :: x in rows ==> x.key != Key(insight)
  {
    InboxForIsFound(db, insight);
    FoundInboxes(db.inboxes, insight);
    forall x | x in rows ensures x.key != Key(insight) {
      var i :| 0 <= i < |rows| && rows[i] == x;
      assert db.inboxes[i] in db.inboxes;
    }
  }

  lemma MarkedNotBefore(db: Db, rows: seq<Race.Row>, insight: string, i: nat)
    requires Mirrors(db, rows, insight) && i < |rows| && InboxFor(db, insight) == Some(db.inboxes[i])
    ensures rows[i].key == Key(insight) && forall x :: x in rows && x.key == Key(insight) ==> !Race.Before(x, rows[i])
  {
    InboxForIsFound(db, insight);
    FoundInboxes(db.inboxes, insight);
    OldestInboxIsOldest(FindInboxes(db.inboxes, insight));
    forall x | x in rows && x.key == Key(insight) ensures !Race.Before(x, rows[i]) {
      var j :| 0 <= j < |rows| && rows[j] == x;
      assert db.inboxes[j] in FindInboxes(db.inboxes, insight);
    }
  }

  /** The rows after an add. */
  function Grown(rows: seq<Race.Row>, insight: string, o: AddOutcome, clock: nat): seq<Race.Row> {
    if Writes(o) then rows + [Race.Row(Key(insight), clock, clock)] else rows
  }

  lemma AddMirrors(db: Db, rows: seq<Race.Row>, v: InsightView, o: AddOutcome)
    requires ValidDb(db) && RecordId(v.recordId) && Mirrors(db, rows, v.recordId)
    ensures Mirrors(AddInbox(db, Compose(v), o), Grown(rows, v.recordId, o, db.clock), v.recordId)
    ensures ValidDb(AddInbox(db, Compose(v), o)) && Race.Younger(rows, db.clock)
  {
    ComposedContentIsFound(v);
    forall x | x in rows ensures x.created < db.clock {
      var i :| 0 <= i < |rows| && rows[i] == x;
    }
  }

  /** The read that converges. */
  lemma ConvergeAlone(db: Db, rows: seq<Race.Row>, v: InsightView, id: Id, w: Weather) returns (actions: seq<Race.Action>)
    requires Mirrors(db, rows, v.recordId)
    ensures Leads(Alone(rows, Race.Converge(Key(v.recordId), id), v.recordId, map[]), actions,
                  db, v.recordId, ConvergeInbox(db, v, id, w))
  {
    var read := if w.inboxConverge then Search(db, rows, v.recordId) else Race.ReadFailed;
    var world := Alone(rows, Race.Converge(Key(v.recordId), id), v.recordId, map[]);
    actions := [Race.Search(0, read)] + [];
    OneMore(world, Race.Search(0, read), [], db, v.recordId, ConvergeInbox(db, v, id, w));
  }

  /** What is held after an add was answered. */
  function AfterReply(db: Db, v: InsightView, reply: AddReply, w: Weather): Held {
    if reply.AddedAs? then ConvergeInbox(db, v, reply.id, w) else Stop
  }

  /** An add and what follows it, wherever that leads. */
  lemma InsertAlone(rows: seq<Race.Row>, stage: Race.Stage, v: InsightView, o: AddOutcome, clock: nat,
                    rest: seq<Race.Action>, end: Db, held: Held)
    requires stage == Race.Write(Key(v.recordId)) || stage == Race.Rewrite(Key(v.recordId))
    requires Race.Younger(rows, clock)
    requires Leads(Alone(Grown(rows, v.recordId, o, clock),
                         if o == Created then Race.Converge(Key(v.recordId), clock)
                         else if Unknown(o) && stage.Write? then Race.Recheck(Key(v.recordId)) else Race.Stopped,
                         v.recordId, map[]), rest, end, v.recordId, held)
    ensures Leads(Alone(rows, stage, v.recordId, map[]), [Race.Insert(0, HowAdded(o), clock, clock)] + rest,
                  end, v.recordId, held)
  {
    AfterInsertAlone(rows, stage, v.recordId, o, clock);
    OneMore(Alone(rows, stage, v.recordId, map[]), Race.Insert(0, HowAdded(o), clock, clock), rest, end, v.recordId, held);
  }

  /** A search and what follows it. */
  lemma SearchAlone(rows: seq<Race.Row>, stage: Race.Stage, v: InsightView, r: Race.Read,
                    rest: seq<Race.Action>, end: Db, held: Held)
    requires stage == Race.Look(Key(v.recordId)) || stage == Race.Recheck(Key(v.recordId))
    requires Race.LawfulRead(rows, Key(v.recordId), r)
    requires var pr := Race.AfterSearch(Race.Process(v.recordId, stage, map[]), r, |rows|);
      Leads(Alone(rows, pr.stage, v.recordId, pr.held), rest, end, v.recordId, held)
    ensures Leads(Alone(rows, stage, v.recordId, map[]), [Race.Search(0, r)] + rest, end, v.recordId, held)
  {
    AfterSearchAlone(rows, stage, v.recordId, r);
    OneMore(Alone(rows, stage, v.recordId, map[]), Race.Search(0, r), rest, end, v.recordId, held);
  }

  /** The second add. */
  lemma RewriteAlone(db: Db, rows: seq<Race.Row>, v: InsightView, w: Weather) returns (actions: seq<Race.Action>)
    requires ValidDb(db) && RecordId(v.recordId) && Mirrors(db, rows, v.recordId)
    ensures var db1 := AddInbox(db, Compose(v), w.inboxAddAgain);
      Leads(Alone(rows, Race.Rewrite(Key(v.recordId)), v.recordId, map[]), actions,
            db1, v.recordId, AfterReply(db1, v, ReplyTo(w.inboxAddAgain, db.clock), w))
  {
    var o := w.inboxAddAgain;
    var db1 := AddInbox(db, Compose(v), o);
    var grown := Grown(rows, v.recordId, o, db.clock);
    AddMirrors(db, rows, v, o);
    var rest: seq<Race.Action> := [];
    if o == Created {
      rest := ConvergeAlone(db1, grown, v, db.clock, w);
    } else {
      NoMore(Alone(grown, Race.Stopped, v.recordId, map[]), db1, v.recordId, Stop);
    }
    actions := [Race.Insert(0, HowAdded(o), db.clock, db.clock)] + rest;
    InsertAlone(rows, Race.Rewrite(Key(v.recordId)), v, o, db.clock, rest, db1, AfterReply(db1, v, ReplyTo(o, db.clock), w));
  }

  lemma SettleUnfolds(db: Db, v: InsightView, w: Weather)
    ensures SettleInbox(db, v, w)
         == if w.inboxRecheck && InboxFor(db, v.recordId).Some? then (db, AddedAs(InboxFor(db, v.recordId).value.id))
            else (AddInbox(db, Compose(v), w.inboxAddAgain), ReplyTo(w.inboxAddAgain, db.clock))
  {
  }

  /** The look after a lost answer. */
  lemma RecheckAlone(db: Db, rows: seq<Race.Row>, v: InsightView, w: Weather) returns (actions: seq<Race.Action>)
    requires ValidDb(db) && RecordId(v.recordId) && Mirrors(db, rows, v.recordId)
    ensures var (db1, reply) := SettleInbox(db, v, w);
      Leads(Alone(rows, Race.Recheck(Key(v.recordId)), v.recordId, map[]), actions, db1, v.recordId, AfterReply(db1, v, reply, w))
  {
    SettleUnfolds(db, v, w);
    var read := if w.inboxRecheck then Search(db, rows, v.recordId) else Race.ReadFailed;
    var rest;
    if w.inboxRecheck && InboxFor(db, v.recordId).Some? {
      rest := ConvergeAlone(db, rows, v, InboxFor(db, v.recordId).value.id, w);
    } else {
      rest := RewriteAlone(db, rows, v, w);
    }
    actions := [Race.Search(0, read)] + rest;
    var (db1, reply) := SettleInbox(db, v, w);
    SearchAlone(rows, Race.Recheck(Key(v.recordId)), v, read, rest, db1, AfterReply(db1, v, reply, w));
  }

  lemma PlaceUnfolds(db: Db, v: InsightView, w: Weather)
    ensures var db1 := AddInbox(db, Compose(v), w.inboxAdd);
      PlaceInbox(db, v, w) == if Unknown(w.inboxAdd) then SettleInbox(db1, v, w) else (db1, ReplyTo(w.inboxAdd, db.clock))
  {
  }

  /** The first add and what follows. */
  lemma WriteAlone(db: Db, rows: seq<Race.Row>, v: InsightView, w: Weather) returns (actions: seq<Race.Action>)
    requires ValidDb(db) && RecordId(v.recordId) && Mirrors(db, rows, v.recordId)
    ensures var (db1, reply) := PlaceInbox(db, v, w);
      Leads(Alone(rows, Race.Write(Key(v.recordId)), v.recordId, map[]), actions, db1, v.recordId, AfterReply(db1, v, reply, w))
  {
    var o := w.inboxAdd;
    var db1 := AddInbox(db, Compose(v), o);
    var grown := Grown(rows, v.recordId, o, db.clock);
    AddMirrors(db, rows, v, o);
    PlaceUnfolds(db, v, w);
    var rest: seq<Race.Action> := [];
    if o == Created {
      rest := ConvergeAlone(db1, grown, v, db.clock, w);
    } else if Unknown(o) {
      rest := RecheckAlone(db1, grown, v, w);
    } else {
      NoMore(Alone(grown, Race.Stopped, v.recordId, map[]), db1, v.recordId, Stop);
    }
    actions := [Race.Insert(0, HowAdded(o), db.clock, db.clock)] + rest;
    var (db2, reply) := PlaceInbox(db, v, w);
    InsertAlone(rows, Race.Write(Key(v.recordId)), v, o, db.clock, rest, db2, AfterReply(db2, v, reply, w));
  }

  lemma StepUnfolds(db: Db, v: InsightView, w: Weather)
    requires w.inboxRead && InboxFor(db, v.recordId) == None
    ensures var (db1, reply) := PlaceInbox(db, v, w);
      RunInbox(db, v, w) == (db1, AfterReply(db1, v, reply, w))
  {
  }

  /** For every way the store behaves there is a lawful run of one process that writes the rows the Inbox step writes
      and ends as it ends: stopped, or with the very record the step holds.  The race does not look at the status, so
      the one thing it cannot see is a record marked as rejected. */
  lemma StepIsARun(db: Db, rows: seq<Race.Row>, v: InsightView, w: Weather) returns (actions: seq<Race.Action>)
    requires ValidDb(db) && RecordId(v.recordId) && Mirrors(db, rows, v.recordId)
    requires InboxFor(db, v.recordId).Some? ==> InboxFor(db, v.recordId).value.status != Rejected
    ensures Leads(Alone(rows, Race.Look(Key(v.recordId)), v.recordId, map[]), actions,
                  RunInbox(db, v, w).0, v.recordId, RunInbox(db, v, w).1)
  {
    var read := if w.inboxRead then Search(db, rows, v.recordId) else Race.ReadFailed;
    var rest: seq<Race.Action> := [];
    if w.inboxRead && InboxFor(db, v.recordId) == None {
      rest := WriteAlone(db, rows, v, w);
      StepUnfolds(db, v, w);
    } else {
      var pr := Race.AfterSearch(Race.Process(v.recordId, Race.Look(Key(v.recordId)), map[]), read, |rows|);
      NoMore(Alone(rows, pr.stage, v.recordId, pr.held), db, v.recordId, RunInbox(db, v, w).1);
    }
    actions := [Race.Search(0, read)] + rest;
    var (db1, held) := RunInbox(db, v, w);
    SearchAlone(rows, Race.Look(Key(v.recordId)), v, read, rest, db1, held);
  }
}
