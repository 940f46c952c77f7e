/** The link saga run by many processes at once, interleaved at single store calls: the lock around it is local to a
    process, so all that keeps them together is that each reads again after it wrote and takes the oldest record. */
module InsightRace {
  import opened Prelude

  type Id = nat

  /** What a record's marker, and for an Event its decision, makes it a record of. */
  datatype Key = InboxKey(insight: string) | EventKey(insight: string, decision: Id)

  datatype Row = Row(key: Key, created: nat, id: Id)

  /** A search returns at most this many rows. */
  const READ_LIMIT := 10

  /** The server searches for the marker; the decision is compared afterwards. */
  predicate Near(a: Key, b: Key) { a.insight == b.insight && a.InboxKey? == b.InboxKey? }

  function NearRows(rows: seq<Row>, k: Key): nat {
    if rows == [] then 0 else NearRows(rows[..|rows| - 1], k) + if Near(rows[|rows| - 1].key, k) then 1 else 0
  }

  /** The search sees every record it is after. */
  predicate Few(rows: seq<Row>, k: Key) { NearRows(rows, k) <= READ_LIMIT }

  /** The places of the key's insight, with Inbox records or Events as the key is one. */
  ghost function NearPlaces(rows: seq<Row>, k: Key): set<int> {
    set i | 0 <= i < |rows| && rows[i].key.insight == k.insight && (rows[i].key.InboxKey? <==> k.InboxKey?)
  }

  lemma NearLast(rows: seq<Row>, r: Row, k: Key)
    ensures NearPlaces(rows + [r], k) == NearPlaces(rows, k) + if Near(r.key, k) then {|rows|} else {}
  {
    forall i | 0 <= i < |rows| ensures (rows + [r])[i] == rows[i] {}
  }

  /** A search sees all it is after while there are ten such records at most. */
  lemma {:induction false} FewExactly(rows: seq<Row>, k: Key)
    ensures NearRows(rows, k) == |NearPlaces(rows, k)| && (Few(rows, k) <==> |NearPlaces(rows, k)| <= 10)
    decreases |rows|
  {
    if rows == [] {
      assert NearPlaces(rows, k) == {};
    } else {
      var n := |rows| - 1;
      FewExactly(rows[..n], k);
      NearLast(rows[..n], rows[n], k);
      assert rows[..n] + [rows[n]] == rows;
    }
  }

  predicate Before(a: Row, b: Row) { a.created < b.created || (a.created == b.created && a.id < b.id) }

  /** One search: failed, or the rows returned and the record chosen among those of the key. */
  datatype Read = ReadFailed | ReadRows(seen: seq<Row>, chosen: Option<Row>)

  ghost predicate LawfulRead(rows: seq<Row>, k: Key, r: Read) {
    r.ReadRows? ==>
      && (forall x :: x in r.seen ==> x in rows)
      && (Few(rows, k) ==> forall x :: x in rows && x.key == k ==> x in r.seen)
      && (r.chosen.Some? ==>
            r.chosen.value in r.seen && r.chosen.value.key == k
            && forall x :: x in r.seen && x.key == k ==> !Before(x, r.chosen.value))
      && (r.chosen.None? ==> forall x :: x in r.seen ==> x.key != k)
  }

  /** How an add ends.  A lost request may also be under way and reach the table later. */
  datatype Add = AddCreated | AddWithoutId | AddFailed | LostWritten | LostUnwritten | LostUnderWay

  predicate Lands(o: Add) { o == AddCreated || o == AddWithoutId || o == LostWritten }

  // ---- processes ----

  /** A record held: taken from a last read, or blindly when that failed, with the number of rows there were then. */
  datatype Hold = Hold(id: Id, blind: bool, at: nat)

  datatype Stage =
    | Resting
    | Look(key: Key)
    | Write(key: Key)
    | Recheck(key: Key)
    | Rewrite(key: Key)
    | Converge(key: Key, id: Id)
    | Stopped

  datatype Process = Process(insight: string, stage: Stage, held: map<Key, Hold>)

  datatype World = World(rows: seq<Row>, underWay: seq<Key>, processes: seq<Process>)

  /** One store call of one process, the start of an execution, its move on to the Event of some decision, or the
      arrival of a lost request.  `row` is the record an add creates. */
  datatype Action =
    | Start(p: nat, insight: string)
    | GoOn(p: nat, decision: Id)
    | Search(p: nat, read: Read)
    | Insert(p: nat, outcome: Add, created: nat, id: Id)
    | Arrive(i: nat, created: nat, id: Id)

  function AfterSearch(pr: Process, r: Read, at: nat): Process {
    match pr.stage
    case Look(k) =>
      if r.ReadFailed? then pr.(stage := Stopped)
      else if r.chosen.Some? then pr.(stage := Resting, held := pr.held[k := Hold(r.chosen.value.id, false, at)])
      else pr.(stage := Write(k))
    case Recheck(k) =>
      if r.ReadRows? && r.chosen.Some? then pr.(stage := Converge(k, r.chosen.value.id)) else pr.(stage := Rewrite(k))
    case Converge(k, id) =>
      if r.ReadRows? && r.chosen.Some? then pr.(stage := Resting, held := pr.held[k := Hold(r.chosen.value.id, false, at)])
      else pr.(stage := Resting, held := pr.held[k := Hold(id, true, at)])
    case _ => pr
  }

  function AfterInsert(pr: Process, o: Add, id: Id): Process
    requires pr.stage.Write? || pr.stage.Rewrite?
  {
    if o == AddCreated then pr.(stage := Converge(pr.stage.key, id))
    else if o == AddWithoutId || o == AddFailed || pr.stage.Rewrite? then pr.(stage := Stopped)
    else pr.(stage := Recheck(pr.stage.key))
  }

  predicate Enabled(w: World, a: Action) {
    match a
    case Start(p, _) => p < |w.processes|
    case GoOn(p, _) =>
      p < |w.processes| && w.processes[p].stage == Resting && InboxKey(w.processes[p].insight) in w.processes[p].held
    case Search(p, _) =>
      p < |w.processes| && (w.processes[p].stage.Look? || w.processes[p].stage.Recheck? || w.processes[p].stage.Converge?)
    case Insert(p, _, _, _) => p < |w.processes| && (w.processes[p].stage.Write? || w.processes[p].stage.Rewrite?)
    case Arrive(i, _, _) => i < |w.underWay|
  }

  function Step(w: World, a: Action): World
    requires Enabled(w, a)
  {
    match a
    case Start(p, insight) => w.(processes := w.processes[p := Process(insight, Look(InboxKey(insight)), map[])])
    case GoOn(p, d) =>
      var pr := w.processes[p];
      w.(processes := w.processes[p := pr.(stage := Look(EventKey(pr.insight, d)))])
    case Search(p, r) => w.(processes := w.processes[p := AfterSearch(w.processes[p], r, |w.rows|)])
    case Insert(p, o, created, id) =>
      var pr := w.processes[p];
      World(if Lands(o) then w.rows + [Row(pr.stage.key, created, id)] else w.rows,
            if o == LostUnderWay then w.underWay + [pr.stage.key] else w.underWay,
            w.processes[p := AfterInsert(pr, o, id)])
    case Arrive(i, created, id) =>
      World(w.rows + [Row(w.underWay[i], created, id)], w.underWay[..i] + w.underWay[i + 1..], w.processes)
  }

  /** The store's side: searches return what is there, and a new record is younger than every record. */
  ghost predicate Lawful(w: World, a: Action)
    requires Enabled(w, a)
  {
    match a
    case Search(p, r) => LawfulRead(w.rows, w.processes[p].stage.key, r)
    case Insert(_, o, created, _) => Lands(o) ==> Younger(w.rows, created)
    case Arrive(_, created, _) => Younger(w.rows, created)
    case _ => true
  }

  ghost predicate Younger(rows: seq<Row>, created: nat) { forall x :: x in rows ==> x.created < created }

  ghost predicate LawfulRun(w: World, actions: seq<Action>)
    decreases |actions|
  {
    actions == [] || (Enabled(w, actions[0]) && Lawful(w, actions[0]) && LawfulRun(Step(w, actions[0]), actions[1..]))
  }

  function Run(w: World, actions: seq<Action>): World
    decreases |actions|
  {
    if actions == [] then w
    else if Enabled(w, actions[0]) then Run(Step(w, actions[0]), actions[1..])
    else Run(w, actions[1..])
  }

  // ---- what every run keeps ----

  /** The record is of the key, and every other record of the key is younger. */
  ghost predicate Oldest(rows: seq<Row>, k: Key, id: Id) {
    exists r :: r in rows && r.key == k && r.id == id && forall x :: x in rows && x.key == k && x != r ==> r.created < x.created
  }

  ghost predicate HasRow(rows: seq<Row>, k: Key, id: Id) { exists r :: r in rows && r.key == k && r.id == id }

  ghost predicate HeldRight(rows: seq<Row>, k: Key, h: Hold) {
    HasRow(rows, k, h.id) && (!h.blind && Few(rows, k) ==> Oldest(rows, k, h.id))
  }

  ghost predicate ProcessRight(rows: seq<Row>, pr: Process) {
    && (pr.stage.Converge? ==> HasRow(rows, pr.stage.key, pr.stage.id))
    && forall k :: k in pr.held ==> HeldRight(rows, k, pr.held[k])
  }

  ghost predicate Distinct(rows: seq<Row>) { forall i, j :: 0 <= i < j < |rows| ==> rows[i].created < rows[j].created }

  ghost predicate Right(w: World) {
    Distinct(w.rows) && forall p :: 0 <= p < |w.processes| ==> ProcessRight(w.rows, w.processes[p])
  }

  lemma ChosenIsOldest(rows: seq<Row>, k: Key, r: Read)
    requires Distinct(rows) && LawfulRead(rows, k, r) && r.ReadRows? && r.chosen.Some?
    ensures HasRow(rows, k, r.chosen.value.id)
    ensures Few(rows, k) ==> Oldest(rows, k, r.chosen.value.id)
  {
    var c := r.chosen.value;
    assert c in rows;
    if Few(rows, k) {
      forall x | x in rows && x.key == k && x != c ensures c.created < x.created {
        var i :| 0 <= i < |rows| && rows[i] == x;
        var j :| 0 <= j < |rows| && rows[j] == c;
        assert i < j || j < i;
      }
    }
  }

  lemma AppendKeepsHeld(rows: seq<Row>, row: Row, k: Key, h: Hold)
    requires HeldRight(rows, k, h) && Younger(rows, row.created)
    ensures HeldRight(rows + [row], k, h)
  {
    assert (rows + [row])[..|rows|] == rows;
    assert Few(rows + [row], k) ==> Few(rows, k);
    var r :| r in rows && r.key == k && r.id == h.id;
    assert r in rows + [row];
    if !h.blind && Few(rows + [row], k) {
      var o :| o in rows && o.key == k && o.id == h.id && forall x :: x in rows && x.key == k && x != o ==> o.created < x.created;
      assert o in rows + [row];
    }
  }

  lemma AppendKeepsProcess(rows: seq<Row>, row: Row, pr: Process)
    requires ProcessRight(rows, pr) && Younger(rows, row.created)
    ensures ProcessRight(rows + [row], pr)
  {
    if pr.stage.Converge? {
      var r :| r in rows && r.key == pr.stage.key && r.id == pr.stage.id;
      assert r in rows + [row];
    }
    forall k | k in pr.held ensures HeldRight(rows + [row], k, pr.held[k]) { AppendKeepsHeld(rows, row, k, pr.held[k]); }
  }

  lemma AppendKeepsRight(w: World, row: Row)
    requires Right(w) && Younger(w.rows, row.created)
    ensures Right(w.(rows := w.rows + [row]))
  {
    forall p | 0 <= p < |w.processes| ensures ProcessRight(w.rows + [row], w.processes[p]) {
      AppendKeepsProcess(w.rows, row, w.processes[p]);
    }
  }

  lemma SearchKeepsRight(rows: seq<Row>, pr: Process, r: Read)
    requires Distinct(rows) && ProcessRight(rows, pr)
    requires pr.stage.Look? || pr.stage.Recheck? || pr.stage.Converge?
    requires LawfulRead(rows, pr.stage.key, r)
    ensures ProcessRight(rows, AfterSearch(pr, r, |rows|))
  {
    if r.ReadRows? && r.chosen.Some? { ChosenIsOldest(rows, pr.stage.key, r); }
  }

  lemma InsertKeepsRight(w: World, p: nat, o: Add, created: nat, id: Id)
    requires Right(w) && Enabled(w, Insert(p, o, created, id)) && Lawful(w, Insert(p, o, created, id))
    ensures Right(Step(w, Insert(p, o, created, id)))
  {
    var pr := w.processes[p];
    var row := Row(pr.stage.key, created, id);
    if Lands(o) {
      AppendKeepsRight(w, row);
      assert row in w.rows + [row];
    }
  }

  lemma StepKeepsRight(w: World, a: Action)
    requires Right(w) && Enabled(w, a) && Lawful(w, a)
    ensures Right(Step(w, a))
  {
    match a {
      case Start(p, insight) =>
      case GoOn(p, d) =>
      case Search(p, r) => SearchKeepsRight(w.rows, w.processes[p], r);
      case Insert(p, o, created, id) => InsertKeepsRight(w, p, o, created, id);
      case Arrive(i, created, id) => AppendKeepsRight(w, Row(w.underWay[i], created, id));
    }
  }

  lemma {:induction false} RunKeepsRight(w: World, actions: seq<Action>)
    requires Right(w) && LawfulRun(w, actions)
    ensures Right(Run(w, actions))
    decreases |actions|
  {
    if actions != [] {
      StepKeepsRight(w, actions[0]);
      RunKeepsRight(Step(w, actions[0]), actions[1..]);
    }
  }

  lemma OldestIsOne(rows: seq<Row>, k: Key, a: Id, b: Id)
    requires Oldest(rows, k, a) && Oldest(rows, k, b)
    ensures a == b
  {
    var r :| r in rows && r.key == k && r.id == a && forall x :: x in rows && x.key == k && x != r ==> r.created < x.created;
    var s :| s in rows && s.key == k && s.id == b && forall x :: x in rows && x.key == k && x != s ==> s.created < x.created;
    assert r == s || r.created < s.created;
  }

  /** However many processes run however many executions, interleaved store call by store call, with any outcome of
      any add and lost requests arriving at any later time: a process that passed a step with a read to rely on holds
      the oldest record of that step's key, so any two such processes hold the same Inbox record, and the same Event
      for the same decision; a process whose last read failed at least holds a record of the key. */
  lemma HoldersAgree(w: World, actions: seq<Action>, p: nat, q: nat, k: Key)
    requires Right(w) && LawfulRun(w, actions)
    requires var end := Run(w, actions);
      && p < |end.processes| && q < |end.processes|
      && k in end.processes[p].held && k in end.processes[q].held
    ensures var end := Run(w, actions);
      var hp, hq := end.processes[p].held[k], end.processes[q].held[k];
      && HasRow(end.rows, k, hp.id)
      && (Few(end.rows, k) && !hp.blind ==> Oldest(end.rows, k, hp.id))
      && (Few(end.rows, k) && !hp.blind && !hq.blind ==> hp.id == hq.id)
  {
    RunKeepsRight(w, actions);
    var end := Run(w, actions);
    var hp, hq := end.processes[p].held[k], end.processes[q].held[k];
    assert HeldRight(end.rows, k, hp) && HeldRight(end.rows, k, hq);
    if Few(end.rows, k) && !hp.blind && !hq.blind { OldestIsOne(end.rows, k, hp.id, hq.id); }
  }

  // ---- when creation times may be any ----

  ghost predicate FreshId(rows: seq<Row>, id: Id) { forall x :: x in rows ==> x.id != id }

  /** The store's side without the clock: searches return what is there, and a new record has an id of its own. */
  ghost predicate Clockless(w: World, a: Action)
    requires Enabled(w, a)
  {
    match a
    case Search(p, r) => LawfulRead(w.rows, w.processes[p].stage.key, r)
    case Insert(_, o, _, id) => Lands(o) ==> FreshId(w.rows, id)
    case Arrive(_, _, id) => FreshId(w.rows, id)
    case _ => true
  }

  ghost predicate ClocklessRun(w: World, actions: seq<Action>)
    decreases |actions|
  {
    actions == [] || (Enabled(w, actions[0]) && Clockless(w, actions[0]) && ClocklessRun(Step(w, actions[0]), actions[1..]))
  }

  /** The row is of the key and sorts before every other row of the key among the first n. */
  predicate FirstAmong(rows: seq<Row>, n: nat, k: Key, r: Row)
    requires n <= |rows|
  {
    r in rows[..n] && r.key == k && forall x :: x in rows[..n] && x.key == k ==> !Before(x, r)
  }

  /** A record held was there at its read, and came first then unless the read failed or saw too little. */
  ghost predicate HeldThen(rows: seq<Row>, k: Key, h: Hold) {
    && h.at <= |rows|
    && exists r :: r in rows[..h.at] && r.key == k && r.id == h.id && (!h.blind && Few(rows, k) ==> FirstAmong(rows, h.at, k, r))
  }

  ghost predicate ProcessThen(rows: seq<Row>, pr: Process) {
    && (pr.stage.Converge? ==> HasRow(rows, pr.stage.key, pr.stage.id))
    && forall k :: k in pr.held ==> HeldThen(rows, k, pr.held[k])
  }

  ghost predicate DistinctIds(rows: seq<Row>) { forall i, j :: 0 <= i < j < |rows| ==> rows[i].id != rows[j].id }

  ghost predicate RightThen(w: World) {
    DistinctIds(w.rows) && forall p :: 0 <= p < |w.processes| ==> ProcessThen(w.rows, w.processes[p])
  }

  lemma AppendKeepsHeldThen(rows: seq<Row>, row: Row, k: Key, h: Hold)
    requires HeldThen(rows, k, h)
    ensures HeldThen(rows + [row], k, h)
  {
    assert (rows + [row])[..|rows|] == rows && (rows + [row])[..h.at] == rows[..h.at];
    assert Few(rows + [row], k) ==> Few(rows, k);
    var r :| r in rows[..h.at] && r.key == k && r.id == h.id && (!h.blind && Few(rows, k) ==> FirstAmong(rows, h.at, k, r));
    assert r in (rows + [row])[..h.at];
  }

  lemma AppendKeepsRightThen(w: World, row: Row)
    requires RightThen(w) && FreshId(w.rows, row.id)
    ensures RightThen(w.(rows := w.rows + [row]))
  {
    var rows := w.rows + [row];
    forall p | 0 <= p < |w.processes| ensures ProcessThen(rows, w.processes[p]) {
      var pr := w.processes[p];
      if pr.stage.Converge? {
        var r :| r in w.rows && r.key == pr.stage.key && r.id == pr.stage.id;
        assert r in rows;
      }
      forall k | k in pr.held ensures HeldThen(rows, k, pr.held[k]) { AppendKeepsHeldThen(w.rows, row, k, pr.held[k]); }
    }
  }

  lemma SearchKeepsRightThen(rows: seq<Row>, pr: Process, r: Read)
    requires ProcessThen(rows, pr) && (pr.stage.Look? || pr.stage.Recheck? || pr.stage.Converge?)
    requires LawfulRead(rows, pr.stage.key, r)
    ensures ProcessThen(rows, AfterSearch(pr, r, |rows|))
  {
    assert rows[..|rows|] == rows;
    if r.ReadRows? && r.chosen.Some? {
      var c := r.chosen.value;
      assert c in rows && c.key == pr.stage.key;
      assert Few(rows, pr.stage.key) ==> FirstAmong(rows, |rows|, pr.stage.key, c);
    }
  }

  lemma InsertKeepsRightThen(w: World, p: nat, o: Add, created: nat, id: Id)
    requires RightThen(w) && Enabled(w, Insert(p, o, created, id)) && Clockless(w, Insert(p, o, created, id))
    ensures RightThen(Step(w, Insert(p, o, created, id)))
  {
    var row := Row(w.processes[p].stage.key, created, id);
    if Lands(o) {
      AppendKeepsRightThen(w, row);
      assert row in w.rows + [row];
    }
  }

  lemma StepKeepsRightThen(w: World, a: Action)
    requires RightThen(w) && Enabled(w, a) && Clockless(w, a)
    ensures RightThen(Step(w, a))
  {
    match a {
      case Start(p, insight) =>
      case GoOn(p, d) =>
      case Search(p, r) => SearchKeepsRightThen(w.rows, w.processes[p], r);
      case Insert(p, o, created, id) => InsertKeepsRightThen(w, p, o, created, id);
      case Arrive(i, created, id) => AppendKeepsRightThen(w, Row(w.underWay[i], created, id));
    }
  }

  lemma {:induction false} RunKeepsRightThen(w: World, actions: seq<Action>)
    requires RightThen(w) && ClocklessRun(w, actions)
    ensures RightThen(Run(w, actions))
    decreases |actions|
  {
    if actions != [] {
      StepKeepsRightThen(w, actions[0]);
      RunKeepsRightThen(Step(w, actions[0]), actions[1..]);
    }
  }

  lemma RowOfId(rows: seq<Row>, r: Row, s: Row)
    requires DistinctIds(rows) && r in rows && s in rows && r.id == s.id
    ensures r == s
  {
    var i :| 0 <= i < |rows| && rows[i] == r;
    var j :| 0 <= j < |rows| && rows[j] == s;
    assert i == j;
  }

  lemma LaterReadAgreesExactly(rows: seq<Row>, k: Key, r: Row, m: nat, s: Row, n: nat)
    requires m <= n <= |rows| && FirstAmong(rows, m, k, r) && FirstAmong(rows, n, k, s)
    ensures r == s <==> forall x :: x in rows[m..n] && x.key == k ==> !Before(x, r)
  {
    assert rows[..n] == rows[..m] + rows[m..n];
    assert r in rows[..n];
  }

  lemma HoldersAgreeBefore(w: World, actions: seq<Action>, p: nat, q: nat, k: Key, r: Row)
    requires RightThen(w) && ClocklessRun(w, actions)
    requires var end := Run(w, actions);
      && p < |end.processes| && q < |end.processes|
      && k in end.processes[p].held && k in end.processes[q].held
      && var hp, hq := end.processes[p].held[k], end.processes[q].held[k];
      && Few(end.rows, k) && !hp.blind && !hq.blind && hp.at <= hq.at <= |end.rows|
      && r in end.rows && r.id == hp.id
    ensures var end := Run(w, actions);
      var hp, hq := end.processes[p].held[k], end.processes[q].held[k];
      hp.id == hq.id <==> forall x :: x in end.rows[hp.at..hq.at] && x.key == k ==> !Before(x, r)
  {
    RunKeepsRightThen(w, actions);
    var end := Run(w, actions);
    var hp, hq := end.processes[p].held[k], end.processes[q].held[k];
    assert HeldThen(end.rows, k, hp) && HeldThen(end.rows, k, hq);
    var a :| a in end.rows[..hp.at] && a.id == hp.id && FirstAmong(end.rows, hp.at, k, a);
    var b :| b in end.rows[..hq.at] && b.id == hq.id && FirstAmong(end.rows, hq.at, k, b);
    RowOfId(end.rows, a, r);
    if hp.id == hq.id { RowOfId(end.rows, a, b); }
    LaterReadAgreesExactly(end.rows, k, a, hp.at, b, hq.at);
  }

  /** Without the assumption that later records have later creation times, in any such run: two processes that passed a
      step with a read to rely on hold the same record exactly when no record of the key that came between their two
      reads sorts before the one held first.  So later creation times are enough, and equal ones with a smaller id, or a
      clock that ran back, part them. */
  lemma HoldersAgreeExactly(w: World, actions: seq<Action>, p: nat, q: nat, k: Key, r: Row)
    requires RightThen(w) && ClocklessRun(w, actions)
    requires var end := Run(w, actions);
      && p < |end.processes| && q < |end.processes|
      && k in end.processes[p].held && k in end.processes[q].held
      && var hp, hq := end.processes[p].held[k], end.processes[q].held[k];
      && Few(end.rows, k) && !hp.blind && !hq.blind && hp.at <= hq.at <= |end.rows|
      && r in end.rows && r.id == hp.id
    ensures var end := Run(w, actions);
      var hp, hq := end.processes[p].held[k], end.processes[q].held[k];
      hp.id == hq.id <==>
        forall x :: x in end.rows[hp.at..hq.at] && x.key == k ==>
          r.created < x.created || (r.created == x.created && r.id <= x.id)
  {
    HoldersAgreeBefore(w, actions, p, q, k, r);
  }

  // ---- a race in which creation times part two processes ----

  function Fresh(insight: string): Process { Process(insight, Look(InboxKey(insight)), map[]) }

  /** Two processes that both found nothing, then wrote and read again one after the other. */
  function BothWrite(first: Row, second: Row): seq<Action> {
    [Search(0, ReadRows([], None)), Search(1, ReadRows([], None)),
     Insert(0, AddCreated, first.created, first.id), Search(0, ReadRows([first], Some(first))),
     Insert(1, AddCreated, second.created, second.id),
     Search(1, ReadRows([first, second], Some(if Before(second, first) then second else first)))]
  }

  lemma RunOne(w: World, a: Action, rest: seq<Action>)
    requires Enabled(w, a)
    ensures Run(w, [a] + rest) == Run(Step(w, a), rest)
  {
    assert ([a] + rest)[1..] == rest;
  }

  /** After three steps: the first has written, the second is about to. */
  function HalfWay(insight: string, first: Row): World {
    World([first], [], [Process(insight, Converge(first.key, first.id), map[]), Process(insight, Write(first.key), map[])])
  }

  lemma BothWriteStarts(insight: string, first: Row, second: Row)
    requires first.key == InboxKey(insight)
    ensures var run := BothWrite(first, second);
      Run(World([], [], [Fresh(insight), Fresh(insight)]), run) == Run(HalfWay(insight, first), run[3..])
  {
    var k := first.key;
    var run := BothWrite(first, second);
    var w0 := World([], [], [Fresh(insight), Fresh(insight)]);
    RunOne(w0, run[0], run[1..]);
    var w1 := Step(w0, run[0]);
    assert w1.processes == [Process(insight, Write(k), map[]), Fresh(insight)];
    RunOne(w1, run[1], run[2..]);
    var w2 := Step(w1, run[1]);
    assert w2.processes == [Process(insight, Write(k), map[]), Process(insight, Write(k), map[])];
    RunOne(w2, run[2], run[3..]);
    assert Step(w2, run[2]).rows == [first];
    assert Step(w2, run[2]).processes == HalfWay(insight, first).processes;
    assert run == [run[0]] + run[1..] && run[1..] == [run[1]] + run[2..] && run[2..] == [run[2]] + run[3..];
  }

  lemma BothWriteEnds(insight: string, first: Row, second: Row)
    requires first.key == second.key == InboxKey(insight)
    ensures var end := Run(World([], [], [Fresh(insight), Fresh(insight)]), BothWrite(first, second));
      && end.rows == [first, second] && |end.processes| == 2
      && end.processes[0].held == map[first.key := Hold(first.id, false, 1)]
      && end.processes[1].held == map[first.key := Hold((if Before(second, first) then second else first).id, false, 2)]
  {
    var run := BothWrite(first, second);
    BothWriteStarts(insight, first, second);
    var w3 := HalfWay(insight, first);
    RunOne(w3, run[3], run[4..]);
    var w4 := Step(w3, run[3]);
    assert w4.processes[1] == Process(insight, Write(first.key), map[]);
    RunOne(w4, run[4], run[5..]);
    var w5 := Step(w4, run[4]);
    assert w5.rows == [first, second];
    RunOne(w5, run[5], []);
    assert run[3..] == [run[3]] + run[4..] && run[4..] == [run[4]] + run[5..] && run[5..] == [run[5]] + [];
  }

  /** Two processes that race so hold the same record exactly when the second record does not sort before the first:
      with equal creation times and a smaller id, or a clock that ran back, they part for good. */
  lemma RaceAgreesExactly(insight: string, first: Row, second: Row)
    requires first.key == second.key == InboxKey(insight) && first.id != second.id
    ensures var end := Run(World([], [], [Fresh(insight), Fresh(insight)]), BothWrite(first, second));
      && |end.processes| == 2 && first.key in end.processes[0].held && first.key in end.processes[1].held
      && (end.processes[0].held[first.key].id == end.processes[1].held[first.key].id
          <==> first.created < second.created || (first.created == second.created && first.id < second.id))
  {
    BothWriteEnds(insight, first, second);
  }
}
