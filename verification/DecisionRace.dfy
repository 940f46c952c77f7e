/** The decision step of the link saga run by many processes at once.  Each looks for an open decision of its title and
    then creates one; nothing keeps the two calls together across processes, and nothing is read back. */
module DecisionRace {
  import Race = InsightRace

  /** How a create ends is how an add ends there: a lost request may also land later. */
  type Add = Race.Add

  // ---- processes ----

  /** A process that found no open decision of the title, when there were `at` open decisions in all. */
  datatype Intent = Intent(title: string, at: nat)

  datatype Process = Resting | Creating(intent: Intent) | Stopped

  /** `open` holds the titles of the open decisions, in the order they landed. */
  datatype World = World(open: seq<string>, underWay: seq<Intent>, processes: seq<Process>)

  /** A process looks for a title, or creates what it did not find; a lost create lands; or a decision is opened by a
      command that does not look. */
  datatype Action =
    | Look(p: nat, title: string, readable: bool)
    | Create(p: nat, outcome: Add)
    | Arrive(i: nat)
    | Elsewhere(title: string)

  predicate Enabled(w: World, a: Action) {
    match a
    case Look(p, _, _) => p < |w.processes|
    case Create(p, _) => p < |w.processes| && w.processes[p].Creating?
    case Arrive(i) => i < |w.underWay|
    case Elsewhere(_) => true
  }

  function AfterLook(w: World, title: string, readable: bool): Process {
    if !readable || title in w.open then Stopped else Creating(Intent(title, |w.open|))
  }

  function Step(w: World, a: Action): World
    requires Enabled(w, a)
  {
    match a
    case Look(p, title, readable) => w.(processes := w.processes[p := AfterLook(w, title, readable)])
    case Create(p, o) =>
      var intent := w.processes[p].intent;
      World(if Race.Lands(o) then w.open + [intent.title] else w.open,
            if o == Race.LostUnderWay then w.underWay + [intent] else w.underWay,
            w.processes[p := Stopped])
    case Arrive(i) => World(w.open + [w.underWay[i].title], w.underWay[..i] + w.underWay[i + 1..], w.processes)
    case Elsewhere(title) => w.(open := w.open + [title])
  }

  function Run(w: World, actions: seq<Action>): World
    decreases |actions|
  {
    if actions == [] then w
    else if Enabled(w, actions[0]) then Run(Step(w, actions[0]), actions[1..])
    else Run(w, actions[1..])
  }

  // ---- what every run keeps ----

  /** What an intent is worth: when it was formed, its title was not open. */
  predicate Founded(w: World, intent: Intent) { intent.at <= |w.open| && intent.title !in w.open[..intent.at] }

  ghost predicate Right(w: World) {
    && (forall i :: 0 <= i < |w.underWay| ==> Founded(w, w.underWay[i]))
    && (forall p :: 0 <= p < |w.processes| && w.processes[p].Creating? ==> Founded(w, w.processes[p].intent))
  }

  lemma FoundedStays(w: World, w1: World, intent: Intent)
    requires Founded(w, intent) && w.open <= w1.open
    ensures Founded(w1, intent)
  {
    assert w1.open[..intent.at] == w.open[..intent.at];
  }

  lemma StepKeepsRight(w: World, a: Action)
    requires Right(w) && Enabled(w, a)
    ensures Right(Step(w, a)) && w.open <= Step(w, a).open
  {
    var w1 := Step(w, a);
    assert w.open[..|w.open|] == w.open;
    forall i | 0 <= i < |w1.underWay| ensures Founded(w1, w1.underWay[i]) {
      var intent := w1.underWay[i];
      if a.Create? && i == |w.underWay| { FoundedStays(w, w1, w.processes[a.p].intent); }
      else if a.Arrive? { FoundedStays(w, w1, if i < a.i then w.underWay[i] else w.underWay[i + 1]); }
      else { FoundedStays(w, w1, w.underWay[i]); }
    }
    forall p | 0 <= p < |w1.processes| && w1.processes[p].Creating? ensures Founded(w1, w1.processes[p].intent) {
      if w1.processes[p] == w.processes[p] { FoundedStays(w, w1, w.processes[p].intent); }
    }
  }

  // ---- one open decision of a title, or two ----

  /** How many open decisions have the title. */
  function OpenCount(open: seq<string>, title: string): nat {
    if open == [] then 0 else OpenCount(open[..|open| - 1], title) + if open[|open| - 1] == title then 1 else 0
  }

  predicate OpenOnce(w: World, title: string) { OpenCount(w.open, title) <= 1 }

  lemma {:induction false} CountedIsOpen(open: seq<string>, title: string)
    ensures OpenCount(open, title) > 0 <==> title in open
    decreases |open|
  {
    if open != [] {
      CountedIsOpen(open[..|open| - 1], title);
      assert open == open[..|open| - 1] + [open[|open| - 1]];
    }
  }

  lemma CountAppend(open: seq<string>, t: string, title: string)
    ensures OpenCount(open + [t], title) == OpenCount(open, title) + if t == title then 1 else 0
  {
    assert (open + [t])[..|open|] == open;
  }

  /** The title was opened by someone else after the intent was formed. */
  predicate Overtaken(w: World, intent: Intent)
    requires intent.at <= |w.open|
  {
    intent.title in w.open[intent.at..]
  }

  /** The step opens a decision of a title that is open. */
  predicate Doubles(w: World, a: Action, title: string)
    requires Enabled(w, a)
  {
    match a
    case Look(_, _, _) => false
    case Create(p, o) =>
      var intent := w.processes[p].intent;
      Race.Lands(o) && intent.title == title && intent.at <= |w.open| && Overtaken(w, intent)
    case Arrive(i) => w.underWay[i].title == title && w.underWay[i].at <= |w.open| && Overtaken(w, w.underWay[i])
    case Elsewhere(t) => t == title && title in w.open
  }

  lemma FoundedOvertaken(w: World, intent: Intent)
    requires Founded(w, intent)
    ensures Overtaken(w, intent) <==> intent.title in w.open
  {
    assert w.open == w.open[..intent.at] + w.open[intent.at..];
  }

  lemma OpeningExactly(w: World, w1: World, t: string, title: string)
    requires OpenOnce(w, title) && w1.open == w.open + [t]
    ensures OpenOnce(w1, title) <==> !(t == title && title in w.open)
  {
    CountedIsOpen(w.open, title);
    CountAppend(w.open, t, title);
  }

  /** One step, exactly: a second open decision of a title comes of a create whose title was opened between its look and
      its landing, or of a command that did not look. */
  lemma StepOpensOnceExactly(w: World, a: Action, title: string)
    requires Right(w) && Enabled(w, a) && OpenOnce(w, title)
    ensures OpenOnce(Step(w, a), title) <==> !Doubles(w, a, title)
  {
    var w1 := Step(w, a);
    match a
    case Look(_, _, _) =>
    case Create(p, o) =>
      if Race.Lands(o) {
        FoundedOvertaken(w, w.processes[p].intent);
        OpeningExactly(w, w1, w.processes[p].intent.title, title);
      }
    case Arrive(i) =>
      FoundedOvertaken(w, w.underWay[i]);
      OpeningExactly(w, w1, w.underWay[i].title, title);
    case Elsewhere(t) => OpeningExactly(w, w1, t, title);
  }

  ghost predicate NeverDoubles(w: World, actions: seq<Action>, title: string)
    decreases |actions|
  {
    if actions == [] then true
    else if Enabled(w, actions[0]) then !Doubles(w, actions[0], title) && NeverDoubles(Step(w, actions[0]), actions[1..], title)
    else NeverDoubles(w, actions[1..], title)
  }

  lemma {:induction false} CountGrows(open: seq<string>, more: seq<string>, title: string)
    requires open <= more
    ensures OpenCount(open, title) <= OpenCount(more, title)
    decreases |more|
  {
    if |open| < |more| {
      CountGrows(open, more[..|more| - 1], title);
    } else {
      assert open == more;
    }
  }

  lemma {:induction false} TwiceStaysTwice(w: World, actions: seq<Action>, title: string)
    requires Right(w) && !OpenOnce(w, title)
    ensures !OpenOnce(Run(w, actions), title)
    decreases |actions|
  {
    if actions != [] {
      if Enabled(w, actions[0]) {
        var w1 := Step(w, actions[0]);
        StepKeepsRight(w, actions[0]);
        CountGrows(w.open, w1.open, title);
        TwiceStaysTwice(w1, actions[1..], title);
      } else {
        TwiceStaysTwice(w, actions[1..], title);
      }
    }
  }

  /** However many processes run the step, interleaved store call by store call, with creates ending in any way and landing
      late: there is at most one open decision of a title exactly when no create of it was overtaken between its look and
      its landing, and no command opened it unlooked. */
  lemma {:induction false} RunOpensOnceExactly(w: World, actions: seq<Action>, title: string)
    requires Right(w) && OpenOnce(w, title)
    ensures OpenOnce(Run(w, actions), title) <==> NeverDoubles(w, actions, title)
    decreases |actions|
  {
    if actions != [] {
      if Enabled(w, actions[0]) {
        var w1 := Step(w, actions[0]);
        StepKeepsRight(w, actions[0]);
        StepOpensOnceExactly(w, actions[0], title);
        if Doubles(w, actions[0], title) {
          TwiceStaysTwice(w1, actions[1..], title);
        } else {
          RunOpensOnceExactly(w1, actions[1..], title);
        }
      } else {
        RunOpensOnceExactly(w, actions[1..], title);
      }
    }
  }

  // ---- a race of two ----

  lemma RunOne(w: World, a: Action, rest: seq<Action>)
    requires Enabled(w, a)
    ensures Run(w, [a] + rest) == Run(Step(w, a), rest)
  {
    assert ([a] + rest)[1..] == rest;
  }

  function Created(p: nat): Action { Create(p, Race.AddCreated) }

  function BothCreate(title: string): seq<Action> {
    [Look(0, title, true), Look(1, title, true), Created(0), Created(1)]
  }

  /** Both have looked, neither has created. */
  function BothLooked(title: string): World {
    World([], [], [Creating(Intent(title, 0)), Creating(Intent(title, 0))])
  }

  lemma BothLook(title: string)
    ensures Run(World([], [], [Resting, Resting]), BothCreate(title)) == Run(BothLooked(title), [Created(0), Created(1)])
  {
    var w := World([], [], [Resting, Resting]);
    var race := BothCreate(title);
    assert race == [race[0]] + race[1..] && race[1..] == [race[1]] + [Created(0), Created(1)];
    RunOne(w, race[0], race[1..]);
    var w1 := Step(w, race[0]);
    assert w1.processes == [Creating(Intent(title, 0)), Resting];
    RunOne(w1, race[1], [Created(0), Created(1)]);
    assert Step(w1, race[1]).processes == BothLooked(title).processes;
  }

  /** Two processes that both looked before either created open two decisions of the title. */
  lemma BothCreateOpensTwo(title: string)
    ensures var w := World([], [], [Resting, Resting]);
      Right(w) && OpenOnce(w, title) && Run(w, BothCreate(title)).open == [title, title]
      && !OpenOnce(Run(w, BothCreate(title)), title)
  {
    BothLook(title);
    var w2 := BothLooked(title);
    assert [Created(0), Created(1)] == [Created(0)] + [Created(1)] && [Created(1)] == [Created(1)] + [];
    RunOne(w2, Created(0), [Created(1)]);
    var w3 := Step(w2, Created(0));
    assert w3.open == [title];
    RunOne(w3, Created(1), []);
    CountAppend([], title, title);
    CountAppend([title], title, title);
    assert [] + [title] == [title] && [title] + [title] == [title, title];
  }
}
