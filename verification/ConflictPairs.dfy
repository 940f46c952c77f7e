/** Which pairs the conflict scan looks at, and in which order, said by the places of the events in the list. */
module ConflictPairs {
  import opened ConflictScan

  // ---- places ----

  /** The event at this place is not superseded, is of trust rank 1 or more, and has this topic. */
  predicate LiveOf(events: seq<Event>, i: int, topic: string) {
    0 <= i < |events| && !events[i].superseded && events[i].rank >= 1 && events[i].topic == topic && topic != ""
  }

  /** The two places hold events to compare: both live, of one topic. */
  predicate Comparable(events: seq<Event>, i: int, j: int) {
    0 <= i < j < |events| && LiveOf(events, i, events[i].topic) && LiveOf(events, j, events[i].topic)
  }

  /** Topic a turns up among the live events before topic b does. */
  ghost predicate TopicBefore(events: seq<Event>, a: string, b: string) {
    exists f :: LiveOf(events, f, a) && forall m :: 0 <= m <= f ==> !LiveOf(events, m, b)
  }

  /** The order of comparison: by topic, then by the first event, then by the second. */
  ghost predicate Sooner(events: seq<Event>, p: (int, int), q: (int, int))
    requires 0 <= p.0 < |events| && 0 <= q.0 < |events|
  {
    var a, b := events[p.0].topic, events[q.0].topic;
    if a == b then p.0 < q.0 || (p.0 == q.0 && p.1 < q.1) else TopicBefore(events, a, b)
  }

  /** The places of the live events of a topic. */
  function Spots(events: seq<Event>, topic: string): seq<int> {
    if events == [] then []
    else Spots(events[..|events| - 1], topic) + if LiveOf(events, |events| - 1, topic) then [|events| - 1] else []
  }

  function SpotGroups(events: seq<Event>, topics: seq<string>): seq<seq<int>> {
    seq(|topics|, i requires 0 <= i < |topics| => Spots(events, topics[i]))
  }

  lemma {:induction false} SpotsAreLive(events: seq<Event>, topic: string)
    ensures forall i :: LiveOf(events, i, topic) <==> i in Spots(events, topic)
    ensures forall a, b :: 0 <= a < b < |Spots(events, topic)| ==> Spots(events, topic)[a] < Spots(events, topic)[b]
    decreases |events|
  {
    if events != [] {
      var n := |events| - 1;
      var front := events[..n];
      SpotsAreLive(front, topic);
      forall i ensures LiveOf(events, i, topic) <==> i in Spots(events, topic) {
        assert i != n ==> (LiveOf(events, i, topic) <==> LiveOf(front, i, topic));
      }
      forall a | 0 <= a < |Spots(front, topic)| ensures Spots(front, topic)[a] < n {
        assert Spots(front, topic)[a] in Spots(front, topic);
        assert LiveOf(front, Spots(front, topic)[a], topic);
      }
    }
  }

  /** Every two of these places, row by row from (i, j) on. */
  function RowsFrom(spots: seq<int>, i: nat, j: nat): seq<(int, int)>
    decreases |spots| - i, |spots| - j
  {
    if i >= |spots| then []
    else if j >= |spots| then RowsFrom(spots, i + 1, i + 2)
    else [(spots[i], spots[j])] + RowsFrom(spots, i, j + 1)
  }

  function AllRows(groups: seq<seq<int>>): seq<(int, int)> {
    if groups == [] then [] else RowsFrom(groups[0], 0, 1) + AllRows(groups[1..])
  }

  lemma {:induction false} RowAt(spots: seq<int>, i: nat, j: nat, k: nat) returns (a: nat, b: nat)
    requires i < j && k < |RowsFrom(spots, i, j)|
    ensures a < b < |spots| && (a > i || (a == i && b >= j)) && RowsFrom(spots, i, j)[k] == (spots[a], spots[b])
    decreases |spots| - i, |spots| - j
  {
    if j >= |spots| {
      a, b := RowAt(spots, i + 1, i + 2, k);
    } else if k == 0 {
      a, b := i, j;
    } else {
      a, b := RowAt(spots, i, j + 1, k - 1);
    }
  }

  // ---- the groups of the scan stand at those places ----

  ghost predicate Places(events: seq<Event>, g: seq<Event>, spots: seq<int>) {
    |g| == |spots| && forall k :: 0 <= k < |g| ==> 0 <= spots[k] < |events| && g[k] == events[spots[k]]
  }

  lemma OfTopicLast(xs: seq<Event>, e: Event, topic: string)
    ensures OfTopic(xs + [e], topic) == OfTopic(xs, topic) + if e.topic == topic then [e] else []
  {
    assert (xs + [e])[..|xs|] == xs;
  }

  lemma EligibleLast(front: seq<Event>, e: Event)
    ensures Keep(front + [e], Eligible) == if Eligible(e) then Keep(front, Eligible) + [e] else Keep(front, Eligible)
  {
    assert (front + [e])[..|front|] == front;
  }

  lemma {:induction false} GroupPlaces(events: seq<Event>, topic: string)
    requires topic != ""
    ensures Places(events, OfTopic(Keep(events, Eligible), topic), Spots(events, topic))
    decreases |events|
  {
    if events != [] {
      var n := |events| - 1;
      var front, e := events[..n], events[n];
      GroupPlaces(front, topic);
      assert events == front + [e];
      EligibleLast(front, e);
      OfTopicLast(Keep(front, Eligible), e, topic);
      assert LiveOf(events, n, topic) <==> Eligible(e) && e.topic == topic;
    }
  }

  lemma TopicsLast(xs: seq<Event>, e: Event)
    ensures Topics(xs + [e]) == if e.topic in Topics(xs) then Topics(xs) else Topics(xs) + [e.topic]
  {
    assert (xs + [e])[..|xs|] == xs;
  }

  /** The topics of the scan are those of live events. */
  lemma {:induction false} TopicsAreLive(events: seq<Event>, topic: string)
    ensures topic in Topics(Keep(events, Eligible)) <==> exists i :: LiveOf(events, i, topic)
    decreases |events|
  {
    if events != [] {
      var n := |events| - 1;
      var front, e := events[..n], events[n];
      assert events == front + [e];
      TopicsAreLive(front, topic);
      EligibleLast(front, e);
      TopicsLast(Keep(front, Eligible), e);
      LiveLast(front, e, topic);
    }
  }

  lemma LiveLast(front: seq<Event>, e: Event, topic: string)
    ensures (exists i :: LiveOf(front + [e], i, topic))
       <==> (exists i :: LiveOf(front, i, topic)) || (Eligible(e) && e.topic == topic)
  {
    var events := front + [e];
    if i :| LiveOf(front, i, topic) { assert LiveOf(events, i, topic); }
    if Eligible(e) && e.topic == topic { assert LiveOf(events, |front|, topic); }
    if i :| LiveOf(events, i, topic) && i != |front| { assert LiveOf(front, i, topic); }
  }

  lemma TopicStaysBefore(front: seq<Event>, e: Event, a: string, b: string)
    requires TopicBefore(front, a, b)
    ensures TopicBefore(front + [e], a, b)
  {
    var f :| LiveOf(front, f, a) && forall m :: 0 <= m <= f ==> !LiveOf(front, m, b);
    assert LiveOf(front + [e], f, a);
    forall m | 0 <= m <= f ensures !LiveOf(front + [e], m, b) { assert !LiveOf(front, m, b); }
  }

  lemma {:induction false} TopicsInOrder(events: seq<Event>, t: nat, u: nat)
    requires t < u < |Topics(Keep(events, Eligible))|
    ensures TopicBefore(events, Topics(Keep(events, Eligible))[t], Topics(Keep(events, Eligible))[u])
    decreases |events|
  {
    var n := |events| - 1;
    var front, e := events[..n], events[n];
    var before, topics := Topics(Keep(front, Eligible)), Topics(Keep(events, Eligible));
    assert events == front + [e];
    EligibleLast(front, e);
    TopicsLast(Keep(front, Eligible), e);
    if u < |before| {
      TopicsInOrder(front, t, u);
      TopicStaysBefore(front, e, before[t], before[u]);
    } else {
      NewTopicComesLast(front, e, before[t]);
    }
  }

  lemma NewTopicComesLast(front: seq<Event>, e: Event, a: string)
    requires a in Topics(Keep(front, Eligible)) && e.topic !in Topics(Keep(front, Eligible))
    ensures TopicBefore(front + [e], a, e.topic)
  {
    TopicsAreLive(front, a);
    TopicsAreLive(front, e.topic);
    var f :| LiveOf(front, f, a);
    assert LiveOf(front + [e], f, a);
    forall m | 0 <= m <= f ensures !LiveOf(front + [e], m, e.topic) { assert !LiveOf(front, m, e.topic); }
  }

  // ---- the pairs of a group ----

  ghost predicate PairPlaces(events: seq<Event>, pairs: seq<Pair>, at: seq<(int, int)>) {
    |pairs| == |at|
    && forall k :: 0 <= k < |at| ==>
         0 <= at[k].0 < |events| && 0 <= at[k].1 < |events| && pairs[k] == (events[at[k].0], events[at[k].1])
  }

  lemma FirstPlace(events: seq<Event>, p: Pair, pairs: seq<Pair>, x: (int, int), at: seq<(int, int)>)
    requires PairPlaces(events, pairs, at) && 0 <= x.0 < |events| && 0 <= x.1 < |events| && p == (events[x.0], events[x.1])
    ensures PairPlaces(events, [p] + pairs, [x] + at)
  {
  }

  lemma {:induction false} PairsKeepPlaces(events: seq<Event>, g: seq<Event>, spots: seq<int>, i: nat, j: nat)
    requires Places(events, g, spots) && i < j
    ensures PairPlaces(events, PairsFrom(g, i, j), RowsFrom(spots, i, j))
    decreases |g| - i, |g| - j
  {
    if i < |g| {
      if j >= |g| {
        PairsKeepPlaces(events, g, spots, i + 1, i + 2);
      } else {
        PairsKeepPlaces(events, g, spots, i, j + 1);
        FirstPlace(events, (g[i], g[j]), PairsFrom(g, i, j + 1), (spots[i], spots[j]), RowsFrom(spots, i, j + 1));
      }
    }
  }

  lemma {:induction false} PairIsThere(spots: seq<int>, i: nat, j: nat, a: nat, b: nat)
    requires i < j && a < b < |spots| && (a > i || (a == i && b >= j))
    ensures (spots[a], spots[b]) in RowsFrom(spots, i, j)
    decreases |spots| - i, |spots| - j
  {
    if j >= |spots| {
      PairIsThere(spots, i + 1, i + 2, a, b);
    } else if (a, b) != (i, j) {
      PairIsThere(spots, i, j + 1, a, b);
    }
  }

  predicate Increasing(spots: seq<int>) { forall a, b :: 0 <= a < b < |spots| ==> spots[a] < spots[b] }

  predicate Lexical(p: (int, int), q: (int, int)) { p.0 < q.0 || (p.0 == q.0 && p.1 < q.1) }

  lemma {:induction false} PairsInOrder(spots: seq<int>, i: nat, j: nat)
    requires Increasing(spots) && i < j
    ensures forall k, l :: 0 <= k < l < |RowsFrom(spots, i, j)| ==> Lexical(RowsFrom(spots, i, j)[k], RowsFrom(spots, i, j)[l])
    decreases |spots| - i, |spots| - j
  {
    if i < |spots| {
      if j >= |spots| {
        PairsInOrder(spots, i + 1, i + 2);
      } else {
        var rest := RowsFrom(spots, i, j + 1);
        PairsInOrder(spots, i, j + 1);
        forall l | 0 <= l < |rest| ensures Lexical((spots[i], spots[j]), rest[l]) { var a, b := RowAt(spots, i, j + 1, l); }
      }
    }
  }

  lemma PairIsComparable(events: seq<Event>, topic: string, k: nat)
    requires k < |RowsFrom(Spots(events, topic), 0, 1)|
    ensures var p := RowsFrom(Spots(events, topic), 0, 1)[k];
      0 <= p.0 < p.1 < |events| && Comparable(events, p.0, p.1) && events[p.0].topic == topic
  {
    var spots := Spots(events, topic);
    var a, b := RowAt(spots, 0, 1, k);
    SpotsAreLive(events, topic);
    assert spots[a] in spots && spots[b] in spots;
    assert LiveOf(events, spots[a], topic) && LiveOf(events, spots[b], topic);
  }

  // ---- all groups ----

  ghost predicate AllPlaces(events: seq<Event>, groups: seq<seq<Event>>, spots: seq<seq<int>>) {
    |groups| == |spots| && forall t :: 0 <= t < |groups| ==> Places(events, groups[t], spots[t])
  }

  lemma {:induction false} AllPairsKeepPlaces(events: seq<Event>, groups: seq<seq<Event>>, spots: seq<seq<int>>)
    requires AllPlaces(events, groups, spots)
    ensures PairPlaces(events, AllPairs(groups), AllRows(spots))
    decreases |groups|
  {
    if groups != [] {
      PairsKeepPlaces(events, groups[0], spots[0], 0, 1);
      AllPairsKeepPlaces(events, groups[1..], spots[1..]);
    }
  }

  /** The topics are different, none is blank, and each comes before those that follow. */
  ghost predicate TopicsOrdered(events: seq<Event>, topics: seq<string>) {
    && (forall t :: 0 <= t < |topics| ==> topics[t] != "")
    && (forall t, u :: 0 <= t < u < |topics| ==> topics[t] != topics[u] && TopicBefore(events, topics[t], topics[u]))
  }

  ghost predicate InRange(events: seq<Event>, at: seq<(int, int)>, topics: seq<string>) {
    forall k :: 0 <= k < |at| ==>
      0 <= at[k].0 < at[k].1 < |events| && Comparable(events, at[k].0, at[k].1) && events[at[k].0].topic in topics
  }

  lemma InRangeConcat(events: seq<Event>, a: seq<(int, int)>, b: seq<(int, int)>, topics: seq<string>)
    requires InRange(events, a, topics) && InRange(events, b, topics)
    ensures InRange(events, a + b, topics)
  {
  }

  lemma {:induction false} AllPairsComparable(events: seq<Event>, topics: seq<string>)
    ensures InRange(events, AllRows(SpotGroups(events, topics)), topics)
    decreases |topics|
  {
    if topics != [] {
      var groups := SpotGroups(events, topics);
      assert groups[1..] == SpotGroups(events, topics[1..]);
      AllPairsComparable(events, topics[1..]);
      var first, rest := RowsFrom(groups[0], 0, 1), AllRows(groups[1..]);
      assert groups[0] == Spots(events, topics[0]);
      forall k | 0 <= k < |first|
        ensures 0 <= first[k].0 < first[k].1 < |events| && Comparable(events, first[k].0, first[k].1)
        ensures events[first[k].0].topic in topics
      {
        PairIsComparable(events, topics[0], k);
      }
      assert InRange(events, rest, topics);
      InRangeConcat(events, first, rest, topics);
    }
  }

  ghost predicate SoonerAt(events: seq<Event>, p: (int, int), q: (int, int)) {
    0 <= p.0 < |events| && 0 <= q.0 < |events| && Sooner(events, p, q)
  }

  ghost predicate Ordered(events: seq<Event>, at: seq<(int, int)>) {
    forall k, l :: 0 <= k < l < |at| ==> SoonerAt(events, at[k], at[l])
  }

  /** Rows of one topic before rows of later topics. */
  lemma OrderedConcat(events: seq<Event>, a: seq<(int, int)>, b: seq<(int, int)>)
    requires Ordered(events, a) && Ordered(events, b)
    requires forall k, l :: 0 <= k < |a| && 0 <= l < |b| ==> SoonerAt(events, a[k], b[l])
    ensures Ordered(events, a + b)
  {
    var at := a + b;
    forall k, l | 0 <= k < l < |at| ensures SoonerAt(events, at[k], at[l]) {
      if l < |a| {
        assert SoonerAt(events, a[k], a[l]);
      } else if k < |a| {
        assert SoonerAt(events, a[k], b[l - |a|]);
      } else {
        assert SoonerAt(events, b[k - |a|], b[l - |a|]);
      }
    }
  }

  lemma TopicRowsOrdered(events: seq<Event>, topic: string)
    ensures Ordered(events, RowsFrom(Spots(events, topic), 0, 1))
  {
    var at := RowsFrom(Spots(events, topic), 0, 1);
    SpotsAreLive(events, topic);
    assert Increasing(Spots(events, topic));
    PairsInOrder(Spots(events, topic), 0, 1);
    forall k, l | 0 <= k < l < |at| ensures SoonerAt(events, at[k], at[l]) {
      PairIsComparable(events, topic, k);
      PairIsComparable(events, topic, l);
      assert Lexical(at[k], at[l]);
    }
  }

  lemma RowsOfTwoTopics(events: seq<Event>, topics: seq<string>, p: (int, int), q: (int, int))
    requires topics != [] && TopicsOrdered(events, topics)
    requires 0 <= p.0 < |events| && events[p.0].topic == topics[0]
    requires 0 <= q.0 < |events| && events[q.0].topic in topics[1..]
    ensures SoonerAt(events, p, q)
  {
    LaterTopic(events, topics, events[q.0].topic);
  }

  lemma {:induction false} AllPairsOrdered(events: seq<Event>, topics: seq<string>)
    requires TopicsOrdered(events, topics)
    ensures Ordered(events, AllRows(SpotGroups(events, topics)))
    decreases |topics|
  {
    if topics != [] {
      var groups := SpotGroups(events, topics);
      assert groups[1..] == SpotGroups(events, topics[1..]) && groups[0] == Spots(events, topics[0]);
      assert TopicsOrdered(events, topics[1..]);
      AllPairsOrdered(events, topics[1..]);
      TopicRowsOrdered(events, topics[0]);
      AllPairsComparable(events, topics[1..]);
      var first, rest := RowsFrom(groups[0], 0, 1), AllRows(groups[1..]);
      forall k, l | 0 <= k < |first| && 0 <= l < |rest| ensures SoonerAt(events, first[k], rest[l]) {
        PairIsComparable(events, topics[0], k);
        RowsOfTwoTopics(events, topics, first[k], rest[l]);
      }
      OrderedConcat(events, first, rest);
    }
  }

  lemma LaterTopic(events: seq<Event>, topics: seq<string>, b: string)
    requires topics != [] && TopicsOrdered(events, topics) && b in topics[1..]
    ensures b != topics[0] && TopicBefore(events, topics[0], b)
  {
    var u :| 0 <= u < |topics[1..]| && topics[1..][u] == b;
    assert topics[u + 1] == b;
  }

  lemma {:induction false} AllPairsComplete(events: seq<Event>, topics: seq<string>, i: nat, j: nat)
    requires Comparable(events, i, j) && events[i].topic in topics
    ensures (i, j) in AllRows(SpotGroups(events, topics))
    decreases |topics|
  {
    var groups := SpotGroups(events, topics);
    assert groups[1..] == SpotGroups(events, topics[1..]);
    if events[i].topic == topics[0] {
      var spots := groups[0];
      SpotsAreLive(events, topics[0]);
      assert i in spots && j in spots;
      var a :| 0 <= a < |spots| && spots[a] == i;
      var b :| 0 <= b < |spots| && spots[b] == j;
      PairIsThere(spots, 0, 1, a, b);
    } else {
      AllPairsComplete(events, topics[1..], i, j);
    }
  }

  // ---- main results ----

  lemma ScanTopics(events: seq<Event>)
    ensures TopicsOrdered(events, Topics(Keep(events, Eligible)))
  {
    var eligible := Keep(events, Eligible);
    var topics := Topics(eligible);
    TopicsDistinct(eligible);
    forall t | 0 <= t < |topics| ensures topics[t] != "" { TopicsAreLive(events, topics[t]); }
    forall t, u | 0 <= t < u < |topics| ensures TopicBefore(events, topics[t], topics[u]) { TopicsInOrder(events, t, u); }
  }

  /** The scan looks at every two live events of one topic, at nothing else, and at each two places once: topic by topic as
      they first turn up, and within a topic the first event against each later one, then the second, and so on. */
  lemma PairsInScanOrder(events: seq<Event>) returns (at: seq<(int, int)>)
    ensures PairPlaces(events, Pairs(events), at)
    ensures forall i, j :: (i, j) in at <==> Comparable(events, i, j)
    ensures Ordered(events, at)
  {
    var eligible := Keep(events, Eligible);
    var topics := Topics(eligible);
    at := AllRows(SpotGroups(events, topics));
    ScanTopics(events);
    forall t | 0 <= t < |topics| ensures Places(events, Groups(events)[t], SpotGroups(events, topics)[t]) {
      GroupPlaces(events, topics[t]);
    }
    AllPairsKeepPlaces(events, Groups(events), SpotGroups(events, topics));
    AllPairsComparable(events, topics);
    AllPairsOrdered(events, topics);
    forall i, j ensures (i, j) in at <==> Comparable(events, i, j) {
      if Comparable(events, i, j) {
        TopicsAreLive(events, events[i].topic);
        assert LiveOf(events, i, events[i].topic);
        AllPairsComplete(events, topics, i, j);
      }
    }
  }

  /** Two events are compared exactly when they stand in the list in that order, neither is superseded, both are of trust
      rank 1 or more, and they have one topic, which is not blank. */
  lemma PairsExactly(events: seq<Event>, a: Event, b: Event)
    ensures (a, b) in Pairs(events) <==>
      && !a.superseded && !b.superseded && a.rank >= 1 && b.rank >= 1 && a.topic == b.topic != ""
      && exists i, j :: 0 <= i < j < |events| && events[i] == a && events[j] == b
  {
    var at := PairsInScanOrder(events);
    var pairs := Pairs(events);
    if (a, b) in pairs {
      var k :| 0 <= k < |pairs| && pairs[k] == (a, b);
      assert at[k] in at && at[k] == (at[k].0, at[k].1);
      assert Comparable(events, at[k].0, at[k].1);
    }
    if i, j :| 0 <= i < j < |events| && events[i] == a && events[j] == b && Comparable(events, i, j) {
      assert (i, j) in at;
      var k :| 0 <= k < |at| && at[k] == (i, j);
      assert pairs[k] == (a, b);
    }
  }
}
