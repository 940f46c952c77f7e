/** The lazy conflict scan: same-topic pairs of trusted events are compared at most five at a time, and a cache
    keyed by the unordered pair remembers every verdict. */
module ConflictScan {

  const MAX_COMPARISONS: nat := 5
  const MIN_RANK: nat := 1

  /** An event as the scan sees it: `rank` is the rank of its trust level, `topic` is "" when it has none. */
  datatype Event = Event(id: string, superseded: bool, rank: nat, topic: string)

  datatype Verdict = Verdict(isConflict: bool, aspect: string, severity: string, ids: (string, string))

  type Pair = (Event, Event)
  type PairKey = set<string>
  type Cache = map<PairKey, Verdict>

  /** The cache key: the hash of the sorted pair of ids is taken to be injective, so it is the unordered pair. */
  function Key(p: Pair): PairKey { {p.0.id, p.1.id} }

  // ---- which pairs are looked at, and in which order ----

  predicate Eligible(e: Event) { !e.superseded && e.rank >= MIN_RANK && e.topic != "" }

  function Keep(xs: seq<Event>, p: Event -> bool): seq<Event> {
    if xs == [] then []
    else Keep(xs[..|xs| - 1], p) + if p(xs[|xs| - 1]) then [xs[|xs| - 1]] else []
  }

  function OfTopic(xs: seq<Event>, topic: string): seq<Event> { Keep(xs, (e: Event) => e.topic == topic) }

  /** The topics in order of first occurrence. */
  function Topics(xs: seq<Event>): seq<string> {
    if xs == [] then []
    else
      var before := Topics(xs[..|xs| - 1]);
      if xs[|xs| - 1].topic in before then before else before + [xs[|xs| - 1].topic]
  }

  function GroupsOf(xs: seq<Event>, topics: seq<string>): seq<seq<Event>> {
    seq(|topics|, i requires 0 <= i < |topics| => OfTopic(xs, topics[i]))
  }

  function Groups(events: seq<Event>): seq<seq<Event>> {
    var eligible := Keep(events, Eligible);
    GroupsOf(eligible, Topics(eligible))
  }

  /** The pairs of one group from position (i, j) on, row by row. */
  function PairsFrom(g: seq<Event>, i: nat, j: nat): seq<Pair>
    decreases |g| - i, |g| - j
  {
    if i >= |g| then []
    else if j >= |g| then PairsFrom(g, i + 1, i + 2)
    else [(g[i], g[j])] + PairsFrom(g, i, j + 1)
  }

  function AllPairs(groups: seq<seq<Event>>): seq<Pair> {
    if groups == [] then [] else PairsFrom(groups[0], 0, 1) + AllPairs(groups[1..])
  }

  function Pairs(events: seq<Event>): seq<Pair> { AllPairs(Groups(events)) }

  // ---- one run ----

  datatype Scan = Scan(cache: Cache, used: nat, out: seq<Verdict>)

  function Report(v: Verdict): seq<Verdict> { if v.isConflict then [v] else [] }

  function ScanPair(s: Scan, p: Pair, ai: Pair -> Verdict): Scan {
    if Key(p) in s.cache then s.(out := s.out + Report(s.cache[Key(p)]))
    else if s.used >= MAX_COMPARISONS then s
    else Scan(s.cache[Key(p) := ai(p)], s.used + 1, s.out + Report(ai(p)))
  }

  function ScanAll(s: Scan, pairs: seq<Pair>, ai: Pair -> Verdict): Scan
    decreases |pairs|
  {
    if pairs == [] then s else ScanAll(ScanPair(s, pairs[0], ai), pairs[1..], ai)
  }

  function Run(cache: Cache, events: seq<Event>, ai: Pair -> Verdict): Scan {
    ScanAll(Scan(cache, 0, []), Pairs(events), ai)
  }

  /** The process-wide cache and the scan over it. */
  class ConflictCache {
    var entries: Cache

    constructor ()
      ensures entries == map[]
    {
      entries := map[];
    }

    /** One pair: answered from the cache, or compared while the budget lasts. */
    method Consider(p: Pair, ai: Pair -> Verdict, used: nat, out: seq<Verdict>) returns (used': nat, out': seq<Verdict>)
      modifies this
      ensures Scan(entries, used', out') == ScanPair(Scan(old(entries), used, out), p, ai)
    {
      used', out' := used, out;
      if Key(p) in entries {
        if entries[Key(p)].isConflict { out' := out' + [entries[Key(p)]]; }
      } else if used < MAX_COMPARISONS {
        used' := used + 1;
        var verdict := ai(p);
        entries := entries[Key(p) := verdict];
        if verdict.isConflict { out' := out' + [verdict]; }
      }
    }

    /** The double loop over one topic. */
    method ScanGroup(g: seq<Event>, ai: Pair -> Verdict, used: nat, out: seq<Verdict>) returns (used': nat, out': seq<Verdict>)
      modifies this
      ensures Scan(entries, used', out') == ScanAll(Scan(old(entries), used, out), PairsFrom(g, 0, 1), ai)
    {
      used', out' := used, out;
      ghost var goal := ScanAll(Scan(entries, used, out), PairsFrom(g, 0, 1), ai);
      var i := 0;
      while i < |g|
        invariant i <= |g|
        invariant ScanAll(Scan(entries, used', out'), PairsFrom(g, i, i + 1), ai) == goal
      {
        var j := i + 1;
        while j < |g|
          invariant i < j <= |g|
          invariant ScanAll(Scan(entries, used', out'), PairsFrom(g, i, j), ai) == goal
        {
          used', out' := Consider((g[i], g[j]), ai, used', out');
          j := j + 1;
        }
        i := i + 1;
      }
    }

    method DetectConflictsLazily(events: seq<Event>, ai: Pair -> Verdict) returns (results: seq<Verdict>, comparisons: nat)
      modifies this
      ensures Scan(entries, comparisons, results) == Run(old(entries), events, ai)
    {
      var eligible := Keep(events, Eligible);
      var order, byTopic := GroupByTopic(eligible);
      results, comparisons := [], 0;
      ghost var goal := Run(entries, events, ai);
      var t := 0;
      while t < |order|
        invariant t <= |order|
        invariant ScanAll(Scan(entries, comparisons, results), AllPairs(Groups(events)[t..]), ai) == goal
      {
        var g := byTopic[order[t]];
        assert Groups(events)[t..][0] == g && Groups(events)[t..][1..] == Groups(events)[t + 1..];
        ScanAppend(Scan(entries, comparisons, results), PairsFrom(g, 0, 1), AllPairs(Groups(events)[t + 1..]), ai);
        comparisons, results := ScanGroup(g, ai, comparisons, results);
        t := t + 1;
      }
    }
  }

  lemma {:induction false} ScanAppend(s: Scan, a: seq<Pair>, b: seq<Pair>, ai: Pair -> Verdict)
    ensures ScanAll(s, a + b, ai) == ScanAll(ScanAll(s, a, ai), b, ai)
    decreases |a|
  {
    if a == [] {
      assert a + b == b;
    } else {
      assert (a + b)[0] == a[0] && (a + b)[1..] == a[1..] + b;
      ScanAppend(ScanPair(s, a[0], ai), a[1..], b, ai);
    }
  }

  method GroupByTopic(eligible: seq<Event>) returns (order: seq<string>, byTopic: map<string, seq<Event>>)
    ensures order == Topics(eligible)
    ensures forall t :: t in byTopic <==> t in order
    ensures forall t :: t in byTopic ==> byTopic[t] == OfTopic(eligible, t)
  {
    order, byTopic := [], map[];
    for k := 0 to |eligible|
      invariant order == Topics(eligible[..k])
      invariant forall t :: t in byTopic <==> t in order
      invariant forall t :: t in byTopic ==> byTopic[t] == OfTopic(eligible[..k], t)
      invariant forall t :: t !in byTopic ==> OfTopic(eligible[..k], t) == []
    {
      var e := eligible[k];
      assert eligible[..k + 1][..k] == eligible[..k];
      if e.topic in byTopic {
        byTopic := byTopic[e.topic := byTopic[e.topic] + [e]];
      } else {
        order := order + [e.topic];
        byTopic := byTopic[e.topic := [e]];
      }
    }
    assert eligible[..|eligible|] == eligible;
  }

  // ---- the pairs of one scan have different keys ----

  ghost predicate DistinctIds(xs: seq<Event>) {
    forall i, j :: 0 <= i < j < |xs| ==> xs[i].id != xs[j].id
  }

  ghost predicate DistinctKeys(pairs: seq<Pair>) {
    forall i, j :: 0 <= i < j < |pairs| ==> Key(pairs[i]) != Key(pairs[j])
  }

  lemma {:induction false} KeepMembers(xs: seq<Event>, p: Event -> bool, e: Event)
    ensures e in Keep(xs, p) <==> e in xs && p(e)
    decreases |xs|
  {
    if xs != [] {
      KeepMembers(xs[..|xs| - 1], p, e);
      assert xs == xs[..|xs| - 1] + [xs[|xs| - 1]];
    }
  }

  lemma {:induction false} KeepDistinct(xs: seq<Event>, p: Event -> bool)
    requires DistinctIds(xs)
    ensures DistinctIds(Keep(xs, p))
    decreases |xs|
  {
    if xs != [] {
      var front := xs[..|xs| - 1];
      KeepDistinct(front, p);
      forall e | e in Keep(front, p) ensures e.id != xs[|xs| - 1].id {
        KeepMembers(front, p, e);
      }
    }
  }

  lemma {:induction false} TopicsDistinct(xs: seq<Event>)
    ensures forall i, j :: 0 <= i < j < |Topics(xs)| ==> Topics(xs)[i] != Topics(xs)[j]
    decreases |xs|
  {
    if xs != [] { TopicsDistinct(xs[..|xs| - 1]); }
  }

  lemma {:induction false} PairAt(g: seq<Event>, i: nat, j: nat, k: nat) returns (a: nat, b: nat)
    requires i < j && k < |PairsFrom(g, i, j)|
    ensures a < b < |g| && (a > i || (a == i && b >= j)) && PairsFrom(g, i, j)[k] == (g[a], g[b])
    decreases |g| - i, |g| - j
  {
    if j >= |g| {
      a, b := PairAt(g, i + 1, i + 2, k);
    } else if k == 0 {
      a, b := i, j;
    } else {
      a, b := PairAt(g, i, j + 1, k - 1);
    }
  }

  lemma PairsFromMembers(g: seq<Event>, i: nat, j: nat, p: Pair) returns (a: nat, b: nat)
    requires i < j && p in PairsFrom(g, i, j)
    ensures a < b < |g| && (a > i || (a == i && b >= j)) && p == (g[a], g[b])
  {
    var k :| 0 <= k < |PairsFrom(g, i, j)| && PairsFrom(g, i, j)[k] == p;
    a, b := PairAt(g, i, j, k);
  }

  lemma KeysDiffer(p: Pair, q: Pair, e: Event)
    requires e.id in Key(p) && e.id != q.0.id && e.id != q.1.id
    ensures Key(p) != Key(q)
  {
    assert e.id !in Key(q);
  }

  lemma IdsDiffer(g: seq<Event>, a: nat, b: nat)
    requires DistinctIds(g) && a < |g| && b < |g| && a != b
    ensures g[a].id != g[b].id
  {
  }

  lemma LaterKeyDiffers(g: seq<Event>, i: nat, j: nat, a: nat, b: nat)
    requires DistinctIds(g) && i < j < |g| && a < b < |g| && (a > i || (a == i && b > j))
    ensures Key((g[a], g[b])) != Key((g[i], g[j]))
  {
    IdsDiffer(g, b, i);
    if a == i {
      IdsDiffer(g, b, j);
      KeysDiffer((g[a], g[b]), (g[i], g[j]), g[b]);
    } else {
      IdsDiffer(g, a, i);
      KeysDiffer((g[i], g[j]), (g[a], g[b]), g[i]);
    }
  }

  lemma RowKeyIsNew(g: seq<Event>, i: nat, j: nat, p: Pair)
    requires DistinctIds(g) && i < j < |g| && p in PairsFrom(g, i, j + 1)
    ensures Key(p) != Key((g[i], g[j]))
  {
    var a, b := PairsFromMembers(g, i, j + 1, p);
    LaterKeyDiffers(g, i, j, a, b);
  }

  lemma ConsDistinct(p: Pair, rest: seq<Pair>)
    requires DistinctKeys(rest) && forall q :: q in rest ==> Key(q) != Key(p)
    ensures DistinctKeys([p] + rest)
  {
    var all := [p] + rest;
    forall x, y | 0 <= x < y < |all| ensures Key(all[x]) != Key(all[y]) {
      if x > 0 { assert all[x] == rest[x - 1] && all[y] == rest[y - 1]; } else { assert all[y] in rest; }
    }
  }

  lemma RowKeysDistinct(g: seq<Event>, i: nat, j: nat)
    requires DistinctIds(g) && i < j < |g| && DistinctKeys(PairsFrom(g, i, j + 1))
    ensures DistinctKeys([(g[i], g[j])] + PairsFrom(g, i, j + 1))
  {
    forall p | p in PairsFrom(g, i, j + 1) ensures Key(p) != Key((g[i], g[j])) { RowKeyIsNew(g, i, j, p); }
    ConsDistinct((g[i], g[j]), PairsFrom(g, i, j + 1));
  }

  lemma {:induction false} GroupKeysDistinct(g: seq<Event>, i: nat, j: nat)
    requires DistinctIds(g) && i < j
    ensures DistinctKeys(PairsFrom(g, i, j))
    decreases |g| - i, |g| - j
  {
    if i < |g| {
      if j >= |g| {
        GroupKeysDistinct(g, i + 1, i + 2);
      } else {
        GroupKeysDistinct(g, i, j + 1);
        RowKeysDistinct(g, i, j);
      }
    }
  }

  lemma {:induction false} AllPairsMembers(groups: seq<seq<Event>>, p: Pair) returns (t: nat)
    requires p in AllPairs(groups)
    ensures t < |groups| && p.0 in groups[t] && p.1 in groups[t]
    decreases |groups|
  {
    if p in PairsFrom(groups[0], 0, 1) {
      var a, b := PairsFromMembers(groups[0], 0, 1, p);
      t := 0;
    } else {
      t := AllPairsMembers(groups[1..], p);
      t := t + 1;
    }
  }

  ghost predicate GroupsApart(groups: seq<seq<Event>>) {
    forall s, t, e: Event, f: Event ::
      0 <= s < t < |groups| && e in groups[s] && f in groups[t] ==> e.id != f.id
  }

  lemma FirstGroupKeysAreNew(groups: seq<seq<Event>>, p: Pair, q: Pair)
    requires groups != [] && GroupsApart(groups)
    requires p in PairsFrom(groups[0], 0, 1) && q in AllPairs(groups[1..])
    ensures Key(p) != Key(q)
  {
    var a, b := PairsFromMembers(groups[0], 0, 1, p);
    var t := AllPairsMembers(groups[1..], q);
    assert groups[1..][t] == groups[t + 1] && p.0 in groups[0];
    assert p.0.id in Key(p) && p.0.id !in Key(q);
  }

  lemma {:induction false} GroupsKeysDistinct(groups: seq<seq<Event>>)
    requires forall t :: 0 <= t < |groups| ==> DistinctIds(groups[t])
    requires GroupsApart(groups)
    ensures DistinctKeys(AllPairs(groups))
    decreases |groups|
  {
    if groups != [] {
      var first, rest := PairsFrom(groups[0], 0, 1), AllPairs(groups[1..]);
      GroupKeysDistinct(groups[0], 0, 1);
      assert GroupsApart(groups[1..]) by {
        forall s, t, e: Event, f: Event | 0 <= s < t < |groups[1..]| && e in groups[1..][s] && f in groups[1..][t]
          ensures e.id != f.id
        {
          assert groups[1..][s] == groups[s + 1] && groups[1..][t] == groups[t + 1];
        }
      }
      GroupsKeysDistinct(groups[1..]);
      forall p, q | p in first && q in rest ensures Key(p) != Key(q) {
        FirstGroupKeysAreNew(groups, p, q);
      }
      DistinctConcat(first, rest);
    }
  }

  lemma DistinctConcat(a: seq<Pair>, b: seq<Pair>)
    requires DistinctKeys(a) && DistinctKeys(b)
    requires forall p, q :: p in a && q in b ==> Key(p) != Key(q)
    ensures DistinctKeys(a + b)
  {
    var c := a + b;
    forall i, j | 0 <= i < j < |c| ensures Key(c[i]) != Key(c[j]) {
      if i < |a| <= j {
        assert c[i] in a && c[j] in b;
      }
    }
  }

  /** Events with distinct ids give pairs with distinct keys. */
  lemma PairsDistinct(events: seq<Event>)
    requires DistinctIds(events)
    ensures DistinctKeys(Pairs(events))
  {
    var eligible := Keep(events, Eligible);
    var topics, groups := Topics(eligible), Groups(events);
    KeepDistinct(events, Eligible);
    TopicsDistinct(eligible);
    forall t | 0 <= t < |groups| ensures DistinctIds(groups[t]) {
      KeepDistinct(eligible, (e: Event) => e.topic == topics[t]);
    }
    forall s, t, e: Event, f: Event | 0 <= s < t < |groups| && e in groups[s] && f in groups[t] ensures e.id != f.id {
      KeepMembers(eligible, (x: Event) => x.topic == topics[s], e);
      KeepMembers(eligible, (x: Event) => x.topic == topics[t], f);
      assert e != f && e in eligible && f in eligible;
    }
    assert GroupsApart(groups);
    GroupsKeysDistinct(groups);
  }

  // ---- what one run does ----

  ghost predicate Consistent(cache: Cache, pairs: seq<Pair>, ai: Pair -> Verdict) {
    forall k :: 0 <= k < |pairs| && Key(pairs[k]) in cache ==> cache[Key(pairs[k])] == ai(pairs[k])
  }

  function Uncached(cache: Cache, pairs: seq<Pair>): nat {
    if pairs == [] then 0 else (if Key(pairs[0]) in cache then 0 else 1) + Uncached(cache, pairs[1..])
  }

  /** The eager scan: every pair compared. */
  function Eager(pairs: seq<Pair>, ai: Pair -> Verdict): seq<Verdict> {
    if pairs == [] then [] else Report(ai(pairs[0])) + Eager(pairs[1..], ai)
  }

  /** The conflicts among the pairs whose verdict is known. */
  function Known(cache: Cache, pairs: seq<Pair>, ai: Pair -> Verdict): seq<Verdict> {
    if pairs == [] then []
    else (if Key(pairs[0]) in cache then Report(ai(pairs[0])) else []) + Known(cache, pairs[1..], ai)
  }

  /** The eager scan reports the verdicts that are conflicts, of the pairs there are. */
  lemma {:induction false} EagerReportsConflicts(pairs: seq<Pair>, ai: Pair -> Verdict, v: Verdict)
    ensures v in Eager(pairs, ai) <==> v.isConflict && exists p :: p in pairs && ai(p) == v
    decreases |pairs|
  {
    if pairs != [] {
      EagerReportsConflicts(pairs[1..], ai, v);
      assert pairs == [pairs[0]] + pairs[1..];
      assert pairs[0] in pairs;
    }
  }

  /** The unknown pairs, counted by their places. */
  lemma {:induction false} UncachedCounts(cache: Cache, pairs: seq<Pair>)
    ensures Uncached(cache, pairs) == |set k | 0 <= k < |pairs| && {pairs[k].0.id, pairs[k].1.id} !in cache|
    decreases |pairs|
  {
    var unknown := set k | 0 <= k < |pairs| && {pairs[k].0.id, pairs[k].1.id} !in cache;
    if pairs == [] {
      assert unknown == {};
    } else {
      var n := |pairs| - 1;
      var front := pairs[..n];
      assert front + [pairs[n]] == pairs;
      UncachedCounts(cache, front);
      UncachedAppend(cache, front, pairs[n]);
      var before := set k | 0 <= k < n && {front[k].0.id, front[k].1.id} !in cache;
      assert Key(pairs[n]) == {pairs[n].0.id, pairs[n].1.id};
      assert unknown == before + if Key(pairs[n]) in cache then {} else {n};
    }
  }

  ghost predicate Subsequence(a: seq<Verdict>, b: seq<Verdict>) {
    if a == [] then true
    else b != [] && ((a[0] == b[0] && Subsequence(a[1..], b[1..])) || Subsequence(a, b[1..]))
  }

  ghost predicate Extends(big: Cache, small: Cache) {
    forall k :: k in small ==> k in big && big[k] == small[k]
  }

  /** The cache only gains entries, one for each comparison made: no pair already in it is compared again. */
  lemma {:induction false} ScanOnlyAdds(s: Scan, pairs: seq<Pair>, ai: Pair -> Verdict)
    requires s.used <= MAX_COMPARISONS
    ensures
      var r := ScanAll(s, pairs, ai);
      && s.used <= r.used <= MAX_COMPARISONS
      && Extends(r.cache, s.cache)
      && |r.cache| - |s.cache| == r.used - s.used
    decreases |pairs|
  {
    if pairs != [] {
      var next := ScanPair(s, pairs[0], ai);
      if next.cache != s.cache {
        assert next.cache.Keys == s.cache.Keys + {Key(pairs[0])};
        assert |next.cache.Keys| == |s.cache.Keys| + 1;
      }
      ScanOnlyAdds(next, pairs[1..], ai);
    }
  }

  /** A scan touches the keys of its own pairs only. */
  lemma {:induction false} ScanTouchesOwnKeys(s: Scan, pairs: seq<Pair>, ai: Pair -> Verdict, k: PairKey)
    requires forall i :: 0 <= i < |pairs| ==> Key(pairs[i]) != k
    ensures k in ScanAll(s, pairs, ai).cache <==> k in s.cache
    decreases |pairs|
  {
    if pairs != [] { ScanTouchesOwnKeys(ScanPair(s, pairs[0], ai), pairs[1..], ai, k); }
  }

  lemma {:induction false} UncachedIgnoresOtherKeys(a: Cache, b: Cache, pairs: seq<Pair>)
    requires forall i :: 0 <= i < |pairs| ==> (Key(pairs[i]) in a <==> Key(pairs[i]) in b)
    ensures Uncached(a, pairs) == Uncached(b, pairs)
    decreases |pairs|
  {
    if pairs != [] { UncachedIgnoresOtherKeys(a, b, pairs[1..]); }
  }

  lemma {:induction false} ScanKeepsConsistent(s: Scan, pairs: seq<Pair>, all: seq<Pair>, ai: Pair -> Verdict)
    requires Consistent(s.cache, all, ai) && DistinctKeys(all) && (forall p :: p in pairs ==> p in all)
    ensures Consistent(ScanAll(s, pairs, ai).cache, all, ai)
    decreases |pairs|
  {
    if pairs != [] {
      assert pairs[0] in all;
      ScanKeepsConsistent(ScanPair(s, pairs[0], ai), pairs[1..], all, ai);
    }
  }

  /** A run spends its budget on unknown pairs until either runs out. */
  lemma {:induction false} ScanSpendsBudget(s: Scan, pairs: seq<Pair>, ai: Pair -> Verdict)
    requires s.used <= MAX_COMPARISONS && DistinctKeys(pairs)
    ensures
      var r := ScanAll(s, pairs, ai);
      && Uncached(r.cache, pairs) + (r.used - s.used) == Uncached(s.cache, pairs)
      && (Uncached(r.cache, pairs) == 0 || r.used == MAX_COMPARISONS)
    decreases |pairs|
  {
    if pairs != [] {
      var p, rest := pairs[0], pairs[1..];
      var next := ScanPair(s, p, ai);
      forall i | 0 <= i < |rest| ensures Key(rest[i]) != Key(p) { assert rest[i] == pairs[i + 1]; }
      UncachedIgnoresOtherKeys(s.cache, next.cache, rest);
      ScanSpendsBudget(next, rest, ai);
      ScanTouchesOwnKeys(next, rest, ai, Key(p));
      ScanOnlyAdds(next, rest, ai);
    }
  }

  /** What one pair contributes to the report is settled once it has been considered. */
  lemma FirstPairReported(s: Scan, pairs: seq<Pair>, ai: Pair -> Verdict)
    requires s.used <= MAX_COMPARISONS && DistinctKeys(pairs) && Consistent(s.cache, pairs, ai) && pairs != []
    ensures
      var next, r := ScanPair(s, pairs[0], ai), ScanAll(s, pairs, ai);
      next.out == s.out + (if Key(pairs[0]) in r.cache then Report(ai(pairs[0])) else [])
  {
    var p, rest := pairs[0], pairs[1..];
    var next := ScanPair(s, p, ai);
    forall i | 0 <= i < |rest| ensures Key(rest[i]) != Key(p) { assert rest[i] == pairs[i + 1]; }
    ScanTouchesOwnKeys(next, rest, ai, Key(p));
  }

  /** A run reports exactly the conflicts whose verdict it knows when it ends. */
  lemma {:induction false} ScanReports(s: Scan, pairs: seq<Pair>, ai: Pair -> Verdict)
    requires s.used <= MAX_COMPARISONS && DistinctKeys(pairs) && Consistent(s.cache, pairs, ai)
    ensures ScanAll(s, pairs, ai).out == s.out + Known(ScanAll(s, pairs, ai).cache, pairs, ai)
    decreases |pairs|
  {
    if pairs != [] {
      var next, rest := ScanPair(s, pairs[0], ai), pairs[1..];
      FirstPairReported(s, pairs, ai);
      ScanKeepsConsistent(s, [pairs[0]], pairs, ai);
      assert ScanAll(s, [pairs[0]], ai) == next by { assert [pairs[0]][1..] == []; }
      assert Consistent(next.cache, rest, ai) by {
        forall k | 0 <= k < |rest| && Key(rest[k]) in next.cache ensures next.cache[Key(rest[k])] == ai(rest[k]) {
          assert rest[k] == pairs[k + 1];
        }
      }
      ScanReports(next, rest, ai);
      var known := Known(ScanAll(next, rest, ai).cache, rest, ai);
      var first := if Key(pairs[0]) in ScanAll(s, pairs, ai).cache then Report(ai(pairs[0])) else [];
      assert s.out + (first + known) == s.out + first + known;
    }
  }

  lemma {:induction false} KnownWhenAllCached(cache: Cache, pairs: seq<Pair>, ai: Pair -> Verdict)
    requires Uncached(cache, pairs) == 0
    ensures Known(cache, pairs, ai) == Eager(pairs, ai)
    decreases |pairs|
  {
    if pairs != [] { KnownWhenAllCached(cache, pairs[1..], ai); }
  }

  lemma {:induction false} SubsequenceUnderPrefix(a: seq<Verdict>, b: seq<Verdict>, prefix: seq<Verdict>)
    requires Subsequence(a, b) && |prefix| <= 1
    ensures Subsequence(a, prefix + b) && Subsequence(prefix + a, prefix + b)
  {
    if prefix == [] {
      assert prefix + a == a && prefix + b == b;
    } else {
      assert (prefix + b)[1..] == b && (prefix + a)[1..] == a;
    }
  }

  lemma {:induction false} KnownIsSubsequence(cache: Cache, pairs: seq<Pair>, ai: Pair -> Verdict)
    ensures Subsequence(Known(cache, pairs, ai), Eager(pairs, ai))
    decreases |pairs|
  {
    if pairs != [] {
      KnownIsSubsequence(cache, pairs[1..], ai);
      SubsequenceUnderPrefix(Known(cache, pairs[1..], ai), Eager(pairs[1..], ai), Report(ai(pairs[0])));
      if Key(pairs[0]) !in cache {
        assert Known(cache, pairs, ai) == Known(cache, pairs[1..], ai);
      }
    }
  }

  // ---- main results ----

  /** One run over any cache that tells the truth: at most five new comparisons, each on a pair the cache did not
      hold; what it reports is a sub-sequence of the eager scan, exactly the known conflicts; and it is the eager
      scan whenever at most five pairs were unknown. */
  lemma RunRefinesEager(cache: Cache, events: seq<Event>, ai: Pair -> Verdict)
    requires DistinctIds(events) && Consistent(cache, Pairs(events), ai)
    ensures
      var r, pairs := Run(cache, events, ai), Pairs(events);
      var n := Uncached(cache, pairs);
      && r.used == (if n < 5 then n else 5)
      && |r.cache| == |cache| + r.used && Extends(r.cache, cache)
      && Uncached(r.cache, pairs) == n - r.used
      && Consistent(r.cache, pairs, ai)
      && r.out == Known(r.cache, pairs, ai)
      && Subsequence(r.out, Eager(pairs, ai))
      && (n <= 5 ==> r.out == Eager(pairs, ai))
  {
    var pairs := Pairs(events);
    PairsDistinct(events);
    ScanOnlyAdds(Scan(cache, 0, []), pairs, ai);
    ScanKeepsConsistent(Scan(cache, 0, []), pairs, pairs, ai);
    ScanSpendsBudget(Scan(cache, 0, []), pairs, ai);
    ScanReports(Scan(cache, 0, []), pairs, ai);
    var r := Run(cache, events, ai);
    KnownIsSubsequence(r.cache, pairs, ai);
    if Uncached(r.cache, pairs) == 0 { KnownWhenAllCached(r.cache, pairs, ai); }
  }

  function CacheAfter(cache: Cache, events: seq<Event>, ai: Pair -> Verdict, runs: nat): Cache {
    if runs == 0 then cache else Run(CacheAfter(cache, events, ai, runs - 1), events, ai).cache
  }

  /** What the k-th run on unchanged events reports (k counted from 1). */
  function ReportOf(cache: Cache, events: seq<Event>, ai: Pair -> Verdict, k: nat): seq<Verdict>
    requires k > 0
  {
    Run(CacheAfter(cache, events, ai, k - 1), events, ai).out
  }

  lemma {:induction false} BudgetIsSpent(cache: Cache, events: seq<Event>, ai: Pair -> Verdict, runs: nat)
    requires DistinctIds(events) && Consistent(cache, Pairs(events), ai)
    ensures
      var c, n := CacheAfter(cache, events, ai, runs), Uncached(cache, Pairs(events));
      && Consistent(c, Pairs(events), ai)
      && Uncached(c, Pairs(events)) == if n <= MAX_COMPARISONS * runs then 0 else n - MAX_COMPARISONS * runs
    decreases runs
  {
    if runs > 0 {
      BudgetIsSpent(cache, events, ai, runs - 1);
      RunRefinesEager(CacheAfter(cache, events, ai, runs - 1), events, ai);
    }
  }

  /** With n unknown pairs, the run number ceil(n / 5), and every later one, reports exactly what the eager scan
      reports; every earlier run still leaves pairs unknown. */
  lemma EagerAfterEnoughRuns(cache: Cache, events: seq<Event>, ai: Pair -> Verdict, k: nat)
    requires DistinctIds(events) && Consistent(cache, Pairs(events), ai) && k > 0
    ensures
      var n := Uncached(cache, Pairs(events));
      && (5 * k >= n ==> ReportOf(cache, events, ai, k) == Eager(Pairs(events), ai))
      && (Uncached(CacheAfter(cache, events, ai, k), Pairs(events)) == 0 <==> 5 * k >= n)
  {
    BudgetIsSpent(cache, events, ai, k - 1);
    BudgetIsSpent(cache, events, ai, k);
    RunRefinesEager(CacheAfter(cache, events, ai, k - 1), events, ai);
  }

  // ---- exactly when a report is the eager one ----

  predicate Told(cache: Cache, p: Pair, ai: Pair -> Verdict) { ai(p).isConflict ==> Key(p) in cache }

  lemma {:induction false} KnownIsEagerExactly(cache: Cache, pairs: seq<Pair>, ai: Pair -> Verdict)
    ensures |Known(cache, pairs, ai)| <= |Eager(pairs, ai)|
    ensures Known(cache, pairs, ai) == Eager(pairs, ai) <==> forall i :: 0 <= i < |pairs| ==> Told(cache, pairs[i], ai)
    decreases |pairs|
  {
    if pairs != [] {
      var p, rest := pairs[0], pairs[1..];
      KnownIsEagerExactly(cache, rest, ai);
      assert forall i :: 0 <= i < |rest| ==> rest[i] == pairs[i + 1];
      if Told(cache, p, ai) {
        assert Eager(pairs, ai)[|Report(ai(p))|..] == Eager(rest, ai);
        assert Known(cache, pairs, ai) == Report(ai(p)) + Known(cache, rest, ai);
        assert Known(cache, pairs, ai)[|Report(ai(p))|..] == Known(cache, rest, ai);
        assert (forall i :: 0 <= i < |pairs| ==> Told(cache, pairs[i], ai))
          <==> (forall i :: 0 <= i < |rest| ==> Told(cache, rest[i], ai));
      } else {
        assert !Told(cache, pairs[0], ai);
      }
    }
  }

  lemma {:induction false} UncachedAppend(cache: Cache, pairs: seq<Pair>, p: Pair)
    ensures Uncached(cache, pairs + [p]) == Uncached(cache, pairs) + if Key(p) in cache then 0 else 1
    decreases |pairs|
  {
    if pairs == [] {
      assert [] + [p] == [p] && [p][1..] == [];
    } else {
      assert (pairs + [p])[1..] == pairs[1..] + [p];
      UncachedAppend(cache, pairs[1..], p);
    }
  }

  /** Pairs are compared in order: a run gets to a pair exactly when fewer unknown ones stand before it than it has
      comparisons left. */
  lemma {:induction false} ScanGoesInOrder(s: Scan, pairs: seq<Pair>, ai: Pair -> Verdict, i: nat)
    requires s.used <= MAX_COMPARISONS && DistinctKeys(pairs) && i < |pairs|
    ensures Key(pairs[i]) in ScanAll(s, pairs, ai).cache
       <==> Key(pairs[i]) in s.cache || s.used + Uncached(s.cache, pairs[..i]) < 5
    decreases |pairs|
  {
    var p, rest := pairs[0], pairs[1..];
    var next := ScanPair(s, p, ai);
    forall k | 0 <= k < |rest| ensures Key(rest[k]) != Key(p) { assert rest[k] == pairs[k + 1]; }
    if i == 0 {
      ScanTouchesOwnKeys(next, rest, ai, Key(p));
    } else {
      ScanGoesInOrder(next, rest, ai, i - 1);
      assert pairs[..i][1..] == rest[..i - 1];
      UncachedIgnoresOtherKeys(s.cache, next.cache, rest[..i - 1]);
    }
  }

  lemma {:induction false} RunShortensPrefix(cache: Cache, events: seq<Event>, ai: Pair -> Verdict, i: nat)
    requires DistinctIds(events) && i <= |Pairs(events)|
    ensures
      var before, after := Uncached(cache, Pairs(events)[..i]), Uncached(Run(cache, events, ai).cache, Pairs(events)[..i]);
      after == if before <= MAX_COMPARISONS then 0 else before - MAX_COMPARISONS
    decreases i
  {
    if i > 0 {
      var pairs := Pairs(events);
      PairsDistinct(events);
      RunShortensPrefix(cache, events, ai, i - 1);
      assert pairs[..i] == pairs[..i - 1] + [pairs[i - 1]];
      UncachedAppend(cache, pairs[..i - 1], pairs[i - 1]);
      UncachedAppend(Run(cache, events, ai).cache, pairs[..i - 1], pairs[i - 1]);
      ScanGoesInOrder(Scan(cache, 0, []), pairs, ai, i - 1);
    }
  }

  lemma {:induction false} RunsShortenPrefix(cache: Cache, events: seq<Event>, ai: Pair -> Verdict, runs: nat, i: nat)
    requires DistinctIds(events) && i <= |Pairs(events)|
    ensures
      var before, after := Uncached(cache, Pairs(events)[..i]), Uncached(CacheAfter(cache, events, ai, runs), Pairs(events)[..i]);
      after == if before <= MAX_COMPARISONS * runs then 0 else before - MAX_COMPARISONS * runs
    decreases runs
  {
    if runs > 0 {
      RunsShortenPrefix(cache, events, ai, runs - 1, i);
      RunShortensPrefix(CacheAfter(cache, events, ai, runs - 1), events, ai, i);
    }
  }

  /** When a pair's verdict becomes known. */
  lemma {:induction false} KnownFromRun(cache: Cache, events: seq<Event>, ai: Pair -> Verdict, runs: nat, i: nat)
    requires DistinctIds(events) && i < |Pairs(events)|
    ensures Key(Pairs(events)[i]) in CacheAfter(cache, events, ai, runs)
       <==> Key(Pairs(events)[i]) in cache || Uncached(cache, Pairs(events)[..i]) < MAX_COMPARISONS * runs
    decreases runs
  {
    if runs > 0 {
      PairsDistinct(events);
      KnownFromRun(cache, events, ai, runs - 1, i);
      RunsShortenPrefix(cache, events, ai, runs - 1, i);
      ScanGoesInOrder(Scan(CacheAfter(cache, events, ai, runs - 1), 0, []), Pairs(events), ai, i);
    }
  }

  /** The run from which a conflict not known at the start is reported: as many comparisons must have been made as there
      are unknown pairs up to it. */
  ghost predicate ReportedBy(cache: Cache, events: seq<Event>, ai: Pair -> Verdict, k: nat, i: nat)
    requires i < |Pairs(events)|
  {
    var p := Pairs(events)[i];
    ai(p).isConflict && Key(p) !in cache ==> Uncached(cache, Pairs(events)[..i]) < 5 * k
  }

  lemma ReportIsEagerWhenTold(cache: Cache, events: seq<Event>, ai: Pair -> Verdict, k: nat)
    requires DistinctIds(events) && Consistent(cache, Pairs(events), ai) && k > 0
    ensures ReportOf(cache, events, ai, k) == Eager(Pairs(events), ai)
       <==> forall i :: 0 <= i < |Pairs(events)| ==> Told(CacheAfter(cache, events, ai, k), Pairs(events)[i], ai)
  {
    BudgetIsSpent(cache, events, ai, k - 1);
    RunRefinesEager(CacheAfter(cache, events, ai, k - 1), events, ai);
    KnownIsEagerExactly(CacheAfter(cache, events, ai, k), Pairs(events), ai);
  }

  lemma ToldIsReported(cache: Cache, events: seq<Event>, ai: Pair -> Verdict, k: nat, i: nat)
    requires DistinctIds(events) && i < |Pairs(events)|
    ensures Told(CacheAfter(cache, events, ai, k), Pairs(events)[i], ai) <==> ReportedBy(cache, events, ai, k, i)
  {
    KnownFromRun(cache, events, ai, k, i);
  }

  /** On unchanged events, run k reports what the eager scan reports exactly when every conflicting pair has been
      compared by then: when none unknown at the start has 5k or more unknown pairs before it in scan order. */
  lemma EagerReportExactly(cache: Cache, events: seq<Event>, ai: Pair -> Verdict, k: nat)
    requires DistinctIds(events) && Consistent(cache, Pairs(events), ai) && k > 0
    ensures ReportOf(cache, events, ai, k) == Eager(Pairs(events), ai)
       <==> forall i :: 0 <= i < |Pairs(events)| ==> Told(CacheAfter(cache, events, ai, k), Pairs(events)[i], ai)
    ensures ReportOf(cache, events, ai, k) == Eager(Pairs(events), ai)
       <==> forall i :: 0 <= i < |Pairs(events)| ==> ReportedBy(cache, events, ai, k, i)
  {
    ReportIsEagerWhenTold(cache, events, ai, k);
    forall i | 0 <= i < |Pairs(events)|
      ensures Told(CacheAfter(cache, events, ai, k), Pairs(events)[i], ai) <==> ReportedBy(cache, events, ai, k, i)
    {
      ToldIsReported(cache, events, ai, k, i);
    }
  }

  /** Runs over any changing lists of events: the cache after them and the comparisons they made in all. */
  function RunsOver(cache: Cache, lists: seq<seq<Event>>, ai: Pair -> Verdict): (Cache, nat)
    decreases |lists|
  {
    if lists == [] then (cache, 0)
    else
      var first := Run(cache, lists[0], ai);
      var later := RunsOver(first.cache, lists[1..], ai);
      (later.0, first.used + later.1)
  }

  /** No pair is ever compared twice, whatever the event lists: all comparisons ever made are accounted for by
      different cache entries, and a verdict never changes. */
  lemma {:induction false} NoPairComparedTwice(cache: Cache, lists: seq<seq<Event>>, ai: Pair -> Verdict)
    ensures
      var (after, comparisons) := RunsOver(cache, lists, ai);
      comparisons == |after| - |cache| && Extends(after, cache) && comparisons <= 5 * |lists|
    decreases |lists|
  {
    if lists != [] {
      ScanOnlyAdds(Scan(cache, 0, []), Pairs(lists[0]), ai);
      NoPairComparedTwice(Run(cache, lists[0], ai).cache, lists[1..], ai);
    }
  }

  // ---- the confidence score built on the scan ----

  function Clamp(x: real): real { if x < 0.0 then 0.0 else if x > 1.0 then 1.0 else x }

  /** The score: mean trust less 0.15 per conflict and 0.10 per missing kind of evidence, within [0, 1]. */
  function Confidence(meanTrust: real, conflicts: nat, missing: nat): real {
    Clamp(meanTrust - 0.15 * conflicts as real - 0.10 * missing as real)
  }

  lemma ConfidenceExactly(meanTrust: real, conflicts: nat, missing: nat)
    ensures var c, raw := Confidence(meanTrust, conflicts, missing), meanTrust - 0.15 * conflicts as real - 0.1 * missing as real;
      && 0.0 <= c <= 1.0 && (0.0 <= raw <= 1.0 ==> c == raw) && (raw < 0.0 ==> c == 0.0) && (raw > 1.0 ==> c == 1.0)
  {
  }

  lemma {:induction false} KnownGrows(small: Cache, big: Cache, pairs: seq<Pair>, ai: Pair -> Verdict)
    requires Extends(big, small)
    ensures |Known(small, pairs, ai)| <= |Known(big, pairs, ai)|
    decreases |pairs|
  {
    if pairs != [] { KnownGrows(small, big, pairs[1..], ai); }
  }

  /** On unchanged events, scanning on never raises the confidence in a decision. */
  lemma ConfidenceNeverRises(cache: Cache, events: seq<Event>, ai: Pair -> Verdict, k: nat, meanTrust: real, missing: nat)
    requires DistinctIds(events) && Consistent(cache, Pairs(events), ai) && k > 0
    ensures Confidence(meanTrust, |ReportOf(cache, events, ai, k + 1)|, missing)
         <= Confidence(meanTrust, |ReportOf(cache, events, ai, k)|, missing)
  {
    BudgetIsSpent(cache, events, ai, k - 1);
    BudgetIsSpent(cache, events, ai, k);
    RunRefinesEager(CacheAfter(cache, events, ai, k - 1), events, ai);
    RunRefinesEager(CacheAfter(cache, events, ai, k), events, ai);
    KnownGrows(CacheAfter(cache, events, ai, k), CacheAfter(cache, events, ai, k + 1), Pairs(events), ai);
  }
}
