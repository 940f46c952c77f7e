/** The event pipeline of a decision: the gates an arriving event passes, and trust-ranked supersession of the
    Active events on its topic. */
module Supersession {
  import opened Prelude

  // ---- trust ----

  datatype Verification = VerifiedOk | VerifiedWarn | VerificationFailed

  function Min(a: int, b: int): int { if a < b then a else b }

  function ScoreToRank(score: int): nat {
    if score >= 80 then 3 else if score >= 55 then 2 else if score >= 30 then 1 else 0
  }

  /** Trust of an authority score heard through a medium score: rank T0..T3 as 0..3, and the combined score. */
  function ComputeTrust(authority: nat, medium: nat, verified: Verification): (nat, int) {
    if verified == VerificationFailed && authority >= 65 then (0, 10)
    else
      var combined := Min((authority * 6 + medium * 4) / 10, medium + 15);
      var final := if verified == VerifiedWarn then combined * 85 / 100 else combined;
      (ScoreToRank(final), final)
  }

  // ---- the gates ----

  datatype Delta = DeltaDocument | DeltaFact | DeltaPressure | DeltaNoChange
  datatype Status = Logged | Review | Draft | Active | Superseded

  /** An event on its way in.  `known` says the decision record was found with its fields, `readable` that the query
      for prior events succeeded, `stored` that the final write succeeded, and `refused` holds the ids of the events whose
      demotion does not reach the store; `topic` is "" when none was recognised. */
  datatype Arrival = Arrival(decision: string, known: bool, attachment: bool, fact: bool, pressure: bool,
                             ambiguousPerson: bool, authority: nat, medium: nat, verified: Verification,
                             topic: string, exposed: bool, readable: bool, refused: set<nat>, stored: bool)

  function DeltaOf(a: Arrival): Delta {
    if a.attachment then DeltaDocument
    else if a.fact && !a.pressure then DeltaFact
    else if a.pressure && !a.fact then DeltaPressure
    else DeltaNoChange
  }

  predicate PassesDelta(a: Arrival) { DeltaOf(a) == DeltaDocument || DeltaOf(a) == DeltaFact }

  /** The trust gate's rank; pressure on a financially or legally exposed decision is cut to T0. */
  function GateRank(a: Arrival, delta: Delta): nat {
    if delta == DeltaPressure && a.known && a.exposed then 0
    else ComputeTrust(a.authority, a.medium, a.verified).0
  }

  predicate ReachesTrust(a: Arrival) { PassesDelta(a) && !a.ambiguousPerson }

  function RankOf(a: Arrival): nat {
    if ReachesTrust(a) then GateRank(a, DeltaOf(a)) else 0
  }

  function StatusOf(a: Arrival): Status {
    if !PassesDelta(a) then Logged
    else if a.ambiguousPerson then Review
    else if RankOf(a) == 0 then Review
    else if RankOf(a) == 1 then Draft
    else Active
  }

  predicate Supersedes(a: Arrival) { ReachesTrust(a) && a.known && a.decision != "" && a.topic != "" && a.readable }

  // ---- the log ----

  datatype Stored = Stored(id: nat, decision: string, topic: string, rank: nat, status: Status, supersedes: Option<nat>)

  datatype Log = Log(events: seq<Stored>, nextId: nat)

  ghost predicate ValidLog(log: Log) {
    && (forall i :: 0 <= i < |log.events| ==> log.events[i].id < log.nextId)
    && (forall i, j :: 0 <= i < j < |log.events| ==> log.events[i].id != log.events[j].id)
  }

  predicate ActiveOn(e: Stored, decision: string, topic: string) {
    e.status == Active && e.decision == decision && e.topic == topic
  }

  predicate Outranked(e: Stored, decision: string, topic: string, rank: nat) {
    ActiveOn(e, decision, topic) && e.rank < rank
  }

  /** What is outranked and not refused its demotion is superseded. */
  function Demoted(events: seq<Stored>, decision: string, topic: string, rank: nat, refused: set<nat>): seq<Stored> {
    seq(|events|, i requires 0 <= i < |events| =>
      if Outranked(events[i], decision, topic, rank) && events[i].id !in refused then events[i].(status := Superseded) else events[i])
  }

  /** The id the new event records as superseded: only the last one survives the loop. */
  function LastOutranked(events: seq<Stored>, decision: string, topic: string, rank: nat): Option<nat> {
    if events == [] then None
    else if Outranked(events[|events| - 1], decision, topic, rank) then Some(events[|events| - 1].id)
    else LastOutranked(events[..|events| - 1], decision, topic, rank)
  }

  function Ingest(log: Log, a: Arrival): Log {
    var rank := RankOf(a);
    var events := if Supersedes(a) then Demoted(log.events, a.decision, a.topic, rank, a.refused) else log.events;
    var link := if Supersedes(a) then LastOutranked(log.events, a.decision, a.topic, rank) else None;
    var topic := if ReachesTrust(a) then a.topic else "";
    if a.stored then Log(events + [Stored(log.nextId, a.decision, topic, rank, StatusOf(a), link)], log.nextId + 1)
    else Log(events, log.nextId)
  }

  function IngestAll(log: Log, arrivals: seq<Arrival>): Log {
    if arrivals == [] then log
    else Ingest(IngestAll(log, arrivals[..|arrivals| - 1]), arrivals[|arrivals| - 1])
  }

  /** One status overwrite, and the loop of them over the prior events. */
  function Marked(events: seq<Stored>, id: nat): seq<Stored> {
    seq(|events|, i requires 0 <= i < |events| =>
      if events[i].id == id then events[i].(status := Superseded) else events[i])
  }

  function MarkAll(events: seq<Stored>, prior: seq<Stored>, rank: nat, refused: set<nat>): seq<Stored> {
    if prior == [] then events
    else
      var before, e := MarkAll(events, prior[..|prior| - 1], rank, refused), prior[|prior| - 1];
      if rank > e.rank && e.id !in refused then Marked(before, e.id) else before
  }

  class EventLog {
    var events: seq<Stored>
    var nextId: nat

    ghost predicate Valid()
      reads this
    {
      ValidLog(Log(events, nextId))
    }

    constructor ()
      ensures Valid() && events == []
    {
      events, nextId := [], 0;
    }

    method ActiveEvents(decision: string, topic: string) returns (prior: seq<Stored>)
      ensures prior == ActiveList(events, decision, topic)
    {
      prior := [];
      for i := 0 to |events|
        invariant prior == ActiveList(events[..i], decision, topic)
      {
        assert events[..i + 1][..i] == events[..i];
        if ActiveOn(events[i], decision, topic) { prior := prior + [events[i]]; }
      }
      assert events[..|events|] == events;
    }

    /** Overwrites the status of one record, unless the store does not take it. */
    method MarkSuperseded(id: nat, refused: bool)
      modifies this`events
      ensures events == if refused then old(events) else Marked(old(events), id)
    {
      if refused { return; }
      var k := 0;
      while k < |events|
        invariant 0 <= k <= |events| == |old(events)|
        invariant forall m :: 0 <= m < k ==> events[m] == Marked(old(events), id)[m]
        invariant forall m :: k <= m < |events| ==> events[m] == old(events)[m]
      {
        if events[k].id == id { events := events[k := events[k].(status := Superseded)]; }
        k := k + 1;
      }
    }

    /** Demotes every Active event of the topic that the new rank outranks; whether the store took a demotion is not
        looked at, and the event is linked all the same. */
    method MaybeSupersede(decision: string, topic: string, rank: nat, refused: set<nat>) returns (link: Option<nat>)
      requires Valid()
      modifies this`events
      ensures Valid()
      ensures events == Demoted(old(events), decision, topic, rank, refused)
      ensures link == LastOutranked(old(events), decision, topic, rank)
    {
      ghost var before := events;
      var prior := ActiveEvents(decision, topic);
      link := None;
      for i := 0 to |prior|
        invariant events == MarkAll(before, prior[..i], rank, refused)
        invariant link == LastOutranked(prior[..i], decision, topic, rank)
      {
        assert prior[..i + 1][..i] == prior[..i];
        ActiveListMembers(before, decision, topic);
        assert prior[i] in prior;
        if rank > prior[i].rank {
          MarkSuperseded(prior[i].id, prior[i].id in refused);
          link := Some(prior[i].id);
        }
      }
      assert prior[..|prior|] == prior;
      LastOutrankedInActive(before, decision, topic, rank);
      MarkingDemotes(Log(before, nextId), decision, topic, rank, refused);
    }

    /** The pipeline followed by the write of the event. */
    method IngestEvent(a: Arrival)
      requires Valid()
      modifies this
      ensures Valid()
      ensures Log(events, nextId) == Ingest(old(Log(events, nextId)), a)
    {
      var status, rank, topic, link := Logged, 0, "", None;
      var delta := DeltaOf(a);
      if delta == DeltaDocument || delta == DeltaFact {
        status := Review;
        if !a.ambiguousPerson {
          rank := ComputeTrust(a.authority, a.medium, a.verified).0;
          if delta == DeltaPressure && a.known && a.exposed { rank := 0; }
          topic := a.topic;
          if a.known && a.decision != "" && topic != "" && a.readable {
            link := MaybeSupersede(a.decision, topic, rank, a.refused);
          }
          status := if rank == 0 then Review else if rank == 1 then Draft else Active;
        }
      }
      if a.stored {
        events := events + [Stored(nextId, a.decision, topic, rank, status, link)];
        nextId := nextId + 1;
      }
    }
  }

  // ---- the loop of overwrites is the demotion ----

  lemma {:induction false} MarkAllPointwise(log: Log, prior: seq<Stored>, rank: nat, refused: set<nat>, k: nat)
    requires ValidLog(log) && k < |log.events| && forall e :: e in prior ==> e in log.events
    ensures |MarkAll(log.events, prior, rank, refused)| == |log.events|
    ensures MarkAll(log.events, prior, rank, refused)[k] ==
      if log.events[k] in prior && log.events[k].rank < rank && log.events[k].id !in refused
      then log.events[k].(status := Superseded) else log.events[k]
    decreases |prior|
  {
    if prior != [] {
      var front, e := prior[..|prior| - 1], prior[|prior| - 1];
      MarkAllPointwise(log, front, rank, refused, k);
      assert prior == front + [e];
      assert e in log.events;
    }
  }

  lemma {:induction false} MarkAllLength(events: seq<Stored>, prior: seq<Stored>, rank: nat, refused: set<nat>)
    ensures |MarkAll(events, prior, rank, refused)| == |events|
    decreases |prior|
  {
    if prior != [] { MarkAllLength(events, prior[..|prior| - 1], rank, refused); }
  }

  lemma MarkingDemotes(log: Log, decision: string, topic: string, rank: nat, refused: set<nat>)
    requires ValidLog(log)
    ensures MarkAll(log.events, ActiveList(log.events, decision, topic), rank, refused)
         == Demoted(log.events, decision, topic, rank, refused)
  {
    var prior := ActiveList(log.events, decision, topic);
    ActiveListMembers(log.events, decision, topic);
    MarkAllLength(log.events, prior, rank, refused);
    forall k | 0 <= k < |log.events|
      ensures MarkAll(log.events, prior, rank, refused)[k] == Demoted(log.events, decision, topic, rank, refused)[k]
    {
      MarkAllPointwise(log, prior, rank, refused, k);
    }
  }

  // ---- the Active list of one (decision, topic) ----

  function ActiveList(events: seq<Stored>, decision: string, topic: string): seq<Stored> {
    if events == [] then []
    else
      ActiveList(events[..|events| - 1], decision, topic)
      + if ActiveOn(events[|events| - 1], decision, topic) then [events[|events| - 1]] else []
  }

  lemma {:induction false} ActiveListMembers(events: seq<Stored>, decision: string, topic: string)
    ensures forall e :: e in ActiveList(events, decision, topic) <==> e in events && ActiveOn(e, decision, topic)
    decreases |events|
  {
    if events != [] {
      ActiveListMembers(events[..|events| - 1], decision, topic);
      assert events == events[..|events| - 1] + [events[|events| - 1]];
    }
  }

  lemma {:induction false} LastOutrankedInActive(events: seq<Stored>, decision: string, topic: string, rank: nat)
    ensures LastOutranked(ActiveList(events, decision, topic), decision, topic, rank)
         == LastOutranked(events, decision, topic, rank)
    decreases |events|
  {
    if events != [] {
      var front, e := events[..|events| - 1], events[|events| - 1];
      LastOutrankedInActive(front, decision, topic, rank);
      var list := ActiveList(front, decision, topic);
      if ActiveOn(e, decision, topic) {
        assert (list + [e])[..|list|] == list;
      } else {
        assert list + [] == list;
      }
    }
  }

  ghost predicate TrustOrdered(list: seq<Stored>) {
    && (forall i :: 0 <= i < |list| ==> list[i].rank >= 2)
    && (forall i, j :: 0 <= i < j < |list| ==> list[i].rank >= list[j].rank)
  }

  lemma OrderedAppend(list: seq<Stored>, e: Stored)
    ensures TrustOrdered(list + [e]) <==>
      TrustOrdered(list) && e.rank >= 2 && forall x :: x in list ==> x.rank >= e.rank
  {
    var all := list + [e];
    assert all[|list|] == e && forall i :: 0 <= i < |list| ==> all[i] == list[i];
    if TrustOrdered(all) {
      forall i, j | 0 <= i < j < |list| ensures list[i].rank >= list[j].rank { assert all[i].rank >= all[j].rank; }
      forall i | 0 <= i < |list| ensures list[i].rank >= 2 && list[i].rank >= e.rank {
        assert all[i].rank >= 2 && all[i].rank >= all[|list|].rank;
      }
    } else if TrustOrdered(list) && e.rank >= 2 {
      assert forall i :: 0 <= i < |list| ==> list[i] in list;
    }
  }

  function MaxRank(list: seq<Stored>): nat {
    if list == [] then 0
    else
      var rest := MaxRank(list[..|list| - 1]);
      if list[|list| - 1].rank > rest then list[|list| - 1].rank else rest
  }

  /** How many entries of an ordered list a rank leaves standing. */
  function Standing(list: seq<Stored>, rank: nat): (cut: nat)
    ensures cut <= |list|
  {
    if list == [] then 0
    else if list[|list| - 1].rank < rank then Standing(list[..|list| - 1], rank)
    else |list|
  }

  lemma {:induction false} StandingIsACut(list: seq<Stored>, rank: nat)
    requires TrustOrdered(list)
    ensures forall k :: 0 <= k < |list| ==> (list[k].rank < rank <==> k >= Standing(list, rank))
    decreases |list|
  {
    if list != [] && list[|list| - 1].rank < rank {
      StandingIsACut(list[..|list| - 1], rank);
    }
  }

  lemma {:induction false} MaxIsFirst(list: seq<Stored>)
    requires TrustOrdered(list)
    ensures MaxRank(list) == if list == [] then 0 else list[0].rank
    decreases |list|
  {
    if list != [] { MaxIsFirst(list[..|list| - 1]); }
  }

  /** The entries a rank does not demote: those it does not outrank, and those refused their demotion. */
  function Kept(list: seq<Stored>, rank: nat, refused: set<nat>): seq<Stored> {
    if list == [] then []
    else
      Kept(list[..|list| - 1], rank, refused)
      + if list[|list| - 1].rank >= rank || list[|list| - 1].id in refused then [list[|list| - 1]] else []
  }

  lemma {:induction false} DemotionFilters(events: seq<Stored>, decision: string, topic: string, rank: nat, refused: set<nat>)
    ensures ActiveList(Demoted(events, decision, topic, rank, refused), decision, topic)
         == Kept(ActiveList(events, decision, topic), rank, refused)
    decreases |events|
  {
    if events != [] {
      var front, e := events[..|events| - 1], events[|events| - 1];
      DemotionFilters(front, decision, topic, rank, refused);
      assert Demoted(events, decision, topic, rank, refused)[..|events| - 1] == Demoted(front, decision, topic, rank, refused);
      var list := ActiveList(front, decision, topic);
      assert (list + [e])[..|list|] == list && list + [] == list;
      assert Kept(list, rank, refused) + [] == Kept(list, rank, refused);
    }
  }

  lemma {:induction false} DemotionSparesOthers(
    events: seq<Stored>, d: string, t: string, rank: nat, refused: set<nat>, decision: string, topic: string)
    requires d != decision || t != topic
    ensures ActiveList(Demoted(events, d, t, rank, refused), decision, topic) == ActiveList(events, decision, topic)
    decreases |events|
  {
    if events != [] {
      var front := events[..|events| - 1];
      DemotionSparesOthers(front, d, t, rank, refused, decision, topic);
      assert Demoted(events, d, t, rank, refused)[..|events| - 1] == Demoted(front, d, t, rank, refused);
    }
  }

  lemma {:induction false} FilterKeepsAll(list: seq<Stored>, rank: nat)
    requires forall i :: 0 <= i < |list| ==> list[i].rank >= rank
    ensures Kept(list, rank, {}) == list
    decreases |list|
  {
    if list != [] {
      FilterKeepsAll(list[..|list| - 1], rank);
      assert list[..|list| - 1] + [list[|list| - 1]] == list;
    }
  }

  lemma {:induction false} OrderedFilterIsPrefix(list: seq<Stored>, rank: nat)
    requires TrustOrdered(list)
    ensures Kept(list, rank, {}) == list[..Standing(list, rank)]
    decreases |list|
  {
    if list != [] {
      var front := list[..|list| - 1];
      if list[|list| - 1].rank >= rank {
        FilterKeepsAll(list, rank);
        assert list[..|list|] == list;
      } else {
        OrderedFilterIsPrefix(front, rank);
        assert list[..Standing(front, rank)] == front[..Standing(front, rank)];
        assert Kept(front, rank, {}) + [] == Kept(front, rank, {});
      }
    }
  }

  /** Demotion cuts the Active list of its own topic down to the entries the rank leaves standing. */
  lemma DemotedActiveList(events: seq<Stored>, decision: string, topic: string, rank: nat)
    requires TrustOrdered(ActiveList(events, decision, topic))
    ensures
      var list := ActiveList(events, decision, topic);
      ActiveList(Demoted(events, decision, topic, rank, {}), decision, topic) == list[..Standing(list, rank)]
  {
    DemotionFilters(events, decision, topic, rank, {});
    OrderedFilterIsPrefix(ActiveList(events, decision, topic), rank);
  }

  // ---- main results ----

  /** Every read and write of the arrival works, and the decision it names is known. */
  predicate Orderly(a: Arrival) { a.known && a.readable && a.stored && a.refused == {} && a.decision != "" }

  /** What the log is before the newcomer is written. */
  function AfterDemotion(log: Log, a: Arrival): seq<Stored> {
    if Supersedes(a) then Demoted(log.events, a.decision, a.topic, RankOf(a), a.refused) else log.events
  }

  lemma NewcomerIsLast(log: Log, a: Arrival, decision: string, topic: string)
    requires a.stored
    ensures var all := Ingest(log, a).events;
      |all| == |log.events| + 1
      && ActiveList(all, decision, topic) == ActiveList(AfterDemotion(log, a), decision, topic)
           + if ActiveOn(all[|log.events|], decision, topic) then [all[|log.events|]] else []
  {
    var all := Ingest(log, a).events;
    assert all[..|log.events|] == AfterDemotion(log, a);
  }

  /** The list after one orderly arrival: what the new rank leaves standing, then the newcomer if it became Active.
      So the superseded events are a suffix of the list. */
  lemma ActiveListAfter(log: Log, a: Arrival, decision: string, topic: string)
    requires Orderly(a) && topic != "" && TrustOrdered(ActiveList(log.events, decision, topic))
    ensures
      var list, after := ActiveList(log.events, decision, topic), ActiveList(Ingest(log, a).events, decision, topic);
      if ReachesTrust(a) && a.decision == decision && a.topic == topic then
        after == list[..Standing(list, RankOf(a))]
                 + if RankOf(a) >= 2 then [Ingest(log, a).events[|log.events|]] else []
      else after == list
  {
    NewcomerIsLast(log, a, decision, topic);
    if Supersedes(a) {
      if a.decision == decision && a.topic == topic {
        DemotedActiveList(log.events, decision, topic, RankOf(a));
      } else {
        DemotionSparesOthers(log.events, a.decision, a.topic, RankOf(a), a.refused, decision, topic);
      }
    }
  }

  lemma CutAndAppend(list: seq<Stored>, rank: nat, e: Stored)
    requires TrustOrdered(list) && e.rank == rank
    ensures var after := list[..Standing(list, rank)] + if rank >= 2 then [e] else [];
      TrustOrdered(after) && MaxRank(after) >= MaxRank(list)
  {
    var left := list[..Standing(list, rank)];
    StandingIsACut(list, rank);
    OrderedAppend(left, e);
    MaxIsFirst(list);
    if rank >= 2 {
      MaxIsFirst(left + [e]);
    } else {
      assert left == list && left + [] == list;
    }
  }

  /** Trust order is kept, and the topic's greatest trust never falls. */
  lemma StepKeepsTrustOrder(log: Log, a: Arrival, decision: string, topic: string)
    requires Orderly(a) && topic != "" && TrustOrdered(ActiveList(log.events, decision, topic))
    ensures
      var list, after := ActiveList(log.events, decision, topic), ActiveList(Ingest(log, a).events, decision, topic);
      TrustOrdered(after) && MaxRank(after) >= MaxRank(list)
  {
    ActiveListAfter(log, a, decision, topic);
    CutAndAppend(ActiveList(log.events, decision, topic), RankOf(a), Ingest(log, a).events[|log.events|]);
  }

  /** Over any orderly run from an empty log, the Active events of every topic of every decision stand in
      non-increasing trust by arrival, all at T2 or above. */
  lemma {:induction false} RunKeepsTrustOrder(arrivals: seq<Arrival>, decision: string, topic: string)
    requires topic != "" && forall i :: 0 <= i < |arrivals| ==> Orderly(arrivals[i])
    ensures TrustOrdered(ActiveList(IngestAll(Log([], 0), arrivals).events, decision, topic))
    decreases |arrivals|
  {
    if arrivals != [] {
      RunKeepsTrustOrder(arrivals[..|arrivals| - 1], decision, topic);
      StepKeepsTrustOrder(IngestAll(Log([], 0), arrivals[..|arrivals| - 1]), arrivals[|arrivals| - 1], decision, topic);
    }
  }

  /** ... and the greatest Active trust of a topic at any moment of the run is kept to its end. */
  lemma {:induction false} RunKeepsMaxTrust(arrivals: seq<Arrival>, n: nat, decision: string, topic: string)
    requires topic != "" && n <= |arrivals| && forall i :: 0 <= i < |arrivals| ==> Orderly(arrivals[i])
    ensures MaxRank(ActiveList(IngestAll(Log([], 0), arrivals).events, decision, topic))
         >= MaxRank(ActiveList(IngestAll(Log([], 0), arrivals[..n]).events, decision, topic))
    decreases |arrivals| - n
  {
    if n < |arrivals| {
      RunKeepsMaxTrust(arrivals, n + 1, decision, topic);
      assert arrivals[..n + 1][..n] == arrivals[..n];
      RunKeepsTrustOrder(arrivals[..n], decision, topic);
      StepKeepsTrustOrder(IngestAll(Log([], 0), arrivals[..n]), arrivals[n], decision, topic);
    } else {
      assert arrivals[..n] == arrivals;
    }
  }

  /** When the write of the event itself fails after its priors were demoted, the topic's greatest trust survives
      exactly when the rank left something standing or there was nothing. */
  lemma LostWriteKeepsMaxExactly(log: Log, a: Arrival)
    requires Orderly(a.(stored := true)) && !a.stored && ReachesTrust(a) && a.topic != ""
    requires TrustOrdered(ActiveList(log.events, a.decision, a.topic))
    ensures
      var list, after := ActiveList(log.events, a.decision, a.topic), ActiveList(Ingest(log, a).events, a.decision, a.topic);
      MaxRank(after) >= MaxRank(list) <==> list == [] || Standing(list, RankOf(a)) > 0
  {
    var list := ActiveList(log.events, a.decision, a.topic);
    DemotedActiveList(log.events, a.decision, a.topic, RankOf(a));
    MaxIsFirst(list);
    MaxIsFirst(list[..Standing(list, RankOf(a))]);
  }

  /** When supersession cannot run (the priors could not be read, or the decision record came back empty), trust
      order survives a stored Active event exactly when it outranks nothing. */
  lemma SkippedSupersessionKeepsOrderExactly(log: Log, a: Arrival)
    requires a.stored && StatusOf(a) == Active && a.topic != "" && !(a.known && a.readable)
    requires TrustOrdered(ActiveList(log.events, a.decision, a.topic))
    ensures
      var list := ActiveList(log.events, a.decision, a.topic);
      TrustOrdered(ActiveList(Ingest(log, a).events, a.decision, a.topic)) <==> Standing(list, RankOf(a)) == |list|
  {
    var list := ActiveList(log.events, a.decision, a.topic);
    var all := Ingest(log, a).events;
    assert all[..|log.events|] == log.events;
    var after := ActiveList(all, a.decision, a.topic);
    assert after == list + [all[|log.events|]];
    StandingIsACut(list, RankOf(a));
    if Standing(list, RankOf(a)) < |list| {
      assert after[|list| - 1].rank < after[|list|].rank;
    } else {
      assert forall i :: 0 <= i < |list| ==> list[i].rank >= RankOf(a);
    }
  }

  // ---- demotions the store did not take ----

  lemma {:induction false} KeptMembers(list: seq<Stored>, rank: nat, refused: set<nat>)
    ensures forall e :: e in Kept(list, rank, refused) <==> e in list && (e.rank >= rank || e.id in refused)
    decreases |list|
  {
    if list != [] {
      KeptMembers(list[..|list| - 1], rank, refused);
      assert list == list[..|list| - 1] + [list[|list| - 1]];
    }
  }

  lemma {:induction false} KeptStaysOrdered(list: seq<Stored>, rank: nat, refused: set<nat>)
    requires TrustOrdered(list)
    ensures TrustOrdered(Kept(list, rank, refused))
    decreases |list|
  {
    if list != [] {
      var front, last := list[..|list| - 1], list[|list| - 1];
      KeptStaysOrdered(front, rank, refused);
      KeptMembers(front, rank, refused);
      assert list == front + [last];
      OrderedAppend(front, last);
      OrderedAppend(Kept(front, rank, refused), last);
      assert Kept(front, rank, refused) + [] == Kept(front, rank, refused);
    }
  }

  /** A prior event that keeps its Active status although the newcomer outranks it. */
  predicate Stale(e: Stored, a: Arrival) { Outranked(e, a.decision, a.topic, RankOf(a)) && e.id in a.refused }

  lemma ListAfterRefusals(log: Log, a: Arrival)
    requires a.stored && Supersedes(a)
    ensures
      var after := ActiveList(Ingest(log, a).events, a.decision, a.topic);
      after == Kept(ActiveList(log.events, a.decision, a.topic), RankOf(a), a.refused)
               + if RankOf(a) >= 2 then [Ingest(log, a).events[|log.events|]] else []
  {
    var demoted := Demoted(log.events, a.decision, a.topic, RankOf(a), a.refused);
    assert Ingest(log, a).events[..|demoted|] == demoted;
    DemotionFilters(log.events, a.decision, a.topic, RankOf(a), a.refused);
  }

  /** What a demotion the store did not take does: trust order survives the arrival exactly when no event that was to be
      demoted kept its status. */
  lemma RefusedDemotionKeepsOrderExactly(log: Log, a: Arrival)
    requires a.stored && Supersedes(a) && TrustOrdered(ActiveList(log.events, a.decision, a.topic))
    ensures TrustOrdered(ActiveList(Ingest(log, a).events, a.decision, a.topic))
       <==> forall e :: e in log.events ==> !Stale(e, a)
  {
    var list, after := ActiveList(log.events, a.decision, a.topic), ActiveList(Ingest(log, a).events, a.decision, a.topic);
    var kept := Kept(list, RankOf(a), a.refused);
    ActiveListMembers(log.events, a.decision, a.topic);
    KeptMembers(list, RankOf(a), a.refused);
    KeptStaysOrdered(list, RankOf(a), a.refused);
    ListAfterRefusals(log, a);
    if RankOf(a) >= 2 {
      OrderedAppend(kept, Ingest(log, a).events[|log.events|]);
    } else {
      assert after == kept;
    }
    assert forall e :: e in kept && e.rank < RankOf(a) <==> e in log.events && Stale(e, a);
    assert forall e :: e in list ==> e.rank >= 2;
  }

  // ---- the link ----

  /** Every event the newcomer outranks is the one it names. */
  ghost predicate NamesAll(log: Log, a: Arrival) {
    forall k :: 0 <= k < |log.events| && Outranked(log.events[k], a.decision, a.topic, RankOf(a)) ==>
      LastOutranked(log.events, a.decision, a.topic, RankOf(a)) == Some(log.events[k].id)
  }

  ghost predicate OutranksTwo(log: Log, a: Arrival) {
    exists i, j :: 0 <= i < j < |log.events|
      && Outranked(log.events[i], a.decision, a.topic, RankOf(a)) && Outranked(log.events[j], a.decision, a.topic, RankOf(a))
  }

  /** The newcomer names every event it supersedes exactly when it outranks at most one: of several only the last is
      named, and the others are superseded without a link. */
  lemma NamesAllExactly(log: Log, a: Arrival)
    requires ValidLog(log) && Supersedes(a) && a.stored
    ensures Ingest(log, a).events[|log.events|].supersedes == LastOutranked(log.events, a.decision, a.topic, RankOf(a))
    ensures NamesAll(log, a) <==> !OutranksTwo(log, a)
  {
    var d, t, rank := a.decision, a.topic, RankOf(a);
    if i, j :| 0 <= i < j < |log.events| && Outranked(log.events[i], d, t, rank) && Outranked(log.events[j], d, t, rank) {
      LastOutrankedIsLast(log.events, d, t, rank, i, j);
    } else {
      forall k | 0 <= k < |log.events| && Outranked(log.events[k], d, t, rank)
        ensures LastOutranked(log.events, d, t, rank) == Some(log.events[k].id)
      {
        OnlyOutrankedIsLast(log.events, d, t, rank, k);
      }
    }
  }

  lemma {:induction false} OnlyOutrankedIsLast(events: seq<Stored>, d: string, t: string, rank: nat, k: nat)
    requires k < |events| && Outranked(events[k], d, t, rank)
    requires forall m :: k < m < |events| ==> !Outranked(events[m], d, t, rank)
    ensures LastOutranked(events, d, t, rank) == Some(events[k].id)
    decreases |events|
  {
    if k < |events| - 1 { OnlyOutrankedIsLast(events[..|events| - 1], d, t, rank, k); }
  }

  lemma {:induction false} LastOutrankedIsLast(events: seq<Stored>, d: string, t: string, rank: nat, i: nat, j: nat)
    requires i < j < |events| && Outranked(events[j], d, t, rank)
    requires forall m, n :: 0 <= m < n < |events| ==> events[m].id != events[n].id
    ensures LastOutranked(events, d, t, rank).Some? && LastOutranked(events, d, t, rank) != Some(events[i].id)
    decreases |events|
  {
    if !Outranked(events[|events| - 1], d, t, rank) {
      LastOutrankedIsLast(events[..|events| - 1], d, t, rank, i, j);
    }
  }

  // ---- inputs at which the laws fail ----

  /** A document on topic "t" of decision "d" heard by e-mail. */
  function Letter(authority: nat, medium: nat): Arrival {
    Arrival("d", true, true, false, false, false, authority, medium, VerifiedOk, "t", false, true, {}, true)
  }

  function LogOf(arrivals: seq<Arrival>): Log { IngestAll(Log([], 0), arrivals) }

  lemma LogOfOne(a: Arrival)
    ensures LogOf([a]) == Ingest(Log([], 0), a)
  {
    assert [a][..|[a]| - 1] == [] && IngestAll(Log([], 0), []) == Log([], 0);
  }

  lemma LogOfTwo(a: Arrival, b: Arrival)
    ensures LogOf([a, b]) == Ingest(LogOf([a]), b)
  {
    assert [a, b][..|[a, b]| - 1] == [a];
  }

  function Weaker(): Arrival { Letter(60, 60) }
  function Stronger(): Arrival { Letter(80, 90) }

  lemma LetterRanks()
    ensures RankOf(Weaker()) == 2 && StatusOf(Weaker()) == Active && RankOf(Stronger()) == 3
  {
  }

  /** What stands after one letter of rank T2. */
  lemma OneLetter()
    ensures LogOf([Weaker()]) == Log([Stored(0, "d", "t", 2, Active, None)], 1)
  {
    LetterRanks();
    LogOfOne(Weaker());
    assert Demoted([], "d", "t", 2, {}) == [];
  }

  lemma ListOfOne(e: Stored)
    requires ActiveOn(e, "d", "t") && e.rank == 2
    ensures ActiveList([e], "d", "t") == [e] && TrustOrdered([e]) && Standing([e], 3) == 0
  {
    assert [e][..|[e]| - 1] == [];
    assert ActiveList([], "d", "t") == [] && Standing([], 3) == 0;
  }

  /** When the write of the stronger letter is lost, the topic's greatest trust falls. */
  lemma LostWriteCanLowerMax()
    ensures var a, log := Stronger().(stored := false), LogOf([Weaker()]);
      MaxRank(ActiveList(Ingest(log, a).events, "d", "t")) < MaxRank(ActiveList(log.events, "d", "t"))
  {
    LetterRanks();
    OneLetter();
    var a, log := Stronger().(stored := false), LogOf([Weaker()]);
    ListOfOne(log.events[0]);
    assert log.events == [log.events[0]] && RankOf(a) == RankOf(Stronger());
    LostWriteKeepsMaxExactly(log, a);
  }

  /** When the prior events cannot be read the stronger letter stands behind the weaker. */
  lemma SkippedSupersessionCanBreakOrder()
    ensures var a, log := Stronger().(readable := false), LogOf([Weaker()]);
      !TrustOrdered(ActiveList(Ingest(log, a).events, "d", "t"))
  {
    LetterRanks();
    OneLetter();
    var a, log := Stronger().(readable := false), LogOf([Weaker()]);
    ListOfOne(log.events[0]);
    assert log.events == [log.events[0]] && RankOf(a) == RankOf(Stronger());
    SkippedSupersessionKeepsOrderExactly(log, a);
  }

  /** The same when the store does not take the demotion. */
  lemma RefusedDemotionCanBreakOrder()
    ensures var a, log := Stronger().(refused := {0}), LogOf([Weaker()]);
      !TrustOrdered(ActiveList(Ingest(log, a).events, "d", "t"))
  {
    LetterRanks();
    OneLetter();
    var a, log := Stronger().(refused := {0}), LogOf([Weaker()]);
    ListOfOne(log.events[0]);
    assert log.events == [log.events[0]] && RankOf(a) == RankOf(Stronger());
    RefusedDemotionKeepsOrderExactly(log, a);
    assert Stale(log.events[0], a);
  }

  /** Two letters of rank T2 and then one of rank T3: the first is superseded and no one names it. */
  lemma TwoLettersOneLink()
    ensures var log := LogOf([Weaker(), Weaker()]); ValidLog(log) && !NamesAll(log, Stronger())
  {
    LetterRanks();
    OneLetter();
    LogOfTwo(Weaker(), Weaker());
    var e := Stored(0, "d", "t", 2, Active, None);
    assert Demoted([e], "d", "t", 2, {}) == [e];
    assert LastOutranked([e], "d", "t", 2) == None;
    var log := LogOf([Weaker(), Weaker()]);
    assert log.events == [e, e.(id := 1)];
    assert Outranked(log.events[0], "d", "t", 3) && Outranked(log.events[1], "d", "t", 3);
    NamesAllExactly(log, Stronger());
  }

  // ---- what becomes Active ----

  /** The cut to T0 for pressure on an exposed decision can never apply: an event whose delta is pressure has been
      logged by the first gate before trust is judged. */
  lemma PressureCutUnreachable(a: Arrival)
    requires ReachesTrust(a)
    ensures RankOf(a) == ComputeTrust(a.authority, a.medium, a.verified).0
  {}

  /** An event becomes Active exactly when it reaches the trust gate, is no failed claim of a strong source, and its
      authority and medium weigh enough, with a floor under the medium that no authority makes up for; a warning raises
      both.  A failed claim of a source below 65 is judged as if it had been verified. */
  lemma ActiveExactly(a: Arrival)
    ensures StatusOf(a) == Active <==>
      && ReachesTrust(a) && !(a.verified == VerificationFailed && a.authority >= 65)
      && if a.verified == VerifiedWarn then a.medium >= 50 && 6 * a.authority + 4 * a.medium >= 650
         else a.medium >= 40 && 6 * a.authority + 4 * a.medium >= 550
  {}

  /** Sixths of authority and fourths of the medium together reach the level asked for, and so does the medium with 15
      added to it; after a warning the level is the higher one. */
  predicate Weighs(a: Arrival, level: nat, warned: nat) {
    var asked := if a.verified == VerifiedWarn then warned else level;
    6 * a.authority + 4 * a.medium >= 10 * asked && a.medium + 15 >= asked
  }

  /** A claim of a source of 65 or more that failed verification is not trusted at all. */
  predicate FailedClaim(a: Arrival) { a.verified == VerificationFailed && a.authority >= 65 }

  /** A document, or a fact said without pressure. */
  predicate Counts(a: Arrival) { a.attachment || (a.fact && !a.pressure) }

  lemma RankExactly(a: Arrival)
    ensures var r := ComputeTrust(a.authority, a.medium, a.verified).0;
      && r <= 3
      && (r >= 1 <==> !FailedClaim(a) && Weighs(a, 30, 36))
      && (r >= 2 <==> !FailedClaim(a) && Weighs(a, 55, 65))
      && (r == 3 <==> !FailedClaim(a) && Weighs(a, 80, 95))
  {
  }

  /** What becomes of an event by what arrives: without a document or a plain fact it is logged and no more; with one it
      waits for review when the person is unclear or nothing speaks for it, is a draft at the lowest trust, and is Active
      from T2 on. */
  lemma StatusExactly(a: Arrival)
    ensures StatusOf(a) ==
      if !Counts(a) then Logged
      else if a.ambiguousPerson || FailedClaim(a) || !Weighs(a, 30, 36) then Review
      else if !Weighs(a, 55, 65) then Draft
      else Active
    ensures RankOf(a) ==
      if !Counts(a) || a.ambiguousPerson || FailedClaim(a) || !Weighs(a, 30, 36) then 0
      else if !Weighs(a, 55, 65) then 1
      else if !Weighs(a, 80, 95) then 2
      else 3
  {
    RankExactly(a);
  }

  /** The event is one the newcomer outranks: Active, of its decision and topic, and of lower trust. */
  predicate Under(e: Stored, a: Arrival) {
    e.status == Active && e.decision == a.decision && e.topic == a.topic && e.rank < RankOf(a)
  }

  /** The priors of an arrival are looked at. */
  predicate Judged(a: Arrival) {
    Counts(a) && !a.ambiguousPerson && a.known && a.readable && a.decision != "" && a.topic != ""
  }

  /** What an arrival leaves: of the events there were only those it outranks are touched, and only their status, where the
      store took it; the event itself stands last, if its write was taken, with its decision, its topic once trust was
      judged, its rank and status, and the last event it outranked. */
  lemma ArrivalLeaves(log: Log, a: Arrival)
    ensures var after, n := Ingest(log, a), |log.events|;
      && |after.events| == n + (if a.stored then 1 else 0) && after.nextId == log.nextId + (if a.stored then 1 else 0)
      && (forall i :: 0 <= i < n ==>
            after.events[i] == if Judged(a) && Under(log.events[i], a) && log.events[i].id !in a.refused
                               then log.events[i].(status := Superseded) else log.events[i])
      && (a.stored ==>
            var e := after.events[n];
            && e.id == log.nextId && e.decision == a.decision && e.rank == RankOf(a) && e.status == StatusOf(a)
            && e.topic == (if Counts(a) && !a.ambiguousPerson then a.topic else ""))
  {
  }

  /** The link of the newcomer: the last event it outranked, or none. */
  lemma {:induction false} LinkExactly(log: Log, a: Arrival)
    requires a.stored
    ensures var e := Ingest(log, a).events[|log.events|];
      match e.supersedes
      case None => !Judged(a) || forall i :: 0 <= i < |log.events| ==> !Under(log.events[i], a)
      case Some(id) =>
        Judged(a)
        && exists i :: 0 <= i < |log.events| && Under(log.events[i], a) && log.events[i].id == id
             && forall j :: i < j < |log.events| ==> !Under(log.events[j], a)
  {
    LastUnder(log.events, a);
  }

  lemma {:induction false} LastUnder(events: seq<Stored>, a: Arrival)
    ensures match LastOutranked(events, a.decision, a.topic, RankOf(a))
      case None => forall i :: 0 <= i < |events| ==> !Under(events[i], a)
      case Some(id) =>
        exists i :: 0 <= i < |events| && Under(events[i], a) && events[i].id == id
          && forall j :: i < j < |events| ==> !Under(events[j], a)
    decreases |events|
  {
    if events != [] {
      var n := |events| - 1;
      var front := events[..n];
      LastUnder(front, a);
      if !Under(events[n], a) {
        if LastOutranked(front, a.decision, a.topic, RankOf(a)).Some? {
          var i :| 0 <= i < n && Under(front[i], a) && front[i].id == LastOutranked(front, a.decision, a.topic, RankOf(a)).value
            && forall j :: i < j < n ==> !Under(front[j], a);
          assert Under(events[i], a);
        }
      } else {
        assert Under(events[n], a);
      }
    }
  }

  /** A claim of a client that failed verification is Active. */
  lemma FailedClaimCanBeActive()
    ensures StatusOf(Letter(60, 60).(verified := VerificationFailed)) == Active
  {
    ActiveExactly(Letter(60, 60).(verified := VerificationFailed));
  }
}
