/** Organization find-or-create: names are compared with blanks collapsed and case folded, one record per such key. */
module OrganizationDedup {
  import opened Prelude
  import opened Texts
  import opened StoreOutcomes

  // ---- collapsing blanks ----

  function WordsFrom(s: string, open: string): seq<string>
    decreases |s|
  {
    if s == "" then (if open == "" then [] else [open])
    else if White(s[0]) then (if open == "" then [] else [open]) + WordsFrom(s[1..], "")
    else WordsFrom(s[1..], open + [s[0]])
  }

  function JoinWords(words: seq<string>): string {
    if words == [] then "" else if |words| == 1 then words[0] else words[0] + " " + JoinWords(words[1..])
  }

  /** The display spelling: `" ".join(value.split())`. */
  function Collapse(s: string): string { JoinWords(WordsFrom(s, "")) }

  ghost predicate Word(w: string) { w != "" && forall i :: 0 <= i < |w| ==> !White(w[i]) }

  lemma {:induction false} WordsAreWords(s: string, open: string)
    requires open == "" || Word(open)
    ensures forall w :: w in WordsFrom(s, open) ==> Word(w)
    decreases |s|
  {
    if s != "" {
      if White(s[0]) { WordsAreWords(s[1..], ""); } else { WordsAreWords(s[1..], open + [s[0]]); }
    }
  }

  lemma {:induction false} WordThenBlank(w: string, rest: string, open: string)
    requires forall i :: 0 <= i < |w| ==> !White(w[i])
    requires open + w != ""
    ensures WordsFrom(w + " " + rest, open) == [open + w] + WordsFrom(rest, "")
    ensures WordsFrom(w, open) == [open + w]
    decreases |w|
  {
    if w == "" {
      assert (w + " " + rest)[1..] == rest && open + w == open;
    } else {
      assert (w + " " + rest)[1..] == w[1..] + " " + rest;
      assert open + [w[0]] + w[1..] == open + w;
      WordThenBlank(w[1..], rest, open + [w[0]]);
    }
  }

  lemma {:induction false} JoinedWordsSplit(words: seq<string>)
    requires forall w :: w in words ==> Word(w)
    ensures WordsFrom(JoinWords(words), "") == words
    decreases |words|
  {
    if words != [] {
      assert words[0] in words && "" + words[0] == words[0];
      WordThenBlank(words[0], JoinWords(words[1..]), "");
      if |words| > 1 { JoinedWordsSplit(words[1..]); }
    }
  }

  /** The display spelling is its own display spelling, so a stored name is found under the key it was created for. */
  lemma CollapseIdempotent(s: string)
    ensures Collapse(Collapse(s)) == Collapse(s)
  {
    WordsAreWords(s, "");
    JoinedWordsSplit(WordsFrom(s, ""));
  }

  // ---- a name as words and what stands between them ----

  /** Words with a gap before each and one after the last. */
  function Laid(gaps: seq<string>, words: seq<string>): string
    requires |gaps| == |words| + 1
    decreases |words|
  {
    if words == [] then gaps[0] else gaps[0] + (words[0] + Laid(gaps[1..], words[1..]))
  }

  predicate Gap(g: string) { forall i :: 0 <= i < |g| ==> White(g[i]) }

  /** Gaps of blanks, with some blank between any two words. */
  ghost predicate Separated(gaps: seq<string>, words: seq<string>) {
    && |gaps| == |words| + 1
    && (forall k :: 0 <= k < |words| ==> Word(words[k]))
    && (forall k :: 0 <= k < |gaps| ==> Gap(gaps[k]))
    && (forall k :: 0 < k < |words| ==> gaps[k] != "")
  }

  /** One blank between any two words and none around them. */
  predicate Tight(gaps: seq<string>) {
    gaps != [] && gaps[0] == "" && gaps[|gaps| - 1] == "" && forall k :: 0 < k < |gaps| - 1 ==> gaps[k] == " "
  }

  lemma SplitSkipsGap(g: string, rest: string)
    requires Gap(g)
    ensures WordsFrom(g + rest, "") == WordsFrom(rest, "")
    decreases |g|
  {
    if g == "" {
      assert g + rest == rest;
    } else {
      assert (g + rest)[1..] == g[1..] + rest;
      SplitSkipsGap(g[1..], rest);
    }
  }

  lemma {:induction false} SplitTakesWord(w: string, rest: string, open: string)
    requires (forall i :: 0 <= i < |w| ==> !White(w[i])) && open + w != "" && (rest == "" || White(rest[0]))
    ensures WordsFrom(w + rest, open) == [open + w] + WordsFrom(rest, "")
    decreases |w|
  {
    if w == "" {
      assert w + rest == rest && open + w == open;
    } else {
      assert (w + rest)[1..] == w[1..] + rest;
      assert open + [w[0]] + w[1..] == open + w;
      SplitTakesWord(w[1..], rest, open + [w[0]]);
    }
  }

  lemma {:induction false} SplitFindsWords(gaps: seq<string>, words: seq<string>)
    requires Separated(gaps, words)
    ensures WordsFrom(Laid(gaps, words), "") == words
    decreases |words|
  {
    if words == [] {
      SplitSkipsGap(gaps[0], "");
      assert gaps[0] + "" == gaps[0];
    } else {
      var rest := Laid(gaps[1..], words[1..]);
      assert Separated(gaps[1..], words[1..]);
      SplitFindsWords(gaps[1..], words[1..]);
      GapComesNext(gaps[1..], words[1..]);
      SplitSkipsGap(gaps[0], words[0] + rest);
      SplitTakesWord(words[0], rest, "");
      assert "" + words[0] == words[0];
    }
  }

  lemma GapComesNext(gaps: seq<string>, words: seq<string>)
    requires |gaps| == |words| + 1 && Gap(gaps[0]) && (words == [] || gaps[0] != "")
    ensures Laid(gaps, words) == "" || White(Laid(gaps, words)[0])
  {
  }

  function TightGaps(n: nat, first: string): (gaps: seq<string>)
    ensures |gaps| == n + 1 && gaps[n] == "" && (n > 0 ==> gaps[0] == first)
    ensures forall k :: 0 < k < n ==> gaps[k] == " "
  {
    if n == 0 then [""] else [first] + TightGaps(n - 1, " ")
  }

  lemma Regroup(a: string, b: string, c: string, d: string)
    ensures a + (b + (c + d)) == a + (b + c + d) && a + (b + "") == a + b
  {
    assert b + "" == b;
  }

  lemma {:induction false} JoinedIsLaid(words: seq<string>, first: string)
    ensures Laid(TightGaps(|words|, first), words) == if words == [] then "" else first + JoinWords(words)
    decreases |words|
  {
    if words != [] {
      var gaps, rest := TightGaps(|words|, first), words[1..];
      assert gaps[1..] == TightGaps(|rest|, " ") && gaps[0] == first;
      JoinedIsLaid(rest, " ");
      Regroup(first, words[0], " ", JoinWords(rest));
      assert JoinWords(words) == if rest == [] then words[0] else words[0] + " " + JoinWords(rest);
    }
  }

  /** The display spelling of a name has the same words in the same order, with one blank between any two and none around
      them. */
  lemma CollapseKeepsWords(gaps: seq<string>, words: seq<string>) returns (tight: seq<string>)
    requires Separated(gaps, words)
    ensures |tight| == |words| + 1 && Tight(tight)
    ensures Collapse(Laid(gaps, words)) == Laid(tight, words)
  {
    SplitFindsWords(gaps, words);
    tight := TightGaps(|words|, "");
    JoinedIsLaid(words, "");
    assert "" + JoinWords(words) == JoinWords(words);
  }

  lemma {:induction false} LeadingRun(s: string, white: bool) returns (n: nat)
    ensures n <= |s| && (forall i :: 0 <= i < n ==> White(s[i]) == white) && (n < |s| ==> White(s[n]) != white)
    decreases |s|
  {
    if s == "" || White(s[0]) != white {
      n := 0;
    } else {
      n := LeadingRun(s[1..], white);
      n := n + 1;
      forall i | 0 <= i < n ensures White(s[i]) == white {
        if i > 0 { assert s[i] == s[1..][i - 1]; }
      }
    }
  }

  /** Every text is such words and gaps. */
  lemma {:induction false} EveryTextIsLaid(s: string) returns (gaps: seq<string>, words: seq<string>)
    ensures Separated(gaps, words) && s == Laid(gaps, words)
    ensures s != "" && White(s[0]) ==> gaps[0] != ""
    decreases |s|
  {
    var n := LeadingRun(s, true);
    if n == |s| {
      gaps, words := [s], [];
    } else {
      var m := LeadingRun(s[n..], false);
      var g, w, rest := s[..n], s[n..n + m], s[n + m..];
      assert s[n] == s[n..][0];
      forall i | 0 <= i < |w| ensures !White(w[i]) { assert w[i] == s[n..][i]; }
      if rest != "" { assert rest[0] == s[n..][m]; }
      var laterGaps, laterWords := EveryTextIsLaid(rest);
      gaps, words := [g] + laterGaps, [w] + laterWords;
      assert gaps[1..] == laterGaps && words[1..] == laterWords;
      assert s == g + (w + rest);
      assert forall k :: 0 < k < |words| ==> gaps[k] == laterGaps[k - 1] && words[k] == laterWords[k - 1];
    }
  }

  // ---- find or create ----

  /** `usable` says the store gave the record an id of the right form. */
  datatype Row = Row(id: nat, name: string, usable: bool)

  datatype Reply =
    | EmptyName | LookupFailed | Ambiguous | Unusable | Reused(id: nat) | New(id: nat) | NewWithoutId | NotCreated

  /** One call: the name asked for, whether the scan of existing names works, and how a create would end. */
  datatype Request = Request(name: string, lookupOk: bool, outcome: AddOutcome)

  /** The comparison key; `fold` stands for the case folding of the source. */
  function NameKey(name: string, fold: string -> string): string { fold(Collapse(name)) }

  function Matches(rows: seq<Row>, key: string, fold: string -> string): seq<Row> {
    if rows == [] then []
    else
      Matches(rows[..|rows| - 1], key, fold)
      + if NameKey(rows[|rows| - 1].name, fold) == key then [rows[|rows| - 1]] else []
  }

  function CreateReply(o: AddOutcome, id: nat): Reply {
    match o
    case Created => New(id)
    case CreatedWithoutId => NewWithoutId
    case _ => NotCreated
  }

  function FindOrCreate(rows: seq<Row>, nextId: nat, q: Request, fold: string -> string): (seq<Row>, Reply) {
    var key := NameKey(q.name, fold);
    if key == "" then (rows, EmptyName)
    else if !q.lookupOk then (rows, LookupFailed)
    else
      var found := Matches(rows, key, fold);
      if |found| > 1 then (rows, Ambiguous)
      else if |found| == 1 then (rows, if found[0].usable then Reused(found[0].id) else Unusable)
      else
        (if Writes(q.outcome) then rows + [Row(nextId, Collapse(q.name), true)] else rows,
         CreateReply(q.outcome, nextId))
  }

  class OrganizationTable {
    var rows: seq<Row>
    var nextId: nat

    constructor ()
      ensures rows == []
    {
      rows, nextId := [], 0;
    }

    method FindOrCreateOrganization(q: Request, fold: string -> string) returns (reply: Reply)
      modifies this
      ensures (rows, reply) == FindOrCreate(old(rows), old(nextId), q, fold)
    {
      var display := Collapse(q.name);
      var normalized := fold(display);
      if normalized == "" { return EmptyName; }
      if !q.lookupOk { return LookupFailed; }
      var matches: seq<Row> := [];
      for i := 0 to |rows|
        invariant matches == Matches(rows[..i], normalized, fold)
      {
        assert rows[..i + 1][..i] == rows[..i];
        if fold(Collapse(rows[i].name)) == normalized { matches := matches + [rows[i]]; }
      }
      assert rows[..|rows|] == rows;
      if |matches| > 1 { return Ambiguous; }
      if matches != [] { return if matches[0].usable then Reused(matches[0].id) else Unusable; }
      var id := nextId;
      nextId := nextId + 1;
      if Writes(q.outcome) { rows := rows + [Row(id, display, true)]; }
      return CreateReply(q.outcome, id);
    }
  }

  /** A call, however its scan and its create end, never makes a second record under any key. */
  lemma CallKeepsOnePerName(rows: seq<Row>, nextId: nat, q: Request, fold: string -> string, key: string)
    ensures
      var after := Matches(FindOrCreate(rows, nextId, q, fold).0, key, fold);
      |after| <= 1 || after == Matches(rows, key, fold)
  {
    var next := FindOrCreate(rows, nextId, q, fold).0;
    if next != rows {
      assert next[..|rows|] == rows;
      CollapseIdempotent(q.name);
    }
  }

  function RunCalls(rows: seq<Row>, nextId: nat, calls: seq<Request>, fold: string -> string): seq<Row>
    decreases |calls|
  {
    if calls == [] then rows
    else RunCalls(FindOrCreate(rows, nextId, calls[0], fold).0, nextId + 1, calls[1..], fold)
  }

  /** Over any run of calls, a key that starts with at most one record keeps at most one. */
  lemma {:induction false} RunKeepsOnePerName(rows: seq<Row>, nextId: nat, calls: seq<Request>, fold: string -> string, key: string)
    requires |Matches(rows, key, fold)| <= 1
    ensures |Matches(RunCalls(rows, nextId, calls, fold), key, fold)| <= 1
    decreases |calls|
  {
    if calls != [] {
      CallKeepsOnePerName(rows, nextId, calls[0], fold, key);
      RunKeepsOnePerName(FindOrCreate(rows, nextId, calls[0], fold).0, nextId + 1, calls[1..], fold, key);
    }
  }

  /** Two spellings with the same key name the same record: the second call reuses what the first created. */
  lemma SpellingsShareARecord(rows: seq<Row>, nextId: nat, q: Request, again: Request, fold: string -> string)
    requires FindOrCreate(rows, nextId, q, fold).1.New?
    requires NameKey(again.name, fold) == NameKey(q.name, fold) && again.lookupOk
    ensures
      var after := FindOrCreate(rows, nextId, q, fold);
      FindOrCreate(after.0, nextId + 1, again, fold) == (after.0, Reused(after.1.id))
  {
    var next := FindOrCreate(rows, nextId, q, fold).0;
    assert next[..|rows|] == rows;
    CollapseIdempotent(q.name);
  }

  // ---- one call, exactly ----

  /** The places of the records that have the key. */
  ghost function Holding(rows: seq<Row>, key: string, fold: string -> string): set<int> {
    set i | 0 <= i < |rows| && fold(Collapse(rows[i].name)) == key
  }

  lemma HoldingLast(rows: seq<Row>, r: Row, key: string, fold: string -> string)
    ensures Holding(rows + [r], key, fold) == Holding(rows, key, fold) + if fold(Collapse(r.name)) == key then {|rows|} else {}
  {
    var all := rows + [r];
    forall i ensures i in Holding(all, key, fold)
      <==> i in Holding(rows, key, fold) || (i == |rows| && fold(Collapse(r.name)) == key)
    {
      if 0 <= i < |rows| { assert all[i] == rows[i]; }
    }
  }

  lemma {:induction false} MatchesCounted(rows: seq<Row>, key: string, fold: string -> string)
    ensures |Matches(rows, key, fold)| == |Holding(rows, key, fold)|
    decreases |rows|
  {
    if rows == [] {
      assert Holding(rows, key, fold) == {};
    } else {
      var n := |rows| - 1;
      MatchesCounted(rows[..n], key, fold);
      HoldingLast(rows[..n], rows[n], key, fold);
      assert rows[..n] + [rows[n]] == rows;
    }
  }

  lemma {:induction false} MatchesHold(rows: seq<Row>, key: string, fold: string -> string, r: Row) returns (i: int)
    requires r in Matches(rows, key, fold)
    ensures i in Holding(rows, key, fold) && rows[i] == r
    decreases |rows|
  {
    var n := |rows| - 1;
    if r in Matches(rows[..n], key, fold) { i := MatchesHold(rows[..n], key, fold, r); } else { i := n; }
  }

  ghost predicate ReusedOf(reply: Reply, rows: seq<Row>, places: set<int>)
    requires forall i :: i in places ==> 0 <= i < |rows|
  {
    exists i :: i in places && reply == if rows[i].usable then Reused(rows[i].id) else Unusable
  }

  /** What a call does with a name of these words: a blank name and a scan that fails are refused; one record of the key is
      reused when its id is of the right form, several are ambiguous, and with none the name is stored with its words one
      blank apart. */
  lemma CallExactly(rows: seq<Row>, nextId: nat, q: Request, fold: string -> string, gaps: seq<string>, words: seq<string>)
    returns (name: string, tight: seq<string>)
    requires Separated(gaps, words) && q.name == Laid(gaps, words)
    ensures |tight| == |words| + 1 && Tight(tight) && name == Laid(tight, words)
    ensures var (after, reply) := FindOrCreate(rows, nextId, q, fold);
      var places := Holding(rows, fold(name), fold);
      if fold(name) == "" then after == rows && reply == EmptyName
      else if !q.lookupOk then after == rows && reply == LookupFailed
      else if |places| > 1 then after == rows && reply == Ambiguous
      else if |places| == 1 then after == rows && ReusedOf(reply, rows, places)
      else
        && after == (if q.outcome == Created || q.outcome == CreatedWithoutId || q.outcome == UnknownWritten
                     then rows + [Row(nextId, name, true)] else rows)
        && reply == (if q.outcome == Created then New(nextId) else if q.outcome == CreatedWithoutId then NewWithoutId
                     else NotCreated)
  {
    tight := CollapseKeepsWords(gaps, words);
    name := Laid(tight, words);
    var key := fold(name);
    MatchesCounted(rows, key, fold);
    if |Matches(rows, key, fold)| == 1 { var _ := MatchesHold(rows, key, fold, Matches(rows, key, fold)[0]); }
  }
}
