/** Line folding of contact files, as section 5.8.1 of RFC 2425 defines it, and the unfolding that undoes it. */
module VCardFolding {

  predicate Blank(c: char) { c == ' ' || c == '\t' }

  /** A physical line that continues the one before it. */
  predicate Continues(line: string) { |line| > 0 && Blank(line[0]) }

  predicate NewlineChar(c: char) { c == '\n' || c == '\r' }

  predicate OneLine(s: string) { forall i :: 0 <= i < |s| ==> s[i] != '\n' && s[i] != '\r' }

  // ---- reading a text file line by line ----

  /** The lines a text file yields: every line end ("\n", "\r\n" or "\r") becomes a trailing "\n", and a
      last line without a line end is yielded as it is.  `pending` is the part of the line read so far. */
  function RawLines(text: string, pending: string): seq<string>
    decreases |text|
  {
    if text == "" then (if pending == "" then [] else [pending])
    else if text[0] == '\n' then [pending + "\n"] + RawLines(text[1..], "")
    else if text[0] == '\r' then
      [pending + "\n"] + RawLines(if |text| > 1 && text[1] == '\n' then text[2..] else text[1..], "")
    else RawLines(text[1..], pending + [text[0]])
  }

  function TrimNewlines(s: string): (r: string)
    ensures r <= s
    decreases |s|
  {
    if s != "" && NewlineChar(s[|s| - 1]) then TrimNewlines(s[..|s| - 1]) else s
  }

  function Lines(text: string): seq<string> {
    var raw := RawLines(text, "");
    seq(|raw|, i requires 0 <= i < |raw| => TrimNewlines(raw[i]))
  }

  // ---- unfolding ----

  function UnfoldStep(logical: seq<string>, line: string): seq<string> {
    if Continues(line) && |logical| > 0
    then logical[..|logical| - 1] + [logical[|logical| - 1] + line[1..]]
    else logical + [line]
  }

  function UnfoldFrom(logical: seq<string>, lines: seq<string>): seq<string>
    decreases |lines|
  {
    if lines == [] then logical else UnfoldFrom(UnfoldStep(logical, lines[0]), lines[1..])
  }

  function Unfold(text: string): seq<string> { UnfoldFrom([], Lines(text)) }

  method UnfoldVcardLines(text: string) returns (logical: seq<string>)
    ensures logical == Unfold(text)
  {
    var raw := RawLines(text, "");
    logical := [];
    for i := 0 to |raw|
      invariant UnfoldFrom(logical, Lines(text)[i..]) == Unfold(text)
    {
      var line := TrimNewlines(raw[i]);
      assert Lines(text)[i..][0] == line && Lines(text)[i..][1..] == Lines(text)[i + 1..];
      if line != "" && Blank(line[0]) && logical != [] {
        logical := logical[..|logical| - 1] + [logical[|logical| - 1] + line[1..]];
      } else {
        logical := logical + [line];
      }
    }
  }

  // ---- folding: the other direction, chosen freely ----

  /** One logical line as broken by a writer: the first piece, then each continuation with the blank that
      introduces it. */
  datatype Folded = Folded(first: string, more: seq<(char, string)>)

  predicate LegalFold(f: Folded) {
    && OneLine(f.first)
    && forall i :: 0 <= i < |f.more| ==> (f.more[i].0 == ' ' || f.more[i].0 == '\t') && OneLine(f.more[i].1)
  }

  /** The text begins with a space or a tab. */
  predicate StartsBlank(s: string) { s != "" && (s[0] == ' ' || s[0] == '\t') }

  function Chunks(more: seq<(char, string)>): string {
    if more == [] then "" else more[0].1 + Chunks(more[1..])
  }

  function Logical(f: Folded): string { f.first + Chunks(f.more) }

  function Continuations(more: seq<(char, string)>): seq<string> {
    if more == [] then [] else [[more[0].0] + more[0].1] + Continuations(more[1..])
  }

  function Physical(f: Folded): seq<string> { [f.first] + Continuations(f.more) }

  function AllPhysical(fs: seq<Folded>): seq<string> {
    if fs == [] then [] else Physical(fs[0]) + AllPhysical(fs[1..])
  }

  function AllLogical(fs: seq<Folded>): seq<string> {
    seq(|fs|, i requires 0 <= i < |fs| => Logical(fs[i]))
  }

  /** The file: each physical line followed by its own line end, "\n" or "\r\n" as `crlf` says. */
  function FileOf(lines: seq<string>, crlf: seq<bool>): string
    requires |lines| == |crlf|
  {
    if lines == [] then "" else lines[0] + (if crlf[0] then "\r\n" else "\n") + FileOf(lines[1..], crlf[1..])
  }

  // ---- reading the file gives the physical lines back ----

  lemma {:induction false} RawLinesTakesALine(line: string, end: string, rest: string, pending: string)
    requires OneLine(line) && end in {"\n", "\r\n"}
    ensures RawLines(line + end + rest, pending) == [pending + line + "\n"] + RawLines(rest, "")
    decreases |line|
  {
    var text := line + end + rest;
    if line == "" {
      assert text == end + rest;
      assert pending + line == pending;
      if end == "\n" {
        assert text[1..] == rest;
      } else {
        assert text[0] == '\r' && text[1] == '\n' && text[2..] == rest;
      }
    } else {
      assert text[0] == line[0] && text[1..] == line[1..] + end + rest;
      RawLinesTakesALine(line[1..], end, rest, pending + [line[0]]);
      assert pending + [line[0]] + line[1..] == pending + line;
    }
  }

  lemma TrimOneLine(s: string)
    requires OneLine(s)
    ensures TrimNewlines(s + "\n") == s
  {
    assert (s + "\n")[..|s + "\n"| - 1] == s;
    if s != "" { assert !NewlineChar(s[|s| - 1]); }
  }

  lemma {:induction false} FileIsReadBack(lines: seq<string>, crlf: seq<bool>)
    requires |lines| == |crlf| && forall i :: 0 <= i < |lines| ==> OneLine(lines[i])
    ensures Lines(FileOf(lines, crlf)) == lines
    decreases |lines|
  {
    if lines != [] {
      var rest := FileOf(lines[1..], crlf[1..]);
      var end := if crlf[0] then "\r\n" else "\n";
      RawLinesTakesALine(lines[0], end, rest, "");
      TrimOneLine(lines[0]);
      FileIsReadBack(lines[1..], crlf[1..]);
      assert "" + lines[0] + "\n" == lines[0] + "\n";
      var all := Lines(FileOf(lines, crlf));
      assert all[0] == lines[0];
      assert all[1..] == Lines(rest);
    }
  }

  // ---- unfolding one folded line ----

  lemma {:induction false} UnfoldAppend(logical: seq<string>, a: seq<string>, b: seq<string>)
    ensures UnfoldFrom(logical, a + b) == UnfoldFrom(UnfoldFrom(logical, a), b)
    decreases |a|
  {
    if a == [] {
      assert a + b == b;
    } else {
      assert (a + b)[0] == a[0] && (a + b)[1..] == a[1..] + b;
      UnfoldAppend(UnfoldStep(logical, a[0]), a[1..], b);
    }
  }

  lemma {:induction false} ContinuationsAreJoined(done: seq<string>, open: string, more: seq<(char, string)>)
    requires forall i :: 0 <= i < |more| ==> Blank(more[i].0)
    ensures UnfoldFrom(done + [open], Continuations(more)) == done + [open + Chunks(more)]
    decreases |more|
  {
    if more == [] {
      assert open + "" == open;
    } else {
      var line := [more[0].0] + more[0].1;
      assert UnfoldStep(done + [open], line) == done + [open + more[0].1];
      ContinuationsAreJoined(done, open + more[0].1, more[1..]);
      assert open + more[0].1 + Chunks(more[1..]) == open + Chunks(more);
    }
  }

  /** A folded line whose first piece starts a line becomes one more logical line; otherwise it is swallowed by
      the line before it. */
  lemma FoldedLineUnfolds(done: seq<string>, f: Folded)
    requires LegalFold(f)
    ensures !(Continues(f.first) && done != []) ==> UnfoldFrom(done, Physical(f)) == done + [Logical(f)]
    ensures Continues(f.first) && done != [] ==> |UnfoldFrom(done, Physical(f))| == |done|
  {
    assert Physical(f)[0] == f.first && Physical(f)[1..] == Continuations(f.more);
    var next := UnfoldStep(done, f.first);
    assert next == next[..|next| - 1] + [next[|next| - 1]];
    ContinuationsAreJoined(next[..|next| - 1], next[|next| - 1], f.more);
  }

  ghost predicate CleanAfter(done: seq<string>, fs: seq<Folded>) {
    && (forall i :: 0 <= i < |fs| ==> LegalFold(fs[i]))
    && (forall i :: 0 <= i < |fs| ==> (i == 0 && done == []) || !Continues(fs[i].first))
  }

  lemma CleanRest(done: seq<string>, fs: seq<Folded>)
    requires fs != [] && CleanAfter(done, fs)
    ensures CleanAfter(done + [Logical(fs[0])], fs[1..])
    ensures LegalFold(fs[0]) && (Continues(fs[0].first) ==> done == [])
  {
  }

  /** Where no line after the first starts with a blank, every logical line is kept. */
  lemma {:induction false} CleanLinesUnfold(done: seq<string>, fs: seq<Folded>)
    requires CleanAfter(done, fs)
    ensures UnfoldFrom(done, AllPhysical(fs)) == done + AllLogical(fs)
    decreases |fs|
  {
    if fs != [] {
      CleanRest(done, fs);
      FoldedLineUnfolds(done, fs[0]);
      UnfoldAppend(done, Physical(fs[0]), AllPhysical(fs[1..]));
      CleanLinesUnfold(done + [Logical(fs[0])], fs[1..]);
      assert done + [Logical(fs[0])] + AllLogical(fs[1..]) == done + AllLogical(fs);
    }
  }

  /** Unfolding never yields more lines than were folded. */
  lemma {:induction false} UnfoldAtMost(done: seq<string>, fs: seq<Folded>)
    requires forall i :: 0 <= i < |fs| ==> LegalFold(fs[i])
    ensures |UnfoldFrom(done, AllPhysical(fs))| <= |done| + |fs|
    decreases |fs|
  {
    if fs != [] {
      FoldedLineUnfolds(done, fs[0]);
      UnfoldAppend(done, Physical(fs[0]), AllPhysical(fs[1..]));
      UnfoldAtMost(UnfoldFrom(done, Physical(fs[0])), fs[1..]);
    }
  }

  /** Where a line after the first does start with a blank, a line is lost. */
  lemma {:induction false} SwallowedLineIsLost(done: seq<string>, fs: seq<Folded>, i: nat)
    requires forall j :: 0 <= j < |fs| ==> LegalFold(fs[j])
    requires i < |fs| && (i > 0 || done != []) && Continues(fs[i].first)
    ensures |UnfoldFrom(done, AllPhysical(fs))| < |done| + |fs|
    decreases |fs|
  {
    var next := UnfoldFrom(done, Physical(fs[0]));
    FoldedLineUnfolds(done, fs[0]);
    UnfoldAppend(done, Physical(fs[0]), AllPhysical(fs[1..]));
    if i == 0 {
      UnfoldAtMost(next, fs[1..]);
    } else {
      assert next != [];
      SwallowedLineIsLost(next, fs[1..], i - 1);
    }
  }

  lemma {:induction false} PhysicalLinesAreLines(fs: seq<Folded>)
    requires forall i :: 0 <= i < |fs| ==> LegalFold(fs[i])
    ensures forall k :: 0 <= k < |AllPhysical(fs)| ==> OneLine(AllPhysical(fs)[k])
    decreases |fs|
  {
    if fs != [] {
      ContinuationsAreLines(fs[0].more);
      PhysicalLinesAreLines(fs[1..]);
    }
  }

  lemma {:induction false} ContinuationsAreLines(more: seq<(char, string)>)
    requires forall i :: 0 <= i < |more| ==> Blank(more[i].0) && OneLine(more[i].1)
    ensures forall k :: 0 <= k < |Continuations(more)| ==> OneLine(Continuations(more)[k])
    decreases |more|
  {
    if more != [] {
      ContinuationsAreLines(more[1..]);
    }
  }

  lemma {:induction false} RawLineEnds(line: string, end: string, rest: string, pending: string)
    requires OneLine(line) && end in {"\n", "\r\n", "\r"} && (end == "\r" ==> rest == "" || rest[0] != '\n')
    ensures RawLines(line + end + rest, pending) == [pending + line + "\n"] + RawLines(rest, "")
    decreases |line|
  {
    if end != "\r" {
      RawLinesTakesALine(line, end, rest, pending);
    } else if line == "" {
      assert line + end + rest == end + rest && (end + rest)[1..] == rest && pending + line == pending;
    } else {
      assert (line + end + rest)[1..] == line[1..] + end + rest;
      RawLineEnds(line[1..], end, rest, pending + [line[0]]);
      assert pending + [line[0]] + line[1..] == pending + line;
    }
  }

  /** A line ends at a line feed, at a carriage return with one, or at one without, and comes without its end. */
  lemma LineEndsAreRead(line: string, end: string, rest: string)
    requires OneLine(line) && end in {"\n", "\r\n", "\r"} && (end == "\r" ==> rest == "" || rest[0] != '\n')
    ensures Lines(line + end + rest) == [line] + Lines(rest)
  {
    RawLineEnds(line, end, rest, "");
    assert "" + line == line;
    TrimOneLine(line);
    FirstTrimmed(line + end + rest, line + "\n", rest);
  }

  lemma FirstTrimmed(text: string, first: string, rest: string)
    requires RawLines(text, "") == [first] + RawLines(rest, "")
    ensures Lines(text) == [TrimNewlines(first)] + Lines(rest)
  {
  }

  /** Unfolding undoes every legal folding: for any logical lines, broken anywhere and any number of times, with
      either line end after each physical line, the file unfolds to the logical lines again exactly when no
      physical first piece after the very first starts with a blank. */
  lemma UnfoldUndoesFolding(fs: seq<Folded>, crlf: seq<bool>)
    requires forall i :: 0 <= i < |fs| ==> LegalFold(fs[i])
    requires |crlf| == |AllPhysical(fs)|
    ensures Unfold(FileOf(AllPhysical(fs), crlf)) == AllLogical(fs)
       <==> forall i :: 1 <= i < |fs| ==> !StartsBlank(fs[i].first)
  {
    PhysicalLinesAreLines(fs);
    FileIsReadBack(AllPhysical(fs), crlf);
    assert [] + AllLogical(fs) == AllLogical(fs);
    assert forall i :: 1 <= i < |fs| ==> (StartsBlank(fs[i].first) <==> Continues(fs[i].first));
    if i :| 1 <= i < |fs| && Continues(fs[i].first) {
      SwallowedLineIsLost([], fs, i);
    } else {
      CleanLinesUnfold([], fs);
    }
  }

  /** In particular for logical lines none of which starts with a blank. */
  lemma LogicalLinesSurvive(fs: seq<Folded>, crlf: seq<bool>)
    requires forall i :: 0 <= i < |fs| ==> LegalFold(fs[i]) && !StartsBlank(Logical(fs[i]))
    requires |crlf| == |AllPhysical(fs)|
    ensures Unfold(FileOf(AllPhysical(fs), crlf)) == AllLogical(fs)
  {
    forall i | 1 <= i < |fs| ensures !StartsBlank(fs[i].first) {
      if fs[i].first != "" { assert Logical(fs[i])[0] == fs[i].first[0]; }
    }
    UnfoldUndoesFolding(fs, crlf);
  }
}
