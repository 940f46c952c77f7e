/** The text an insight leaves in the records made from it.  The marker on its last line is the only key the link
    saga has, so it must identify the insight whatever free text stands above it. */
module InsightContent {
  import opened Texts

  datatype InsightView = InsightView(recordId: string, title: string, description: string, nextAction: string)

  const SOURCE_LABEL := "מקור: תובנה פנימית (Learnings & Insights) — לא אומת מול מקור חיצוני"

  /** What the id pattern accepts: its `$` also matches before one final newline. */
  predicate AcceptedId(s: string) {
    RecordId(s) || (s != "" && s[|s| - 1] == '\n' && RecordId(s[..|s| - 1]))
  }

  function Marker(id: string): string { "[insight:" + id + "]" }

  function Body(v: InsightView): string {
    "תובנה: " + v.title
    + (if v.description != "" then "\n" + v.description else "")
    + (if v.nextAction != "" then "\nפעולה הבאה (מהתובנה): " + v.nextAction else "")
    + "\n" + SOURCE_LABEL
  }

  /** The raw content of the Inbox record and of the Event. */
  function Compose(v: InsightView): string { Body(v) + "\n" + Marker(v.recordId) }

  // ---- the last line ----

  predicate LineBreak(c: char) {
    var n := c as int;
    0x0A <= n <= 0x0D || 0x1C <= n <= 0x1E || n == 0x85 || n == 0x2028 || n == 0x2029
  }

  /** The lines of a text; blank ones between two breaks do no harm, they are dropped below. */
  function LinesFrom(s: string, open: string): seq<string>
    decreases |s|
  {
    if s == "" then [open]
    else if LineBreak(s[0]) then [open] + LinesFrom(s[1..], "")
    else LinesFrom(s[1..], open + [s[0]])
  }

  function NonBlank(lines: seq<string>): seq<string> {
    if lines == [] then []
    else (if Strip(lines[0]) == "" then [] else [Strip(lines[0])]) + NonBlank(lines[1..])
  }

  predicate LastLineIs(text: string, marker: string) {
    var lines := NonBlank(LinesFrom(text, ""));
    lines != [] && lines[|lines| - 1] == marker
  }

  /** A text belongs to an insight when its last non-blank line is that insight's marker. */
  predicate Marked(text: string, id: string) { LastLineIs(text, Marker(id)) }

  lemma {:induction false} LinesAtBreak(a: string, b: string, open: string)
    ensures LinesFrom(a + "\n" + b, open) == LinesFrom(a, open) + LinesFrom(b, "")
    decreases |a|
  {
    var s := a + "\n" + b;
    if a == "" {
      assert s[1..] == b;
    } else {
      assert s[1..] == a[1..] + "\n" + b;
      LinesAtBreak(a[1..], b, if LineBreak(a[0]) then "" else open + [a[0]]);
    }
  }

  lemma {:induction false} NoBreakOneLine(s: string, open: string)
    requires forall i :: 0 <= i < |s| ==> !LineBreak(s[i])
    ensures LinesFrom(s, open) == [open + s]
    decreases |s|
  {
    if s == "" {
      assert open + s == open;
    } else {
      NoBreakOneLine(s[1..], open + [s[0]]);
      assert open + [s[0]] + s[1..] == open + s;
    }
  }

  lemma {:induction false} NonBlankAppend(a: seq<string>, line: string)
    ensures NonBlank(a + [line]) == NonBlank(a) + (if Strip(line) == "" then [] else [Strip(line)])
    decreases |a|
  {
    if a == [] {
      assert a + [line] == [line];
    } else {
      assert (a + [line])[1..] == a[1..] + [line];
      NonBlankAppend(a[1..], line);
    }
  }

  /** The last line of `above` followed by a break and one unbroken, stripped line is that line. */
  lemma LastLineAfterBreak(above: string, line: string, marker: string)
    requires line != "" && Stripped(line) && forall i :: 0 <= i < |line| ==> !LineBreak(line[i])
    ensures LastLineIs(above + "\n" + line, marker) <==> line == marker
  {
    LinesAtBreak(above, line, "");
    NoBreakOneLine(line, "");
    assert "" + line == line;
    NonBlankAppend(LinesFrom(above, ""), line);
    StripFixesExactlyStripped(line);
  }

  lemma MarkerIsOneLine(id: string)
    requires RecordId(id)
    ensures Stripped(Marker(id)) && forall i :: 0 <= i < |Marker(id)| ==> !LineBreak(Marker(id)[i])
  {
    var m := Marker(id);
    assert m[0] == '[' && m[|m| - 1] == ']';
    forall i | 0 <= i < |m| ensures !LineBreak(m[i]) {
      if 9 <= i < |m| - 1 {
        assert m[i] == id[i - 9];
        if i - 9 < 3 { assert id[i - 9] == id[..3][i - 9]; }
      }
    }
  }

  lemma MarkerInjective(a: string, b: string)
    requires Marker(a) == Marker(b)
    ensures a == b
  {
    assert |a| == |b|;
    assert a == Marker(a)[9..|Marker(a)| - 1] && b == Marker(b)[9..|Marker(b)| - 1];
  }

  /** Composed content belongs to exactly one insight, its own, for every free text in it, even a text that quotes
      another insight's marker on a line of its own; and it does so exactly when the id is a record id.  An id with a
      final newline, which the pattern lets through, composes content that no insight recognises. */
  lemma ComposedContentIsMarkedExactly(v: InsightView, other: string)
    requires AcceptedId(v.recordId) && AcceptedId(other)
    ensures Marked(Compose(v), other) <==> other == v.recordId && RecordId(v.recordId)
  {
    if RecordId(v.recordId) {
      MarkerIsOneLine(v.recordId);
      LastLineAfterBreak(Body(v), Marker(v.recordId), Marker(other));
      if Marker(v.recordId) == Marker(other) { MarkerInjective(v.recordId, other); }
    } else {
      var id := v.recordId[..|v.recordId| - 1];
      var above := Body(v) + "\n" + "[insight:" + id;
      assert v.recordId == id + "\n";
      assert Compose(v) == above + "\n" + "]";
      LastLineAfterBreak(above, "]", Marker(other));
      assert |Marker(other)| > 1;
    }
  }

  /** The form the saga uses: what it composes, it finds. */
  lemma ComposedContentIsFound(v: InsightView)
    requires RecordId(v.recordId)
    ensures Marked(Compose(v), v.recordId)
  {
    ComposedContentIsMarkedExactly(v, v.recordId);
  }

  /** An id with a final newline: the pattern lets it through, and no search finds what is composed for it. */
  lemma NewlineIdIsLost() returns (v: InsightView)
    ensures AcceptedId(v.recordId)
    ensures forall other :: AcceptedId(other) ==> !Marked(Compose(v), other)
  {
    var id := "rec" + seq(14, i => 'a');
    assert id[..3] == "rec";
    v := InsightView(id + "\n", "", "", "");
    assert v.recordId[..|v.recordId| - 1] == id;
    forall other | AcceptedId(other) ensures !Marked(Compose(v), other) { ComposedContentIsMarkedExactly(v, other); }
  }
}
