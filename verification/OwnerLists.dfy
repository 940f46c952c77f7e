/** Owner lists: the ", "-separated text a merged contact carries, and the set of owners it stands for. */
module OwnerLists {

  /** Splitting at every ", ", leftmost first; `open` is the part read so far. */
  function SplitFrom(s: string, open: string): seq<string>
    decreases |s|
  {
    if s == "" then [open]
    else if |s| >= 2 && s[0] == ',' && s[1] == ' ' then [open] + SplitFrom(s[2..], "")
    else SplitFrom(s[1..], open + [s[0]])
  }

  function Split(s: string): seq<string> { SplitFrom(s, "") }

  function Join(parts: seq<string>): string {
    if parts == [] then "" else if |parts| == 1 then parts[0] else parts[0] + ", " + Join(parts[1..])
  }

  function StrLess(a: string, b: string): bool {
    if a == "" then b != ""
    else if b == "" then false
    else if a[0] == b[0] then StrLess(a[1..], b[1..])
    else a[0] < b[0]
  }

  function Insert(x: string, sorted: seq<string>): (r: seq<string>)
    ensures forall y :: y in r <==> y == x || y in sorted
  {
    if sorted == [] then [x]
    else if x == sorted[0] then sorted
    else if StrLess(x, sorted[0]) then [x] + sorted
    else [sorted[0]] + Insert(x, sorted[1..])
  }

  /** The distinct non-empty parts, in order: `sorted(set(...))` after the empty one is discarded. */
  function SortedDistinct(parts: seq<string>): (r: seq<string>)
    ensures forall y :: y in r <==> y in parts && y != ""
  {
    if parts == [] then []
    else if parts[0] == "" then SortedDistinct(parts[1..])
    else Insert(parts[0], SortedDistinct(parts[1..]))
  }

  /** The list after one more source joins it. */
  function AddOwner(existing: string, added: string): string {
    Join(SortedDistinct(Split(existing) + [added]))
  }

  /** The owners a list stands for. */
  ghost function Owners(s: string): set<string> {
    (set p | p in Split(s)) - {""}
  }

  ghost function OwnersOfAll(parts: seq<string>): set<string> {
    if parts == [] then {} else Owners(parts[0]) + OwnersOfAll(parts[1..])
  }

  /** The separator can never be mistaken: splitting a joined text splits its two halves, whatever they contain. */
  lemma {:induction false} SplitAtSeparator(a: string, b: string, open: string)
    ensures SplitFrom(a + ", " + b, open) == SplitFrom(a, open) + SplitFrom(b, "")
    decreases |a|
  {
    var s := a + ", " + b;
    if a == "" {
      assert s[2..] == b;
    } else if |a| >= 2 && a[0] == ',' && a[1] == ' ' {
      assert s[2..] == a[2..] + ", " + b;
      SplitAtSeparator(a[2..], b, "");
    } else {
      assert s[1..] == a[1..] + ", " + b;
      assert s[0] == a[0] && (|a| == 1 ==> s[1] == ',');
      SplitAtSeparator(a[1..], b, open + [a[0]]);
    }
  }

  lemma {:induction false} JoinedOwners(parts: seq<string>)
    requires parts != []
    ensures Owners(Join(parts)) == OwnersOfAll(parts)
    decreases |parts|
  {
    if |parts| > 1 {
      SplitAtSeparator(parts[0], Join(parts[1..]), "");
      JoinedOwners(parts[1..]);
    }
  }

  lemma {:induction false} OwnersOfAllMember(parts: seq<string>, o: string)
    ensures o in OwnersOfAll(parts) <==> exists p :: p in parts && o in Owners(p)
    decreases |parts|
  {
    if parts != [] {
      OwnersOfAllMember(parts[1..], o);
    }
  }

  predicate NoSeparator(s: string) {
    forall i :: 0 <= i < |s| - 1 ==> !(s[i] == ',' && s[i + 1] == ' ')
  }

  lemma {:induction false} UnsplitText(s: string, open: string)
    requires NoSeparator(s)
    ensures SplitFrom(s, open) == [open + s]
    decreases |s|
  {
    if s == "" {
      assert open + s == open;
    } else {
      assert |s| >= 2 ==> !(s[0] == ',' && s[1] == ' ');
      UnsplitText(s[1..], open + [s[0]]);
      assert open + [s[0]] + s[1..] == open + s;
    }
  }

  lemma {:induction false} PieceHasNoSeparator(s: string, open: string, p: string)
    requires p in SplitFrom(s, open)
    requires NoSeparator(open) && !(open != "" && s != "" && open[|open| - 1] == ',' && s[0] == ' ')
    ensures NoSeparator(p)
    decreases |s|
  {
    if s == "" {
    } else if |s| >= 2 && s[0] == ',' && s[1] == ' ' {
      if p != open { PieceHasNoSeparator(s[2..], "", p); }
    } else {
      PieceHasNoSeparator(s[1..], open + [s[0]], p);
    }
  }

  lemma PieceIsItsOwnSplit(s: string, p: string)
    requires p in Split(s)
    ensures Split(p) == [p]
  {
    PieceHasNoSeparator(s, "", p);
    UnsplitText(p, "");
    assert "" + p == p;
  }

  /** Adding a source gives exactly the owners of both texts: none is lost, split wrongly or invented. */
  lemma AddOwnerIsUnion(existing: string, added: string)
    ensures Owners(AddOwner(existing, added)) == Owners(existing) + Owners(added)
  {
    var parts := Split(existing) + [added];
    var kept := SortedDistinct(parts);
    assert Owners("") == {};
    if kept != [] { JoinedOwners(kept); }
    forall o
      ensures o in Owners(AddOwner(existing, added)) <==> o in Owners(existing) + Owners(added)
    {
      OwnersOfAllMember(kept, o);
      if o in Owners(existing) {
        PieceIsItsOwnSplit(existing, o);
        assert o in kept && o in Owners(o);
      }
      if o in Owners(added) {
        assert added in parts && added != "";
        assert added in kept;
      }
      if p :| p in kept && o in Owners(p) {
        if p != added {
          PieceIsItsOwnSplit(existing, p);
          assert o == p;
        }
      }
    }
  }

  // ---- the text itself ----

  /** The first text comes before the second by the first character in which they differ; a text before its extensions. */
  ghost predicate Precedes(a: string, b: string) {
    exists n: nat :: n <= |a| && n <= |b| && a[..n] == b[..n] && n < |b| && (n == |a| || a[n] < b[n])
  }

  lemma {:induction false} LessPrecedes(a: string, b: string)
    requires StrLess(a, b)
    ensures Precedes(a, b)
    decreases |a|
  {
    if a == "" || a[0] != b[0] {
      assert a[..0] == b[..0];
    } else {
      LessPrecedes(a[1..], b[1..]);
      var n: nat :| n <= |a[1..]| && n <= |b[1..]| && a[1..][..n] == b[1..][..n]
        && n < |b[1..]| && (n == |a[1..]| || a[1..][n] < b[1..][n]);
      assert a[..n + 1] == [a[0]] + a[1..][..n] && b[..n + 1] == [b[0]] + b[1..][..n];
    }
  }

  lemma {:induction false} LessTotal(a: string, b: string)
    requires a != b && !StrLess(a, b)
    ensures StrLess(b, a)
    decreases |a|
  {
    if a != "" && b != "" && a[0] == b[0] {
      assert a == [a[0]] + a[1..] && b == [b[0]] + b[1..];
      LessTotal(a[1..], b[1..]);
    }
  }

  lemma {:induction false} LessOn(a: string, b: string, c: string)
    requires StrLess(a, b) && StrLess(b, c)
    ensures StrLess(a, c)
    decreases |a|
  {
    if a != "" && a[0] == b[0] && b[0] == c[0] { LessOn(a[1..], b[1..], c[1..]); }
  }

  ghost predicate Ascending(parts: seq<string>) { forall i, j :: 0 <= i < j < |parts| ==> StrLess(parts[i], parts[j]) }

  lemma {:induction false} InsertAscends(x: string, sorted: seq<string>)
    requires Ascending(sorted)
    ensures Ascending(Insert(x, sorted))
    decreases |sorted|
  {
    if sorted != [] && x != sorted[0] {
      if StrLess(x, sorted[0]) {
        forall j | 0 <= j < |sorted| ensures StrLess(x, sorted[j]) {
          if j > 0 { LessOn(x, sorted[0], sorted[j]); }
        }
      } else {
        LessTotal(x, sorted[0]);
        InsertAscends(x, sorted[1..]);
        var rest := Insert(x, sorted[1..]);
        forall j | 0 <= j < |rest| ensures StrLess(sorted[0], rest[j]) {
          assert rest[j] in rest;
          if rest[j] != x {
            var k :| 0 <= k < |sorted[1..]| && sorted[1..][k] == rest[j];
            assert sorted[k + 1] == rest[j];
          }
        }
      }
    }
  }

  lemma {:induction false} SortedAscends(parts: seq<string>)
    ensures Ascending(SortedDistinct(parts))
    decreases |parts|
  {
    if parts != [] {
      SortedAscends(parts[1..]);
      if parts[0] != "" { InsertAscends(parts[0], SortedDistinct(parts[1..])); }
    }
  }

  /** The parts with a comma and a blank between any two. */
  function Listed(parts: seq<string>): string {
    if parts == [] then "" else if |parts| == 1 then parts[0] else Listed(parts[..|parts| - 1]) + ", " + parts[|parts| - 1]
  }

  lemma {:induction false} JoinIsListed(parts: seq<string>)
    ensures Join(parts) == Listed(parts)
    decreases |parts|
  {
    if |parts| > 1 {
      var n := |parts| - 1;
      JoinIsListed(parts[1..]);
      JoinIsListed(parts[..n]);
      if n > 1 {
        assert parts[1..][..n - 1] == parts[..n][1..];
        JoinIsListed(parts[..n][1..]);
        assert Listed(parts[1..]) == Listed(parts[1..][..n - 1]) + ", " + parts[n];
        var middle := Join(parts[..n][1..]);
        assert parts[0] + ", " + (middle + ", " + parts[n]) == (parts[0] + ", " + middle) + ", " + parts[n];
      }
    }
  }

  /** The pieces of a text: it is they with a comma and a blank between any two, and none has such a pair in it. */
  lemma {:induction false} PiecesListed(s: string, open: string)
    ensures SplitFrom(s, open) != [] && Join(SplitFrom(s, open)) == open + s
    decreases |s|
  {
    if s == "" {
      assert open + s == open;
    } else if |s| >= 2 && s[0] == ',' && s[1] == ' ' {
      PiecesListed(s[2..], "");
      var rest := SplitFrom(s[2..], "");
      assert ([open] + rest)[1..] == rest;
      assert s == ", " + s[2..] && "" + s[2..] == s[2..];
      assert open + ", " + s[2..] == open + s;
    } else {
      PiecesListed(s[1..], open + [s[0]]);
      assert open + [s[0]] + s[1..] == open + s;
    }
  }

  /** The text after a source is added: the distinct pieces of the list before and the source, but for empty ones, in
      ascending order with a comma and a blank between any two.  The pieces are what such separators cut the text into. */
  lemma AddOwnerText(existing: string, added: string) returns (pieces: seq<string>, parts: seq<string>)
    ensures existing == Listed(pieces) && pieces != [] && forall p :: p in pieces ==> NoSeparator(p)
    ensures AddOwner(existing, added) == Listed(parts)
    ensures forall p :: p in parts <==> p != "" && (p in pieces || p == added)
    ensures forall i, j :: 0 <= i < j < |parts| ==> Precedes(parts[i], parts[j])
  {
    pieces := Split(existing);
    parts := SortedDistinct(pieces + [added]);
    PiecesListed(existing, "");
    assert "" + existing == existing;
    JoinIsListed(pieces);
    forall p | p in pieces ensures NoSeparator(p) { PieceHasNoSeparator(existing, "", p); }
    JoinIsListed(parts);
    SortedAscends(pieces + [added]);
    forall i, j | 0 <= i < j < |parts| ensures Precedes(parts[i], parts[j]) { LessPrecedes(parts[i], parts[j]); }
  }
}
