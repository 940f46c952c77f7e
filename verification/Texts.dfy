/** The text operations several components share: blanks and stripping, digits and letters, record ids. */
module Texts {
  predicate IsDigit(c: char) { '0' <= c <= '9' }

  predicate AllDigits(s: string) { forall i :: 0 <= i < |s| ==> IsDigit(s[i]) }

  predicate AlphaNumeric(c: char) { IsDigit(c) || 'A' <= c <= 'Z' || 'a' <= c <= 'z' }

  /** A record id as the completion engine reads it: "rec" and one or more letters or digits. */
  predicate LooseRecordId(s: string) { |s| > 3 && s[..3] == "rec" && forall i :: 3 <= i < |s| ==> AlphaNumeric(s[i]) }

  /** A record id as the writers and the saga read it: "rec" and fourteen letters or digits. */
  predicate RecordId(s: string) { LooseRecordId(s) && |s| == 17 }

  /** The characters a text is stripped of and split at. */
  predicate White(c: char) {
    var n := c as int;
    || 0x09 <= n <= 0x0D || 0x1C <= n <= 0x20 || n == 0x85 || n == 0xA0 || n == 0x1680
    || 0x2000 <= n <= 0x200A || n == 0x2028 || n == 0x2029 || n == 0x202F || n == 0x205F || n == 0x3000
  }

  function StripLeft(s: string): (r: string)
    ensures |r| <= |s|
    ensures r == "" || !White(r[0])
    ensures s == "" || !White(s[0]) ==> r == s
  {
    if s == "" || !White(s[0]) then s else StripLeft(s[1..])
  }

  function StripRight(s: string): (r: string)
    ensures |r| <= |s|
    ensures r == "" || !White(r[|r| - 1])
    ensures r <= s
    ensures s == "" || !White(s[|s| - 1]) ==> r == s
  {
    if s == "" || !White(s[|s| - 1]) then s else StripRight(s[..|s| - 1])
  }

  /** The text without leading and trailing blanks. */
  function Strip(s: string): (r: string)
    ensures |r| <= |s|
  {
    StripRight(StripLeft(s))
  }

  predicate Stripped(s: string) {
    s == "" || (!White(s[0]) && !White(s[|s| - 1]))
  }

  /** Stripping yields a stripped text, and leaves exactly the stripped texts alone. */
  lemma StripFixesExactlyStripped(s: string)
    ensures Stripped(Strip(s))
    ensures Strip(s) == s <==> Stripped(s)
  {
    var left := StripLeft(s);
    assert StripRight(left) <= left;
    if Stripped(s) {
      assert left == s;
    }
  }

  lemma {:induction false} StripLeftDropsWhite(s: string)
    ensures var n := |s| - |StripLeft(s)|;
      StripLeft(s) == s[n..] && forall k :: 0 <= k < n ==> White(s[k])
    decreases |s|
  {
    if s != "" && White(s[0]) {
      StripLeftDropsWhite(s[1..]);
      var n := |s| - |StripLeft(s)|;
      forall k | 0 <= k < n ensures White(s[k]) {
        if k > 0 { assert s[k] == s[1..][k - 1]; }
      }
    }
  }

  lemma {:induction false} StripRightDropsWhite(s: string)
    ensures forall k :: |StripRight(s)| <= k < |s| ==> White(s[k])
    decreases |s|
  {
    if s != "" && White(s[|s| - 1]) {
      StripRightDropsWhite(s[..|s| - 1]);
      forall k | |StripRight(s)| <= k < |s| ensures White(s[k]) {
        if k < |s| - 1 { assert s[k] == s[..|s| - 1][k]; }
      }
    }
  }

  /** Stripping cuts a text out of the blanks around it: nothing else goes, and nothing more can. */
  lemma StripCutsBlanks(s: string) returns (i: nat, j: nat)
    ensures i <= j <= |s| && Strip(s) == s[i..j]
    ensures forall k :: 0 <= k < |s| && !(i <= k < j) ==> White(s[k])
    ensures i < j ==> !White(s[i]) && !White(s[j - 1])
    ensures Strip(s) == "" <==> forall k :: 0 <= k < |s| ==> White(s[k])
  {
    StripLeftDropsWhite(s);
    var left := StripLeft(s);
    StripRightDropsWhite(left);
    i := |s| - |left|;
    j := i + |Strip(s)|;
    assert Strip(s) <= left;
    forall k | 0 <= k < |s| && !(i <= k < j) ensures White(s[k]) {
      if k >= j { assert s[k] == left[k - i]; }
    }
    if i < j {
      StripFixesExactlyStripped(s);
      assert s[i] == Strip(s)[0] && s[j - 1] == Strip(s)[|Strip(s)| - 1];
    }
  }
}
