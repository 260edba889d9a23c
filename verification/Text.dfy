/** The string operations the runtime uses when it checks, trims and shortens text. */
module Text {

  /** ASCII whitespace, as str.strip removes it. */
  predicate IsSpace(c: char) {
    c == ' ' || '\t' <= c <= '\r' || '\U{1C}' <= c <= '\U{1F}'
  }

  function StripLeft(s: string): (r: string)
    ensures |r| <= |s|
  {
    if s != [] && IsSpace(s[0]) then StripLeft(s[1..]) else s
  }

  /** str.rstrip */
  function StripRight(s: string): (r: string)
    ensures |r| <= |s|
  {
    if s != [] && IsSpace(s[|s| - 1]) then StripRight(s[..|s| - 1]) else s
  }

  /** str.strip */
  function Strip(s: string): (r: string)
    ensures |r| <= |s|
  {
    StripRight(StripLeft(s))
  }

  predicate Blank(s: string) { forall c :: c in s ==> IsSpace(c) }

  /** What is between the first and the last character that is not white space survives stripping. */
  lemma {:induction false} StripKeeps(s: string, p: nat, r: nat) returns (i: nat, j: nat)
    requires p <= r < |s| && !IsSpace(s[p]) && !IsSpace(s[r])
    ensures i <= p && r < j <= |s| && Strip(s) == s[i..j]
  {
    i := StripLeftKeeps(s, p);
    var rest := s[i..];
    j := StripRightKeeps(rest, r - i);
    assert rest[..j] == s[i..i + j];
    j := i + j;
  }

  lemma {:induction false} StripLeftKeeps(s: string, p: nat) returns (i: nat)
    requires p < |s| && !IsSpace(s[p])
    ensures i <= p && StripLeft(s) == s[i..]
  {
    if IsSpace(s[0]) {
      i := StripLeftKeeps(s[1..], p - 1);
      i := i + 1;
    } else {
      i := 0;
    }
  }

  lemma {:induction false} StripRightKeeps(s: string, r: nat) returns (j: nat)
    requires r < |s| && !IsSpace(s[r])
    ensures r < j <= |s| && StripRight(s) == s[..j]
  {
    var n := |s| - 1;
    if IsSpace(s[n]) {
      j := StripRightKeeps(s[..n], r);
      assert s[..n][..j] == s[..j];
    } else {
      j := |s|;
      assert s[..j] == s;
    }
  }

  /** Text that neither begins nor ends in white space, and is not empty. */
  predicate Clean(s: string) { s != "" && !IsSpace(s[0]) && !IsSpace(s[|s| - 1]) }

  lemma CleanStays(s: string)
    requires Clean(s)
    ensures Strip(s) == s
  {
  }

  lemma {:induction false} LeftIsClean(s: string)
    ensures StripLeft(s) == "" || !IsSpace(StripLeft(s)[0])
  {
    if s != [] && IsSpace(s[0]) { LeftIsClean(s[1..]); }
  }

  lemma {:induction false} RightIsClean(s: string)
    requires s != "" && !IsSpace(s[0])
    ensures Clean(StripRight(s))
  {
    if IsSpace(s[|s| - 1]) { RightIsClean(s[..|s| - 1]); }
  }

  /** Stripped text is empty or clean, so stripping twice is stripping once. */
  lemma StripIsClean(s: string)
    ensures Strip(s) == "" || Clean(Strip(s))
    ensures Strip(Strip(s)) == Strip(s)
  {
    LeftIsClean(s);
    if StripLeft(s) != "" {
      RightIsClean(StripLeft(s));
      CleanStays(Strip(s));
    }
  }

  /** White space by its ASCII codes: tab to carriage return, the four separators, and the space. */
  lemma SpaceCodes(c: char)
    ensures IsSpace(c) <==> 9 <= c as int <= 13 || 28 <= c as int <= 32
  {
  }

  /** Blank is what strips to nothing. */
  lemma BlankIsStripped(s: string)
    ensures Blank(s) <==> Strip(s) == ""
  {
    StripRightFits(StripLeft(s), 0);
    LeftKeepsText(s);
    if Strip(s) == "" { assert forall p :: 0 <= p < |StripLeft(s)| ==> IsSpace(StripLeft(s)[p]); }
  }

  lemma {:induction false} LeftKeepsText(s: string)
    ensures Blank(s) <==> StripLeft(s) == ""
    ensures StripLeft(s) != "" ==> !IsSpace(StripLeft(s)[0])
  {
    if s != [] && IsSpace(s[0]) {
      LeftKeepsText(s[1..]);
      assert forall c :: c in s <==> c == s[0] || c in s[1..];
    }
  }

  /** How long a text is once its trailing white space is gone. */
  lemma {:induction false} StripRightFits(s: string, n: nat)
    ensures |StripRight(s)| <= n <==> forall p :: n <= p < |s| ==> IsSpace(s[p])
  {
    if s != [] && IsSpace(s[|s| - 1]) {
      var front := s[..|s| - 1];
      StripRightFits(front, n);
      assert forall p :: 0 <= p < |front| ==> front[p] == s[p];
    } else if s != [] && n < |s| {
      assert !IsSpace(s[|s| - 1]);
    }
  }
}
