/** `String.prototype.trim` and the required-string rule of tool results. */
module Texts {
  /** White space and line terminators (sections 12.2 and 12.3 of ECMA-262). */
  predicate IsSpace(c: char) {
    c in "\t\n\r \U{B}\U{C}\U{A0}\U{1680}\U{2028}\U{2029}\U{202F}\U{205F}\U{3000}\U{FEFF}"
    || '\U{2000}' <= c <= '\U{200A}'
  }

  function TrimStart(s: string): string {
    if s != "" && IsSpace(s[0]) then TrimStart(s[1..]) else s
  }

  function TrimEnd(s: string): string {
    if s != "" && IsSpace(s[|s| - 1]) then TrimEnd(s[..|s| - 1]) else s
  }

  function Trim(s: string): string {
    TrimEnd(TrimStart(s))
  }

  lemma {:induction false} TrimStartLeavesNoSpace(s: string)
    ensures TrimStart(s) == "" || !IsSpace(TrimStart(s)[0])
  {
    if s != "" && IsSpace(s[0]) {
      TrimStartLeavesNoSpace(s[1..]);
    }
  }

  lemma {:induction false} TrimEndLeavesNoSpace(s: string)
    ensures TrimEnd(s) == "" || !IsSpace(TrimEnd(s)[|TrimEnd(s)| - 1])
    ensures TrimEnd(s) <= s
  {
    if s != "" && IsSpace(s[|s| - 1]) {
      TrimEndLeavesNoSpace(s[..|s| - 1]);
    }
  }

  lemma TrimIsIdempotent(s: string)
    ensures Trim(Trim(s)) == Trim(s)
  {
    var t := TrimStart(s);
    TrimStartLeavesNoSpace(s);
    TrimEndLeavesNoSpace(t);
    var u := TrimEnd(t);
    assert u == "" || u[0] == t[0];
  }

  lemma {:induction false} TrimsAreShorter(s: string)
    ensures |TrimStart(s)| <= |s| && |TrimEnd(s)| <= |s|
    ensures TrimStart(s) == s <==> s == "" || !IsSpace(s[0])
    ensures TrimEnd(s) == s <==> s == "" || !IsSpace(s[|s| - 1])
  {
    if s != "" {
      TrimsAreShorter(s[1..]);
      TrimsAreShorter(s[..|s| - 1]);
      assert |s[1..]| < |s| && |s[..|s| - 1]| < |s|;
    }
  }

  /** A string is trimmed exactly if it neither begins nor ends with a space. */
  lemma TrimmedIff(s: string)
    ensures Trim(s) == s <==> s == "" || (!IsSpace(s[0]) && !IsSpace(s[|s| - 1]))
  {
    TrimsAreShorter(s);
    TrimsAreShorter(TrimStart(s));
    hide TrimStart, TrimEnd, IsSpace;
    assert Trim(s) == s ==> |TrimStart(s)| == |s|;
    if |TrimStart(s)| == |s| {
      SameLengthIsSame(s);
    }
  }

  lemma {:induction false} SameLengthIsSame(s: string)
    requires |TrimStart(s)| == |s|
    ensures TrimStart(s) == s
  {
    if s != "" {
      TrimsAreShorter(s[1..]);
    }
  }

  /** Two trimmed strings that are not empty stay trimmed when anything is put between them. */
  lemma JoinOfTrimmed(s: string, between: string, t: string)
    requires s != "" && t != "" && Trim(s) == s && Trim(t) == t
    ensures Trim(s + between + t) == s + between + t
  {
    TrimmedIff(s);
    TrimmedIff(t);
    TrimmedIff(s + between + t);
    hide IsSpace, Trim;
  }

  /** The code points that trimming takes away. */
  lemma SpacesAre(c: char)
    ensures IsSpace(c) <==>
      || 9 <= c as int <= 13 || c as int == 32 || c as int == 160 || c as int == 5760 || 8192 <= c as int <= 8202
      || c as int == 8232 || c as int == 8233 || c as int == 8239 || c as int == 8287 || c as int == 12288
      || c as int == 65279
  {
  }

  lemma {:induction false} StartIsCut(s: string) returns (a: string)
    ensures s == a + TrimStart(s) && forall i :: 0 <= i < |a| ==> IsSpace(a[i])
  {
    hide IsSpace;
    a := "";
    if s != "" && IsSpace(s[0]) {
      var rest := StartIsCut(s[1..]);
      a := [s[0]] + rest;
      assert s == [s[0]] + s[1..];
    }
  }

  lemma {:induction false} EndIsCut(s: string) returns (b: string)
    ensures s == TrimEnd(s) + b && forall i :: 0 <= i < |b| ==> IsSpace(b[i])
  {
    hide IsSpace;
    b := "";
    if s != "" && IsSpace(s[|s| - 1]) {
      var init := EndIsCut(s[..|s| - 1]);
      b := init + [s[|s| - 1]];
      assert s == s[..|s| - 1] + [s[|s| - 1]];
    }
  }

  /** Trimming takes away spaces at both ends, and nothing else. */
  lemma OnlySpacesAreCut(s: string) returns (a: string, b: string)
    ensures s == a + Trim(s) + b
    ensures (forall i :: 0 <= i < |a| ==> IsSpace(a[i])) && (forall i :: 0 <= i < |b| ==> IsSpace(b[i]))
  {
    a := StartIsCut(s);
    b := EndIsCut(TrimStart(s));
    hide IsSpace;
  }
}
