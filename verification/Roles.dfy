/** Roles and their rank in floor arbitration: strings.TrimSpace, strings.ToLower and getPriority. */
module Roles {
  predicate IsSpace(c: char) {
    var n := c as int;
    9 <= n <= 13 || n == 0x20 || n == 0x85 || n == 0xA0 || n == 0x1680 || 0x2000 <= n <= 0x200A
    || n == 0x2028 || n == 0x2029 || n == 0x202F || n == 0x205F || n == 0x3000
  }

  function TrimLeft(s: string): (r: string)
    ensures |r| <= |s|
    ensures r != [] ==> !IsSpace(r[0])
  {
    if s != [] && IsSpace(s[0]) then TrimLeft(s[1..]) else s
  }

  function TrimRight(s: string): (r: string)
    ensures |r| <= |s| && (r != [] ==> !IsSpace(r[|r| - 1]))
    ensures r == s[..|r|]
  {
    if s != [] && IsSpace(s[|s| - 1]) then TrimRight(s[..|s| - 1]) else s
  }

  function TrimSpace(s: string): (r: string)
    ensures r != [] ==> !IsSpace(r[0]) && !IsSpace(r[|r| - 1])
  {
    TrimRight(TrimLeft(s))
  }

  /**
   Lower case as far as ASCII results go: besides A-Z, Unicode lowers the dotted capital I and the Kelvin sign to
   ASCII.
   */
  function ToLowerChar(c: char): char {
    if 'A' <= c <= 'Z' then (c as int + 32) as char
    else if c as int == 0x130 then 'i'
    else if c as int == 0x212A then 'k'
    else c
  }

  function ToLower(s: string): (r: string)
    ensures |r| == |s|
    ensures forall i :: 0 <= i < |s| ==> r[i] == ToLowerChar(s[i])
  {
    if s == [] then [] else [ToLowerChar(s[0])] + ToLower(s[1..])
  }

  function Priority(role: string): (rank: nat)
    ensures 1 <= rank <= 3
  {
    var r := ToLower(TrimSpace(role));
    if r in {"commander", "chief", "admin"} then 3
    else if r in {"dispatcher", "supervisor", "operator"} then 2
    else 1
  }

  predicate AllSpace(s: string) {
    forall c <- s :: IsSpace(c)
  }

  /** The two roles differ in upper and lower case only. */
  predicate SameButCase(r: string, s: string) {
    |r| == |s| && forall i :: 0 <= i < |s| ==> ToLowerChar(r[i]) == ToLowerChar(s[i])
  }

  lemma {:induction false} TrimLeftDropsPadding(a: string, s: string)
    requires AllSpace(a)
    ensures TrimLeft(a + s) == TrimLeft(s)
  {
    if a == [] {
      assert a + s == s;
    } else {
      assert (a + s)[1..] == a[1..] + s;
      TrimLeftDropsPadding(a[1..], s);
    }
  }

  lemma {:induction false} TrimRightDropsPadding(s: string, b: string)
    requires AllSpace(b)
    ensures TrimRight(s + b) == TrimRight(s)
  {
    if b == [] {
      assert s + b == s;
    } else {
      assert (s + b)[..|s + b| - 1] == s + b[..|b| - 1];
      TrimRightDropsPadding(s, b[..|b| - 1]);
    }
  }

  /** Trimming the left keeps padding on the right, unless nothing else is there. */
  lemma {:induction false} TrimLeftKeepsTail(s: string, b: string)
    requires AllSpace(b)
    ensures TrimRight(TrimLeft(s + b)) == TrimRight(TrimLeft(s))
  {
    if s == [] {
      assert s + b == b + [];
      TrimLeftDropsPadding(b, []);
    } else if IsSpace(s[0]) {
      assert (s + b)[1..] == s[1..] + b;
      TrimLeftKeepsTail(s[1..], b);
    } else {
      TrimRightDropsPadding(s, b);
    }
  }

  lemma {:induction false} TrimLeftKeepsCase(r: string, s: string)
    requires SameButCase(r, s)
    ensures SameButCase(TrimLeft(r), TrimLeft(s))
  {
    if s != [] {
      assert ToLowerChar(r[0]) == ToLowerChar(s[0]);
      if IsSpace(s[0]) {
        TrimLeftKeepsCase(r[1..], s[1..]);
      }
    }
  }

  lemma {:induction false} TrimRightKeepsCase(r: string, s: string)
    requires SameButCase(r, s)
    ensures SameButCase(TrimRight(r), TrimRight(s))
  {
    if s != [] {
      assert ToLowerChar(r[|r| - 1]) == ToLowerChar(s[|s| - 1]);
      if IsSpace(s[|s| - 1]) {
        TrimRightKeepsCase(r[..|r| - 1], s[..|s| - 1]);
      }
    }
  }

  /** Neither surrounding white space nor case changes a rank. */
  lemma PaddingAndCaseDoNotMatter(a: string, r: string, b: string, s: string)
    requires AllSpace(a) && AllSpace(b) && SameButCase(r, s)
    ensures Priority(a + r + b) == Priority(s)
  {
    TrimLeftDropsPadding(a, r + b);
    assert a + r + b == a + (r + b);
    TrimLeftKeepsTail(r, b);
    TrimLeftKeepsCase(r, s);
    TrimRightKeepsCase(TrimLeft(r), TrimLeft(s));
    assert ToLower(TrimSpace(r)) == ToLower(TrimSpace(s));
  }

  predicate IsLower(s: string) {
    forall i :: 0 <= i < |s| ==> 'a' <= s[i] <= 'z'
  }

  /** Names in small letters are their own trimmed and lowered form. */
  lemma LowerIsFixed(s: string)
    requires IsLower(s)
    ensures ToLower(s) == s && TrimSpace(s) == s
  {
    assert s != [] ==> !IsSpace(s[0]) && !IsSpace(s[|s| - 1]);
    assert forall i :: 0 <= i < |s| ==> ToLowerChar(s[i]) == s[i];
  }

  /** The rank of every role, written in any case and with any white space around it: all but six names rank lowest. */
  lemma Ranks(role: string, a: string, r: string, b: string)
    requires ToLower(role) == role && TrimSpace(role) == role
    requires AllSpace(a) && AllSpace(b) && SameButCase(r, role)
    ensures Priority(a + r + b) ==
            if role in {"commander", "chief", "admin"} then 3
            else if role in {"dispatcher", "supervisor", "operator"} then 2
            else 1
  {
    PaddingAndCaseDoNotMatter(a, r, b, role);
  }

  lemma SixNamesAreLower(name: string)
    requires name in {"commander", "chief", "admin", "dispatcher", "supervisor", "operator"}
    ensures IsLower(name)
  {
  }

  /** The six names that rank higher do so in any case and with any white space around them. */
  lemma HigherRanks(name: string, a: string, r: string, b: string)
    requires name in {"commander", "chief", "admin", "dispatcher", "supervisor", "operator"}
    requires AllSpace(a) && AllSpace(b) && SameButCase(r, name)
    ensures Priority(a + r + b) == if name in {"commander", "chief", "admin"} then 3 else 2
  {
    SixNamesAreLower(name);
    LowerIsFixed(name);
    Ranks(name, a, r, b);
  }
}
