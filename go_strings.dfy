/** The few functions of Go's `strings` package that the model relies on.
    `Trim` takes a CUTSET: it strips every leading and trailing character
    that occurs anywhere in the cutset, not the cutset as a prefix. */
module GoStrings {

  predicate HasPrefix(s: string, prefix: string) {
    |prefix| <= |s| && s[..|prefix|] == prefix
  }

  /** `strings.TrimPrefix`: `s` without `prefix` when it starts with it, else `s`. */
  function TrimPrefix(s: string, prefix: string): (r: string)
    ensures HasPrefix(s, prefix) ==> prefix + r == s
    ensures !HasPrefix(s, prefix) ==> r == s
  {
    if HasPrefix(s, prefix) then s[|prefix|..] else s
  }

  /** `strings.TrimLeft`: drops the longest prefix made of cutset characters. */
  function TrimLeft(s: string, cutset: string): (r: string)
    ensures |r| <= |s| && r == s[|s| - |r|..]
    ensures forall i :: 0 <= i < |s| - |r| ==> s[i] in cutset
    ensures r != [] ==> r[0] !in cutset
  {
    if s != [] && s[0] in cutset then TrimLeft(s[1..], cutset) else s
  }

  /** `strings.TrimRight`: drops the longest suffix made of cutset characters. */
  function TrimRight(s: string, cutset: string): (r: string)
    ensures |r| <= |s| && r == s[..|r|]
    ensures forall i :: |r| <= i < |s| ==> s[i] in cutset
    ensures r != [] ==> r[|r| - 1] !in cutset
  {
    if s != [] && s[|s| - 1] in cutset then TrimRight(s[..|s| - 1], cutset) else s
  }

  /** `r` is `s[a..]` cut to length `|r|`, and everything of `s` outside it
      is made of cutset characters. */
  predicate InfixWithin(s: string, cutset: string, a: nat, r: string) {
    a + |r| <= |s| && r == s[a..a + |r|]
    && (forall i :: 0 <= i < a ==> s[i] in cutset)
    && (forall i :: a + |r| <= i < |s| ==> s[i] in cutset)
  }

  /** `strings.Trim`: the infix of `s` left after both ends lose every
      character that belongs to `cutset`. The two clauses below determine
      the result uniquely. */
  function Trim(s: string, cutset: string): (r: string)
    ensures exists a: nat :: InfixWithin(s, cutset, a, r)
    ensures r != [] ==> r[0] !in cutset && r[|r| - 1] !in cutset
  {
    var left := TrimLeft(s, cutset);
    var r := TrimRight(left, cutset);
    var a := |s| - |left|;
    assert InfixWithin(s, cutset, a, r);
    r
  }

  /** `TrimLeft` removes exactly a leading run of cutset characters that is
      followed by a character outside the cutset (or by nothing). */
  lemma {:induction false} TrimLeftOf(p: string, x: string, cutset: string)
    requires forall i :: 0 <= i < |p| ==> p[i] in cutset
    requires x == [] || x[0] !in cutset
    ensures TrimLeft(p + x, cutset) == x
  {
    if p != [] {
      assert (p + x)[1..] == p[1..] + x;
      TrimLeftOf(p[1..], x, cutset);
    }
  }
}
