/** Facts about sets, sequences and strings that several components use. */
module Basics {

  /** The indices below `n`. */
  function UpTo(n: nat): (r: set<nat>)
    ensures |r| == n && forall i: nat :: i in r <==> i < n
  {
    if n == 0 then {} else UpTo(n - 1) + {n - 1}
  }

  lemma SubsetSize<T>(a: set<T>, b: set<T>)
    requires a <= b
    ensures |a| <= |b|
    ensures |a| == |b| <==> a == b
  {
    assert b == a + (b - a);
    assert |b| == |a| + |b - a|;
    if |a| == |b| { assert b - a == {}; }
  }

  function Elems<T>(s: seq<T>): set<T> {
    set x | x in s
  }

  /** The elements of a sequence of sequences, one after the other. */
  function Flat<T>(parts: seq<seq<T>>): seq<T> {
    if parts == [] then [] else parts[0] + Flat(parts[1..])
  }

  lemma Assoc<T>(a: seq<T>, b: seq<T>, c: seq<T>)
    ensures a + (b + c) == (a + b) + c
  {
  }

  lemma {:induction false} FlatConcat<T>(a: seq<seq<T>>, b: seq<seq<T>>)
    ensures Flat(a + b) == Flat(a) + Flat(b)
  {
    if a == [] {
      assert a + b == b;
    } else {
      FlatConcat(a[1..], b);
      assert (a + b)[0] == a[0] && (a + b)[1..] == a[1..] + b;
      Assoc(a[0], Flat(a[1..]), Flat(b));
    }
  }

  lemma {:induction false} FlatAppend<T>(parts: seq<seq<T>>, b: seq<T>)
    ensures Flat(parts + [b]) == Flat(parts) + b
  {
    FlatConcat(parts, [b]);
    assert Flat([b]) == b + Flat<T>([]);
  }

  /** A trailing empty name leaves no trace in a joined string. */
  function WithoutLastEmpty(names: seq<string>): seq<string> {
    if names != [] && names[|names| - 1] == "" then names[..|names| - 1] else names
  }

  lemma {:induction false} LastEmptyOfRest(names: seq<string>)
    requires |names| > 1
    ensures WithoutLastEmpty(names) == [names[0]] + WithoutLastEmpty(names[1..])
  {
  }

  /** The first `c` at or after `i`, or the length of `s`. */
  function Next(s: string, c: char, i: nat): (j: nat)
    requires i <= |s|
    ensures i <= j <= |s| && (j < |s| ==> s[j] == c) && forall k | i <= k < j :: s[k] != c
    decreases |s| - i
  {
    if i == |s| || s[i] == c then i else Next(s, c, i + 1)
  }

  lemma {:induction false} NextIs(s: string, c: char, i: nat, j: nat)
    requires i <= j <= |s| && (j < |s| ==> s[j] == c) && forall k | i <= k < j :: s[k] != c
    ensures Next(s, c, i) == j
    decreases j - i
  {
    if i < j { NextIs(s, c, i + 1, j); }
  }

  method Find(s: string, c: char, i: nat) returns (j: nat)
    requires i <= |s|
    ensures j == Next(s, c, i)
  {
    j := i;
    while j < |s| && s[j] != c
      invariant i <= j <= |s| && Next(s, c, i) == Next(s, c, j)
    {
      j := j + 1;
    }
  }
}
