/** Index info through nested expands and collapses: the record a buffer carries of the buffer it was
    expanded from is what brings it back. */
module Lineage {
  import opened Buffers

  // ----- one buffer -----

  /** A buffer of the stream that `parent` is expanded to. */
  function Child(parent: IndexInfo, index: nat, isEnd: bool): IndexInfo {
    IndexInfo(index, isEnd, false, Inherit(EXPAND, parent, DepthBelow(parent)))
  }

  /** What a collapse makes of a sub-stream: the place of the buffer it came from. */
  function Restored(from: IndexInfo, isEnd: bool): IndexInfo {
    IndexInfo(from.index, isEnd, false, from.inherit)
  }

  /** The level indices a stream carries. */
  type StreamOrder = seq<nat>

  datatype Trace = Trace(info: IndexInfo, order: StreamOrder)

  /** The nodes a buffer passes: `Expand` follows its descendant at `index`; `Stream` is an n-to-m stream
      node, where it follows the output at `index`. */
  datatype Op = Expand(index: nat, isEnd: bool) | OneToOne | Stream(index: nat) | Collapse

  /** An end flag is expanded to nothing but an end flag; the end flag of a sub-stream is absorbed by the
      collapse unless the sub-stream came from an end flag. */
  function Follow(t: Trace, op: Op): Option<Trace> {
    match op
    case Expand(index, isEnd) =>
      if t.info.isEnd && !(isEnd && index == 0) then None
      else Some(Trace(Child(t.info, index, isEnd), t.order + [t.info.index]))
    case OneToOne => Some(t)
    case Stream(index) => Some(t.(info := t.info.(index := index)))
    case Collapse =>
      if t.info.inherit.NoInherit? || t.order == [] then None
      else
        var from, order := t.info.inherit.from, t.order[..|t.order| - 1];
        if !t.info.isEnd then Some(Trace(Restored(from, false), order))
        else if from.isEnd then Some(Trace(Restored(from, true), order))
        else None
  }

  function FollowAll(t: Trace, ops: seq<Op>): Option<Trace>
    decreases |ops|
  {
    if ops == [] then Some(t)
    else
      var r := FollowAll(t, ops[..|ops| - 1]);
      if r.None? then None else Follow(r.value, ops[|ops| - 1])
  }

  /** How many expands are open after `ops`. */
  function Open(ops: seq<Op>): int
    decreases |ops|
  {
    if ops == [] then 0
    else Open(ops[..|ops| - 1]) + match ops[|ops| - 1] { case Expand(_, _) => 1 case Collapse => -1 case _ => 0 }
  }

  /** Never more collapses than expands, and n-to-m nodes only inside an expand. */
  ghost predicate Bracketed(ops: seq<Op>)
    decreases |ops|
  {
    ops == []
    || (Bracketed(ops[..|ops| - 1]) && Open(ops) >= 0 && (ops[|ops| - 1].Stream? ==> Open(ops) > 0))
  }

  /** `t` is `d` levels below `start`: its ancestry leads there, the stream order spells the indices on the
      way, and below an end flag there are only end flags. */
  ghost predicate Below(start: Trace, t: Trace, d: nat)
    decreases d
  {
    if d == 0 then t.info == start.info && t.order == start.order
    else
      && t.info.inherit.Inherit? && t.order != [] && !t.info.isPlaceholder
      && var from, n := t.info.inherit.from, |t.order| - 1;
         && t.info.inherit.depth == DepthBelow(from) && t.order[n] == from.index
         && (from.isEnd ==> t.info.isEnd)
         && Below(start, Trace(from, t.order[..n]), d - 1)
  }

  lemma {:induction false} FollowStays(start: Trace, t: Trace, d: nat, op: Op)
    requires !start.info.isPlaceholder && Below(start, t, d) && Follow(t, op).Some?
    requires (op.Collapse? || op.Stream?) ==> d > 0
    ensures var t' := Follow(t, op).value;
            Below(start, t', match op { case Expand(_, _) => d + 1 case Collapse => d - 1 case _ => d })
  {
    match op
    case Expand(_, _) => assert (t.order + [t.info.index])[..|t.order|] == t.order;
    case OneToOne =>
    case Stream(_) =>
    case Collapse => NotPlaceholder(start, Trace(t.info.inherit.from, t.order[..|t.order| - 1]), d - 1);
  }

  lemma {:induction false} NotPlaceholder(start: Trace, t: Trace, d: nat)
    requires !start.info.isPlaceholder && Below(start, t, d)
    ensures !t.info.isPlaceholder
  {
  }

  lemma {:induction false} StaysBelow(start: Trace, ops: seq<Op>)
    requires !start.info.isPlaceholder && Bracketed(ops) && FollowAll(start, ops).Some?
    ensures Open(ops) >= 0 && Below(start, FollowAll(start, ops).value, Open(ops))
    decreases |ops|
  {
    if ops != [] {
      var n := |ops| - 1;
      StaysBelow(start, ops[..n]);
      FollowStays(start, FollowAll(start, ops[..n]).value, Open(ops[..n]), ops[n]);
    }
  }

  /** Whatever a buffer passes, once every expand is collapsed it has its index, its ancestry, its depth
      and its stream order back, and it is an end flag exactly if it was one. */
  lemma {:induction false} BracketsRestore(start: Trace, ops: seq<Op>)
    requires !start.info.isPlaceholder && Bracketed(ops) && Open(ops) == 0 && FollowAll(start, ops).Some?
    ensures FollowAll(start, ops).value == start
  {
    StaysBelow(start, ops);
  }

  /** Whatever a buffer passes, bracketed or not, its depth stays the number of its ancestors, less one. */
  lemma {:induction false} DepthsStayRight(start: Trace, ops: seq<Op>)
    requires DepthsRight(start.info) && FollowAll(start, ops).Some?
    ensures DepthsRight(FollowAll(start, ops).value.info)
    decreases |ops|
  {
    if ops != [] {
      DepthsStayRight(start, ops[..|ops| - 1]);
      DepthCountsAncestors(FollowAll(start, ops[..|ops| - 1]).value.info);
    }
  }

  /** A data buffer followed through data only is not lost either, and is data wherever it is. */
  lemma {:induction false} DataPasses(start: Trace, ops: seq<Op>)
    requires !start.info.isPlaceholder && !start.info.isEnd && Bracketed(ops)
    requires forall k | 0 <= k < |ops| :: ops[k].Expand? ==> !ops[k].isEnd
    ensures FollowAll(start, ops).Some? && !FollowAll(start, ops).value.info.isEnd
    decreases |ops|
  {
    if ops != [] {
      var n := |ops| - 1;
      DataPasses(start, ops[..n]);
      StaysBelow(start, ops[..n]);
      assert ops[n].Collapse? ==> Open(ops[..n]) > 0;
    }
  }

  lemma {:induction false} FollowOn(t: Trace, a: seq<Op>, b: seq<Op>)
    ensures FollowAll(t, a + b) == if FollowAll(t, a).None? then None else FollowAll(FollowAll(t, a).value, b)
    decreases |b|
  {
    if b == [] {
      assert a + b == a;
    } else {
      FollowOn(t, a, b[..|b| - 1]);
      assert (a + b)[..|a + b| - 1] == a + b[..|b| - 1];
    }
  }

  lemma {:induction false} FollowOne(t: Trace, op: Op)
    ensures FollowAll(t, [op]) == Follow(t, op)
  {
    assert [op][..0] == [];
  }

  /** The end flag of the sub-stream of a data buffer goes no further than the collapse. */
  lemma {:induction false} SubEndAbsorbed(start: Trace, index: nat, ops: seq<Op>)
    requires !start.info.isEnd && Bracketed(ops) && Open(ops) == 0
    ensures FollowAll(start, [Expand(index, true)] + ops + [Collapse]).None?
  {
    var child := Trace(Child(start.info, index, true), start.order + [start.info.index]);
    FollowOne(start, Expand(index, true));
    FollowOn(start, [Expand(index, true)], ops);
    FollowOn(start, [Expand(index, true)] + ops, [Collapse]);
    if FollowAll(child, ops).Some? {
      BracketsRestore(child, ops);
      FollowOne(child, Collapse);
    }
  }

  /** End flags all the way up, for `d` levels. */
  ghost predicate EndChain(info: IndexInfo, d: nat)
    decreases d
  {
    info.isEnd && (d > 0 ==> info.inherit.Inherit? && EndChain(info.inherit.from, d - 1))
  }

  /** The end flag of a stream is not lost on the way: expanded to end flags, it passes every bracketed
      program and is an end flag wherever it is. */
  lemma {:induction false} EndFlagPasses(start: Trace, ops: seq<Op>)
    requires !start.info.isPlaceholder && start.info.isEnd && Bracketed(ops)
    requires forall k | 0 <= k < |ops| :: ops[k].Expand? ==> ops[k] == Expand(0, true)
    ensures FollowAll(start, ops).Some? && Open(ops) >= 0 && EndChain(FollowAll(start, ops).value.info, Open(ops))
    decreases |ops|
  {
    if ops != [] {
      var n := |ops| - 1;
      EndFlagPasses(start, ops[..n]);
      StaysBelow(start, ops[..n]);
      assert EndChain(FollowAll(start, ops[..n]).value.info, Open(ops[..n]));
    }
  }

  // ----- whole streams -----

  /** The rows of one stream: numbered from 0, the end flag in the last place, all with one ancestry. */
  ghost predicate IsStream(s: seq<IndexInfo>, inherit: Inherit) {
    && s != []
    && forall k | 0 <= k < |s| :: s[k] == IndexInfo(k, k == |s| - 1, false, inherit)
  }

  function Rows(count: nat, inherit: Inherit): seq<IndexInfo> {
    seq(count + 1, k requires 0 <= k <= count => IndexInfo(k, k == count, false, inherit))
  }

  /** The stream one buffer is expanded to, of any size; an end flag gives an end flag only, so size 0. */
  function Children(parent: IndexInfo, size: nat): seq<IndexInfo> {
    Rows(size, Inherit(EXPAND, parent, DepthBelow(parent)))
  }

  /** A chain of nodes.  `Resize` is an n-to-m stream node; `Nest` is an expand, a chain on every
      sub-stream, and the collapse. */
  datatype Chain =
    | Done
    | Copy(rest: Chain)
    | Resize(size: nat, rest: Chain)
    | Nest(parts: seq<Part>, rest: Chain)

  /** For one sub-stream: how many data buffers the expand makes of its parent, and what it passes. */
  datatype Part = Part(size: nat, inner: Chain)

  function Resized(s: seq<IndexInfo>, size: nat): seq<IndexInfo> {
    if s == [] then s else Rows(size, s[0].inherit)
  }

  /** One output per sub-stream, an end flag where the sub-stream came from one. */
  function Collapsed(sub: seq<IndexInfo>): IndexInfo {
    if sub == [] || sub[|sub| - 1].inherit.NoInherit? then IndexInfo(0, true, false, NoInherit)
    else Restored(sub[|sub| - 1].inherit.from, sub[|sub| - 1].inherit.from.isEnd)
  }

  function Run(c: Chain, s: seq<IndexInfo>): seq<IndexInfo>
    decreases c, 2, 0
  {
    match c
    case Done => s
    case Copy(rest) => Run(rest, s)
    case Resize(size, rest) => Run(rest, Resized(s, size))
    case Nest(parts, rest) => Run(rest, RunParts(c, s, |s|))
  }

  /** Expand, inner chain and collapse for the first `n` buffers. */
  function RunParts(c: Chain, s: seq<IndexInfo>, n: nat): seq<IndexInfo>
    requires c.Nest? && n <= |s|
    decreases c, 1, n
  {
    if n == 0 then [] else RunParts(c, s, n - 1) + [RunPart(c, s[n - 1], n - 1)]
  }

  function RunPart(c: Chain, row: IndexInfo, k: nat): IndexInfo
    requires c.Nest?
    decreases c, 0, 0
  {
    if k < |c.parts| then Collapsed(Run(c.parts[k].inner, Children(row, c.parts[k].size)))
    else Collapsed(Children(row, 0))
  }

  /** No n-to-m node outside an expand. */
  predicate Even(c: Chain) {
    match c
    case Done => true
    case Copy(rest) => Even(rest)
    case Resize(_, _) => false
    case Nest(_, rest) => Even(rest)
  }

  /** How many rows a chain makes of `n`: the last n-to-m node outside an expand decides. */
  function OutSize(c: Chain, n: nat): nat {
    match c
    case Done => n
    case Copy(rest) => OutSize(rest, n)
    case Resize(size, rest) => OutSize(rest, size + 1)
    case Nest(_, rest) => OutSize(rest, n)
  }

  lemma {:induction false} ChildrenStream(parent: IndexInfo, size: nat)
    ensures IsStream(Children(parent, size), Inherit(EXPAND, parent, DepthBelow(parent)))
  {
  }

  /** A collapse undoes an expand, whatever stream of that ancestry it is given. */
  lemma {:induction false} CollapseUndoes(parent: IndexInfo, sub: seq<IndexInfo>)
    requires !parent.isPlaceholder && IsStream(sub, Inherit(EXPAND, parent, DepthBelow(parent)))
    ensures Collapsed(sub) == parent
  {
  }

  /** Every chain turns a stream into a stream of the same ancestry and the size its n-to-m nodes give it, and
      an even chain into itself. */
  lemma {:induction false} RunKeepsStream(c: Chain, s: seq<IndexInfo>, inherit: Inherit)
    requires IsStream(s, inherit)
    ensures IsStream(Run(c, s), inherit) && |Run(c, s)| == OutSize(c, |s|)
    ensures Even(c) ==> Run(c, s) == s
    decreases c, 2, 0
  {
    match c
    case Done =>
    case Copy(rest) => RunKeepsStream(rest, s, inherit);
    case Resize(size, rest) => RunKeepsStream(rest, Resized(s, size), inherit);
    case Nest(parts, rest) =>
      RunPartsIdentity(c, s, inherit, |s|);
      assert s[..|s|] == s;
      RunKeepsStream(rest, s, inherit);
  }

  lemma {:induction false} RunPartsIdentity(c: Chain, s: seq<IndexInfo>, inherit: Inherit, n: nat)
    requires c.Nest? && IsStream(s, inherit) && n <= |s|
    ensures RunParts(c, s, n) == s[..n]
    decreases c, 1, n
  {
    if n > 0 {
      RunPartsIdentity(c, s, inherit, n - 1);
      RunPartIdentity(c, s[n - 1], n - 1);
      assert s[..n] == s[..n - 1] + [s[n - 1]];
    }
  }

  lemma {:induction false} RunPartIdentity(c: Chain, row: IndexInfo, k: nat)
    requires c.Nest? && !row.isPlaceholder
    ensures RunPart(c, row, k) == row
    decreases c, 0, 0
  {
    var inherit := Inherit(EXPAND, row, DepthBelow(row));
    var size := if k < |c.parts| then c.parts[k].size else 0;
    ChildrenStream(row, size);
    if k < |c.parts| {
      RunKeepsStream(c.parts[k].inner, Children(row, size), inherit);
      CollapseUndoes(row, Run(c.parts[k].inner, Children(row, size)));
    } else {
      CollapseUndoes(row, Children(row, size));
    }
  }

  /** Nested to any depth, with sub-streams of any size: the stream that comes out of the outermost
      collapse is, row for row, the one that went in. */
  lemma {:induction false} NestingIsIdentity(c: Chain, s: seq<IndexInfo>, inherit: Inherit)
    requires IsStream(s, inherit) && Even(c)
    ensures Run(c, s) == s
  {
    RunKeepsStream(c, s, inherit);
  }

  // ----- comparing streams -----

  /** `a` and `b` agree before level `k`, where `a` is over or has the smaller index. */
  ghost predicate SplitAt(a: StreamOrder, b: StreamOrder, k: nat) {
    && k <= |a| && k < |b| && (forall j | 0 <= j < k :: a[j] == b[j])
    && (k == |a| || a[k] < b[k])
  }

  /** The order of streams: a stream comes before those expanded from it, and these in the order of the
      buffers they were expanded from. */
  ghost predicate Precedes(a: StreamOrder, b: StreamOrder) {
    exists k: nat :: SplitAt(a, b, k)
  }

  method Less(a: StreamOrder, b: StreamOrder) returns (r: bool)
    ensures r <==> Precedes(a, b)
  {
    var i := 0;
    while i < |b|
      invariant i <= |a| && i <= |b| && forall j | 0 <= j < i :: a[j] == b[j]
    {
      if i == |a| {
        assert SplitAt(a, b, i);
        return true;
      }
      if a[i] < b[i] {
        assert SplitAt(a, b, i);
        return true;
      }
      if a[i] > b[i] {
        return false;
      }
      i := i + 1;
    }
    r := false;
  }

  /** The sub-streams of one stream are told apart by their parents' indices. */
  lemma {:induction false} SiblingsInOrder(o: StreamOrder, i: nat, j: nat)
    ensures Precedes(o + [i], o + [j]) <==> i < j
    ensures Precedes(o, o + [i])
  {
    if i < j { assert SplitAt(o + [i], o + [j], |o|); }
    assert SplitAt(o, o + [i], |o|);
    var a, b := o + [i], o + [j];
    assert forall k | 0 <= k < |o| :: a[k] == b[k];
  }

  lemma {:induction false} PrecedesIsTransitive(a: StreamOrder, b: StreamOrder, c: StreamOrder)
    requires Precedes(a, b) && Precedes(b, c)
    ensures Precedes(a, c)
  {
    var j: nat :| SplitAt(a, b, j);
    var k: nat :| SplitAt(b, c, k);
    assert SplitAt(a, c, if j < k then j else k);
  }

  lemma {:induction false} PrecedesIsTotal(a: StreamOrder, b: StreamOrder)
    ensures a == b || Precedes(a, b) || Precedes(b, a)
    ensures !(Precedes(a, b) && (a == b || Precedes(b, a)))
  {
    var i := FirstDifference(a, b);
    if i < |b| && (i == |a| || a[i] < b[i]) {
      assert SplitAt(a, b, i);
    } else if i < |a| {
      assert SplitAt(b, a, i);
    }
  }

  lemma {:induction false} FirstDifference(a: StreamOrder, b: StreamOrder) returns (i: nat)
    ensures i <= |a| && i <= |b| && (forall j | 0 <= j < i :: a[j] == b[j])
    ensures i == |a| || i == |b| || a[i] != b[i]
  {
    i := 0;
    while i < |a| && i < |b| && a[i] == b[i]
      invariant i <= |a| && i <= |b| && forall j | 0 <= j < i :: a[j] == b[j]
    {
      i := i + 1;
    }
  }
}
