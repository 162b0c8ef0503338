/** An if/else node splits a stream over its branches; a later input port fed by all of the
    branches puts it together again.

    The node works block by block, and sends each row down one branch (the order is that of
    `ConditionMerge`) and the end flag down every branch; each branch renumbers what it gets.
    `work[i]` is what the nodes on the branch made of row i.  */
module ConditionJoin {
  import opened Basics
  import opened Buffers
  import opened StreamMatch
  import opened MatchRuns
  import ConditionMerge

  datatype Split = Split(stream: seq<Buffer>, blocks: seq<seq<ConditionMerge.Row>>, branches: nat, work: seq<int>) {
    /** What the node makes of the rows before the end flag. */
    function Rows(): seq<ConditionMerge.Row> {
      Flat(blocks)
    }
  }

  ghost predicate ValidSplit(x: Split) {
    && |x.stream| == |x.Rows()| + 1 == |x.work|
    && 2 <= x.branches
    && (forall i | 0 <= i < |x.Rows()| :: ConditionMerge.PortOf(x.Rows()[i]) < x.branches)
    && (forall i | 0 <= i < |x.stream| :: x.stream[i].info.index == i && (x.stream[i].info.isEnd <==> i == |x.Rows()|))
  }

  /** The buffer made of row i, at position `index` of its branch (an arbitrary one where there is no row). */
  function Made(x: Split, i: nat, index: nat): Buffer {
    if i < |x.stream| && i < |x.work| then
      var parent := x.stream[i].info;
      Buffer(IndexInfo(index, parent.isEnd, parent.isPlaceholder, Inherit(CONDITION_START, parent, DepthBelow(parent))),
             x.work[i])
    else Buffer(IndexInfo(index, false, false, NoInherit), 0)
  }

  /** A split buffer is one level deeper than the buffer it came from. */
  lemma {:induction false} MadeIsDeeper(x: Split, i: nat, index: nat)
    requires i < |x.stream| && i < |x.work| && DepthsRight(x.stream[i].info)
    ensures DepthsRight(Made(x, i, index).info) && Ancestors(Made(x, i, index).info) == Ancestors(x.stream[i].info) + 1
  {
    DepthCountsAncestors(x.stream[i].info);
  }

  /** Renumbered in the order they are sent. */
  function Numbered(x: Split, order: seq<nat>): seq<Buffer> {
    seq(|order|, k requires 0 <= k < |order| => Made(x, order[k], k))
  }

  /** The whole stream on branch b: its share of the rows, then its own end flag. */
  function Branch(x: Split, b: nat): seq<Buffer> {
    Numbered(x, ConditionMerge.Emitted(x.blocks, b) + [|x.Rows()|])
  }

  /** Everything the first m branches carry. */
  function Carried(x: Split, m: nat): seq<Buffer> {
    if m == 0 then [] else Carried(x, m - 1) + Branch(x, m - 1)
  }

  function JoinConfig(x: Split, p: Port): Config {
    Config({p}, map[p := x.branches])
  }

  /** The stream before the split, with the payloads the branches made. */
  function Original(x: Split): seq<Buffer>
    requires |x.stream| == |x.work|
  {
    seq(|x.stream|, i requires 0 <= i < |x.stream| => Buffer(x.stream[i].info, x.work[i]))
  }

  function JoinPlan(x: Split, p: Port): Plan
    requires |x.stream| == |x.work|
  {
    Plan(|x.Rows()|, map[p := Original(x)])
  }

  function Arrivals(acts: seq<Action>): seq<Buffer> {
    if acts == [] then []
    else
      var a := acts[|acts| - 1];
      Arrivals(acts[..|acts| - 1]) + (if a.Arrive? then [a.buffer] else [])
  }

  ghost predicate OnPort(p: Port, acts: seq<Action>) {
    forall k | 0 <= k < |acts| :: acts[k].Arrive? ==> acts[k].port == p
  }

  function Origin(b: Buffer): nat {
    if b.info.inherit.Inherit? then b.info.inherit.from.index else b.info.index
  }

  /** How many of the buffers descend from index i. */
  function Count(bs: seq<Buffer>, i: nat): nat {
    if bs == [] then 0 else Count(bs[..|bs| - 1], i) + (if Origin(bs[|bs| - 1]) == i then 1 else 0)
  }

  lemma {:induction false} CountConcat(a: seq<Buffer>, b: seq<Buffer>, i: nat)
    ensures Count(a + b, i) == Count(a, i) + Count(b, i)
  {
    if b == [] {
      assert a + b == a;
    } else {
      var n := |b| - 1;
      CountConcat(a, b[..n], i);
      assert (a + b)[..|a + b| - 1] == a + b[..n];
    }
  }

  lemma {:induction false} CountSplitAt(b: seq<Buffer>, k: nat, i: nat)
    requires k < |b|
    ensures Count(b, i) == Count(b[..k] + b[k + 1..], i) + (if Origin(b[k]) == i then 1 else 0)
    ensures multiset(b) == multiset(b[..k] + b[k + 1..]) + multiset{b[k]}
  {
    assert b == b[..k] + [b[k]] + b[k + 1..];
    CountConcat(b[..k] + [b[k]], b[k + 1..], i);
    CountConcat(b[..k], [b[k]], i);
    CountConcat(b[..k], b[k + 1..], i);
    assert Count([b[k]], i) == if Origin(b[k]) == i then 1 else 0;
  }

  lemma CancelOne(a: multiset<Buffer>, b: multiset<Buffer>, x: Buffer)
    requires a + multiset{x} <= b + multiset{x}
    ensures a <= b
  {
    forall y ensures a[y] <= b[y] {
      assert (a + multiset{x})[y] <= (b + multiset{x})[y];
    }
  }

  /** Counting looks only at the contents, not at the order. */
  lemma {:induction false} CountMonotone(a: seq<Buffer>, b: seq<Buffer>, i: nat)
    requires multiset(a) <= multiset(b)
    ensures Count(a, i) <= Count(b, i)
    ensures |a| == |b| ==> Count(a, i) == Count(b, i)
    decreases |a|
  {
    if a == [] {
    } else {
      var n := |a| - 1;
      assert a == a[..n] + [a[n]];
      assert a[n] in multiset(a);
      assert a[n] in multiset(b);
      var k :| 0 <= k < |b| && b[k] == a[n];
      CountSplitAt(b, k, i);
      assert multiset(a) == multiset(a[..n]) + multiset{a[n]};
      CancelOne(multiset(a[..n]), multiset(b[..k] + b[k + 1..]), a[n]);
      CountMonotone(a[..n], b[..k] + b[k + 1..], i);
    }
  }

  // ----- the split -----

  lemma {:induction false} CountNumbered(x: Split, order: seq<nat>, i: nat)
    requires ValidSplit(x) && forall k | 0 <= k < |order| :: order[k] < |x.stream|
    ensures Count(Numbered(x, order), i) == multiset(order)[i]
  {
    if order != [] {
      var n := |order| - 1;
      CountNumbered(x, order[..n], i);
      assert Numbered(x, order)[..n] == Numbered(x, order[..n]);
      assert Origin(Made(x, order[n], n)) == order[n];
      assert order == order[..n] + [order[n]];
    }
  }

  /** The branch of row i, if there is such a row. */
  function PortAt(x: Split, i: nat): int {
    if i < |x.Rows()| then ConditionMerge.PortOf(x.Rows()[i]) else -1
  }

  lemma {:induction false} CountBranch(x: Split, b: nat, i: nat)
    requires ValidSplit(x)
    ensures Count(Branch(x, b), i) == if i == |x.Rows()| || PortAt(x, i) == b then 1 else 0
  {
    ConditionMerge.EmittedBelow(x.blocks, b);
    ConditionMerge.EachRowOnce(x.blocks, b, i);
    CountWithEnd(x, ConditionMerge.Emitted(x.blocks, b), i);
  }

  lemma {:induction false} CountWithEnd(x: Split, data: seq<nat>, i: nat)
    requires ValidSplit(x) && forall n | n in data :: n < |x.Rows()|
    ensures Count(Numbered(x, data + [|x.Rows()|]), i) == multiset(data)[i] + (if i == |x.Rows()| then 1 else 0)
  {
    var e := |x.Rows()|;
    assert forall k | 0 <= k < |data| :: data[k] in data;
    CountNumbered(x, data + [e], i);
    ConditionMerge.CountParts(data, [e], i);
  }

  /** Splitting loses and repeats nothing: over all branches each row occurs once and the end flag
      once per branch. */
  lemma {:induction false} CountCarried(x: Split, m: nat, i: nat)
    requires ValidSplit(x)
    ensures Count(Carried(x, m), i)
         == if i == |x.Rows()| then m else if 0 <= PortAt(x, i) < m then 1 else 0
  {
    var total: nat -> nat, each: nat -> nat := (b: nat) => Count(Carried(x, b), i), (b: nat) => Count(Branch(x, b), i);
    NoneCarried(x, i);
    forall b: nat
      ensures each(b) == Share(i == |x.Rows()|, PortAt(x, i), b)
      ensures total(b + 1) == total(b) + each(b)
    {
      CountBranch(x, b, i);
      CountNextBranch(x, b + 1, i);
    }
    SharesAdd(total, each, i == |x.Rows()|, PortAt(x, i), m);
  }

  function Share(everywhere: bool, port: int, b: nat): nat {
    if everywhere || port == b then 1 else 0
  }

  function Shares(everywhere: bool, port: int, m: nat): nat {
    if everywhere then m else if 0 <= port < m then 1 else 0
  }

  lemma {:induction false} SharesAdd(total: nat -> nat, each: nat -> nat, everywhere: bool, port: int, m: nat)
    requires total(0) == 0 && (forall b: nat :: total(b + 1) == total(b) + each(b))
    requires forall b: nat :: each(b) == Share(everywhere, port, b)
    ensures total(m) == Shares(everywhere, port, m)
  {
    if m > 0 {
      var n: nat := m - 1;
      SharesAdd(total, each, everywhere, port, n);
      assert total(n + 1) == total(n) + each(n);
    }
  }

  lemma {:induction false} CountNextBranch(x: Split, m: nat, i: nat)
    requires m > 0
    ensures Count(Carried(x, m), i) == Count(Carried(x, m - 1), i) + Count(Branch(x, m - 1), i)
  {
    CountConcat(Carried(x, m - 1), Branch(x, m - 1), i);
  }

  lemma {:induction false} NoneCarried(x: Split, i: nat)
    ensures Count(Carried(x, 0), i) == 0
  {
  }

  ghost predicate NoEnd(s: seq<Buffer>) {
    forall k | 0 <= k < |s| :: !s[k].info.isEnd
  }

  /** The rows come in the order they had before the split. */
  ghost predicate InOrder(s: seq<Buffer>) {
    forall j, k | 0 <= j < k < |s| :: Origin(s[j]) < Origin(s[k])
  }

  lemma {:induction false} InOrderIffAscending(x: Split, order: seq<nat>)
    requires ValidSplit(x) && forall k | 0 <= k < |order| :: order[k] < |x.stream|
    ensures InOrder(Numbered(x, order)) <==> ConditionMerge.Ascending(order)
  {
    assert forall k | 0 <= k < |order| :: Origin(Numbered(x, order)[k]) == order[k];
  }

  /** The rows keep their order exactly when it is not the first branch or no block has one out of turn. */
  lemma {:induction false} BranchInOrderIff(x: Split, b: nat)
    requires ValidSplit(x)
    ensures InOrder(Branch(x, b)) <==> b != 0 || forall j | 0 <= j < |x.blocks| :: !ConditionMerge.OutOfTurn(x.blocks[j])
  {
    var data, e := ConditionMerge.Emitted(x.blocks, b), |x.Rows()|;
    ConditionMerge.EmittedBelow(x.blocks, b);
    assert forall k | 0 <= k < |data| :: data[k] in data;
    InOrderIffAscending(x, data + [e]);
    ConditionMerge.AscendingParts(data, [e], e);
    ConditionMerge.EmittedInOrderIff(x.blocks, b);
  }

  /** A branch numbers its buffers 0, 1, 2, ... and ends with its only end flag. */
  lemma {:induction false} BranchIsStream(x: Split, b: nat)
    requires ValidSplit(x)
    ensures var s := Branch(x, b);
            && (forall k | 0 <= k < |s| :: s[k].info.index == k)
            && s[|s| - 1].info.isEnd && NoEnd(s[..|s| - 1])
  {
    var data := ConditionMerge.Emitted(x.blocks, b);
    ConditionMerge.EmittedBelow(x.blocks, b);
    assert forall k | 0 <= k < |data| :: data[k] in data;
  }

  /** Seen through its pre-split index info, everything on a branch is a buffer of the original. */
  ghost predicate FromSplit(x: Split, b: Buffer)
    requires |x.stream| == |x.work|
  {
    && b.info.inherit.Inherit?
    && Origin(b) < |x.stream|
    && b.(info := b.info.inherit.from) == Original(x)[Origin(b)]
  }

  lemma {:induction false} CarriedFromSplit(x: Split, m: nat, b: Buffer)
    requires ValidSplit(x) && b in Carried(x, m)
    ensures FromSplit(x, b)
  {
    if b in Branch(x, m - 1) {
      BranchFromSplit(x, m - 1);
    } else {
      CarriedFromSplit(x, m - 1, b);
    }
  }

  lemma {:induction false} BranchFromSplit(x: Split, b: nat)
    requires ValidSplit(x)
    ensures forall t | t in Branch(x, b) :: FromSplit(x, t)
  {
    var data, e := ConditionMerge.Emitted(x.blocks, b), |x.Rows()|;
    ConditionMerge.EmittedBelow(x.blocks, b);
    forall k | 0 <= k < |data + [e]| ensures FromSplit(x, Made(x, (data + [e])[k], k)) {
      assert k < |data| ==> data[k] in data;
    }
  }

  // ----- the join -----

  /** How often a row comes out of the split. */
  function Times(x: Split, i: nat): nat {
    if i == |x.Rows()| then x.branches else if i < |x.Rows()| then 1 else 0
  }

  /** A run of the joining port: by their index info from before the split, rows of the original, none
      more often than it came out of the split.  Their place on the branch does not matter. */
  ghost predicate JoinRun(x: Split, p: Port, acts: seq<Action>) {
    && ValidSplit(x) && OnPort(p, acts)
    && (forall k | 0 <= k < |acts| && acts[k].Arrive? :: FromSplit(x, acts[k].buffer))
    && forall i: nat :: Count(Arrivals(acts), i) <= Times(x, i)
  }

  /** Every row, and the end flag of every branch, has arrived. */
  ghost predicate AllArrived(x: Split, acts: seq<Action>) {
    forall i: nat :: i < |x.stream| ==> Count(Arrivals(acts), i) == Times(x, i)
  }

  lemma {:induction false} ArrivalsMembers(acts: seq<Action>, k: nat)
    requires k < |acts| && acts[k].Arrive?
    ensures acts[k].buffer in Arrivals(acts)
  {
    if k < |acts| - 1 { ArrivalsMembers(acts[..|acts| - 1], k); }
  }

  /** Any interleaving of (part of) what the branches carry is such a run. */
  lemma {:induction false} CarriedIsJoinRun(x: Split, p: Port, acts: seq<Action>)
    requires ValidSplit(x) && OnPort(p, acts) && multiset(Arrivals(acts)) <= multiset(Carried(x, x.branches))
    ensures JoinRun(x, p, acts)
    ensures |Arrivals(acts)| == |Carried(x, x.branches)| ==> AllArrived(x, acts)
  {
    var all := Carried(x, x.branches);
    forall k | 0 <= k < |acts| && acts[k].Arrive? ensures FromSplit(x, acts[k].buffer) {
      ArrivalsMembers(acts, k);
      assert acts[k].buffer in multiset(Arrivals(acts));
      assert acts[k].buffer in multiset(all);
      CarriedFromSplit(x, x.branches, acts[k].buffer);
    }
    forall i: nat
      ensures Count(Arrivals(acts), i) <= Times(x, i)
      ensures |Arrivals(acts)| == |all| ==> Count(Arrivals(acts), i) == Times(x, i)
    {
      CountMonotone(Arrivals(acts), all, i);
      CountCarried(x, x.branches, i);
    }
  }

  lemma {:induction false} PlanOfSplit(x: Split, p: Port)
    requires ValidSplit(x)
    ensures ValidPlan(JoinConfig(x, p), JoinPlan(x, p))
    ensures PlanStream(JoinConfig(x, p), JoinPlan(x, p), p) == Original(x)
  {
    var cfg, plan := JoinConfig(x, p), JoinPlan(x, p);
    assert forall i | 0 <= i <= plan.end :: plan.At(p, i) == Original(x)[i];
    forall i | 0 <= i <= plan.end ensures PlanBuffer(cfg, plan, p, i) == Original(x)[i] {
      if plan.At(p, i).info.isPlaceholder { assert p in cfg.ports; }
    }
  }

  lemma {:induction false} CountSnoc(bs: seq<Buffer>, b: Buffer, i: nat)
    ensures Count(bs + [b], i) == Count(bs, i) + (if Origin(b) == i then 1 else 0)
  {
    assert (bs + [b])[..|bs|] == bs;
  }

  lemma {:induction false} DeliveredIsCount(x: Split, p: Port, acts: seq<Action>, i: nat)
    requires 2 <= x.branches && OnPort(p, acts)
    requires forall k | 0 <= k < |acts| && acts[k].Arrive? :: acts[k].buffer.info.inherit.Inherit?
    ensures Delivered(JoinConfig(x, p), acts)[(p, i)] == Count(Arrivals(acts), i)
    decreases |acts|
  {
    if acts != [] {
      var n := |acts| - 1;
      var before, a := Arrivals(acts[..n]), acts[n];
      DeliveredIsCount(x, p, acts[..n], i);
      if a.Arrive? {
        CountSnoc(before, a.buffer, i);
        assert MatchIndex(JoinConfig(x, p), p, a.buffer) == Origin(a.buffer);
      } else {
        assert before + [] == before;
      }
    }
  }

  lemma {:induction false} JoinRunIsLegal(x: Split, p: Port, acts: seq<Action>)
    requires JoinRun(x, p, acts)
    ensures Legal(JoinConfig(x, p), JoinPlan(x, p), acts)
    ensures AllDelivered(JoinConfig(x, p), JoinPlan(x, p), Delivered(JoinConfig(x, p), acts)) <==> AllArrived(x, acts)
  {
    var cfg, plan := JoinConfig(x, p), JoinPlan(x, p);
    PlanOfSplit(x, p);
    forall i: nat
      ensures Delivered(cfg, acts)[(p, i)] == Count(Arrivals(acts), i) <= Need(cfg, plan, p, i)
      ensures i <= plan.end ==> Times(x, i) == Need(cfg, plan, p, i)
      ensures Complete(cfg, plan, Delivered(cfg, acts), i) <==> Need(cfg, plan, p, i) <= Count(Arrivals(acts), i)
    {
      DeliveredIsCount(x, p, acts, i);
    }
  }

  /** Split then join is the identity: in whatever order the branches' buffers arrive, and wherever
      the pops fall between them, the joining port has released a prefix of the original stream,
      and the whole of it exactly when all has arrived by the last pop. */
  lemma {:induction false} JoinIsIdentity(x: Split, p: Port, acts: seq<Action>, gatherAll: bool)
    requires JoinRun(x, p, acts + [PopNow])
    ensures var s := Run(JoinConfig(x, p), Mode(true, gatherAll), acts + [PopNow]);
            && !s.faulted && p in s.out && s.out[p] <= Original(x)
            && (AllArrived(x, acts + [PopNow]) <==> StreamEnd(s.cache))
            && (AllArrived(x, acts + [PopNow]) ==> s.out[p] == Original(x))
  {
    var cfg, plan, mode, all := JoinConfig(x, p), JoinPlan(x, p), Mode(true, gatherAll), acts + [PopNow];
    JoinRunIsLegal(x, p, all);
    PlanOfSplit(x, p);
    InOrderReleasesPrefix(cfg, plan, mode, all);
    StreamEndIsLossless(cfg, plan, mode, acts);
    assert Original(x)[..|Original(x)|] == Original(x);
  }

  /** The end flag leaves only after the end flag of every branch has arrived. */
  lemma {:induction false} JoinEndWaits(x: Split, p: Port, acts: seq<Action>, mode: Mode)
    requires JoinRun(x, p, acts) && |x.Rows()| in Run(JoinConfig(x, p), mode, acts).order
    ensures Count(Arrivals(acts), |x.Rows()|) == x.branches
  {
    var cfg, plan, e := JoinConfig(x, p), JoinPlan(x, p), |x.Rows()|;
    JoinRunIsLegal(x, p, acts);
    var k :| 0 <= k < |Run(cfg, mode, acts).order| && Run(cfg, mode, acts).order[k] == e;
    ReleasedIsComplete(cfg, plan, mode, acts, k);
    assert Need(cfg, plan, p, e) <= Delivered(cfg, acts)[(p, e)];
    DeliveredIsCount(x, p, acts, e);
    assert Count(Arrivals(acts), e) <= Times(x, e);
  }
}
