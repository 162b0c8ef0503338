/** The data context of a normal one-to-one node: a block of matched rows is split by kind, the valid
    rows are processed, and the parts are merged back by the index of their parents. */
module NormalContext {
  import opened Buffers
  import StreamMatch
  import MatchRuns

  datatype DataError = DataError(depth: nat, code: int)

  datatype Item = Item(info: IndexInfo, error: Option<DataError>, data: int)

  datatype Class = Placeholder | End | Error | Valid

  function Depth(info: IndexInfo): nat {
    match info.inherit
    case NoInherit => 0
    case Inherit(_, _, depth) => depth
  }

  /** An error the node does not look at: it does not want errors, or this one is from outside. */
  predicate Skips(it: Item, visible: bool) {
    it.error.Some? && (!visible || it.error.value.depth < Depth(it.info))
  }

  function Own(it: Item, visible: bool): Class {
    if it.info.isPlaceholder then Placeholder
    else if it.info.isEnd then End
    else if Skips(it, visible) then Error
    else Valid
  }

  // ----- picking positions out of a list -----

  /** The elements of `list` from position `i` on whose position is in `at`. */
  function PickFrom<T>(list: seq<T>, at: set<nat>, i: nat): seq<T>
    decreases |list| - i
  {
    if i >= |list| then [] else (if i in at then [list[i]] else []) + PickFrom(list, at, i + 1)
  }

  function PosFrom(n: nat, at: set<nat>, i: nat): seq<nat>
    decreases n - i
  {
    if i >= n then [] else (if i in at then [i] else []) + PosFrom(n, at, i + 1)
  }

  /** How many positions of `at` lie before `i`. */
  function Rank(at: set<nat>, i: nat): nat {
    if i == 0 then 0 else Rank(at, i - 1) + if i - 1 in at then 1 else 0
  }

  lemma {:induction false} PickIs<T>(list: seq<T>, at: set<nat>, i: nat)
    ensures |PickFrom(list, at, i)| == |PosFrom(|list|, at, i)|
    ensures forall k | 0 <= k < |PosFrom(|list|, at, i)| ::
              i <= PosFrom(|list|, at, i)[k] < |list| && PosFrom(|list|, at, i)[k] in at
              && PickFrom(list, at, i)[k] == list[PosFrom(|list|, at, i)[k]]
    decreases |list| - i
  {
    if i < |list| { PickIs(list, at, i + 1); }
  }

  lemma {:induction false} RankOfPos(n: nat, at: set<nat>, i: nat, k: nat)
    requires k < |PosFrom(n, at, i)|
    ensures Rank(at, PosFrom(n, at, i)[k]) == Rank(at, i) + k
    decreases n - i
  {
    if i in at {
      if k > 0 { RankOfPos(n, at, i + 1, k - 1); }
    } else {
      RankOfPos(n, at, i + 1, k);
    }
  }

  lemma {:induction false} PickInitial<T>(list: seq<T>, at: set<nat>, i: nat, m: nat)
    requires i <= m <= |list| && forall k: nat | i <= k < |list| :: k in at <==> k < m
    ensures PickFrom(list, at, i) == list[i..m]
    decreases |list| - i
  {
    if i < m { PickInitial(list, at, i + 1, m); } else { PickNone(list, at, i); }
  }

  lemma {:induction false} PickNone<T>(list: seq<T>, at: set<nat>, i: nat)
    requires forall k: nat | i <= k < |list| :: k !in at
    ensures PickFrom(list, at, i) == []
    decreases |list| - i
  {
    if i < |list| { PickNone(list, at, i + 1); }
  }

  /** What a scan has picked up to position `i`. */
  ghost predicate Picked<T>(list: seq<T>, at: set<nat>, i: nat, got: seq<T>) {
    got + PickFrom(list, at, i) == PickFrom(list, at, 0)
  }

  lemma {:induction false} PickedStart<T>(list: seq<T>, at: set<nat>)
    ensures Picked(list, at, 0, [])
  {
  }

  lemma {:induction false} PickedStep<T>(list: seq<T>, at: set<nat>, i: nat, got: seq<T>)
    requires Picked(list, at, i, got) && i < |list|
    ensures Picked(list, at, i + 1, if i in at then got + [list[i]] else got)
  {
    if i in at {
      assert got + [list[i]] + PickFrom(list, at, i + 1) == got + ([list[i]] + PickFrom(list, at, i + 1));
    } else {
      assert PickFrom(list, at, i) == PickFrom(list, at, i + 1);
    }
  }

  lemma {:induction false} PickedEnd<T>(list: seq<T>, at: set<nat>, got: seq<T>)
    requires Picked(list, at, |list|, got)
    ensures got == PickFrom(list, at, 0)
  {
    assert got + [] == got;
  }

  // ----- std::merge -----

  /** An output before its index info is filled in: it knows the input it came from. */
  datatype Body = Result(value: int) | Failed(error: DataError) | Empty
  datatype Pending = Pending(parent: IndexInfo, body: Body)

  /** Takes from the second list exactly when its head is smaller. */
  function Merge(a: seq<Pending>, b: seq<Pending>): seq<Pending>
    decreases |a| + |b|
  {
    if a == [] then b
    else if b == [] then a
    else if b[0].parent.index < a[0].parent.index then [b[0]] + Merge(a, b[1..])
    else [a[0]] + Merge(a[1..], b)
  }

  ghost predicate Ascending(list: seq<Pending>) {
    forall i, j | 0 <= i < j < |list| :: list[i].parent.index < list[j].parent.index
  }

  lemma {:induction false} PickAbove(list: seq<Pending>, at: set<nat>, i: nat)
    requires Ascending(list) && i < |list|
    ensures PickFrom(list, at, i + 1) != [] ==> list[i].parent.index < PickFrom(list, at, i + 1)[0].parent.index
  {
    PickIs(list, at, i + 1);
  }

  /** Merging two parts of an ascending list puts every element back where it was. */
  lemma {:induction false} MergeParts(list: seq<Pending>, a: set<nat>, b: set<nat>, i: nat)
    requires Ascending(list) && a !! b
    ensures Merge(PickFrom(list, a, i), PickFrom(list, b, i)) == PickFrom(list, a + b, i)
    decreases |list| - i
  {
    if i < |list| {
      MergeParts(list, a, b, i + 1);
      PickAbove(list, a, i);
      PickAbove(list, b, i);
      var pa, pb := PickFrom(list, a, i), PickFrom(list, b, i);
      if i in a {
        assert pa[1..] == PickFrom(list, a, i + 1) && pb == PickFrom(list, b, i + 1);
      } else if i in b {
        assert pb[1..] == PickFrom(list, b, i + 1) && pa == PickFrom(list, a, i + 1);
      } else {
        assert pa == PickFrom(list, a, i + 1) && pb == PickFrom(list, b, i + 1);
      }
    }
  }

  /** On equal indices the first list goes first, so merging lists that follow one another appends them. */
  lemma {:induction false} MergeIsStable(a: seq<Pending>, b: seq<Pending>)
    requires forall i, j | 0 <= i < |a| && 0 <= j < |b| :: a[i].parent.index <= b[j].parent.index
    ensures Merge(a, b) == a + b
    decreases |a|
  {
    if a != [] && b != [] {
      assert a[0].parent.index <= b[0].parent.index;
      MergeIsStable(a[1..], b);
      assert a + b == [a[0]] + (a[1..] + b);
    }
  }

  // ----- splitting the input -----

  /** One list per input port; positions correspond. */
  type Block = seq<seq<Item>>

  /** What the matching releases: ports of one length, end flag and placeholder marks the same on every
      port, indices ascending, an end flag only in the last place. */
  ghost predicate Matched(ports: Block) {
    && ports != []
    && (forall p | 0 <= p < |ports| :: |ports[p]| == |ports[0]|)
    && (forall p, i | 0 <= p < |ports| && 0 <= i < |ports[0]| :: SameMarks(ports[p][i].info, ports[0][i].info))
    && (forall i, j | 0 <= i < j < |ports[0]| :: ports[0][i].info.index < ports[0][j].info.index)
    && (forall i | 0 <= i < |ports[0]| - 1 :: !ports[0][i].info.isEnd)
    && (forall i | 0 <= i < |ports[0]| :: !(ports[0][i].info.isEnd && ports[0][i].info.isPlaceholder))
  }

  predicate SameMarks(a: IndexInfo, b: IndexInfo) {
    a.isEnd == b.isEnd && a.isPlaceholder == b.isPlaceholder
  }

  /** Blocks of this shape are what the matching of the node's ports releases: rows of the plan, by ascending
      index, whatever errors and payloads they carry. */
  lemma {:induction false} ReleasedIsMatched(cfg: StreamMatch.Config, plan: MatchRuns.Plan, names: seq<Port>, order: seq<nat>, ports: Block)
    requires MatchRuns.ValidPlan(cfg, plan) && names != [] && forall p | 0 <= p < |names| :: names[p] in cfg.ports
    requires forall p | p in cfg.ports :: !plan.At(p, plan.end).info.isPlaceholder
    requires forall j, k | 0 <= j < k < |order| :: order[j] < order[k]
    requires forall k | 0 <= k < |order| :: order[k] <= plan.end
    requires |ports| == |names| && forall p | 0 <= p < |ports| :: |ports[p]| == |order|
    requires forall p, k | 0 <= p < |ports| && 0 <= k < |order| ::
               ports[p][k].info == MatchRuns.PlanBuffer(cfg, plan, names[p], order[k]).info
    ensures Matched(ports)
  {
    forall p, k | 0 <= p < |ports| && 0 <= k < |order|
      ensures ports[p][k].info.index == order[k] && (ports[p][k].info.isEnd <==> order[k] == plan.end)
      ensures SameMarks(ports[p][k].info, ports[0][k].info)
      ensures !(ports[p][k].info.isEnd && ports[p][k].info.isPlaceholder)
    {
      MatchRuns.PlanRowUniform(cfg, plan, names[p], names[0], order[k]);
    }
    forall k | 0 <= k < |order| - 1 ensures !ports[0][k].info.isEnd {
      assert order[k] < order[|order| - 1];
    }
  }

  /** One erroneous port makes an erroneous row. */
  ghost function ClassAt(ports: Block, visible: bool, i: nat): Class
    requires Matched(ports) && i < |ports[0]|
  {
    if ports[0][i].info.isPlaceholder then Placeholder
    else if ports[0][i].info.isEnd then End
    else if exists p :: 0 <= p < |ports| && Own(ports[p][i], visible) == Error then Error
    else Valid
  }

  ghost function At(ports: Block, visible: bool, c: Class): set<nat>
    requires Matched(ports)
  {
    set i: nat | i < |ports[0]| && ClassAt(ports, visible, i) == c
  }

  function Positions(list: seq<Item>, visible: bool, c: Class): set<nat> {
    set i: nat | i < |list| && Own(list[i], visible) == c
  }

  method ScanPort(list: seq<Item>, visible: bool)
    returns (placeholder: seq<Item>, end: seq<Item>, errorAt: set<nat>, validAt: set<nat>)
    ensures placeholder == PickFrom(list, Positions(list, visible, Placeholder), 0)
    ensures end == PickFrom(list, Positions(list, visible, End), 0)
    ensures errorAt == Positions(list, visible, Error) && validAt == Positions(list, visible, Valid)
  {
    placeholder, end, errorAt, validAt := [], [], {}, {};
    ghost var pAt, eAt := Positions(list, visible, Placeholder), Positions(list, visible, End);
    PickedStart(list, pAt);
    PickedStart(list, eAt);
    for i := 0 to |list|
      invariant Picked(list, pAt, i, placeholder) && Picked(list, eAt, i, end)
      invariant forall k: nat :: k in errorAt <==> k < i && Own(list[k], visible) == Error
      invariant forall k: nat :: k in validAt <==> k < i && Own(list[k], visible) == Valid
    {
      PickedStep(list, pAt, i, placeholder);
      PickedStep(list, eAt, i, end);
      if list[i].info.isPlaceholder {
        placeholder := placeholder + [list[i]];
      } else if list[i].info.isEnd {
        end := end + [list[i]];
      } else if Skips(list[i], visible) {
        errorAt := errorAt + {i};
      } else {
        validAt := validAt + {i};
      }
    }
    PickedEnd(list, pAt, placeholder);
    PickedEnd(list, eAt, end);
  }

  method SplitPort(list: seq<Item>, errorAt: set<nat>, validAt: set<nat>) returns (error: seq<Item>, valid: seq<Item>)
    ensures error == PickFrom(list, errorAt, 0) && valid == PickFrom(list, validAt - errorAt, 0)
  {
    error, valid := [], [];
    ghost var vAt := validAt - errorAt;
    PickedStart(list, errorAt);
    PickedStart(list, vAt);
    for i := 0 to |list|
      invariant Picked(list, errorAt, i, error) && Picked(list, vAt, i, valid)
    {
      PickedStep(list, errorAt, i, error);
      PickedStep(list, vAt, i, valid);
      if i in errorAt {
        error := error + [list[i]];
      } else if i in validAt {
        valid := valid + [list[i]];
      }
    }
    PickedEnd(list, errorAt, error);
    PickedEnd(list, vAt, valid);
  }

  // ----- which rows count as errors, in terms of the items -----

  ghost predicate HasError(ports: Block, i: nat)
    requires Matched(ports) && i < |ports[0]|
  {
    exists p :: 0 <= p < |ports| && ports[p][i].error.Some?
  }

  /** Some port has an error from outside the stream. */
  ghost predicate HasOuterError(ports: Block, i: nat)
    requires Matched(ports) && i < |ports[0]|
  {
    exists p :: 0 <= p < |ports| && ports[p][i].error.Some? && ports[p][i].error.value.depth < Depth(ports[p][i].info)
  }

  /** A data row is an error row exactly when some port has an error, for a node that does not want errors;
      for one that does, exactly when some port has an error from outside the stream. */
  lemma {:induction false} ErrorRowIff(ports: Block, visible: bool, i: nat)
    requires Matched(ports) && i < |ports[0]| && !ports[0][i].info.isPlaceholder && !ports[0][i].info.isEnd
    ensures i in At(ports, visible, Error) <==> if visible then HasOuterError(ports, i) else HasError(ports, i)
    ensures i in At(ports, visible, Valid) <==> !(if visible then HasOuterError(ports, i) else HasError(ports, i))
  {
    assert forall p | 0 <= p < |ports| :: SameMarks(ports[p][i].info, ports[0][i].info);
    if HasOuterError(ports, i) {
      var p :| 0 <= p < |ports| && ports[p][i].error.Some? && ports[p][i].error.value.depth < Depth(ports[p][i].info);
      assert Own(ports[p][i], visible) == Error;
    }
    if HasError(ports, i) && !visible {
      var p :| 0 <= p < |ports| && ports[p][i].error.Some?;
      assert Own(ports[p][i], visible) == Error;
    }
  }

  /** An item the unit may be given as data: no error, or one of the stream that the node wants to see. */
  ghost predicate Presentable(it: Item, visible: bool) {
    it.error.Some? ==> visible && Depth(it.info) <= it.error.value.depth
  }

  lemma {:induction false} ValidItems(ports: Block, visible: bool, lists: Block)
    requires Matched(ports) && PicksAll(ports, At(ports, visible, Valid), lists, |ports|)
    ensures forall p, k | 0 <= p < |lists| && 0 <= k < |lists[p]| :: Presentable(lists[p][k], visible)
  {
    forall p, k | 0 <= p < |lists| && 0 <= k < |lists[p]| ensures Presentable(lists[p][k], visible) {
      var at := At(ports, visible, Valid);
      PickIs(ports[p], at, 0);
      var i := PosFrom(|ports[p]|, at, 0)[k];
      ErrorRowIff(ports, visible, i);
      assert lists[p][k] == ports[p][i];
    }
  }

  lemma {:induction false} NoErrorsNoPart(ports: Block, visible: bool, lists: Block)
    requires Matched(ports) && PicksAll(ports, At(ports, visible, Error), lists, |ports|)
    requires forall p, i | 0 <= p < |ports| && 0 <= i < |ports[p]| :: ports[p][i].error.None?
    ensures forall p | 0 <= p < |lists| :: lists[p] == []
  {
    forall p | 0 <= p < |lists| ensures lists[p] == [] {
      PickNone(ports[p], At(ports, visible, Error), 0);
    }
  }

  // ----- the whole block -----

  datatype Input = Input(valid: Block, error: Block, placeholder: Block, end: Block)

  ghost predicate PicksAll(ports: Block, at: set<nat>, lists: Block, n: nat) {
    |lists| == n <= |ports| && forall p | 0 <= p < n :: lists[p] == PickFrom(ports[p], at, 0)
  }

  ghost predicate UnionTo(ports: Block, visible: bool, c: Class, n: nat, at: set<nat>) {
    n <= |ports| && forall k: nat :: k in at <==> exists p :: 0 <= p < n && k in Positions(ports[p], visible, c)
  }

  lemma {:induction false} UnionStep(ports: Block, visible: bool, c: Class, n: nat, at: set<nat>)
    requires UnionTo(ports, visible, c, n, at) && n < |ports|
    ensures UnionTo(ports, visible, c, n + 1, at + Positions(ports[n], visible, c))
  {
    forall k: nat | k in at ensures exists p :: 0 <= p < n + 1 && k in Positions(ports[p], visible, c) {
      var p :| 0 <= p < n && k in Positions(ports[p], visible, c);
    }
  }

  /** Placeholders and end flags stand in the same places on every port. */
  lemma {:induction false} MarksAgree(ports: Block, visible: bool, p: nat)
    requires Matched(ports) && p < |ports|
    ensures Positions(ports[p], visible, Placeholder) == At(ports, visible, Placeholder)
    ensures Positions(ports[p], visible, End) == At(ports, visible, End)
  {
    forall i: nat ensures i in Positions(ports[p], visible, Placeholder) <==> i in At(ports, visible, Placeholder)
      ensures i in Positions(ports[p], visible, End) <==> i in At(ports, visible, End)
    {
      if i < |ports[0]| { assert SameMarks(ports[p][i].info, ports[0][i].info); }
    }
  }

  lemma {:induction false} KindsAgree(ports: Block, visible: bool, errorAt: set<nat>, validAt: set<nat>)
    requires Matched(ports)
    requires UnionTo(ports, visible, Error, |ports|, errorAt) && UnionTo(ports, visible, Valid, |ports|, validAt)
    ensures errorAt == At(ports, visible, Error) && validAt - errorAt == At(ports, visible, Valid)
  {
    forall i: nat ensures i in errorAt <==> i in At(ports, visible, Error)
      ensures i in validAt - errorAt <==> i in At(ports, visible, Valid)
    {
      if i < |ports[0]| {
        PositionKinds(ports, visible, i);
      }
    }
  }

  lemma {:induction false} PositionKinds(ports: Block, visible: bool, i: nat)
    requires Matched(ports) && i < |ports[0]|
    ensures (exists p :: 0 <= p < |ports| && i in Positions(ports[p], visible, Error)) <==> i in At(ports, visible, Error)
    ensures (exists p :: 0 <= p < |ports| && i in Positions(ports[p], visible, Valid)) && i !in At(ports, visible, Error)
            <==> i in At(ports, visible, Valid)
  {
    assert forall p | 0 <= p < |ports| :: SameMarks(ports[p][i].info, ports[0][i].info);
    if ClassAt(ports, visible, i) == Error {
      var p :| 0 <= p < |ports| && Own(ports[p][i], visible) == Error;
      assert i in Positions(ports[p], visible, Error);
    } else if ClassAt(ports, visible, i) == Valid {
      assert Own(ports[0][i], visible) != Error;
      assert i in Positions(ports[0], visible, Valid);
    }
  }

  /** The two passes over the block.  Each part is the same set of positions on every port: a row stays a
      row, also where only one port carries an error. */
  method SetCurrentInputData(ports: Block, visible: bool) returns (input: Input)
    requires Matched(ports)
    ensures PicksAll(ports, At(ports, visible, Valid), input.valid, |ports|)
    ensures PicksAll(ports, At(ports, visible, Error), input.error, |ports|)
    ensures PicksAll(ports, At(ports, visible, Placeholder), input.placeholder, |ports|)
    ensures PicksAll(ports, At(ports, visible, End), input.end, |ports|)
    ensures forall p, k | 0 <= p < |ports| && 0 <= k < |input.valid[p]| :: Presentable(input.valid[p][k], visible)
  {
    var placeholder, end, errorAt, validAt := ScanPorts(ports, visible);
    KindsAgree(ports, visible, errorAt, validAt);
    var error, valid: Block := [], [];
    for p := 0 to |ports|
      invariant PicksAll(ports, errorAt, error, p) && PicksAll(ports, validAt - errorAt, valid, p)
    {
      var e, v := SplitPort(ports[p], errorAt, validAt);
      error, valid := error + [e], valid + [v];
    }
    input := Input(valid, error, placeholder, end);
    ValidItems(ports, visible, valid);
  }

  lemma {:induction false} PicksStep(ports: Block, at: set<nat>, lists: Block, n: nat, list: seq<Item>)
    requires PicksAll(ports, at, lists, n) && n < |ports| && list == PickFrom(ports[n], at, 0)
    ensures PicksAll(ports, at, lists + [list], n + 1)
  {
  }

  method ScanPorts(ports: Block, visible: bool)
    returns (placeholder: Block, end: Block, errorAt: set<nat>, validAt: set<nat>)
    requires Matched(ports)
    ensures PicksAll(ports, At(ports, visible, Placeholder), placeholder, |ports|)
    ensures PicksAll(ports, At(ports, visible, End), end, |ports|)
    ensures UnionTo(ports, visible, Error, |ports|, errorAt) && UnionTo(ports, visible, Valid, |ports|, validAt)
  {
    placeholder, end, errorAt, validAt := [], [], {}, {};
    for p := 0 to |ports|
      invariant PicksAll(ports, At(ports, visible, Placeholder), placeholder, p)
      invariant PicksAll(ports, At(ports, visible, End), end, p)
      invariant UnionTo(ports, visible, Error, p, errorAt) && UnionTo(ports, visible, Valid, p, validAt)
    {
      MarksAgree(ports, visible, p);
      UnionStep(ports, visible, Error, p, errorAt);
      UnionStep(ports, visible, Valid, p, validAt);
      var ph, en, e, v := ScanPort(ports[p], visible);
      PicksStep(ports, At(ports, visible, Placeholder), placeholder, p, ph);
      PicksStep(ports, At(ports, visible, End), end, p, en);
      placeholder, end := placeholder + [ph], end + [en];
      errorAt, validAt := errorAt + e, validAt + v;
    }
  }

  // ----- the outputs -----

  /** The error of the first input port that has one at position `k`. */
  function FirstError(lists: Block, k: nat, p: nat): Option<DataError>
    decreases |lists| - p
  {
    if p >= |lists| then None
    else if k < |lists[p]| && lists[p][k].error.Some? then lists[p][k].error
    else FirstError(lists, k, p + 1)
  }

  /** It is that port's error, and there is none exactly if no port has one. */
  lemma {:induction false} FirstErrorIs(lists: Block, k: nat, p: nat)
    requires p < |lists| && k < |lists[p]| && lists[p][k].error.Some?
    requires forall q | 0 <= q < p :: k < |lists[q]| ==> lists[q][k].error.None?
    ensures FirstError(lists, k, 0) == lists[p][k].error
  {
    FirstErrorFrom(lists, k, p, 0);
  }

  lemma {:induction false} FirstErrorFrom(lists: Block, k: nat, p: nat, from: nat)
    requires from <= p < |lists| && k < |lists[p]| && lists[p][k].error.Some?
    requires forall q | from <= q < p :: k < |lists[q]| ==> lists[q][k].error.None?
    ensures FirstError(lists, k, from) == lists[p][k].error
    decreases p - from
  {
    if from < p { FirstErrorFrom(lists, k, p, from + 1); }
  }

  function ErrorBody(e: Option<DataError>): Body {
    if e.Some? then Failed(e.value) else Empty
  }

  /** What the output for row `i` has to carry: its own result, the error of the row, or nothing. */
  ghost function RowBody(ports: Block, visible: bool, results: seq<Body>, i: nat): Body
    requires Matched(ports) && i < |ports[0]|
  {
    match ClassAt(ports, visible, i)
    case Valid =>
      var r := Rank(At(ports, visible, Valid), i);
      if r < |results| then results[r] else Empty
    case Error => ErrorBody(FirstError(ports, i, 0))
    case Placeholder => Empty
    case End => Empty
  }

  ghost function RowOutput(ports: Block, visible: bool, results: seq<Body>, i: nat): Pending
    requires Matched(ports) && i < |ports[0]|
  {
    Pending(ports[0][i].info, RowBody(ports, visible, results, i))
  }

  ghost function Rows(ports: Block, visible: bool, results: seq<Body>): seq<Pending>
    requires Matched(ports)
  {
    seq(|ports[0]|, i requires 0 <= i < |ports[0]| => RowOutput(ports, visible, results, i))
  }

  method SaveProcessOneToOne(valid: seq<Item>, results: seq<Body>) returns (outs: seq<Pending>)
    requires |valid| == |results|
    ensures |outs| == |valid| && forall k | 0 <= k < |valid| :: outs[k] == Pending(valid[k].info, results[k])
  {
    outs := [];
    for k := 0 to |valid|
      invariant |outs| == k && forall j | 0 <= j < k :: outs[j] == Pending(valid[j].info, results[j])
    {
      outs := outs + [Pending(valid[k].info, results[k])];
    }
  }

  method FillPlaceholderOutput(placeholder: seq<Item>) returns (outs: seq<Pending>)
    ensures |outs| == |placeholder| && forall k | 0 <= k < |placeholder| :: outs[k] == Pending(placeholder[k].info, Empty)
  {
    outs := [];
    for k := 0 to |placeholder|
      invariant |outs| == k && forall j | 0 <= j < k :: outs[j] == Pending(placeholder[j].info, Empty)
    {
      outs := outs + [Pending(placeholder[k].info, Empty)];
    }
  }

  method FindError(lists: Block, k: nat) returns (e: Option<DataError>)
    requires forall p | 0 <= p < |lists| :: k < |lists[p]|
    ensures e == FirstError(lists, k, 0)
  {
    for p := 0 to |lists|
      invariant FirstError(lists, k, 0) == FirstError(lists, k, p)
    {
      if lists[p][k].error.Some? {
        return lists[p][k].error;
      }
    }
    e := None;
  }

  method FillErrorOutput(error: Block) returns (outs: seq<Pending>)
    requires error != [] && forall p | 0 <= p < |error| :: |error[p]| == |error[0]|
    ensures |outs| == |error[0]|
    ensures forall k | 0 <= k < |outs| :: outs[k] == Pending(error[0][k].info, ErrorBody(FirstError(error, k, 0)))
  {
    outs := [];
    for k := 0 to |error[0]|
      invariant |outs| == k
      invariant forall j | 0 <= j < k :: outs[j] == Pending(error[0][j].info, ErrorBody(FirstError(error, j, 0)))
    {
      var e := FindError(error, k);
      outs := outs + [Pending(error[0][k].info, ErrorBody(e))];
    }
  }

  // ----- each part is its rows -----

  lemma {:induction false} SameError(ports: Block, at: set<nat>, lists: Block, k: nat, p: nat)
    requires Matched(ports) && PicksAll(ports, at, lists, |ports|) && k < |PosFrom(|ports[0]|, at, 0)|
    ensures FirstError(lists, k, p) == FirstError(ports, PosFrom(|ports[0]|, at, 0)[k], p)
    decreases |ports| - p
  {
    if p < |ports| {
      PickIs(ports[p], at, 0);
      SameError(ports, at, lists, k, p + 1);
    }
  }

  /** A list of outputs is a part of the rows when its k-th element is the row at the k-th position. */
  lemma {:induction false} PartOf(rows: seq<Pending>, at: set<nat>, outs: seq<Pending>)
    requires |outs| == |PosFrom(|rows|, at, 0)|
    requires forall k | 0 <= k < |outs| :: PosFrom(|rows|, at, 0)[k] < |rows| && outs[k] == rows[PosFrom(|rows|, at, 0)[k]]
    ensures outs == PickFrom(rows, at, 0)
  {
    PickIs(rows, at, 0);
  }

  lemma {:induction false} ValidPart(ports: Block, visible: bool, results: seq<Body>, valid: seq<Item>, outs: seq<Pending>)
    requires Matched(ports) && valid == PickFrom(ports[0], At(ports, visible, Valid), 0) && |results| == |valid| == |outs|
    requires forall k | 0 <= k < |valid| :: outs[k] == Pending(valid[k].info, results[k])
    ensures outs == PickFrom(Rows(ports, visible, results), At(ports, visible, Valid), 0)
  {
    var rows, at := Rows(ports, visible, results), At(ports, visible, Valid);
    PickIs(ports[0], at, 0);
    var pos := PosFrom(|rows|, at, 0);
    forall k | 0 <= k < |outs| ensures pos[k] < |rows| && outs[k] == rows[pos[k]] {
      RankOfPos(|rows|, at, 0, k);
      assert rows[pos[k]] == RowOutput(ports, visible, results, pos[k]);
    }
    PartOf(rows, at, outs);
  }

  lemma {:induction false} PlaceholderPart(ports: Block, visible: bool, results: seq<Body>, list: seq<Item>, outs: seq<Pending>)
    requires Matched(ports) && list == PickFrom(ports[0], At(ports, visible, Placeholder), 0) && |outs| == |list|
    requires forall k | 0 <= k < |list| :: outs[k] == Pending(list[k].info, Empty)
    ensures outs == PickFrom(Rows(ports, visible, results), At(ports, visible, Placeholder), 0)
  {
    var rows, at := Rows(ports, visible, results), At(ports, visible, Placeholder);
    PickIs(ports[0], at, 0);
    var pos := PosFrom(|rows|, at, 0);
    forall k | 0 <= k < |outs| ensures pos[k] < |rows| && outs[k] == rows[pos[k]] {
      assert rows[pos[k]] == RowOutput(ports, visible, results, pos[k]);
    }
    PartOf(rows, at, outs);
  }

  lemma {:induction false} ErrorPart(ports: Block, visible: bool, results: seq<Body>, lists: Block, outs: seq<Pending>)
    requires Matched(ports) && PicksAll(ports, At(ports, visible, Error), lists, |ports|) && |outs| == |lists[0]|
    requires forall k | 0 <= k < |outs| :: outs[k] == Pending(lists[0][k].info, ErrorBody(FirstError(lists, k, 0)))
    ensures outs == PickFrom(Rows(ports, visible, results), At(ports, visible, Error), 0)
  {
    var rows, at := Rows(ports, visible, results), At(ports, visible, Error);
    PickIs(ports[0], at, 0);
    var pos := PosFrom(|rows|, at, 0);
    forall k | 0 <= k < |outs| ensures pos[k] < |rows| && outs[k] == rows[pos[k]] {
      SameError(ports, at, lists, k, 0);
      assert rows[pos[k]] == RowOutput(ports, visible, results, pos[k]);
    }
    PartOf(rows, at, outs);
  }

  // ----- merged back -----

  ghost predicate HasEnd(ports: Block)
    requires Matched(ports)
  {
    |ports[0]| > 0 && ports[0][|ports[0]| - 1].info.isEnd
  }

  ghost function DataRows(ports: Block): nat
    requires Matched(ports)
  {
    if HasEnd(ports) then |ports[0]| - 1 else |ports[0]|
  }

  lemma {:induction false} RowsAscend(ports: Block, visible: bool, results: seq<Body>)
    requires Matched(ports)
    ensures Ascending(Rows(ports, visible, results))
  {
  }

  lemma {:induction false} Covered(ports: Block, visible: bool, k: nat)
    requires Matched(ports) && k < |ports[0]|
    ensures k in At(ports, visible, Valid) + At(ports, visible, Placeholder) + At(ports, visible, Error)
            <==> k < DataRows(ports)
  {
    assert ClassAt(ports, visible, k) == End <==> ports[0][k].info.isEnd;
  }

  lemma {:induction false} PartsDisjoint(ports: Block, visible: bool)
    requires Matched(ports)
    ensures At(ports, visible, Valid) !! At(ports, visible, Placeholder)
    ensures At(ports, visible, Valid) + At(ports, visible, Placeholder) !! At(ports, visible, Error)
  {
  }

  lemma {:induction false} MergedBack(ports: Block, visible: bool, results: seq<Body>)
    requires Matched(ports)
    ensures var rows := Rows(ports, visible, results);
            Merge(Merge(PickFrom(rows, At(ports, visible, Valid), 0), PickFrom(rows, At(ports, visible, Placeholder), 0)),
                  PickFrom(rows, At(ports, visible, Error), 0))
            == rows[..DataRows(ports)]
  {
    var rows := Rows(ports, visible, results);
    var v, p, e := At(ports, visible, Valid), At(ports, visible, Placeholder), At(ports, visible, Error);
    RowsAscend(ports, visible, results);
    PartsDisjoint(ports, visible);
    MergeParts(rows, v, p, 0);
    MergeParts(rows, v + p, e, 0);
    forall k: nat | k < |rows| ensures k in v + p + e <==> k < DataRows(ports) {
      Covered(ports, visible, k);
    }
    PickInitial(rows, v + p + e, 0, DataRows(ports));
  }

  // ----- index info -----

  datatype Out = Out(info: IndexInfo, body: Body)

  /** An error, the node's own or one passed on, gets the depth of the stream it goes out on. */
  function AtDepth(info: IndexInfo, body: Body): Body {
    if body.Failed? && info.inherit.Inherit? then Failed(body.error.(depth := info.inherit.depth)) else body
  }

  /** Index and inherit info are copied from the parent. */
  function Stamp(p: Pending): Out {
    Out(IndexInfo(p.parent.index, false, p.body.Empty?, p.parent.inherit), AtDepth(p.parent, p.body))
  }

  method UpdateOutputIndexInfo(pending: seq<Pending>) returns (outs: seq<Out>)
    ensures |outs| == |pending| && forall k | 0 <= k < |outs| :: outs[k] == Stamp(pending[k])
  {
    outs := [];
    for k := 0 to |pending|
      invariant |outs| == k && forall j | 0 <= j < k :: outs[j] == Stamp(pending[j])
    {
      outs := outs + [Stamp(pending[k])];
    }
  }

  ghost function OutBody(ports: Block, visible: bool, results: seq<Body>, i: nat): Body
    requires Matched(ports) && i < |ports[0]|
  {
    AtDepth(ports[0][i].info, RowBody(ports, visible, results, i))
  }

  /** Every row comes out where it went in: same index, flags and ancestry, carrying its own result. */
  ghost predicate OneToOne(ports: Block, visible: bool, results: seq<Body>, outs: seq<Out>)
    requires Matched(ports)
  {
    |outs| == |ports[0]|
    && forall i | 0 <= i < |outs| :: outs[i] == Out(ports[0][i].info, OutBody(ports, visible, results, i))
  }

  lemma {:induction false} RowStamp(ports: Block, visible: bool, results: seq<Body>, i: nat)
    requires Matched(ports) && i < DataRows(ports) && |results| == |PosFrom(|ports[0]|, At(ports, visible, Valid), 0)|
    requires forall k | 0 <= k < |results| :: results[k] != Empty
    ensures Stamp(RowOutput(ports, visible, results, i)) == Out(ports[0][i].info, OutBody(ports, visible, results, i))
  {
    match ClassAt(ports, visible, i)
    case Valid =>
      RankBelow(|ports[0]|, At(ports, visible, Valid), 0, i);
    case Error =>
      var p :| 0 <= p < |ports| && Own(ports[p][i], visible) == Error;
      ErrorFound(ports, i, p, 0);
    case Placeholder =>
    case End =>
  }

  /** So an error from outside is skipped once: it goes out as one of this depth, which a node that wants
      errors looks at. */
  lemma {:induction false} ErrorsComeOutLocal(ports: Block, visible: bool, results: seq<Body>, outs: seq<Out>, i: nat, data: int)
    requires Matched(ports) && OneToOne(ports, visible, results, outs) && i < |outs|
    requires outs[i].body.Failed? && ports[0][i].info.inherit.Inherit?
    ensures !Skips(Item(outs[i].info, Some(outs[i].body.error), data), true)
    ensures ClassAt(ports, visible, i) == Error ==>
              var e := FirstError(ports, i, 0);
              e.Some? && outs[i].body.error == e.value.(depth := ports[0][i].info.inherit.depth)
  {
    assert outs[i] == Out(ports[0][i].info, OutBody(ports, visible, results, i));
  }

  lemma {:induction false} RankBelow(n: nat, at: set<nat>, i: nat, j: nat)
    requires i <= j < n && j in at
    ensures Rank(at, i) <= Rank(at, j) < Rank(at, i) + |PosFrom(n, at, i)|
    decreases n - i
  {
    if i < j { RankBelow(n, at, i + 1, j); }
  }

  lemma {:induction false} ErrorFound(ports: Block, i: nat, p: nat, from: nat)
    requires from <= p < |ports| && i < |ports[p]| && ports[p][i].error.Some?
    ensures FirstError(ports, i, from).Some?
    decreases p - from
  {
    if from < p { ErrorFound(ports, i, p, from + 1); }
  }

  lemma {:induction false} EndPart(ports: Block, visible: bool)
    requires Matched(ports)
    ensures PickFrom(ports[0], At(ports, visible, End), 0) == ports[0][DataRows(ports)..]
  {
    var at := At(ports, visible, End);
    forall k: nat | k < |ports[0]| ensures k in at <==> k >= DataRows(ports) {
      assert ClassAt(ports, visible, k) == End <==> ports[0][k].info.isEnd;
    }
    PickFinal(ports[0], at, 0, DataRows(ports));
  }

  lemma {:induction false} PickFinal<T>(list: seq<T>, at: set<nat>, i: nat, m: nat)
    requires i <= |list| && m <= |list| && forall k: nat | i <= k < |list| :: k in at <==> k >= m
    ensures PickFrom(list, at, i) == list[if i < m then m else i..]
    decreases |list| - i
  {
    if i < |list| { PickFinal(list, at, i + 1, m); }
  }

  /** The node's outputs on one output port, from the results the unit gave for the valid rows. */
  method PostProcess(ports: Block, visible: bool, input: Input, results: seq<Body>) returns (outs: seq<Out>)
    requires Matched(ports)
    requires PicksAll(ports, At(ports, visible, Valid), input.valid, |ports|)
    requires PicksAll(ports, At(ports, visible, Error), input.error, |ports|)
    requires PicksAll(ports, At(ports, visible, Placeholder), input.placeholder, |ports|)
    requires PicksAll(ports, At(ports, visible, End), input.end, |ports|)
    requires |results| == |input.valid[0]| && forall k | 0 <= k < |results| :: results[k] != Empty
    ensures OneToOne(ports, visible, results, outs)
  {
    var merged := GenerateOutput(ports, visible, input, results);
    outs := UpdateOutputIndexInfo(merged);
    PickIs(ports[0], At(ports, visible, Valid), 0);
    forall i | 0 <= i < |outs| ensures outs[i] == Out(ports[0][i].info, OutBody(ports, visible, results, i)) {
      RowStamp(ports, visible, results, i);
    }
    EndPart(ports, visible);
    if input.end[0] != [] {
      var parent := input.end[0][0].info;
      outs := outs + [Out(IndexInfo(parent.index, true, false, parent.inherit), Empty)];
    }
  }

  method GenerateOutput(ports: Block, visible: bool, input: Input, results: seq<Body>) returns (merged: seq<Pending>)
    requires Matched(ports)
    requires PicksAll(ports, At(ports, visible, Valid), input.valid, |ports|)
    requires PicksAll(ports, At(ports, visible, Error), input.error, |ports|)
    requires PicksAll(ports, At(ports, visible, Placeholder), input.placeholder, |ports|)
    requires |results| == |input.valid[0]|
    ensures merged == Rows(ports, visible, results)[..DataRows(ports)]
  {
    var placeholder := FillPlaceholderOutput(input.placeholder[0]);
    PlaceholderPart(ports, visible, results, input.placeholder[0], placeholder);
    SameLengths(ports, At(ports, visible, Error), input.error);
    var error := FillErrorOutput(input.error);
    ErrorPart(ports, visible, results, input.error, error);
    var valid := SaveProcessOneToOne(input.valid[0], results);
    ValidPart(ports, visible, results, input.valid[0], valid);
    MergedBack(ports, visible, results);
    merged := Merge(Merge(valid, placeholder), error);
  }

  lemma {:induction false} SameLengths(ports: Block, at: set<nat>, lists: Block)
    requires Matched(ports) && PicksAll(ports, at, lists, |ports|)
    ensures forall p | 0 <= p < |lists| :: |lists[p]| == |lists[0]|
  {
    forall p | 0 <= p < |lists| ensures |lists[p]| == |lists[0]| {
      PickIs(ports[p], at, 0);
      PickIs(ports[0], at, 0);
    }
  }
}
