/** Every run of arrivals and pops on one stream's match cache.

    A `Plan` is what the stream carries: on each port, buffers 0..end, the last one the end
    flag.  Arrivals bring the plan's buffers in any interleaving; a port that rejoins if/else
    branches gets its end flag once per branch.  */
module MatchRuns {
  import opened Basics
  import opened Buffers
  import opened StreamMatch

  datatype Plan = Plan(end: nat, rows: map<Port, seq<Buffer>>) {
    /** Buffer i of port p (an arbitrary buffer where the plan has none). */
    function At(p: Port, i: nat): Buffer {
      if p in rows && i < |rows[p]| then rows[p][i] else Buffer(IndexInfo(i, false, false, NoInherit), 0)
    }
  }

  ghost predicate ValidPlan(cfg: Config, plan: Plan) {
    && cfg.ports != {}
    && plan.rows.Keys == cfg.ports
    && (forall p | p in cfg.ports :: |plan.rows[p]| == plan.end + 1)
    && (forall p, i | p in cfg.ports && 0 <= i <= plan.end ::
          plan.At(p, i).info.index == i && (plan.At(p, i).info.isEnd <==> i == plan.end))
  }

  datatype Action = Arrive(port: Port, buffer: Buffer) | PopNow

  datatype Mode = Mode(inOrder: bool, gatherAll: bool)

  /** The cache, what arrived, the indices popped so far and the buffers released on each port. */
  datatype Sys = Sys(cache: CacheState, got: multiset<(Port, nat)>, order: seq<nat>,
                     out: map<Port, seq<Buffer>>, faulted: bool)

  function Indices(taken: seq<(nat, Entry)>): seq<nat> {
    seq(|taken|, k requires 0 <= k < |taken| => taken[k].0)
  }

  function Extend(out: map<Port, seq<Buffer>>, lists: map<Port, seq<Buffer>>): map<Port, seq<Buffer>> {
    map p | p in out :: out[p] + (if p in lists then lists[p] else [])
  }

  function Init(cfg: Config): Sys {
    Sys(EMPTY_CACHE, multiset{}, [], map p | p in cfg.ports :: [], false)
  }

  /** The index a buffer on port p counts for: its own where at most one upstream port feeds p; where
      several do, the one it had before the split. */
  function MatchIndex(cfg: Config, p: Port, b: Buffer): nat {
    if cfg.StreamCount(p) <= 1 || b.info.inherit.NoInherit? then b.info.index else b.info.inherit.from.index
  }

  function Step(cfg: Config, mode: Mode, s: Sys, a: Action): Sys {
    match a
    case Arrive(p, b) =>
      var (st, c) := CacheIn(cfg, s.cache, p, b);
      s.(cache := c, got := s.got + multiset{(p, MatchIndex(cfg, p, b))}, faulted := s.faulted || st.Fault?)
    case PopNow =>
      var (lists, c) := Pop(s.cache, mode.inOrder, mode.gatherAll);
      if lists.None? then s
      else s.(cache := c,
              order := s.order + Indices(PopOrder(s.cache.ready, s.cache.next, mode.inOrder)),
              out := Extend(s.out, lists.value))
  }

  function Run(cfg: Config, mode: Mode, acts: seq<Action>): Sys {
    if acts == [] then Init(cfg) else Step(cfg, mode, Run(cfg, mode, acts[..|acts| - 1]), acts[|acts| - 1])
  }

  /** How often (port, index) is delivered in all. */
  function Need(cfg: Config, plan: Plan, p: Port, i: nat): nat {
    if i == plan.end && cfg.StreamCount(p) > 1 then cfg.StreamCount(p) else 1
  }

  /** The buffer is the plan's: as it comes on a port with one feed, and with the index info from before
      the split on a port that rejoins branches. */
  ghost predicate FromPlan(cfg: Config, plan: Plan, a: Action) {
    a.Arrive? ==>
      && a.port in cfg.ports
      && if cfg.StreamCount(a.port) <= 1 then OfPlan(plan, a.port, a.buffer)
         else a.buffer.info.inherit.Inherit? && OfPlan(plan, a.port, a.buffer.(info := a.buffer.info.inherit.from))
  }

  ghost predicate OfPlan(plan: Plan, p: Port, b: Buffer) {
    b.info.index <= plan.end && b == plan.At(p, b.info.index)
  }

  ghost predicate WithinNeed(cfg: Config, plan: Plan, got: multiset<(Port, nat)>) {
    forall p, i: nat | p in cfg.ports :: got[(p, i)] <= Need(cfg, plan, p, i)
  }

  /** The actions bring only the plan's buffers, none more often than the plan has it. */
  ghost predicate Legal(cfg: Config, plan: Plan, acts: seq<Action>) {
    && ValidPlan(cfg, plan)
    && (forall k | 0 <= k < |acts| :: FromPlan(cfg, plan, acts[k]))
    && WithinNeed(cfg, plan, Delivered(cfg, acts))
  }

  function Delivered(cfg: Config, acts: seq<Action>): multiset<(Port, nat)> {
    if acts == [] then multiset{}
    else
      var a := acts[|acts| - 1];
      Delivered(cfg, acts[..|acts| - 1]) +
      (if a.Arrive? then multiset{(a.port, MatchIndex(cfg, a.port, a.buffer))} else multiset{})
  }

  /** Everything the plan holds has been delivered. */
  ghost predicate AllDelivered(cfg: Config, plan: Plan, got: multiset<(Port, nat)>) {
    forall i: nat | i <= plan.end :: Complete(cfg, plan, got, i)
  }

  ghost predicate Complete(cfg: Config, plan: Plan, got: multiset<(Port, nat)>, i: nat) {
    forall p | p in cfg.ports :: Need(cfg, plan, p, i) <= got[(p, i)]
  }

  ghost predicate Touched(cfg: Config, got: multiset<(Port, nat)>, i: nat) {
    exists p | p in cfg.ports :: 0 < got[(p, i)]
  }

  /** Row i as the node receives it. */
  ghost function PlanBuffer(cfg: Config, plan: Plan, p: Port, i: nat): Buffer {
    if exists q | q in cfg.ports :: plan.At(q, i).info.isPlaceholder
    then MarkAsPlaceholder(plan.At(p, i))
    else plan.At(p, i)
  }

  ghost function PlanBuffers(cfg: Config, plan: Plan, p: Port, order: seq<nat>): seq<Buffer> {
    seq(|order|, k requires 0 <= k < |order| => PlanBuffer(cfg, plan, p, order[k]))
  }

  // ----- the invariant -----

  /** The entry holds what was got for row i, port by port. */
  ghost predicate EntryHolds(cfg: Config, plan: Plan, got: multiset<(Port, nat)>, i: nat, e: Entry) {
    && e.buffers.Keys == e.counts.Keys
    && e.buffers.Keys <= cfg.ports
    && (forall p | p in cfg.ports :: p in e.buffers.Keys <==> 0 < got[(p, i)])
    && (forall p | p in e.buffers.Keys :: e.buffers[p] == plan.At(p, i) && e.counts[p] == got[(p, i)])
  }

  ghost predicate EntryOk(cfg: Config, plan: Plan, got: multiset<(Port, nat)>, i: nat, e: Entry) {
    && i <= plan.end
    && EntryHolds(cfg, plan, got, i, e)
    && (e.buffers != map[] ==> (e.isEnd <==> i == plan.end))
    && (e.isPlaceholder <==> exists p | p in e.buffers.Keys :: plan.At(p, i).info.isPlaceholder)
  }

  ghost function CompleteRows(cfg: Config, plan: Plan, got: multiset<(Port, nat)>): set<nat> {
    set i: nat | i <= plan.end && Complete(cfg, plan, got, i)
  }

  ghost function TouchedRows(cfg: Config, plan: Plan, got: multiset<(Port, nat)>): set<nat> {
    set i: nat | i <= plan.end && Touched(cfg, got, i)
  }

  ghost predicate EntriesOk(cfg: Config, plan: Plan, got: multiset<(Port, nat)>, m: map<nat, Entry>) {
    forall i | i in m :: EntryOk(cfg, plan, got, i, m[i])
  }

  /** Touched rows are pending until complete, then ready until popped. */
  ghost predicate KeysOk(touched: set<nat>, complete: set<nat>, order: set<nat>, end: nat, c: CacheState) {
    && c.pending.Keys == touched - complete
    && c.ready.Keys !! order
    && c.ready.Keys + order == complete
    && c.cur == |complete|
    && (c.endReceived <==> end in complete)
    && c.total == (if c.endReceived then end + 1 else 0)
  }

  ghost predicate HeldOk(cfg: Config, plan: Plan, got: multiset<(Port, nat)>, order: set<nat>, c: CacheState) {
    && KeysOk(TouchedRows(cfg, plan, got), CompleteRows(cfg, plan, got), order, plan.end, c)
    && EntriesOk(cfg, plan, got, c.pending)
    && EntriesOk(cfg, plan, got, c.ready)
  }

  ghost predicate GotOk(cfg: Config, plan: Plan, got: multiset<(Port, nat)>) {
    && WithinNeed(cfg, plan, got)
    && forall p, i: nat :: 0 < got[(p, i)] ==> p in cfg.ports && i <= plan.end
  }

  ghost predicate OutOk(cfg: Config, plan: Plan, order: seq<nat>, out: map<Port, seq<Buffer>>) {
    && (forall k | 0 <= k < |order| :: order[k] <= plan.end)
    && out.Keys == cfg.ports
    && forall p | p in cfg.ports :: out[p] == PlanBuffers(cfg, plan, p, order)
  }

  ghost predicate Distinct(s: seq<nat>) {
    forall j, k | 0 <= j < k < |s| :: s[j] != s[k]
  }

  ghost predicate Inv(cfg: Config, plan: Plan, mode: Mode, s: Sys) {
    && !s.faulted
    && GotOk(cfg, plan, s.got)
    && HeldOk(cfg, plan, s.got, Elems(s.order), s.cache)
    && OutOk(cfg, plan, s.order, s.out)
    && Distinct(s.order)
    && |s.order| == s.cache.next
    && (mode.inOrder ==> forall k | 0 <= k < |s.order| :: s.order[k] == k)
    && (mode.gatherAll ==> s.order == [] || |s.order| == plan.end + 1)
  }

  // ----- arrivals -----

  /** Outside index i the two caches hold the same. */
  ghost predicate ChangesOnly(c: CacheState, c': CacheState, i: nat) {
    && (forall j | j != i :: (j in c'.pending <==> j in c.pending) && (j in c'.ready <==> j in c.ready))
    && (forall j | j != i && j in c.pending :: c'.pending[j] == c.pending[j])
    && (forall j | j != i && j in c.ready :: c'.ready[j] == c.ready[j])
  }

  /** The entry for index i, half matched or matched, has buffer b on port p. */
  ghost predicate HoldsAt(c: CacheState, i: nat, p: Port, b: Buffer) {
    var m := if i in c.pending then c.pending else c.ready;
    i in m && p in m[i].buffers && m[i].buffers[p] == b
  }

  /** Where a buffer goes: on a port with at most one feed to the entry of its own index, as it is; on a
      port with more to the entry of the index before the split, with the index info from there.
      Nothing else changes. */
  lemma {:induction false} ArrivalPlace(cfg: Config, c: CacheState, p: Port, b: Buffer)
    requires !CacheIn(cfg, c, p, b).0.Fault?
    ensures var c' := CacheIn(cfg, c, p, b).1;
            if cfg.StreamCount(p) <= 1 then ChangesOnly(c, c', b.info.index) && HoldsAt(c', b.info.index, p, b)
            else b.info.inherit.Inherit? ==>
              var from := b.info.inherit.from;
              ChangesOnly(c, c', from.index) && HoldsAt(c', from.index, p, b.(info := from))
  {
    var eb := Effective(cfg, p, b);
    EntryPlace(cfg, c, p, eb);
  }

  lemma {:induction false} EntryPlace(cfg: Config, c: CacheState, p: Port, b: Buffer)
    ensures var e := CacheInEntry(EntryFor(c, b.info.index), p, b);
            !e.0.Fault? ==>
              && HoldsAt(c.(pending := c.pending[b.info.index := e.1]), b.info.index, p, b)
              && ChangesOnly(c, c.(pending := c.pending[b.info.index := e.1]), b.info.index)
              && HoldsAt(AddReady(c, b.info.index, e.1), b.info.index, p, b)
              && ChangesOnly(c, AddReady(c, b.info.index, e.1), b.info.index)
  {
  }

  /** What the cache goes by is what the plan counts by. */
  lemma {:induction false} EffectiveOfPlan(cfg: Config, plan: Plan, p: Port, raw: Buffer)
    requires FromPlan(cfg, plan, Arrive(p, raw))
    ensures p in cfg.ports && OfPlan(plan, p, Effective(cfg, p, raw))
    ensures Effective(cfg, p, raw).info.index == MatchIndex(cfg, p, raw)
  {
    var a := Arrive(p, raw);
    assert FromPlan(cfg, plan, a) && a.port == p && a.buffer == raw;
  }

  lemma {:induction false} EntryHoldsArrival(cfg: Config, plan: Plan, got: multiset<(Port, nat)>, e: Entry, p: Port, b: Buffer)
    requires p in cfg.ports && b == plan.At(p, b.info.index) && EntryHolds(cfg, plan, got, b.info.index, e)
    requires !CacheInEntry(e, p, b).0.Fault?
    ensures EntryHolds(cfg, plan, got + multiset{(p, b.info.index)}, b.info.index, CacheInEntry(e, p, b).1)
    ensures CacheInEntry(e, p, b).1.buffers.Keys == e.buffers.Keys + {p}
  {
    var i := b.info.index;
    var got' := got + multiset{(p, i)};
    var e' := CacheInEntry(e, p, b).1;
    assert e'.buffers.Keys == e.buffers.Keys + {p} == e'.counts.Keys;
    forall q ensures got'[(q, i)] == got[(q, i)] + (if q == p then 1 else 0) {
    }
    forall q | q in e'.buffers.Keys ensures e'.buffers[q] == plan.At(q, i) && e'.counts[q] == got'[(q, i)] {
      if q == p {
        assert e'.buffers[q] == b && e'.counts[q] == (if p in e.counts then e.counts[p] + 1 else 1);
      } else {
        assert e'.buffers[q] == e.buffers[q] && e'.counts[q] == e.counts[q];
      }
    }
  }

  lemma {:induction false} EntryArrive(cfg: Config, plan: Plan, got: multiset<(Port, nat)>, e: Entry, p: Port, b: Buffer)
    requires ValidPlan(cfg, plan) && p in cfg.ports && b.info.index <= plan.end && b == plan.At(p, b.info.index)
    requires EntryOk(cfg, plan, got, b.info.index, e)
    ensures !CacheInEntry(e, p, b).0.Fault?
    ensures EntryOk(cfg, plan, got + multiset{(p, b.info.index)}, b.info.index, CacheInEntry(e, p, b).1)
    ensures CacheInEntry(e, p, b).1.buffers != map[]
  {
    var i := b.info.index;
    var e' := CacheInEntry(e, p, b).1;
    assert b.info.isEnd <==> i == plan.end;
    EntryHoldsArrival(cfg, plan, got, e, p, b);
    assert p in e'.buffers.Keys;
    if b.info.isPlaceholder { assert plan.At(p, i).info.isPlaceholder; }
  }

  /** The counting test recognises exactly the complete rows. */
  lemma {:induction false} MatchedIffComplete(cfg: Config, plan: Plan, got: multiset<(Port, nat)>, i: nat, e: Entry)
    requires ValidPlan(cfg, plan) && EntryOk(cfg, plan, got, i, e) && e.buffers != map[]
    ensures Matched(cfg, e) <==> Complete(cfg, plan, got, i)
  {
    assert |e.buffers| == |e.buffers.Keys|;
    if Matched(cfg, e) {
      SubsetSize(e.buffers.Keys, cfg.ports);
      forall p | p in cfg.ports ensures Need(cfg, plan, p, i) <= got[(p, i)] {
        assert p in e.buffers.Keys;
        if cfg.streamCount == map[] { assert cfg.StreamCount(p) == 0; }
      }
    }
    if Complete(cfg, plan, got, i) {
      forall p | p in cfg.ports ensures p in e.buffers.Keys {
        assert Need(cfg, plan, p, i) <= got[(p, i)];
      }
      assert e.buffers.Keys == cfg.ports;
    }
  }

  /** An arrival for row i touches row i, may complete it, and leaves the others alone. */
  lemma {:induction false} RowsAfterArrival(cfg: Config, plan: Plan, got: multiset<(Port, nat)>, p: Port, i: nat)
    requires ValidPlan(cfg, plan) && p in cfg.ports && i <= plan.end
    ensures TouchedRows(cfg, plan, got + multiset{(p, i)}) == TouchedRows(cfg, plan, got) + {i}
    ensures CompleteRows(cfg, plan, got + multiset{(p, i)})
         == if Complete(cfg, plan, got + multiset{(p, i)}, i)
            then CompleteRows(cfg, plan, got) + {i}
            else CompleteRows(cfg, plan, got) - {i}
  {
    var got' := got + multiset{(p, i)};
    assert forall q, j: nat | j != i :: got'[(q, j)] == got[(q, j)];
    assert 0 < got'[(p, i)];
    forall j: nat | j <= plan.end
      ensures j in TouchedRows(cfg, plan, got') <==> j in TouchedRows(cfg, plan, got) + {i}
    {
      if j != i && Touched(cfg, got, j) {
        var q :| q in cfg.ports && 0 < got[(q, j)];
        assert 0 < got'[(q, j)];
      }
    }
    forall j: nat | j <= plan.end && j != i
      ensures j in CompleteRows(cfg, plan, got') <==> j in CompleteRows(cfg, plan, got)
    {
      assert Complete(cfg, plan, got', j) <==> Complete(cfg, plan, got, j);
    }
  }

  lemma {:induction false} EntriesAfterArrival(cfg: Config, plan: Plan, got: multiset<(Port, nat)>, p: Port, i: nat,
                                               m: map<nat, Entry>)
    requires ValidPlan(cfg, plan) && EntriesOk(cfg, plan, got, m)
    ensures EntriesOk(cfg, plan, got + multiset{(p, i)}, m - {i})
    ensures i !in m ==> EntriesOk(cfg, plan, got + multiset{(p, i)}, m)
  {
    var got' := got + multiset{(p, i)};
    forall j | j in m && j != i ensures EntryOk(cfg, plan, got', j, m[j]) {
      assert EntryOk(cfg, plan, got, j, m[j]);
      assert forall q :: got'[(q, j)] == got[(q, j)];
    }
  }

  lemma {:induction false} InsertEntry(cfg: Config, plan: Plan, got: multiset<(Port, nat)>, m: map<nat, Entry>, i: nat, e: Entry)
    requires ValidPlan(cfg, plan) && EntriesOk(cfg, plan, got, m - {i}) && EntryOk(cfg, plan, got, i, e)
    ensures EntriesOk(cfg, plan, got, m[i := e])
  {
    var m' := m[i := e];
    forall j | j in m' ensures EntryOk(cfg, plan, got, j, m'[j]) {
      if j != i { assert j in m - {i}; }
    }
  }

  lemma KeysAddRemove<T>(m: map<nat, T>, i: nat, e: T)
    ensures (m - {i}).Keys == m.Keys - {i}
    ensures m[i := e].Keys == m.Keys + {i}
  {
  }

  lemma SetsAfterMatch(pending: set<nat>, ready: set<nat>, touched: set<nat>, complete: set<nat>, order: set<nat>, i: nat)
    requires pending == touched - complete && ready + order == complete && ready !! order && i !in complete
    ensures pending - {i} == (touched + {i}) - (complete + {i})
    ensures (ready + {i}) !! order
    ensures ready + {i} + order == complete + {i}
  {
  }

  lemma {:induction false} KeysAfterMatch(touched: set<nat>, complete: set<nat>, order: set<nat>, end: nat,
                                          c: CacheState, i: nat, e: Entry)
    requires KeysOk(touched, complete, order, end, c) && i !in complete && (e.isEnd <==> i == end)
    ensures KeysOk(touched + {i}, complete + {i}, order, end, AddReady(c, i, e))
  {
    KeysAddRemove(c.pending, i, e);
    KeysAddRemove(c.ready, i, e);
    SetsAfterMatch(c.pending.Keys, c.ready.Keys, touched, complete, order, i);
  }

  lemma SetsAfterPartial(touched: set<nat>, complete: set<nat>, i: nat)
    requires i !in complete
    ensures (touched - complete) + {i} == (touched + {i}) - complete
  {
  }

  lemma {:induction false} KeysAfterPartial(touched: set<nat>, complete: set<nat>, order: set<nat>, end: nat,
                                            c: CacheState, i: nat, e: Entry)
    requires KeysOk(touched, complete, order, end, c) && i !in complete
    ensures KeysOk(touched + {i}, complete, order, end, c.(pending := c.pending[i := e]))
  {
    KeysAddRemove(c.pending, i, e);
    SetsAfterPartial(touched, complete, i);
  }

  lemma {:induction false} ArriveInEntry(cfg: Config, plan: Plan, got: multiset<(Port, nat)>, order: set<nat>,
                                         c: CacheState, p: Port, b: Buffer)
    requires ValidPlan(cfg, plan) && p in cfg.ports && b.info.index <= plan.end && b == plan.At(p, b.info.index)
    requires HeldOk(cfg, plan, got, order, c)
    requires WithinNeed(cfg, plan, got + multiset{(p, b.info.index)})
    ensures b.info.index !in CompleteRows(cfg, plan, got)
    ensures EntryOk(cfg, plan, got, b.info.index, EntryFor(c, b.info.index))
  {
    var i := b.info.index;
    var got' := got + multiset{(p, i)};
    assert got'[(p, i)] == got[(p, i)] + 1 <= Need(cfg, plan, p, i);
    assert !Complete(cfg, plan, got, i);
    if i !in c.pending { assert !Touched(cfg, got, i); }
  }

  lemma {:induction false} HeldAfterMatch(cfg: Config, plan: Plan, got: multiset<(Port, nat)>, got': multiset<(Port, nat)>,
                                          order: set<nat>, c: CacheState, i: nat, e: Entry)
    requires ValidPlan(cfg, plan) && HeldOk(cfg, plan, got, order, c) && i !in CompleteRows(cfg, plan, got)
    requires TouchedRows(cfg, plan, got') == TouchedRows(cfg, plan, got) + {i}
    requires CompleteRows(cfg, plan, got') == CompleteRows(cfg, plan, got) + {i}
    requires EntriesOk(cfg, plan, got', c.pending - {i}) && EntriesOk(cfg, plan, got', c.ready - {i})
    requires EntryOk(cfg, plan, got', i, e) && e.buffers != map[]
    ensures HeldOk(cfg, plan, got', order, AddReady(c, i, e))
  {
    KeysAfterMatch(TouchedRows(cfg, plan, got), CompleteRows(cfg, plan, got), order, plan.end, c, i, e);
    InsertEntry(cfg, plan, got', c.ready, i, e);
  }

  lemma {:induction false} HeldAfterPartial(cfg: Config, plan: Plan, got: multiset<(Port, nat)>, got': multiset<(Port, nat)>,
                                            order: set<nat>, c: CacheState, i: nat, e: Entry)
    requires ValidPlan(cfg, plan) && HeldOk(cfg, plan, got, order, c) && i !in CompleteRows(cfg, plan, got)
    requires TouchedRows(cfg, plan, got') == TouchedRows(cfg, plan, got) + {i}
    requires CompleteRows(cfg, plan, got') == CompleteRows(cfg, plan, got) - {i}
    requires EntriesOk(cfg, plan, got', c.pending - {i}) && EntriesOk(cfg, plan, got', c.ready)
    requires EntryOk(cfg, plan, got', i, e)
    ensures HeldOk(cfg, plan, got', order, c.(pending := c.pending[i := e]))
  {
    var complete := CompleteRows(cfg, plan, got);
    KeysAfterPartial(TouchedRows(cfg, plan, got), complete, order, plan.end, c, i, e);
    InsertEntry(cfg, plan, got', c.pending, i, e);
    assert complete - {i} == complete;
  }

  lemma {:induction false} EntryKeepsHeld(cfg: Config, plan: Plan, got: multiset<(Port, nat)>, order: set<nat>,
                                          c: CacheState, p: Port, i: nat, e: Entry)
    requires ValidPlan(cfg, plan) && HeldOk(cfg, plan, got, order, c) && p in cfg.ports && i <= plan.end
    requires i !in CompleteRows(cfg, plan, got) && WithinNeed(cfg, plan, got + multiset{(p, i)})
    requires EntryOk(cfg, plan, got + multiset{(p, i)}, i, e) && e.buffers != map[]
    ensures HeldOk(cfg, plan, got + multiset{(p, i)}, order,
                   if Matched(cfg, e) then AddReady(c, i, e) else c.(pending := c.pending[i := e]))
  {
    var got' := got + multiset{(p, i)};
    MatchedIffComplete(cfg, plan, got', i, e);
    RowsAfterArrival(cfg, plan, got, p, i);
    EntriesAfterArrival(cfg, plan, got, p, i, c.pending);
    EntriesAfterArrival(cfg, plan, got, p, i, c.ready);
    if Matched(cfg, e) {
      HeldAfterMatch(cfg, plan, got, got', order, c, i, e);
    } else {
      HeldAfterPartial(cfg, plan, got, got', order, c, i, e);
    }
  }

  lemma {:induction false} ArriveKeepsHeld(cfg: Config, plan: Plan, got: multiset<(Port, nat)>, order: set<nat>,
                                           c: CacheState, p: Port, raw: Buffer)
    requires ValidPlan(cfg, plan) && FromPlan(cfg, plan, Arrive(p, raw))
    requires HeldOk(cfg, plan, got, order, c)
    requires WithinNeed(cfg, plan, got + multiset{(p, MatchIndex(cfg, p, raw))})
    ensures !CacheIn(cfg, c, p, raw).0.Fault?
    ensures HeldOk(cfg, plan, got + multiset{(p, MatchIndex(cfg, p, raw))}, order, CacheIn(cfg, c, p, raw).1)
    ensures CacheIn(cfg, c, p, raw).1.next == c.next
  {
    var b := Effective(cfg, p, raw);
    var i := b.info.index;
    EffectiveOfPlan(cfg, plan, p, raw);
    ArriveInEntry(cfg, plan, got, order, c, p, b);
    EntryArrive(cfg, plan, got, EntryFor(c, i), p, b);
    EntryKeepsHeld(cfg, plan, got, order, c, p, i, CacheInEntry(EntryFor(c, i), p, b).1);
  }

  // ----- pops -----

  ghost predicate TakesFrom(taken: seq<(nat, Entry)>, ready: map<nat, Entry>) {
    && (forall k | 0 <= k < |taken| :: taken[k].0 in ready && taken[k].1 == ready[taken[k].0])
    && (forall j, k | 0 <= j < k < |taken| :: taken[j].0 < taken[k].0)
  }

  lemma {:induction false} PopTakes(ready: map<nat, Entry>, next: nat, inOrder: bool)
    ensures TakesFrom(PopOrder(ready, next, inOrder), ready)
    ensures inOrder ==> forall k | 0 <= k < |PopOrder(ready, next, inOrder)| :: PopOrder(ready, next, inOrder)[k].0 == next + k
    decreases |ready|
  {
    if !(ready == map[] || (inOrder && MinKey(ready.Keys) != next)) {
      var m := MinKey(ready.Keys);
      RemoveShrinks(ready, m);
      PopTakes(ready - {m}, next + 1, inOrder);
    }
  }

  lemma {:induction false} PopLeaves(ready: map<nat, Entry>, next: nat, inOrder: bool)
    ensures PopRest(ready, next, inOrder).Keys == ready.Keys - Elems(Indices(PopOrder(ready, next, inOrder)))
    decreases |ready|
  {
    if !(ready == map[] || (inOrder && MinKey(ready.Keys) != next)) {
      var m := MinKey(ready.Keys);
      RemoveShrinks(ready, m);
      PopLeaves(ready - {m}, next + 1, inOrder);
      var taken := PopOrder(ready - {m}, next + 1, inOrder);
      IndicesCons(m, ready[m], taken);
      assert Elems([m] + Indices(taken)) == {m} + Elems(Indices(taken));
      assert (ready - {m}).Keys == ready.Keys - {m};
    } else {
      assert Elems(Indices(PopOrder(ready, next, inOrder))) == {};
    }
  }

  /** What is left is unchanged, and nothing that should have gone is left. */
  lemma {:induction false} PopStops(ready: map<nat, Entry>, next: nat, inOrder: bool)
    ensures forall i | i in PopRest(ready, next, inOrder) :: i in ready && PopRest(ready, next, inOrder)[i] == ready[i]
    ensures var rest := PopRest(ready, next, inOrder);
            rest == map[] || (inOrder && MinKey(rest.Keys) != next + |PopOrder(ready, next, inOrder)|)
    decreases |ready|
  {
    if !(ready == map[] || (inOrder && MinKey(ready.Keys) != next)) {
      var m := MinKey(ready.Keys);
      RemoveShrinks(ready, m);
      PopStops(ready - {m}, next + 1, inOrder);
    }
  }

  lemma IndicesCons(m: nat, e: Entry, taken: seq<(nat, Entry)>)
    ensures Indices([(m, e)] + taken) == [m] + Indices(taken)
  {
  }

  lemma {:induction false} RowIsPlanRow(cfg: Config, plan: Plan, got: multiset<(Port, nat)>, i: nat, e: Entry)
    requires ValidPlan(cfg, plan) && EntryOk(cfg, plan, got, i, e) && Complete(cfg, plan, got, i)
    ensures Row(e).Keys == cfg.ports
    ensures forall p | p in cfg.ports :: Row(e)[p] == PlanBuffer(cfg, plan, p, i)
  {
    forall p | p in cfg.ports ensures p in e.buffers.Keys {
      assert Need(cfg, plan, p, i) <= got[(p, i)];
    }
    assert e.buffers.Keys == cfg.ports;
  }

  ghost predicate IsColumn(list: seq<Buffer>, rows: seq<map<Port, Buffer>>, p: Port) {
    |list| == |rows| && forall k | 0 <= k < |rows| :: p in rows[k] && list[k] == rows[k][p]
  }

  lemma {:induction false} ExtendColumn(prev: map<Port, seq<Buffer>>, rows: seq<map<Port, Buffer>>, p: Port)
    requires rows != [] && p in rows[|rows| - 1]
    requires if p in prev then IsColumn(prev[p], rows[..|rows| - 1], p) else |rows| == 1
    ensures IsColumn(AppendRow(prev, rows[|rows| - 1])[p], rows, p)
  {
    var n := |rows| - 1;
    if p in prev {
      assert forall k | 0 <= k < n :: rows[..n][k] == rows[k];
    }
  }

  lemma {:induction false} CollectPort(ports: set<Port>, rows: seq<map<Port, Buffer>>)
    requires forall k | 0 <= k < |rows| :: rows[k].Keys == ports
    ensures Collect(rows).Keys == if rows == [] then {} else ports
    ensures forall p | p in Collect(rows) :: IsColumn(Collect(rows)[p], rows, p)
  {
    if rows != [] {
      var n := |rows| - 1;
      var prev := Collect(rows[..n]);
      CollectPort(ports, rows[..n]);
      forall p | p in ports ensures IsColumn(AppendRow(prev, rows[n])[p], rows, p) {
        ExtendColumn(prev, rows, p);
      }
    }
  }

  /** Each taken entry leaves as the plan's row of the same index. */
  ghost predicate TakesPlan(cfg: Config, plan: Plan, taken: seq<(nat, Entry)>) {
    forall k | 0 <= k < |taken| ::
      && taken[k].0 <= plan.end
      && Row(taken[k].1).Keys == cfg.ports
      && forall p | p in cfg.ports :: Row(taken[k].1)[p] == PlanBuffer(cfg, plan, p, taken[k].0)
  }

  lemma {:induction false} CompleteTakesPlan(cfg: Config, plan: Plan, got: multiset<(Port, nat)>, taken: seq<(nat, Entry)>)
    requires ValidPlan(cfg, plan)
    requires forall k | 0 <= k < |taken| ::
               EntryOk(cfg, plan, got, taken[k].0, taken[k].1) && Complete(cfg, plan, got, taken[k].0)
    ensures TakesPlan(cfg, plan, taken)
  {
    forall k | 0 <= k < |taken|
      ensures Row(taken[k].1).Keys == cfg.ports
      ensures forall p | p in cfg.ports :: Row(taken[k].1)[p] == PlanBuffer(cfg, plan, p, taken[k].0)
    {
      RowIsPlanRow(cfg, plan, got, taken[k].0, taken[k].1);
    }
  }

  lemma {:induction false} CollectIsPlan(cfg: Config, plan: Plan, taken: seq<(nat, Entry)>)
    requires TakesPlan(cfg, plan, taken)
    ensures Collect(Rows(taken)).Keys == if taken == [] then {} else cfg.ports
    ensures forall p | p in Collect(Rows(taken)) :: Collect(Rows(taken))[p] == PlanBuffers(cfg, plan, p, Indices(taken))
  {
    var rows := Rows(taken);
    CollectPort(cfg.ports, rows);
    forall p | p in Collect(rows) ensures Collect(rows)[p] == PlanBuffers(cfg, plan, p, Indices(taken)) {
      ColumnIsPlan(cfg, plan, taken, Collect(rows)[p], p);
    }
  }

  lemma {:induction false} ColumnIsPlan(cfg: Config, plan: Plan, taken: seq<(nat, Entry)>, list: seq<Buffer>, p: Port)
    requires p in cfg.ports && TakesPlan(cfg, plan, taken) && IsColumn(list, Rows(taken), p)
    ensures list == PlanBuffers(cfg, plan, p, Indices(taken))
  {
  }

  lemma SetsAfterPop(ready: set<nat>, order: set<nat>, complete: set<nat>, taken: set<nat>)
    requires ready !! order && ready + order == complete && taken <= ready
    ensures (ready - taken) !! (order + taken)
    ensures (ready - taken) + (order + taken) == complete
  {
  }

  lemma ElemsConcat(a: seq<nat>, b: seq<nat>)
    ensures Elems(a + b) == Elems(a) + Elems(b)
  {
  }

  /** Where the pop leads: the state and the rows handed over. */
  lemma {:induction false} PopKeepsHeld(cfg: Config, plan: Plan, got: multiset<(Port, nat)>, order: seq<nat>, c: CacheState,
                                        inOrder: bool)
    requires ValidPlan(cfg, plan) && HeldOk(cfg, plan, got, Elems(order), c) && Distinct(order)
    ensures var taken := PopOrder(c.ready, c.next, inOrder);
            && TakesPlan(cfg, plan, taken)
            && Distinct(order + Indices(taken))
            && HeldOk(cfg, plan, got, Elems(order + Indices(taken)),
                      c.(ready := PopRest(c.ready, c.next, inOrder), next := c.next + |taken|))
  {
    var taken, rest := PopOrder(c.ready, c.next, inOrder), PopRest(c.ready, c.next, inOrder);
    PopTakes(c.ready, c.next, inOrder);
    PopLeaves(c.ready, c.next, inOrder);
    PopStops(c.ready, c.next, inOrder);
    assert TakesPlan(cfg, plan, taken) by {
      forall k | 0 <= k < |taken|
        ensures EntryOk(cfg, plan, got, taken[k].0, taken[k].1) && Complete(cfg, plan, got, taken[k].0)
      {
        assert taken[k].0 in CompleteRows(cfg, plan, got);
      }
      CompleteTakesPlan(cfg, plan, got, taken);
    }
    assert EntriesOk(cfg, plan, got, rest);
    PopKeys(TouchedRows(cfg, plan, got), CompleteRows(cfg, plan, got), order, plan.end, c, inOrder);
  }

  lemma {:induction false} TakenDistinct(order: seq<nat>, ready: map<nat, Entry>, next: nat, inOrder: bool)
    requires Distinct(order) && ready.Keys !! Elems(order)
    ensures Distinct(order + Indices(PopOrder(ready, next, inOrder)))
    ensures Elems(Indices(PopOrder(ready, next, inOrder))) <= ready.Keys
  {
    var t := Indices(PopOrder(ready, next, inOrder));
    PopTakes(ready, next, inOrder);
    assert forall k | 0 <= k < |t| :: t[k] in ready.Keys;
    assert forall k | 0 <= k < |order| :: order[k] in Elems(order);
  }

  lemma {:induction false} PopKeys(touched: set<nat>, complete: set<nat>, order: seq<nat>, end: nat, c: CacheState, inOrder: bool)
    requires KeysOk(touched, complete, Elems(order), end, c) && Distinct(order)
    ensures var taken := PopOrder(c.ready, c.next, inOrder);
            && Distinct(order + Indices(taken))
            && KeysOk(touched, complete, Elems(order + Indices(taken)), end,
                      c.(ready := PopRest(c.ready, c.next, inOrder), next := c.next + |taken|))
  {
    var t := Indices(PopOrder(c.ready, c.next, inOrder));
    TakenDistinct(order, c.ready, c.next, inOrder);
    PopLeaves(c.ready, c.next, inOrder);
    SetsAfterPop(c.ready.Keys, Elems(order), complete, Elems(t));
    ElemsConcat(order, t);
  }

  lemma {:induction false} DistinctSize(s: seq<nat>)
    requires Distinct(s)
    ensures |Elems(s)| == |s|
  {
    if s != [] {
      var n := |s| - 1;
      DistinctSize(s[..n]);
      assert s == s[..n] + [s[n]];
      ElemsConcat(s[..n], [s[n]]);
      assert s[n] !in Elems(s[..n]);
      assert Elems([s[n]]) == {s[n]};
    } else {
      assert Elems(s) == {};
    }
  }

  lemma {:induction false} IdentitySet(s: seq<nat>)
    requires forall k | 0 <= k < |s| :: s[k] == k
    ensures Elems(s) == UpTo(|s|)
  {
    forall i | i in UpTo(|s|) ensures i in Elems(s) {
      assert s[i] == i;
    }
  }

  lemma SetsRest(ready: set<nat>, order: set<nat>, taken: set<nat>, all: set<nat>)
    requires ready !! order && ready + order == all
    ensures ready - taken == all - (order + taken)
  {
  }

  ghost predicate CountsFrom(s: seq<nat>, next: nat) {
    forall k | 0 <= k < |s| :: s[k] == next + k
  }

  lemma {:induction false} FirstRows(order: seq<nat>, taken: seq<nat>)
    requires forall k | 0 <= k < |order| :: order[k] == k
    requires CountsFrom(taken, |order|)
    ensures Elems(order) + Elems(taken) == UpTo(|order| + |taken|)
  {
    var all := order + taken;
    assert |all| == |order| + |taken|;
    IdentitySet(all);
    ElemsConcat(order, taken);
  }

  lemma {:induction false} IndicesInOrder(ready: map<nat, Entry>, next: nat)
    ensures CountsFrom(Indices(PopOrder(ready, next, true)), next)
    ensures |Indices(PopOrder(ready, next, true))| == |PopOrder(ready, next, true)|
  {
    PopTakes(ready, next, true);
  }

  lemma {:induction false} MinOfRest(rest: map<nat, Entry>, ready: set<nat>, order: set<nat>, taken: set<nat>, n: nat, k: nat)
    requires ready !! order && ready + order == UpTo(n) && order + taken == UpTo(k)
    requires rest != map[] && rest.Keys == ready - taken
    ensures MinKey(rest.Keys) == k
  {
    SetsRest(ready, order, taken, UpTo(n));
    var m := MinKey(rest.Keys);
    assert m in UpTo(n) && m !in UpTo(k);
    assert k in rest.Keys;
  }

  lemma {:induction false} RestFirst(n: nat, order: seq<nat>, ready: set<nat>, taken: seq<nat>, rest: map<nat, Entry>)
    requires ready !! Elems(order) && ready + Elems(order) == UpTo(n)
    requires (forall k | 0 <= k < |order| :: order[k] == k) && CountsFrom(taken, |order|)
    requires rest != map[] && rest.Keys == ready - Elems(taken)
    ensures MinKey(rest.Keys) == |order| + |taken|
  {
    FirstRows(order, taken);
    MinOfRest(rest, ready, Elems(order), Elems(taken), n, |order| + |taken|);
  }

  /** When all n rows have arrived, whatever a pop left would start at the row it stopped before. */
  lemma {:induction false} RestStart(n: nat, order: seq<nat>, ready: map<nat, Entry>)
    requires ready.Keys !! Elems(order) && ready.Keys + Elems(order) == UpTo(n)
    requires forall k | 0 <= k < |order| :: order[k] == k
    requires PopRest(ready, |order|, true) != map[]
    ensures MinKey(PopRest(ready, |order|, true).Keys) == |order| + |PopOrder(ready, |order|, true)|
  {
    IndicesInOrder(ready, |order|);
    PopLeaves(ready, |order|, true);
    RestFirst(n, order, ready.Keys, Indices(PopOrder(ready, |order|, true)), PopRest(ready, |order|, true));
  }

  /** ... so one pop empties the cache. */
  lemma {:induction false} PopDrains(n: nat, order: seq<nat>, ready: map<nat, Entry>, inOrder: bool)
    requires ready.Keys !! Elems(order) && ready.Keys + Elems(order) == UpTo(n)
    requires inOrder ==> forall k | 0 <= k < |order| :: order[k] == k
    ensures PopRest(ready, |order|, inOrder) == map[]
  {
    if inOrder && PopRest(ready, |order|, true) != map[] {
      RestStart(n, order, ready);
    }
    PopStops(ready, |order|, inOrder);
  }

  lemma PlanBuffersConcat(cfg: Config, plan: Plan, p: Port, a: seq<nat>, b: seq<nat>)
    ensures PlanBuffers(cfg, plan, p, a + b) == PlanBuffers(cfg, plan, p, a) + PlanBuffers(cfg, plan, p, b)
  {
    var l, r := PlanBuffers(cfg, plan, p, a + b), PlanBuffers(cfg, plan, p, a) + PlanBuffers(cfg, plan, p, b);
    assert |l| == |r|;
    assert forall k | 0 <= k < |l| :: l[k] == PlanBuffer(cfg, plan, p, (a + b)[k]) == r[k];
  }

  lemma {:induction false} OutPortAfterPop(cfg: Config, plan: Plan, order: seq<nat>, out: map<Port, seq<Buffer>>,
                                           taken: seq<(nat, Entry)>, p: Port)
    requires TakesPlan(cfg, plan, taken) && p in cfg.ports && p in out && out[p] == PlanBuffers(cfg, plan, p, order)
    ensures Extend(out, Collect(Rows(taken)))[p] == PlanBuffers(cfg, plan, p, order + Indices(taken))
  {
    PlanBuffersConcat(cfg, plan, p, order, Indices(taken));
    CollectIsPlan(cfg, plan, taken);
    assert p in Collect(Rows(taken)) || Indices(taken) == [];
  }

  lemma {:induction false} OutAfterPop(cfg: Config, plan: Plan, order: seq<nat>, out: map<Port, seq<Buffer>>,
                                       taken: seq<(nat, Entry)>)
    requires OutOk(cfg, plan, order, out) && TakesPlan(cfg, plan, taken)
    ensures OutOk(cfg, plan, order + Indices(taken), Extend(out, Collect(Rows(taken))))
  {
    forall p | p in cfg.ports
      ensures Extend(out, Collect(Rows(taken)))[p] == PlanBuffers(cfg, plan, p, order + Indices(taken))
    {
      OutPortAfterPop(cfg, plan, order, out, taken, p);
    }
  }

  lemma {:induction false} PopCount(ready: map<nat, Entry>, next: nat, inOrder: bool)
    ensures |PopOrder(ready, next, inOrder)| + |PopRest(ready, next, inOrder)| == |ready|
    decreases |ready|
  {
    if !(ready == map[] || (inOrder && MinKey(ready.Keys) != next)) {
      var m := MinKey(ready.Keys);
      RemoveShrinks(ready, m);
      PopCount(ready - {m}, next + 1, inOrder);
      assert (ready - {m}).Keys == ready.Keys - {m};
    }
  }

  lemma {:induction false} SizesForceAll(ready: set<nat>, order: seq<nat>, n: nat)
    requires ready !! Elems(order) && ready + Elems(order) <= UpTo(n) && |ready| == n && Distinct(order)
    ensures order == [] && ready == UpTo(n)
  {
    DistinctSize(order);
    SubsetSize(ready + Elems(order), UpTo(n));
    assert |ready + Elems(order)| == n + |order|;
    SubsetSize(ready, UpTo(n));
  }

  /** A gather-all pop happens once and takes the whole stream. */
  lemma {:induction false} GatherPopsAll(touched: set<nat>, complete: set<nat>, order: seq<nat>, end: nat, c: CacheState,
                                         inOrder: bool)
    requires KeysOk(touched, complete, Elems(order), end, c) && complete <= UpTo(end + 1)
    requires Distinct(order) && |order| == c.next && PopAllowed(c, true)
    ensures order == [] && |PopOrder(c.ready, c.next, inOrder)| == end + 1
  {
    SizesForceAll(c.ready.Keys, order, end + 1);
    PopDrains(end + 1, order, c.ready, inOrder);
    PopCount(c.ready, c.next, inOrder);
  }

  function AfterPop(s: Sys, inOrder: bool): Sys {
    var taken := PopOrder(s.cache.ready, s.cache.next, inOrder);
    s.(cache := s.cache.(ready := PopRest(s.cache.ready, s.cache.next, inOrder), next := s.cache.next + |taken|),
       order := s.order + Indices(taken),
       out := Extend(s.out, Collect(Rows(taken))))
  }

  lemma {:induction false} StepPops(cfg: Config, mode: Mode, s: Sys)
    ensures Step(cfg, mode, s, PopNow) == if PopAllowed(s.cache, mode.gatherAll) then AfterPop(s, mode.inOrder) else s
  {
  }

  lemma {:induction false} IdentityAfterPop(order: seq<nat>, ready: map<nat, Entry>)
    requires forall k | 0 <= k < |order| :: order[k] == k
    ensures var order' := order + Indices(PopOrder(ready, |order|, true));
            forall k | 0 <= k < |order'| :: order'[k] == k
  {
    PopTakes(ready, |order|, true);
  }

  lemma {:induction false} GatherAfterPop(cfg: Config, plan: Plan, mode: Mode, s: Sys)
    requires ValidPlan(cfg, plan) && Inv(cfg, plan, mode, s) && PopAllowed(s.cache, true)
    ensures |s.order + Indices(PopOrder(s.cache.ready, s.cache.next, mode.inOrder))| == plan.end + 1
  {
    var complete := CompleteRows(cfg, plan, s.got);
    assert complete <= UpTo(plan.end + 1);
    GatherPopsAll(TouchedRows(cfg, plan, s.got), complete, s.order, plan.end, s.cache, mode.inOrder);
  }

  lemma {:induction false} PopKeepsInv(cfg: Config, plan: Plan, mode: Mode, s: Sys)
    requires ValidPlan(cfg, plan) && Inv(cfg, plan, mode, s)
    ensures Inv(cfg, plan, mode, Step(cfg, mode, s, PopNow))
  {
    StepPops(cfg, mode, s);
    if PopAllowed(s.cache, mode.gatherAll) {
      PopKeepsHeld(cfg, plan, s.got, s.order, s.cache, mode.inOrder);
      OutAfterPop(cfg, plan, s.order, s.out, PopOrder(s.cache.ready, s.cache.next, mode.inOrder));
      if mode.inOrder { IdentityAfterPop(s.order, s.cache.ready); }
      if mode.gatherAll { GatherAfterPop(cfg, plan, mode, s); }
      assert Inv(cfg, plan, mode, AfterPop(s, mode.inOrder));
    }
  }

  lemma {:induction false} GotAfterArrival(cfg: Config, plan: Plan, got: multiset<(Port, nat)>, p: Port, i: nat)
    requires GotOk(cfg, plan, got) && p in cfg.ports && i <= plan.end && WithinNeed(cfg, plan, got + multiset{(p, i)})
    ensures GotOk(cfg, plan, got + multiset{(p, i)})
  {
    var got' := got + multiset{(p, i)};
    forall q, j: nat | 0 < got'[(q, j)] ensures q in cfg.ports && j <= plan.end {
      assert 0 < got[(q, j)] || (q, j) == (p, i);
    }
  }

  function AfterArrival(cfg: Config, s: Sys, p: Port, b: Buffer): Sys {
    s.(cache := CacheIn(cfg, s.cache, p, b).1,
       got := s.got + multiset{(p, MatchIndex(cfg, p, b))},
       faulted := s.faulted || CacheIn(cfg, s.cache, p, b).0.Fault?)
  }

  lemma {:induction false} StepArrives(cfg: Config, mode: Mode, s: Sys, a: Action)
    requires a.Arrive?
    ensures Step(cfg, mode, s, a) == AfterArrival(cfg, s, a.port, a.buffer)
  {
  }

  lemma {:induction false} ArriveKeepsInv(cfg: Config, plan: Plan, mode: Mode, s: Sys, a: Action)
    requires ValidPlan(cfg, plan) && Inv(cfg, plan, mode, s) && a.Arrive? && FromPlan(cfg, plan, a)
    requires WithinNeed(cfg, plan, s.got + multiset{(a.port, MatchIndex(cfg, a.port, a.buffer))})
    ensures Inv(cfg, plan, mode, Step(cfg, mode, s, a))
  {
    StepArrives(cfg, mode, s, a);
    ArriveKeepsHeld(cfg, plan, s.got, Elems(s.order), s.cache, a.port, a.buffer);
    EffectiveOfPlan(cfg, plan, a.port, a.buffer);
    GotAfterArrival(cfg, plan, s.got, a.port, MatchIndex(cfg, a.port, a.buffer));
    assert Inv(cfg, plan, mode, AfterArrival(cfg, s, a.port, a.buffer));
  }

  // ----- theorems over every run -----

  lemma {:induction false} InitInv(cfg: Config, plan: Plan, mode: Mode)
    requires ValidPlan(cfg, plan)
    ensures Inv(cfg, plan, mode, Init(cfg))
  {
    var p :| p in cfg.ports;
    forall i: nat ensures !Complete(cfg, plan, multiset{}, i) {
      assert multiset{}[(p, i)] < Need(cfg, plan, p, i);
    }
    assert CompleteRows(cfg, plan, multiset{}) == {};
    assert TouchedRows(cfg, plan, multiset{}) == {};
    assert Elems<nat>([]) == {};
  }

  lemma {:induction false} LegalPrefix(cfg: Config, plan: Plan, acts: seq<Action>)
    requires Legal(cfg, plan, acts) && acts != []
    ensures Legal(cfg, plan, acts[..|acts| - 1])
  {
    var prefix := acts[..|acts| - 1];
    forall p, i: nat | p in cfg.ports ensures Delivered(cfg, prefix)[(p, i)] <= Need(cfg, plan, p, i) {
      assert Delivered(cfg, acts)[(p, i)] <= Need(cfg, plan, p, i);
    }
  }

  lemma {:induction false} RunInv(cfg: Config, plan: Plan, mode: Mode, acts: seq<Action>)
    requires Legal(cfg, plan, acts)
    ensures Inv(cfg, plan, mode, Run(cfg, mode, acts))
    ensures Run(cfg, mode, acts).got == Delivered(cfg, acts)
  {
    if acts == [] {
      InitInv(cfg, plan, mode);
    } else {
      var prefix, a := acts[..|acts| - 1], acts[|acts| - 1];
      LegalPrefix(cfg, plan, acts);
      RunInv(cfg, plan, mode, prefix);
      StepKeepsInv(cfg, plan, mode, Run(cfg, mode, prefix), a);
    }
  }

  lemma {:induction false} StepKeepsInv(cfg: Config, plan: Plan, mode: Mode, s: Sys, a: Action)
    requires ValidPlan(cfg, plan) && Inv(cfg, plan, mode, s) && FromPlan(cfg, plan, a)
    requires a.Arrive? ==> WithinNeed(cfg, plan, s.got + multiset{(a.port, MatchIndex(cfg, a.port, a.buffer))})
    ensures Inv(cfg, plan, mode, Step(cfg, mode, s, a))
    ensures Step(cfg, mode, s, a).got
         == s.got + (if a.Arrive? then multiset{(a.port, MatchIndex(cfg, a.port, a.buffer))} else multiset{})
  {
    match a
    case Arrive(_, _) =>
      ArriveKeepsInv(cfg, plan, mode, s, a);
      StepArrives(cfg, mode, s, a);
    case PopNow =>
      PopKeepsInv(cfg, plan, mode, s);
      StepPops(cfg, mode, s);
  }

  /** The whole stream as port p of the node receives it. */
  ghost function PlanStream(cfg: Config, plan: Plan, p: Port): seq<Buffer> {
    seq(plan.end + 1, i requires 0 <= i <= plan.end => PlanBuffer(cfg, plan, p, i))
  }

  lemma {:induction false} IdentityBuffers(cfg: Config, plan: Plan, p: Port, order: seq<nat>)
    requires forall k | 0 <= k < |order| :: order[k] == k <= plan.end
    ensures |order| <= plan.end + 1
    ensures PlanBuffers(cfg, plan, p, order) == PlanStream(cfg, plan, p)[..|order|]
  {
    assert |order| > 0 ==> order[|order| - 1] == |order| - 1;
  }

  /** In order, every interleaving of arrivals and pops releases the same stream prefix on
      every port and never faults. */
  lemma {:induction false} InOrderReleasesPrefix(cfg: Config, plan: Plan, mode: Mode, acts: seq<Action>)
    requires Legal(cfg, plan, acts) && mode.inOrder
    ensures var s := Run(cfg, mode, acts);
            && !s.faulted
            && |s.order| <= plan.end + 1
            && s.out.Keys == cfg.ports
            && forall p | p in cfg.ports :: s.out[p] == PlanStream(cfg, plan, p)[..|s.order|]
  {
    RunInv(cfg, plan, mode, acts);
    PrefixOut(cfg, plan, Run(cfg, mode, acts).order, Run(cfg, mode, acts).out);
  }

  lemma {:induction false} PrefixOut(cfg: Config, plan: Plan, order: seq<nat>, out: map<Port, seq<Buffer>>)
    requires OutOk(cfg, plan, order, out) && forall k | 0 <= k < |order| :: order[k] == k
    ensures |order| <= plan.end + 1
    ensures forall p | p in cfg.ports :: out[p] == PlanStream(cfg, plan, p)[..|order|]
  {
    assert |order| > 0 ==> order[|order| - 1] == |order| - 1;
    forall p | p in cfg.ports ensures out[p] == PlanStream(cfg, plan, p)[..|order|] {
      IdentityBuffers(cfg, plan, p, order);
    }
  }

  /** Ordered or not, all ports release the same indices in the same order, each at most once,
      and a row's flags are the same on every port. */
  lemma {:induction false} ReleasesAligned(cfg: Config, plan: Plan, mode: Mode, acts: seq<Action>, p: Port, q: Port)
    requires Legal(cfg, plan, acts) && p in cfg.ports && q in cfg.ports
    ensures var s := Run(cfg, mode, acts);
            && !s.faulted
            && p in s.out && q in s.out && |s.out[p]| == |s.out[q]| <= plan.end + 1
            && (forall k | 0 <= k < |s.out[p]| ::
                  && s.out[p][k].info.index == s.out[q][k].info.index
                  && s.out[p][k].info.isEnd == s.out[q][k].info.isEnd
                  && s.out[p][k].info.isPlaceholder == s.out[q][k].info.isPlaceholder)
            && (forall j, k | 0 <= j < k < |s.out[p]| :: s.out[p][j].info.index != s.out[p][k].info.index)
  {
    RunInv(cfg, plan, mode, acts);
    var s := Run(cfg, mode, acts);
    assert s.out[p] == PlanBuffers(cfg, plan, p, s.order);
    assert s.out[q] == PlanBuffers(cfg, plan, q, s.order);
    forall k | 0 <= k < |s.order|
      ensures s.out[p][k].info.index == s.out[q][k].info.index == s.order[k]
      ensures s.out[p][k].info.isEnd == s.out[q][k].info.isEnd
      ensures s.out[p][k].info.isPlaceholder == s.out[q][k].info.isPlaceholder
    {
      PlanRowUniform(cfg, plan, p, q, s.order[k]);
    }
    DistinctSize(s.order);
    assert Elems(s.order) <= UpTo(plan.end + 1);
    SubsetSize(Elems(s.order), UpTo(plan.end + 1));
  }

  lemma {:induction false} PlanRowUniform(cfg: Config, plan: Plan, p: Port, q: Port, i: nat)
    requires ValidPlan(cfg, plan) && p in cfg.ports && q in cfg.ports && i <= plan.end
    ensures PlanBuffer(cfg, plan, p, i).info.index == PlanBuffer(cfg, plan, q, i).info.index == i
    ensures PlanBuffer(cfg, plan, p, i).info.isEnd == PlanBuffer(cfg, plan, q, i).info.isEnd == (i == plan.end)
    ensures PlanBuffer(cfg, plan, p, i).info.isPlaceholder == PlanBuffer(cfg, plan, q, i).info.isPlaceholder
  {
    assert plan.At(p, i).info.index == i && plan.At(q, i).info.index == i;
  }

  ghost predicate Lossless(cfg: Config, plan: Plan, s: Sys) {
    && (StreamEnd(s.cache) <==> AllDelivered(cfg, plan, s.got))
    && (StreamEnd(s.cache) ==>
          && s.cache.pending == map[] && s.cache.ready == map[]
          && |s.order| == plan.end + 1 && Elems(s.order) == UpTo(plan.end + 1))
  }

  lemma {:induction false} DrainedIsLossless(cfg: Config, plan: Plan, mode: Mode, s: Sys)
    requires Inv(cfg, plan, mode, s)
    requires CompleteRows(cfg, plan, s.got) == UpTo(plan.end + 1) ==> s.cache.ready == map[]
    ensures Lossless(cfg, plan, s)
  {
    AllRowsComplete(cfg, plan, s.got);
    if CompleteRows(cfg, plan, s.got) == UpTo(plan.end + 1) {
      AfterLastPop(cfg, plan, mode, s);
    } else {
      StreamNotEnded(cfg, plan, mode, s);
    }
  }

  /** The state after a pop, in terms of the deliveries. */
  lemma {:induction false} PopIsLossless(cfg: Config, plan: Plan, mode: Mode, s0: Sys)
    requires ValidPlan(cfg, plan) && Inv(cfg, plan, mode, s0)
    ensures Lossless(cfg, plan, Step(cfg, mode, s0, PopNow))
  {
    PopKeepsInv(cfg, plan, mode, s0);
    PopKeepsGot(cfg, mode, s0);
    if CompleteRows(cfg, plan, s0.got) == UpTo(plan.end + 1) {
      LastPopDrains(cfg, plan, mode, s0);
    }
    DrainedIsLossless(cfg, plan, mode, Step(cfg, mode, s0, PopNow));
  }

  lemma {:induction false} PopKeepsGot(cfg: Config, mode: Mode, s: Sys)
    ensures Step(cfg, mode, s, PopNow).got == s.got
  {
    StepPops(cfg, mode, s);
  }

  /** Right after a pop, the cache reports its stream over exactly when every delivery was made;
      then nothing, matched or half matched, is left in it and each port got the whole stream. */
  lemma {:induction false} StreamEndIsLossless(cfg: Config, plan: Plan, mode: Mode, acts: seq<Action>)
    requires Legal(cfg, plan, acts + [PopNow])
    ensures var s := Run(cfg, mode, acts + [PopNow]);
            && (StreamEnd(s.cache) <==> AllDelivered(cfg, plan, Delivered(cfg, acts + [PopNow])))
            && (StreamEnd(s.cache) ==>
                  && s.cache.pending == map[] && s.cache.ready == map[]
                  && |s.order| == plan.end + 1 && Elems(s.order) == UpTo(plan.end + 1)
                  && forall p | p in cfg.ports :: p in s.out && s.out[p] == PlanBuffers(cfg, plan, p, s.order))
  {
    var all := acts + [PopNow];
    assert all[..|all| - 1] == acts && all[|all| - 1] == PopNow;
    LegalPrefix(cfg, plan, all);
    RunInv(cfg, plan, mode, acts);
    RunInv(cfg, plan, mode, all);
    PopIsLossless(cfg, plan, mode, Run(cfg, mode, acts));
  }

  lemma {:induction false} AllRowsComplete(cfg: Config, plan: Plan, got: multiset<(Port, nat)>)
    ensures AllDelivered(cfg, plan, got) <==> CompleteRows(cfg, plan, got) == UpTo(plan.end + 1)
  {
    if CompleteRows(cfg, plan, got) == UpTo(plan.end + 1) {
      forall i: nat | i <= plan.end ensures Complete(cfg, plan, got, i) {
        assert i in CompleteRows(cfg, plan, got);
      }
    }
  }

  lemma {:induction false} StreamNotEnded(cfg: Config, plan: Plan, mode: Mode, s: Sys)
    requires Inv(cfg, plan, mode, s) && CompleteRows(cfg, plan, s.got) != UpTo(plan.end + 1)
    ensures !StreamEnd(s.cache)
  {
    var complete := CompleteRows(cfg, plan, s.got);
    assert complete <= UpTo(plan.end + 1);
    SubsetSize(complete, UpTo(plan.end + 1));
  }

  lemma {:induction false} ReadySize(ready: set<nat>, order: seq<nat>, n: nat)
    requires ready !! Elems(order) && ready + Elems(order) == UpTo(n) && Distinct(order)
    ensures |ready| == n - |order|
    ensures |order| == n ==> ready == {}
  {
    DistinctSize(order);
    assert |ready + Elems(order)| == |ready| + |Elems(order)|;
  }

  lemma {:induction false} AllReadyDrains(touched: set<nat>, order: seq<nat>, end: nat, c: CacheState, mode: Mode)
    requires KeysOk(touched, UpTo(end + 1), Elems(order), end, c) && Distinct(order) && |order| == c.next
    requires mode.inOrder ==> forall k | 0 <= k < |order| :: order[k] == k
    requires mode.gatherAll ==> order == [] || |order| == end + 1
    ensures if PopAllowed(c, mode.gatherAll) then PopRest(c.ready, c.next, mode.inOrder) == map[] else c.ready == map[]
  {
    ReadySize(c.ready.Keys, order, end + 1);
    if PopAllowed(c, mode.gatherAll) {
      PopDrains(end + 1, order, c.ready, mode.inOrder);
    }
  }

  lemma {:induction false} LastPopDrains(cfg: Config, plan: Plan, mode: Mode, s0: Sys)
    requires Inv(cfg, plan, mode, s0) && CompleteRows(cfg, plan, s0.got) == UpTo(plan.end + 1)
    ensures Step(cfg, mode, s0, PopNow).cache.ready == map[]
  {
    AllReadyDrains(TouchedRows(cfg, plan, s0.got), s0.order, plan.end, s0.cache, mode);
    StepPops(cfg, mode, s0);
  }

  lemma {:induction false} AfterLastPop(cfg: Config, plan: Plan, mode: Mode, s: Sys)
    requires Inv(cfg, plan, mode, s) && CompleteRows(cfg, plan, s.got) == UpTo(plan.end + 1) && s.cache.ready == map[]
    ensures StreamEnd(s.cache) && s.cache.pending == map[]
    ensures |s.order| == plan.end + 1 && Elems(s.order) == UpTo(plan.end + 1)
  {
    assert TouchedRows(cfg, plan, s.got) <= UpTo(plan.end + 1);
    assert s.cache.pending.Keys == {};
    ReadySize(s.cache.ready.Keys, s.order, plan.end + 1);
    assert Elems(s.order) == UpTo(plan.end + 1);
  }

  /** Confluence: however a fully delivered stream was interleaved, the last in-order pop
      leaves every port with the whole stream, in index order. */
  lemma {:induction false} InOrderIsConfluent(cfg: Config, plan: Plan, mode: Mode, acts: seq<Action>, p: Port)
    requires Legal(cfg, plan, acts + [PopNow]) && mode.inOrder && p in cfg.ports
    requires AllDelivered(cfg, plan, Delivered(cfg, acts + [PopNow]))
    ensures p in Run(cfg, mode, acts + [PopNow]).out
    ensures Run(cfg, mode, acts + [PopNow]).out[p] == PlanStream(cfg, plan, p)
  {
    StreamEndIsLossless(cfg, plan, mode, acts);
    InOrderReleasesPrefix(cfg, plan, mode, acts + [PopNow]);
    var whole := PlanStream(cfg, plan, p);
    assert whole[..plan.end + 1] == whole;
  }

  /** A row, the end flag in particular, leaves only after every port got all it was owed for it. */
  lemma {:induction false} ReleasedIsComplete(cfg: Config, plan: Plan, mode: Mode, acts: seq<Action>, k: nat)
    requires Legal(cfg, plan, acts) && k < |Run(cfg, mode, acts).order|
    ensures Complete(cfg, plan, Delivered(cfg, acts), Run(cfg, mode, acts).order[k])
  {
    RunInv(cfg, plan, mode, acts);
    var s := Run(cfg, mode, acts);
    assert s.order[k] in Elems(s.order);
    assert s.order[k] in CompleteRows(cfg, plan, s.got);
  }

  // ----- any arrivals -----

  /** What a buffer comes as: data or an end flag, by the index info the cache goes by. */
  function ComesAsEnd(cfg: Config, p: Port, b: Buffer): bool {
    if cfg.StreamCount(p) <= 1 || b.info.inherit.NoInherit? then b.info.isEnd else b.info.inherit.from.isEnd
  }

  /** Data and end flags are not matched with each other. */
  ghost predicate Unmixed(e: Entry) {
    forall p | p in e.buffers :: e.buffers[p].info.isEnd == e.isEnd
  }

  ghost predicate AllUnmixed(c: CacheState) {
    (forall i | i in c.pending :: Unmixed(c.pending[i])) && (forall i | i in c.ready :: Unmixed(c.ready[i]))
  }

  lemma {:induction false} CacheInUnmixed(e: Entry, p: Port, b: Buffer)
    requires Unmixed(e)
    ensures Unmixed(CacheInEntry(e, p, b).1)
  {
  }

  lemma {:induction false} AddedUnmixed(c: CacheState, i: nat, e: Entry)
    requires AllUnmixed(c) && Unmixed(e)
    ensures AllUnmixed(c.(pending := c.pending[i := e])) && AllUnmixed(AddReady(c, i, e))
  {
  }

  lemma {:induction false} ArriveUnmixed(cfg: Config, c: CacheState, p: Port, b: Buffer)
    requires AllUnmixed(c)
    ensures AllUnmixed(CacheIn(cfg, c, p, b).1)
  {
    var eb := Effective(cfg, p, b);
    var i := eb.info.index;
    var e := CacheInEntry(EntryFor(c, i), p, eb).1;
    assert Unmixed(EntryFor(c, i));
    CacheInUnmixed(EntryFor(c, i), p, eb);
    AddedUnmixed(c, i, e);
    assert CacheIn(cfg, c, p, b).1 in {c, c.(pending := c.pending[i := e]), AddReady(c, i, e)};
  }

  lemma {:induction false} RunUnmixed(cfg: Config, mode: Mode, acts: seq<Action>)
    ensures AllUnmixed(Run(cfg, mode, acts).cache)
  {
    if acts != [] {
      var n := |acts| - 1;
      var s := Run(cfg, mode, acts[..n]);
      RunUnmixed(cfg, mode, acts[..n]);
      match acts[n]
      case Arrive(p, b) => ArriveUnmixed(cfg, s.cache, p, b);
      case PopNow => PopStops(s.cache.ready, s.cache.next, mode.inOrder);
    }
  }

  /** Whatever arrives, planned or not: it is refused exactly when the entry it goes to holds data and it comes
      as an end flag, or the other way round; then the cache stays as it was. */
  lemma {:induction false} FaultIffMixed(cfg: Config, mode: Mode, acts: seq<Action>, p: Port, b: Buffer)
    ensures var c := Run(cfg, mode, acts).cache;
            var held := EntryFor(c, MatchIndex(cfg, p, b)).buffers;
            && (CacheIn(cfg, c, p, b).0.Fault? <==>
                  exists q :: q in held && held[q].info.isEnd != ComesAsEnd(cfg, p, b))
            && (CacheIn(cfg, c, p, b).0.Fault? ==> CacheIn(cfg, c, p, b).1 == c)
  {
    RunUnmixed(cfg, mode, acts);
    var c := Run(cfg, mode, acts).cache;
    var e := EntryFor(c, MatchIndex(cfg, p, b));
    assert Unmixed(e);
    if e.buffers != map[] {
      var q :| q in e.buffers;
      assert e.buffers[q].info.isEnd == e.isEnd;
    }
  }
}
