/** Feeding a graph from outside: buffers sent port by port are cached until every port has one,
    then numbered and queued in step; closing queues one end flag per port.  */
module ExternalInput {
  import opened Buffers
  import opened StreamMatch
  import opened MatchRuns

  datatype ReturnCode = OK | STOP | INVALID

  datatype State = State(cache: map<Port, seq<int>>, count: map<Port, nat>, queue: map<Port, seq<Buffer>>, closed: bool)

  const ROOT := IndexInfo(0, false, false, NoInherit)

  /** A buffer as it enters the graph: expanded from the root buffer. */
  function Entering(index: nat, isEnd: bool, data: int): Buffer {
    Buffer(IndexInfo(index, isEnd, false, Inherit(EXPAND, ROOT, DepthBelow(ROOT))), data)
  }

  function Numbered(start: nat, data: seq<int>): seq<Buffer> {
    seq(|data|, k requires 0 <= k < |data| => Entering(start + k, false, data[k]))
  }

  ghost predicate WellFormed(s: State) {
    s.cache != map[] && s.cache.Keys == s.count.Keys == s.queue.Keys
  }

  /** How many buffers every port can supply. */
  function Shortest(cache: map<Port, seq<int>>): (n: nat)
    requires cache != map[]
    ensures (exists p | p in cache :: |cache[p]| == n) && forall p | p in cache :: n <= |cache[p]|
  {
    var sizes: set<nat> := set p | p in cache :: |cache[p]|;
    assert forall p | p in cache :: |cache[p]| in sizes;
    assert exists p :: p in cache && |cache[p]| in sizes;
    MinKey(sizes)
  }

  function Heads(cache: map<Port, seq<int>>, n: nat): map<Port, seq<int>>
    requires forall p | p in cache :: n <= |cache[p]|
  {
    map p | p in cache :: cache[p][..n]
  }

  function Tails(cache: map<Port, seq<int>>, n: nat): map<Port, seq<int>>
    requires forall p | p in cache :: n <= |cache[p]|
  {
    map p | p in cache :: cache[p][n..]
  }

  function Pushed(queue: map<Port, seq<Buffer>>, count: map<Port, nat>, matched: map<Port, seq<int>>): map<Port, seq<Buffer>>
    requires queue.Keys == count.Keys == matched.Keys
  {
    map p | p in queue :: queue[p] + Numbered(count[p], matched[p])
  }

  function Raised(count: map<Port, nat>, n: nat): map<Port, nat> {
    map p | p in count :: count[p] + n
  }

  function Release(s: State): State
    requires WellFormed(s)
  {
    var n := Shortest(s.cache);
    State(Tails(s.cache, n), Raised(s.count, n), Pushed(s.queue, s.count, Heads(s.cache, n)), s.closed)
  }

  function AfterSend(s: State, p: Port, data: seq<int>): (ReturnCode, State)
    requires WellFormed(s)
  {
    if s.closed then (STOP, s)
    else if p !in s.cache then (INVALID, s)
    else (OK, Release(s.(cache := s.cache[p := s.cache[p] + data])))
  }

  function AfterClose(s: State): State
    requires WellFormed(s)
  {
    if s.closed then s
    else State(s.cache,
               Raised(s.count, 1),
               map p | p in s.queue :: s.queue[p] + [Entering(s.count[p], true, 0)],
               true)
  }

  method FindShortest(cache: map<Port, seq<int>>) returns (n: nat)
    requires cache != map[]
    ensures n == Shortest(cache)
  {
    var left := cache.Keys;
    var p :| p in left;
    n := |cache[p]|;
    left := left - {p};
    while left != {}
      invariant left < cache.Keys
      invariant exists q :: q in cache && |cache[q]| == n
      invariant forall q | q in cache.Keys - left :: n <= |cache[q]|
      decreases left
    {
      var q :| q in left;
      if |cache[q]| < n { n := |cache[q]|; }
      left := left - {q};
    }
  }

  /** Splices the first n buffers off every port's cache. */
  method PopMatched(cache: map<Port, seq<int>>, n: nat) returns (matched: map<Port, seq<int>>, rest: map<Port, seq<int>>)
    requires forall p | p in cache :: n <= |cache[p]|
    ensures matched == Heads(cache, n)
    ensures rest == Tails(cache, n)
  {
    matched, rest := map[], cache;
    var todo := cache.Keys;
    while todo != {}
      invariant todo <= cache.Keys && rest.Keys == cache.Keys && matched.Keys == cache.Keys - todo
      invariant forall p | p in todo :: rest[p] == cache[p]
      invariant forall p | p in matched :: matched[p] == cache[p][..n] && rest[p] == cache[p][n..]
      decreases todo
    {
      var p :| p in todo;
      matched := matched[p := rest[p][..n]];
      rest := rest[p := rest[p][n..]];
      todo := todo - {p};
    }
  }

  /** Numbers the matched buffers of every port and pushes them to its queue. */
  method SendMatched(queue: map<Port, seq<Buffer>>, count: map<Port, nat>, matched: map<Port, seq<int>>)
    returns (sent: map<Port, seq<Buffer>>)
    requires queue.Keys == count.Keys == matched.Keys
    ensures sent == Pushed(queue, count, matched)
  {
    sent := queue;
    var todo := queue.Keys;
    while todo != {}
      invariant todo <= queue.Keys && sent.Keys == queue.Keys
      invariant forall p | p in todo :: sent[p] == queue[p]
      invariant forall p | p in queue.Keys && p !in todo :: sent[p] == queue[p] + Numbered(count[p], matched[p])
      decreases todo
    {
      var p :| p in todo;
      var batch := NumberBatch(count[p], matched[p]);
      sent := sent[p := sent[p] + batch];
      todo := todo - {p};
    }
  }

  method NumberBatch(start: nat, data: seq<int>) returns (batch: seq<Buffer>)
    ensures batch == Numbered(start, data)
  {
    batch := [];
    var next := start;
    for k := 0 to |data|
      invariant next == start + k && batch == Numbered(start, data[..k])
    {
      batch := batch + [Entering(next, false, data[k])];
      next := next + 1;
    }
    assert data[..|data|] == data;
  }

  method ReleaseMatched(s: State)
    returns (cache: map<Port, seq<int>>, count: map<Port, nat>, queue: map<Port, seq<Buffer>>)
    requires WellFormed(s)
    ensures State(cache, count, queue, s.closed) == Release(s)
  {
    var n := FindShortest(s.cache);
    var matched, rest := PopMatched(s.cache, n);
    cache := rest;
    queue := SendMatched(s.queue, s.count, matched);
    count := Raised(s.count, n);
  }

  class ExternalDataMap {
    var cache: map<Port, seq<int>>
    var streamCount: map<Port, nat>
    var queue: map<Port, seq<Buffer>>
    var closed: bool

    function Value(): State
      reads this
    {
      State(cache, streamCount, queue, closed)
    }

    constructor (ports: set<Port>)
      requires ports != {}
      ensures Value() == Opened(ports)
    {
      cache := map p | p in ports :: [];
      streamCount := map p | p in ports :: 0;
      queue := map p | p in ports :: [];
      closed := false;
    }

    method Send(port: Port, data: seq<int>) returns (ret: ReturnCode)
      requires WellFormed(Value())
      modifies this
      ensures ret == AfterSend(old(Value()), port, data).0
      ensures Value() == AfterSend(old(Value()), port, data).1
    {
      if closed { return STOP; }
      if port !in cache { return INVALID; }
      var cached := cache[port := cache[port] + data];
      assert AfterSend(Value(), port, data).1 == Release(State(cached, streamCount, queue, closed));
      cache, streamCount, queue := ReleaseMatched(State(cached, streamCount, queue, closed));
      return OK;
    }

    method Close()
      requires WellFormed(Value())
      modifies this
      ensures Value() == AfterClose(old(Value()))
    {
      if closed { return; }
      closed := true;
      queue := map p | p in queue :: queue[p] + [Entering(streamCount[p], true, 0)];
      streamCount := Raised(streamCount, 1);
    }
  }

  function Opened(ports: set<Port>): State {
    State(map p | p in ports :: [], map p | p in ports :: 0, map p | p in ports :: [], false)
  }

  // ----- every sequence of sends and closes -----

  datatype Op = SendOp(port: Port, data: seq<int>) | CloseOp

  function AfterOp(s: State, op: Op): (r: State)
    requires WellFormed(s)
    ensures WellFormed(r) && r.cache.Keys == s.cache.Keys
  {
    match op
    case SendOp(p, data) => AfterSend(s, p, data).1
    case CloseOp => AfterClose(s)
  }

  function AfterOps(ports: set<Port>, ops: seq<Op>): (r: State)
    requires ports != {}
    ensures WellFormed(r) && r.cache.Keys == ports
  {
    if ops == [] then
      assert Opened(ports).cache.Keys == ports;
      Opened(ports)
    else AfterOp(AfterOps(ports, ops[..|ops| - 1]), ops[|ops| - 1])
  }

  /** What was sent to port p before the first close. */
  function Sent(ops: seq<Op>, p: Port): seq<int> {
    if ops == [] then []
    else
      var before, op := ops[..|ops| - 1], ops[|ops| - 1];
      Sent(before, p) + (if op.SendOp? && op.port == p && CloseOp !in before then op.data else [])
  }

  /** Port p: the first n buffers sent are queued under indices 0..n-1, the rest is cached, and
      after a close the end flag follows at index n. */
  ghost predicate PortAt(s: State, sent: seq<int>, p: Port, n: nat) {
    && p in s.cache && p in s.count && p in s.queue
    && n <= |sent|
    && s.cache[p] == sent[n..]
    && s.queue[p] == Numbered(0, sent[..n]) + (if s.closed then [Entering(n, true, 0)] else [])
    && s.count[p] == |s.queue[p]|
  }

  ghost predicate AlignedAt(s: State, ops: seq<Op>, n: nat) {
    && (s.closed <==> CloseOp in ops)
    && (forall p | p in s.cache :: PortAt(s, Sent(ops, p), p, n))
  }

  /** Nothing is held back: some port has had all of its buffers queued. */
  ghost predicate ShortestAt(ports: set<Port>, ops: seq<Op>, n: nat) {
    exists p | p in ports :: |Sent(ops, p)| == n
  }

  lemma {:induction false} NumberedConcat(a: seq<int>, b: seq<int>)
    ensures Numbered(0, a) + Numbered(|a|, b) == Numbered(0, a + b)
  {
  }

  lemma {:induction false} PortAfterRelease(s: State, sent: seq<int>, p: Port, n: nat)
    requires WellFormed(s) && !s.closed && PortAt(s, sent, p, n)
    ensures PortAt(Release(s), sent, p, n + Shortest(s.cache))
  {
    var m := Shortest(s.cache);
    assert m <= |s.cache[p]|;
    assert sent[..n] + sent[n..][..m] == sent[..n + m];
    assert sent[n..][m..] == sent[n + m..];
    NumberedConcat(sent[..n], sent[n..][..m]);
  }

  lemma {:induction false} SentGrows(ops: seq<Op>, op: Op, p: Port)
    ensures Sent(ops + [op], p) == Sent(ops, p) + (if op.SendOp? && op.port == p && CloseOp !in ops then op.data else [])
  {
    assert (ops + [op])[..|ops|] == ops;
  }

  function Cached(s: State, op: Op): State
    requires op.SendOp? && op.port in s.cache
  {
    s.(cache := s.cache[op.port := s.cache[op.port] + op.data])
  }

  lemma {:induction false} CachedWellFormed(s: State, op: Op)
    requires WellFormed(s) && op.SendOp? && op.port in s.cache
    ensures WellFormed(Cached(s, op)) && Cached(s, op).cache.Keys == s.cache.Keys
  {
  }

  lemma {:induction false} PortCached(s: State, ops: seq<Op>, op: Op, p: Port, n: nat)
    requires !s.closed && CloseOp !in ops && op.SendOp? && op.port in s.cache && PortAt(s, Sent(ops, p), p, n)
    ensures PortAt(Cached(s, op), Sent(ops + [op], p), p, n)
  {
    SentGrows(ops, op, p);
    var sent, data := Sent(ops, p), if op.port == p then op.data else [];
    assert Sent(ops + [op], p) == sent + data;
    assert (sent + data)[..n] == sent[..n];
    assert (sent + data)[n..] == sent[n..] + data;
  }

  lemma {:induction false} PortAfterSend(s: State, ops: seq<Op>, op: Op, p: Port, n: nat)
    requires !s.closed && CloseOp !in ops && op.SendOp? && op.port in s.cache && WellFormed(Cached(s, op))
    requires PortAt(s, Sent(ops, p), p, n)
    ensures PortAt(Release(Cached(s, op)), Sent(ops + [op], p), p, n + Shortest(Cached(s, op).cache))
  {
    PortCached(s, ops, op, p, n);
    PortAfterRelease(Cached(s, op), Sent(ops + [op], p), p, n);
  }

  lemma {:induction false} PortAfterClose(s: State, ops: seq<Op>, p: Port, n: nat)
    requires WellFormed(s) && PortAt(s, Sent(ops, p), p, n)
    ensures PortAt(AfterClose(s), Sent(ops + [CloseOp], p), p, n)
  {
    SentGrows(ops, CloseOp, p);
  }

  lemma {:induction false} SendAligned(s: State, ops: seq<Op>, op: Op, n: nat)
    requires WellFormed(s) && AlignedAt(s, ops, n) && !s.closed && op.SendOp? && op.port in s.cache
    ensures WellFormed(Cached(s, op))
    ensures AlignedAt(AfterOp(s, op), ops + [op], n + Shortest(Cached(s, op).cache))
  {
    CachedWellFormed(s, op);
    var s' := Release(Cached(s, op));
    assert AfterOp(s, op) == s';
    forall p | p in s'.cache ensures PortAt(s', Sent(ops + [op], p), p, n + Shortest(Cached(s, op).cache)) {
      PortAfterSend(s, ops, op, p, n);
    }
  }

  lemma {:induction false} SendShortest(s: State, ops: seq<Op>, op: Op, n: nat)
    requires AlignedAt(s, ops, n) && !s.closed && op.SendOp? && op.port in s.cache && WellFormed(Cached(s, op))
    ensures ShortestAt(s.cache.Keys, ops + [op], n + Shortest(Cached(s, op).cache))
  {
    assert Cached(s, op).cache.Keys == s.cache.Keys;
    var cache := Cached(s, op).cache;
    var q :| q in cache && |cache[q]| == Shortest(cache);
    PortCached(s, ops, op, q, n);
    assert |Sent(ops + [op], q)| == n + Shortest(cache);
  }

  lemma {:induction false} OpAligned(s: State, ops: seq<Op>, op: Op, n: nat)
    requires WellFormed(s) && AlignedAt(s, ops, n) && (op.SendOp? ==> s.closed || op.port !in s.cache)
    ensures AlignedAt(AfterOp(s, op), ops + [op], n)
  {
    if op.CloseOp? {
      forall p | p in s.cache ensures PortAt(AfterClose(s), Sent(ops + [op], p), p, n) {
        PortAfterClose(s, ops, p, n);
      }
    } else {
      assert AfterOp(s, op) == s;
      forall p | p in s.cache ensures PortAt(s, Sent(ops + [op], p), p, n) {
        SentGrows(ops, op, p);
        assert Sent(ops, p) + [] == Sent(ops, p);
      }
    }
  }

  lemma {:induction false} OpShortest(s: State, ops: seq<Op>, op: Op, n: nat)
    requires ShortestAt(s.cache.Keys, ops, n) && (s.closed <==> CloseOp in ops)
    requires op.SendOp? ==> s.closed || op.port !in s.cache
    ensures ShortestAt(s.cache.Keys, ops + [op], n)
  {
    var q :| q in s.cache.Keys && |Sent(ops, q)| == n;
    SentGrows(ops, op, q);
    assert |Sent(ops + [op], q)| == n;
  }

  lemma {:induction false} SendStep(s: State, ops: seq<Op>, op: Op, n: nat) returns (m: nat)
    requires WellFormed(s) && AlignedAt(s, ops, n) && op.SendOp? && !s.closed && op.port in s.cache
    ensures AlignedAt(AfterOp(s, op), ops + [op], m) && ShortestAt(s.cache.Keys, ops + [op], m)
  {
    CachedWellFormed(s, op);
    m := n + Shortest(Cached(s, op).cache);
    SendShortest(s, ops, op, n);
    SendAligned(s, ops, op, n);
  }

  lemma {:induction false} StepAligned(s: State, ops: seq<Op>, op: Op, n: nat) returns (m: nat)
    requires WellFormed(s) && AlignedAt(s, ops, n) && ShortestAt(s.cache.Keys, ops, n)
    ensures AlignedAt(AfterOp(s, op), ops + [op], m) && ShortestAt(s.cache.Keys, ops + [op], m)
  {
    if op.SendOp? && !s.closed && op.port in s.cache {
      m := SendStep(s, ops, op, n);
    } else {
      m := n;
      OpShortest(s, ops, op, n);
      OpAligned(s, ops, op, n);
    }
  }

  /** After any sequence of sends and closes all ports are aligned at one index n, the length of
      the shortest port: what was sent is what is queued followed by what is cached. */
  lemma {:induction false} PortsStayAligned(ports: set<Port>, ops: seq<Op>) returns (n: nat)
    requires ports != {}
    ensures AlignedAt(AfterOps(ports, ops), ops, n) && ShortestAt(ports, ops, n)
  {
    if ops == [] {
      n := 0;
      var q :| q in ports;
      assert |Sent(ops, q)| == 0;
    } else {
      var before, op := ops[..|ops| - 1], ops[|ops| - 1];
      assert ops == before + [op];
      n := PortsStayAligned(ports, before);
      n := StepAligned(AfterOps(ports, before), before, op, n);
    }
  }

  // ----- what the matching of the ports sees -----

  function ArrivedOn(acts: seq<Action>, p: Port): seq<Buffer> {
    if acts == [] then []
    else
      var a := acts[|acts| - 1];
      ArrivedOn(acts[..|acts| - 1], p) + (if a.Arrive? && a.port == p then [a.buffer] else [])
  }

  /** The node reads each port's queue from the front, the ports in any interleaving. */
  ghost predicate FifoRun(queue: map<Port, seq<Buffer>>, acts: seq<Action>) {
    && (forall k | 0 <= k < |acts| :: acts[k].Arrive? ==> acts[k].port in queue)
    && (forall p | p in queue :: ArrivedOn(acts, p) <= queue[p])
  }

  /** Every port of the node is fed by at most one upstream port. */
  ghost predicate OneFeed(cfg: Config) {
    forall p | p in cfg.ports :: cfg.StreamCount(p) <= 1
  }

  /** What port p carries: the first n buffers sent, then the end flag a close puts (or would put). */
  function InputStream(ops: seq<Op>, p: Port, n: nat): seq<Buffer>
    requires n <= |Sent(ops, p)|
  {
    Numbered(0, Sent(ops, p)[..n]) + [Entering(n, true, 0)]
  }

  function InputPlan(ports: set<Port>, ops: seq<Op>, n: nat): Plan
    requires forall p | p in ports :: n <= |Sent(ops, p)|
  {
    Plan(n, map p | p in ports :: InputStream(ops, p, n))
  }

  lemma {:induction false} FifoPrefix(queue: map<Port, seq<Buffer>>, acts: seq<Action>)
    requires FifoRun(queue, acts) && acts != []
    ensures FifoRun(queue, acts[..|acts| - 1])
  {
    var before := acts[..|acts| - 1];
    forall p | p in queue ensures ArrivedOn(before, p) <= queue[p] {
      assert ArrivedOn(before, p) <= ArrivedOn(acts, p);
    }
  }

  /** Reading a numbered queue from the front delivers each index at most once. */
  lemma {:induction false} FifoDelivers(cfg: Config, queue: map<Port, seq<Buffer>>, acts: seq<Action>, p: Port, i: nat)
    requires OneFeed(cfg) && queue.Keys == cfg.ports && p in queue && FifoRun(queue, acts)
    requires forall q, k | q in queue && 0 <= k < |queue[q]| :: queue[q][k].info.index == k
    ensures Delivered(cfg, acts)[(p, i)] == if i < |ArrivedOn(acts, p)| then 1 else 0
    decreases |acts|
  {
    if acts != [] {
      FifoPrefix(queue, acts);
      FifoDelivers(cfg, queue, acts[..|acts| - 1], p, i);
      var a := acts[|acts| - 1];
      if a.Arrive? && a.port == p {
        var k := |ArrivedOn(acts, p)| - 1;
        assert a.buffer == queue[p][k] && a.buffer.info.index == k;
      }
    }
  }

  lemma {:induction false} PlanRow(sent: seq<int>, n: nat, i: nat)
    requires n <= |sent| && i <= n
    ensures var row := Numbered(0, sent[..n]) + [Entering(n, true, 0)];
            |row| == n + 1 && row[i].info.index == i && (row[i].info.isEnd <==> i == n) && !row[i].info.isPlaceholder
  {
  }

  lemma {:induction false} InputPlanValid(cfg: Config, ops: seq<Op>, n: nat)
    requires cfg.ports != {} && forall p | p in cfg.ports :: n <= |Sent(ops, p)|
    ensures ValidPlan(cfg, InputPlan(cfg.ports, ops, n))
    ensures forall p, i | p in cfg.ports && 0 <= i <= n :: !InputPlan(cfg.ports, ops, n).At(p, i).info.isPlaceholder
  {
    var plan := InputPlan(cfg.ports, ops, n);
    forall p, i | p in cfg.ports && 0 <= i <= n
      ensures |plan.rows[p]| == n + 1 && plan.At(p, i).info.index == i
      ensures (plan.At(p, i).info.isEnd <==> i == n) && !plan.At(p, i).info.isPlaceholder
    {
      PlanRow(Sent(ops, p), n, i);
    }
  }

  lemma {:induction false} InputPlanStream(cfg: Config, ops: seq<Op>, n: nat, p: Port)
    requires p in cfg.ports && forall q | q in cfg.ports :: n <= |Sent(ops, q)|
    ensures PlanStream(cfg, InputPlan(cfg.ports, ops, n), p) == InputPlan(cfg.ports, ops, n).rows[p]
  {
    InputPlanValid(cfg, ops, n);
    var plan := InputPlan(cfg.ports, ops, n);
    assert forall i | 0 <= i <= n :: plan.At(p, i) == plan.rows[p][i];
  }

  ghost predicate QueuesFromPlan(queue: map<Port, seq<Buffer>>, plan: Plan) {
    && queue.Keys == plan.rows.Keys
    && (forall p | p in queue :: queue[p] <= plan.rows[p])
    && (forall p, k | p in queue && 0 <= k < |queue[p]| :: queue[p][k].info.index == k)
  }

  lemma {:induction false} EnoughSent(ports: set<Port>, ops: seq<Op>, n: nat)
    requires ports != {} && AlignedAt(AfterOps(ports, ops), ops, n)
    ensures forall p | p in ports :: n <= |Sent(ops, p)|
  {
    forall p | p in ports ensures n <= |Sent(ops, p)| {
      assert PortAt(AfterOps(ports, ops), Sent(ops, p), p, n);
    }
  }

  lemma {:induction false} PrefixNumbered(queue: seq<Buffer>, sent: seq<int>, n: nat)
    requires n <= |sent| && queue <= Numbered(0, sent[..n]) + [Entering(n, true, 0)]
    ensures forall k | 0 <= k < |queue| :: queue[k].info.index == k
  {
    forall k | 0 <= k < |queue| ensures queue[k].info.index == k { PlanRow(sent, n, k); }
  }

  /** One queue holds a prefix of what its port carries. */
  ghost predicate QueueFromStream(queue: seq<Buffer>, stream: seq<Buffer>) {
    queue <= stream && forall k | 0 <= k < |queue| :: queue[k].info.index == k
  }

  lemma {:induction false} QueueIsPlan(s: State, ops: seq<Op>, p: Port, n: nat)
    requires PortAt(s, Sent(ops, p), p, n)
    ensures QueueFromStream(s.queue[p], InputStream(ops, p, n))
  {
    PrefixNumbered(s.queue[p], Sent(ops, p), n);
  }

  lemma {:induction false} QueuesArePlan(ports: set<Port>, ops: seq<Op>, n: nat)
    requires ports != {} && AlignedAt(AfterOps(ports, ops), ops, n)
    ensures forall p | p in ports :: n <= |Sent(ops, p)|
    ensures QueuesFromPlan(AfterOps(ports, ops).queue, InputPlan(ports, ops, n))
  {
    EnoughSent(ports, ops, n);
    var s, plan := AfterOps(ports, ops), InputPlan(ports, ops, n);
    forall p | p in ports ensures QueueFromStream(s.queue[p], plan.rows[p]) {
      assert PortAt(s, Sent(ops, p), p, n);
      QueueIsPlan(s, ops, p, n);
    }
    FromStreams(s.queue, plan);
  }

  lemma {:induction false} FromStreams(queue: map<Port, seq<Buffer>>, plan: Plan)
    requires queue.Keys == plan.rows.Keys && forall p | p in queue :: QueueFromStream(queue[p], plan.rows[p])
    ensures QueuesFromPlan(queue, plan)
  {
    forall p, k | p in queue && 0 <= k < |queue[p]| ensures queue[p][k].info.index == k {
      assert QueueFromStream(queue[p], plan.rows[p]);
    }
  }

  lemma {:induction false} ArrivedInQueue(queue: map<Port, seq<Buffer>>, acts: seq<Action>, k: nat)
    requires FifoRun(queue, acts) && k < |acts| && acts[k].Arrive?
    ensures acts[k].port in queue && acts[k].buffer in queue[acts[k].port]
    decreases |acts|
  {
    var n := |acts| - 1;
    if k < n {
      FifoPrefix(queue, acts);
      ArrivedInQueue(queue, acts[..n], k);
    } else {
      var p := acts[n].port;
      assert ArrivedOn(acts, p)[|ArrivedOn(acts, p)| - 1] == acts[n].buffer;
    }
  }

  lemma {:induction false} FifoIsLegal(cfg: Config, plan: Plan, queue: map<Port, seq<Buffer>>, acts: seq<Action>)
    requires ValidPlan(cfg, plan) && OneFeed(cfg) && QueuesFromPlan(queue, plan) && FifoRun(queue, acts)
    ensures Legal(cfg, plan, acts)
  {
    forall k | 0 <= k < |acts| ensures FromPlan(cfg, plan, acts[k]) {
      if acts[k].Arrive? {
        ArrivedInQueue(queue, acts, k);
        var p, b := acts[k].port, acts[k].buffer;
        var j :| 0 <= j < |queue[p]| && queue[p][j] == b;
        assert plan.rows[p][j] == b;
      }
    }
    forall p, i: nat | p in cfg.ports ensures Delivered(cfg, acts)[(p, i)] <= Need(cfg, plan, p, i) {
      FifoDelivers(cfg, queue, acts, p, i);
    }
  }

  lemma {:induction false} InputRunIsLegal(cfg: Config, ops: seq<Op>, acts: seq<Action>) returns (n: nat)
    requires OneFeed(cfg) && cfg.ports != {} && FifoRun(AfterOps(cfg.ports, ops).queue, acts)
    ensures AlignedAt(AfterOps(cfg.ports, ops), ops, n) && ShortestAt(cfg.ports, ops, n)
    ensures forall p | p in cfg.ports :: n <= |Sent(ops, p)|
    ensures Legal(cfg, InputPlan(cfg.ports, ops, n), acts)
  {
    n := PortsStayAligned(cfg.ports, ops);
    QueuesArePlan(cfg.ports, ops, n);
    InputPlanValid(cfg, ops, n);
    FifoIsLegal(cfg, InputPlan(cfg.ports, ops, n), AfterOps(cfg.ports, ops).queue, acts);
  }

  /** However the sends, the close and the reads interleave, the end/data mismatch fault of the
      matching cannot occur. */
  lemma {:induction false} MismatchUnreachable(cfg: Config, ops: seq<Op>, acts: seq<Action>, mode: Mode)
    requires OneFeed(cfg) && cfg.ports != {} && FifoRun(AfterOps(cfg.ports, ops).queue, acts)
    ensures !Run(cfg, mode, acts).faulted
  {
    var n := InputRunIsLegal(cfg, ops, acts);
    RunInv(cfg, InputPlan(cfg.ports, ops, n), mode, acts);
  }

  /** In order, a node gets on every port a prefix of the buffers sent there, numbered from 0 and cut
      to the shortest port's length, then the end flag. */
  lemma {:induction false} InputReleasesPrefix(cfg: Config, ops: seq<Op>, acts: seq<Action>, mode: Mode, p: Port)
    returns (n: nat)
    requires OneFeed(cfg) && p in cfg.ports && mode.inOrder && FifoRun(AfterOps(cfg.ports, ops).queue, acts)
    ensures ShortestAt(cfg.ports, ops, n) && n <= |Sent(ops, p)|
    ensures p in Run(cfg, mode, acts).out
    ensures Run(cfg, mode, acts).out[p] <= InputStream(ops, p, n)
  {
    n := InputRunIsLegal(cfg, ops, acts);
    InOrderReleasesPrefix(cfg, InputPlan(cfg.ports, ops, n), mode, acts);
    InputPlanStream(cfg, ops, n, p);
  }

  /** ... and all of it once the input is closed, every queue is read and the cache popped. */
  lemma {:induction false} InputReleasedWhole(cfg: Config, ops: seq<Op>, acts: seq<Action>, mode: Mode, p: Port)
    returns (n: nat)
    requires OneFeed(cfg) && p in cfg.ports && mode.inOrder && FifoRun(AfterOps(cfg.ports, ops).queue, acts + [PopNow]) && CloseOp in ops
    requires forall q | q in cfg.ports :: ArrivedOn(acts, q) == AfterOps(cfg.ports, ops).queue[q]
    ensures ShortestAt(cfg.ports, ops, n) && n <= |Sent(ops, p)|
    ensures p in Run(cfg, mode, acts + [PopNow]).out
    ensures Run(cfg, mode, acts + [PopNow]).out[p] == InputStream(ops, p, n)
  {
    n := InputRunIsLegal(cfg, ops, acts + [PopNow]);
    AllRead(cfg, ops, acts, n);
    InOrderIsConfluent(cfg, InputPlan(cfg.ports, ops, n), mode, acts, p);
    InputPlanStream(cfg, ops, n, p);
  }

  lemma {:induction false} AllRead(cfg: Config, ops: seq<Op>, acts: seq<Action>, n: nat)
    requires OneFeed(cfg) && cfg.ports != {} && AlignedAt(AfterOps(cfg.ports, ops), ops, n) && CloseOp in ops
    requires forall p | p in cfg.ports :: n <= |Sent(ops, p)|
    requires FifoRun(AfterOps(cfg.ports, ops).queue, acts + [PopNow])
    requires forall q | q in cfg.ports :: ArrivedOn(acts, q) == AfterOps(cfg.ports, ops).queue[q]
    ensures AllDelivered(cfg, InputPlan(cfg.ports, ops, n), Delivered(cfg, acts + [PopNow]))
  {
    var all, s := acts + [PopNow], AfterOps(cfg.ports, ops);
    assert all[..|all| - 1] == acts;
    QueuesArePlan(cfg.ports, ops, n);
    forall p, i: nat | p in cfg.ports && i <= n ensures Delivered(cfg, all)[(p, i)] == 1 {
      assert PortAt(s, Sent(ops, p), p, n);
      assert ArrivedOn(all, p) == s.queue[p];
      FifoDelivers(cfg, s.queue, all, p, i);
    }
  }
}
