/** Whole runs of a node's input, stream by stream.

    A run of the manager is replayed as a flat sequence of events, from which the history of every
    stream is projected.  Where each stream brings what its plan has, the manager's caches, its
    counters and what it hands to the node are those of the streams taken one at a time.  */
module FlowRuns {
  import Basics
  import opened Buffers
  import opened StreamMatch
  import opened FlowControl
  import MatchRuns

  datatype Event =
    | Read(port: Port)
    | Cached(port: Port, arrival: Arrival)
    | Generated(key: Key)
    | Cleaned(keys: set<Key>)

  type Lists = map<Port, seq<Buffer>>

  const START := Manager(map[], map[])

  function Apply(s: Settings, m: Manager, e: Event): (bool, Manager) {
    match e
    case Read(p) => (true, m.(counts := Touch(m.counts, p)))
    case Cached(p, a) => CacheOne(s.cfg, m, p, a)
    case Generated(k) => (true, if k in m.caches then GenKey(s, m, k) else m)
    case Cleaned(keys) => (true, m.(caches := m.caches - keys))
  }

  /** A fault stops the node: nothing after it happens. */
  function Replay(s: Settings, m: Manager, events: seq<Event>): (bool, Manager) {
    if events == [] then (true, m)
    else
      var (ok, m1) := Replay(s, m, events[..|events| - 1]);
      if ok then Apply(s, m1, events[|events| - 1]) else (false, m1)
  }

  // ----- the events of a run -----

  function BatchEvents(p: Port, batch: seq<Arrival>): seq<Event> {
    if batch == [] then [] else [Cached(p, batch[0])] + BatchEvents(p, batch[1..])
  }

  function Batch(s: Settings, m: Manager, p: Port, queue: seq<Arrival>): seq<Arrival> {
    var n := ReadCount(s.queueSize, Touch(m.counts, p), p);
    if n < |queue| then queue[..n] else queue
  }

  function LoadEvents(s: Settings, m: Manager, ports: seq<Port>, queues: map<Port, seq<Arrival>>): seq<Event>
    decreases |ports|
  {
    if ports == [] then []
    else
      var queue := QueueOf(queues, ports[0]);
      [Read(ports[0])] + BatchEvents(ports[0], Batch(s, m, ports[0], queue))
      + LoadEvents(s, LoadPort(s, m, ports[0], queue).1, ports[1..], queues)
  }

  function GenEvents(keys: seq<Key>): seq<Event> {
    if keys == [] then [] else [Generated(keys[0])] + GenEvents(keys[1..])
  }

  function StepEvents(s: Settings, ports: seq<Port>, m: Manager, step: Step): seq<Event> {
    match step
    case Load(queues) => LoadEvents(s, m, ports, queues)
    case Generate(keys) => GenEvents(keys)
    case Clean(aborted) => [Cleaned(aborted)]
  }

  function Trace(s: Settings, ports: seq<Port>, steps: seq<Step>): seq<Event> {
    if steps == [] then []
    else
      var before := steps[..|steps| - 1];
      Trace(s, ports, before) + StepEvents(s, ports, Run(s, ports, before).1, steps[|steps| - 1])
  }

  function Then(s: Settings, r: (bool, Manager), events: seq<Event>): (bool, Manager) {
    if r.0 then Replay(s, r.1, events) else r
  }

  lemma {:induction false} ReplayConcat(s: Settings, m: Manager, a: seq<Event>, b: seq<Event>)
    ensures Replay(s, m, a + b) == Then(s, Replay(s, m, a), b)
  {
    if b == [] {
      assert a + b == a;
    } else {
      ReplayConcat(s, m, a, b[..|b| - 1]);
      assert (a + b)[..|a + b| - 1] == a + b[..|b| - 1];
    }
  }

  lemma {:induction false} ReplayOne(s: Settings, m: Manager, e: Event)
    ensures Replay(s, m, [e]) == Apply(s, m, e)
  {
    assert [e][..0] == [];
  }

  lemma {:induction false} ReplayCons(s: Settings, m: Manager, e: Event, events: seq<Event>)
    ensures Replay(s, m, [e] + events) == Then(s, Apply(s, m, e), events)
  {
    ReplayConcat(s, m, [e], events);
    ReplayOne(s, m, e);
  }

  lemma {:induction false} BatchIsReplay(s: Settings, m: Manager, p: Port, batch: seq<Arrival>)
    ensures Replay(s, m, BatchEvents(p, batch)) == CacheMany(s.cfg, m, p, batch)
    decreases |batch|
  {
    if batch != [] {
      ReplayCons(s, m, Cached(p, batch[0]), BatchEvents(p, batch[1..]));
      BatchIsReplay(s, CacheOne(s.cfg, m, p, batch[0]).1, p, batch[1..]);
    }
  }

  lemma {:induction false} LoadPortIsReplay(s: Settings, m: Manager, p: Port, queue: seq<Arrival>)
    ensures Replay(s, m, [Read(p)] + BatchEvents(p, Batch(s, m, p, queue))) == LoadPort(s, m, p, queue)
  {
    ReplayCons(s, m, Read(p), BatchEvents(p, Batch(s, m, p, queue)));
    BatchIsReplay(s, m.(counts := Touch(m.counts, p)), p, Batch(s, m, p, queue));
  }

  lemma {:induction false} LoadIsReplay(s: Settings, m: Manager, ports: seq<Port>, queues: map<Port, seq<Arrival>>)
    ensures Replay(s, m, LoadEvents(s, m, ports, queues)) == LoadPorts(s, m, ports, queues)
    decreases |ports|
  {
    if ports != [] {
      var queue := QueueOf(queues, ports[0]);
      var m1 := LoadPort(s, m, ports[0], queue).1;
      LoadPortIsReplay(s, m, ports[0], queue);
      LoadIsReplay(s, m1, ports[1..], queues);
      ReplayConcat(s, m, [Read(ports[0])] + BatchEvents(ports[0], Batch(s, m, ports[0], queue)),
                   LoadEvents(s, m1, ports[1..], queues));
    }
  }

  lemma {:induction false} GenIsReplay(s: Settings, m: Manager, keys: seq<Key>)
    ensures Replay(s, m, GenEvents(keys)) == (true, GenKeys(s, m, keys))
    decreases |keys|
  {
    if keys != [] {
      ReplayCons(s, m, Generated(keys[0]), GenEvents(keys[1..]));
      GenIsReplay(s, if keys[0] in m.caches then GenKey(s, m, keys[0]) else m, keys[1..]);
    }
  }

  lemma {:induction false} StepIsReplay(s: Settings, ports: seq<Port>, m: Manager, step: Step)
    ensures Replay(s, m, StepEvents(s, ports, m, step)) == After(s, ports, m, step)
  {
    match step
    case Load(queues) => LoadIsReplay(s, m, ports, queues);
    case Generate(keys) => GenIsReplay(s, m, keys);
    case Clean(aborted) => ReplayOne(s, m, Cleaned(aborted));
  }

  /** The events are the run. */
  lemma {:induction false} RunIsReplay(s: Settings, ports: seq<Port>, steps: seq<Step>)
    ensures Run(s, ports, steps) == Replay(s, START, Trace(s, ports, steps))
  {
    if steps != [] {
      var before, step := steps[..|steps| - 1], steps[|steps| - 1];
      RunIsReplay(s, ports, before);
      StepIsReplay(s, ports, Run(s, ports, before).1, step);
      ReplayConcat(s, START, Trace(s, ports, before), StepEvents(s, ports, Run(s, ports, before).1, step));
    }
  }

  // ----- what a load reads -----

  /** The buffers of port p among the events, in order. */
  function ReadFrom(events: seq<Event>, p: Port): seq<Arrival> {
    if events == [] then []
    else
      var e := events[0];
      (if e.Cached? && e.port == p then [e.arrival] else []) + ReadFrom(events[1..], p)
  }

  lemma {:induction false} ReadFromConcat(a: seq<Event>, b: seq<Event>, p: Port)
    ensures ReadFrom(a + b, p) == ReadFrom(a, p) + ReadFrom(b, p)
  {
    if a == [] {
      assert a + b == b;
    } else {
      ReadFromConcat(a[1..], b, p);
      var first := if a[0].Cached? && a[0].port == p then [a[0].arrival] else [];
      assert (a + b)[0] == a[0] && (a + b)[1..] == a[1..] + b;
      assert ReadFrom(a + b, p) == first + ReadFrom(a[1..] + b, p);
      Basics.Assoc(first, ReadFrom(a[1..], p), ReadFrom(b, p));
    }
  }

  lemma {:induction false} ReadFromBatch(q: Port, batch: seq<Arrival>, p: Port)
    ensures ReadFrom(BatchEvents(q, batch), p) == if q == p then batch else []
  {
    if batch != [] {
      ReadFromBatch(q, batch[1..], p);
      assert BatchEvents(q, batch)[1..] == BatchEvents(q, batch[1..]);
    }
  }

  lemma {:induction false} ReadFromTurn(s: Settings, m: Manager, q: Port, queue: seq<Arrival>, p: Port)
    ensures ReadFrom([Read(q)] + BatchEvents(q, Batch(s, m, q, queue)), p) == if q == p then Batch(s, m, q, queue) else []
  {
    var batch := BatchEvents(q, Batch(s, m, q, queue));
    assert ([Read(q)] + batch)[1..] == batch;
    ReadFromBatch(q, Batch(s, m, q, queue), p);
  }

  lemma {:induction false} OthersReadNone(s: Settings, m: Manager, ports: seq<Port>, queues: map<Port, seq<Arrival>>, p: Port)
    requires p !in ports
    ensures ReadFrom(LoadEvents(s, m, ports, queues), p) == []
    decreases |ports|
  {
    if ports != [] {
      var queue := QueueOf(queues, ports[0]);
      var m1 := LoadPort(s, m, ports[0], queue).1;
      ReadFromTurn(s, m, ports[0], queue, p);
      OthersReadNone(s, m1, ports[1..], queues, p);
      ReadFromConcat([Read(ports[0])] + BatchEvents(ports[0], Batch(s, m, ports[0], queue)),
                     LoadEvents(s, m1, ports[1..], queues), p);
    }
  }

  /** No other port's counter is below p's. */
  ghost predicate Trails(counts: map<Port, nat>, p: Port, ports: set<Port>) {
    counts.Keys <= ports && forall q | q in ports :: CountOf(counts, p) <= CountOf(counts, q)
  }

  lemma {:induction false} CacheManyRaises(cfg: Config, m: Manager, p: Port, batch: seq<Arrival>)
    requires p in m.counts
    ensures Raises(m.counts, CacheMany(cfg, m, p, batch).1.counts, p, |batch|)
    decreases |batch|
  {
    if batch != [] {
      CacheOneRaises(cfg, m, p, batch[0]);
      var (ok, m1) := CacheOne(cfg, m, p, batch[0]);
      if ok { CacheManyRaises(cfg, m1, p, batch[1..]); }
    }
  }

  /** The turn of another port leaves p's counter and takes no port below it. */
  lemma {:induction false} StillTrails(s: Settings, m: Manager, q: Port, queue: seq<Arrival>, p: Port)
    requires Trails(m.counts, p, s.cfg.ports) && q != p && q in s.cfg.ports
    ensures Trails(LoadPort(s, m, q, queue).1.counts, p, s.cfg.ports)
    ensures CountOf(LoadPort(s, m, q, queue).1.counts, p) == CountOf(m.counts, p)
  {
    var touched := m.(counts := Touch(m.counts, q));
    assert forall r :: CountOf(touched.counts, r) == CountOf(m.counts, r);
    CacheManyRaises(s.cfg, touched, q, Batch(s, m, q, queue));
  }

  lemma {:induction false} TrailingReads(s: Settings, m: Manager, p: Port, queue: seq<Arrival>)
    requires Trails(m.counts, p, s.cfg.ports)
    requires p in s.cfg.ports
    ensures Batch(s, m, p, queue) == queue[..Smaller(|queue|, Share(s.queueSize, CountOf(m.counts, p)))]
  {
    var touched := Touch(m.counts, p);
    forall q | q in touched ensures touched[p] <= touched[q] {
      assert CountOf(m.counts, p) <= CountOf(m.counts, q);
    }
    ShortestReads(s.queueSize, touched, p);
    assert queue[..|queue|] == queue;
  }

  lemma {:induction false} LoadReads(s: Settings, m: Manager, ports: seq<Port>, queues: map<Port, seq<Arrival>>, p: Port)
    requires p in ports && DistinctPorts(ports) && PortSet(ports) <= s.cfg.ports && Trails(m.counts, p, s.cfg.ports)
    ensures var queue := QueueOf(queues, p);
            ReadFrom(LoadEvents(s, m, ports, queues), p)
              == queue[..Smaller(|queue|, Share(s.queueSize, CountOf(m.counts, p)))]
    decreases |ports|
  {
    var q, queue := ports[0], QueueOf(queues, ports[0]);
    var m1 := LoadPort(s, m, q, queue).1;
    PortsInSet(ports);
    ReadFromTurn(s, m, q, queue, p);
    ReadFromConcat([Read(q)] + BatchEvents(q, Batch(s, m, q, queue)), LoadEvents(s, m1, ports[1..], queues), p);
    if q == p {
      TrailingReads(s, m, p, queue);
      OthersReadNone(s, m1, ports[1..], queues, p);
    } else {
      StillTrails(s, m, q, queue, p);
      LoadReads(s, m1, ports[1..], queues, p);
    }
  }

  /** In every reachable state a load reads from a port with the smallest counter, from the front of its
      queue, a full share or all there is; so with data there and room it takes a buffer. */
  lemma {:induction false} ShortestPortIsRead(s: Settings, ports: seq<Port>, steps: seq<Step>, queues: map<Port, seq<Arrival>>,
                                              p: Port)
    requires DistinctPorts(ports) && PortSet(ports) == s.cfg.ports && p in s.cfg.ports && Run(s, ports, steps).0
    requires forall q | q in s.cfg.ports :: CountOf(Run(s, ports, steps).1.counts, p) <= CountOf(Run(s, ports, steps).1.counts, q)
    ensures var m, queue := Run(s, ports, steps).1, QueueOf(queues, p);
            var read := ReadFrom(StepEvents(s, ports, m, Load(queues)), p);
            && Trace(s, ports, steps + [Load(queues)]) == Trace(s, ports, steps) + StepEvents(s, ports, m, Load(queues))
            && read == queue[..Smaller(|queue|, Share(s.queueSize, CountOf(m.counts, p)))]
            && (queue != [] && s.queueSize > 0 && CountOf(m.counts, p) < MAX_CACHE_COUNT ==> read != [] && read[0] == queue[0])
  {
    AlwaysBounded(s, ports, steps);
    InPortSet(ports, p);
    LoadReads(s, Run(s, ports, steps).1, ports, queues, p);
    assert (steps + [Load(queues)])[..|steps|] == steps;
  }

  lemma {:induction false} InPortSet(ports: seq<Port>, p: Port)
    ensures p in PortSet(ports) <==> p in ports
  {
    if ports != [] { InPortSet(ports[1..], p); }
  }

  // ----- the first load -----

  /** Some load found data on every port. */
  predicate Known(ports: seq<Port>, steps: seq<Step>) {
    steps != []
    && (Known(ports, steps[..|steps| - 1])
        || (steps[|steps| - 1].Load? && AllHaveData(ports, steps[|steps| - 1].queues)))
  }

  /** The steps that take effect: as long as no load found data on every port, loads do not. */
  function Performed(ports: seq<Port>, steps: seq<Step>): seq<Step> {
    if steps == [] then []
    else
      var before, last := Performed(ports, steps[..|steps| - 1]), steps[|steps| - 1];
      if last.Load? && !Known(ports, steps) then before else before + [last]
  }

  lemma {:induction false} NonePerformed(ports: seq<Port>, steps: seq<Step>)
    requires !Known(ports, steps)
    ensures forall k | 0 <= k < |Performed(ports, steps)| :: !Performed(ports, steps)[k].Load?
  {
    if steps != [] { NonePerformed(ports, steps[..|steps| - 1]); }
  }

  lemma {:induction false} GenKeysOfNone(s: Settings, keys: seq<Key>)
    ensures GenKeys(s, START, keys) == START
  {
    if keys != [] { GenKeysOfNone(s, keys[1..]); }
  }

  lemma {:induction false} ReadsOfGen(keys: seq<Key>, p: Port)
    ensures ReadFrom(GenEvents(keys), p) == []
  {
    if keys != [] {
      ReadsOfGen(keys[1..], p);
      assert GenEvents(keys)[1..] == GenEvents(keys[1..]);
    }
  }

  lemma {:induction false} NothingWithoutLoads(s: Settings, ports: seq<Port>, steps: seq<Step>, p: Port)
    requires forall k | 0 <= k < |steps| :: !steps[k].Load?
    ensures Run(s, ports, steps) == (true, START) && ReadFrom(Trace(s, ports, steps), p) == []
  {
    if steps != [] {
      var n := |steps| - 1;
      NothingWithoutLoads(s, ports, steps[..n], p);
      ReadFromConcat(Trace(s, ports, steps[..n]), StepEvents(s, ports, START, steps[n]), p);
      match steps[n]
      case Load(_) =>
      case Generate(keys) =>
        GenKeysOfNone(s, keys);
        ReadsOfGen(keys, p);
      case Clean(aborted) =>
        assert START.caches - aborted == START.caches;
    }
  }

  /** As long as some port has had no data at every load nothing is read; the first load that finds data on
      every port reads from every port, from the front of its queue. */
  lemma {:induction false} FirstLoadReadsAll(s: Settings, ports: seq<Port>, steps: seq<Step>, queues: map<Port, seq<Arrival>>, p: Port)
    requires DistinctPorts(ports) && PortSet(ports) == s.cfg.ports && p in ports && s.queueSize > 0
    requires forall k | 0 <= k < |steps| && steps[k].Load? :: exists q :: q in ports && QueueOf(steps[k].queues, q) == []
    requires forall q | q in ports :: QueueOf(queues, q) != []
    ensures ReadFrom(Trace(s, ports, Performed(ports, steps)), p) == []
    ensures var read := ReadFrom(Trace(s, ports, Performed(ports, steps + [Load(queues)])), p);
            read != [] && read[0] == QueueOf(queues, p)[0]
  {
    InPortSet(ports, p);
    StillUnknown(ports, steps);
    NonePerformed(ports, steps);
    var before := Performed(ports, steps);
    NothingWithoutLoads(s, ports, before, p);
    ShortestPortIsRead(s, ports, before, queues, p);
    var all := steps + [Load(queues)];
    assert all[..|steps|] == steps && Known(ports, all);
    assert Performed(ports, all) == before + [Load(queues)];
    ReadFromConcat(Trace(s, ports, before), StepEvents(s, ports, START, Load(queues)), p);
  }

  lemma {:induction false} StillUnknown(ports: seq<Port>, steps: seq<Step>)
    requires forall k | 0 <= k < |steps| && steps[k].Load? :: exists q :: q in ports && QueueOf(steps[k].queues, q) == []
    ensures !Known(ports, steps)
  {
    if steps != [] { StillUnknown(ports, steps[..|steps| - 1]); }
  }

  // ----- exact bookkeeping of every run -----

  function Among(caches: map<Key, CacheState>, keys: set<Key>): map<Key, CacheState> {
    map k | k in caches && k in keys :: caches[k]
  }

  /** Entries of port p an event takes out of the caches without uncounting them. */
  function LostBy(s: Settings, m: Manager, e: Event, p: Port): nat {
    match e
    case Read(_) => 0
    case Cached(q, a) => if !a.dropped && Overwrites(s.cfg, CacheOf(m.caches, a.key), q, a.buffer) then 1 else 0
    case Generated(k) =>
      if k in m.caches && StreamEnd(PopKey(s, m, k).caches[k]) then HeldIn(PopKey(s, m, k).caches[k], p) else 0
    case Cleaned(keys) => Held(Among(m.caches, keys), p)
  }

  function Lost(s: Settings, m: Manager, events: seq<Event>, p: Port): nat {
    if events == [] then 0
    else
      var before := events[..|events| - 1];
      Lost(s, m, before, p)
      + (if Replay(s, m, before).0 then LostBy(s, Replay(s, m, before).1, events[|events| - 1], p) else 0)
  }

  /** From m to m', the counter of p has moved as the entries held, but for those lost. */
  ghost predicate Balanced(m: Manager, m': Manager, lost: nat, p: Port) {
    CountOf(m'.counts, p) + Held(m.caches, p) == CountOf(m.counts, p) + Held(m'.caches, p) + lost
  }

  lemma {:induction false} LostConcat(s: Settings, m: Manager, a: seq<Event>, b: seq<Event>, p: Port)
    ensures Lost(s, m, a + b, p)
         == Lost(s, m, a, p) + (if Replay(s, m, a).0 then Lost(s, Replay(s, m, a).1, b, p) else 0)
  {
    if b == [] {
      assert a + b == a;
    } else {
      var before := b[..|b| - 1];
      LostConcat(s, m, a, before, p);
      ReplayConcat(s, m, a, before);
      assert (a + b)[..|a + b| - 1] == a + before;
    }
  }

  lemma {:induction false} LostOne(s: Settings, m: Manager, e: Event, p: Port)
    ensures Lost(s, m, [e], p) == LostBy(s, m, e, p)
  {
    assert [e][..0] == [];
  }

  lemma {:induction false} BatchBalanced(s: Settings, m: Manager, q: Port, batch: seq<Arrival>, p: Port)
    requires CachesOk(s.cfg.ports, m.caches) && q in s.cfg.ports && p in s.cfg.ports
    ensures Balanced(m, CacheMany(s.cfg, m, q, batch).1, Lost(s, m, BatchEvents(q, batch), p), p)
    ensures CachesOk(s.cfg.ports, CacheMany(s.cfg, m, q, batch).1.caches)
    decreases |batch|
  {
    if batch != [] {
      var e := Cached(q, batch[0]);
      var (ok, m1) := CacheOne(s.cfg, m, q, batch[0]);
      LostConcat(s, m, [e], BatchEvents(q, batch[1..]), p);
      LostOne(s, m, e, p);
      ReplayOne(s, m, e);
      CacheOneCaches(s.cfg, m, q, batch[0]);
      if !batch[0].dropped { CacheOneAccounts(s.cfg, m, q, batch[0], p); }
      BatchBalanced(s, m1, q, batch[1..], p);
    }
  }

  lemma {:induction false} LoadPortBalanced(s: Settings, m: Manager, q: Port, queue: seq<Arrival>, p: Port)
    requires CachesOk(s.cfg.ports, m.caches) && q in s.cfg.ports && p in s.cfg.ports
    ensures var events := [Read(q)] + BatchEvents(q, Batch(s, m, q, queue));
            Balanced(m, LoadPort(s, m, q, queue).1, Lost(s, m, events, p), p)
    ensures CachesOk(s.cfg.ports, LoadPort(s, m, q, queue).1.caches)
  {
    var batch := Batch(s, m, q, queue);
    var m1 := m.(counts := Touch(m.counts, q));
    LostConcat(s, m, [Read(q)], BatchEvents(q, batch), p);
    LostOne(s, m, Read(q), p);
    ReplayOne(s, m, Read(q));
    BatchBalanced(s, m1, q, batch, p);
  }

  lemma {:induction false} LoadBalanced(s: Settings, m: Manager, ports: seq<Port>, queues: map<Port, seq<Arrival>>, p: Port)
    requires CachesOk(s.cfg.ports, m.caches) && PortSet(ports) <= s.cfg.ports && p in s.cfg.ports
    ensures Balanced(m, LoadPorts(s, m, ports, queues).1, Lost(s, m, LoadEvents(s, m, ports, queues), p), p)
    decreases |ports|
  {
    if ports != [] {
      var queue := QueueOf(queues, ports[0]);
      var first := [Read(ports[0])] + BatchEvents(ports[0], Batch(s, m, ports[0], queue));
      var m1 := LoadPort(s, m, ports[0], queue).1;
      LoadPortBalanced(s, m, ports[0], queue, p);
      LoadPortIsReplay(s, m, ports[0], queue);
      LostConcat(s, m, first, LoadEvents(s, m1, ports[1..], queues), p);
      LoadBalanced(s, m1, ports[1..], queues, p);
    }
  }

  lemma {:induction false} LoweredCount(s: Settings, counts: map<Port, nat>, n: nat, p: Port)
    requires Bounded(s, counts) && (forall q | q in counts :: n <= counts[q]) && n <= CountOf(counts, p)
    ensures CountOf(Lowered(counts, n), p) + n == CountOf(counts, p)
  {
    LoweredExactly(counts, n);
  }

  /** A pop uncounts what it takes. */
  lemma {:induction false} PopBalanced(s: Settings, m: Manager, k: Key, p: Port)
    requires Covers(s.cfg.ports, m) && Bounded(s, m.counts) && k in m.caches && p in s.cfg.ports
    ensures Balanced(m, PopKey(s, m, k), 0, p)
  {
    PopTakesHeld(s, m, k, p);
    PopFitsCounters(s, m, k);
    LoweredCount(s, m.counts, |PopOrder(m.caches[k].ready, m.caches[k].next, s.inOrder)|, p);
  }

  lemma {:induction false} PopFitsCounters(s: Settings, m: Manager, k: Key)
    requires Covers(s.cfg.ports, m) && Bounded(s, m.counts) && k in m.caches
    ensures forall q | q in m.counts :: |PopOrder(m.caches[k].ready, m.caches[k].next, s.inOrder)| <= m.counts[q]
  {
    PopAccounts(s, m, k);
  }

  lemma {:induction false} GenKeyBalanced(s: Settings, m: Manager, k: Key, p: Port)
    requires Covers(s.cfg.ports, m) && Bounded(s, m.counts) && k in m.caches && p in s.cfg.ports
    ensures Balanced(m, GenKey(s, m, k), LostBy(s, m, Generated(k), p), p)
  {
    PopBalanced(s, m, k, p);
    var m1 := PopKey(s, m, k);
    PopKeyKeeps(s, m, k);
    HeldRemove(m1.caches, k, p);
  }

  lemma {:induction false} GenBalanced(s: Settings, m: Manager, keys: seq<Key>, p: Port)
    requires Covers(s.cfg.ports, m) && Bounded(s, m.counts) && p in s.cfg.ports
    ensures Balanced(m, GenKeys(s, m, keys), Lost(s, m, GenEvents(keys), p), p)
    decreases |keys|
  {
    if keys != [] {
      var e := Generated(keys[0]);
      LostConcat(s, m, [e], GenEvents(keys[1..]), p);
      LostOne(s, m, e, p);
      ReplayOne(s, m, e);
      if keys[0] in m.caches {
        GenKeyBalanced(s, m, keys[0], p);
        GenKeyKeeps(s, m, keys[0]);
        GenBalanced(s, GenKey(s, m, keys[0]), keys[1..], p);
      } else {
        GenBalanced(s, m, keys[1..], p);
      }
    }
  }

  lemma {:induction false} HeldSplit(caches: map<Key, CacheState>, keys: set<Key>, p: Port)
    ensures Held(caches, p) == Held(caches - keys, p) + Held(Among(caches, keys), p)
    decreases |caches|
  {
    if caches == map[] {
      assert caches - keys == map[];
      assert Among(caches, keys) == map[];
    } else {
      var k :| k in caches;
      var rest := caches - {k};
      assert rest.Keys == caches.Keys - {k};
      HeldRemove(caches, k, p);
      HeldSplit(rest, keys, p);
      HeldSplitOne(caches, keys, k, p);
    }
  }

  lemma {:induction false} HeldSplitOne(caches: map<Key, CacheState>, keys: set<Key>, k: Key, p: Port)
    requires k in caches
    ensures Held(caches - keys, p) + Held(Among(caches, keys), p)
         == HeldIn(caches[k], p) + Held(caches - {k} - keys, p) + Held(Among(caches - {k}, keys), p)
  {
    var rest := caches - {k};
    var out, out' := caches - keys, rest - keys;
    var inn, inn' := Among(caches, keys), Among(rest, keys);
    if k in keys {
      assert out' == out;
      assert inn - {k} == inn';
      HeldRemove(inn, k, p);
    } else {
      assert inn' == inn;
      assert out - {k} == out';
      HeldRemove(out, k, p);
    }
  }

  lemma {:induction false} CleanBalanced(s: Settings, m: Manager, aborted: set<Key>, p: Port)
    ensures Balanced(m, m.(caches := m.caches - aborted), Lost(s, m, [Cleaned(aborted)], p), p)
  {
    LostOne(s, m, Cleaned(aborted), p);
    HeldSplit(m.caches, aborted, p);
  }

  lemma {:induction false} StepBalanced(s: Settings, ports: seq<Port>, m: Manager, step: Step, p: Port)
    requires PortSet(ports) == s.cfg.ports && p in s.cfg.ports
    requires Covers(s.cfg.ports, m) && Bounded(s, m.counts)
    ensures Balanced(m, After(s, ports, m, step).1, Lost(s, m, StepEvents(s, ports, m, step), p), p)
  {
    match step
    case Load(queues) => LoadBalanced(s, m, ports, queues, p);
    case Generate(keys) => GenBalanced(s, m, keys, p);
    case Clean(aborted) => CleanBalanced(s, m, aborted, p);
  }

  /** In every run a port's counter is what the port has in the caches plus what was taken out of
      them uncounted; so the two agree exactly while nothing is lost. */
  lemma {:induction false} CounterIsHeldPlusLost(s: Settings, ports: seq<Port>, steps: seq<Step>, p: Port)
    requires DistinctPorts(ports) && PortSet(ports) == s.cfg.ports && p in s.cfg.ports
    ensures var m := Run(s, ports, steps).1;
            CountOf(m.counts, p) == Held(m.caches, p) + Lost(s, START, Trace(s, ports, steps), p)
  {
    if steps != [] {
      var before, step := steps[..|steps| - 1], steps[|steps| - 1];
      CounterIsHeldPlusLost(s, ports, before, p);
      AlwaysBounded(s, ports, before);
      var (ok, m) := Run(s, ports, before);
      RunIsReplay(s, ports, before);
      LostConcat(s, START, Trace(s, ports, before), StepEvents(s, ports, m, step), p);
      if ok {
        StepBalanced(s, ports, m, step, p);
      }
    }
  }

  // ----- the history of one stream -----

  predicate TakenIn(e: Event, k: Key) {
    e.Cached? && !e.arrival.dropped && e.arrival.key == k
  }

  predicate PoppedIn(e: Event, k: Key) {
    e.Generated? && e.key == k
  }

  function Act(e: Event, k: Key): seq<MatchRuns.Action> {
    if TakenIn(e, k) then [MatchRuns.Arrive(e.port, e.arrival.buffer)]
    else if PoppedIn(e, k) then [MatchRuns.PopNow]
    else []
  }

  /** What a run does to stream k. */
  function Acts(events: seq<Event>, k: Key): seq<MatchRuns.Action> {
    if events == [] then [] else Acts(events[..|events| - 1], k) + Act(events[|events| - 1], k)
  }

  /** The keys whose session has been cleaned away. */
  function Aborted(events: seq<Event>): set<Key> {
    if events == [] then {}
    else Aborted(events[..|events| - 1]) + (if events[|events| - 1].Cleaned? then events[|events| - 1].keys else {})
  }

  function ModeOf(s: Settings): MatchRuns.Mode {
    MatchRuns.Mode(s.inOrder, s.gatherAll)
  }

  /** Stream k taken by itself. */
  function Alone(s: Settings, events: seq<Event>, k: Key): MatchRuns.Sys {
    MatchRuns.Run(s.cfg, ModeOf(s), Acts(events, k))
  }

  /** Stream k brings what its plan has, and nothing once its session is aborted. */
  ghost predicate LegalFor(s: Settings, plan: MatchRuns.Plan, events: seq<Event>, k: Key) {
    MatchRuns.Legal(s.cfg, plan, Acts(events, k)) && NoneAfterAbort(events, k)
  }

  ghost predicate NoneAfterAbort(events: seq<Event>, k: Key) {
    forall i | 0 <= i < |events| && TakenIn(events[i], k) :: k !in Aborted(events[..i])
  }

  ghost predicate LegalRun(s: Settings, plans: Key -> MatchRuns.Plan, events: seq<Event>) {
    forall k: Key :: LegalFor(s, plans(k), events, k)
  }

  lemma {:induction false} ActsSnoc(s: Settings, events: seq<Event>, k: Key)
    requires events != []
    ensures var before, act := events[..|events| - 1], Act(events[|events| - 1], k);
            && Acts(events, k) == Acts(before, k) + act
            && Alone(s, events, k)
            == if act == [] then Alone(s, before, k) else MatchRuns.Step(s.cfg, ModeOf(s), Alone(s, before, k), act[0])
  {
    var before, act := events[..|events| - 1], Act(events[|events| - 1], k);
    if act == [] {
      assert Acts(events, k) == Acts(before, k);
    } else {
      assert |act| == 1;
      assert Acts(events, k)[..|Acts(events, k)| - 1] == Acts(before, k);
    }
  }

  lemma {:induction false} ActsLegalPrefix(cfg: Config, plan: MatchRuns.Plan, acts: seq<MatchRuns.Action>, e: Event, k: Key)
    requires MatchRuns.Legal(cfg, plan, acts + Act(e, k))
    ensures MatchRuns.Legal(cfg, plan, acts)
  {
    var all := acts + Act(e, k);
    if Act(e, k) == [] {
      assert all == acts;
    } else {
      assert all[..|all| - 1] == acts;
      MatchRuns.LegalPrefix(cfg, plan, all);
    }
  }

  lemma {:induction false} AbortPrefix(events: seq<Event>, k: Key)
    requires NoneAfterAbort(events, k) && events != []
    ensures NoneAfterAbort(events[..|events| - 1], k)
  {
    var before := events[..|events| - 1];
    forall i | 0 <= i < |before| && TakenIn(before[i], k) ensures k !in Aborted(before[..i]) {
      assert before[..i] == events[..i] && before[i] == events[i];
    }
  }

  lemma {:induction false} LegalForPrefix(s: Settings, plan: MatchRuns.Plan, events: seq<Event>, k: Key)
    requires LegalFor(s, plan, events, k) && events != []
    ensures LegalFor(s, plan, events[..|events| - 1], k)
  {
    ActsLegalPrefix(s.cfg, plan, Acts(events[..|events| - 1], k), events[|events| - 1], k);
    AbortPrefix(events, k);
  }

  // ----- each cache is the cache of its stream alone -----

  predicate Drained(c: CacheState) {
    c.pending == map[] && c.ready == map[]
  }

  /** An open cache is the stream's; a missing one has not begun, is over, or was aborted. */
  ghost predicate KeyOk(caches: map<Key, CacheState>, c: CacheState, aborted: bool, k: Key) {
    if k in caches then caches[k] == c
    else aborted || c == EMPTY_CACHE || (StreamEnd(c) && Drained(c))
  }

  /** Events about other streams leave this one's cache. */
  lemma {:induction false} OthersLeave(s: Settings, m: Manager, e: Event, k: Key)
    requires Act(e, k) == [] && !e.Cleaned?
    ensures var m' := Apply(s, m, e).1;
            (k in m'.caches <==> k in m.caches) && (k in m.caches ==> m'.caches[k] == m.caches[k])
  {
  }

  lemma {:induction false} AllGotNeedsNoMore(cfg: Config, plan: MatchRuns.Plan, got: multiset<(Port, nat)>, p: Port, i: nat)
    requires p in cfg.ports && i <= plan.end && MatchRuns.AllDelivered(cfg, plan, got)
    ensures !MatchRuns.WithinNeed(cfg, plan, got + multiset{(p, i)})
  {
    assert MatchRuns.Complete(cfg, plan, got, i);
    assert MatchRuns.Need(cfg, plan, p, i) < (got + multiset{(p, i)})[(p, i)];
  }

  /** A stream that is over gets no further legal arrival. */
  lemma {:induction false} OverTakesNoMore(cfg: Config, plan: MatchRuns.Plan, mode: MatchRuns.Mode, sys: MatchRuns.Sys, p: Port,
                                           b: Buffer)
    requires MatchRuns.Inv(cfg, plan, mode, sys) && StreamEnd(sys.cache)
    requires MatchRuns.FromPlan(cfg, plan, MatchRuns.Arrive(p, b))
    ensures !MatchRuns.WithinNeed(cfg, plan, sys.got + multiset{(p, MatchRuns.MatchIndex(cfg, p, b))})
  {
    MatchRuns.AllRowsComplete(cfg, plan, sys.got);
    if !MatchRuns.AllDelivered(cfg, plan, sys.got) {
      MatchRuns.StreamNotEnded(cfg, plan, mode, sys);
    }
    MatchRuns.EffectiveOfPlan(cfg, plan, p, b);
    AllGotNeedsNoMore(cfg, plan, sys.got, p, MatchRuns.MatchIndex(cfg, p, b));
  }

  /** An arrival finds its stream's own cache, made afresh when there is none. */
  lemma {:induction false} ArrivalFindsOwn(s: Settings, plan: MatchRuns.Plan, events: seq<Event>, m: Manager, k: Key)
    requires LegalFor(s, plan, events, k) && events != [] && TakenIn(events[|events| - 1], k)
    requires var before := events[..|events| - 1];
             KeyOk(m.caches, Alone(s, before, k).cache, k in Aborted(before), k)
    ensures CacheOf(m.caches, k) == Alone(s, events[..|events| - 1], k).cache
  {
    var before, e := events[..|events| - 1], events[|events| - 1];
    var sys := Alone(s, before, k);
    LegalForPrefix(s, plan, events, k);
    MatchRuns.RunInv(s.cfg, plan, ModeOf(s), Acts(before, k));
    LastArrival(s, plan, events, k);
    if k !in m.caches && StreamEnd(sys.cache) {
      OverTakesNoMore(s.cfg, plan, ModeOf(s), sys, e.port, e.arrival.buffer);
      assert false;
    }
  }

  lemma {:induction false} LastArrival(s: Settings, plan: MatchRuns.Plan, events: seq<Event>, k: Key)
    requires LegalFor(s, plan, events, k) && events != [] && TakenIn(events[|events| - 1], k)
    ensures var before, e := events[..|events| - 1], events[|events| - 1];
            && k !in Aborted(before)
            && MatchRuns.FromPlan(s.cfg, plan, MatchRuns.Arrive(e.port, e.arrival.buffer))
            && MatchRuns.WithinNeed(s.cfg, plan, Alone(s, before, k).got
                 + multiset{(e.port, MatchRuns.MatchIndex(s.cfg, e.port, e.arrival.buffer))})
  {
    var before, e := events[..|events| - 1], events[|events| - 1];
    var acts := Acts(events, k);
    LegalForPrefix(s, plan, events, k);
    MatchRuns.RunInv(s.cfg, plan, ModeOf(s), Acts(before, k));
    assert acts[|acts| - 1] == MatchRuns.Arrive(e.port, e.arrival.buffer);
    assert acts[..|acts| - 1] == Acts(before, k);
  }

  lemma {:induction false} PopAlone(s: Settings, sys: MatchRuns.Sys, m: Manager, k: Key)
    requires k in m.caches && m.caches[k] == sys.cache
    ensures PopKey(s, m, k).caches[k] == MatchRuns.Step(s.cfg, ModeOf(s), sys, MatchRuns.PopNow).cache
  {
    MatchRuns.StepPops(s.cfg, ModeOf(s), sys);
    var c := sys.cache;
    if PopOrder(c.ready, c.next, s.inOrder) == [] {
      assert AfterPop(c, s.inOrder) == c;
    }
  }

  /** A pop of an absent stream does nothing to it. */
  lemma {:induction false} PopNothing(s: Settings, sys: MatchRuns.Sys)
    requires sys.cache == EMPTY_CACHE || (StreamEnd(sys.cache) && Drained(sys.cache))
    ensures MatchRuns.Step(s.cfg, ModeOf(s), sys, MatchRuns.PopNow).cache == sys.cache
  {
  }

  lemma {:induction false} OverIsDrained(s: Settings, plan: MatchRuns.Plan, acts: seq<MatchRuns.Action>)
    requires MatchRuns.Legal(s.cfg, plan, acts + [MatchRuns.PopNow])
    requires StreamEnd(MatchRuns.Run(s.cfg, ModeOf(s), acts + [MatchRuns.PopNow]).cache)
    ensures Drained(MatchRuns.Run(s.cfg, ModeOf(s), acts + [MatchRuns.PopNow]).cache)
  {
    MatchRuns.StreamEndIsLossless(s.cfg, plan, ModeOf(s), acts);
  }

  lemma {:induction false} PopKeepsKey(s: Settings, sys: MatchRuns.Sys, m: Manager, aborted: bool, k: Key)
    requires KeyOk(m.caches, sys.cache, aborted, k)
    requires var c := MatchRuns.Step(s.cfg, ModeOf(s), sys, MatchRuns.PopNow).cache; StreamEnd(c) ==> Drained(c)
    ensures KeyOk(Apply(s, m, Generated(k)).1.caches, MatchRuns.Step(s.cfg, ModeOf(s), sys, MatchRuns.PopNow).cache, aborted, k)
  {
    if k in m.caches {
      PopAlone(s, sys, m, k);
    } else if !aborted {
      PopNothing(s, sys);
    }
  }

  lemma {:induction false} GeneratedKeeps(s: Settings, plan: MatchRuns.Plan, events: seq<Event>, m: Manager, k: Key)
    requires LegalFor(s, plan, events, k) && events != [] && PoppedIn(events[|events| - 1], k)
    requires var before := events[..|events| - 1];
             KeyOk(m.caches, Alone(s, before, k).cache, k in Aborted(before), k)
    ensures KeyOk(Apply(s, m, Generated(k)).1.caches, Alone(s, events, k).cache, k in Aborted(events), k)
  {
    var before := events[..|events| - 1];
    ActsSnoc(s, events, k);
    if StreamEnd(Alone(s, events, k).cache) {
      OverIsDrained(s, plan, Acts(before, k));
    }
    PopKeepsKey(s, Alone(s, before, k), m, k in Aborted(before), k);
  }

  lemma {:induction false} ArrivalKeeps(s: Settings, plan: MatchRuns.Plan, events: seq<Event>, m: Manager, k: Key)
    requires LegalFor(s, plan, events, k) && events != [] && TakenIn(events[|events| - 1], k)
    requires var before := events[..|events| - 1];
             KeyOk(m.caches, Alone(s, before, k).cache, k in Aborted(before), k)
    ensures KeyOk(Apply(s, m, events[|events| - 1]).1.caches, Alone(s, events, k).cache, k in Aborted(events), k)
  {
    var e := events[|events| - 1];
    ActsSnoc(s, events, k);
    ArrivalFindsOwn(s, plan, events, m, k);
    MatchRuns.StepArrives(s.cfg, ModeOf(s), Alone(s, events[..|events| - 1], k), Act(e, k)[0]);
  }

  lemma {:induction false} OtherKeeps(s: Settings, events: seq<Event>, m: Manager, k: Key)
    requires events != [] && !TakenIn(events[|events| - 1], k) && !PoppedIn(events[|events| - 1], k)
    requires var before := events[..|events| - 1];
             KeyOk(m.caches, Alone(s, before, k).cache, k in Aborted(before), k)
    ensures KeyOk(Apply(s, m, events[|events| - 1]).1.caches, Alone(s, events, k).cache, k in Aborted(events), k)
  {
    var e := events[|events| - 1];
    ActsSnoc(s, events, k);
    if !e.Cleaned? { OthersLeave(s, m, e, k); }
  }

  lemma {:induction false} EventKeeps(s: Settings, plan: MatchRuns.Plan, events: seq<Event>, m: Manager, k: Key)
    requires LegalFor(s, plan, events, k) && events != []
    requires var before := events[..|events| - 1];
             KeyOk(m.caches, Alone(s, before, k).cache, k in Aborted(before), k)
    ensures KeyOk(Apply(s, m, events[|events| - 1]).1.caches, Alone(s, events, k).cache, k in Aborted(events), k)
  {
    var e := events[|events| - 1];
    if TakenIn(e, k) {
      ArrivalKeeps(s, plan, events, m, k);
    } else if PoppedIn(e, k) {
      GeneratedKeeps(s, plan, events, m, k);
    } else {
      OtherKeeps(s, events, m, k);
    }
  }

  /** Projection: whatever the other streams do, stream k fares as it would alone. */
  lemma {:induction false} KeyProjects(s: Settings, plan: MatchRuns.Plan, events: seq<Event>, k: Key)
    requires LegalFor(s, plan, events, k) && Replay(s, START, events).0
    ensures KeyOk(Replay(s, START, events).1.caches, Alone(s, events, k).cache, k in Aborted(events), k)
  {
    if events != [] {
      var before := events[..|events| - 1];
      LegalForPrefix(s, plan, events, k);
      KeyProjects(s, plan, before, k);
      EventKeeps(s, plan, events, Replay(s, START, before).1, k);
    }
  }

  // ----- legal streams never fault and lose nothing -----

  lemma {:induction false} LegalRunPrefix(s: Settings, plans: Key -> MatchRuns.Plan, events: seq<Event>)
    requires LegalRun(s, plans, events) && events != []
    ensures LegalRun(s, plans, events[..|events| - 1])
  {
    forall k: Key ensures LegalFor(s, plans(k), events[..|events| - 1], k) {
      LegalForPrefix(s, plans(k), events, k);
    }
  }

  lemma {:induction false} ArrivalSucceeds(s: Settings, plan: MatchRuns.Plan, events: seq<Event>, m: Manager, k: Key)
    requires LegalFor(s, plan, events, k) && events != [] && TakenIn(events[|events| - 1], k)
    requires CacheOf(m.caches, k) == Alone(s, events[..|events| - 1], k).cache
    ensures Apply(s, m, events[|events| - 1]).0
    ensures var e := events[|events| - 1]; !Overwrites(s.cfg, CacheOf(m.caches, k), e.port, e.arrival.buffer)
  {
    var before, e := events[..|events| - 1], events[|events| - 1];
    ActsSnoc(s, events, k);
    MatchRuns.StepArrives(s.cfg, ModeOf(s), Alone(s, before, k), Act(e, k)[0]);
    MatchRuns.RunInv(s.cfg, plan, ModeOf(s), Acts(events, k));
    LegalForPrefix(s, plan, events, k);
    MatchRuns.RunInv(s.cfg, plan, ModeOf(s), Acts(before, k));
    LastArrival(s, plan, events, k);
    LegalNeverOverwrites(s.cfg, plan, ModeOf(s), Alone(s, before, k), e.port, e.arrival.buffer);
  }

  lemma {:induction false} DrainedHeld(c: CacheState, p: Port)
    requires Drained(c)
    ensures HeldIn(c, p) == 0
  {
    assert With(map[], p) == {};
  }

  lemma {:induction false} LastEventFine(s: Settings, plans: Key -> MatchRuns.Plan, events: seq<Event>, p: Port)
    requires LegalRun(s, plans, events) && events != [] && Replay(s, START, events[..|events| - 1]).0
    ensures var m, e := Replay(s, START, events[..|events| - 1]).1, events[|events| - 1];
            && Apply(s, m, e).0
            && (!e.Cleaned? ==> LostBy(s, m, e, p) == 0)
  {
    var before, e := events[..|events| - 1], events[|events| - 1];
    var m := Replay(s, START, before).1;
    LegalRunPrefix(s, plans, events);
    match e
    case Read(_) =>
    case Cached(q, a) =>
      if !a.dropped {
        var k := a.key;
        KeyProjects(s, plans(k), before, k);
        ArrivalFindsOwn(s, plans(k), events, m, k);
        ArrivalSucceeds(s, plans(k), events, m, k);
      }
    case Generated(k) =>
      KeyProjects(s, plans(k), before, k);
      if k in m.caches && StreamEnd(PopKey(s, m, k).caches[k]) {
        ErasedIsDrained(s, plans(k), events, m, k);
        DrainedHeld(PopKey(s, m, k).caches[k], p);
      }
    case Cleaned(_) =>
  }

  /** A stream is erased only when nothing, matched or half matched, is left of it. */
  lemma {:induction false} ErasedIsDrained(s: Settings, plan: MatchRuns.Plan, events: seq<Event>, m: Manager, k: Key)
    requires LegalFor(s, plan, events, k) && events != [] && PoppedIn(events[|events| - 1], k)
    requires k in m.caches && m.caches[k] == Alone(s, events[..|events| - 1], k).cache
    requires StreamEnd(PopKey(s, m, k).caches[k])
    ensures Drained(PopKey(s, m, k).caches[k])
  {
    ActsSnoc(s, events, k);
    PopAlone(s, Alone(s, events[..|events| - 1], k), m, k);
    OverIsDrained(s, plan, Acts(events[..|events| - 1], k));
  }

  /** The entries the cleaning of aborted sessions took. */
  function CleanedAway(s: Settings, m: Manager, events: seq<Event>, p: Port): nat {
    if events == [] then 0
    else
      var before, e := events[..|events| - 1], events[|events| - 1];
      CleanedAway(s, m, before, p) + (if e.Cleaned? then Held(Among(Replay(s, m, before).1.caches, e.keys), p) else 0)
  }

  lemma {:induction false} LegalRunsOn(s: Settings, plans: Key -> MatchRuns.Plan, events: seq<Event>, p: Port)
    requires LegalRun(s, plans, events)
    ensures Replay(s, START, events).0
    ensures Lost(s, START, events, p) == CleanedAway(s, START, events, p)
  {
    if events != [] {
      LegalRunPrefix(s, plans, events);
      LegalRunsOn(s, plans, events[..|events| - 1], p);
      LastEventFine(s, plans, events, p);
    }
  }

  lemma {:induction false} NothingCleaned(s: Settings, m: Manager, events: seq<Event>, p: Port)
    requires forall i | 0 <= i < |events| :: !events[i].Cleaned?
    ensures CleanedAway(s, m, events, p) == 0
  {
    if events != [] {
      NothingCleaned(s, m, events[..|events| - 1], p);
    }
  }

  // ----- theorems over every run of the node's input -----

  /** Legal streams never fault the node, and every cache is that of its stream alone. */
  lemma {:induction false} ManagerProjects(s: Settings, ports: seq<Port>, steps: seq<Step>, plans: Key -> MatchRuns.Plan, k: Key)
    requires LegalRun(s, plans, Trace(s, ports, steps))
    ensures var (ok, m) := Run(s, ports, steps);
            var events := Trace(s, ports, steps);
            var sys := Alone(s, events, k);
            && ok
            && MatchRuns.Inv(s.cfg, plans(k), ModeOf(s), sys)
            && (k in m.caches ==> m.caches[k] == sys.cache)
            && (k !in m.caches && k !in Aborted(events) && sys.cache != EMPTY_CACHE ==>
                  StreamEnd(sys.cache) && Drained(sys.cache))
  {
    var events := Trace(s, ports, steps);
    RunIsReplay(s, ports, steps);
    LegalRunsOn(s, plans, events, "");
    KeyProjects(s, plans(k), events, k);
    MatchRuns.RunInv(s.cfg, plans(k), ModeOf(s), Acts(events, k));
  }

  /** Legal streams: a counter exceeds what is held exactly by what cleaning aborted sessions took. */
  lemma {:induction false} LegalCounters(s: Settings, ports: seq<Port>, steps: seq<Step>, plans: Key -> MatchRuns.Plan, p: Port)
    requires DistinctPorts(ports) && PortSet(ports) == s.cfg.ports && p in s.cfg.ports
    requires LegalRun(s, plans, Trace(s, ports, steps))
    ensures var (ok, m) := Run(s, ports, steps);
            ok && CountOf(m.counts, p) == Held(m.caches, p) + CleanedAway(s, START, Trace(s, ports, steps), p)
  {
    CounterIsHeldPlusLost(s, ports, steps, p);
    RunIsReplay(s, ports, steps);
    LegalRunsOn(s, plans, Trace(s, ports, steps), p);
  }

  /** Without aborts the counters are the entries held. */
  lemma {:induction false} CountersEqualHeld(s: Settings, ports: seq<Port>, steps: seq<Step>, plans: Key -> MatchRuns.Plan,
                                             p: Port)
    requires DistinctPorts(ports) && PortSet(ports) == s.cfg.ports && p in s.cfg.ports
    requires LegalRun(s, plans, Trace(s, ports, steps))
    requires forall i | 0 <= i < |steps| :: !steps[i].Clean?
    ensures var (ok, m) := Run(s, ports, steps); ok && CountOf(m.counts, p) == Held(m.caches, p)
  {
    LegalCounters(s, ports, steps, plans, p);
    TraceNotCleaned(s, ports, steps);
    NothingCleaned(s, START, Trace(s, ports, steps), p);
  }

  lemma {:induction false} PopIsLegal(cfg: Config, plan: MatchRuns.Plan, acts: seq<MatchRuns.Action>)
    requires MatchRuns.Legal(cfg, plan, acts)
    ensures MatchRuns.Legal(cfg, plan, acts + [MatchRuns.PopNow])
  {
    var all := acts + [MatchRuns.PopNow];
    assert all[..|all| - 1] == acts;
    assert MatchRuns.Delivered(cfg, all) == MatchRuns.Delivered(cfg, acts);
  }

  lemma {:induction false} PopAfterAbort(events: seq<Event>, k: Key)
    requires NoneAfterAbort(events, k)
    ensures NoneAfterAbort(events + [Generated(k)], k)
  {
    var all := events + [Generated(k)];
    forall i | 0 <= i < |all| && TakenIn(all[i], k) ensures k !in Aborted(all[..i]) {
      assert all[..i] == events[..i] && all[i] == events[i];
    }
  }

  lemma {:induction false} PopActs(events: seq<Event>, k: Key)
    ensures Acts(events + [Generated(k)], k) == Acts(events, k) + [MatchRuns.PopNow]
  {
    var all := events + [Generated(k)];
    assert all[..|all| - 1] == events;
  }

  lemma {:induction false} PopStaysLegal(s: Settings, plan: MatchRuns.Plan, events: seq<Event>, k: Key)
    requires LegalFor(s, plan, events, k)
    ensures LegalFor(s, plan, events + [Generated(k)], k)
  {
    PopActs(events, k);
    PopIsLegal(s.cfg, plan, Acts(events, k));
    PopAfterAbort(events, k);
  }

  /** In every legal run a stream is erased only when nothing is left in its cache. */
  lemma {:induction false} ErasesOnlyDrained(s: Settings, ports: seq<Port>, steps: seq<Step>, plans: Key -> MatchRuns.Plan,
                                             k: Key)
    requires LegalRun(s, plans, Trace(s, ports, steps)) && k in Run(s, ports, steps).1.caches
    requires k !in GenKey(s, Run(s, ports, steps).1, k).caches
    ensures Drained(PopKey(s, Run(s, ports, steps).1, k).caches[k])
  {
    var events := Trace(s, ports, steps);
    ManagerProjects(s, ports, steps, plans, k);
    PopStaysLegal(s, plans(k), events, k);
    assert (events + [Generated(k)])[..|events|] == events;
    ErasedIsDrained(s, plans(k), events + [Generated(k)], Run(s, ports, steps).1, k);
  }

  /** Popping a stream of a legal run erases it exactly when everything of it has been delivered. */
  lemma {:induction false} ErasedIffDelivered(s: Settings, ports: seq<Port>, steps: seq<Step>, plans: Key -> MatchRuns.Plan, k: Key)
    requires LegalRun(s, plans, Trace(s, ports, steps)) && k in Run(s, ports, steps).1.caches
    ensures k !in GenKey(s, Run(s, ports, steps).1, k).caches
       <==> MatchRuns.AllDelivered(s.cfg, plans(k), MatchRuns.Delivered(s.cfg, Acts(Trace(s, ports, steps), k)))
  {
    var events := Trace(s, ports, steps);
    ManagerProjects(s, ports, steps, plans, k);
    MatchRuns.RunInv(s.cfg, plans(k), ModeOf(s), Acts(events, k));
    PopAlone(s, Alone(s, events, k), Run(s, ports, steps).1, k);
    MatchRuns.PopIsLossless(s.cfg, plans(k), ModeOf(s), Alone(s, events, k));
    MatchRuns.PopKeepsGot(s.cfg, ModeOf(s), Alone(s, events, k));
  }

  lemma {:induction false} GenErases(s: Settings, m: Manager, keys: seq<Key>, k: Key)
    requires k in keys && (k in m.caches ==> StreamEnd(PopKey(s, m, k).caches[k]))
    ensures k !in GenKeys(s, m, keys).caches
    decreases |keys|
  {
    var m1 := if keys[0] in m.caches then GenKey(s, m, keys[0]) else m;
    if keys[0] == k {
      GenAddsNone(s, m1, keys[1..], k);
    } else {
      OthersLeave(s, m, Generated(keys[0]), k);
      GenErases(s, m1, keys[1..], k);
    }
  }

  lemma {:induction false} GenAddsNone(s: Settings, m: Manager, keys: seq<Key>, k: Key)
    requires k !in m.caches
    ensures k !in GenKeys(s, m, keys).caches
    decreases |keys|
  {
    if keys != [] {
      GenAddsNone(s, if keys[0] in m.caches then GenKey(s, m, keys[0]) else m, keys[1..], k);
    }
  }

  lemma {:induction false} RunGenerate(s: Settings, ports: seq<Port>, steps: seq<Step>, keys: seq<Key>)
    requires Run(s, ports, steps).0
    ensures Run(s, ports, steps + [Generate(keys)]) == (true, GenKeys(s, Run(s, ports, steps).1, keys))
  {
    assert (steps + [Generate(keys)])[..|steps|] == steps;
  }

  lemma {:induction false} ErasedIsOver(s: Settings, m: Manager, k: Key)
    requires k in m.caches && k !in GenKey(s, m, k).caches
    ensures StreamEnd(PopKey(s, m, k).caches[k])
  {
  }

  /** So a pass over the streams forgets every stream that is complete. */
  lemma {:induction false} CompleteStreamsGo(s: Settings, ports: seq<Port>, steps: seq<Step>, plans: Key -> MatchRuns.Plan,
                                             keys: seq<Key>, k: Key)
    requires LegalRun(s, plans, Trace(s, ports, steps)) && k in keys
    requires MatchRuns.AllDelivered(s.cfg, plans(k), MatchRuns.Delivered(s.cfg, Acts(Trace(s, ports, steps), k)))
    ensures k !in Run(s, ports, steps + [Generate(keys)]).1.caches
  {
    var m := Run(s, ports, steps).1;
    if k in m.caches {
      ErasedIffDelivered(s, ports, steps, plans, k);
      ErasedIsOver(s, m, k);
    }
    GenErases(s, m, keys, k);
    assert Run(s, ports, steps).0 by { ManagerProjects(s, ports, steps, plans, k); }
    RunGenerate(s, ports, steps, keys);
  }

  lemma {:induction false} BatchNotCleaned(p: Port, batch: seq<Arrival>)
    ensures forall e | e in BatchEvents(p, batch) :: e.Cached?
  {
    if batch != [] { BatchNotCleaned(p, batch[1..]); }
  }

  lemma {:induction false} LoadNotCleaned(s: Settings, m: Manager, ports: seq<Port>, queues: map<Port, seq<Arrival>>)
    ensures forall e | e in LoadEvents(s, m, ports, queues) :: !e.Cleaned?
    decreases |ports|
  {
    if ports != [] {
      BatchNotCleaned(ports[0], Batch(s, m, ports[0], QueueOf(queues, ports[0])));
      LoadNotCleaned(s, LoadPort(s, m, ports[0], QueueOf(queues, ports[0])).1, ports[1..], queues);
    }
  }

  lemma {:induction false} GenNotCleaned(keys: seq<Key>)
    ensures forall e | e in GenEvents(keys) :: e.Generated?
  {
    if keys != [] { GenNotCleaned(keys[1..]); }
  }

  lemma {:induction false} TraceNotCleaned(s: Settings, ports: seq<Port>, steps: seq<Step>)
    requires forall i | 0 <= i < |steps| :: !steps[i].Clean?
    ensures forall e | e in Trace(s, ports, steps) :: !e.Cleaned?
  {
    if steps != [] {
      var before := steps[..|steps| - 1];
      TraceNotCleaned(s, ports, before);
      match steps[|steps| - 1]
      case Load(queues) => LoadNotCleaned(s, Run(s, ports, before).1, ports, queues);
      case Generate(keys) => GenNotCleaned(keys);
      case Clean(_) =>
    }
  }

  // ----- what the node is handed -----

  function ReleasedBy(s: Settings, m: Manager, e: Event): seq<(Key, Lists)> {
    if e.Generated? && e.key in m.caches then Release(s, m, e.key) else []
  }

  function AllReleased(s: Settings, m: Manager, events: seq<Event>): seq<(Key, Lists)> {
    if events == [] then []
    else
      var before := events[..|events| - 1];
      AllReleased(s, m, before) + ReleasedAfter(s, Replay(s, m, before), events[|events| - 1])
  }

  function ReleasedAfter(s: Settings, r: (bool, Manager), e: Event): seq<(Key, Lists)> {
    if r.0 then ReleasedBy(s, r.1, e) else []
  }

  /** Everything a run hands to the node. */
  function NodeInput(s: Settings, ports: seq<Port>, steps: seq<Step>): seq<(Key, Lists)> {
    if steps == [] then []
    else
      var (ok, m) := Run(s, ports, steps[..|steps| - 1]);
      NodeInput(s, ports, steps[..|steps| - 1])
      + (if ok && steps[|steps| - 1].Generate? then Releases(s, m, steps[|steps| - 1].keys) else [])
  }

  /** The part of it that is stream k on port p. */
  function Column(released: seq<(Key, Lists)>, k: Key, p: Port): seq<Buffer> {
    if released == [] then []
    else
      var last := released[|released| - 1];
      Column(released[..|released| - 1], k, p) + (if last.0 == k && p in last.1 then last.1[p] else [])
  }

  lemma {:induction false} ReleasedSnoc(s: Settings, m: Manager, events: seq<Event>, e: Event)
    ensures AllReleased(s, m, events + [e]) == AllReleased(s, m, events) + ReleasedAfter(s, Replay(s, m, events), e)
  {
    assert (events + [e])[..|events + [e]| - 1] == events;
  }

  lemma {:induction false} ReleasedConcat(s: Settings, m: Manager, a: seq<Event>, b: seq<Event>)
    ensures AllReleased(s, m, a + b)
         == AllReleased(s, m, a) + (if Replay(s, m, a).0 then AllReleased(s, Replay(s, m, a).1, b) else [])
    decreases |b|
  {
    if b == [] {
      assert a + b == a;
    } else {
      var before, e := b[..|b| - 1], b[|b| - 1];
      var r := Replay(s, m, a);
      assert b == before + [e] && a + b == (a + before) + [e];
      ReleasedConcat(s, m, a, before);
      ReplayConcat(s, m, a, before);
      ReleasedSnoc(s, m, a + before, e);
      ReleasedSnoc(s, r.1, before, e);
      Basics.Assoc(AllReleased(s, m, a), AllReleased(s, r.1, before), ReleasedAfter(s, Replay(s, r.1, before), e));
    }
  }

  lemma {:induction false} ReleasedOne(s: Settings, m: Manager, e: Event)
    ensures AllReleased(s, m, [e]) == ReleasedBy(s, m, e)
  {
    assert [e][..0] == [];
  }

  lemma {:induction false} GenReleased(s: Settings, m: Manager, keys: seq<Key>)
    ensures AllReleased(s, m, GenEvents(keys)) == Releases(s, m, keys)
    decreases |keys|
  {
    if keys != [] {
      var e := Generated(keys[0]);
      ReleasedConcat(s, m, [e], GenEvents(keys[1..]));
      ReleasedOne(s, m, e);
      ReplayOne(s, m, e);
      GenReleased(s, Apply(s, m, e).1, keys[1..]);
    }
  }

  lemma {:induction false} NoneReleased(s: Settings, m: Manager, events: seq<Event>)
    requires forall e | e in events :: !e.Generated?
    ensures AllReleased(s, m, events) == []
  {
    if events != [] {
      NoneReleased(s, m, events[..|events| - 1]);
    }
  }

  lemma {:induction false} LoadGeneratesNone(s: Settings, m: Manager, ports: seq<Port>, queues: map<Port, seq<Arrival>>)
    ensures forall e | e in LoadEvents(s, m, ports, queues) :: !e.Generated?
    decreases |ports|
  {
    if ports != [] {
      BatchNotCleaned(ports[0], Batch(s, m, ports[0], QueueOf(queues, ports[0])));
      LoadGeneratesNone(s, LoadPort(s, m, ports[0], QueueOf(queues, ports[0])).1, ports[1..], queues);
    }
  }

  lemma {:induction false} StepReleased(s: Settings, ports: seq<Port>, m: Manager, step: Step)
    ensures AllReleased(s, m, StepEvents(s, ports, m, step)) == if step.Generate? then Releases(s, m, step.keys) else []
  {
    match step
    case Load(queues) =>
      LoadGeneratesNone(s, m, ports, queues);
      NoneReleased(s, m, LoadEvents(s, m, ports, queues));
    case Generate(keys) => GenReleased(s, m, keys);
    case Clean(aborted) => ReleasedOne(s, m, Cleaned(aborted));
  }

  lemma {:induction false} InputIsReleased(s: Settings, ports: seq<Port>, steps: seq<Step>)
    ensures NodeInput(s, ports, steps) == AllReleased(s, START, Trace(s, ports, steps))
  {
    if steps != [] {
      var before := steps[..|steps| - 1];
      var m := Run(s, ports, before).1;
      InputIsReleased(s, ports, before);
      RunIsReplay(s, ports, before);
      ReleasedConcat(s, START, Trace(s, ports, before), StepEvents(s, ports, m, steps[|steps| - 1]));
      StepReleased(s, ports, m, steps[|steps| - 1]);
    }
  }

  lemma {:induction false} ColumnSnoc(released: seq<(Key, Lists)>, more: seq<(Key, Lists)>, k: Key, p: Port)
    requires |more| <= 1
    ensures Column(released + more, k, p)
         == Column(released, k, p) + (if more != [] && more[0].0 == k && p in more[0].1 then more[0].1[p] else [])
  {
    if more == [] {
      assert released + more == released;
    } else {
      assert (released + more)[..|released + more| - 1] == released;
    }
  }

  lemma {:induction false} NothingTaken(s: Settings, sys: MatchRuns.Sys, p: Port)
    requires sys.cache.ready == map[] && p in sys.out
    ensures var sys' := MatchRuns.Step(s.cfg, ModeOf(s), sys, MatchRuns.PopNow);
            p in sys'.out && sys'.out[p] == sys.out[p]
  {
    MatchRuns.StepPops(s.cfg, ModeOf(s), sys);
    assert PopOrder(sys.cache.ready, sys.cache.next, s.inOrder) == [];
  }

  lemma {:induction false} ReleaseIsPop(s: Settings, sys: MatchRuns.Sys, m: Manager, k: Key, p: Port)
    requires k in m.caches && m.caches[k] == sys.cache && p in sys.out
    ensures var sys', more := MatchRuns.Step(s.cfg, ModeOf(s), sys, MatchRuns.PopNow), Release(s, m, k);
            && p in sys'.out && |more| <= 1 && (more != [] ==> more[0].0 == k)
            && sys'.out[p] == sys.out[p] + (if more != [] && p in more[0].1 then more[0].1[p] else [])
  {
    MatchRuns.StepPops(s.cfg, ModeOf(s), sys);
    if PopOrder(sys.cache.ready, sys.cache.next, s.inOrder) == [] {
      assert Collect(Rows([])) == map[];
    }
  }

  /** What an event hands over of stream k on port p. */
  function ReleasedOf(s: Settings, m: Manager, e: Event, k: Key, p: Port): seq<Buffer> {
    var more := ReleasedBy(s, m, e);
    if more != [] && more[0].0 == k && p in more[0].1 then more[0].1[p] else []
  }

  function StepOf(s: Settings, sys: MatchRuns.Sys, e: Event, k: Key): MatchRuns.Sys {
    if Act(e, k) == [] then sys else MatchRuns.Step(s.cfg, ModeOf(s), sys, Act(e, k)[0])
  }

  lemma {:induction false} EventReleases(s: Settings, sys: MatchRuns.Sys, m: Manager, e: Event, k: Key, p: Port)
    requires KeyOk(m.caches, sys.cache, false, k) && p in sys.out
    ensures p in StepOf(s, sys, e, k).out && |ReleasedBy(s, m, e)| <= 1
    ensures StepOf(s, sys, e, k).out[p] == sys.out[p] + ReleasedOf(s, m, e, k, p)
  {
    if PoppedIn(e, k) {
      if k in m.caches {
        ReleaseIsPop(s, sys, m, k, p);
      } else {
        NothingTaken(s, sys, p);
      }
    }
  }

  lemma {:induction false} ColumnIsAlone(s: Settings, plan: MatchRuns.Plan, events: seq<Event>, k: Key, p: Port)
    requires LegalFor(s, plan, events, k) && Replay(s, START, events).0 && k !in Aborted(events) && p in s.cfg.ports
    ensures p in Alone(s, events, k).out && Column(AllReleased(s, START, events), k, p) == Alone(s, events, k).out[p]
  {
    if events != [] {
      var before := events[..|events| - 1];
      var m := Replay(s, START, before).1;
      LegalForPrefix(s, plan, events, k);
      ColumnIsAlone(s, plan, before, k, p);
      KeyProjects(s, plan, before, k);
      ActsSnoc(s, events, k);
      EventReleases(s, Alone(s, before, k), m, events[|events| - 1], k, p);
      ColumnSnoc(AllReleased(s, START, before), ReleasedBy(s, m, events[|events| - 1]), k, p);
    }
  }

  /** A node with in-order input gets of every stream, however many it is matching, a prefix of the
      stream on each port and as much on all of them; once the cache is erased, the whole. */
  lemma {:induction false} NodeGetsStreams(s: Settings, ports: seq<Port>, steps: seq<Step>, plans: Key -> MatchRuns.Plan, k: Key)
    requires LegalRun(s, plans, Trace(s, ports, steps)) && s.inOrder && k !in Aborted(Trace(s, ports, steps))
    ensures var events := Trace(s, ports, steps);
            var m := Run(s, ports, steps).1;
            var n := |Alone(s, events, k).order|;
            && n <= plans(k).end + 1
            && (k !in m.caches && Alone(s, events, k).cache != EMPTY_CACHE ==> n == plans(k).end + 1)
            && forall p | p in s.cfg.ports ::
                 Column(NodeInput(s, ports, steps), k, p) == MatchRuns.PlanStream(s.cfg, plans(k), p)[..n]
  {
    var events := Trace(s, ports, steps);
    ManagerProjects(s, ports, steps, plans, k);
    RunIsReplay(s, ports, steps);
    InputIsReleased(s, ports, steps);
    MatchRuns.InOrderReleasesPrefix(s.cfg, plans(k), ModeOf(s), Acts(events, k));
    if StreamEnd(Alone(s, events, k).cache) && Drained(Alone(s, events, k).cache) {
      OverGaveAll(s.cfg, plans(k), ModeOf(s), Alone(s, events, k));
    }
    forall p | p in s.cfg.ports
      ensures Column(NodeInput(s, ports, steps), k, p) == Alone(s, events, k).out[p]
    {
      ColumnIsAlone(s, plans(k), events, k, p);
    }
  }

  lemma {:induction false} OverGaveAll(cfg: Config, plan: MatchRuns.Plan, mode: MatchRuns.Mode, sys: MatchRuns.Sys)
    requires MatchRuns.Inv(cfg, plan, mode, sys) && StreamEnd(sys.cache) && Drained(sys.cache)
    ensures |sys.order| == plan.end + 1
  {
    if MatchRuns.CompleteRows(cfg, plan, sys.got) != Basics.UpTo(plan.end + 1) {
      MatchRuns.StreamNotEnded(cfg, plan, mode, sys);
    }
    MatchRuns.AfterLastPop(cfg, plan, mode, sys);
  }
}
