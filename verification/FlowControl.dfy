/** Flow control of a node's input: how much each port may still read, and the per-port counters
    that decide it, over all the streams the node is matching at once.  */
module FlowControl {
  import opened Basics
  import opened Buffers
  import opened StreamMatch
  import MatchRuns

  type Key = nat

  const MAX_CACHE_COUNT: nat := 16384

  datatype Settings = Settings(cfg: Config, queueSize: nat, inOrder: bool, gatherAll: bool)

  /** The open streams by match key, and the cached-buffer counter of each port read so far. */
  datatype Manager = Manager(caches: map<Key, CacheState>, counts: map<Port, nat>)

  // ----- how many entries a port has in the caches -----

  function With(m: map<nat, Entry>, p: Port): set<nat> {
    set i | i in m && p in m[i].buffers
  }

  function HeldIn(c: CacheState, p: Port): nat {
    |With(c.pending, p)| + |With(c.ready, p)|
  }

  predicate At(m: map<nat, Entry>, i: nat, p: Port) {
    i in m && p in m[i].buffers
  }

  lemma {:induction false} WithRemove(m: map<nat, Entry>, i: nat, p: Port)
    ensures |With(m - {i}, p)| + (if At(m, i, p) then 1 else 0) == |With(m, p)|
  {
    assert With(m - {i}, p) == With(m, p) - {i};
  }

  lemma {:induction false} WithInsertSet(m: map<nat, Entry>, i: nat, e: Entry, p: Port)
    ensures With(m[i := e], p) == if p in e.buffers then With(m, p) + {i} else With(m, p) - {i}
  {
    var m' := m[i := e];
    assert forall j :: j in m' <==> j in m || j == i;
    assert forall j | j in m' :: m'[j] == if j == i then e else m[j];
  }

  lemma {:induction false} WithInsert(m: map<nat, Entry>, i: nat, e: Entry, p: Port)
    ensures |With(m[i := e], p)| + (if At(m, i, p) then 1 else 0) == |With(m, p)| + (if p in e.buffers then 1 else 0)
  {
    WithInsertSet(m, i, e, p);
    assert i in With(m, p) <==> At(m, i, p);
  }

  function Held(caches: map<Key, CacheState>, p: Port): nat
    decreases |caches|
  {
    if caches == map[] then 0
    else
      var k := MinKey(caches.Keys);
      assert (caches - {k}).Keys == caches.Keys - {k};
      HeldIn(caches[k], p) + Held(caches - {k}, p)
  }

  lemma {:induction false} HeldRemove(caches: map<Key, CacheState>, k: Key, p: Port)
    requires k in caches
    ensures Held(caches, p) == HeldIn(caches[k], p) + Held(caches - {k}, p)
    decreases |caches|
  {
    var m := MinKey(caches.Keys);
    assert (caches - {m}).Keys == caches.Keys - {m};
    if k != m {
      HeldRemove(caches - {m}, k, p);
      var rest := caches - {k};
      assert rest.Keys == caches.Keys - {k};
      assert m in rest && MinKey(rest.Keys) == m;
      assert rest - {m} == caches - {m} - {k};
    }
  }

  lemma {:induction false} HeldUpdate(caches: map<Key, CacheState>, k: Key, c: CacheState, p: Port)
    ensures Held(caches[k := c], p) + (if k in caches then HeldIn(caches[k], p) else 0) == Held(caches, p) + HeldIn(c, p)
  {
    var after := caches[k := c];
    HeldRemove(after, k, p);
    assert after - {k} == caches - {k};
    if k in caches {
      HeldRemove(caches, k, p);
    } else {
      assert caches - {k} == caches;
    }
  }

  // ----- entries name only the node's ports; ready ones all of them -----

  ghost predicate EntryPorts(ports: set<Port>, e: Entry) {
    e.buffers.Keys == e.counts.Keys && e.buffers.Keys <= ports && forall p | p in e.counts :: 0 < e.counts[p]
  }

  ghost predicate CachePorts(ports: set<Port>, c: CacheState) {
    && (forall i | i in c.pending :: EntryPorts(ports, c.pending[i]))
    && (forall i | i in c.ready :: c.ready[i].buffers.Keys == ports)
  }

  lemma {:induction false} CacheInEntryPorts(ports: set<Port>, e: Entry, p: Port, b: Buffer)
    requires EntryPorts(ports, e) && p in ports && !CacheInEntry(e, p, b).0.Fault?
    ensures EntryPorts(ports, CacheInEntry(e, p, b).1)
    ensures CacheInEntry(e, p, b).1.buffers.Keys == e.buffers.Keys + {p}
    ensures CacheInEntry(e, p, b).0.Success? <==> p !in e.buffers
  {
  }

  lemma {:induction false} AddReadyPorts(ports: set<Port>, c: CacheState, i: nat, e: Entry)
    requires CachePorts(ports, c) && e.buffers.Keys == ports
    ensures CachePorts(ports, AddReady(c, i, e))
  {
  }

  lemma {:induction false} AddPendingPorts(ports: set<Port>, c: CacheState, i: nat, e: Entry)
    requires CachePorts(ports, c) && EntryPorts(ports, e)
    ensures CachePorts(ports, c.(pending := c.pending[i := e]))
  {
  }

  lemma {:induction false} CacheInPorts(cfg: Config, c: CacheState, p: Port, b: Buffer)
    requires CachePorts(cfg.ports, c) && p in cfg.ports
    ensures CachePorts(cfg.ports, CacheIn(cfg, c, p, b).1)
  {
    var eb := Effective(cfg, p, b);
    var i := eb.info.index;
    var (st, e) := CacheInEntry(EntryFor(c, i), p, eb);
    if !st.Fault? {
      assert EntryPorts(cfg.ports, EntryFor(c, i));
      CacheInEntryPorts(cfg.ports, EntryFor(c, i), p, eb);
      if Matched(cfg, e) {
        SubsetSize(e.buffers.Keys, cfg.ports);
        AddReadyPorts(cfg.ports, c, i, e);
      } else {
        AddPendingPorts(cfg.ports, c, i, e);
      }
    }
  }

  /** Does this arrival complete a row that is already waiting in the ready map? */
  predicate Overwrites(cfg: Config, c: CacheState, p: Port, b: Buffer) {
    var eb := Effective(cfg, p, b);
    var (st, e) := CacheInEntry(EntryFor(c, eb.info.index), p, eb);
    !st.Fault? && Matched(cfg, e) && eb.info.index in c.ready
  }

  lemma {:induction false} PartialHeld(c: CacheState, i: nat, p: Port, e: Entry, q: Port)
    requires e.buffers.Keys == EntryFor(c, i).buffers.Keys + {p}
    ensures HeldIn(c.(pending := c.pending[i := e]), q)
         == HeldIn(c, q) + (if q == p && p !in EntryFor(c, i).buffers then 1 else 0)
  {
    WithInsert(c.pending, i, e, q);
  }

  lemma {:induction false} MatchHeld(ports: set<Port>, c: CacheState, i: nat, p: Port, e: Entry, q: Port)
    requires e.buffers.Keys == EntryFor(c, i).buffers.Keys + {p} == ports && q in ports
    requires i in c.ready ==> c.ready[i].buffers.Keys == ports
    ensures HeldIn(AddReady(c, i, e), q) + (if i in c.ready then 1 else 0)
         == HeldIn(c, q) + (if q == p && p !in EntryFor(c, i).buffers then 1 else 0)
  {
    WithRemove(c.pending, i, q);
    WithInsert(c.ready, i, e, q);
  }

  /** An arrival is counted exactly when it adds its port to an entry. */
  lemma {:induction false} CacheInHeld(cfg: Config, c: CacheState, p: Port, b: Buffer, q: Port)
    requires CachePorts(cfg.ports, c) && p in cfg.ports && q in cfg.ports
    ensures HeldIn(CacheIn(cfg, c, p, b).1, q) + (if Overwrites(cfg, c, p, b) then 1 else 0)
         == HeldIn(c, q) + (if q == p && CacheIn(cfg, c, p, b).0.Success? then 1 else 0)
  {
    var eb := Effective(cfg, p, b);
    var i := eb.info.index;
    var (st, e) := CacheInEntry(EntryFor(c, i), p, eb);
    if !st.Fault? {
      CacheInEntryPorts(cfg.ports, EntryFor(c, i), p, eb);
      if Matched(cfg, e) {
        SubsetSize(e.buffers.Keys, cfg.ports);
        MatchHeld(cfg.ports, c, i, p, e, q);
      } else {
        PartialHeld(c, i, p, e, q);
      }
    }
  }

  function AfterPop(c: CacheState, inOrder: bool): CacheState {
    c.(ready := PopRest(c.ready, c.next, inOrder), next := c.next + |PopOrder(c.ready, c.next, inOrder)|)
  }

  lemma {:induction false} PopPorts(ports: set<Port>, ready: map<nat, Entry>, next: nat, inOrder: bool)
    requires forall i | i in ready :: ready[i].buffers.Keys == ports
    ensures forall i | i in PopRest(ready, next, inOrder) :: PopRest(ready, next, inOrder)[i].buffers.Keys == ports
  {
    MatchRuns.PopStops(ready, next, inOrder);
  }

  /** A pop takes as many entries from every port. */
  lemma {:induction false} PopHeld(ports: set<Port>, c: CacheState, inOrder: bool, q: Port)
    requires CachePorts(ports, c) && q in ports
    ensures HeldIn(AfterPop(c, inOrder), q) + |PopOrder(c.ready, c.next, inOrder)| == HeldIn(c, q)
  {
    PopPorts(ports, c.ready, c.next, inOrder);
    MatchRuns.PopCount(c.ready, c.next, inOrder);
    AllWith(c.ready, ports, q);
    AllWith(PopRest(c.ready, c.next, inOrder), ports, q);
  }

  lemma {:induction false} AllWith(m: map<nat, Entry>, ports: set<Port>, q: Port)
    requires q in ports && forall i | i in m :: m[i].buffers.Keys == ports
    ensures |With(m, q)| == |m|
  {
    assert With(m, q) == m.Keys;
  }

  // ----- the manager's operations -----

  /** A buffer read from a port; `dropped` when the filter or an aborted session discards it. */
  datatype Arrival = Arrival(key: Key, buffer: Buffer, dropped: bool)

  function CountOf(counts: map<Port, nat>, p: Port): nat {
    if p in counts then counts[p] else 0
  }

  function CacheOf(caches: map<Key, CacheState>, k: Key): CacheState {
    if k in caches then caches[k] else EMPTY_CACHE
  }

  function CacheOne(cfg: Config, m: Manager, p: Port, a: Arrival): (bool, Manager) {
    if a.dropped then (true, m)
    else
      var (st, c) := CacheIn(cfg, CacheOf(m.caches, a.key), p, a.buffer);
      (!st.Fault?, Manager(m.caches[a.key := c],
                           if st.Success? then m.counts[p := CountOf(m.counts, p) + 1] else m.counts))
  }

  function CacheMany(cfg: Config, m: Manager, p: Port, batch: seq<Arrival>): (bool, Manager)
    decreases |batch|
  {
    if batch == [] then (true, m)
    else
      var (ok, m1) := CacheOne(cfg, m, p, batch[0]);
      if ok then CacheMany(cfg, m1, p, batch[1..]) else (false, m1)
  }

  function Least(counts: map<Port, nat>): (n: nat)
    requires counts != map[]
    ensures (exists p | p in counts :: counts[p] == n) && forall p | p in counts :: n <= counts[p]
  {
    var values: set<nat> := set p | p in counts :: counts[p];
    assert forall p | p in counts :: counts[p] in values;
    assert exists p :: p in counts && counts[p] in values;
    MinKey(values)
  }

  /** How many buffers port p may read now. */
  function ReadCount(queueSize: nat, counts: map<Port, nat>, p: Port): nat
    requires p in counts
  {
    if counts[p] >= MAX_CACHE_COUNT then 0
    else
      var room := MAX_CACHE_COUNT - counts[p];
      var n := if room > queueSize then queueSize else room;
      if counts[p] + n - Least(counts) > 2 * queueSize then 0 else n
  }

  function Smaller(a: nat, b: nat): nat {
    if a <= b then a else b
  }

  /** What a port may read if anything: a queue's worth, or what is left up to the limit. */
  function Share(queueSize: nat, count: nat): nat {
    if count >= MAX_CACHE_COUNT then 0 else Smaller(queueSize, MAX_CACHE_COUNT - count)
  }

  /** A port reads its share or nothing, and nothing exactly when it has no share or the share would take it
      more than two queues ahead of some port. */
  lemma {:induction false} ReadCountIs(queueSize: nat, counts: map<Port, nat>, p: Port)
    requires p in counts
    ensures var n := Share(queueSize, counts[p]);
            && (n > 0 <==> queueSize > 0 && counts[p] < MAX_CACHE_COUNT)
            && (ReadCount(queueSize, counts, p) > 0 <==>
                  n > 0 && forall q | q in counts :: counts[p] + n <= counts[q] + 2 * queueSize)
            && (ReadCount(queueSize, counts, p) > 0 ==> ReadCount(queueSize, counts, p) == n)
  {
    var least := Least(counts);
    var q :| q in counts && counts[q] == least;
    assert forall r | r in counts :: least <= counts[r];
  }

  /** A port with the smallest counter always reads its share. */
  lemma {:induction false} ShortestReads(queueSize: nat, counts: map<Port, nat>, p: Port)
    requires p in counts && forall q | q in counts :: counts[p] <= counts[q]
    ensures ReadCount(queueSize, counts, p) == Share(queueSize, counts[p])
  {
    ReadCountIs(queueSize, counts, p);
  }

  /** Flow control never holds up every port: none may read exactly when the queue size is 0 or all have
      reached the limit. */
  lemma {:induction false} StuckIff(queueSize: nat, counts: map<Port, nat>)
    requires counts != map[]
    ensures (forall p | p in counts :: ReadCount(queueSize, counts, p) == 0)
       <==> queueSize == 0 || forall p | p in counts :: MAX_CACHE_COUNT <= counts[p]
  {
    var least := Least(counts);
    var p :| p in counts && counts[p] == least;
    assert forall q | q in counts :: least <= counts[q];
    ShortestReads(queueSize, counts, p);
    forall q | q in counts ensures ReadCount(queueSize, counts, q) > 0 ==> queueSize > 0 && counts[q] < MAX_CACHE_COUNT {
      ReadCountIs(queueSize, counts, q);
    }
  }

  /** Asking for a port's counter creates it. */
  function Touch(counts: map<Port, nat>, p: Port): map<Port, nat> {
    counts[p := CountOf(counts, p)]
  }

  function LoadPort(s: Settings, m: Manager, p: Port, available: seq<Arrival>): (bool, Manager) {
    var counts := Touch(m.counts, p);
    var n := ReadCount(s.queueSize, counts, p);
    CacheMany(s.cfg, m.(counts := counts), p, if n < |available| then available[..n] else available)
  }

  function QueueOf(queues: map<Port, seq<Arrival>>, p: Port): seq<Arrival> {
    if p in queues then queues[p] else []
  }

  predicate AllHaveData(ports: seq<Port>, queues: map<Port, seq<Arrival>>) {
    forall i | 0 <= i < |ports| :: QueueOf(queues, ports[i]) != []
  }

  function LoadPorts(s: Settings, m: Manager, ports: seq<Port>, queues: map<Port, seq<Arrival>>): (bool, Manager)
    decreases |ports|
  {
    if ports == [] then (true, m)
    else
      var (ok, m1) := LoadPort(s, m, ports[0], QueueOf(queues, ports[0]));
      if ok then LoadPorts(s, m1, ports[1..], queues) else (false, m1)
  }

  const SIZE_T: nat := 0x1_0000_0000_0000_0000

  /** Counters are size_t: below zero they would wrap around. */
  function Lowered(counts: map<Port, nat>, n: nat): map<Port, nat> {
    map p | p in counts :: (counts[p] - n) % SIZE_T
  }

  function PopKey(s: Settings, m: Manager, k: Key): Manager
    requires k in m.caches
  {
    var c := m.caches[k];
    if PopAllowed(c, s.gatherAll) && PopOrder(c.ready, c.next, s.inOrder) != []
    then Manager(m.caches[k := AfterPop(c, s.inOrder)], Lowered(m.counts, |PopOrder(c.ready, c.next, s.inOrder)|))
    else m
  }

  function GenKey(s: Settings, m: Manager, k: Key): Manager
    requires k in m.caches
  {
    var m1 := PopKey(s, m, k);
    if StreamEnd(m1.caches[k]) then m1.(caches := m1.caches - {k}) else m1
  }

  /** One pass over the open streams, in some order. */
  function GenKeys(s: Settings, m: Manager, keys: seq<Key>): Manager
    decreases |keys|
  {
    if keys == [] then m
    else GenKeys(s, if keys[0] in m.caches then GenKey(s, m, keys[0]) else m, keys[1..])
  }

  /** What one stream hands to the node: its key and one list per port, or nothing. */
  function Release(s: Settings, m: Manager, k: Key): seq<(Key, map<Port, seq<Buffer>>)>
    requires k in m.caches
  {
    var c := m.caches[k];
    var taken := PopOrder(c.ready, c.next, s.inOrder);
    if PopAllowed(c, s.gatherAll) && taken != [] then [(k, Collect(Rows(taken)))] else []
  }

  function Releases(s: Settings, m: Manager, keys: seq<Key>): seq<(Key, map<Port, seq<Buffer>>)>
    decreases |keys|
  {
    if keys == [] then []
    else if keys[0] in m.caches then Release(s, m, keys[0]) + Releases(s, GenKey(s, m, keys[0]), keys[1..])
    else Releases(s, m, keys[1..])
  }

  lemma {:induction false} ReleasesStep(s: Settings, m: Manager, keys: seq<Key>, before: seq<(Key, map<Port, seq<Buffer>>)>)
    requires keys != [] && keys[0] in m.caches
    ensures before + Releases(s, m, keys) == before + Release(s, m, keys[0]) + Releases(s, GenKey(s, m, keys[0]), keys[1..])
  {
  }

  // ----- invariants -----

  ghost predicate CachesOk(ports: set<Port>, caches: map<Key, CacheState>) {
    forall k | k in caches :: CachePorts(ports, caches[k])
  }

  /** Every counter covers the entries its port has in the caches. */
  ghost predicate Covers(ports: set<Port>, m: Manager) {
    && CachesOk(ports, m.caches)
    && m.counts.Keys <= ports
    && forall p | p in ports :: Held(m.caches, p) <= CountOf(m.counts, p)
  }

  /** No counter above the limit, none leads another by more than twice the queue size; until every
      port has been read once, none has more than one queue's worth. */
  ghost predicate Bounded(s: Settings, counts: map<Port, nat>) {
    && (forall p | p in counts :: counts[p] <= MAX_CACHE_COUNT)
    && (forall p, q | p in counts && q in counts :: counts[p] <= counts[q] + 2 * s.queueSize)
    && (counts.Keys != s.cfg.ports ==> forall p | p in counts :: counts[p] <= s.queueSize)
  }

  lemma {:induction false} EmptyHeld(p: Port)
    ensures HeldIn(EMPTY_CACHE, p) == 0
  {
    assert With(map[], p) == {};
  }

  /** Exact bookkeeping of one arrival: counter and held entries move together unless the arrival
      replaces a row that was already matched. */
  lemma {:induction false} CacheOneAccounts(cfg: Config, m: Manager, p: Port, a: Arrival, q: Port)
    requires CachesOk(cfg.ports, m.caches) && p in cfg.ports && q in cfg.ports && !a.dropped
    ensures CountOf(CacheOne(cfg, m, p, a).1.counts, q) + Held(m.caches, q)
         == CountOf(m.counts, q) + Held(CacheOne(cfg, m, p, a).1.caches, q)
            + (if Overwrites(cfg, CacheOf(m.caches, a.key), p, a.buffer) then 1 else 0)
  {
    var c := CacheOf(m.caches, a.key);
    CacheOneParts(cfg, m, p, a, q);
    EmptyHeld(q);
    assert CachePorts(cfg.ports, c);
    CacheInHeld(cfg, c, p, a.buffer, q);
    HeldUpdate(m.caches, a.key, CacheIn(cfg, c, p, a.buffer).1, q);
  }

  lemma {:induction false} CacheOneParts(cfg: Config, m: Manager, p: Port, a: Arrival, q: Port)
    requires !a.dropped
    ensures var r := CacheIn(cfg, CacheOf(m.caches, a.key), p, a.buffer);
            && CacheOne(cfg, m, p, a).1.caches == m.caches[a.key := r.1]
            && CountOf(CacheOne(cfg, m, p, a).1.counts, q) == CountOf(m.counts, q) + (if q == p && r.0.Success? then 1 else 0)
  {
  }

  /** Reading for port p moves only p's counter, and only up. */
  ghost predicate Raises(before: map<Port, nat>, after: map<Port, nat>, p: Port, n: nat) {
    && after.Keys == before.Keys
    && p in before && before[p] <= after[p] <= before[p] + n
    && forall q | q in before && q != p :: after[q] == before[q]
  }

  lemma {:induction false} CacheOneRaises(cfg: Config, m: Manager, p: Port, a: Arrival)
    requires p in m.counts
    ensures Raises(m.counts, CacheOne(cfg, m, p, a).1.counts, p, 1)
  {
  }

  lemma {:induction false} CacheOneCaches(cfg: Config, m: Manager, p: Port, a: Arrival)
    requires CachesOk(cfg.ports, m.caches) && p in cfg.ports
    ensures CachesOk(cfg.ports, CacheOne(cfg, m, p, a).1.caches)
  {
    if !a.dropped {
      CacheInPorts(cfg, CacheOf(m.caches, a.key), p, a.buffer);
    }
  }

  lemma {:induction false} CacheOneCovers(cfg: Config, m: Manager, p: Port, a: Arrival)
    requires Covers(cfg.ports, m) && p in cfg.ports && p in m.counts
    ensures Covers(cfg.ports, CacheOne(cfg, m, p, a).1)
  {
    if !a.dropped {
      var m' := CacheOne(cfg, m, p, a).1;
      CacheOneCaches(cfg, m, p, a);
      CacheOneRaises(cfg, m, p, a);
      forall q | q in cfg.ports ensures Held(m'.caches, q) <= CountOf(m'.counts, q) {
        CacheOneAccounts(cfg, m, p, a, q);
      }
    }
  }

  lemma {:induction false} CacheManyKeeps(cfg: Config, m: Manager, p: Port, batch: seq<Arrival>)
    requires Covers(cfg.ports, m) && p in cfg.ports && p in m.counts
    ensures Covers(cfg.ports, CacheMany(cfg, m, p, batch).1)
    ensures Raises(m.counts, CacheMany(cfg, m, p, batch).1.counts, p, |batch|)
    decreases |batch|
  {
    if batch != [] {
      var (ok, m1) := CacheOne(cfg, m, p, batch[0]);
      CacheOneCovers(cfg, m, p, batch[0]);
      CacheOneRaises(cfg, m, p, batch[0]);
      if ok {
        CacheManyKeeps(cfg, m1, p, batch[1..]);
      }
    }
  }

  lemma {:induction false} TouchCovers(ports: set<Port>, m: Manager, p: Port)
    requires Covers(ports, m) && p in ports
    ensures Covers(ports, m.(counts := Touch(m.counts, p)))
  {
    var m' := m.(counts := Touch(m.counts, p));
    assert forall q :: CountOf(m'.counts, q) == CountOf(m.counts, q);
  }

  /** Reading no more than allowed keeps the bounds. */
  lemma {:induction false} ReadKeepsBounds(s: Settings, counts: map<Port, nat>, after: map<Port, nat>, p: Port)
    requires Bounded(s, counts) && p in s.cfg.ports && counts.Keys <= s.cfg.ports
    requires p in counts ==> counts.Keys == s.cfg.ports
    requires Raises(Touch(counts, p), after, p, ReadCount(s.queueSize, Touch(counts, p), p))
    ensures Bounded(s, after)
  {
    var touched := Touch(counts, p);
    var least := Least(touched);
    if p in counts {
      assert touched == counts;
      assert counts[p] <= least + 2 * s.queueSize;
      assert after[p] <= least + 2 * s.queueSize;
    } else {
      assert forall q | q in after :: after[q] <= s.queueSize;
    }
  }

  lemma {:induction false} LoadPortKeeps(s: Settings, m: Manager, p: Port, available: seq<Arrival>)
    requires Covers(s.cfg.ports, m) && Bounded(s, m.counts) && p in s.cfg.ports
    requires p in m.counts ==> m.counts.Keys == s.cfg.ports
    ensures Covers(s.cfg.ports, LoadPort(s, m, p, available).1)
    ensures Bounded(s, LoadPort(s, m, p, available).1.counts)
    ensures LoadPort(s, m, p, available).1.counts.Keys == m.counts.Keys + {p}
  {
    var counts := Touch(m.counts, p);
    var n := ReadCount(s.queueSize, counts, p);
    var batch := if n < |available| then available[..n] else available;
    TouchCovers(s.cfg.ports, m, p);
    CacheManyKeeps(s.cfg, m.(counts := counts), p, batch);
    ReadKeepsBounds(s, m.counts, LoadPort(s, m, p, available).1.counts, p);
  }

  function PortSet(ports: seq<Port>): set<Port> {
    if ports == [] then {} else {ports[0]} + PortSet(ports[1..])
  }

  ghost predicate DistinctPorts(ports: seq<Port>) {
    forall i, j | 0 <= i < j < |ports| :: ports[i] != ports[j]
  }

  /** Either every port has been read before, or none of these has. */
  ghost predicate FirstPass(all: set<Port>, counts: map<Port, nat>, ports: seq<Port>) {
    && DistinctPorts(ports)
    && (forall i | 0 <= i < |ports| :: ports[i] in all)
    && (counts.Keys == all || forall i | 0 <= i < |ports| :: ports[i] !in counts.Keys)
  }

  lemma {:induction false} FirstPassTail(all: set<Port>, counts: map<Port, nat>, after: map<Port, nat>, ports: seq<Port>)
    requires ports != [] && FirstPass(all, counts, ports) && after.Keys == counts.Keys + {ports[0]}
    ensures FirstPass(all, after, ports[1..])
  {
    if counts.Keys == all {
      assert ports[0] in all;
      assert after.Keys == all;
    }
  }

  /** What a load keeps on the way, and the counters it has created when it gets to the end. */
  ghost predicate Loaded(s: Settings, before: set<Port>, ports: seq<Port>, r: (bool, Manager)) {
    && Covers(s.cfg.ports, r.1) && Bounded(s, r.1.counts)
    && (r.0 ==> r.1.counts.Keys == before + PortSet(ports))
  }

  lemma {:induction false} LoadedTail(s: Settings, before: set<Port>, ports: seq<Port>, r: (bool, Manager))
    requires ports != [] && Loaded(s, before + {ports[0]}, ports[1..], r)
    ensures Loaded(s, before, ports, r)
  {
    assert before + {ports[0]} + PortSet(ports[1..]) == before + PortSet(ports);
  }

  lemma {:induction false} LoadPortsKeeps(s: Settings, m: Manager, ports: seq<Port>, queues: map<Port, seq<Arrival>>)
    requires Covers(s.cfg.ports, m) && Bounded(s, m.counts) && FirstPass(s.cfg.ports, m.counts, ports)
    ensures Loaded(s, m.counts.Keys, ports, LoadPorts(s, m, ports, queues))
    decreases |ports|
  {
    if ports != [] {
      var queue := QueueOf(queues, ports[0]);
      LoadPortKeeps(s, m, ports[0], queue);
      var (ok, m1) := LoadPort(s, m, ports[0], queue);
      FirstPassTail(s.cfg.ports, m.counts, m1.counts, ports);
      if ok {
        LoadPortsKeeps(s, m1, ports[1..], queues);
        LoadedTail(s, m.counts.Keys, ports, LoadPorts(s, m1, ports[1..], queues));
      }
    }
  }

  lemma NoWrap(x: nat)
    requires x < SIZE_T
    ensures x % SIZE_T == x
  {
  }

  lemma {:induction false} LoweredExactly(counts: map<Port, nat>, n: nat)
    requires forall p | p in counts :: n <= counts[p] <= MAX_CACHE_COUNT
    ensures Lowered(counts, n).Keys == counts.Keys
    ensures forall p | p in counts :: Lowered(counts, n)[p] == counts[p] - n
  {
    forall p | p in counts ensures Lowered(counts, n)[p] == counts[p] - n {
      NoWrap(counts[p] - n);
    }
  }

  lemma {:induction false} LowerKeepsBounds(s: Settings, counts: map<Port, nat>, n: nat)
    requires Bounded(s, counts) && forall p | p in counts :: n <= counts[p]
    ensures Bounded(s, Lowered(counts, n)) && Lowered(counts, n).Keys == counts.Keys
    ensures forall p | p in counts :: Lowered(counts, n)[p] == counts[p] - n
  {
    LoweredExactly(counts, n);
  }

  lemma {:induction false} HeldAtLeast(caches: map<Key, CacheState>, k: Key, p: Port)
    requires k in caches
    ensures HeldIn(caches[k], p) <= Held(caches, p)
  {
    HeldRemove(caches, k, p);
  }

  /** A pop takes from every counter what it takes from the caches. */
  lemma {:induction false} PopTakesHeld(s: Settings, m: Manager, k: Key, p: Port)
    requires Covers(s.cfg.ports, m) && k in m.caches && p in s.cfg.ports
    ensures var c := m.caches[k]; var n := |PopOrder(c.ready, c.next, s.inOrder)|;
            n <= CountOf(m.counts, p) && Held(m.caches[k := AfterPop(c, s.inOrder)], p) + n == Held(m.caches, p)
  {
    var c := m.caches[k];
    PopHeld(s.cfg.ports, c, s.inOrder, p);
    HeldAtLeast(m.caches, k, p);
    HeldUpdate(m.caches, k, AfterPop(c, s.inOrder), p);
  }

  /** So the decrement never goes below zero and the invariants stay. */
  lemma {:induction false} PopAccounts(s: Settings, m: Manager, k: Key)
    requires Covers(s.cfg.ports, m) && Bounded(s, m.counts) && k in m.caches
    ensures var c := m.caches[k]; var n := |PopOrder(c.ready, c.next, s.inOrder)|;
            && (forall p | p in m.counts :: n <= m.counts[p])
            && Covers(s.cfg.ports, Manager(m.caches[k := AfterPop(c, s.inOrder)], Lowered(m.counts, n)))
            && Bounded(s, Lowered(m.counts, n)) && Lowered(m.counts, n).Keys == m.counts.Keys
  {
    var c := m.caches[k];
    var n := |PopOrder(c.ready, c.next, s.inOrder)|;
    var after := m.caches[k := AfterPop(c, s.inOrder)];
    forall p | p in s.cfg.ports ensures n <= CountOf(m.counts, p) && Held(after, p) + n == Held(m.caches, p) {
      PopTakesHeld(s, m, k, p);
    }
    LowerKeepsBounds(s, m.counts, n);
    PopPorts(s.cfg.ports, c.ready, c.next, s.inOrder);
    assert CachesOk(s.cfg.ports, after);
  }

  lemma {:induction false} PopKeyKeeps(s: Settings, m: Manager, k: Key)
    requires Covers(s.cfg.ports, m) && Bounded(s, m.counts) && k in m.caches
    ensures Covers(s.cfg.ports, PopKey(s, m, k)) && Bounded(s, PopKey(s, m, k).counts)
    ensures PopKey(s, m, k).counts.Keys == m.counts.Keys && k in PopKey(s, m, k).caches
  {
    PopAccounts(s, m, k);
  }

  lemma {:induction false} EraseCovers(ports: set<Port>, m: Manager, keys: set<Key>)
    requires Covers(ports, m)
    ensures Covers(ports, m.(caches := m.caches - keys))
    decreases |keys|
  {
    if keys == {} {
      assert m.caches - keys == m.caches;
    } else {
      var k :| k in keys;
      var m1 := m.(caches := m.caches - {k});
      if k in m.caches {
        forall p | p in ports ensures Held(m1.caches, p) <= CountOf(m.counts, p) {
          HeldRemove(m.caches, k, p);
        }
      } else {
        assert m.caches - {k} == m.caches;
      }
      EraseCovers(ports, m1, keys - {k});
      assert m.caches - {k} - (keys - {k}) == m.caches - keys;
    }
  }

  lemma {:induction false} GenKeyKeeps(s: Settings, m: Manager, k: Key)
    requires Covers(s.cfg.ports, m) && Bounded(s, m.counts) && k in m.caches
    ensures Covers(s.cfg.ports, GenKey(s, m, k)) && Bounded(s, GenKey(s, m, k).counts)
    ensures GenKey(s, m, k).counts.Keys == m.counts.Keys
  {
    PopKeyKeeps(s, m, k);
    EraseCovers(s.cfg.ports, PopKey(s, m, k), {k});
  }

  lemma {:induction false} GenKeysKeeps(s: Settings, m: Manager, keys: seq<Key>)
    requires Covers(s.cfg.ports, m) && Bounded(s, m.counts)
    ensures Covers(s.cfg.ports, GenKeys(s, m, keys)) && Bounded(s, GenKeys(s, m, keys).counts)
    ensures GenKeys(s, m, keys).counts.Keys == m.counts.Keys
    decreases |keys|
  {
    if keys != [] {
      if keys[0] in m.caches {
        GenKeyKeeps(s, m, keys[0]);
        GenKeysKeeps(s, GenKey(s, m, keys[0]), keys[1..]);
      } else {
        GenKeysKeeps(s, m, keys[1..]);
      }
    }
  }

  /** Streams that deliver each buffer once never replace a matched row. */
  lemma {:induction false} LegalNeverOverwrites(cfg: Config, plan: MatchRuns.Plan, mode: MatchRuns.Mode,
                                                sys: MatchRuns.Sys, p: Port, b: Buffer)
    requires MatchRuns.ValidPlan(cfg, plan) && MatchRuns.Inv(cfg, plan, mode, sys)
    requires MatchRuns.FromPlan(cfg, plan, MatchRuns.Arrive(p, b))
    requires MatchRuns.WithinNeed(cfg, plan, sys.got + multiset{(p, MatchRuns.MatchIndex(cfg, p, b))})
    ensures !Overwrites(cfg, sys.cache, p, b)
  {
    var eb := Effective(cfg, p, b);
    MatchRuns.EffectiveOfPlan(cfg, plan, p, b);
    MatchRuns.ArriveInEntry(cfg, plan, sys.got, Elems(sys.order), sys.cache, p, eb);
    assert eb.info.index !in sys.cache.ready.Keys;
  }

  // ----- every run -----

  datatype Step =
    | Load(queues: map<Port, seq<Arrival>>)
    | Generate(keys: seq<Key>)
    | Clean(aborted: set<Key>)

  /** What the node's runs do: read every port, generate, drop aborted sessions.  A mismatch fault
      stops the node, so nothing follows it. */
  function After(s: Settings, ports: seq<Port>, m: Manager, step: Step): (bool, Manager) {
    match step
    case Load(queues) => LoadPorts(s, m, ports, queues)
    case Generate(keys) => (true, GenKeys(s, m, keys))
    case Clean(aborted) => (true, m.(caches := m.caches - aborted))
  }

  function Run(s: Settings, ports: seq<Port>, steps: seq<Step>): (bool, Manager) {
    if steps == [] then (true, Manager(map[], map[]))
    else
      var (ok, m) := Run(s, ports, steps[..|steps| - 1]);
      if ok then After(s, ports, m, steps[|steps| - 1]) else (false, m)
  }

  lemma {:induction false} StepKeeps(s: Settings, ports: seq<Port>, m: Manager, step: Step)
    requires DistinctPorts(ports) && PortSet(ports) == s.cfg.ports
    requires Covers(s.cfg.ports, m) && Bounded(s, m.counts) && (m.counts.Keys == {} || m.counts.Keys == s.cfg.ports)
    ensures var (ok, m') := After(s, ports, m, step);
            && Covers(s.cfg.ports, m') && Bounded(s, m'.counts)
            && (ok ==> m'.counts.Keys == {} || m'.counts.Keys == s.cfg.ports)
  {
    match step
    case Load(queues) =>
      PortsInSet(ports);
      LoadPortsKeeps(s, m, ports, queues);
    case Generate(keys) => GenKeysKeeps(s, m, keys);
    case Clean(aborted) => EraseCovers(s.cfg.ports, m, aborted);
  }

  lemma {:induction false} PortsInSet(ports: seq<Port>)
    ensures forall i | 0 <= i < |ports| :: ports[i] in PortSet(ports)
  {
    if ports != [] {
      PortsInSet(ports[1..]);
      forall i | 0 <= i < |ports| ensures ports[i] in PortSet(ports) {
        assert i > 0 ==> ports[i] == ports[1..][i - 1];
      }
    }
  }

  /** Flow control is bounded in every reachable state, and every counter covers what is held. */
  lemma {:induction false} AlwaysBounded(s: Settings, ports: seq<Port>, steps: seq<Step>)
    requires DistinctPorts(ports) && PortSet(ports) == s.cfg.ports
    ensures var (ok, m) := Run(s, ports, steps);
            && Covers(s.cfg.ports, m) && Bounded(s, m.counts)
            && (ok ==> m.counts.Keys == {} || m.counts.Keys == s.cfg.ports)
  {
    if steps != [] {
      AlwaysBounded(s, ports, steps[..|steps| - 1]);
      var (ok, m) := Run(s, ports, steps[..|steps| - 1]);
      if ok {
        StepKeeps(s, ports, m, steps[|steps| - 1]);
      }
    }
  }

  /** So no pop ever drives a counter below zero: where the engine subtracts, it subtracts exactly. */
  lemma {:induction false} NeverUnderflows(s: Settings, ports: seq<Port>, steps: seq<Step>, k: Key)
    requires DistinctPorts(ports) && PortSet(ports) == s.cfg.ports && k in Run(s, ports, steps).1.caches
    ensures var m := Run(s, ports, steps).1;
            var n := |PopOrder(m.caches[k].ready, m.caches[k].next, s.inOrder)|;
            forall p | p in m.counts :: n <= m.counts[p] && Lowered(m.counts, n)[p] == m.counts[p] - n
  {
    AlwaysBounded(s, ports, steps);
    var m := Run(s, ports, steps).1;
    PopAccounts(s, m, k);
    LoweredExactly(m.counts, |PopOrder(m.caches[k].ready, m.caches[k].next, s.inOrder)|);
  }

  // ----- the manager itself -----

  class InputMatchStreamManager {
    const settings: Settings
    var caches: map<Key, CacheState>
    var counts: map<Port, nat>
    /** Whether the backward level of each port has been set, which takes data on every port. */
    var levelsKnown: bool

    function State(): Manager
      reads this
    {
      Manager(caches, counts)
    }

    constructor (settings: Settings)
      ensures this.settings == settings && State() == Manager(map[], map[]) && !levelsKnown
    {
      this.settings := settings;
      caches, counts, levelsKnown := map[], map[], false;
    }

    method GetReadCount(port: Port) returns (n: nat)
      modifies this`counts
      ensures counts == Touch(old(counts), port)
      ensures n == ReadCount(settings.queueSize, counts, port)
    {
      counts := counts[port := CountOf(counts, port)];
      var cached := counts[port];
      if cached >= MAX_CACHE_COUNT { return 0; }
      var readCount := MAX_CACHE_COUNT - cached;
      if readCount > settings.queueSize { readCount := settings.queueSize; }
      var shortestPort, shortest := FindShortest(counts);
      if shortestPort == port { return readCount; }
      if cached + readCount - shortest > 2 * settings.queueSize { return 0; }
      return readCount;
    }

    method CacheBuffer(port: Port, a: Arrival) returns (ok: bool)
      modifies this`caches, this`counts
      ensures ok == CacheOne(settings.cfg, old(State()), port, a).0
      ensures State() == CacheOne(settings.cfg, old(State()), port, a).1
    {
      if a.dropped { return true; }
      var (st, c) := CacheIn(settings.cfg, CacheOf(caches, a.key), port, a.buffer);
      caches := caches[a.key := c];
      if st == Success {
        counts := counts[port := CountOf(counts, port) + 1];
      }
      return st != Fault;
    }

    method LoadData(ports: seq<Port>, queues: map<Port, seq<Arrival>>) returns (ok: bool)
      modifies this
      ensures levelsKnown == (old(levelsKnown) || AllHaveData(ports, queues))
      ensures !levelsKnown ==> ok && State() == old(State())
      ensures levelsKnown ==> (ok, State()) == LoadPorts(settings, old(State()), ports, queues)
    {
      if !levelsKnown {
        levelsKnown := InitInheritBackwardLevel(ports, queues);
        if !levelsKnown { return true; }
      }
      for i := 0 to |ports|
        invariant levelsKnown
        invariant LoadPorts(settings, old(State()), ports, queues) == LoadPorts(settings, State(), ports[i..], queues)
      {
        ghost var before := State();
        var n := GetReadCount(ports[i]);
        var queue := QueueOf(queues, ports[i]);
        var batch := if n < |queue| then queue[..n] else queue;
        ok := LoadBatch(ports[i], batch);
        assert (ok, State()) == LoadPort(settings, before, ports[i], queue);
        assert ports[i..][1..] == ports[i + 1..];
        if !ok { return; }
      }
      ok := true;
    }

    method LoadBatch(port: Port, batch: seq<Arrival>) returns (ok: bool)
      modifies this`caches, this`counts
      ensures ok == CacheMany(settings.cfg, old(State()), port, batch).0
      ensures State() == CacheMany(settings.cfg, old(State()), port, batch).1
    {
      for i := 0 to |batch|
        invariant CacheMany(settings.cfg, old(State()), port, batch) == CacheMany(settings.cfg, State(), port, batch[i..])
      {
        assert batch[i..][1..] == batch[i + 1..];
        ok := CacheBuffer(port, batch[i]);
        if !ok { return; }
      }
      ok := true;
    }

    method GenMatchStreamData(keys: seq<Key>) returns (released: seq<(Key, map<Port, seq<Buffer>>)>)
      modifies this
      ensures State() == GenKeys(settings, old(State()), keys)
      ensures released == Releases(settings, old(State()), keys)
    {
      released := [];
      for i := 0 to |keys|
        invariant GenKeys(settings, old(State()), keys) == GenKeys(settings, State(), keys[i..])
        invariant Releases(settings, old(State()), keys) == released + Releases(settings, State(), keys[i..])
      {
        ghost var before := State();
        assert keys[i..][1..] == keys[i + 1..];
        if keys[i] in caches {
          var more := GenOne(keys[i]);
          ReleasesStep(settings, before, keys[i..], released);
          released := released + more;
        }
      }
    }

    method GenOne(key: Key) returns (released: seq<(Key, map<Port, seq<Buffer>>)>)
      requires key in caches
      modifies this
      ensures State() == GenKey(settings, old(State()), key)
      ensures released == Release(settings, old(State()), key)
    {
      released := [];
      var c := caches[key];
      var (lists, popped) := Pop(c, settings.inOrder, settings.gatherAll);
      var n := |PopOrder(c.ready, c.next, settings.inOrder)|;
      if lists.Some? && n != 0 {
        released := [(key, lists.value)];
        caches := caches[key := popped];
        counts := Lowered(counts, n);
      }
      if StreamEnd(caches[key]) {
        caches := caches - {key};
      }
    }
  }

  /** The first-buffer test of every port; the levels themselves are left out. */
  method InitInheritBackwardLevel(ports: seq<Port>, queues: map<Port, seq<Arrival>>) returns (known: bool)
    ensures known == AllHaveData(ports, queues)
  {
    known := true;
    for i := 0 to |ports|
      invariant known == forall j | 0 <= j < i :: QueueOf(queues, ports[j]) != []
    {
      if QueueOf(queues, ports[i]) == [] { known := false; }
    }
  }

  /** A port with the smallest counter. */
  method FindShortest(counts: map<Port, nat>) returns (port: Port, n: nat)
    requires counts != map[]
    ensures port in counts && counts[port] == n == Least(counts)
  {
    var left := counts.Keys;
    port :| port in left;
    n := counts[port];
    left := left - {port};
    while left != {}
      invariant left <= counts.Keys
      invariant port in counts && counts[port] == n
      invariant forall q | q in counts.Keys && q !in left :: n <= counts[q]
      decreases left
    {
      var q :| q in left;
      if counts[q] < n { port, n := q, counts[q]; }
      left := left - {q};
    }
  }
}
