/** Matching the buffers of one stream across the input ports of a node.

    `Entry` is what has arrived for one index, `CacheState` everything held for one
    stream.  The class `MatchStreamCache` is the engine's cache; its two operations are
    proved equal to the functions `CacheIn` and `Pop`.  */
module StreamMatch {
  import opened Buffers

  datatype Status = Success | Exist | Fault

  /** Fixed per node: its data ports, and how many upstream ports feed each of them. */
  datatype Config = Config(ports: set<Port>, streamCount: map<Port, nat>) {
    function StreamCount(p: Port): nat {
      if p in streamCount then streamCount[p] else 0
    }
  }

  datatype Entry = Entry(buffers: map<Port, Buffer>, counts: map<Port, nat>, isEnd: bool, isPlaceholder: bool)

  const EMPTY_ENTRY := Entry(map[], map[], false, false)

  datatype CacheState = CacheState(
    pending: map<nat, Entry>,
    ready: map<nat, Entry>,
    next: nat,
    endReceived: bool,
    total: nat,
    cur: nat)

  const EMPTY_CACHE := CacheState(map[], map[], 0, false, 0, 0)

  /** A port fed by several branches of an if/else goes by the index info the buffer had
      before the split; any other port by the buffer's own. */
  function Effective(cfg: Config, p: Port, b: Buffer): Buffer {
    if cfg.StreamCount(p) > 1 && b.info.inherit.Inherit? then b.(info := b.info.inherit.from) else b
  }

  function CacheInEntry(e: Entry, p: Port, b: Buffer): (Status, Entry) {
    if e.buffers != map[] && e.isEnd != b.info.isEnd then
      (Fault, e)
    else
      var n := if p in e.counts then e.counts[p] + 1 else 1;
      (if n > 1 then Exist else Success,
       Entry(e.buffers[p := b], e.counts[p := n], b.info.isEnd, e.isPlaceholder || b.info.isPlaceholder))
  }

  predicate Matched(cfg: Config, e: Entry) {
    && |cfg.ports| == |e.buffers|
    && (e.isEnd && cfg.streamCount != map[] ==> forall p | p in e.counts :: cfg.StreamCount(p) <= e.counts[p])
  }

  function AddReady(c: CacheState, i: nat, e: Entry): CacheState {
    CacheState(c.pending - {i}, c.ready[i := e], c.next, c.endReceived || e.isEnd,
               if e.isEnd then i + 1 else c.total, c.cur + 1)
  }

  function EntryFor(c: CacheState, i: nat): Entry {
    if i in c.pending then c.pending[i] else EMPTY_ENTRY
  }

  function CacheIn(cfg: Config, c: CacheState, p: Port, b: Buffer): (Status, CacheState) {
    var eb := Effective(cfg, p, b);
    var i := eb.info.index;
    var (st, e) := CacheInEntry(EntryFor(c, i), p, eb);
    if st.Fault? then
      (st, c)
    else if !Matched(cfg, e) then
      (st, c.(pending := c.pending[i := e]))
    else
      (st, AddReady(c, i, e))
  }

  /** The buffers of an entry as they leave: one placeholder makes the whole row placeholders. */
  function Row(e: Entry): map<Port, Buffer> {
    if e.isPlaceholder then map p | p in e.buffers :: MarkAsPlaceholder(e.buffers[p]) else e.buffers
  }

  lemma {:induction false} MinExists(s: set<nat>) returns (m: nat)
    requires s != {}
    ensures m in s && forall x | x in s :: m <= x
    decreases |s|
  {
    m :| m in s;
    var rest := s - {m};
    if rest != {} {
      var r := MinExists(rest);
      if r < m { m := r; }
    }
    forall x | x in s ensures m <= x {
      assert x in rest || s - rest == {x};
    }
  }

  /** The first key of an ordered map. */
  function MinKey(s: set<nat>): (m: nat)
    requires s != {}
    ensures m in s && forall x | x in s :: m <= x
  {
    assert exists m :: m in s && forall x | x in s :: m <= x by { var m := MinExists(s); }
    var m :| m in s && forall x | x in s :: m <= x;
    m
  }

  /** The entries a pop takes, with their indices, in the order it takes them. */
  function PopOrder(ready: map<nat, Entry>, next: nat, inOrder: bool): seq<(nat, Entry)>
    decreases |ready|
  {
    if ready == map[] || (inOrder && MinKey(ready.Keys) != next) then []
    else
      var m := MinKey(ready.Keys);
      RemoveShrinks(ready, m);
      [(m, ready[m])] + PopOrder(ready - {m}, next + 1, inOrder)
  }

  /** The entries it leaves. */
  function PopRest(ready: map<nat, Entry>, next: nat, inOrder: bool): map<nat, Entry>
    decreases |ready|
  {
    if ready == map[] || (inOrder && MinKey(ready.Keys) != next) then ready
    else
      RemoveShrinks(ready, MinKey(ready.Keys));
      PopRest(ready - {MinKey(ready.Keys)}, next + 1, inOrder)
  }

  lemma RemoveShrinks(ready: map<nat, Entry>, i: nat)
    requires i in ready
    ensures |ready - {i}| < |ready|
  {
    assert (ready - {i}).Keys == ready.Keys - {i};
  }

  /** One list per port out of a sequence of rows. */
  function AppendRow(m: map<Port, seq<Buffer>>, row: map<Port, Buffer>): map<Port, seq<Buffer>> {
    map p | p in m.Keys + row.Keys ::
      (if p in m then m[p] else []) + (if p in row then [row[p]] else [])
  }

  function Collect(rows: seq<map<Port, Buffer>>): map<Port, seq<Buffer>> {
    if rows == [] then map[] else AppendRow(Collect(rows[..|rows| - 1]), rows[|rows| - 1])
  }

  function Rows(taken: seq<(nat, Entry)>): seq<map<Port, Buffer>> {
    seq(|taken|, k requires 0 <= k < |taken| => Row(taken[k].1))
  }

  /** False while a gather-all node still waits for part of its stream. */
  predicate PopAllowed(c: CacheState, gatherAll: bool) {
    gatherAll ==> c.endReceived && |c.ready| == c.total
  }

  function Pop(c: CacheState, inOrder: bool, gatherAll: bool): (Option<map<Port, seq<Buffer>>>, CacheState) {
    if !PopAllowed(c, gatherAll) then (None, c)
    else
      var taken := PopOrder(c.ready, c.next, inOrder);
      (Some(Collect(Rows(taken))), c.(ready := PopRest(c.ready, c.next, inOrder), next := c.next + |taken|))
  }

  predicate StreamEnd(c: CacheState) {
    c.total != 0 && c.cur == c.total
  }

  /** `MatchBufferCache::IsMatched`: the counting loop. */
  method IsMatched(cfg: Config, e: Entry) returns (r: bool)
    ensures r == Matched(cfg, e)
  {
    if |cfg.ports| != |e.buffers| { return false; }
    if !e.isEnd { return true; }
    if cfg.streamCount == map[] { return true; }
    var left := e.counts.Keys;
    while left != {}
      invariant left <= e.counts.Keys
      invariant forall p | p in e.counts.Keys - left :: cfg.StreamCount(p) <= e.counts[p]
      decreases left
    {
      var p :| p in left;
      if e.counts[p] < cfg.StreamCount(p) { return false; }
      left := left - {p};
    }
    return true;
  }

  /** The erase-while-iterating loop over the ready entries. */
  method TakeReady(ready: map<nat, Entry>, next: nat, inOrder: bool) returns (taken: seq<(nat, Entry)>, rest: map<nat, Entry>)
    ensures taken == PopOrder(ready, next, inOrder)
    ensures rest == PopRest(ready, next, inOrder)
  {
    taken, rest := [], ready;
    var indexInOrder := next;
    while rest != map[]
      invariant PopOrder(ready, next, inOrder) == taken + PopOrder(rest, indexInOrder, inOrder)
      invariant PopRest(ready, next, inOrder) == PopRest(rest, indexInOrder, inOrder)
      decreases |rest|
    {
      var index := MinKey(rest.Keys);
      if inOrder && index != indexInOrder { break; }
      RemoveShrinks(rest, index);
      taken := taken + [(index, rest[index])];
      rest := rest - {index};
      indexInOrder := indexInOrder + 1;
    }
  }

  class MatchStreamCache {
    const cfg: Config
    var pending: map<nat, Entry>
    var ready: map<nat, Entry>
    var indexInOrder: nat
    var endFlagReceived: bool
    var totalInputCount: nat
    var curInputCount: nat

    function State(): CacheState
      reads this
    {
      CacheState(pending, ready, indexInOrder, endFlagReceived, totalInputCount, curInputCount)
    }

    constructor (cfg: Config)
      ensures this.cfg == cfg && State() == EMPTY_CACHE
    {
      this.cfg := cfg;
      pending, ready, indexInOrder := map[], map[], 0;
      endFlagReceived, totalInputCount, curInputCount := false, 0, 0;
    }

    method CacheBuffer(port: Port, buffer: Buffer) returns (ret: Status)
      requires cfg.StreamCount(port) > 1 ==> buffer.info.inherit.Inherit?
      modifies this
      ensures ret == CacheIn(cfg, old(State()), port, buffer).0
      ensures State() == CacheIn(cfg, old(State()), port, buffer).1
    {
      var b := buffer;
      if cfg.StreamCount(port) > 1 {
        // rejoining if/else branches: go by the index before the split
        b := b.(info := b.info.inherit.from);
      }
      var index := b.info.index;
      var entry := if index in pending then pending[index] else EMPTY_ENTRY;
      var (st, filled) := CacheInEntry(entry, port, b);
      ret := st;
      if ret == Fault { return; }
      var matched := IsMatched(cfg, filled);
      if !matched {
        pending := pending[index := filled];
        return;
      }
      MoveToReady(index, filled);
    }

    method MoveToReady(index: nat, entry: Entry)
      modifies this
      ensures State() == AddReady(old(State()), index, entry)
    {
      pending, ready := pending - {index}, ready[index := entry];
      curInputCount := curInputCount + 1;
      if entry.isEnd {
        endFlagReceived, totalInputCount := true, index + 1;
      }
    }

    method PopReadyMatchBuffers(inOrder: bool, gatherAll: bool) returns (popped: Option<map<Port, seq<Buffer>>>)
      modifies this
      ensures popped == Pop(old(State()), inOrder, gatherAll).0
      ensures State() == Pop(old(State()), inOrder, gatherAll).1
    {
      if gatherAll && !(endFlagReceived && |ready| == totalInputCount) {
        return None;
      }
      var taken, rest := TakeReady(ready, indexInOrder, inOrder);
      ready, indexInOrder := rest, indexInOrder + |taken|;
      var lists := GatherRows(taken);
      popped := Some(lists);
    }

    method IsStreamEnd() returns (r: bool)
      ensures r == StreamEnd(State())
    {
      r := totalInputCount != 0 && curInputCount == totalInputCount;
    }
  }

  /** Transposes the popped entries into one list per port. */
  method GatherRows(taken: seq<(nat, Entry)>) returns (lists: map<Port, seq<Buffer>>)
    ensures lists == Collect(Rows(taken))
  {
    lists := map[];
    for k := 0 to |taken|
      invariant lists == Collect(Rows(taken)[..k])
    {
      var row := Row(taken[k].1);
      lists := GatherRow(lists, row);
      assert Rows(taken)[..k + 1][..k] == Rows(taken)[..k];
    }
    assert Rows(taken)[..|taken|] == Rows(taken);
  }

  method GatherRow(before: map<Port, seq<Buffer>>, row: map<Port, Buffer>) returns (lists: map<Port, seq<Buffer>>)
    ensures lists == AppendRow(before, row)
  {
    lists := before;
    var left := row.Keys;
    while left != {}
      invariant left <= row.Keys
      invariant lists.Keys == before.Keys + (row.Keys - left)
      invariant forall p | p in before.Keys && (p in row.Keys ==> p in left) :: lists[p] == before[p]
      invariant forall p | p in row.Keys && p !in left :: lists[p] == (if p in before then before[p] else []) + [row[p]]
      decreases left
    {
      var p :| p in left;
      var list := if p in lists then lists[p] else [];
      lists := lists[p := list + [row[p]]];
      left := left - {p};
    }
    forall p | p in lists ensures lists[p] == AppendRow(before, row)[p] {
      if p !in row { assert lists[p] == before[p] == before[p] + []; }
    }
  }
}
