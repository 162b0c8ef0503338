/** The output streams of a node: every batch of outputs is entered in one stream per port, and a match
    entry lives from its first batch to the one that completes it. */
module OutputStreams {
  import opened Basics
  import opened Buffers

  type Key = nat

  /** `key` is where its index info leads: the buffer the stream was expanded from, or the stream that was
      split. */
  datatype OutBuffer = OutBuffer(key: Key, index: nat, isEnd: bool, data: int)

  /** `max` is zero until the end flag has been seen. */
  datatype Stream = Stream(max: nat, count: nat)

  predicate ReachEnd(s: Stream) {
    s.max != 0 && s.max <= s.count
  }

  /** One list per output port; null outputs of an if/else node are `None`. */
  type Batch = map<Port, seq<Option<OutBuffer>>>

  type Entry = map<Port, Stream>

  // ----- one port -----

  /** With new indices, a buffer gets the number of buffers before it. */
  function Stamped(renew: bool, s: Stream, b: OutBuffer): OutBuffer {
    if renew then b.(index := s.count) else b
  }

  function Counted(renew: bool, s: Stream, b: OutBuffer): Stream {
    Stream(if b.isEnd then Stamped(renew, s, b).index + 1 else s.max, s.count + 1)
  }

  function Fed(renew: bool, s: Stream, list: seq<Option<OutBuffer>>): Stream
    decreases |list|
  {
    if list == [] then s
    else
      var s' := Fed(renew, s, list[..|list| - 1]);
      var x := list[|list| - 1];
      if x.None? then s' else Counted(renew, s', x.value)
  }

  function Sent(renew: bool, s: Stream, list: seq<Option<OutBuffer>>): seq<OutBuffer>
    decreases |list|
  {
    if list == [] then []
    else
      var n := |list| - 1;
      var x := list[n];
      Sent(renew, s, list[..n]) + if x.None? then [] else [Stamped(renew, Fed(renew, s, list[..n]), x.value)]
  }

  method FeedPort(renew: bool, s: Stream, list: seq<Option<OutBuffer>>) returns (s': Stream, out: seq<OutBuffer>)
    ensures s' == Fed(renew, s, list) && out == Sent(renew, s, list)
  {
    s', out := s, [];
    for i := 0 to |list|
      invariant s' == Fed(renew, s, list[..i]) && out == Sent(renew, s, list[..i])
    {
      assert list[..i + 1][..i] == list[..i];
      if list[i].Some? {
        var b := list[i].value;
        if renew {
          b := b.(index := s'.count);
        }
        out := out + [b];
        s' := s'.(count := s'.count + 1);
        if b.isEnd {
          s' := s'.(max := b.index + 1);
        }
      }
    }
    assert list[..|list|] == list;
  }

  /** The list without its nulls. */
  function NonNull(list: seq<Option<OutBuffer>>): seq<OutBuffer> {
    if list == [] then []
    else
      var x := list[|list| - 1];
      NonNull(list[..|list| - 1]) + (if x.Some? then [x.value] else [])
  }

  function Renumbered(bs: seq<OutBuffer>, start: nat): seq<OutBuffer> {
    seq(|bs|, k requires 0 <= k < |bs| => bs[k].(index := start + k))
  }

  /** What is sent is the list without its nulls, in order: with indices kept just as it is, with new indices
      numbered on from the buffers sent before and otherwise the same. */
  lemma {:induction false} SentIs(renew: bool, s: Stream, list: seq<Option<OutBuffer>>)
    ensures Sent(renew, s, list) == if renew then Renumbered(NonNull(list), s.count) else NonNull(list)
    ensures Fed(renew, s, list).count == s.count + |NonNull(list)|
    decreases |list|
  {
    if list != [] {
      SentIs(renew, s, list[..|list| - 1]);
    }
  }

  lemma {:induction false} RenumberedConcat(a: seq<OutBuffer>, b: seq<OutBuffer>, start: nat)
    ensures Renumbered(a + b, start) == Renumbered(a, start) + Renumbered(b, start + |a|)
  {
  }

  // ----- all ports -----

  function Fresh(ports: set<Port>): Entry {
    map p | p in ports :: Stream(0, 0)
  }

  function EntryAt(ports: set<Port>, streams: map<Key, Entry>, key: Key): Entry {
    if key in streams then streams[key] else Fresh(ports)
  }

  /** Every port has its list and its stream. */
  predicate Fits(ports: set<Port>, entry: Entry, batch: Batch) {
    entry.Keys == ports && batch.Keys == ports
  }

  function StreamAt(entry: Entry, p: Port): Stream {
    if p in entry then entry[p] else Stream(0, 0)
  }

  function ListAt(batch: Batch, p: Port): seq<Option<OutBuffer>> {
    if p in batch then batch[p] else []
  }

  function FedAll(renew: bool, ports: set<Port>, entry: Entry, batch: Batch): Entry {
    map p | p in ports :: Fed(renew, StreamAt(entry, p), ListAt(batch, p))
  }

  function EndedPorts(entry: Entry): set<Port> {
    set p | p in entry && ReachEnd(entry[p])
  }

  datatype Result = Result(ok: bool, streams: map<Key, Entry>)

  /** Enter a batch; the entry is gone when all its streams are over, and it is a fault if only some are. */
  function Entered(renew: bool, ports: set<Port>, streams: map<Key, Entry>, key: Key, batch: Batch): Result {
    var entry := FedAll(renew, ports, EntryAt(ports, streams, key), batch);
    var ended := EndedPorts(entry);
    if ended == {} then Result(true, streams[key := entry])
    else if ended != ports then Result(false, streams[key := entry])
    else Result(true, streams - {key})
  }

  /** The match key of the first output met that is not null, walking over the fronts of the ports. */
  function FrontKey(walk: seq<Port>, batch: Batch): Option<Key> {
    if walk == [] then None
    else if ListAt(batch, walk[0]) != [] && ListAt(batch, walk[0])[0].Some? then Some(ListAt(batch, walk[0])[0].value.key)
    else FrontKey(walk[1..], batch)
  }

  /** A batch whose first list is empty is nothing to do, one of which all fronts are null a fault. */
  function Updated(renew: bool, ports: set<Port>, streams: map<Key, Entry>, walk: seq<Port>, batch: Batch): Result {
    if walk == [] || ListAt(batch, walk[0]) == [] then Result(true, streams)
    else match FrontKey(walk, batch)
      case None => Result(false, streams)
      case Some(key) => Entered(renew, ports, streams, key, batch)
  }

  class OutputMatchStreamManager {
    const ports: set<Port>
    const renew: bool
    var streams: map<Key, Entry>

    constructor (ports: set<Port>, renew: bool)
      ensures this.ports == ports && this.renew == renew && streams == map[]
    {
      this.ports, this.renew, this.streams := ports, renew, map[];
    }

    /** Every match entry has a stream for each port. */
    ghost predicate Valid()
      reads this
    {
      forall key | key in streams :: streams[key].Keys == ports
    }

    /** `walk` is the order in which a walk over the batch meets the ports. */
    method UpdateStreamInfo(walk: seq<Port>, batch: Batch) returns (ok: bool, out: map<Port, seq<OutBuffer>>)
      requires Valid() && Elems(walk) == ports == batch.Keys
      requires walk != [] && batch[walk[0]] != [] ==> forall p | p in ports :: batch[p] != []
      modifies this`streams
      ensures Valid() && Result(ok, streams) == Updated(renew, ports, old(streams), walk, batch)
      ensures walk == [] || batch[walk[0]] == [] || FrontKey(walk, batch).None? ==> out == map[]
      ensures walk != [] && batch[walk[0]] != [] && FrontKey(walk, batch).Some? ==>
                var entry := EntryAt(ports, old(streams), FrontKey(walk, batch).value);
                out.Keys == ports && forall p | p in ports :: out[p] == Sent(renew, StreamAt(entry, p), batch[p])
    {
      ok, out := true, map[];
      if walk == [] || batch[walk[0]] == [] {
        return;
      }
      var found := GetOutputStreamMatchKey(walk, batch);
      if found.None? {
        return false, out;
      }
      ok, out := Enter(found.value, batch);
    }

    /** The batch goes into the streams of the match entry, found or made. */
    method Enter(key: Key, batch: Batch) returns (ok: bool, out: map<Port, seq<OutBuffer>>)
      requires Valid() && batch.Keys == ports
      modifies this`streams
      ensures Valid() && Result(ok, streams) == Entered(renew, ports, old(streams), key, batch)
      ensures var entry := EntryAt(ports, old(streams), key);
              out.Keys == ports && forall p | p in ports :: out[p] == Sent(renew, StreamAt(entry, p), batch[p])
    {
      var entry: Entry;
      entry, out := FeedAll(renew, ports, EntryAt(ports, streams, key), batch);
      var ended := EndedPorts(entry);
      ok := true;
      if ended == {} {
        streams := streams[key := entry];
      } else if ended != ports {
        streams := streams[key := entry];
        ok := false;
      } else {
        streams := streams - {key};
      }
    }
  }

  method GetOutputStreamMatchKey(walk: seq<Port>, batch: Batch) returns (key: Option<Key>)
    requires forall p | p in walk :: p in batch && batch[p] != []
    ensures key == FrontKey(walk, batch)
  {
    for i := 0 to |walk|
      invariant FrontKey(walk, batch) == FrontKey(walk[i..], batch)
    {
      assert walk[i..][1..] == walk[i + 1..];
      assert walk[i] in walk;
      var front := batch[walk[i]][0];
      if front.Some? {
        return Some(front.value.key);
      }
    }
    key := None;
  }

  method FeedAll(renew: bool, ports: set<Port>, entry: Entry, batch: Batch)
    returns (entry': Entry, out: map<Port, seq<OutBuffer>>)
    requires Fits(ports, entry, batch)
    ensures entry' == FedAll(renew, ports, entry, batch)
    ensures out.Keys == ports && forall p | p in ports :: out[p] == Sent(renew, StreamAt(entry, p), batch[p])
  {
    entry', out := map[], map[];
    var rest := ports;
    while rest != {}
      invariant rest <= ports && entry'.Keys == ports - rest && out.Keys == ports - rest
      invariant forall p | p in entry' :: entry'[p] == Fed(renew, entry[p], batch[p])
      invariant forall p | p in out :: out[p] == Sent(renew, entry[p], batch[p])
      decreases |rest|
    {
      var p :| p in rest;
      var s, o := FeedPort(renew, entry[p], batch[p]);
      rest, entry', out := rest - {p}, entry'[p := s], out[p := o];
    }
  }

  /** A batch is at fault exactly when it brings the stream of some port to its end and leaves that of another
      short of it; otherwise the entry goes when all are at their end, and stays when none is. */
  lemma {:induction false} FaultIffApart(renew: bool, ports: set<Port>, streams: map<Key, Entry>, key: Key, batch: Batch)
    requires ports != {}
    ensures var entry, r := EntryAt(ports, streams, key), Entered(renew, ports, streams, key, batch);
            && (!r.ok <==>
                  && (exists p | p in ports :: ReachEnd(Fed(renew, StreamAt(entry, p), ListAt(batch, p))))
                  && (exists p | p in ports :: !ReachEnd(Fed(renew, StreamAt(entry, p), ListAt(batch, p)))))
            && (key !in r.streams <==> forall p | p in ports :: ReachEnd(Fed(renew, StreamAt(entry, p), ListAt(batch, p))))
            && (key in r.streams ==> r.streams[key] == FedAll(renew, ports, entry, batch))
  {
    var entry := EntryAt(ports, streams, key);
    var after := FedAll(renew, ports, entry, batch);
    assert forall p | p in ports :: after[p] == Fed(renew, StreamAt(entry, p), ListAt(batch, p));
    EndedIs(ports, after);
  }

  lemma {:induction false} EndedIs(ports: set<Port>, entry: Entry)
    requires entry.Keys == ports
    ensures EndedPorts(entry) == {} <==> forall p | p in ports :: !ReachEnd(entry[p])
    ensures EndedPorts(entry) == ports <==> forall p | p in ports :: ReachEnd(entry[p])
  {
    assert forall p | p in ports :: p in EndedPorts(entry) <==> ReachEnd(entry[p]);
    assert EndedPorts(entry) <= ports;
  }

  ghost predicate FrontIs(batch: Batch, p: Port) {
    ListAt(batch, p) != [] && ListAt(batch, p)[0].Some?
  }

  /** The match key is that of the first port met whose front is not null; there is none exactly if all fronts
      are. */
  lemma {:induction false} FrontKeyIs(walk: seq<Port>, batch: Batch)
    ensures FrontKey(walk, batch).None? <==> forall p | p in walk :: !FrontIs(batch, p)
    ensures forall i | 0 <= i < |walk| && FrontIs(batch, walk[i]) && (forall j | 0 <= j < i :: !FrontIs(batch, walk[j])) ::
              FrontKey(walk, batch) == Some(ListAt(batch, walk[i])[0].value.key)
    decreases |walk|
  {
    if walk != [] {
      FrontKeyIs(walk[1..], batch);
      assert forall p :: p in walk <==> p == walk[0] || p in walk[1..];
      if FrontIs(batch, walk[0]) {
        assert walk[0] in walk;
      } else {
        assert FrontKey(walk, batch) == FrontKey(walk[1..], batch);
      }
      forall i | 0 <= i < |walk| && FrontIs(batch, walk[i]) && (forall j | 0 <= j < i :: !FrontIs(batch, walk[j]))
        ensures FrontKey(walk, batch) == Some(ListAt(batch, walk[i])[0].value.key)
      {
        if i > 0 {
          assert walk[1..][i - 1] == walk[i] && !FrontIs(batch, walk[0]);
          assert forall j | 0 <= j < i - 1 :: walk[1..][j] == walk[j + 1];
        }
      }
    }
  }

  /** A batch whose first list is empty changes nothing; one with lists but only null fronts is a fault and
      changes nothing; any other goes to the entry of the first front that is not null. */
  lemma {:induction false} UpdateCases(renew: bool, ports: set<Port>, streams: map<Key, Entry>, walk: seq<Port>, batch: Batch)
    ensures walk == [] || ListAt(batch, walk[0]) == [] ==> Updated(renew, ports, streams, walk, batch) == Result(true, streams)
    ensures walk != [] && ListAt(batch, walk[0]) != [] && (forall p | p in walk :: !FrontIs(batch, p)) ==>
              Updated(renew, ports, streams, walk, batch) == Result(false, streams)
    ensures forall i | 0 <= i < |walk| && FrontIs(batch, walk[i]) && (forall j | 0 <= j < i :: !FrontIs(batch, walk[j])) ::
              var key := ListAt(batch, walk[i])[0].value.key;
              ListAt(batch, walk[0]) != [] ==>
                Updated(renew, ports, streams, walk, batch) == Entered(renew, ports, streams, key, batch)
  {
    FrontKeyIs(walk, batch);
  }

  // ----- indices kept -----

  /** The stream after the indices `done` of a stream that ends at index `e`. */
  function KeepStream(done: set<nat>, e: nat): Stream {
    Stream(if e in done then e + 1 else 0, |done|)
  }

  /** The count reaches the end exactly when every index has been there. */
  lemma {:induction false} FullIffReached(done: set<nat>, e: nat)
    requires done <= UpTo(e + 1)
    ensures ReachEnd(KeepStream(done, e)) <==> done == UpTo(e + 1)
  {
    SubsetSize(done, UpTo(e + 1));
  }

  /** Where the walk comes across an output, it belongs to this stream. */
  ghost predicate OfKey(list: seq<Option<OutBuffer>>, key: Key) {
    forall k | 0 <= k < |list| && list[k].Some? :: list[k].value.key == key
  }

  /** The front of some port is not null, so the match key is found. */
  lemma {:induction false} KeyFound(walk: seq<Port>, batch: Batch, key: Key)
    requires forall p | p in walk :: OfKey(ListAt(batch, p), key)
    requires exists p :: p in walk && ListAt(batch, p) != [] && ListAt(batch, p)[0].Some?
    ensures FrontKey(walk, batch) == Some(key)
    decreases |walk|
  {
    var front := ListAt(batch, walk[0]);
    assert walk[0] in walk;
    if front == [] || front[0].None? {
      var p :| p in walk && ListAt(batch, p) != [] && ListAt(batch, p)[0].Some?;
      assert p in walk[1..];
      KeyFound(walk[1..], batch, key);
    }
  }

  ghost predicate Walks(walk: seq<Port>, ports: set<Port>) {
    Elems(walk) == ports
  }

  /** A batch of one stream, on every port, with a front that is not null. */
  ghost predicate OfStream(ports: set<Port>, batch: Batch, key: Key) {
    && batch.Keys == ports && (forall p | p in ports :: batch[p] != [] && OfKey(batch[p], key))
    && exists p :: p in ports && ListAt(batch, p) != [] && ListAt(batch, p)[0].Some?
  }

  lemma {:induction false} UpdatedIsEntered(renew: bool, ports: set<Port>, streams: map<Key, Entry>, walk: seq<Port>, batch: Batch,
                                            key: Key)
    requires Walks(walk, ports) && OfStream(ports, batch, key)
    ensures Updated(renew, ports, streams, walk, batch) == Entered(renew, ports, streams, key, batch)
  {
    var p :| p in ports && ListAt(batch, p) != [] && ListAt(batch, p)[0].Some?;
    assert p in Elems(walk);
    forall q | q in walk ensures OfKey(ListAt(batch, q), key) { assert q in Elems(walk); }
    KeyFound(walk, batch, key);
    assert walk[0] in Elems(walk);
  }

  /** A list that carries the rows, in that order. */
  ghost predicate Carries(list: seq<Option<OutBuffer>>, rows: seq<nat>, e: nat) {
    |list| == |rows|
    && forall k | 0 <= k < |list| ::
         list[k].Some? && list[k].value.index == rows[k] && (list[k].value.isEnd <==> rows[k] == e)
  }

  /** Rows that are new and within the stream. */
  ghost predicate NewRows(rows: seq<nat>, done: set<nat>, e: nat) {
    && (forall k | 0 <= k < |rows| :: rows[k] <= e && rows[k] !in done)
    && forall j, k | 0 <= j < k < |rows| :: rows[j] != rows[k]
  }

  lemma {:induction false} KeepOne(done: set<nat>, e: nat, b: OutBuffer)
    requires b.index !in done && (b.isEnd <==> b.index == e)
    ensures Counted(false, KeepStream(done, e), b) == KeepStream(done + {b.index}, e)
  {
  }

  lemma {:induction false} RowsPrefix(list: seq<Option<OutBuffer>>, rows: seq<nat>, done: set<nat>, e: nat)
    requires Carries(list, rows, e) && NewRows(rows, done, e) && list != []
    ensures var n := |list| - 1;
            && Carries(list[..n], rows[..n], e) && NewRows(rows[..n], done, e)
            && rows[n] !in done + Elems(rows[..n])
            && done + Elems(rows) == done + Elems(rows[..n]) + {rows[n]}
  {
    var n := |list| - 1;
    assert rows == rows[..n] + [rows[n]];
  }

  lemma {:induction false} KeepFed(list: seq<Option<OutBuffer>>, rows: seq<nat>, done: set<nat>, e: nat)
    requires Carries(list, rows, e) && NewRows(rows, done, e)
    ensures Fed(false, KeepStream(done, e), list) == KeepStream(done + Elems(rows), e)
    decreases |list|
  {
    if list == [] {
      assert done + Elems(rows) == done;
    } else {
      var n := |list| - 1;
      RowsPrefix(list, rows, done, e);
      KeepFed(list[..n], rows[..n], done, e);
      KeepOne(done + Elems(rows[..n]), e, list[n].value);
    }
  }

  function DoneAt(done: map<Key, set<nat>>, key: Key): set<nat> {
    if key in done then done[key] else {}
  }

  /** The entry of a stream that has begun and is not complete. */
  ghost predicate KeepEntry(ports: set<Port>, streams: map<Key, Entry>, key: Key, done: set<nat>, e: nat) {
    && done <= UpTo(e + 1)
    && (key in streams <==> done != {} && done != UpTo(e + 1))
    && (key in streams ==> streams[key].Keys == ports && forall p | p in ports :: streams[key][p] == KeepStream(done, e))
  }

  lemma {:induction false} KeepEntryAt(ports: set<Port>, streams: map<Key, Entry>, key: Key, done: set<nat>, e: nat, p: Port)
    requires KeepEntry(ports, streams, key, done, e) && done != UpTo(e + 1) && p in ports
    ensures EntryAt(ports, streams, key).Keys == ports && EntryAt(ports, streams, key)[p] == KeepStream(done, e)
  {
  }

  ghost predicate KeepBatch(ports: set<Port>, batch: Batch, rows: seq<nat>, done: set<nat>, e: nat) {
    && batch.Keys == ports && rows != [] && NewRows(rows, done, e)
    && forall p | p in ports :: Carries(batch[p], rows, e)
  }

  lemma {:induction false} KeepOfStream(ports: set<Port>, batch: Batch, rows: seq<nat>, done: set<nat>, e: nat, key: Key)
    requires ports != {} && KeepBatch(ports, batch, rows, done, e) && forall p | p in ports :: OfKey(batch[p], key)
    ensures OfStream(ports, batch, key)
  {
    var p :| p in ports;
    assert ListAt(batch, p)[0].Some?;
  }

  lemma {:induction false} KeepBatchFed(ports: set<Port>, entry: Entry, batch: Batch, rows: seq<nat>, done: set<nat>, e: nat)
    requires KeepBatch(ports, batch, rows, done, e) && entry.Keys == ports
    requires forall p | p in ports :: entry[p] == KeepStream(done, e)
    ensures var entry' := FedAll(false, ports, entry, batch);
            entry'.Keys == ports && forall p | p in ports :: entry'[p] == KeepStream(done + Elems(rows), e)
  {
    forall p | p in ports ensures Fed(false, entry[p], batch[p]) == KeepStream(done + Elems(rows), e) {
      KeepFed(batch[p], rows, done, e);
    }
  }

  /** When all ports agree about being over, nothing faults. */
  lemma {:induction false} EnteredTogether(renew: bool, ports: set<Port>, streams: map<Key, Entry>, key: Key, batch: Batch, over: bool)
    requires ports != {}
    requires forall p | p in ports :: ReachEnd(FedAll(renew, ports, EntryAt(ports, streams, key), batch)[p]) <==> over
    ensures Entered(renew, ports, streams, key, batch)
         == Result(true, if over then streams - {key} else streams[key := FedAll(renew, ports, EntryAt(ports, streams, key), batch)])
  {
    var entry := FedAll(renew, ports, EntryAt(ports, streams, key), batch);
    assert EndedPorts(entry) == if over then ports else {};
  }

  lemma {:induction false} NewRowsStay(rows: seq<nat>, done: set<nat>, e: nat)
    requires NewRows(rows, done, e) && done <= UpTo(e + 1) && rows != []
    ensures done + Elems(rows) <= UpTo(e + 1) && done + Elems(rows) != {} && done != UpTo(e + 1)
  {
    assert rows[0] in Elems(rows) && rows[0] in UpTo(e + 1);
  }

  lemma {:induction false} EnteredFrame(renew: bool, ports: set<Port>, streams: map<Key, Entry>, key: Key, batch: Batch, other: Key)
    requires other != key
    ensures var streams' := Entered(renew, ports, streams, key, batch).streams;
            (other in streams' <==> other in streams) && (other in streams ==> streams'[other] == streams[other])
  {
  }

  lemma {:induction false} KeepEntryFed(ports: set<Port>, streams: map<Key, Entry>, key: Key, batch: Batch,
                                        rows: seq<nat>, done: set<nat>, e: nat)
    requires ports != {} && KeepEntry(ports, streams, key, done, e) && KeepBatch(ports, batch, rows, done, e)
    ensures Fits(ports, EntryAt(ports, streams, key), batch)
    ensures var entry := FedAll(false, ports, EntryAt(ports, streams, key), batch);
            entry.Keys == ports && forall p | p in ports :: entry[p] == KeepStream(done + Elems(rows), e)
  {
    NewRowsStay(rows, done, e);
    var entry := EntryAt(ports, streams, key);
    forall p | p in ports ensures entry.Keys == ports && entry[p] == KeepStream(done, e) {
      KeepEntryAt(ports, streams, key, done, e, p);
    }
    assert entry.Keys == ports;
    KeepBatchFed(ports, entry, batch, rows, done, e);
  }

  /** All ports end in the same batch, the one that brings the last missing index, and not before. */
  lemma {:induction false} KeepStep(ports: set<Port>, streams: map<Key, Entry>, key: Key, batch: Batch,
                                    rows: seq<nat>, done: set<nat>, e: nat)
    requires ports != {} && KeepEntry(ports, streams, key, done, e) && KeepBatch(ports, batch, rows, done, e)
    ensures Fits(ports, EntryAt(ports, streams, key), batch)
    ensures Entered(false, ports, streams, key, batch).ok
    ensures KeepEntry(ports, Entered(false, ports, streams, key, batch).streams, key, done + Elems(rows), e)
  {
    KeepEntryFed(ports, streams, key, batch, rows, done, e);
    NewRowsStay(rows, done, e);
    FullIffReached(done + Elems(rows), e);
    EnteredTogether(false, ports, streams, key, batch, done + Elems(rows) == UpTo(e + 1));
  }

  // ----- any order of batches, any number of streams -----

  datatype KeepAct = KeepAct(key: Key, walk: seq<Port>, batch: Batch, rows: seq<nat>)

  datatype KeepSys = KeepSys(streams: map<Key, Entry>, done: map<Key, set<nat>>, ok: bool)

  ghost predicate KeepInv(ports: set<Port>, plan: Key -> nat, s: KeepSys) {
    s.ok && forall key: Key :: KeepKey(ports, plan, s, key)
  }

  ghost predicate KeepLegal(ports: set<Port>, plan: Key -> nat, s: KeepSys, a: KeepAct) {
    && Walks(a.walk, ports) && KeepBatch(ports, a.batch, a.rows, DoneAt(s.done, a.key), plan(a.key))
    && forall p | p in ports :: OfKey(a.batch[p], a.key)
  }

  function KeepDo(ports: set<Port>, s: KeepSys, a: KeepAct): KeepSys {
    var r := Updated(false, ports, s.streams, a.walk, a.batch);
    KeepSys(r.streams, s.done[a.key := DoneAt(s.done, a.key) + Elems(a.rows)], s.ok && r.ok)
  }

  ghost predicate KeepKey(ports: set<Port>, plan: Key -> nat, s: KeepSys, key: Key) {
    KeepEntry(ports, s.streams, key, DoneAt(s.done, key), plan(key))
  }

  lemma {:induction false} KeepOwnKey(ports: set<Port>, plan: Key -> nat, s: KeepSys, a: KeepAct)
    requires ports != {} && s.ok && KeepKey(ports, plan, s, a.key) && KeepLegal(ports, plan, s, a)
    ensures KeepKey(ports, plan, KeepDo(ports, s, a), a.key) && KeepDo(ports, s, a).ok
    ensures Updated(false, ports, s.streams, a.walk, a.batch) == Entered(false, ports, s.streams, a.key, a.batch)
    ensures Updated(false, ports, s.streams, a.walk, a.batch).ok
  {
    KeepOfStream(ports, a.batch, a.rows, DoneAt(s.done, a.key), plan(a.key), a.key);
    UpdatedIsEntered(false, ports, s.streams, a.walk, a.batch, a.key);
    KeepStep(ports, s.streams, a.key, a.batch, a.rows, DoneAt(s.done, a.key), plan(a.key));
  }

  lemma {:induction false} KeepOtherKey(ports: set<Port>, plan: Key -> nat, s: KeepSys, a: KeepAct, key: Key)
    requires KeepKey(ports, plan, s, key) && key != a.key
    requires Updated(false, ports, s.streams, a.walk, a.batch) == Entered(false, ports, s.streams, a.key, a.batch)
    ensures KeepKey(ports, plan, KeepDo(ports, s, a), key)
  {
    EnteredFrame(false, ports, s.streams, a.key, a.batch, key);
    assert DoneAt(KeepDo(ports, s, a).done, key) == DoneAt(s.done, key);
  }

  lemma {:induction false} KeepDoKeeps(ports: set<Port>, plan: Key -> nat, s: KeepSys, a: KeepAct)
    requires ports != {} && KeepInv(ports, plan, s) && KeepLegal(ports, plan, s, a)
    ensures KeepInv(ports, plan, KeepDo(ports, s, a))
  {
    assert KeepKey(ports, plan, s, a.key);
    KeepOwnKey(ports, plan, s, a);
    forall key: Key ensures KeepKey(ports, plan, KeepDo(ports, s, a), key) {
      assert KeepKey(ports, plan, s, key);
      if key != a.key { KeepOtherKey(ports, plan, s, a, key); }
    }
  }

  ghost predicate KeepAllLegal(ports: set<Port>, plan: Key -> nat, s: KeepSys, run: seq<KeepAct>)
    decreases |run|
  {
    run == [] || (KeepLegal(ports, plan, s, run[0]) && KeepAllLegal(ports, plan, KeepDo(ports, s, run[0]), run[1..]))
  }

  function KeepRun(ports: set<Port>, s: KeepSys, run: seq<KeepAct>): KeepSys
    decreases |run|
  {
    if run == [] then s else KeepRun(ports, KeepDo(ports, s, run[0]), run[1..])
  }

  lemma {:induction false} KeepRunKeeps(ports: set<Port>, plan: Key -> nat, s: KeepSys, run: seq<KeepAct>)
    requires ports != {} && KeepInv(ports, plan, s) && KeepAllLegal(ports, plan, s, run)
    ensures KeepInv(ports, plan, KeepRun(ports, s, run))
    decreases |run|
  {
    if run != [] {
      KeepDoKeeps(ports, plan, s, run[0]);
      KeepRunKeeps(ports, plan, KeepDo(ports, s, run[0]), run[1..]);
    }
  }

  const KEEP_INIT: KeepSys := KeepSys(map[], map[], true)

  lemma {:induction false} KeepInitInv(ports: set<Port>, plan: Key -> nat)
    ensures KeepInv(ports, plan, KEEP_INIT)
  {
  }

  /** The indices a run brings of a stream. */
  function RowsOf(run: seq<KeepAct>, key: Key): set<nat> {
    if run == [] then {} else (if run[0].key == key then Elems(run[0].rows) else {}) + RowsOf(run[1..], key)
  }

  lemma {:induction false} KeepRunDone(ports: set<Port>, s: KeepSys, run: seq<KeepAct>, key: Key)
    ensures DoneAt(KeepRun(ports, s, run).done, key) == DoneAt(s.done, key) + RowsOf(run, key)
    decreases |run|
  {
    if run != [] {
      KeepRunDone(ports, KeepDo(ports, s, run[0]), run[1..], key);
    }
  }

  /** Batches in any order, of any interleaving of streams: no batch was a fault and the next is none either,
      and a match entry exists exactly while its stream has begun and misses an index. */
  lemma {:induction false} FinishTogether(ports: set<Port>, plan: Key -> nat, run: seq<KeepAct>, next: KeepAct, key: Key)
    requires ports != {} && KeepAllLegal(ports, plan, KEEP_INIT, run)
    ensures var s := KeepRun(ports, KEEP_INIT, run);
            && s.ok && (KeepLegal(ports, plan, s, next) ==> Updated(false, ports, s.streams, next.walk, next.batch).ok)
            && (key in s.streams <==> RowsOf(run, key) != {} && RowsOf(run, key) != UpTo(plan(key) + 1))
  {
    KeepInitInv(ports, plan);
    KeepRunKeeps(ports, plan, KEEP_INIT, run);
    KeepRunDone(ports, KEEP_INIT, run, key);
    var s := KeepRun(ports, KEEP_INIT, run);
    if KeepLegal(ports, plan, s, next) {
      assert KeepKey(ports, plan, s, next.key);
      KeepOwnKey(ports, plan, s, next);
    }
    assert KeepKey(ports, plan, KeepRun(ports, KEEP_INIT, run), key);
  }

  // ----- new indices -----

  ghost predicate IsEnd(x: Option<OutBuffer>) {
    x.Some? && x.value.isEnd
  }

  predicate Ended(sent: seq<OutBuffer>) {
    sent != [] && sent[|sent| - 1].isEnd
  }

  /** Numbered without a gap, with the end flag, if any, in the last place. */
  ghost predicate Numbered(sent: seq<OutBuffer>) {
    && (forall k | 0 <= k < |sent| :: sent[k].index == k)
    && forall k | 0 <= k < |sent| - 1 :: !sent[k].isEnd
  }

  function RenewStream(sent: seq<OutBuffer>): Stream {
    Stream(if Ended(sent) then |sent| else 0, |sent|)
  }

  /** Nulls are dropped, so an if/else branch is numbered through whatever went to the other branch. */
  lemma {:induction false} RenewFed(list: seq<Option<OutBuffer>>, sent: seq<OutBuffer>)
    requires Numbered(sent) && !Ended(sent) && forall k | 0 <= k < |list| - 1 :: !IsEnd(list[k])
    ensures var sent' := sent + Sent(true, RenewStream(sent), list);
            && Fed(true, RenewStream(sent), list) == RenewStream(sent') && Numbered(sent')
            && (Ended(sent') <==> list != [] && IsEnd(list[|list| - 1]))
    decreases |list|
  {
    if list == [] {
      assert sent + [] == sent;
    } else {
      var n := |list| - 1;
      RenewFed(list[..n], sent);
      var sent1 := sent + Sent(true, RenewStream(sent), list[..n]);
      assert !Ended(sent1);
      var sent2 := sent + Sent(true, RenewStream(sent), list);
      if list[n].None? {
        assert sent2 == sent1;
      } else {
        assert sent2 == sent1 + [list[n].value.(index := |sent1|)];
      }
    }
  }

  type SentMap = map<Port, seq<OutBuffer>>

  /** All ports carry their end flag at the end of the same batch, or none does. */
  ghost predicate RenewBatch(ports: set<Port>, batch: Batch, over: bool) {
    batch.Keys == ports && forall p | p in ports :: EndsList(batch[p], over)
  }

  ghost predicate EndsList(list: seq<Option<OutBuffer>>, over: bool) {
    && list != [] && (IsEnd(list[|list| - 1]) <==> over)
    && forall k | 0 <= k < |list| - 1 :: !IsEnd(list[k])
  }

  ghost predicate RenewPort(s: Stream, sent: seq<OutBuffer>, over: bool) {
    Numbered(sent) && s == RenewStream(sent) && (Ended(sent) <==> over)
  }

  ghost predicate RenewEntry(ports: set<Port>, entry: Entry, sent: SentMap, over: bool) {
    entry.Keys == ports && sent.Keys == ports && forall p | p in ports :: RenewPort(entry[p], sent[p], over)
  }

  function PortSent(sent: SentMap, p: Port): seq<OutBuffer> {
    if p in sent then sent[p] else []
  }

  function Extended(ports: set<Port>, entry: Entry, sent: SentMap, batch: Batch): SentMap {
    map p | p in ports :: PortSent(sent, p) + Sent(true, StreamAt(entry, p), ListAt(batch, p))
  }

  lemma {:induction false} RenewPortFed(list: seq<Option<OutBuffer>>, sent: seq<OutBuffer>, s: Stream, over: bool)
    requires RenewPort(s, sent, false) && EndsList(list, over)
    ensures RenewPort(Fed(true, s, list), sent + Sent(true, s, list), over)
  {
    RenewFed(list, sent);
  }

  lemma {:induction false} FedAt(ports: set<Port>, entry: Entry, batch: Batch, sent: SentMap, p: Port)
    requires p in ports && p in entry && p in batch && p in sent
    ensures FedAll(true, ports, entry, batch)[p] == Fed(true, entry[p], batch[p])
    ensures Extended(ports, entry, sent, batch)[p] == sent[p] + Sent(true, entry[p], batch[p])
  {
  }

  lemma {:induction false} RenewAllFed(ports: set<Port>, entry: Entry, batch: Batch, sent: SentMap, over: bool)
    requires RenewEntry(ports, entry, sent, false) && RenewBatch(ports, batch, over)
    ensures RenewEntry(ports, FedAll(true, ports, entry, batch), Extended(ports, entry, sent, batch), over)
  {
    forall p | p in ports
      ensures RenewPort(FedAll(true, ports, entry, batch)[p], Extended(ports, entry, sent, batch)[p], over)
    {
      FedAt(ports, entry, batch, sent, p);
      RenewPortFed(batch[p], sent[p], entry[p], over);
    }
  }

  lemma {:induction false} RenewReached(ports: set<Port>, entry: Entry, sent: SentMap, over: bool)
    requires RenewEntry(ports, entry, sent, over)
    ensures forall p | p in ports :: ReachEnd(entry[p]) <==> over
  {
  }

  /** Renumbered ports, too, end together: in the batch with their end flags. */
  lemma {:induction false} RenewStep(ports: set<Port>, streams: map<Key, Entry>, key: Key, batch: Batch, sent: SentMap, over: bool)
    requires ports != {} && RenewEntry(ports, FedAll(true, ports, EntryAt(ports, streams, key), batch), sent, over)
    ensures Entered(true, ports, streams, key, batch)
         == Result(true, if over then streams - {key} else streams[key := FedAll(true, ports, EntryAt(ports, streams, key), batch)])
  {
    RenewReached(ports, FedAll(true, ports, EntryAt(ports, streams, key), batch), sent, over);
    EnteredTogether(true, ports, streams, key, batch, over);
  }

  datatype RenewAct = RenewAct(key: Key, walk: seq<Port>, batch: Batch, over: bool)

  /** `sent` records what went out; `over` the streams whose end flags did. */
  datatype RenewSys = RenewSys(streams: map<Key, Entry>, sent: map<Key, SentMap>, over: set<Key>, ok: bool)

  const RENEW_INIT: RenewSys := RenewSys(map[], map[], {}, true)

  function SentAt(ports: set<Port>, sent: map<Key, SentMap>, key: Key): SentMap {
    if key in sent then sent[key] else map p | p in ports :: []
  }

  ghost predicate AllNumbered(ports: set<Port>, sent: SentMap, over: bool) {
    sent.Keys == ports && forall p | p in ports :: Numbered(sent[p]) && (Ended(sent[p]) <==> over)
  }

  ghost predicate RenewKey(ports: set<Port>, s: RenewSys, key: Key) {
    && AllNumbered(ports, SentAt(ports, s.sent, key), key in s.over)
    && (key in s.streams <==> key in s.sent && key !in s.over)
    && (key in s.streams ==> RenewEntry(ports, s.streams[key], SentAt(ports, s.sent, key), false))
  }

  ghost predicate RenewInv(ports: set<Port>, s: RenewSys) {
    s.ok && forall key: Key :: RenewKey(ports, s, key)
  }

  ghost predicate RenewLegal(ports: set<Port>, s: RenewSys, a: RenewAct) {
    RenewBatch(ports, a.batch, a.over) && a.key !in s.over && Walks(a.walk, ports) && OfStream(ports, a.batch, a.key)
  }

  lemma {:induction false} RenewReady(ports: set<Port>, s: RenewSys, key: Key)
    requires RenewKey(ports, s, key) && key !in s.over
    ensures RenewEntry(ports, EntryAt(ports, s.streams, key), SentAt(ports, s.sent, key), false)
  {
  }

  function RenewDo(ports: set<Port>, s: RenewSys, a: RenewAct): RenewSys {
    var entry := EntryAt(ports, s.streams, a.key);
    var r := Updated(true, ports, s.streams, a.walk, a.batch);
    RenewSys(r.streams, s.sent[a.key := Extended(ports, entry, SentAt(ports, s.sent, a.key), a.batch)],
             if a.over then s.over + {a.key} else s.over, s.ok && r.ok)
  }

  lemma {:induction false} RenewOwnKey(ports: set<Port>, s: RenewSys, a: RenewAct)
    requires ports != {} && RenewKey(ports, s, a.key) && RenewLegal(ports, s, a) && s.ok
    ensures RenewKey(ports, RenewDo(ports, s, a), a.key) && RenewDo(ports, s, a).ok
    ensures Updated(true, ports, s.streams, a.walk, a.batch).ok
  {
    RenewReady(ports, s, a.key);
    UpdatedIsEntered(true, ports, s.streams, a.walk, a.batch, a.key);
    var entry, sent := EntryAt(ports, s.streams, a.key), SentAt(ports, s.sent, a.key);
    RenewAllFed(ports, entry, a.batch, sent, a.over);
    RenewStep(ports, s.streams, a.key, a.batch, Extended(ports, entry, sent, a.batch), a.over);
  }

  lemma {:induction false} RenewOtherKey(ports: set<Port>, s: RenewSys, a: RenewAct, key: Key)
    requires RenewKey(ports, s, key) && RenewLegal(ports, s, a) && key != a.key
    ensures RenewKey(ports, RenewDo(ports, s, a), key)
  {
    UpdatedIsEntered(true, ports, s.streams, a.walk, a.batch, a.key);
    EnteredFrame(true, ports, s.streams, a.key, a.batch, key);
  }

  lemma {:induction false} RenewDoKeeps(ports: set<Port>, s: RenewSys, a: RenewAct)
    requires ports != {} && RenewInv(ports, s) && RenewLegal(ports, s, a)
    ensures RenewInv(ports, RenewDo(ports, s, a))
  {
    assert RenewKey(ports, s, a.key);
    RenewOwnKey(ports, s, a);
    forall key: Key ensures RenewKey(ports, RenewDo(ports, s, a), key) {
      assert RenewKey(ports, s, key);
      if key != a.key { RenewOtherKey(ports, s, a, key); }
    }
  }

  ghost predicate RenewAllLegal(ports: set<Port>, s: RenewSys, run: seq<RenewAct>)
    decreases |run|
  {
    run == [] || (RenewLegal(ports, s, run[0]) && RenewAllLegal(ports, RenewDo(ports, s, run[0]), run[1..]))
  }

  function RenewRun(ports: set<Port>, s: RenewSys, run: seq<RenewAct>): RenewSys
    decreases |run|
  {
    if run == [] then s else RenewRun(ports, RenewDo(ports, s, run[0]), run[1..])
  }

  lemma {:induction false} RenewRunKeeps(ports: set<Port>, s: RenewSys, run: seq<RenewAct>)
    requires ports != {} && RenewInv(ports, s) && RenewAllLegal(ports, s, run)
    ensures RenewInv(ports, RenewRun(ports, s, run))
    decreases |run|
  {
    if run != [] {
      RenewDoKeeps(ports, s, run[0]);
      RenewRunKeeps(ports, RenewDo(ports, s, run[0]), run[1..]);
    }
  }

  /** The outputs of a stream on a port over a whole run, nulls left out. */
  function OutputsOf(run: seq<RenewAct>, key: Key, p: Port): seq<OutBuffer> {
    if run == [] then []
    else (if run[0].key == key then NonNull(ListAt(run[0].batch, p)) else []) + OutputsOf(run[1..], key, p)
  }

  lemma {:induction false} ExtendedSends(ports: set<Port>, entry: Entry, sent: SentMap, batch: Batch, p: Port)
    requires p in ports && RenewEntry(ports, entry, sent, false)
    ensures Extended(ports, entry, sent, batch)[p] == sent[p] + Renumbered(NonNull(ListAt(batch, p)), |sent[p]|)
  {
    assert RenewPort(entry[p], sent[p], false);
    SentIs(true, entry[p], ListAt(batch, p));
  }

  lemma {:induction false} RenewOwnSends(ports: set<Port>, s: RenewSys, a: RenewAct, p: Port)
    requires ports != {} && RenewInv(ports, s) && RenewLegal(ports, s, a) && p in ports
    ensures var before := PortSent(SentAt(ports, s.sent, a.key), p);
            PortSent(SentAt(ports, RenewDo(ports, s, a).sent, a.key), p)
              == before + Renumbered(NonNull(ListAt(a.batch, p)), |before|)
  {
    assert RenewEntry(ports, EntryAt(ports, s.streams, a.key), SentAt(ports, s.sent, a.key), false) by {
      assert RenewKey(ports, s, a.key);
      RenewReady(ports, s, a.key);
    }
    ExtendedSends(ports, EntryAt(ports, s.streams, a.key), SentAt(ports, s.sent, a.key), a.batch, p);
  }

  lemma {:induction false} RenewDoSends(ports: set<Port>, s: RenewSys, a: RenewAct, key: Key, p: Port)
    requires ports != {} && RenewInv(ports, s) && RenewLegal(ports, s, a) && p in ports
    ensures var more := if a.key == key then NonNull(ListAt(a.batch, p)) else [];
            var before := PortSent(SentAt(ports, s.sent, key), p);
            PortSent(SentAt(ports, RenewDo(ports, s, a).sent, key), p) == before + Renumbered(more, |before|)
  {
    var before := PortSent(SentAt(ports, s.sent, key), p);
    if a.key == key {
      RenewOwnSends(ports, s, a, p);
    } else {
      assert before + Renumbered([], |before|) == before;
    }
  }

  lemma {:induction false} SendsTwice(before: seq<OutBuffer>, more: seq<OutBuffer>, rest: seq<OutBuffer>, mid: seq<OutBuffer>,
                                      after: seq<OutBuffer>)
    requires mid == before + Renumbered(more, |before|) && after == mid + Renumbered(rest, |mid|)
    ensures after == before + Renumbered(more + rest, |before|)
  {
    RenumberedConcat(more, rest, |before|);
    Assoc(before, Renumbered(more, |before|), Renumbered(rest, |mid|));
  }

  lemma {:induction false} RenewRunSends(ports: set<Port>, s: RenewSys, run: seq<RenewAct>, key: Key, p: Port)
    requires ports != {} && RenewInv(ports, s) && RenewAllLegal(ports, s, run) && p in ports
    ensures var before := PortSent(SentAt(ports, s.sent, key), p);
            PortSent(SentAt(ports, RenewRun(ports, s, run).sent, key), p)
              == before + Renumbered(OutputsOf(run, key, p), |before|)
    decreases |run|
  {
    var before := PortSent(SentAt(ports, s.sent, key), p);
    if run == [] {
      assert before + Renumbered([], |before|) == before;
    } else {
      var more := if run[0].key == key then NonNull(ListAt(run[0].batch, p)) else [];
      RenewDoKeeps(ports, s, run[0]);
      RenewDoSends(ports, s, run[0], key, p);
      RenewRunSends(ports, RenewDo(ports, s, run[0]), run[1..], key, p);
      SendsTwice(before, more, OutputsOf(run[1..], key, p), PortSent(SentAt(ports, RenewDo(ports, s, run[0]).sent, key), p),
                 PortSent(SentAt(ports, RenewRun(ports, s, run).sent, key), p));
    }
  }

  /** Over a whole run each port of a stream sends all its outputs and nothing else, in order, numbered
      0, 1, ... */
  lemma {:induction false} RenewSendsAll(ports: set<Port>, run: seq<RenewAct>, key: Key, p: Port)
    requires ports != {} && RenewAllLegal(ports, RENEW_INIT, run) && p in ports
    ensures PortSent(SentAt(ports, RenewRun(ports, RENEW_INIT, run).sent, key), p) == Renumbered(OutputsOf(run, key, p), 0)
  {
    RenewInitInv(ports);
    RenewRunSends(ports, RENEW_INIT, run, key, p);
  }

  lemma {:induction false} RenewInitInv(ports: set<Port>)
    ensures RenewInv(ports, RENEW_INIT)
  {
  }

  /** Whatever the batches and nulls, each port of an if/else node sends indices 0, 1, ... without a gap,
      the end flags of all ports go out in one batch, no batch was a fault and the next is none either. */
  lemma {:induction false} RenewFinishTogether(ports: set<Port>, run: seq<RenewAct>, next: RenewAct, key: Key, p: Port)
    requires ports != {} && RenewAllLegal(ports, RENEW_INIT, run) && p in ports
    ensures var s := RenewRun(ports, RENEW_INIT, run);
            && s.ok && (RenewLegal(ports, s, next) ==> Updated(true, ports, s.streams, next.walk, next.batch).ok)
            && SentAt(ports, s.sent, key).Keys == ports
            && Numbered(SentAt(ports, s.sent, key)[p]) && (Ended(SentAt(ports, s.sent, key)[p]) <==> key in s.over)
            && (key in s.streams <==> key in s.sent && key !in s.over)
  {
    RenewInitInv(ports);
    RenewRunKeeps(ports, RENEW_INIT, run);
    var s := RenewRun(ports, RENEW_INIT, run);
    assert RenewKey(ports, s, key);
    if RenewLegal(ports, s, next) {
      assert RenewKey(ports, s, next.key);
      RenewOwnKey(ports, s, next);
    }
  }
}
