/** The stream-collapse data context: chunks of the sub-streams an expand made arrive in any
    interleaving and are processed sub-stream by sub-stream, in the order of the buffers they were
    expanded from. */
module StreamCollapse {

  /** One buffer per port of one sub-stream. */
  datatype Row = Row(index: nat, isEnd: bool, data: int)

  /** The context: chunks by sub-stream, the sub-stream being collapsed, and the input of this run with
      the flags taken from the last chunk that was set. */
  datatype Context = Context(
    cache: map<nat, seq<Row>>, order: nat,
    input: seq<Row>, hasStart: bool, hasEnd: bool, finished: bool)

  const NEW_CONTEXT: Context := Context(map[], 0, [], false, false, false)

  function At(m: map<nat, seq<Row>>, k: nat): seq<Row> {
    if k in m then m[k] else []
  }

  function AppendToCache(c: Context, k: nat, chunk: seq<Row>): Context {
    c.(cache := c.cache[k := At(c.cache, k) + chunk])
  }

  /** Setting the input twice in a run adds to its lists but overwrites its flags. */
  function SetInput(c: Context, rows: seq<Row>): Context {
    if rows == [] then c
    else c.(input := c.input + rows, hasStart := rows[0].index == 0, hasEnd := rows[|rows| - 1].isEnd)
  }

  function CollapseNext(c: Context): Context {
    if c.order !in c.cache then c
    else SetInput(c, c.cache[c.order]).(cache := c.cache - {c.order})
  }

  function Write(c: Context, k: nat, chunk: seq<Row>): Context {
    CollapseNext(AppendToCache(c, k, chunk))
  }

  /** `last` is the index of the parent's end flag: the sub-stream made from it is the last one. */
  function Update(c: Context, last: nat): Context {
    if c.hasEnd then c.(order := c.order + 1, finished := c.finished || c.order == last) else c
  }

  predicate WantsEvent(c: Context, last: nat) {
    c.hasEnd && c.order != last
  }

  function Cleared(c: Context): Context {
    c.(input := [], hasStart := false, hasEnd := false)
  }

  // ----- the system around it -----

  datatype Chunk = Chunk(stream: nat, rows: seq<Row>)

  /** A run on data, with the chunks the matching released, or a run on queued events. */
  datatype Action = OnData(chunks: seq<Chunk>) | OnEvents(count: nat)

  /** `part`: what was consumed of the current sub-stream. */
  datatype Sys = Sys(c: Context, pending: nat, arrived: map<nat, seq<Row>>, consumed: seq<Row>, part: seq<Row>)

  const INIT: Sys := Sys(NEW_CONTEXT, 0, map[], [], [])

  function Arrive(s: Sys, ch: Chunk): Sys {
    s.(arrived := s.arrived[ch.stream := At(s.arrived, ch.stream) + ch.rows], c := Write(s.c, ch.stream, ch.rows))
  }

  function ArriveAll(s: Sys, chunks: seq<Chunk>): Sys
    decreases |chunks|
  {
    if chunks == [] then s else Arrive(ArriveAll(s, chunks[..|chunks| - 1]), chunks[|chunks| - 1])
  }

  function Trigger(s: Sys, count: nat): Sys {
    if count == 0 then s
    else
      var s' := Trigger(s, count - 1);
      s'.(c := CollapseNext(s'.c), pending := if s'.pending > 0 then s'.pending - 1 else 0)
  }

  /** The end of a run: the input was processed, the order may move on. */
  function Finish(s: Sys, last: nat): Sys {
    Sys(Cleared(Update(s.c, last)),
        s.pending + (if WantsEvent(s.c, last) then 1 else 0),
        s.arrived,
        s.consumed + s.c.input,
        if s.c.hasEnd then [] else s.part + s.c.input)
  }

  /** Events for a context that is gone are dropped. */
  function Step(s: Sys, a: Action, last: nat): Sys {
    match a
    case OnData(chunks) => if chunks == [] then s else Finish(ArriveAll(s, chunks), last)
    case OnEvents(count) =>
      if count == 0 || s.pending < count then s
      else if s.c.finished then s.(pending := s.pending - count)
      else Finish(Trigger(s, count), last)
  }

  // ----- what is expected of the input -----

  ghost predicate IsStream(rows: seq<Row>) {
    forall i | 0 <= i < |rows| :: rows[i].index == i && (rows[i].isEnd ==> i == |rows| - 1)
  }

  predicate Ended(rows: seq<Row>) {
    rows != [] && rows[|rows| - 1].isEnd
  }

  /** A chunk is not empty and continues its sub-stream. */
  ghost predicate Continues(s: Sys, ch: Chunk, last: nat) {
    ch.stream <= last && ch.rows != [] && IsStream(At(s.arrived, ch.stream) + ch.rows)
  }

  ghost predicate AllContinue(s: Sys, chunks: seq<Chunk>, last: nat)
    decreases |chunks|
  {
    chunks == []
    || (AllContinue(s, chunks[..|chunks| - 1], last)
        && Continues(ArriveAll(s, chunks[..|chunks| - 1]), chunks[|chunks| - 1], last))
  }

  ghost predicate Legal(s: Sys, a: Action, last: nat) {
    match a
    case OnData(chunks) => AllContinue(s, chunks, last)
    case OnEvents(count) => count <= s.pending
  }

  // ----- the invariant -----

  /** Sub-streams 0, 1, ... up to, not including, `n`, one after the other. */
  function Before(arrived: map<nat, seq<Row>>, n: nat): seq<Row> {
    if n == 0 then [] else Before(arrived, n - 1) + At(arrived, n - 1)
  }

  ghost predicate Streams(arrived: map<nat, seq<Row>>, last: nat) {
    forall k | k in arrived :: k <= last && IsStream(arrived[k])
  }

  ghost predicate CacheHolds(s: Sys) {
    && (forall k | k in s.c.cache :: s.c.order <= k && s.c.cache[k] != [])
    && (forall k: nat | s.c.order < k :: At(s.c.cache, k) == At(s.arrived, k))
    && At(s.arrived, s.c.order) == s.part + s.c.input + At(s.c.cache, s.c.order)
  }

  ghost predicate Accounts(s: Sys, last: nat) {
    && Streams(s.arrived, last) && CacheHolds(s)
    && (forall k: nat | k < s.c.order :: Ended(At(s.arrived, k)))
    && s.consumed == Before(s.arrived, s.c.order) + s.part
    && !Ended(s.part) && (s.c.hasEnd <==> Ended(s.c.input))
    && s.c.order <= last + 1 && (s.c.finished <==> s.c.order == last + 1)
  }

  /** Between runs; a cached chunk of the current sub-stream always has an event on its way. */
  ghost predicate Inv(s: Sys, last: nat) {
    && Accounts(s, last) && s.c.input == [] && !s.c.hasStart
    && (s.c.order in s.c.cache ==> s.pending > 0)
  }

  lemma {:induction false} BeforeFrame(a: map<nat, seq<Row>>, b: map<nat, seq<Row>>, n: nat)
    requires forall k: nat | k < n :: At(a, k) == At(b, k)
    ensures Before(a, n) == Before(b, n)
  {
    if n > 0 { BeforeFrame(a, b, n - 1); }
  }

  lemma {:induction false} StillOpen(rows: seq<Row>, more: seq<Row>)
    requires IsStream(rows + more) && more != []
    ensures !Ended(rows)
  {
    if rows != [] { assert (rows + more)[|rows| - 1] == rows[|rows| - 1]; }
  }

  /** Nothing can be added to a sub-stream that has ended, so chunks belong to the current one or later. */
  lemma {:induction false} ChunkIsLate(s: Sys, ch: Chunk, last: nat)
    requires Accounts(s, last) && Continues(s, ch, last)
    ensures s.c.order <= ch.stream && !s.c.finished
  {
    StillOpen(At(s.arrived, ch.stream), ch.rows);
  }

  function Cached(s: Sys, ch: Chunk): Sys {
    s.(arrived := s.arrived[ch.stream := At(s.arrived, ch.stream) + ch.rows], c := AppendToCache(s.c, ch.stream, ch.rows))
  }

  lemma {:induction false} CachedHolds(s: Sys, ch: Chunk)
    requires CacheHolds(s) && s.c.order <= ch.stream && ch.rows != []
    ensures CacheHolds(Cached(s, ch))
  {
    var s' := Cached(s, ch);
    forall k: nat | s.c.order < k ensures At(s'.c.cache, k) == At(s'.arrived, k) {
      assert At(s.c.cache, k) == At(s.arrived, k);
    }
    if ch.stream == s.c.order {
      assert s.part + s.c.input + (At(s.c.cache, s.c.order) + ch.rows)
          == s.part + s.c.input + At(s.c.cache, s.c.order) + ch.rows;
    }
  }

  lemma {:induction false} CachedKeeps(s: Sys, ch: Chunk, last: nat)
    requires Accounts(s, last) && Continues(s, ch, last)
    ensures Accounts(Cached(s, ch), last)
  {
    ChunkIsLate(s, ch, last);
    CachedHolds(s, ch);
    var s' := Cached(s, ch);
    forall k: nat | k < s.c.order ensures At(s'.arrived, k) == At(s.arrived, k) {}
    BeforeFrame(s.arrived, s'.arrived, s.c.order);
  }

  lemma {:induction false} CollapseNextKeeps(s: Sys, last: nat)
    requires Accounts(s, last)
    ensures var s' := s.(c := CollapseNext(s.c)); Accounts(s', last) && s'.c.order !in s'.c.cache
  {
    if s.c.order in s.c.cache {
      var rows := s.c.cache[s.c.order];
      assert s.part + (s.c.input + rows) + [] == s.part + s.c.input + rows;
    }
  }

  lemma {:induction false} ArriveKeeps(s: Sys, ch: Chunk, last: nat)
    requires Accounts(s, last) && Continues(s, ch, last)
    ensures Accounts(Arrive(s, ch), last) && Arrive(s, ch).c.order !in Arrive(s, ch).c.cache
  {
    CachedKeeps(s, ch, last);
    CollapseNextKeeps(Cached(s, ch), last);
  }

  lemma {:induction false} ArriveAllKeeps(s: Sys, chunks: seq<Chunk>, last: nat)
    requires Accounts(s, last) && AllContinue(s, chunks, last)
    ensures Accounts(ArriveAll(s, chunks), last)
    ensures chunks != [] ==> ArriveAll(s, chunks).c.order !in ArriveAll(s, chunks).c.cache
    decreases |chunks|
  {
    if chunks != [] {
      var n := |chunks| - 1;
      ArriveAllKeeps(s, chunks[..n], last);
      ArriveKeeps(ArriveAll(s, chunks[..n]), chunks[n], last);
    }
  }

  lemma {:induction false} TriggerKeeps(s: Sys, count: nat, last: nat)
    requires Accounts(s, last)
    ensures Accounts(Trigger(s, count), last)
    ensures count > 0 ==> Trigger(s, count).c.order !in Trigger(s, count).c.cache
  {
    if count > 0 {
      TriggerKeeps(s, count - 1, last);
      CollapseNextKeeps(Trigger(s, count - 1), last);
    }
  }

  lemma {:induction false} FinishPart(s: Sys, last: nat)
    requires Accounts(s, last) && s.c.order !in s.c.cache && !s.c.hasEnd
    ensures Inv(Finish(s, last), last)
  {
    assert s.consumed + s.c.input == Before(s.arrived, s.c.order) + (s.part + s.c.input);
    assert s.part + s.c.input + [] == s.part + s.c.input;
    assert s.c.input == [] ==> s.part + s.c.input == s.part;
  }

  lemma {:induction false} NextHolds(s: Sys, last: nat)
    requires CacheHolds(s) && s.c.order !in s.c.cache && s.c.hasEnd
    ensures CacheHolds(Finish(s, last))
  {
    var s' := Finish(s, last);
    assert s'.part + s'.c.input + At(s'.c.cache, s'.c.order) == At(s.c.cache, s.c.order + 1);
  }

  lemma {:induction false} StreamConsumed(arrived: map<nat, seq<Row>>, n: nat, part: seq<Row>, input: seq<Row>)
    requires At(arrived, n) == part + input
    ensures Before(arrived, n) + part + input == Before(arrived, n + 1) + []
    ensures Ended(input) ==> Ended(At(arrived, n)) && n in arrived
  {
  }

  lemma {:induction false} FinishStream(s: Sys, last: nat)
    requires Accounts(s, last) && s.c.order !in s.c.cache && s.c.hasEnd
    ensures Inv(Finish(s, last), last)
  {
    NextHolds(s, last);
    var n, s' := s.c.order, Finish(s, last);
    assert s.part + s.c.input + [] == s.part + s.c.input;
    StreamConsumed(s.arrived, n, s.part, s.c.input);
    assert n == last ==> n + 1 !in s'.c.cache by { assert At(s'.arrived, last + 1) == []; }
  }

  /** The order moves on exactly when the end flag of the current sub-stream was consumed. */
  lemma {:induction false} FinishKeeps(s: Sys, last: nat)
    requires Accounts(s, last) && s.c.order !in s.c.cache
    ensures Inv(Finish(s, last), last)
  {
    if s.c.hasEnd { FinishStream(s, last); } else { FinishPart(s, last); }
  }

  lemma {:induction false} StepKeeps(s: Sys, a: Action, last: nat)
    requires Inv(s, last) && Legal(s, a, last)
    ensures Inv(Step(s, a, last), last)
  {
    match a
    case OnData(chunks) =>
      if chunks != [] {
        ArriveAllKeeps(s, chunks, last);
        FinishKeeps(ArriveAll(s, chunks), last);
      }
    case OnEvents(count) =>
      if count > 0 && !s.c.finished {
        TriggerKeeps(s, count, last);
        FinishKeeps(Trigger(s, count), last);
      }
  }

  // ----- every run -----

  ghost predicate AllLegal(s: Sys, run: seq<Action>, last: nat)
    decreases |run|
  {
    run == [] || (Legal(s, run[0], last) && AllLegal(Step(s, run[0], last), run[1..], last))
  }

  function Run(s: Sys, run: seq<Action>, last: nat): Sys
    decreases |run|
  {
    if run == [] then s else Run(Step(s, run[0], last), run[1..], last)
  }

  lemma {:induction false} RunKeeps(s: Sys, run: seq<Action>, last: nat)
    requires Inv(s, last) && AllLegal(s, run, last)
    ensures Inv(Run(s, run, last), last)
    decreases |run|
  {
    if run != [] {
      StepKeeps(s, run[0], last);
      RunKeeps(Step(s, run[0], last), run[1..], last);
    }
  }

  /** Every run from the start keeps the invariant. */
  lemma {:induction false} Always(run: seq<Action>, last: nat)
    requires AllLegal(INIT, run, last)
    ensures Inv(Run(INIT, run, last), last)
  {
    InitInv(last);
    RunKeeps(INIT, run, last);
  }

  lemma {:induction false} InitInv(last: nat)
    ensures Inv(INIT, last)
  {
  }

  lemma {:induction false} BeforePrefix(arrived: map<nat, seq<Row>>, n: nat, m: nat)
    requires n <= m
    ensures Before(arrived, n) <= Before(arrived, m)
    decreases m - n
  {
    if n < m { BeforePrefix(arrived, n + 1, m); }
  }

  lemma {:induction false} ConsumedPrefix(s: Sys, last: nat)
    requires Inv(s, last)
    ensures s.consumed <= Before(s.arrived, last + 1) && Before(s.arrived, s.c.order) <= s.consumed
  {
    if s.c.order <= last {
      assert Before(s.arrived, s.c.order) + s.part <= Before(s.arrived, s.c.order + 1);
      BeforePrefix(s.arrived, s.c.order + 1, last + 1);
    } else {
      assert last + 1 !in s.arrived;
      assert s.consumed == Before(s.arrived, last + 1);
    }
  }

  /** Whatever the interleaving, the rows consumed are a prefix of sub-stream 0, then 1, and so on, and no
      sub-stream was left before its end flag. */
  lemma {:induction false} ConsumesInOrder(run: seq<Action>, last: nat)
    requires AllLegal(INIT, run, last)
    ensures var s := Run(INIT, run, last);
            && s.consumed <= Before(s.arrived, last + 1)
            && Before(s.arrived, s.c.order) <= s.consumed
            && forall k: nat | k < s.c.order :: Ended(At(s.arrived, k))
  {
    Always(run, last);
    ConsumedPrefix(Run(INIT, run, last), last);
  }

  lemma {:induction false} PartIsAll(s: Sys)
    requires CacheHolds(s) && s.c.input == [] && s.c.order !in s.c.cache
    ensures At(s.arrived, s.c.order) == s.part
  {
    assert s.part + [] + [] == s.part;
  }

  lemma {:induction false} CachedArrived(s: Sys, k: nat)
    requires CacheHolds(s) && k in s.c.cache
    ensures k in s.arrived && s.c.order <= k
  {
    if k > s.c.order { assert At(s.c.cache, k) == At(s.arrived, k); }
  }

  /** Once everything has arrived and the events are handled, everything was consumed. */
  lemma {:induction false} QuietIsComplete(s: Sys, last: nat)
    requires Inv(s, last) && s.pending == 0 && forall k: nat | k <= last :: Ended(At(s.arrived, k))
    ensures s.c.finished && s.consumed == Before(s.arrived, last + 1)
  {
    PartIsAll(s);
    assert s.c.order == last + 1;
    assert last + 1 !in s.arrived;
  }

  /** The result does not depend on the order of arrival. */
  lemma {:induction false} CollapseIsConfluent(one: seq<Action>, two: seq<Action>, last: nat)
    requires AllLegal(INIT, one, last) && AllLegal(INIT, two, last)
    requires Run(INIT, one, last).arrived == Run(INIT, two, last).arrived
    requires Run(INIT, one, last).pending == 0 && Run(INIT, two, last).pending == 0
    requires forall k: nat | k <= last :: Ended(At(Run(INIT, one, last).arrived, k))
    ensures Run(INIT, one, last).consumed == Run(INIT, two, last).consumed
  {
    Always(one, last);
    Always(two, last);
    QuietIsComplete(Run(INIT, one, last), last);
    QuietIsComplete(Run(INIT, two, last), last);
  }

  /** A context is disposed of only with every sub-stream consumed and nothing cached. */
  lemma {:induction false} FinishedIsComplete(s: Sys, last: nat)
    requires Inv(s, last) && s.c.finished
    ensures s.consumed == Before(s.arrived, last + 1) && s.c.cache == map[]
    ensures forall k: nat | k <= last :: Ended(At(s.arrived, k))
  {
    forall k | k in s.c.cache ensures k in s.arrived && s.c.order <= k {
      CachedArrived(s, k);
    }
    PartIsAll(s);
    assert last + 1 !in s.arrived;
  }

  // ----- draining the events -----

  lemma {:induction false} EventStep(s: Sys, last: nat)
    requires Inv(s, last) && s.pending > 0
    ensures var s' := Step(s, OnEvents(1), last);
            && s'.arrived == s.arrived && s.c.order <= s'.c.order
            && (s'.c.order > s.c.order || s'.pending < s.pending)
  {
    assert Trigger(s, 1) == s.(c := CollapseNext(s.c), pending := s.pending - 1);
  }

  /** Handling the queued events one at a time comes to an end, and has then consumed all that has
      arrived, if it is complete. */
  lemma {:induction false} EventsDrain(s: Sys, last: nat) returns (run: seq<Action>)
    requires Inv(s, last) && forall k: nat | k <= last :: Ended(At(s.arrived, k))
    ensures AllLegal(s, run, last) && Run(s, run, last).consumed == Before(s.arrived, last + 1)
    decreases last + 1 - s.c.order, s.pending
  {
    if s.pending == 0 {
      QuietIsComplete(s, last);
      run := [];
    } else {
      EventStep(s, last);
      StepKeeps(s, OnEvents(1), last);
      var rest := EventsDrain(Step(s, OnEvents(1), last), last);
      run := [OnEvents(1)] + rest;
      assert run[1..] == rest;
    }
  }

  // ----- the start of a sub-stream -----

  ghost predicate DistinctStreams(chunks: seq<Chunk>) {
    forall i, j | 0 <= i < j < |chunks| :: chunks[i].stream != chunks[j].stream
  }

  /** The current sub-stream is among the chunks `from` to `n`. */
  ghost predicate Among(chunks: seq<Chunk>, from: nat, n: nat, k: nat) {
    exists i :: from <= i < n <= |chunks| && chunks[i].stream == k
  }

  /** A cached start of the current sub-stream is set as input by the chunk of another one, and its flag
      then overwritten by the next chunk of its own. */
  ghost predicate StartLost(s: Sys, chunks: seq<Chunk>, n: nat) {
    s.part == [] && s.c.order in s.c.cache && Among(chunks, 1, n, s.c.order)
  }

  ghost predicate Begun(s: Sys, chunks: seq<Chunk>, n: nat) {
    (n > 0 && s.c.order in s.c.cache) || Among(chunks, 0, n, s.c.order)
  }

  lemma {:induction false} AmongStep(chunks: seq<Chunk>, from: nat, n: nat, k: nat)
    requires from <= n < |chunks|
    ensures Among(chunks, from, n + 1, k) <==> Among(chunks, from, n, k) || chunks[n].stream == k
  {
    if Among(chunks, from, n, k) {
      var i :| from <= i < n && chunks[i].stream == k;
      assert from <= i < n + 1 <= |chunks|;
    }
    if chunks[n].stream == k { assert from <= n < n + 1 <= |chunks|; }
  }

  /** A chunk that sets the input sets rows that come right after what was set before. */
  lemma {:induction false} ArriveSets(s: Sys, ch: Chunk, last: nat)
    requires Accounts(s, last) && Continues(s, ch, last)
    ensures var s' := Arrive(s, ch);
            if ch.stream == s.c.order || s.c.order in s.c.cache
            then s'.c.input != [] && s'.c.hasStart == (s.part == [] && s.c.input == [])
            else s'.c.input == s.c.input && s'.c.hasStart == s.c.hasStart
  {
    CachedKeeps(s, ch, last);
    var t := Cached(s, ch);
    if ch.stream == s.c.order || s.c.order in s.c.cache {
      var rows := t.c.cache[s.c.order];
      assert At(t.arrived, s.c.order) == s.part + s.c.input + rows;
      assert At(t.arrived, s.c.order)[|s.part| + |s.c.input|] == rows[0];
      assert IsStream(t.arrived[s.c.order]);
    }
  }

  lemma {:induction false} ArriveAllSets(s: Sys, chunks: seq<Chunk>, n: nat, last: nat)
    requires Inv(s, last) && n <= |chunks| && AllContinue(s, chunks[..n], last) && DistinctStreams(chunks)
    ensures var m := ArriveAll(s, chunks[..n]);
            && Accounts(m, last) && m.c.order == s.c.order && m.part == s.part
            && (m.c.input != [] <==> Begun(s, chunks, n))
            && (m.c.hasStart <==> s.part == [] && Begun(s, chunks, n) && !StartLost(s, chunks, n))
            && (m.c.order in m.c.cache <==> n == 0 && s.c.order in s.c.cache)
  {
    if n > 0 {
      assert chunks[..n][..n - 1] == chunks[..n - 1];
      ArriveAllSets(s, chunks, n - 1, last);
      var m := ArriveAll(s, chunks[..n - 1]);
      ArriveSets(m, chunks[n - 1], last);
      ArriveKeeps(m, chunks[n - 1], last);
      assert Arrive(m, chunks[n - 1]).c.order == m.c.order;
      AmongStep(chunks, 0, n - 1, s.c.order);
      if n > 1 { AmongStep(chunks, 1, n - 1, s.c.order); }
    } else {
      assert chunks[..0] == [];
    }
  }

  /** A data run tells the unit that a sub-stream starts exactly when its input does begin one, but for
      the case above. */
  lemma {:induction false} StartSeenIff(s: Sys, chunks: seq<Chunk>, last: nat)
    requires Inv(s, last) && AllContinue(s, chunks, last) && DistinctStreams(chunks)
    requires ArriveAll(s, chunks).c.input != []
    ensures var c := ArriveAll(s, chunks).c;
            (c.hasStart <==> c.input[0].index == 0) <==> !StartLost(s, chunks, |chunks|)
  {
    assert chunks[..|chunks|] == chunks;
    ArriveAllSets(s, chunks, |chunks|, last);
    var m := ArriveAll(s, chunks);
    assert At(m.arrived, s.c.order)[|s.part|] == m.c.input[0];
    assert IsStream(m.arrived[s.c.order]);
  }

  const HEAD: seq<Row> := [Row(0, false, 7)]
  const TAIL: seq<Row> := [Row(1, false, 8)]
  const END_ONLY: seq<Row> := [Row(0, true, 0)]

  lemma {:induction false} OneChunk(s: Sys, ch: Chunk, last: nat)
    ensures ArriveAll(s, [ch]) == Arrive(s, ch)
    ensures Continues(s, ch, last) ==> AllContinue(s, [ch], last)
    ensures Step(s, OnData([ch]), last) == Finish(Arrive(s, ch), last)
  {
    assert [ch][..0] == [];
  }

  /** Sub-stream 1 arrived before 0. */
  ghost predicate Early(s: Sys) {
    s.c.order == 0 && At(s.c.cache, 0) == [] && 0 !in s.arrived && 2 !in s.arrived && !s.c.hasEnd && s.c.input == []
    && At(s.c.cache, 1) == HEAD && At(s.arrived, 1) == HEAD
  }

  /** Sub-stream 0 has ended; the head of 1 is cached and its event not handled. */
  ghost predicate Late(s: Sys) {
    s.c.order == 1 && At(s.c.cache, 1) == HEAD && At(s.arrived, 1) == HEAD && 2 !in s.arrived && s.part == []
  }

  lemma {:induction false} FirstEarly(last: nat)
    requires last >= 2
    ensures var a := OnData([Chunk(1, HEAD)]); Legal(INIT, a, last) && Early(Step(INIT, a, last))
  {
    OneChunk(INIT, Chunk(1, HEAD), last);
    assert [] + HEAD == HEAD;
  }

  lemma {:induction false} ThenLate(s: Sys, last: nat)
    requires last >= 2 && Early(s)
    ensures var b := OnData([Chunk(0, END_ONLY)]); Legal(s, b, last) && Late(Step(s, b, last))
  {
    OneChunk(s, Chunk(0, END_ONLY), last);
    assert [] + END_ONLY == END_ONLY;
    var c := Write(s.c, 0, END_ONLY);
    assert c.hasEnd && c.order == 0 && At(c.cache, 1) == HEAD;
  }

  lemma {:induction false} TwoChunks(s: Sys, last: nat)
    requires last >= 2 && Late(s)
    ensures var chunks := [Chunk(2, HEAD), Chunk(1, TAIL)];
            AllContinue(s, chunks, last) && DistinctStreams(chunks) && StartLost(s, chunks, 2)
  {
    var chunks := [Chunk(2, HEAD), Chunk(1, TAIL)];
    OneChunk(s, chunks[0], last);
    assert chunks[..1] == [chunks[0]];
    assert [] + HEAD == HEAD;
    assert At(Arrive(s, chunks[0]).arrived, 1) == HEAD;
    assert chunks[1].stream == s.c.order;
  }

  /** The case occurs: sub-stream 1 arrives early, 0 ends, and before the event is handled the next data
      run brings a chunk of 2 and then one of 1. */
  lemma {:induction false} StartCanBeLost(last: nat) returns (run: seq<Action>, chunks: seq<Chunk>)
    requires last >= 2
    ensures AllLegal(INIT, run, last)
    ensures AllContinue(Run(INIT, run, last), chunks, last) && DistinctStreams(chunks)
    ensures StartLost(Run(INIT, run, last), chunks, |chunks|)
  {
    var a, b := OnData([Chunk(1, HEAD)]), OnData([Chunk(0, END_ONLY)]);
    run, chunks := [a, b], [Chunk(2, HEAD), Chunk(1, TAIL)];
    InitInv(last);
    FirstEarly(last);
    StepKeeps(INIT, a, last);
    var s := Step(INIT, a, last);
    ThenLate(s, last);
    StepKeeps(s, b, last);
    TwoChunks(Step(s, b, last), last);
    TwoSteps(INIT, a, b, last);
  }

  lemma {:induction false} TwoSteps(s: Sys, a: Action, b: Action, last: nat)
    requires Inv(s, last) && Legal(s, a, last) && Inv(Step(s, a, last), last) && Legal(Step(s, a, last), b, last)
    ensures AllLegal(s, [a, b], last) && Run(s, [a, b], last) == Step(Step(s, a, last), b, last)
  {
    var s' := Step(s, a, last);
    StepKeeps(s', b, last);
    assert [a, b][1..] == [b] && [b][1..] == [];
    var t := Step(s', b, last);
    assert Run(s', [b], last) == Run(t, [b][1..], last) == t;
    assert AllLegal(s', [b], last);
  }

  // ----- the context object -----

  class StreamCollapseContext {
    var cache: map<nat, seq<Row>>
    var order: nat
    var input: seq<Row>
    var hasStart: bool
    var hasEnd: bool
    var finished: bool

    ghost function State(): Context
      reads this
    {
      Context(cache, order, input, hasStart, hasEnd, finished)
    }

    constructor ()
      ensures State() == NEW_CONTEXT
    {
      cache, order, input, hasStart, hasEnd, finished := map[], 0, [], false, false, false;
    }

    method SetCurrentInputData(rows: seq<Row>)
      requires rows != []
      modifies this`input, this`hasStart, this`hasEnd
      ensures State() == SetInput(old(State()), rows)
    {
      input := input + rows;
      hasStart, hasEnd := rows[0].index == 0, rows[|rows| - 1].isEnd;
    }

    method CollapseNextStream()
      requires order in cache ==> cache[order] != []
      modifies this
      ensures State() == CollapseNext(old(State()))
    {
      if order in cache {
        SetCurrentInputData(cache[order]);
        cache := cache - {order};
      }
    }

    method WriteInputData(k: nat, chunk: seq<Row>)
      requires chunk != [] && (order in cache ==> cache[order] != [])
      modifies this
      ensures State() == Write(old(State()), k, chunk)
    {
      if k in cache {
        cache := cache[k := cache[k] + chunk];
      } else {
        cache := cache[k := chunk];
        assert [] + chunk == chunk;
      }
      CollapseNextStream();
    }

    method UpdateProcessState(last: nat)
      modifies this`order, this`finished
      ensures State() == Update(old(State()), last)
    {
      if !hasEnd {
        return;
      }
      if order == last {
        finished := true;
      }
      order := order + 1;
    }
  }
}
