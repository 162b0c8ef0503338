/** Regrouping the data of several contexts into batches, and scattering the outputs back.

    A context's data is a sequence of rows, a row being one buffer per port.  */
module Batching {
  import opened Basics

  datatype FlowStatus = SUCCESS | CONTINUE | STOP | SHUTDOWN | ERROR(code: nat)

  /** The reference batching: cut a sequence every `size` rows. */
  function Chunk<T>(rows: seq<T>, size: nat): seq<seq<T>>
    requires size >= 1
    decreases |rows|
  {
    if rows == [] then [] else if |rows| <= size then [rows] else [rows[..size]] + Chunk(rows[size..], size)
  }

  lemma MulAtLeast(a: int, d: nat)
    requires a >= 1
    ensures a * d >= d
  {
    assert a * d == (a - 1) * d + d;
  }

  lemma DivUnique(x: nat, d: nat, q: nat, r: nat)
    requires d >= 1 && r < d && x == q * d + r
    ensures x / d == q
  {
    var q', r' := x / d, x % d;
    assert x == q' * d + r';
    assert (q - q') * d == r' - r;
    if q > q' { MulAtLeast(q - q', d); }
    if q' > q { MulAtLeast(q' - q, d); }
  }

  lemma DivStep(n: nat, size: nat)
    requires size >= 1 && n > size
    ensures (n + size - 1) / size == 1 + (n - size + size - 1) / size
  {
    var q, r := (n - 1) / size, (n - 1) % size;
    assert n - 1 == q * size + r;
    assert n + size - 1 == (q + 1) * size + r;
    DivUnique(n + size - 1, size, q + 1, r);
  }

  lemma DivOnce(n: nat, size: nat)
    requires 1 <= n <= size
    ensures (n + size - 1) / size == 1
  {
    DivUnique(n + size - 1, size, 1, n - 1);
  }

  lemma {:induction false} ChunkCount<T>(rows: seq<T>, size: nat)
    requires size >= 1
    ensures |Chunk(rows, size)| == (|rows| + size - 1) / size
    decreases |rows|
  {
    if rows == [] {
      DivUnique(size - 1, size, 0, size - 1);
    } else if |rows| <= size {
      DivOnce(|rows|, size);
    } else {
      DivStep(|rows|, size);
      ChunkCount(rows[size..], size);
    }
  }

  /** Batches are optimal: ceil(rows / size) of them, all full but the last, none empty, nothing lost
      or reordered. */
  lemma {:induction false} ChunkShape<T>(rows: seq<T>, size: nat)
    requires size >= 1
    ensures |Chunk(rows, size)| == (|rows| + size - 1) / size
    ensures forall j | 0 <= j < |Chunk(rows, size)| :: 1 <= |Chunk(rows, size)[j]| <= size
    ensures forall j | 0 <= j < |Chunk(rows, size)| - 1 :: |Chunk(rows, size)[j]| == size
    ensures Flat(Chunk(rows, size)) == rows
    decreases |rows|
  {
    ChunkCount(rows, size);
    if rows == [] {
    } else if |rows| <= size {
      assert Flat([rows]) == rows + Flat<T>([]);
    } else {
      ChunkShape(rows[size..], size);
      var head, tail := rows[..size], Chunk(rows[size..], size);
      assert ([head] + tail)[1..] == tail;
      assert rows == head + rows[size..];
    }
  }

  function Total<T>(ctxs: seq<seq<T>>): nat {
    if ctxs == [] then 0 else |ctxs[0]| + Total(ctxs[1..])
  }

  lemma {:induction false} TotalIsFlat<T>(ctxs: seq<seq<T>>)
    ensures Total(ctxs) == |Flat(ctxs)|
  {
    if ctxs != [] {
      TotalIsFlat(ctxs[1..]);
    }
  }

  /** The rows from position `at` of context i on. */
  function Left<T>(origin: seq<seq<T>>, i: nat, at: nat): seq<T>
    requires i <= |origin| && (i < |origin| ==> at <= |origin[i]|)
  {
    if i == |origin| then [] else origin[i][at..] + Flat(origin[i + 1..])
  }

  lemma {:induction false} LeftNext<T>(origin: seq<seq<T>>, i: nat)
    requires i < |origin|
    ensures Left(origin, i, |origin[i]|) == Left(origin, i + 1, 0)
    ensures Left(origin, i, 0) == Flat(origin[i..])
  {
    assert origin[i..][0] == origin[i] && origin[i..][1..] == origin[i + 1..];
    assert origin[i][|origin[i]|..] == [];
    if i + 1 < |origin| {
      assert origin[i + 1..][1..] == origin[i + 2..];
    }
  }

  lemma {:induction false} LeftStep<T>(origin: seq<seq<T>>, i: nat, at: nat)
    requires i < |origin| && at < |origin[i]|
    ensures Left(origin, i, at) == [origin[i][at]] + Left(origin, i, at + 1)
  {
    assert origin[i][at..] == [origin[i][at]] + origin[i][at + 1..];
    Assoc([origin[i][at]], origin[i][at + 1..], Flat(origin[i + 1..]));
  }

  lemma {:induction false} ChunkFull<T>(cache: seq<T>, rest: seq<T>, size: nat)
    requires size >= 1 && |cache| == size && rest != []
    ensures Chunk(cache + rest, size) == [cache] + Chunk(rest, size)
  {
    assert (cache + rest)[..size] == cache && (cache + rest)[size..] == rest;
  }

  ghost predicate ShapesOf<T>(shapes: seq<nat>, batches: seq<seq<T>>) {
    |shapes| == |batches| && forall j | 0 <= j < |batches| :: shapes[j] == |batches[j]|
  }

  /** The first `at` batches are done, the next is being filled, `left` is still to come. */
  ghost predicate Filling<T>(all: seq<T>, size: nat, mapped: seq<seq<T>>, shapes: seq<nat>, at: nat, cache: seq<T>, left: seq<T>)
    requires size >= 1
  {
    && at < |mapped| == |shapes| == |Chunk(all, size)|
    && |cache| <= size && cache + left != []
    && mapped[..at] + Chunk(cache + left, size) == Chunk(all, size)
    && ShapesOf(shapes[..at], mapped[..at])
  }

  lemma {:induction false} FillFlush<T>(all: seq<T>, size: nat, mapped: seq<seq<T>>, shapes: seq<nat>, at: nat, cache: seq<T>, left: seq<T>)
    requires size >= 1 && Filling(all, size, mapped, shapes, at, cache, left) && |cache| == size && left != []
    ensures Filling(all, size, mapped[at := cache], shapes[at := size], at + 1, [], left)
  {
    ChunkFull(cache, left, size);
    assert [] + left == left;
    assert mapped[at := cache][..at + 1] == mapped[..at] + [cache];
    assert shapes[at := size][..at + 1] == shapes[..at] + [size];
    Assoc(mapped[..at], [cache], Chunk(left, size));
    assert Chunk(left, size) != [];
  }

  lemma {:induction false} FillDone<T>(all: seq<T>, size: nat, mapped: seq<seq<T>>, shapes: seq<nat>, at: nat, cache: seq<T>)
    requires size >= 1 && Filling(all, size, mapped, shapes, at, cache, [])
    ensures mapped[at := cache] == Chunk(all, size) && ShapesOf(shapes[at := |cache|], mapped[at := cache])
  {
    assert cache + [] == cache;
    assert Chunk(cache, size) == [cache];
    assert mapped[at := cache] == mapped[..at] + [cache];
    assert shapes[at := |cache|] == shapes[..at] + [|cache|];
  }

  lemma {:induction false} FillAppend<T>(all: seq<T>, size: nat, mapped: seq<seq<T>>, shapes: seq<nat>, at: nat, cache: seq<T>,
                                         x: T, left: seq<T>)
    requires size >= 1 && Filling(all, size, mapped, shapes, at, cache, [x] + left) && |cache| < size
    ensures Filling(all, size, mapped, shapes, at, cache + [x], left)
  {
    Assoc(cache, [x], left);
  }

  /** The number of batches to make room for. */
  method BuildMappedDataNormal<T>(origin: seq<seq<T>>, batchSize: nat) returns (count: nat)
    requires batchSize >= 1
    ensures count == |Chunk(Flat(origin), batchSize)|
  {
    var total := 0;
    for i := 0 to |origin|
      invariant total + Total(origin[i..]) == Total(origin)
    {
      assert origin[i..][1..] == origin[i + 1..];
      total := total + |origin[i]|;
    }
    TotalIsFlat(origin);
    ChunkCount(Flat(origin), batchSize);
    count := (total + batchSize - 1) / batchSize;
  }

  /** The loop state of the reshape: row `at` of context i is the next to place. */
  ghost predicate Reshaping<T>(origin: seq<seq<T>>, size: nat, mapped: seq<seq<T>>, shapes: seq<nat>, j: nat, cache: seq<T>,
                               i: nat, at: nat)
    requires size >= 1
  {
    if i < |origin| then
      at < |origin[i]| && Filling(Flat(origin), size, mapped, shapes, j, cache, Left(origin, i, at))
    else
      i == |origin| && mapped == Chunk(Flat(origin), size) && ShapesOf(shapes, mapped)
  }

  lemma {:induction false} ReshapeStart<T>(origin: seq<seq<T>>, size: nat, mapped: seq<seq<T>>, shapes: seq<nat>)
    requires size >= 1 && forall i | 0 <= i < |origin| :: origin[i] != []
    requires |mapped| == |shapes| == |Chunk(Flat(origin), size)|
    ensures Reshaping(origin, size, mapped, shapes, 0, [], 0, 0)
  {
    if origin != [] {
      var all := Flat(origin);
      LeftNext(origin, 0);
      assert origin[0..] == origin;
      assert all[0] == origin[0][0];
      assert [] + all == all && mapped[..0] + Chunk(all, size) == Chunk(all, size);
    }
  }

  /** Placing one row: what the state is after the cursors have moved. */
  lemma {:induction false} ReshapePlace<T>(origin: seq<seq<T>>, size: nat, mapped: seq<seq<T>>, shapes: seq<nat>, j: nat,
                                           cache: seq<T>, i: nat, at: nat)
    requires size >= 1 && i < |origin| && |cache| < size && Reshaping(origin, size, mapped, shapes, j, cache, i, at)
    requires forall k | 0 <= k < |origin| :: origin[k] != []
    ensures j < |mapped| == |shapes|
    ensures var cache' := cache + [origin[i][at]];
            if at + 1 < |origin[i]| then Reshaping(origin, size, mapped, shapes, j, cache', i, at + 1)
            else if i + 1 < |origin| then Reshaping(origin, size, mapped, shapes, j, cache', i + 1, 0)
            else Reshaping(origin, size, mapped[j := cache'], shapes[j := |cache'|], j, cache', i + 1, 0)
  {
    var cache' := cache + [origin[i][at]];
    LeftStep(origin, i, at);
    FillAppend(Flat(origin), size, mapped, shapes, j, cache, origin[i][at], Left(origin, i, at + 1));
    if at + 1 == |origin[i]| {
      LeftNext(origin, i);
      if i + 1 == |origin| {
        FillDone(Flat(origin), size, mapped, shapes, j, cache');
      }
    }
  }

  lemma {:induction false} ReshapeFlush<T>(origin: seq<seq<T>>, size: nat, mapped: seq<seq<T>>, shapes: seq<nat>, j: nat,
                                           cache: seq<T>, i: nat, at: nat)
    requires size >= 1 && i < |origin| && |cache| == size && Reshaping(origin, size, mapped, shapes, j, cache, i, at)
    ensures Reshaping(origin, size, mapped[j := cache], shapes[j := size], j + 1, [], i, at)
  {
    LeftStep(origin, i, at);
    FillFlush(Flat(origin), size, mapped, shapes, j, cache, Left(origin, i, at));
  }

  /** Normal reshape: one cursor runs over the contexts, one over the batches. */
  method FillMappedDataNormal<T>(origin: seq<seq<T>>, batchSize: nat) returns (mapped: seq<seq<T>>, shapes: seq<nat>)
    requires batchSize >= 1 && forall i | 0 <= i < |origin| :: origin[i] != []
    ensures mapped == Chunk(Flat(origin), batchSize)
    ensures ShapesOf(shapes, mapped)
  {
    var count := BuildMappedDataNormal(origin, batchSize);
    mapped, shapes := seq(count, _ => []), seq(count, _ => 0);
    var originIndex, inOrigin, mappedIndex := 0, 0, 0;
    var cache: seq<T> := [];
    ReshapeStart(origin, batchSize, mapped, shapes);
    while originIndex < |origin|
      invariant originIndex < |origin| ==> |cache| < batchSize
      invariant Reshaping(origin, batchSize, mapped, shapes, mappedIndex, cache, originIndex, inOrigin)
      decreases |origin| - originIndex, if originIndex < |origin| then |origin[originIndex]| - inOrigin else 0
    {
      ReshapePlace(origin, batchSize, mapped, shapes, mappedIndex, cache, originIndex, inOrigin);
      cache := cache + [origin[originIndex][inOrigin]];
      inOrigin := inOrigin + 1;
      if inOrigin >= |origin[originIndex]| {
        // read the next context
        originIndex, inOrigin := originIndex + 1, 0;
        if originIndex >= |origin| {
          // the end buffer
          shapes := shapes[mappedIndex := |cache|];
          mapped := mapped[mappedIndex := cache];
          continue;
        }
      }
      if |cache| >= batchSize {
        // save this batch, fill the next
        ReshapeFlush(origin, batchSize, mapped, shapes, mappedIndex, cache, originIndex, inOrigin);
        shapes := shapes[mappedIndex := batchSize];
        mapped := mapped[mappedIndex := cache];
        mappedIndex := mappedIndex + 1;
        cache := [];
      }
    }
  }

  // ----- writing back -----

  /** A processed batch: its status, the rows it produced, and how many rows it was given. */
  datatype Batch<U> = Batch(status: FlowStatus, rows: seq<U>, shape: nat)

  /** What a context ends up with. */
  datatype Written<U> = Written(status: FlowStatus, rows: seq<U>)

  /** What a batch has to offer for one of its input rows. */
  datatype Slot<U> = Kept(row: U) | Lost(status: FlowStatus)

  /** A batch that succeeded has a row for every row it was given. */
  ghost predicate CountPreserving<U>(b: Batch<U>) {
    b.shape >= 1 && (b.status == SUCCESS ==> b.shape <= |b.rows|)
  }

  function Slots<U>(b: Batch<U>): seq<Slot<U>>
    requires CountPreserving(b)
  {
    seq(b.shape, k requires 0 <= k < b.shape => if b.status == SUCCESS then Kept(b.rows[k]) else Lost(b.status))
  }

  ghost function AllSlots<U>(mapped: seq<Batch<U>>): seq<seq<Slot<U>>>
    requires forall j | 0 <= j < |mapped| :: CountPreserving(mapped[j])
  {
    seq(|mapped|, j requires 0 <= j < |mapped| => Slots(mapped[j]))
  }

  function KeptRows<U>(slots: seq<Slot<U>>): seq<U> {
    if slots == [] then []
    else KeptRows(slots[..|slots| - 1]) + (if slots[|slots| - 1].Kept? then [slots[|slots| - 1].row] else [])
  }

  /** The status of the last batch that did not succeed, if any. */
  function LastStatus<U>(initial: FlowStatus, slots: seq<Slot<U>>): FlowStatus {
    if slots == [] then initial
    else if slots[|slots| - 1].Lost? then slots[|slots| - 1].status
    else LastStatus(initial, slots[..|slots| - 1])
  }

  function Sum(shapes: seq<nat>): nat {
    if shapes == [] then 0 else shapes[0] + Sum(shapes[1..])
  }

  /** The reference: every context takes as many slots as it had rows, in order. */
  function Scatter<U>(slots: seq<Slot<U>>, shapes: seq<nat>, initial: seq<FlowStatus>): seq<Written<U>>
    requires |slots| == Sum(shapes) && |initial| == |shapes|
    decreases |shapes|
  {
    if shapes == [] then []
    else
      var n := shapes[0];
      [Written(LastStatus(initial[0], slots[..n]), KeptRows(slots[..n]))] + Scatter(slots[n..], shapes[1..], initial[1..])
  }

  /** The loop state of the write-back: context i has taken `cur`, slot `at` of batch j is next. */
  ghost predicate Scattering<U>(goal: seq<Written<U>>, slots: seq<seq<Slot<U>>>, shapes: seq<nat>, initial: seq<FlowStatus>,
                                out: seq<Written<U>>, i: nat, cur: seq<Slot<U>>, cache: seq<U>, j: nat, at: nat) {
    && |out| == |shapes| == |initial|
    && i < |shapes| && |cur| <= shapes[i]
    && j < |slots| && at <= |slots[j]|
    && |cur + Left(slots, j, at)| == Sum(shapes[i..])
    && (cur != [] ==> cache == KeptRows(cur))
    && out[i].status == LastStatus(initial[i], cur)
    && (forall k | i < k < |out| :: out[k].status == initial[k])
    && out[..i] + Scatter(cur + Left(slots, j, at), shapes[i..], initial[i..]) == goal
  }

  lemma {:induction false} ScatterFirst<U>(cur: seq<Slot<U>>, left: seq<Slot<U>>, shapes: seq<nat>, initial: seq<FlowStatus>, i: nat)
    requires i < |shapes| == |initial| && |cur| == shapes[i] && |cur + left| == Sum(shapes[i..])
    ensures |left| == Sum(shapes[i + 1..])
    ensures Scatter(cur + left, shapes[i..], initial[i..])
         == [Written(LastStatus(initial[i], cur), KeptRows(cur))] + Scatter(left, shapes[i + 1..], initial[i + 1..])
  {
    assert shapes[i..][1..] == shapes[i + 1..] && initial[i..][1..] == initial[i + 1..];
    assert (cur + left)[..|cur|] == cur && (cur + left)[|cur|..] == left;
  }

  lemma {:induction false} SumPositive(shapes: seq<nat>)
    requires forall k | 0 <= k < |shapes| :: shapes[k] >= 1
    ensures Sum(shapes) >= |shapes|
  {
    if shapes != [] { SumPositive(shapes[1..]); }
  }

  function Unwritten<U>(initial: seq<FlowStatus>): seq<Written<U>> {
    seq(|initial|, k requires 0 <= k < |initial| => Written(initial[k], []))
  }

  lemma {:induction false} ScatterStart<U>(slots: seq<seq<Slot<U>>>, shapes: seq<nat>, initial: seq<FlowStatus>)
    requires slots != [] && shapes != [] && |initial| == |shapes| && |Flat(slots)| == Sum(shapes)
    ensures Scattering(Scatter(Flat(slots), shapes, initial), slots, shapes, initial, Unwritten(initial), 0, [], [], 0, 0)
  {
    LeftNext(slots, 0);
    assert slots[0..] == slots && shapes[0..] == shapes && initial[0..] == initial;
    assert [] + Left(slots, 0, 0) == Flat(slots);
    assert Unwritten<U>(initial)[..0] == [];
    assert [] + Scatter(Flat(slots), shapes, initial) == Scatter(Flat(slots), shapes, initial);
  }

  /** The batch is used up: go on to the next. */
  lemma {:induction false} ScatterNextBatch<U>(goal: seq<Written<U>>, slots: seq<seq<Slot<U>>>, shapes: seq<nat>, initial: seq<FlowStatus>,
                                               out: seq<Written<U>>, i: nat, cur: seq<Slot<U>>, cache: seq<U>, j: nat)
    requires j + 1 < |slots| && Scattering(goal, slots, shapes, initial, out, i, cur, cache, j, |slots[j]|)
    ensures Scattering(goal, slots, shapes, initial, out, i, cur, cache, j + 1, 0)
  {
    LeftNext(slots, j);
  }

  /** No batch is left: the context being written is the last one, and complete. */
  lemma {:induction false} ScatterDone<U>(goal: seq<Written<U>>, slots: seq<seq<Slot<U>>>, shapes: seq<nat>, initial: seq<FlowStatus>,
                                          out: seq<Written<U>>, i: nat, cur: seq<Slot<U>>, cache: seq<U>, j: nat)
    requires j + 1 == |slots| && Scattering(goal, slots, shapes, initial, out, i, cur, cache, j, |slots[j]|)
    requires forall k | 0 <= k < |shapes| :: shapes[k] >= 1
    ensures out[i := out[i].(rows := cache)] == goal
  {
    LeftNext(slots, j);
    assert cur + [] == cur;
    assert shapes[i..][1..] == shapes[i + 1..];
    SumPositive(shapes[i + 1..]);
    assert |cur| == shapes[i] && i + 1 == |shapes|;
    ScatterFirst(cur, [], shapes, initial, i);
    var done := Written(LastStatus(initial[i], cur), KeptRows(cur));
    assert Scatter<U>([], shapes[i + 1..], initial[i + 1..]) == [];
    assert [done] + [] == [done];
    assert out[i := out[i].(rows := cache)] == out[..i] + [done];
  }

  /** The context is complete: flush it and start the next. */
  lemma {:induction false} ScatterFlush<U>(goal: seq<Written<U>>, slots: seq<seq<Slot<U>>>, shapes: seq<nat>, initial: seq<FlowStatus>,
                                           out: seq<Written<U>>, i: nat, cur: seq<Slot<U>>, cache: seq<U>, j: nat, at: nat)
    requires Scattering(goal, slots, shapes, initial, out, i, cur, cache, j, at) && at < |slots[j]| && |cur| == shapes[i]
    requires forall k | 0 <= k < |shapes| :: shapes[k] >= 1
    ensures i + 1 < |shapes|
    ensures Scattering(goal, slots, shapes, initial, out[i := out[i].(rows := cache)], i + 1, [], cache, j, at)
  {
    var left := Left(slots, j, at);
    LeftStep(slots, j, at);
    ScatterFirst(cur, left, shapes, initial, i);
    assert [] + left == left;
    var done := Written(LastStatus(initial[i], cur), KeptRows(cur));
    var out' := out[i := out[i].(rows := cache)];
    assert out'[..i + 1] == out[..i] + [done];
    Assoc(out[..i], [done], Scatter(left, shapes[i + 1..], initial[i + 1..]));
  }

  lemma {:induction false} ScatterFresh<U>(goal: seq<Written<U>>, slots: seq<seq<Slot<U>>>, shapes: seq<nat>,
                                           initial: seq<FlowStatus>, out: seq<Written<U>>, i: nat, cache: seq<U>, j: nat, at: nat)
    requires Scattering(goal, slots, shapes, initial, out, i, [], cache, j, at)
    ensures Scattering(goal, slots, shapes, initial, out, i, [], [], j, at)
  {
  }

  /** One slot goes to the context being written. */
  lemma {:induction false} ScatterTake<U>(goal: seq<Written<U>>, slots: seq<seq<Slot<U>>>, shapes: seq<nat>, initial: seq<FlowStatus>,
                                          out: seq<Written<U>>, i: nat, cur: seq<Slot<U>>, cache: seq<U>, j: nat, at: nat)
    requires Scattering(goal, slots, shapes, initial, out, i, cur, cache, j, at) && at < |slots[j]| && |cur| < shapes[i]
    requires cur == [] ==> cache == []
    ensures var x := slots[j][at];
            if x.Kept? then Scattering(goal, slots, shapes, initial, out, i, cur + [x], cache + [x.row], j, at + 1)
            else Scattering(goal, slots, shapes, initial, out[i := out[i].(status := x.status)], i, cur + [x], cache, j, at + 1)
  {
    var x := slots[j][at];
    TakeSlot(cur, x, initial[i]);
    assert cur + [x] + Left(slots, j, at + 1) == cur + Left(slots, j, at) by {
      LeftStep(slots, j, at);
      Assoc(cur, [x], Left(slots, j, at + 1));
    }
    if x.Lost? {
      assert out[i := out[i].(status := x.status)][..i] == out[..i];
    }
  }

  lemma {:induction false} TakeSlot<U>(cur: seq<Slot<U>>, x: Slot<U>, initial: FlowStatus)
    ensures KeptRows(cur + [x]) == if x.Kept? then KeptRows(cur) + [x.row] else KeptRows(cur)
    ensures LastStatus(initial, cur + [x]) == if x.Lost? then x.status else LastStatus(initial, cur)
  {
    assert (cur + [x])[..|cur|] == cur;
    assert KeptRows(cur) + [] == KeptRows(cur);
  }

  /** The output of a row goes to the cache, or its status to the context. */
  method WriteSlot<U>(batch: Batch<U>, at: nat, out: seq<Written<U>>, i: nat, cache: seq<U>)
    returns (out': seq<Written<U>>, cache': seq<U>)
    requires CountPreserving(batch) && at < batch.shape && i < |out|
    ensures var x := Slots(batch)[at];
            if x.Kept? then out' == out && cache' == cache + [x.row]
            else out' == out[i := out[i].(status := x.status)] && cache' == cache
  {
    out', cache' := out, cache;
    if batch.status != SUCCESS {
      out' := out[i := out[i].(status := batch.status)];
    } else {
      cache' := cache + [batch.rows[at]];
    }
  }

  /** What is written next: the context is flushed if complete, else takes the slot. */
  ghost function NextOut<U>(shapes: seq<nat>, out: seq<Written<U>>, i: nat, taken: nat, cache: seq<U>, x: Slot<U>): seq<Written<U>>
    requires i < |shapes| && i < |out|
  {
    if taken >= shapes[i] then out[i := out[i].(rows := cache)]
    else if x.Kept? then out
    else out[i := out[i].(status := x.status)]
  }

  ghost function NextCache<U>(shapes: seq<nat>, i: nat, taken: nat, cache: seq<U>, x: Slot<U>): seq<U>
    requires i < |shapes|
  {
    if taken >= shapes[i] || x.Lost? then cache else cache + [x.row]
  }

  lemma {:induction false} ScatterRow<U>(goal: seq<Written<U>>, slots: seq<seq<Slot<U>>>, shapes: seq<nat>, initial: seq<FlowStatus>,
                                         out: seq<Written<U>>, i: nat, cur: seq<Slot<U>>, cache: seq<U>, j: nat, at: nat)
    requires Scattering(goal, slots, shapes, initial, out, i, cur, cache, j, at) && at < |slots[j]|
    requires (cur == [] ==> cache == []) && forall k | 0 <= k < |shapes| :: shapes[k] >= 1
    ensures var x := slots[j][at];
            var out', cache' := NextOut(shapes, out, i, |cur|, cache, x), NextCache(shapes, i, |cur|, cache, x);
            if |cur| >= shapes[i] then i + 1 < |shapes| && Scattering(goal, slots, shapes, initial, out', i + 1, [], cache', j, at)
            else Scattering(goal, slots, shapes, initial, out', i, cur + [x], cache', j, at + 1)
  {
    if |cur| >= shapes[i] {
      ScatterFlush(goal, slots, shapes, initial, out, i, cur, cache, j, at);
    } else {
      ScatterTake(goal, slots, shapes, initial, out, i, cur, cache, j, at);
    }
  }

  /** The part of the write-back for one context, while its batch lasts: the next slot is taken, or the
      context is flushed first. */
  ghost predicate RowWritten<U>(batch: Batch<U>, at: nat, shapes: seq<nat>, out: seq<Written<U>>, i: nat, inOrigin: nat, cache: seq<U>,
                                out': seq<Written<U>>, i': nat, inOrigin': nat, cache': seq<U>, at': nat)
    requires CountPreserving(batch) && at < batch.shape && i < |shapes| && i < |out|
  {
    var start, x := if inOrigin == 0 then [] else cache, Slots(batch)[at];
    && out' == NextOut(shapes, out, i, inOrigin, start, x) && cache' == NextCache(shapes, i, inOrigin, start, x)
    && if inOrigin >= shapes[i] then i' == i + 1 && inOrigin' == 0 && at' == at
       else i' == i && inOrigin' == inOrigin + 1 && at' == at + 1
  }

  method WriteRow<U>(batch: Batch<U>, at: nat, shapes: seq<nat>, out: seq<Written<U>>, i: nat, inOrigin: nat, cache: seq<U>)
    returns (out': seq<Written<U>>, i': nat, inOrigin': nat, cache': seq<U>, at': nat)
    requires CountPreserving(batch) && at < batch.shape && i < |shapes| && i < |out|
    ensures RowWritten(batch, at, shapes, out, i, inOrigin, cache, out', i', inOrigin', cache', at')
  {
    cache' := cache;
    if inOrigin == 0 {
      // start to write a new context's output
      cache' := [];
    }
    if inOrigin >= shapes[i] {
      out', i', inOrigin', at' := out[i := out[i].(rows := cache')], i + 1, 0, at;
    } else {
      out', cache' := WriteSlot(batch, at, out, i, cache');
      i', inOrigin', at' := i, inOrigin + 1, at + 1;
    }
  }

  /** The batch is used up: go on to the next, or write the last context. */
  lemma {:induction false} BatchUsedUp<U>(goal: seq<Written<U>>, slots: seq<seq<Slot<U>>>, shapes: seq<nat>,
                                          initial: seq<FlowStatus>, out: seq<Written<U>>, i: nat, cur: seq<Slot<U>>,
                                          cache: seq<U>, j: nat)
    requires j < |slots| && Scattering(goal, slots, shapes, initial, out, i, cur, cache, j, |slots[j]|)
    requires forall k | 0 <= k < |shapes| :: shapes[k] >= 1
    ensures j + 1 < |slots| ==> Scattering(goal, slots, shapes, initial, out, i, cur, cache, j + 1, 0)
    ensures j + 1 == |slots| ==> out[i := out[i].(rows := cache)] == goal
  {
    if j + 1 < |slots| {
      ScatterNextBatch(goal, slots, shapes, initial, out, i, cur, cache, j);
    } else {
      ScatterDone(goal, slots, shapes, initial, out, i, cur, cache, j);
    }
  }

  ghost predicate SlotsOf<U>(slots: seq<seq<Slot<U>>>, mapped: seq<Batch<U>>, j: nat) {
    j < |slots| && j < |mapped| && CountPreserving(mapped[j]) && slots[j] == Slots(mapped[j])
    && |slots[j]| == mapped[j].shape
  }

  /** The state after a row has been written, from the state before. */
  lemma {:induction false} AfterRow<U>(goal: seq<Written<U>>, slots: seq<seq<Slot<U>>>, shapes: seq<nat>, initial: seq<FlowStatus>,
                                       out: seq<Written<U>>, i: nat, cur: seq<Slot<U>>, cache: seq<U>, j: nat, at: nat, batch: Batch<U>,
                                       out': seq<Written<U>>, i': nat, inOrigin': nat, cache': seq<U>, at': nat)
    returns (cur': seq<Slot<U>>)
    requires CountPreserving(batch) && at < batch.shape && i < |shapes| && i < |out|
    requires Scattering(goal, slots, shapes, initial, out, i, cur, cache, j, at) && slots[j] == Slots(batch)
    requires forall k | 0 <= k < |shapes| :: shapes[k] >= 1
    requires RowWritten(batch, at, shapes, out, i, |cur|, cache, out', i', inOrigin', cache', at')
    ensures inOrigin' == |cur'| && Scattering(goal, slots, shapes, initial, out', i', cur', cache', j, at')
    ensures (at' == at + 1 && i' == i) || (at' == at && i' == i + 1)
  {
    var start := if |cur| == 0 then [] else cache;
    if cur == [] { ScatterFresh(goal, slots, shapes, initial, out, i, cache, j, at); }
    ScatterRow(goal, slots, shapes, initial, out, i, cur, start, j, at);
    cur' := if |cur| >= shapes[i] then [] else cur + [slots[j][at]];
  }

  function ShapeAt<U>(mapped: seq<Batch<U>>, j: nat): nat {
    if j < |mapped| then mapped[j].shape else 0
  }

  /** One cursor runs over the processed batches, one over the contexts. */
  method WriteBatches<U>(mapped: seq<Batch<U>>, shapes: seq<nat>, initial: seq<FlowStatus>, ghost slots: seq<seq<Slot<U>>>,
                         ghost goal: seq<Written<U>>)
    returns (out: seq<Written<U>>)
    requires mapped != [] && |slots| == |mapped| && forall j: nat | j < |mapped| :: SlotsOf(slots, mapped, j)
    requires forall k | 0 <= k < |shapes| :: shapes[k] >= 1
    requires Scattering(goal, slots, shapes, initial, Unwritten(initial), 0, [], [], 0, 0)
    ensures out == goal
  {
    out := Unwritten(initial);
    var mappedIndex: nat, inMapped: nat, originIndex: nat, inOrigin: nat := 0, 0, 0, 0;
    var cache: seq<U> := [];
    ghost var cur: seq<Slot<U>> := [];
    while mappedIndex < |mapped|
      invariant mappedIndex <= |mapped|
      invariant if mappedIndex == |mapped| then out == goal else
                  inOrigin == |cur| && Scattering(goal, slots, shapes, initial, out, originIndex, cur, cache, mappedIndex, inMapped)
      decreases |mapped| - mappedIndex, ShapeAt(mapped, mappedIndex) - inMapped, |shapes| - originIndex
    {
      var batch := mapped[mappedIndex];
      assert SlotsOf(slots, mapped, mappedIndex);
      if inMapped >= batch.shape {
        BatchUsedUp(goal, slots, shapes, initial, out, originIndex, cur, cache, mappedIndex);
        inMapped, mappedIndex := 0, mappedIndex + 1;
        if mappedIndex >= |mapped| {
          // the end buffer
          out := out[originIndex := out[originIndex].(rows := cache)];
        }
        continue;
      }
      ghost var before, i, taken, at := out, originIndex, cache, inMapped;
      out, originIndex, inOrigin, cache, inMapped := WriteRow(batch, inMapped, shapes, out, originIndex, inOrigin, cache);
      cur := AfterRow(goal, slots, shapes, initial, before, i, cur, taken, mappedIndex, at, batch,
                      out, originIndex, inOrigin, cache, inMapped);
    }
  }

  /** Write-back: what the batches kept goes to the contexts it came from. */
  method WriteBackNormal<U>(mapped: seq<Batch<U>>, shapes: seq<nat>, initial: seq<FlowStatus>) returns (out: seq<Written<U>>)
    requires mapped != [] && forall j | 0 <= j < |mapped| :: CountPreserving(mapped[j])
    requires shapes != [] && |initial| == |shapes| && forall k | 0 <= k < |shapes| :: shapes[k] >= 1
    requires |Flat(AllSlots(mapped))| == Sum(shapes)
    ensures out == Scatter(Flat(AllSlots(mapped)), shapes, initial)
  {
    ghost var slots := AllSlots(mapped);
    ScatterStart(slots, shapes, initial);
    out := WriteBatches(mapped, shapes, initial, slots, Scatter(Flat(slots), shapes, initial));
  }

  // ----- batching is transparent -----

  function Sizes<T>(ctxs: seq<seq<T>>): seq<nat> {
    seq(|ctxs|, i requires 0 <= i < |ctxs| => |ctxs[i]|)
  }

  lemma {:induction false} SumSizes<T>(ctxs: seq<seq<T>>)
    ensures Sum(Sizes(ctxs)) == |Flat(ctxs)|
  {
    if ctxs != [] {
      assert Sizes(ctxs)[1..] == Sizes(ctxs[1..]);
      SumSizes(ctxs[1..]);
    }
  }

  /** Give a flat sequence back to the contexts by their sizes. */
  function Regroup<U>(rows: seq<U>, shapes: seq<nat>): (groups: seq<seq<U>>)
    requires |rows| == Sum(shapes)
    ensures |groups| == |shapes|
    decreases |shapes|
  {
    if shapes == [] then [] else [rows[..shapes[0]]] + Regroup(rows[shapes[0]..], shapes[1..])
  }

  lemma {:induction false} RegroupFlat<T>(ctxs: seq<seq<T>>)
    ensures |Flat(ctxs)| == Sum(Sizes(ctxs))
    ensures Regroup(Flat(ctxs), Sizes(ctxs)) == ctxs
  {
    SumSizes(ctxs);
    if ctxs != [] {
      assert Sizes(ctxs)[1..] == Sizes(ctxs[1..]);
      RegroupFlat(ctxs[1..]);
    }
  }

  function MapRows<T, U>(f: T -> U, rows: seq<T>): seq<U> {
    seq(|rows|, k requires 0 <= k < |rows| => f(rows[k]))
  }

  function KeepAll<U>(rows: seq<U>): seq<Slot<U>> {
    seq(|rows|, k requires 0 <= k < |rows| => Kept(rows[k]))
  }

  lemma {:induction false} KeepAllRows<U>(rows: seq<U>, initial: FlowStatus)
    ensures KeptRows(KeepAll(rows)) == rows && LastStatus(initial, KeepAll(rows)) == initial
  {
    if rows != [] {
      var n := |rows| - 1;
      assert KeepAll(rows)[..n] == KeepAll(rows[..n]);
      KeepAllRows(rows[..n], initial);
      assert rows == rows[..n] + [rows[n]];
    }
  }

  /** Scattering the outputs of batches that all succeeded is regrouping them by context. */
  lemma {:induction false} ScatterKept<U>(rows: seq<U>, shapes: seq<nat>, initial: seq<FlowStatus>)
    requires |rows| == Sum(shapes) && |initial| == |shapes|
    ensures var w := Scatter(KeepAll(rows), shapes, initial); var g := Regroup(rows, shapes);
            |w| == |g| == |shapes| && forall i | 0 <= i < |w| :: w[i] == Written(initial[i], g[i])
    decreases |shapes|
  {
    if shapes != [] {
      var n := shapes[0];
      assert KeepAll(rows)[..n] == KeepAll(rows[..n]) && KeepAll(rows)[n..] == KeepAll(rows[n..]);
      KeepAllRows(rows[..n], initial[0]);
      ScatterKept(rows[n..], shapes[1..], initial[1..]);
    }
  }

  /** Batches that all succeeded, each with one output row per input row. */
  function Succeeded<U>(outputs: seq<seq<U>>): seq<Batch<U>> {
    seq(|outputs|, j requires 0 <= j < |outputs| => Batch(SUCCESS, outputs[j], |outputs[j]|))
  }

  lemma {:induction false} SucceededSlots<U>(outputs: seq<seq<U>>)
    requires forall j | 0 <= j < |outputs| :: outputs[j] != []
    ensures forall j | 0 <= j < |outputs| :: CountPreserving(Succeeded(outputs)[j])
    ensures Flat(AllSlots(Succeeded(outputs))) == KeepAll(Flat(outputs))
  {
    if outputs != [] {
      SucceededSlots(outputs[1..]);
      assert Succeeded(outputs)[1..] == Succeeded(outputs[1..]);
      assert AllSlots(Succeeded(outputs))[1..] == AllSlots(Succeeded(outputs[1..]));
      assert Slots(Succeeded(outputs)[0]) == KeepAll(outputs[0]);
      assert KeepAll(Flat(outputs)) == KeepAll(outputs[0]) + KeepAll(Flat(outputs[1..]));
    } else {
      assert AllSlots(Succeeded(outputs)) == [];
    }
  }

  /** Reshape, process and write back with a unit that keeps the number of rows: whatever it does inside
      a batch, each context gets back the outputs at its own positions, in order. */
  lemma {:induction false} BatchingIsTransparent<T, U>(origin: seq<seq<T>>, size: nat, outputs: seq<seq<U>>, initial: seq<FlowStatus>)
    requires size >= 1 && |initial| == |origin|
    requires |outputs| == |Chunk(Flat(origin), size)|
    requires forall j | 0 <= j < |outputs| :: |outputs[j]| == |Chunk(Flat(origin), size)[j]|
    ensures forall j | 0 <= j < |outputs| :: CountPreserving(Succeeded(outputs)[j])
    ensures |Flat(outputs)| == Sum(Sizes(origin)) == |Flat(AllSlots(Succeeded(outputs)))|
    ensures var w := Scatter(Flat(AllSlots(Succeeded(outputs))), Sizes(origin), initial);
            |w| == |origin| && forall i | 0 <= i < |origin| :: w[i] == Written(initial[i], Regroup(Flat(outputs), Sizes(origin))[i])
  {
    ChunkShape(Flat(origin), size);
    SucceededSlots(outputs);
    SumSizes(origin);
    SumSizes(outputs);
    SumSizes(Chunk(Flat(origin), size));
    assert Sizes(outputs) == Sizes(Chunk(Flat(origin), size));
    ScatterKept(Flat(outputs), Sizes(origin), initial);
  }

  function MapCtxs<T, U>(f: T -> U, ctxs: seq<seq<T>>): seq<seq<U>> {
    seq(|ctxs|, i requires 0 <= i < |ctxs| => MapRows(f, ctxs[i]))
  }

  lemma {:induction false} FlatMap<T, U>(f: T -> U, ctxs: seq<seq<T>>)
    ensures Flat(MapCtxs(f, ctxs)) == MapRows(f, Flat(ctxs))
    ensures Sizes(MapCtxs(f, ctxs)) == Sizes(ctxs)
  {
    if ctxs != [] {
      FlatMap(f, ctxs[1..]);
      assert MapCtxs(f, ctxs)[1..] == MapCtxs(f, ctxs[1..]);
      assert MapRows(f, ctxs[0] + Flat(ctxs[1..])) == MapRows(f, ctxs[0]) + MapRows(f, Flat(ctxs[1..]));
    }
  }

  /** A unit that treats rows one by one cannot tell that it was batched: each context gets exactly
      its own outputs in its own order. */
  lemma {:induction false} BatchingInvisible<T, U>(origin: seq<seq<T>>, size: nat, f: T -> U, initial: seq<FlowStatus>)
    requires size >= 1 && |initial| == |origin|
    ensures var outputs := MapCtxs(f, Chunk(Flat(origin), size));
            && (forall j | 0 <= j < |outputs| :: CountPreserving(Succeeded(outputs)[j]))
            && |Flat(AllSlots(Succeeded(outputs)))| == Sum(Sizes(origin))
            && var w := Scatter(Flat(AllSlots(Succeeded(outputs))), Sizes(origin), initial);
               |w| == |origin| && forall i | 0 <= i < |origin| :: w[i] == Written(initial[i], MapRows(f, origin[i]))
  {
    var outputs := MapCtxs(f, Chunk(Flat(origin), size));
    BatchingIsTransparent(origin, size, outputs, initial);
    ChunkShape(Flat(origin), size);
    FlatMap(f, Chunk(Flat(origin), size));
    FlatMap(f, origin);
    RegroupFlat(MapCtxs(f, origin));
    assert Flat(outputs) == Flat(MapCtxs(f, origin));
  }

  // ----- what a failing batch does -----

  /** `CheckStatus`: an error status becomes error rows if the node has outputs at all: one per row the
      batch was given for a one-to-one unit, a single one for any other. */
  function Checked<U>(b: Batch<U>, hasOutputs: bool, oneToOne: bool, errorRow: U): Batch<U> {
    if b.status.ERROR? && hasOutputs
    then Batch(SUCCESS, seq(if oneToOne && b.shape > 0 then b.shape else 1, _ => errorRow), b.shape)
    else b
  }

  ghost predicate AllKept<U>(slots: seq<Slot<U>>) {
    forall k | 0 <= k < |slots| :: slots[k].Kept?
  }

  ghost predicate RealLoss<U>(slots: seq<Slot<U>>) {
    forall k | 0 <= k < |slots| :: slots[k].Lost? ==> slots[k].status != SUCCESS
  }

  /** A context is written completely exactly when all of its slots were kept, and its status
      says so. */
  lemma {:induction false} CompleteIffKept<U>(slots: seq<Slot<U>>)
    requires RealLoss(slots)
    ensures |KeptRows(slots)| <= |slots|
    ensures |KeptRows(slots)| == |slots| <==> AllKept(slots)
    ensures LastStatus(SUCCESS, slots) == SUCCESS <==> AllKept(slots)
  {
    if slots != [] {
      var n := |slots| - 1;
      CompleteIffKept(slots[..n]);
      assert AllKept(slots) <==> AllKept(slots[..n]) && slots[n].Kept?;
    }
  }

  /** Errors keep every position: once checked, a batch that succeeded or failed with an error has a
      slot for each of its rows; only CONTINUE, STOP and SHUTDOWN lose rows. */
  lemma {:induction false} CheckedKeepsPositions<U>(b: Batch<U>, errorRow: U)
    requires CountPreserving(b)
    ensures CountPreserving(Checked(b, true, true, errorRow)) && Checked(b, true, true, errorRow).shape == b.shape
    ensures AllKept(Slots(Checked(b, true, true, errorRow))) <==> b.status.SUCCESS? || b.status.ERROR?
    ensures b.status.ERROR? ==> forall k | 0 <= k < b.shape :: Slots(Checked(b, true, true, errorRow))[k] == Kept(errorRow)
    ensures RealLoss(Slots(Checked(b, true, true, errorRow)))
  {
    var c := Checked(b, true, true, errorRow);
    assert |Slots(c)| == b.shape >= 1;
    if !b.status.SUCCESS? && !b.status.ERROR? {
      assert Slots(c)[0].Lost?;
    }
  }

  /** What each context gets depends on the slots at its own positions only. */
  lemma {:induction false} ScatterByContext<U>(slots: seq<Slot<U>>, shapes: seq<nat>, initial: seq<FlowStatus>)
    requires |slots| == Sum(shapes) && |initial| == |shapes|
    ensures var w := Scatter(slots, shapes, initial); var g := Regroup(slots, shapes);
            |w| == |shapes| && forall i | 0 <= i < |w| ::
              |g[i]| == shapes[i] && w[i] == Written(LastStatus(initial[i], g[i]), KeptRows(g[i]))
    decreases |shapes|
  {
    if shapes != [] {
      ScatterByContext(slots[shapes[0]..], shapes[1..], initial[1..]);
    }
  }

  lemma {:induction false} GroupOfKept<U>(slots: seq<Slot<U>>, shapes: seq<nat>)
    requires |slots| == Sum(shapes) && AllKept(slots)
    ensures forall i | 0 <= i < |shapes| :: AllKept(Regroup(slots, shapes)[i])
    decreases |shapes|
  {
    if shapes != [] {
      GroupOfKept(slots[shapes[0]..], shapes[1..]);
    }
  }

  lemma {:induction false} FlatKept<U>(slots: seq<seq<Slot<U>>>)
    requires forall j | 0 <= j < |slots| :: AllKept(slots[j])
    ensures AllKept(Flat(slots))
  {
    if slots != [] { FlatKept(slots[1..]); }
  }

  /** With every batch either successful or failed with an error, each context still gets one row per
      input row, and the status it started with. */
  lemma {:induction false} ErrorsKeepEveryPosition<U>(mapped: seq<Batch<U>>, shapes: seq<nat>, initial: seq<FlowStatus>, errorRow: U)
    requires forall j | 0 <= j < |mapped| :: CountPreserving(mapped[j]) && (mapped[j].status.SUCCESS? || mapped[j].status.ERROR?)
    requires |initial| == |shapes|
    ensures var checked := seq(|mapped|, j requires 0 <= j < |mapped| => Checked(mapped[j], true, true, errorRow));
            && (forall j | 0 <= j < |checked| :: CountPreserving(checked[j]))
            && (|Flat(AllSlots(checked))| == Sum(shapes) ==>
                  var w := Scatter(Flat(AllSlots(checked)), shapes, initial);
                  |w| == |shapes| && forall i | 0 <= i < |w| :: |w[i].rows| == shapes[i] && w[i].status == initial[i])
  {
    var checked := seq(|mapped|, j requires 0 <= j < |mapped| => Checked(mapped[j], true, true, errorRow));
    forall j | 0 <= j < |mapped| ensures CountPreserving(checked[j]) && AllKept(Slots(checked[j])) {
      CheckedKeepsPositions(mapped[j], errorRow);
    }
    var slots := Flat(AllSlots(checked));
    FlatKept(AllSlots(checked));
    if |slots| == Sum(shapes) {
      ScatterByContext(slots, shapes, initial);
      GroupOfKept(slots, shapes);
      forall i | 0 <= i < |shapes|
        ensures |KeptRows(Regroup(slots, shapes)[i])| == shapes[i]
        ensures LastStatus(initial[i], Regroup(slots, shapes)[i]) == initial[i]
      {
        KeptStatus(Regroup(slots, shapes)[i], initial[i]);
      }
    }
  }

  lemma {:induction false} KeptStatus<U>(slots: seq<Slot<U>>, initial: FlowStatus)
    requires AllKept(slots)
    ensures |KeptRows(slots)| == |slots| && LastStatus(initial, slots) == initial
  {
    if slots != [] { KeptStatus(slots[..|slots| - 1], initial); }
  }

  // ----- stream reshape -----

  /** Stream reshape: the batches of a context are cut from that context alone. */
  method FillMappedDataStream<T>(origin: seq<seq<T>>, batchSize: nat) returns (mapped: seq<seq<seq<T>>>)
    requires batchSize >= 1
    ensures |mapped| == |origin|
    ensures forall i | 0 <= i < |origin| :: mapped[i] == Chunk(origin[i], batchSize)
  {
    mapped := [];
    for i := 0 to |origin|
      invariant |mapped| == i && forall k | 0 <= k < i :: mapped[k] == Chunk(origin[k], batchSize)
    {
      var batches := CutContext(origin[i], batchSize);
      mapped := mapped + [batches];
    }
  }

  method CutContext<T>(rows: seq<T>, batchSize: nat) returns (batches: seq<seq<T>>)
    requires batchSize >= 1
    ensures batches == Chunk(rows, batchSize)
  {
    var count := (|rows| + batchSize - 1) / batchSize;
    ChunkCount(rows, batchSize);
    batches := [];
    var start: nat := 0;
    for batchIndex := 0 to count
      invariant start <= |rows| && |batches| == batchIndex
      invariant batches + Chunk(rows[start..], batchSize) == Chunk(rows, batchSize)
    {
      assert Chunk(rows[start..], batchSize) != [];
      var n := if batchSize <= |rows| - start then batchSize else |rows| - start;
      CutOne(rows, start, n, batchSize);
      Assoc(batches, [rows[start..start + n]], Chunk(rows[start + n..], batchSize));
      batches := batches + [rows[start..start + n]];
      start := start + n;
    }
    assert Chunk(rows[start..], batchSize) == [];
  }

  lemma {:induction false} CutOne<T>(rows: seq<T>, start: nat, n: nat, size: nat)
    requires size >= 1 && start < |rows| && n == if size <= |rows| - start then size else |rows| - start
    ensures Chunk(rows[start..], size) == [rows[start..start + n]] + Chunk(rows[start + n..], size)
  {
    assert rows[start..][..n] == rows[start..start + n];
    assert rows[start..][n..] == rows[start + n..];
    if start + n == |rows| {
      assert rows[start..start + n] == rows[start..] && rows[start + n..] == [];
    }
  }

  predicate Fatal(s: FlowStatus) {
    s != SUCCESS && s != CONTINUE
  }

  /** What each batch produced, batch by batch. */
  function OutputRows<U>(batches: seq<Batch<U>>): seq<seq<U>> {
    seq(|batches|, j requires 0 <= j < |batches| => batches[j].rows)
  }

  function Folded<U>(batches: seq<Batch<U>>): FlowStatus {
    if batches == [] then SUCCESS
    else
      var before := Folded(batches[..|batches| - 1]);
      if Fatal(before) then before else batches[|batches| - 1].status
  }

  /** Stream write-back: every context gets the outputs of its own batches one after the other, however many
      there are, and a status that follows the batches until one is fatal. */
  method WriteBackStream<U>(mapped: seq<seq<Batch<U>>>) returns (out: seq<Written<U>>)
    ensures |out| == |mapped|
    ensures forall i | 0 <= i < |mapped| :: out[i] == Written(Folded(mapped[i]), Flat(OutputRows(mapped[i])))
  {
    out := [];
    for i := 0 to |mapped|
      invariant |out| == i
      invariant forall k | 0 <= k < i :: out[k] == Written(Folded(mapped[k]), Flat(OutputRows(mapped[k])))
    {
      var w := WriteContext(mapped[i]);
      out := out + [w];
    }
  }

  method WriteContext<U>(batches: seq<Batch<U>>) returns (w: Written<U>)
    ensures w == Written(Folded(batches), Flat(OutputRows(batches)))
  {
    w := Written(SUCCESS, []);
    for j := 0 to |batches|
      invariant w == Written(Folded(batches[..j]), Flat(OutputRows(batches[..j])))
    {
      AppendBatch(batches, j);
      var status := if w.status == SUCCESS || w.status == CONTINUE then batches[j].status else w.status;
      w := Written(status, w.rows + batches[j].rows);
    }
    assert batches[..|batches|] == batches;
  }

  lemma {:induction false} AppendBatch<U>(batches: seq<Batch<U>>, j: nat)
    requires j < |batches|
    ensures batches[..j + 1][..j] == batches[..j]
    ensures Flat(OutputRows(batches[..j + 1])) == Flat(OutputRows(batches[..j])) + batches[j].rows
  {
    assert OutputRows(batches[..j + 1]) == OutputRows(batches[..j]) + [batches[j].rows];
    FlatAppend(OutputRows(batches[..j]), batches[j].rows);
  }

  /** Stream reshape is transparent too: cut into batches, treated row by row and written back, a context is
      what it was, row for row, and a success. */
  lemma {:induction false} StreamRoundTrip<T, U>(ctx: seq<T>, size: nat, f: T -> U)
    requires size >= 1
    ensures var batches := Succeeded(MapCtxs(f, Chunk(ctx, size)));
            Written(Folded(batches), Flat(OutputRows(batches))) == Written(SUCCESS, MapRows(f, ctx))
  {
    var outputs := MapCtxs(f, Chunk(ctx, size));
    ChunkShape(ctx, size);
    FlatMap(f, Chunk(ctx, size));
    assert OutputRows(Succeeded(outputs)) == outputs;
    NoFatal(Succeeded(outputs));
  }

  function CheckedStream<U>(batches: seq<Batch<U>>, errorRow: U): seq<Batch<U>> {
    seq(|batches|, j requires 0 <= j < |batches| => Checked(batches[j], true, false, errorRow))
  }

  /** A batch of a stream unit that fails with an error leaves a single error row in its place among the
      outputs; the status of the context is fatal only if some batch stopped or shut down. */
  lemma {:induction false} StreamErrorsStayInPlace<U>(batches: seq<Batch<U>>, errorRow: U)
    ensures var checked := CheckedStream(batches, errorRow);
            && |OutputRows(checked)| == |batches|
            && (forall j | 0 <= j < |batches| ::
                  OutputRows(checked)[j] == if batches[j].status.ERROR? then [errorRow] else batches[j].rows)
            && (Fatal(Folded(checked)) <==> exists j | 0 <= j < |batches| :: batches[j].status in {STOP, SHUTDOWN})
  {
    var checked := CheckedStream(batches, errorRow);
    forall j | 0 <= j < |batches|
      ensures OutputRows(checked)[j] == if batches[j].status.ERROR? then [errorRow] else batches[j].rows
      ensures Fatal(checked[j].status) <==> batches[j].status in {STOP, SHUTDOWN}
    {
      assert checked[j] == Checked(batches[j], true, false, errorRow);
    }
    FatalIff(checked);
  }

  /** The status of a context is fatal exactly when that of some batch is. */
  lemma {:induction false} FatalIff<U>(batches: seq<Batch<U>>)
    ensures Fatal(Folded(batches)) <==> exists j | 0 <= j < |batches| :: Fatal(batches[j].status)
  {
    if batches != [] {
      var n := |batches| - 1;
      FatalIff(batches[..n]);
      assert forall j | 0 <= j < n :: batches[..n][j] == batches[j];
    }
  }

  /** The first fatal status of a context is the one that stays. */
  lemma {:induction false} FirstFatalStays<U>(batches: seq<Batch<U>>, j: nat)
    requires j < |batches| && Fatal(batches[j].status) && forall k | 0 <= k < j :: !Fatal(batches[k].status)
    ensures Folded(batches) == batches[j].status
  {
    var n := |batches| - 1;
    if j < n {
      FirstFatalStays(batches[..n], j);
    } else {
      NoFatal(batches[..n]);
    }
  }

  /** Without one, the last batch's status stands. */
  lemma {:induction false} NoFatal<U>(batches: seq<Batch<U>>)
    requires forall k | 0 <= k < |batches| :: !Fatal(batches[k].status)
    ensures !Fatal(Folded(batches))
    ensures batches != [] ==> Folded(batches) == batches[|batches| - 1].status
  {
    if batches != [] {
      NoFatal(batches[..|batches| - 1]);
    }
  }
}
