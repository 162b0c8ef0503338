/** The stream-expand data context: blocks of rows arrive, are cached, and are handed to the flow unit
    one row at a time, each row becoming a stream of its own.  A row is one buffer per input port. */
module StreamExpand {
  import opened Basics
  import opened Buffers

  datatype RowKind = Data | NoData | EndFlag

  /** `NoData` stands for rows of placeholders or skipped errors. */
  datatype Row = Row(index: nat, kind: RowKind, data: int)

  /** What an end flag may descend from besides the input of the run: the last row given to the unit, and
      the row an event was sent for.  After a failed stream start (`preError`) the lists of every row are
      dropped. */
  datatype Sources = Sources(last: Option<Row>, event: Option<Row>, preError: bool, dropped: bool)

  /** The fields of the context.  `continuing`: the last status was STATUS_CONTINUE; `waiting`: user
      events sent and not yet delivered; `requested`: an EXPAND_NEXT_STREAM event was generated. */
  datatype Context = Context(
    cache: seq<seq<Row>>, pos: nat,
    cur: nat, received: bool, requested: bool,
    current: Option<Row>, skip: bool,
    endReceived: bool, endGenerated: bool,
    continuing: bool, waiting: nat, finished: bool, src: Sources)

  const NEW_CONTEXT: Context :=
    Context([], 0, 0, false, false, None, false, false, false, false, 0, false, Sources(None, None, false, false))

  /** What one run of the flow unit does: its stream start may fail, and it returns CONTINUE or not and
      sends itself events. */
  datatype Outcome = Outcome(preFails: bool, continuing: bool, sent: nat)

  /** No empty block is ever cached and the read position is inside the first one. */
  ghost predicate Shape(c: Context) {
    && (forall k | 0 <= k < |c.cache| :: c.cache[k] != [])
    && (if c.cache == [] then c.pos == 0 else c.pos <= |c.cache[0]|)
  }

  predicate IsContinue(c: Context, closed: bool) {
    (c.continuing && !closed) || c.waiting > 0
  }

  /** A block that was read over is dropped. */
  function DropRead(c: Context): Context {
    if c.cache != [] && |c.cache[0]| <= c.pos then c.(cache := c.cache[1..], pos := 0) else c
  }

  /** The first unread row; with no empty block cached, there is one in the first block left. */
  function First(c: Context): Option<Row> {
    var c' := DropRead(c);
    if c'.cache == [] || |c'.cache[0]| <= c'.pos then None else Some(c'.cache[0][c'.pos])
  }

  /** The row the context may hand over now. */
  predicate IsNext(c: Context) {
    First(c).Some? && First(c).value.index == c.cur
  }

  /** The unit is given a row with data, unless the stream start failed. */
  function Given(row: Row, src: Sources): bool {
    row.kind == Data && !src.preError
  }

  function Taking(row: Row, src: Sources): Sources {
    Sources(if Given(row, src) then Some(row) else src.last, src.event, src.preError, src.preError)
  }

  function SetInput(c: Context, row: Row): Context {
    c.(current := Some(row), endReceived := c.endReceived || row.kind == EndFlag, skip := !Given(row, c.src),
    src := Taking(row, c.src))
  }

  function Hand(c: Context, row: Row): Context {
    SetInput(c, row).(received := true, endGenerated := false, pos := c.pos + 1, requested := false)
  }

  function ExpandNext(c: Context): Context {
    if IsNext(c) then Hand(DropRead(c), First(c).value) else DropRead(c).(skip := true)
  }

  function Write(c: Context, block: seq<Row>): Context {
    if block == [] then c.(skip := true)
    else
      var c' := c.(cache := c.cache + [block]);
      if c.requested then c'.(skip := true) else ExpandNext(c')
  }

  /** `DataPre` is called for the first row of the stream; if it fails the unit is skipped. */
  predicate PreFailed(c: Context, o: Outcome) {
    o.preFails && c.current.Some? && c.current.value.index == 0 && c.current.value.kind != EndFlag
  }

  /** The user sends events; a closed session takes none. */
  function Sending(c: Context, closed: bool, n: nat): Context {
    if closed || n == 0 then c
    else c.(waiting := c.waiting + n, src := c.src.(event := if c.src.last.Some? then c.src.last else c.src.event))
  }

  function Process(c: Context, closed: bool, o: Outcome): (r: Context)
    ensures r.cache == c.cache && r.pos == c.pos
  {
    if PreFailed(c, o) then c.(skip := false, src := c.src.(preError := true))
    else if c.skip then c.(skip := false)
    else Sending(c.(continuing := o.continuing), closed, o.sent)
  }

  /** The buffer an end flag is made from: the end flag or the data of this run, then the data an event was
      sent for, then a placeholder or error of this run; there may be none. */
  function Parent(c: Context): Option<Row> {
    if c.current.Some? && (c.current.value.kind == EndFlag || (c.current.value.kind == Data && !c.src.dropped))
    then c.current
    else if c.src.event.Some? then c.src.event
    else if c.current.Some? && c.current.value.kind == NoData && !c.src.dropped then c.current
    else None
  }

  /** The sub-stream of the row handed last is complete. */
  predicate NeedEndFlag(c: Context, closed: bool) {
    c.received && !IsContinue(c, closed)
  }

  function Update(c: Context, closed: bool): (r: Context)
    ensures r.cache == c.cache && r.pos == c.pos
  {
    var over := c.endReceived && !IsContinue(c, closed);
    var c' := c.(finished := over, src := if over then c.src.(preError := false) else c.src);
    if NeedEndFlag(c, closed) then c'.(cur := c.cur + 1, received := false) else c'
  }

  predicate WantsEvent(c: Context, closed: bool) {
    !IsContinue(c, closed) && !c.endReceived && IsNext(c) && !c.requested
  }

  /** `GenerateSendEvent` reads the cache, and so drops a finished block, only when it gets that far. */
  function Request(c: Context, closed: bool): Context {
    if IsContinue(c, closed) || c.endReceived then c
    else if WantsEvent(c, closed) then DropRead(c).(requested := true)
    else DropRead(c)
  }

  function Cleared(c: Context): Context {
    c.(current := None, skip := false)
  }

  // ----- reading the cache -----

  function UnreadOf(cache: seq<seq<Row>>, pos: nat): seq<Row> {
    if cache == [] || |cache[0]| < pos then [] else cache[0][pos..] + Flat(cache[1..])
  }

  /** What has arrived and was not handed over yet. */
  function Unread(c: Context): seq<Row> {
    UnreadOf(c.cache, c.pos)
  }

  lemma {:induction false} NextBlock(cache: seq<seq<Row>>, pos: nat)
    requires cache != [] && pos == |cache[0]|
    ensures UnreadOf(cache, pos) == UnreadOf(cache[1..], 0)
  {
    if |cache| > 1 {
      assert cache[1..][0] == cache[1];
      assert Flat(cache[1..]) == cache[1] + Flat(cache[1..][1..]);
    }
  }

  lemma {:induction false} DropReadKeeps(c: Context)
    requires Shape(c)
    ensures Shape(DropRead(c)) && Unread(DropRead(c)) == Unread(c)
    ensures First(c) == if Unread(c) == [] then None else Some(Unread(c)[0])
  {
    if c.cache != [] && |c.cache[0]| <= c.pos { NextBlock(c.cache, c.pos); }
  }

  lemma {:induction false} BlockAppends(cache: seq<seq<Row>>, pos: nat, block: seq<Row>)
    requires if cache == [] then pos == 0 else pos <= |cache[0]|
    ensures UnreadOf(cache + [block], pos) == UnreadOf(cache, pos) + block
  {
    var cache' := cache + [block];
    if cache == [] {
      assert Flat(cache'[1..]) == [];
    } else {
      assert cache'[1..] == cache[1..] + [block];
      FlatAppend(cache[1..], block);
      assert cache'[0] == cache[0];
    }
  }

  lemma {:induction false} HandTakes(c: Context, row: Row)
    requires Shape(c) && c.cache != [] && c.pos < |c.cache[0]|
    ensures Shape(Hand(c, row)) && Unread(c) == [c.cache[0][c.pos]] + Unread(Hand(c, row))
  {
  }

  lemma {:induction false} ExpandNextTakes(c: Context)
    requires Shape(c)
    ensures Shape(ExpandNext(c))
    ensures IsNext(c) <==> Unread(c) != [] && Unread(c)[0].index == c.cur
    ensures IsNext(c) ==> Unread(c) == [First(c).value] + Unread(ExpandNext(c))
    ensures !IsNext(c) ==> Unread(ExpandNext(c)) == Unread(c)
  {
    DropReadKeeps(c);
    if IsNext(c) { HandTakes(DropRead(c), First(c).value); }
  }

  lemma {:induction false} WriteAppends(c: Context, block: seq<Row>)
    requires Shape(c) && block != []
    ensures Shape(c.(cache := c.cache + [block]))
    ensures Unread(c.(cache := c.cache + [block])) == Unread(c) + block
  {
    BlockAppends(c.cache, c.pos, block);
  }

  // ----- runs -----

  /** A run on data, a run on the queued events (the expand event and some user events), an event the
      user sends between runs, and the closing of the session. */
  datatype Action =
    | OnData(block: seq<Row>, o: Outcome)
    | OnEvents(next: bool, users: nat, o: Outcome)
    | Send
    | Close

  /** `pending`: EXPAND_NEXT_STREAM events in the event port.  `arrived` and `handed` record what came in and
      what was expanded; `ran` the rows the process call of the unit was made for; `ends`, for each row whose
      expansion is over, the parent of the end flag its sub-stream got, if it got one. */
  datatype Sys = Sys(c: Context, closed: bool, pending: nat, arrived: seq<Row>, handed: seq<Row>, ran: seq<Row>,
                     ends: seq<Option<Row>>)

  const INIT: Sys := Sys(NEW_CONTEXT, false, 0, [], [], [], [])

  function Taken(c: Context): seq<Row> {
    if c.current.Some? then [c.current.value] else []
  }

  /** The state in the middle of a run, after the input was set. */
  function Mid(s: Sys, c: Context): Sys {
    s.(c := c, handed := s.handed + Taken(c))
  }

  /** The process call is made unless the start failed or the context is skipped. */
  function Ran(c: Context, o: Outcome): seq<Row> {
    if PreFailed(c, o) || c.skip then [] else Taken(c)
  }

  function Processed(s: Sys, o: Outcome): Sys {
    s.(c := Process(s.c, s.closed, o), ran := s.ran + Ran(s.c, o))
  }

  /** The end flag that goes out when the expansion is over, by its parent: none where there is no parent or
      one was generated already. */
  function EndFlagOf(c: Context): Option<Row> {
    if c.endGenerated then None else Parent(c)
  }

  function Updated(s: Sys): Sys {
    if !NeedEndFlag(s.c, s.closed) then s.(c := Update(s.c, s.closed))
    else
      var flag := EndFlagOf(s.c);
      s.(c := Update(s.c.(endGenerated := s.c.endGenerated || flag.Some?), s.closed), ends := s.ends + [flag])
  }

  function Requested(s: Sys): Sys {
    s.(c := Request(s.c, s.closed), pending := s.pending + if WantsEvent(s.c, s.closed) then 1 else 0)
  }

  /** The second half of a run. */
  function Finish(s: Sys, o: Outcome): Sys {
    var s' := Requested(Updated(Processed(s, o)));
    s'.(c := Cleared(s'.c))
  }

  function Delivered(c: Context, users: nat): Context {
    c.(waiting := if users <= c.waiting then c.waiting - users else 0)
  }

  function Step(s: Sys, a: Action): Sys {
    match a
    case OnData(block, o) => Finish(Mid(s.(arrived := s.arrived + block), Write(s.c, block)), o)
    case OnEvents(next, users, o) =>
      var c := Delivered(s.c, users);
      if next && s.pending > 0 then Finish(Mid(s.(pending := s.pending - 1), ExpandNext(c)), o)
      else Finish(Mid(s, c), o)
    case Send => s.(c := Sending(s.c, s.closed, 1))
    case Close => s.(closed := true)
  }

  lemma {:induction false} ShapeKept(c: Context, block: seq<Row>)
    requires Shape(c)
    ensures Shape(Write(c, block))
  {
    if block != [] {
      WriteAppends(c, block);
      if !c.requested { ExpandNextTakes(c.(cache := c.cache + [block])); }
    }
  }

  /** What the matching in front of the context guarantees: rows in index order, nothing after the end
      flag.  An event run delivers events that are there, at least one. */
  ghost predicate Legal(s: Sys, a: Action) {
    match a
    case OnData(block, _) =>
      && (forall k | 0 <= k < |block| :: block[k].index == |s.arrived| + k)
      && (forall k | 0 <= k < |s.arrived| :: s.arrived[k].kind != EndFlag)
      && (forall k | 0 <= k < |block| - 1 :: block[k].kind != EndFlag)
    case OnEvents(next, users, _) => (next || users > 0) && (next ==> s.pending > 0) && users <= s.c.waiting
    case Send => true
    case Close => true
  }

  ghost predicate InOrder(rows: seq<Row>) {
    && (forall k | 0 <= k < |rows| :: rows[k].index == k)
    && forall k | 0 <= k < |rows| - 1 :: rows[k].kind != EndFlag
  }

  ghost predicate Ended(rows: seq<Row>) {
    rows != [] && rows[|rows| - 1].kind == EndFlag
  }

  /** Every row was handed over or is still cached, in order; the index counter, the request flag and the
      event in the port agree. */
  ghost predicate Accounts(s: Sys) {
    && Shape(s.c) && InOrder(s.arrived)
    && s.arrived == s.handed + Unread(s.c)
    && |s.handed| == s.c.cur + (if s.c.received then 1 else 0)
    && |s.ends| == s.c.cur
    && s.pending == (if s.c.requested then 1 else 0)
    && (s.c.requested ==> !s.c.received && Unread(s.c) != [])
    && (s.c.received ==> !s.c.endGenerated)
    && (s.c.endReceived <==> Ended(s.handed))
    && Handed(s.handed, s.c.src.last) && Handed(s.handed, s.c.src.event)
  }

  /** A source is one of the rows handed over, with data. */
  ghost predicate Handed(handed: seq<Row>, source: Option<Row>) {
    source.Some? ==> source.value.index < |handed| && handed[source.value.index] == source.value && source.value.kind == Data
  }

  /** Nothing cached is due without someone taking care of it. */
  ghost predicate Served(c: Context) {
    c.received || c.endReceived || Unread(c) == [] || c.requested
  }

  /** Between runs. */
  ghost predicate Inv(s: Sys) {
    && Accounts(s) && s.c.current == None && !s.c.skip
    && (s.c.finished ==> s.c.endReceived)
    && (s.c.received ==> s.c.continuing || s.c.waiting > 0)
    && Served(s.c)
  }

  // ----- setting the input -----

  /** The next cached row is due exactly when no row is being expanded. */
  lemma {:induction false} DueIffIdle(s: Sys)
    requires Accounts(s)
    ensures IsNext(s.c) <==> Unread(s.c) != [] && !s.c.received
  {
    ExpandNextTakes(s.c);
    if Unread(s.c) != [] {
      assert s.arrived[|s.handed|] == Unread(s.c)[0];
    }
  }

  lemma {:induction false} EndedOnlyLast(rows: seq<Row>, n: nat)
    requires InOrder(rows) && n < |rows|
    ensures !Ended(rows[..n])
  {
  }

  /** The fields of a context that has just been handed its next row. */
  ghost predicate HandedOver(c: Context, d: Context, row: Row) {
    && d.current == Some(row) && d.cur == c.cur && d.received && !d.requested && !d.endGenerated
    && d.endReceived == (c.endReceived || row.kind == EndFlag)
    && d.src == Taking(row, c.src)
  }

  lemma {:induction false} HandIsHandedOver(c: Context)
    requires IsNext(c)
    ensures HandedOver(c, ExpandNext(c), First(c).value)
  {
    var d := DropRead(c);
    assert d.cur == c.cur && d.endReceived == c.endReceived && d.src == c.src;
  }

  /** Handing over the due row, however it was asked for. */
  lemma {:induction false} HandKeeps(s: Sys)
    requires Accounts(s) && s.c.current == None && IsNext(s.c)
    ensures Accounts(Mid(s.(pending := 0), ExpandNext(s.c))) && Served(ExpandNext(s.c))
    ensures Taken(ExpandNext(s.c)) == [s.arrived[|s.handed|]]
  {
    DueIffIdle(s);
    ExpandNextTakes(s.c);
    HandIsHandedOver(s.c);
    HandAccounts(s, ExpandNext(s.c), First(s.c).value);
  }

  lemma {:induction false} HandAccounts(s: Sys, d: Context, row: Row)
    requires Accounts(s) && !s.c.received && HandedOver(s.c, d, row) && Shape(d) && Unread(s.c) == [row] + Unread(d)
    ensures Accounts(Mid(s.(pending := 0), d)) && |s.handed| < |s.arrived| && Taken(d) == [s.arrived[|s.handed|]]
  {
    assert s.handed + [row] + Unread(d) == s.arrived;
    EndedOnlyLast(s.arrived, |s.handed|);
    assert s.arrived[..|s.handed|] == s.handed;
    assert s.arrived[|s.handed|] == (s.handed + [row] + Unread(d))[|s.handed|] == row;
    HandedGrows(s.handed, row, s.c.src.last);
    HandedGrows(s.handed, row, s.c.src.event);
  }

  lemma {:induction false} HandedGrows(handed: seq<Row>, row: Row, source: Option<Row>)
    requires Handed(handed, source)
    ensures Handed(handed + [row], source)
    ensures row.index == |handed| && row.kind == Data ==> Handed(handed + [row], Some(row))
  {
  }

  lemma {:induction false} PassKeeps(s: Sys)
    requires Accounts(s) && s.c.current == None && !IsNext(s.c)
    ensures Accounts(Mid(s, ExpandNext(s.c))) && Taken(ExpandNext(s.c)) == [] && Served(ExpandNext(s.c))
  {
    ExpandNextTakes(s.c);
    DueIffIdle(s);
    assert s.handed + [] == s.handed;
  }

  function Cached(s: Sys, block: seq<Row>): Sys {
    s.(arrived := s.arrived + block, c := s.c.(cache := s.c.cache + [block]))
  }

  lemma {:induction false} CachedKeeps(s: Sys, block: seq<Row>)
    requires Accounts(s) && Legal(s, OnData(block, Outcome(false, false, 0))) && block != []
    ensures Accounts(Cached(s, block))
  {
    WriteAppends(s.c, block);
    assert s.handed + (Unread(s.c) + block) == s.arrived + block;
    assert InOrder(s.arrived + block);
  }

  lemma {:induction false} WriteValue(s: Sys, block: seq<Row>)
    requires Shape(s.c) && Shape(Cached(s, block).c) && block != [] && !s.c.requested
    ensures Mid(s.(arrived := s.arrived + block), Write(s.c, block)) == Mid(Cached(s, block), ExpandNext(Cached(s, block).c))
  {
  }

  lemma {:induction false} WriteAsideKeeps(s: Sys, block: seq<Row>)
    requires Accounts(s) && Served(s.c) && s.c.current == None && (block == [] || (s.c.requested && Accounts(Cached(s, block))))
    ensures Accounts(Mid(s.(arrived := s.arrived + block), Write(s.c, block))) && Served(Write(s.c, block))
  {
    assert s.handed + [] == s.handed;
    if block == [] { assert s.arrived + block == s.arrived; }
  }

  lemma {:induction false} WriteKeeps(s: Sys, block: seq<Row>)
    requires Accounts(s) && Served(s.c) && s.c.current == None && Legal(s, OnData(block, Outcome(false, false, 0)))
    ensures Accounts(Mid(s.(arrived := s.arrived + block), Write(s.c, block))) && Served(Write(s.c, block))
  {
    if block != [] { CachedKeeps(s, block); }
    if block == [] || s.c.requested {
      WriteAsideKeeps(s, block);
    } else {
      WriteValue(s, block);
      var s' := Cached(s, block);
      if IsNext(s'.c) { HandKeeps(s'); } else { PassKeeps(s'); }
    }
  }

  // ----- finishing the run -----

  lemma {:induction false} SendingKeeps(s: Sys, n: nat)
    requires Accounts(s)
    ensures Accounts(s.(c := Sending(s.c, s.closed, n)))
  {
  }

  lemma {:induction false} ProcessedKeeps(s: Sys, o: Outcome)
    requires Accounts(s) && Served(s.c)
    ensures Accounts(Processed(s, o)) && Served(Processed(s, o).c)
  {
    if !PreFailed(s.c, o) && !s.c.skip {
      var s' := s.(c := s.c.(continuing := o.continuing));
      assert Accounts(s');
      SendingKeeps(s', o.sent);
    }
  }

  /** The index moves on exactly when the expansion of the current row is over, and an end flag is recorded
      for that row. */
  lemma {:induction false} UpdatedKeeps(s: Sys)
    requires Accounts(s)
    ensures Accounts(Updated(s))
    ensures Updated(s).c.received ==> IsContinue(Updated(s).c, s.closed)
    ensures Updated(s).c.finished ==> s.c.endReceived
    ensures Served(s.c) && IsContinue(Updated(s).c, s.closed) ==> Served(Updated(s).c)
  {
    if NeedEndFlag(s.c, s.closed) {
      var s' := Updated(s);
      assert |s'.ends| == s'.c.cur == s.c.cur + 1 && !s'.c.received;
    } else {
      assert Updated(s) == s.(c := Update(s.c, s.closed));
    }
  }

  lemma {:induction false} RequestedKeeps(s: Sys)
    requires Accounts(s) && (s.c.received ==> IsContinue(s.c, s.closed)) && (s.c.finished ==> s.c.endReceived)
    requires IsContinue(s.c, s.closed) ==> Served(s.c)
    ensures Inv(Requested(s).(c := Cleared(Requested(s).c)))
  {
    DropReadKeeps(s.c);
    DueIffIdle(s);
  }

  lemma {:induction false} FinishKeeps(s: Sys, o: Outcome)
    requires Accounts(s) && Served(s.c)
    ensures Inv(Finish(s, o))
  {
    ProcessedKeeps(s, o);
    UpdatedKeeps(Processed(s, o));
    RequestedKeeps(Updated(Processed(s, o)));
  }

  ghost predicate SameRecord(s: Sys, t: Sys) {
    && s.handed == t.handed && s.arrived == t.arrived && s.closed == t.closed
    && s.c.continuing == t.c.continuing && s.c.waiting == t.c.waiting
  }

  lemma {:induction false} UpdatedRecords(s: Sys)
    ensures SameRecord(s, Updated(s))
  {
  }

  lemma {:induction false} RequestedRecords(s: Sys)
    requires Shape(s.c)
    ensures SameRecord(s, Requested(s))
  {
  }

  lemma {:induction false} FinishRecords(s: Sys, o: Outcome)
    requires Shape(s.c)
    ensures SameRecord(Processed(s, o), Finish(s, o))
  {
    UpdatedRecords(Processed(s, o));
    RequestedRecords(Updated(Processed(s, o)));
  }

  lemma {:induction false} DeliveredKeeps(s: Sys, users: nat)
    requires Inv(s)
    ensures Accounts(s.(c := Delivered(s.c, users))) && Accounts(Mid(s, Delivered(s.c, users)))
    ensures Served(Delivered(s.c, users))
  {
    assert s.handed + [] == s.handed;
  }

  /** The expand event hands over the due row. */
  lemma {:induction false} NextKeeps(s: Sys, users: nat)
    requires Inv(s) && s.pending > 0
    ensures |s.handed| < |s.arrived|
    ensures Accounts(Mid(s.(pending := s.pending - 1), ExpandNext(Delivered(s.c, users))))
    ensures Taken(ExpandNext(Delivered(s.c, users))) == [s.arrived[|s.handed|]]
    ensures Served(ExpandNext(Delivered(s.c, users)))
  {
    DeliveredKeeps(s, users);
    var s' := s.(c := Delivered(s.c, users));
    DueIffIdle(s');
    HandKeeps(s');
  }

  lemma {:induction false} EventsKeep(s: Sys, next: bool, users: nat, o: Outcome)
    requires Inv(s) && Legal(s, OnEvents(next, users, o))
    ensures Inv(Step(s, OnEvents(next, users, o)))
  {
    if next {
      NextKeeps(s, users);
      FinishKeeps(Mid(s.(pending := s.pending - 1), ExpandNext(Delivered(s.c, users))), o);
    } else {
      DeliveredKeeps(s, users);
      FinishKeeps(Mid(s, Delivered(s.c, users)), o);
    }
  }

  lemma {:induction false} StepKeeps(s: Sys, a: Action)
    requires Inv(s) && Legal(s, a)
    ensures Inv(Step(s, a))
  {
    match a
    case OnData(block, o) =>
      WriteKeeps(s, block);
      FinishKeeps(Mid(s.(arrived := s.arrived + block), Write(s.c, block)), o);
    case OnEvents(next, users, o) => EventsKeep(s, next, users, o);
    case Send => SendingKeeps(s, 1);
    case Close =>
  }

  // ----- every run -----

  ghost predicate AllLegal(s: Sys, run: seq<Action>)
    decreases |run|
  {
    run == [] || (Legal(s, run[0]) && AllLegal(Step(s, run[0]), run[1..]))
  }

  function Run(s: Sys, run: seq<Action>): Sys
    decreases |run|
  {
    if run == [] then s else Run(Step(s, run[0]), run[1..])
  }

  lemma {:induction false} RunKeeps(s: Sys, run: seq<Action>)
    requires Inv(s) && AllLegal(s, run)
    ensures Inv(Run(s, run))
    decreases |run|
  {
    if run != [] {
      StepKeeps(s, run[0]);
      RunKeeps(Step(s, run[0]), run[1..]);
    }
  }

  lemma {:induction false} InitInv()
    ensures Inv(INIT)
  {
  }

  ghost predicate LegalRun(run: seq<Action>) {
    AllLegal(INIT, run)
  }

  function After(run: seq<Action>): Sys {
    Run(INIT, run)
  }

  lemma {:induction false} Always(run: seq<Action>)
    requires LegalRun(run)
    ensures Inv(After(run))
  {
    InitInv();
    RunKeeps(INIT, run);
  }

  /** Whatever the interleaving of blocks, events, user continues and the close, the unit is handed the
      arrived rows in index order, each once, and gets row n+1 only after the expansion of row n is
      over. */
  lemma {:induction false} HandedInOrder(run: seq<Action>)
    requires LegalRun(run)
    ensures var s := After(run);
            && s.handed <= s.arrived
            && (forall k | 0 <= k < |s.handed| :: s.handed[k].index == k)
            && |s.ends| <= |s.handed| <= |s.ends| + 1
  {
    Always(run);
    var s := After(run);
    assert s.arrived[..|s.handed|] == s.handed;
  }

  lemma {:induction false} DataOneAtATime(s: Sys, block: seq<Row>)
    requires Inv(s) && Legal(s, OnData(block, Outcome(false, false, 0)))
    ensures s.c.received ==> Taken(Write(s.c, block)) == []
  {
    if s.c.received && block != [] {
      CachedKeeps(s, block);
      DueIffIdle(Cached(s, block));
    }
  }

  lemma {:induction false} EventsOneAtATime(s: Sys, next: bool, users: nat, o: Outcome)
    requires Inv(s) && Legal(s, OnEvents(next, users, o))
    ensures var s' := Step(s, OnEvents(next, users, o));
            s.handed <= s'.handed && |s'.handed| <= |s.handed| + 1 && (s.c.received ==> s'.handed == s.handed)
  {
    if next {
      EventHandsNext(s, users, o);
    } else {
      FinishRecords(Mid(s, Delivered(s.c, users)), o);
    }
  }

  /** One run hands over at most one row, and no row is handed over while one is being expanded. */
  lemma {:induction false} OneAtATime(s: Sys, a: Action)
    requires Inv(s) && Legal(s, a)
    ensures s.handed <= Step(s, a).handed
    ensures |Step(s, a).handed| <= |s.handed| + 1
    ensures s.c.received ==> Step(s, a).handed == s.handed
  {
    match a
    case OnData(block, o) =>
      ShapeKept(s.c, block);
      DataOneAtATime(s, block);
      FinishRecords(Mid(s.(arrived := s.arrived + block), Write(s.c, block)), o);
    case OnEvents(next, users, o) => EventsOneAtATime(s, next, users, o);
    case Send =>
    case Close =>
  }

  /** At most one expand event is ever outstanding, and there is a row for it to hand over. */
  lemma {:induction false} OneEventOutstanding(run: seq<Action>)
    requires LegalRun(run)
    ensures After(run).pending <= 1
    ensures After(run).pending == 1 ==> |After(run).handed| < |After(run).arrived|
  {
    Always(run);
  }

  /** A cached row is stranded: nothing continues, and no event will hand it over. */
  ghost predicate Stranded(s: Sys) {
    |s.handed| < |s.arrived| && !IsContinue(s.c, s.closed) && s.pending == 0
  }

  /** A row is stranded exactly when the session was closed while another row was being expanded and no user
      event is on its way. */
  lemma {:induction false} StrandedIff(run: seq<Action>)
    requires LegalRun(run)
    ensures var s := After(run);
            Stranded(s) <==> |s.handed| < |s.arrived| && s.closed && s.c.received && s.c.waiting == 0
  {
    Always(run);
    var s := After(run);
    if s.pending == 0 { Idle(s); }
  }

  /** The event does hand over the next row. */
  lemma {:induction false} EventHandsNext(s: Sys, users: nat, o: Outcome)
    requires Inv(s) && s.pending > 0
    ensures |s.handed| < |s.arrived|
    ensures Step(s, OnEvents(true, users, o)).handed == s.handed + [s.arrived[|s.handed|]]
  {
    NextKeeps(s, users);
    FinishRecords(Mid(s.(pending := s.pending - 1), ExpandNext(Delivered(s.c, users))), o);
  }

  /** A context is disposed of only when everything, the end flag included, was handed over. */
  lemma {:induction false} FinishedIsComplete(run: seq<Action>)
    requires LegalRun(run) && After(run).c.finished
    ensures After(run).handed == After(run).arrived && Ended(After(run).arrived)
  {
    Always(run);
    var s := After(run);
    assert s.arrived[|s.handed| - 1].kind == EndFlag;
    assert s.arrived == s.handed + [];
  }

  /** Nothing that decides whether a context is finished differs. */
  ghost predicate SameEnd(c: Context, d: Context) {
    d.endReceived == c.endReceived && d.continuing == c.continuing && d.waiting == c.waiting
  }

  lemma {:induction false} UpdateFinished(c: Context, closed: bool)
    ensures var d := Update(c, closed); SameEnd(c, d) && (d.finished <==> d.endReceived && !IsContinue(d, closed))
  {
  }

  lemma {:induction false} RequestFinished(c: Context, closed: bool)
    ensures SameEnd(c, Request(c, closed)) && Request(c, closed).finished == c.finished
  {
  }

  lemma {:induction false} UpdatedFinished(s: Sys)
    ensures var d := Updated(s).c;
            Updated(s).closed == s.closed && (d.finished <==> d.endReceived && !IsContinue(d, s.closed))
  {
    if NeedEndFlag(s.c, s.closed) {
      UpdateFinished(s.c.(endGenerated := s.c.endGenerated || EndFlagOf(s.c).Some?), s.closed);
    } else {
      UpdateFinished(s.c, s.closed);
    }
  }

  lemma {:induction false} RequestedFinished(s: Sys)
    ensures Requested(s).c == Request(s.c, s.closed) && Requested(s).closed == s.closed
  {
  }

  lemma {:induction false} FinishFinished(s: Sys, o: Outcome)
    ensures var d := Finish(s, o).c;
            Finish(s, o).closed == s.closed && (d.finished <==> d.endReceived && !IsContinue(d, s.closed))
  {
    var p := Processed(s, o);
    var u := Updated(p);
    UpdatedFinished(p);
    RequestedFinished(u);
    RequestFinished(u.c, u.closed);
    var d := Finish(s, o).c;
    assert d == Cleared(Requested(u).c);
    assert SameEnd(u.c, d) && d.finished == u.c.finished;
  }

  /** And it is, by the run after which the end flag was handed over and the unit neither continues nor waits
      for an event. */
  lemma {:induction false} FinishedIff(s: Sys, a: Action)
    requires Inv(s) && Legal(s, a) && (a.OnData? || a.OnEvents?)
    ensures var s' := Step(s, a); s'.c.finished <==> Ended(s'.handed) && !IsContinue(s'.c, s'.closed)
  {
    StepKeeps(s, a);
    assert Accounts(Step(s, a));
    match a
    case OnData(block, o) => FinishFinished(Mid(s.(arrived := s.arrived + block), Write(s.c, block)), o);
    case OnEvents(next, users, o) =>
      var c := Delivered(s.c, users);
      if next && s.pending > 0 {
        FinishFinished(Mid(s.(pending := s.pending - 1), ExpandNext(c)), o);
      } else {
        FinishFinished(Mid(s, c), o);
      }
  }

  lemma {:induction false} Idle(s: Sys)
    requires Inv(s) && s.pending == 0
    ensures s.c.received || s.handed == s.arrived
  {
    if s.c.endReceived {
      assert s.arrived[|s.handed| - 1].kind == EndFlag;
    }
    if Unread(s.c) == [] { assert s.handed + [] == s.handed; }
  }

  const NEXT: Action := OnEvents(true, 0, Outcome(false, false, 0))

  lemma {:induction false} NextStep(s: Sys)
    requires s.pending > 0
    ensures Step(s, NEXT) == Finish(Mid(s.(pending := s.pending - 1), ExpandNext(Delivered(s.c, 0))), NEXT.o)
  {
  }

  lemma {:induction false} QuietFinish(m: Sys, o: Outcome)
    requires Shape(m.c) && !m.closed && !m.c.continuing && m.c.waiting == 0 && !o.continuing && o.sent == 0
    ensures !Finish(m, o).closed && !IsContinue(Finish(m, o).c, false) && Finish(m, o).arrived == m.arrived
  {
    FinishRecords(m, o);
    QuietProcess(m.c, o);
  }

  lemma {:induction false} QuietStep(s: Sys)
    requires Inv(s) && s.pending > 0 && !s.closed && !IsContinue(s.c, false)
    ensures !Step(s, NEXT).closed && !IsContinue(Step(s, NEXT).c, false) && Step(s, NEXT).arrived == s.arrived
  {
    NextStep(s);
    var c := Delivered(s.c, 0);
    ExpandNextTakes(c);
    ExpandStatus(c);
    QuietFinish(Mid(s.(pending := s.pending - 1), ExpandNext(c)), NEXT.o);
  }

  lemma {:induction false} ExpandStatus(c: Context)
    ensures ExpandNext(c).continuing == c.continuing && ExpandNext(c).waiting == c.waiting
  {
  }

  lemma {:induction false} QuietProcess(c: Context, o: Outcome)
    requires !c.continuing && c.waiting == 0 && !o.continuing && o.sent == 0
    ensures !Process(c, false, o).continuing && Process(c, false, o).waiting == 0
  {
  }

  /** The event loop alone drains the cache: as long as the unit does not continue, the queued events
      hand over every row that arrived. */
  lemma {:induction false} EventsDrain(s: Sys) returns (run: seq<Action>)
    requires Inv(s) && !s.closed && !IsContinue(s.c, false)
    ensures AllLegal(s, run) && Run(s, run).handed == s.arrived && Run(s, run).arrived == s.arrived
    decreases |s.arrived| - |s.handed|
  {
    if s.pending == 0 {
      Idle(s);
      run := [];
    } else {
      EventHandsNext(s, 0, NEXT.o);
      StepKeeps(s, NEXT);
      QuietStep(s);
      var rest := EventsDrain(Step(s, NEXT));
      run := [NEXT] + rest;
      assert run[1..] == rest;
    }
  }

  const TWO_ROWS: seq<Row> := [Row(0, Data, 0), Row(1, Data, 0)]
  const FIRST_DATA: Action := OnData(TWO_ROWS, Outcome(false, true, 0))

  lemma {:induction false} FirstWrite(block: seq<Row>)
    requires block != [] && block[0].index == 0
    ensures Write(NEW_CONTEXT, block) == Hand(NEW_CONTEXT.(cache := [block]), block[0])
  {
    var c := NEW_CONTEXT.(cache := [] + [block]);
    assert c.cache == [block];
    assert DropRead(c) == c && First(c) == Some(block[0]);
  }

  lemma {:induction false} AfterFirstData()
    ensures Legal(INIT, FIRST_DATA)
    ensures var s := Step(INIT, FIRST_DATA);
            && s.c.continuing && s.c.waiting == 0 && !s.closed && s.pending == 0 && s.c.received && s.c.src.event == None
            && s.arrived == TWO_ROWS && s.handed == [TWO_ROWS[0]] && s.ends == []
  {
    var c := NEW_CONTEXT.(cache := [TWO_ROWS]);
    FirstWrite(TWO_ROWS);
    var m := Mid(INIT.(arrived := INIT.arrived + TWO_ROWS), Hand(c, TWO_ROWS[0]));
    var p := Processed(m, FIRST_DATA.o);
    assert Updated(p) == p;
    assert Requested(p) == p;
  }

  lemma {:induction false} TwoSteps(s: Sys, a: Action, b: Action)
    ensures Legal(s, a) && Legal(Step(s, a), b) ==> AllLegal(s, [a, b])
    ensures Run(s, [a, b]) == Step(Step(s, a), b)
  {
    var t := Step(s, a);
    assert [a, b][1..] == [b] && [b][1..] == [];
    assert AllLegal(Step(t, b), []) && Run(Step(t, b), []) == Step(t, b);
    assert Legal(t, b) ==> AllLegal(t, [b]);
    assert Run(t, [b]) == Step(t, b);
  }

  /** It happens: closing the session while a unit continues leaves a cached row without an event. */
  lemma {:induction false} CloseCanStrand()
    ensures LegalRun([FIRST_DATA, Close]) && Stranded(After([FIRST_DATA, Close]))
  {
    InitInv();
    AfterFirstData();
    TwoSteps(INIT, FIRST_DATA, Close);
  }

  // ----- the end flags of the sub-streams -----

  /** A run, as opposed to what happens between runs. */
  predicate IsRun(a: Action) {
    a.OnData? || a.OnEvents?
  }

  /** The middle of the run `a`. */
  function MidOf(s: Sys, a: Action): Sys
    requires IsRun(a)
  {
    match a
    case OnData(block, _) => Mid(s.(arrived := s.arrived + block), Write(s.c, block))
    case OnEvents(next, users, _) =>
      if next && s.pending > 0 then Mid(s.(pending := s.pending - 1), ExpandNext(Delivered(s.c, users)))
      else Mid(s, Delivered(s.c, users))
  }

  lemma {:induction false} MidKeeps(s: Sys, a: Action)
    requires Inv(s) && Legal(s, a) && IsRun(a)
    ensures Shape(MidOf(s, a).c) && Step(s, a) == Finish(MidOf(s, a), a.o)
    ensures Accounts(MidOf(s, a)) && Served(MidOf(s, a).c)
  {
    match a
    case OnData(block, o) => WriteKeeps(s, block);
    case OnEvents(next, users, o) =>
      if next { NextKeeps(s, users); } else { DeliveredKeeps(s, users); }
  }

  /** `d` is `c` with a row handed over, or none. */
  ghost predicate Input(c: Context, d: Context) {
    && d.cur == c.cur && d.src.event == c.src.event && d.src.preError == c.src.preError
    && (d.current == None ==> d.received == c.received)
    && (d.current.Some? ==> d.received && d.src.dropped == c.src.preError)
  }

  lemma {:induction false} HandInput(c: Context, row: Row)
    ensures Input(c, Hand(c, row))
  {
  }

  lemma {:induction false} DropInput(c: Context, d: Context)
    requires Input(DropRead(c), d)
    ensures Input(c, d)
  {
  }

  lemma {:induction false} ExpandInput(c: Context)
    requires c.current == None
    ensures Input(c, ExpandNext(c))
  {
    var d := DropRead(c);
    if IsNext(c) {
      HandInput(d, First(c).value);
    } else {
      assert Input(d, d.(skip := true));
    }
    DropInput(c, ExpandNext(c));
  }

  lemma {:induction false} DataInput(s: Sys, block: seq<Row>)
    requires Inv(s) && Legal(s, OnData(block, Outcome(false, false, 0)))
    ensures Input(s.c, Write(s.c, block))
  {
    if block != [] {
      WriteAppends(s.c, block);
      ExpandInput(s.c.(cache := s.c.cache + [block]));
    }
  }

  /** What the middle of a run knows of the row it expands. */
  lemma {:induction false} MidInput(s: Sys, a: Action)
    requires Inv(s) && Legal(s, a) && IsRun(a)
    ensures var m := MidOf(s, a);
            m.closed == s.closed && m.ends == s.ends && m.handed == s.handed + Taken(m.c) && Input(s.c, m.c)
  {
    match a
    case OnData(block, o) => DataInput(s, block);
    case OnEvents(next, users, o) => ExpandInput(Delivered(s.c, users));
  }

  /** The expansion of a row ends in this run. */
  ghost predicate Completes(s: Sys, a: Action) {
    |Step(s, a).ends| > |s.ends|
  }

  lemma {:induction false} NoSendsWhenOver(c: Context, closed: bool, o: Outcome)
    requires NeedEndFlag(Process(c, closed, o), closed)
    ensures c.received && Parent(Process(c, closed, o)) == Parent(c) && Process(c, closed, o).endGenerated == c.endGenerated
  {
  }

  /** A run that ends an expansion records the parent chosen for its end flag. */
  lemma {:induction false} FinishEnds(m: Sys, o: Outcome)
    requires Accounts(m)
    ensures var need := NeedEndFlag(Process(m.c, m.closed, o), m.closed);
            && (need ==> m.c.received)
            && Finish(m, o).ends == if need then m.ends + [Parent(m.c)] else m.ends
  {
    var p := Processed(m, o);
    if NeedEndFlag(p.c, m.closed) { NoSendsWhenOver(m.c, m.closed, o); }
    assert Finish(m, o).ends == Updated(p).ends;
  }

  /** The row whose expansion the run would end. */
  function Expanded(s: Sys, a: Action): Option<Row> {
    if !IsRun(a) then None
    else
      var rows := MidOf(s, a).handed;
      if s.c.cur < |rows| then Some(rows[s.c.cur]) else None
  }

  /** Its sub-stream gets an end flag of its own. */
  ghost predicate EndsOwn(s: Sys, a: Action) {
    var r := Expanded(s, a);
    r.Some?
    && if s.c.received then s.c.src.event == r
       else r.value.kind == EndFlag || (!s.c.src.preError && (r.value.kind == Data || s.c.src.event == None))
  }

  /** Its sub-stream gets no end flag. */
  ghost predicate EndsBare(s: Sys, a: Action) {
    var r := Expanded(s, a);
    s.c.src.event == None && r.Some? && (s.c.received || (r.value.kind != EndFlag && s.c.src.preError))
  }

  /** The end flag of row n's sub-stream descends from row n exactly if: the row was already being expanded
      and an event was sent for it; or it was handed over in this run and is the end flag of the stream, or
      the stream start did not fail and it has data or no event was ever sent.  There is no end flag at all
      exactly if no event was ever sent for a row and the row was already being expanded or its lists were
      dropped.  Otherwise the end flag descends from an earlier row. */
  lemma {:induction false} EndFlagIff(s: Sys, a: Action)
    requires Inv(s) && Legal(s, a) && Completes(s, a)
    ensures IsRun(a) && Step(s, a).c.cur == s.c.cur + 1 && s.c.cur < |Step(s, a).handed|
    ensures var s' := Step(s, a); var n := s.c.cur;
            && s'.ends == s.ends + [s'.ends[n]]
            && Expanded(s, a) == Some(s'.handed[n])
            && (s'.ends[n] == Some(s'.handed[n]) <==> EndsOwn(s, a))
            && (s'.ends[n] == None <==> EndsBare(s, a))
            && (!EndsOwn(s, a) && !EndsBare(s, a) ==>
                  s'.ends[n].Some? && s'.ends[n].value.index < n && s'.handed[s'.ends[n].value.index] == s'.ends[n].value)
  {
    if IsRun(a) {
      MidKeeps(s, a);
      MidInput(s, a);
      var m := MidOf(s, a);
      FinishEnds(m, a.o);
      FinishRecords(m, a.o);
      assert m.c.received && |m.handed| == m.c.cur + 1;
      ParentCases(s, m);
      FinishKeeps(m, a.o);
    }
  }

  lemma {:induction false} ParentCases(s: Sys, m: Sys)
    requires Inv(s) && Accounts(m) && m.c.received && Input(s.c, m.c) && m.handed == s.handed + Taken(m.c)
    ensures var r := m.handed[s.c.cur]; var p := Parent(m.c);
            && (p == Some(r) <==>
                  if s.c.received then s.c.src.event == Some(r)
                  else r.kind == EndFlag || (!s.c.src.preError && (r.kind == Data || s.c.src.event == None)))
            && (p == None <==> s.c.src.event == None && (s.c.received || (r.kind != EndFlag && s.c.src.preError)))
            && (p.Some? && p != Some(r) ==> p.value.index < s.c.cur && m.handed[p.value.index] == p.value)
  {
    var r := m.handed[s.c.cur];
    assert m.arrived[s.c.cur] == r;
    assert |m.handed| == m.c.cur + 1;
  }

  /** All end flags so far went to the sub-streams they belong to. */
  ghost predicate OwnSoFar(s: Sys) {
    Own(s.ends, s.handed)
  }

  ghost predicate Own(ends: seq<Option<Row>>, handed: seq<Row>) {
    |ends| <= |handed| && forall n | 0 <= n < |ends| :: ends[n] == Some(handed[n])
  }

  lemma {:induction false} OwnGrows(ends: seq<Option<Row>>, handed: seq<Row>, handed': seq<Row>, flag: Option<Row>)
    requires |ends| <= |handed| && handed <= handed'
    ensures Own(ends, handed') <==> Own(ends, handed)
    ensures |ends| < |handed'| ==> (Own(ends + [flag], handed') <==> Own(ends, handed) && flag == Some(handed'[|ends|]))
  {
    if |ends| < |handed'| && Own(ends + [flag], handed') {
      assert forall n | 0 <= n < |ends| :: (ends + [flag])[n] == ends[n];
    }
  }

  ghost predicate AllOwn(s: Sys, run: seq<Action>)
    decreases |run|
  {
    run == [] || ((Completes(s, run[0]) ==> EndsOwn(s, run[0])) && AllOwn(Step(s, run[0]), run[1..]))
  }

  lemma {:induction false} OwnStep(s: Sys, a: Action)
    requires Inv(s) && Legal(s, a)
    ensures OwnSoFar(Step(s, a)) <==> OwnSoFar(s) && (Completes(s, a) ==> EndsOwn(s, a))
  {
    OneAtATime(s, a);
    var s' := Step(s, a);
    if Completes(s, a) {
      EndFlagIff(s, a);
      OwnGrows(s.ends, s.handed, s'.handed, s'.ends[s.c.cur]);
    } else {
      EndsStay(s, a);
      OwnGrows(s.ends, s.handed, s'.handed, None);
    }
  }

  lemma {:induction false} EndsStay(s: Sys, a: Action)
    requires Inv(s) && Legal(s, a)
    ensures s.ends <= Step(s, a).ends
  {
    if IsRun(a) {
      MidKeeps(s, a);
      MidInput(s, a);
      FinishEnds(MidOf(s, a), a.o);
    }
  }

  lemma {:induction false} OwnRun(s: Sys, run: seq<Action>)
    requires Inv(s) && AllLegal(s, run)
    ensures OwnSoFar(Run(s, run)) <==> OwnSoFar(s) && AllOwn(s, run)
    decreases |run|
  {
    if run != [] {
      StepKeeps(s, run[0]);
      OwnStep(s, run[0]);
      OwnRun(Step(s, run[0]), run[1..]);
    }
  }

  /** Over a whole run every finished row's sub-stream has got its own end flag exactly if every run that
      ended an expansion met the condition. */
  lemma {:induction false} EveryEndFlagOwnIff(run: seq<Action>)
    requires LegalRun(run)
    ensures OwnSoFar(After(run)) <==> AllOwn(INIT, run)
  {
    InitInv();
    OwnRun(INIT, run);
  }

  /** A closed session ends the expansion of a row in its next run. */
  lemma {:induction false} ClosedCompletes(s: Sys, block: seq<Row>, o: Outcome)
    requires Inv(s) && Legal(s, OnData(block, o)) && s.closed && s.c.received && s.c.waiting == 0 && block != []
    ensures Completes(s, OnData(block, o))
  {
    var a := OnData(block, o);
    MidKeeps(s, a);
    FinishEnds(MidOf(s, a), o);
    DataOneAtATime(s, block);
    WaitsAside(s, block);
  }

  lemma {:induction false} WaitsAside(s: Sys, block: seq<Row>)
    requires Inv(s) && Legal(s, OnData(block, Outcome(false, false, 0))) && s.c.received && block != []
    ensures var c := Write(s.c, block);
            c.skip && c.received && c.current == None && c.waiting == s.c.waiting && c.continuing == s.c.continuing
  {
    CachedKeeps(s, block);
    DueIffIdle(Cached(s, block));
  }

  /** Closing a session while a unit continues that never sent an event costs the row its end flag. */
  lemma {:induction false} ClosedBare(s: Sys, block: seq<Row>, o: Outcome)
    requires Inv(s) && Legal(s, OnData(block, o)) && block != []
    requires s.closed && s.c.received && s.c.waiting == 0 && s.c.src.event == None
    ensures Step(s, OnData(block, o)).ends == s.ends + [None]
  {
    ClosedCompletes(s, block, o);
    EndFlagIff(s, OnData(block, o));
  }

  const THIRD: Action := OnData([Row(2, Data, 0)], Outcome(false, false, 0))

  lemma {:induction false} ThreeSteps(s: Sys, a: Action, b: Action, c: Action)
    requires Legal(s, a) && Legal(Step(s, a), b) && Legal(Step(Step(s, a), b), c)
    ensures AllLegal(s, [a, b, c]) && Run(s, [a, b, c]) == Step(Step(Step(s, a), b), c)
  {
    var t := Step(s, a);
    TwoSteps(t, b, c);
    assert [a, b, c][1..] == [b, c];
    assert AllLegal(t, [b, c]) && Run(s, [a, b, c]) == Run(t, [b, c]);
  }

  /** A unit continues without sending an event, the session is closed, and the next block arrives: the
      sub-stream of row 0 gets no end flag. */
  lemma {:induction false} ClosedWithoutEndFlag()
    ensures LegalRun([FIRST_DATA, Close, THIRD]) && After([FIRST_DATA, Close, THIRD]).ends == [] + [None]
  {
    InitInv();
    AfterFirstData();
    StepKeeps(INIT, FIRST_DATA);
    ClosedThird(Step(INIT, FIRST_DATA));
    ThreeSteps(INIT, FIRST_DATA, Close, THIRD);
  }

  lemma {:induction false} ClosedThird(s: Sys)
    requires Inv(s) && s.c.received && s.c.waiting == 0 && s.c.src.event == None && s.arrived == TWO_ROWS
    ensures Legal(s, Close) && Legal(Step(s, Close), THIRD)
    ensures Step(Step(s, Close), THIRD).ends == s.ends + [None]
  {
    StepKeeps(s, Close);
    ClosedBare(Step(s, Close), THIRD.block, THIRD.o);
  }

  const FAILED_START: Action := OnData(TWO_ROWS, Outcome(true, false, 0))

  lemma {:induction false} AfterFailedStart()
    ensures Legal(INIT, FAILED_START)
    ensures var s := Step(INIT, FAILED_START);
            && s.pending == 1 && !s.c.received && s.c.cur == 1 && !s.c.continuing && s.c.waiting == 0 && !s.closed
            && s.c.src.preError && s.c.src.event == None
            && s.arrived == TWO_ROWS && s.handed == [TWO_ROWS[0]] && s.ends == [Some(TWO_ROWS[0])]
  {
    var c := NEW_CONTEXT.(cache := [TWO_ROWS]);
    FirstWrite(TWO_ROWS);
    var m := Mid(INIT.(arrived := INIT.arrived + TWO_ROWS), Hand(c, TWO_ROWS[0]));
    var p := Processed(m, FAILED_START.o);
    assert p.c.src.preError && Parent(p.c) == Some(TWO_ROWS[0]);
    var u := Updated(p);
    assert u.c.cur == 1 && u.ends == [Some(TWO_ROWS[0])] && u.c.cache == [TWO_ROWS] && u.c.pos == 1;
    assert First(u.c) == Some(TWO_ROWS[1]);
  }

  /** After a failed stream start a row that is not the end flag gets none. */
  lemma {:induction false} FailedBare(s: Sys)
    requires Inv(s) && s.pending > 0 && !s.c.continuing && s.c.waiting == 0 && !s.closed
    requires |s.handed| < |s.arrived| && s.arrived[|s.handed|].kind != EndFlag && s.c.src.preError && s.c.src.event == None
    ensures Step(s, NEXT).ends == s.ends + [None]
  {
    MidKeeps(s, NEXT);
    NextKeeps(s, 0);
    var m := MidOf(s, NEXT);
    FinishEnds(m, NEXT.o);
    MidInput(s, NEXT);
    assert m.c.received && !m.c.continuing && m.c.waiting == 0;
    assert NeedEndFlag(Process(m.c, m.closed, NEXT.o), m.closed);
    EndFlagIff(s, NEXT);
  }

  /** With the session open: after a failed stream start row 1 is dropped and its sub-stream gets no end
      flag. */
  lemma {:induction false} FailedStartWithoutEndFlag()
    ensures LegalRun([FAILED_START, NEXT]) && After([FAILED_START, NEXT]).ends == [Some(TWO_ROWS[0])] + [None]
  {
    InitInv();
    AfterFailedStart();
    StepKeeps(INIT, FAILED_START);
    var s := Step(INIT, FAILED_START);
    FailedBare(s);
    assert Legal(s, NEXT);
    TwoSteps(INIT, FAILED_START, NEXT);
  }

  /** A row without data borrows the last event's row as the parent of its end flag. */
  lemma {:induction false} BorrowedParent(s: Sys)
    requires Inv(s) && s.pending > 0 && !s.c.continuing && s.c.waiting == 0 && !s.closed
    requires |s.handed| < |s.arrived| && s.arrived[|s.handed|].kind == NoData && s.c.src.event.Some?
    ensures Step(s, NEXT).ends == s.ends + [s.c.src.event]
  {
    MidKeeps(s, NEXT);
    NextKeeps(s, 0);
    var m := MidOf(s, NEXT);
    FinishEnds(m, NEXT.o);
    MidInput(s, NEXT);
    assert m.c.received && !m.c.continuing && m.c.waiting == 0;
    assert NeedEndFlag(Process(m.c, m.closed, NEXT.o), m.closed);
  }

  const GAP: seq<Row> := [Row(0, Data, 0), Row(1, NoData, 0)]
  const SENDING: Action := OnData(GAP, Outcome(false, false, 1))
  const HANDLED: Action := OnEvents(false, 1, Outcome(false, false, 0))

  /** Row 0 is being expanded, an event was sent for it, and row 1 is cached. */
  ghost predicate Halfway(s: Sys) {
    && s.c.cache == [GAP] && s.c.pos == 1 && s.c.cur == 0 && s.c.received && !s.c.requested && s.c.current == None
    && !s.c.skip && !s.c.endReceived && !s.c.endGenerated && !s.c.continuing && s.c.waiting == 1
    && s.c.src.event == Some(GAP[0]) && !s.closed && s.pending == 0
    && s.arrived == GAP && s.handed == [GAP[0]] && s.ends == []
  }

  lemma {:induction false} FinishSending(m: Sys)
    requires m.c == Hand(NEW_CONTEXT.(cache := [GAP]), GAP[0])
    requires !m.closed && m.pending == 0 && m.arrived == GAP && m.handed == [GAP[0]] && m.ends == []
    ensures Halfway(Finish(m, SENDING.o))
  {
    var p := Processed(m, SENDING.o);
    assert p.c.waiting == 1 && p.c.src.event == Some(GAP[0]) && p.c.received && !p.c.requested;
    var u := Updated(p);
    assert u.c == Update(p.c, false) && u.ends == [];
    assert Requested(u).c == u.c && Requested(u).pending == 0;
  }

  lemma {:induction false} StepOnData(s: Sys, block: seq<Row>, o: Outcome)
    ensures Step(s, OnData(block, o)) == Finish(Mid(s.(arrived := s.arrived + block), Write(s.c, block)), o)
  {
  }

  lemma {:induction false} SendingIsLegal()
    ensures Legal(INIT, SENDING)
  {
  }

  lemma {:induction false} AfterSending()
    ensures Halfway(Step(INIT, SENDING))
  {
    var h := Hand(NEW_CONTEXT.(cache := [GAP]), GAP[0]);
    var m := Mid(INIT.(arrived := INIT.arrived + GAP), h);
    assert Step(INIT, SENDING) == Finish(m, SENDING.o) by {
      FirstWrite(GAP);
      StepOnData(INIT, GAP, SENDING.o);
    }
    MidSending(m, h);
    FinishSending(m);
  }

  lemma {:induction false} MidSending(m: Sys, h: Context)
    requires h.current == Some(GAP[0]) && m == Mid(INIT.(arrived := INIT.arrived + GAP), h)
    ensures m.c == h && !m.closed && m.pending == 0 && m.arrived == GAP && m.handed == [GAP[0]] && m.ends == []
  {
    assert [] + [GAP[0]] == [GAP[0]] && [] + GAP == GAP;
  }

  lemma {:induction false} AfterHandled(s: Sys)
    requires Halfway(s)
    ensures Legal(s, HANDLED)
    ensures var t := Step(s, HANDLED);
            && t.pending == 1 && !t.c.continuing && t.c.waiting == 0 && !t.closed && t.arrived == GAP && t.handed == [GAP[0]]
            && t.c.src.event == Some(GAP[0]) && t.ends == [Some(GAP[0])]
  {
    var d := Delivered(s.c, 1);
    var m := Mid(s, d);
    assert m.handed == s.handed;
    var p := Processed(m, HANDLED.o);
    assert p.c == d && Parent(p.c) == Some(GAP[0]) && !IsContinue(d, false);
    var u := Updated(p);
    assert u.c.cur == 1 && u.ends == [Some(GAP[0])] && u.c.cache == [GAP] && u.c.pos == 1;
    assert First(u.c) == Some(GAP[1]);
  }

  /** It happens: the unit sends an event for row 0 and finishes it; row 1 is a placeholder, and the end flag
      meant for its sub-stream descends from row 0. */
  lemma {:induction false} EndFlagOfAnEarlierRow()
    ensures LegalRun([SENDING, HANDLED, NEXT])
    ensures After([SENDING, HANDLED, NEXT]).ends == [Some(GAP[0])] + [Some(GAP[0])]
  {
    InitInv();
    SendingIsLegal();
    AfterSending();
    StepKeeps(INIT, SENDING);
    var s1 := Step(INIT, SENDING);
    AfterHandled(s1);
    StepKeeps(s1, HANDLED);
    ThreeSteps(INIT, SENDING, HANDLED, NEXT);
    BorrowedParent(Step(s1, HANDLED));
  }

  // ----- what the unit is run on -----

  function DataRows(rows: seq<Row>): seq<Row> {
    if rows == [] then []
    else
      var last := rows[|rows| - 1];
      DataRows(rows[..|rows| - 1]) + (if last.kind == Data then [last] else [])
  }

  /** The stream start fails in the run from s to s', which hands over the first row. */
  ghost predicate StartFails(s: Sys, a: Action, s': Sys) {
    IsRun(a) && a.o.preFails && s.handed == [] && s'.handed != [] && s'.handed[0].kind != EndFlag
  }

  ghost predicate StartFailed(s: Sys, run: seq<Action>)
    decreases |run|
  {
    run != [] && (StartFails(s, run[0], Step(s, run[0])) || StartFailed(Step(s, run[0]), run[1..]))
  }

  /** The process call is made in the run from s to s': for a row with data, unless the stream start failed,
      or for the user's events alone. */
  ghost predicate UnitRuns(s: Sys, a: Action, s': Sys) {
    && IsRun(a)
    && if s.handed < s'.handed
       then s'.handed[|s.handed|].kind == Data && !s.c.src.preError && !StartFails(s, a, s')
       else a.OnEvents? && !a.next
  }

  lemma {:induction false} FinishRan(m: Sys, o: Outcome)
    requires Shape(m.c)
    ensures Finish(m, o).ran == m.ran + Ran(m.c, o) && Finish(m, o).handed == m.handed
  {
    FinishRecords(m, o);
    assert Updated(Processed(m, o)).ran == Processed(m, o).ran;
  }

  predicate Called(c: Context, o: Outcome) {
    !PreFailed(c, o) && !c.skip
  }

  lemma {:induction false} CallResult(m: Sys, o: Outcome)
    requires Shape(m.c)
    ensures var t := Finish(m, o);
            && t.c.continuing == (if Called(m.c, o) then o.continuing else m.c.continuing)
            && t.c.waiting == m.c.waiting + (if Called(m.c, o) && !m.closed then o.sent else 0)
  {
    FinishRecords(m, o);
    assert Process(m.c, m.closed, o).continuing == if Called(m.c, o) then o.continuing else m.c.continuing;
  }

  /** What the middle of a run has to do with the unit. */
  ghost predicate MidCalls(s: Sys, a: Action, m: Sys)
    requires IsRun(a)
  {
    && m.ran == s.ran && m.handed == s.handed + Taken(m.c) && m.closed == s.closed
    && m.c.continuing == s.c.continuing
    && m.c.waiting == (if a.OnEvents? then s.c.waiting - a.users else s.c.waiting)
    && m.c.skip == (if m.c.current.Some? then !Given(m.c.current.value, s.c.src) else a.OnData? || a.next)
  }

  lemma {:induction false} ExpandCalls(c: Context)
    requires c.current == None
    ensures var d := ExpandNext(c);
            && d.continuing == c.continuing && d.waiting == c.waiting
            && d.skip == (if d.current.Some? then !Given(d.current.value, c.src) else true)
  {
    DropCalls(c);
    if IsNext(c) { HandCalls(DropRead(c), First(c).value); }
  }

  lemma {:induction false} DropCalls(c: Context)
    ensures var d := DropRead(c);
            d.continuing == c.continuing && d.waiting == c.waiting && d.current == c.current && d.src == c.src
  {
  }

  lemma {:induction false} HandCalls(c: Context, row: Row)
    ensures var d := Hand(c, row);
            d.continuing == c.continuing && d.waiting == c.waiting && d.current == Some(row) && d.skip == !Given(row, c.src)
  {
  }

  lemma {:induction false} MidCallsUnit(s: Sys, a: Action)
    requires Inv(s) && Legal(s, a) && IsRun(a)
    ensures MidCalls(s, a, MidOf(s, a))
  {
    match a
    case OnData(block, o) =>
      ExpandCalls(s.c.(cache := s.c.cache + [block]));
    case OnEvents(next, users, o) =>
      ExpandCalls(Delivered(s.c, users));
  }

  /** The row handed over in this run, if any. */
  lemma {:induction false} MidRow(s: Sys, a: Action)
    requires Inv(s) && Legal(s, a) && IsRun(a)
    ensures var m := MidOf(s, a);
            m.c.current.Some? ==> m.c.current.value.index == |s.handed| && (m.c.current.value.index == 0 <==> s.handed == [])
  {
    MidKeeps(s, a);
    MidInput(s, a);
    var m := MidOf(s, a);
    if m.c.current.Some? {
      assert m.handed == s.handed + [m.c.current.value];
      assert m.arrived[|s.handed|] == m.handed[|s.handed|];
    }
  }

  /** A run makes the process call for the row it hands over, and takes over the unit's answer, exactly where
      it should; otherwise the last status stands. */
  lemma {:induction false} CallMade(s: Sys, a: Action)
    requires Inv(s) && Legal(s, a) && IsRun(a)
    ensures var s' := Step(s, a);
            && s.handed <= s'.handed
            && s'.ran == s.ran + (if UnitRuns(s, a, Step(s, a)) then s'.handed[|s.handed|..] else [])
            && s'.c.continuing == (if UnitRuns(s, a, Step(s, a)) then a.o.continuing else s.c.continuing)
            && s'.c.waiting == (if a.OnEvents? then s.c.waiting - a.users else s.c.waiting)
                               + (if UnitRuns(s, a, Step(s, a)) && !s.closed then a.o.sent else 0)
  {
    var m := MidOf(s, a);
    MidKeeps(s, a);
    MidCallsUnit(s, a);
    CallDecided(s, a);
    CallResult(m, a.o);
    FinishRan(m, a.o);
    TailOf(s.handed, Taken(m.c));
  }

  lemma {:induction false} TailOf(rows: seq<Row>, more: seq<Row>)
    ensures (rows + more)[|rows|..] == more && rows <= rows + more && (more != [] ==> (rows + more)[|rows|] == more[0])
  {
  }

  lemma {:induction false} CallDecided(s: Sys, a: Action)
    requires Inv(s) && Legal(s, a) && IsRun(a)
    ensures UnitRuns(s, a, Step(s, a)) <==> Called(MidOf(s, a).c, a.o)
    ensures StartFails(s, a, Step(s, a)) <==> PreFailed(MidOf(s, a).c, a.o)
  {
    var m := MidOf(s, a);
    MidKeeps(s, a);
    MidCallsUnit(s, a);
    MidRow(s, a);
    FinishRan(m, a.o);
    TailOf(s.handed, Taken(m.c));
    StartDecided(s, a, m);
    RunDecided(s, a, m);
  }

  lemma {:induction false} StartDecided(s: Sys, a: Action, m: Sys)
    requires IsRun(a) && Step(s, a).handed == m.handed == s.handed + Taken(m.c)
    requires m.c.current.Some? ==> (m.c.current.value.index == 0 <==> s.handed == [])
    ensures StartFails(s, a, Step(s, a)) <==> PreFailed(m.c, a.o)
  {
    if m.c.current.Some? && s.handed == [] {
      assert m.handed == [m.c.current.value];
    }
  }

  lemma {:induction false} RunDecided(s: Sys, a: Action, m: Sys)
    requires IsRun(a) && MidCalls(s, a, m) && Step(s, a).handed == m.handed
    requires StartFails(s, a, Step(s, a)) <==> PreFailed(m.c, a.o)
    ensures UnitRuns(s, a, Step(s, a)) <==> Called(m.c, a.o)
  {
    TailOf(s.handed, Taken(m.c));
  }

  /** While rows can still come, the error flag of the start tells whether it failed; the unit has run on the
      rows with data, or on none. */
  ghost predicate RanOk(s: Sys, failed: bool) {
    && (!s.c.endReceived ==> s.c.src.preError == failed)
    && (failed ==> s.handed != [])
    && s.ran == (if failed then [] else DataRows(s.handed))
  }

  lemma {:induction false} EndedTakesNone(s: Sys, a: Action)
    requires Inv(s) && Legal(s, a) && s.c.endReceived
    ensures Step(s, a).handed == s.handed && (IsRun(a) ==> Step(s, a).c.endReceived)
  {
    assert s.arrived[|s.handed| - 1].kind == EndFlag;
    assert s.handed == s.arrived;
    OneAtATime(s, a);
    StepKeeps(s, a);
    var s' := Step(s, a);
    assert s'.arrived == s.arrived;
    assert s'.handed <= s'.arrived;
  }

  lemma {:induction false} ProcessPre(c: Context, closed: bool, o: Outcome)
    ensures var d := Process(c, closed, o);
            d.endReceived == c.endReceived && d.src.preError == (c.src.preError || PreFailed(c, o))
  {
    if !PreFailed(c, o) && !c.skip { SendingPre(c.(continuing := o.continuing), closed, o.sent); }
  }

  lemma {:induction false} SendingPre(c: Context, closed: bool, n: nat)
    ensures Sending(c, closed, n).endReceived == c.endReceived && Sending(c, closed, n).src.preError == c.src.preError
  {
  }

  lemma {:induction false} UpdatePre(c: Context, closed: bool)
    ensures Update(c, closed).endReceived == c.endReceived
    ensures !c.endReceived ==> Update(c, closed).src.preError == c.src.preError
  {
  }

  lemma {:induction false} UpdatedPre(s: Sys)
    ensures Updated(s).c.endReceived == s.c.endReceived
    ensures !s.c.endReceived ==> Updated(s).c.src.preError == s.c.src.preError
  {
    UpdatePre(s.c, s.closed);
    UpdatePre(s.c.(endGenerated := s.c.endGenerated || EndFlagOf(s.c).Some?), s.closed);
  }

  lemma {:induction false} RequestedPre(s: Sys)
    ensures Requested(s).c.endReceived == s.c.endReceived && Requested(s).c.src == s.c.src
  {
  }

  lemma {:induction false} PreErrorAfter(m: Sys, o: Outcome)
    ensures !Finish(m, o).c.endReceived ==> !m.c.endReceived && Finish(m, o).c.src.preError == (m.c.src.preError || PreFailed(m.c, o))
  {
    ProcessPre(m.c, m.closed, o);
    UpdatedPre(Processed(m, o));
    RequestedPre(Updated(Processed(m, o)));
  }

  lemma {:induction false} StepRanOk(s: Sys, a: Action, failed: bool)
    requires Inv(s) && Legal(s, a) && RanOk(s, failed)
    ensures RanOk(Step(s, a), failed || StartFails(s, a, Step(s, a)))
  {
    if IsRun(a) {
      if s.c.endReceived { EndedTakesNone(s, a); }
      RunRanOk(s, a, failed);
    }
  }

  lemma {:induction false} RunPreError(s: Sys, a: Action, failed: bool)
    requires Inv(s) && Legal(s, a) && IsRun(a) && (!s.c.endReceived ==> s.c.src.preError == failed)
    requires s.c.endReceived ==> Step(s, a).c.endReceived
    ensures !Step(s, a).c.endReceived ==> Step(s, a).c.src.preError == (failed || StartFails(s, a, Step(s, a)))
  {
    MidKeeps(s, a);
    MidInput(s, a);
    CallDecided(s, a);
    PreErrorAfter(MidOf(s, a), a.o);
  }

  lemma {:induction false} RunRanOk(s: Sys, a: Action, failed: bool)
    requires Inv(s) && Legal(s, a) && RanOk(s, failed) && IsRun(a)
    requires s.c.endReceived ==> Step(s, a).handed == s.handed && Step(s, a).c.endReceived
    ensures RanOk(Step(s, a), failed || StartFails(s, a, Step(s, a)))
  {
    var s' := Step(s, a);
    assert !s'.c.endReceived ==> s'.c.src.preError == (failed || StartFails(s, a, Step(s, a))) by { RunPreError(s, a, failed); }
    assert s'.ran == (if failed || StartFails(s, a, Step(s, a)) then [] else DataRows(s'.handed)) by { RunRows(s, a, failed); }
    assert s.handed <= s'.handed by { OneAtATime(s, a); }
  }

  lemma {:induction false} RunRows(s: Sys, a: Action, failed: bool)
    requires Inv(s) && Legal(s, a) && RanOk(s, failed) && IsRun(a)
    requires s.c.endReceived ==> Step(s, a).handed == s.handed
    ensures Step(s, a).ran == (if failed || StartFails(s, a, Step(s, a)) then [] else DataRows(Step(s, a).handed))
  {
    OneAtATime(s, a);
    CallMade(s, a);
    RowsAfter(s, a, Step(s, a), failed);
  }

  lemma {:induction false} RowsAfter(s: Sys, a: Action, s': Sys, failed: bool)
    requires RanOk(s, failed) && IsRun(a) && (s.c.endReceived ==> s'.handed == s.handed)
    requires s.handed <= s'.handed && |s'.handed| <= |s.handed| + 1
    requires s'.ran == s.ran + (if UnitRuns(s, a, s') then s'.handed[|s.handed|..] else [])
    ensures s'.ran == (if failed || StartFails(s, a, s') then [] else DataRows(s'.handed))
  {
    var more := s'.handed[|s.handed|..];
    assert s'.handed == s.handed + more;
    RanGrows(s.handed, more, s.ran, failed, StartFails(s, a, s'), UnitRuns(s, a, s'));
  }

  /** The rows run on, from those before: `fails` and `runs` say what this run does. */
  lemma {:induction false} RanGrows(handed: seq<Row>, more: seq<Row>, ran: seq<Row>, failed: bool, fails: bool, runs: bool)
    requires |more| <= 1 && ran == (if failed then [] else DataRows(handed)) && (fails ==> handed == [] && more != [])
    requires more != [] ==> (runs <==> more[0].kind == Data && !failed && !fails)
    ensures ran + (if runs then more else []) == if failed || fails then [] else DataRows(handed + more)
  {
    DataRowsGrow(handed, more);
  }

  lemma {:induction false} DataRowsGrow(rows: seq<Row>, more: seq<Row>)
    requires |more| <= 1
    ensures DataRows(rows + more) == DataRows(rows) + (if more != [] && more[0].kind == Data then more else [])
  {
    if more == [] {
      assert rows + more == rows;
    } else {
      assert (rows + more)[..|rows|] == rows && more == [more[0]];
    }
  }

  lemma {:induction false} RunRan(s: Sys, run: seq<Action>, failed: bool)
    requires Inv(s) && AllLegal(s, run) && RanOk(s, failed)
    ensures RanOk(Run(s, run), failed || StartFailed(s, run))
    decreases |run|
  {
    if run != [] {
      StepKeeps(s, run[0]);
      StepRanOk(s, run[0], failed);
      RunRan(Step(s, run[0]), run[1..], failed || StartFails(s, run[0], Step(s, run[0])));
    }
  }

  /** Over every run the process call was made, in order, exactly for the rows with data among those handed
      over; for none if the stream start failed.  No placeholder, skipped error or end flag is among them. */
  lemma {:induction false} UnitRunsOnData(run: seq<Action>)
    requires LegalRun(run)
    ensures After(run).ran == if StartFailed(INIT, run) then [] else DataRows(After(run).handed)
  {
    InitInv();
    assert DataRows([]) == [];
    RunRan(INIT, run, false);
  }

  // ----- the context object -----

  class StreamExpandContext {
    var cache: seq<seq<Row>>
    var pos: nat
    var cur: nat
    var received: bool
    var requested: bool
    var current: Option<Row>
    var skip: bool
    var endReceived: bool
    var endGenerated: bool
    var continuing: bool
    var waiting: nat
    var finished: bool
    var src: Sources

    ghost function State(): Context
      reads this
    {
      Context(cache, pos, cur, received, requested, current, skip, endReceived, endGenerated, continuing, waiting, finished, src)
    }

    constructor ()
      ensures State() == NEW_CONTEXT
    {
      cache, pos, cur, received, requested := [], 0, 0, false, false;
      current, skip, endReceived, endGenerated := None, false, false, false;
      continuing, waiting, finished, src := false, 0, false, Sources(None, None, false, false);
    }

    method ReadFirstInCache() returns (row: Option<Row>)
      requires Shape(State())
      modifies this`cache, this`pos
      ensures State() == DropRead(old(State())) && row == First(old(State()))
    {
      if cache == [] {
        return None;
      }
      if |cache[0]| <= pos {
        cache, pos := cache[1..], 0;
        if cache == [] {
          return None;
        }
      }
      row := Some(cache[0][pos]);
    }

    method SetCurrentInputData(row: Row)
      modifies this`current, this`endReceived, this`skip, this`src
      ensures State() == SetInput(old(State()), row)
    {
      current, skip, src := Some(row), !Given(row, src), Taking(row, src);
      if row.kind == EndFlag {
        endReceived := true;
      }
    }

    method TakeRow(row: Row)
      modifies this
      ensures State() == Hand(old(State()), row)
    {
      received, endGenerated := true, false;
      SetCurrentInputData(row);
      pos, requested := pos + 1, false;
    }

    method ExpandNextBuffer()
      requires Shape(State())
      modifies this
      ensures State() == ExpandNext(old(State()))
    {
      var next := ReadFirstInCache();
      if next.Some? && next.value.index == cur {
        TakeRow(next.value);
      } else {
        skip := true;
      }
    }

    method WriteInputData(block: seq<Row>)
      requires Shape(State())
      modifies this
      ensures State() == Write(old(State()), block)
    {
      if block == [] {
        skip := true;
        return;
      }
      WriteAppends(State(), block);
      cache := cache + [block];
      if requested {
        skip := true;
      } else {
        ExpandNextBuffer();
      }
    }

    /** Walks the candidates in the order the source does. */
    method AppendEndFlag(closed: bool) returns (flag: Option<Row>)
      modifies this`endGenerated
      ensures flag == if NeedEndFlag(old(State()), closed) then EndFlagOf(old(State())) else None
      ensures State() == old(State()).(endGenerated := old(State()).endGenerated || flag.Some?)
    {
      flag := None;
      if !received || (continuing && !closed) || waiting > 0 || endGenerated {
        return;
      }
      if current.Some? && current.value.kind == EndFlag {
        flag := current;
      }
      if flag.None? && current.Some? && current.value.kind == Data && !src.dropped {
        flag := current;
      }
      if flag.None? {
        flag := src.event;
      }
      if flag.None? && current.Some? && current.value.kind == NoData && !src.dropped {
        flag := current;
      }
      if flag.None? {
        return;
      }
      endGenerated := true;
    }

    method SendEvent(closed: bool)
      modifies this`waiting, this`src
      ensures State() == Sending(old(State()), closed, 1)
    {
      if closed {
        return;
      }
      waiting := waiting + 1;
      if src.last.Some? {
        src := src.(event := src.last);
      }
    }

    method UpdateProcessState(closed: bool)
      modifies this
      ensures State() == Update(old(State()), closed)
    {
      var goesOn := (continuing && !closed) || waiting > 0;
      finished := endReceived && !goesOn;
      if !goesOn && received {
        cur, received := cur + 1, false;
      }
      if finished {
        src := src.(preError := false);
      }
    }

    method GenerateSendEvent(closed: bool) returns (event: bool)
      requires Shape(State())
      modifies this
      ensures event == WantsEvent(old(State()), closed)
      ensures State() == Request(old(State()), closed)
    {
      event := false;
      if (continuing && !closed) || waiting > 0 || endReceived {
        return;
      }
      var next := ReadFirstInCache();
      if next.None? || next.value.index != cur || requested {
        return;
      }
      requested, event := true, true;
    }
  }
}
