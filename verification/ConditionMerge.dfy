/** Merging the outputs of an if/else node.  On each port a row sent to another branch is a null, and the
    comparison used by the merge is true as soon as one side is null. */
module ConditionMerge {
  import opened Basics
  import opened Buffers

  /** An output, by the index of its parent; `None` is a null. */
  type Slot = Option<nat>

  predicate Before(x: Slot, y: Slot) {
    x.None? || y.None? || x.value < y.value
  }

  /** std::merge: takes from the second list when its head comes before that of the first. */
  function Merge(a: seq<Slot>, b: seq<Slot>): seq<Slot>
    decreases |a| + |b|
  {
    if a == [] then b
    else if b == [] then a
    else if Before(b[0], a[0]) then [b[0]] + Merge(a, b[1..])
    else [a[0]] + Merge(a[1..], b)
  }

  /** The outputs that remain when the nulls are dropped. */
  function Sent(a: seq<Slot>): seq<nat> {
    if a == [] then [] else (if a[0].None? then [] else [a[0].value]) + Sent(a[1..])
  }

  ghost predicate Ascending(s: seq<nat>) {
    forall i, j | 0 <= i < j < |s| :: s[i] < s[j]
  }

  /** Every output is less than every output of the other list. */
  ghost predicate Below(s: seq<nat>, t: seq<nat>) {
    forall i, j | 0 <= i < |s| && 0 <= j < |t| :: s[i] < t[j]
  }

  ghost predicate Disjoint(s: seq<nat>, t: seq<nat>) {
    forall x | x in s :: x !in t
  }

  predicate AllSent(b: seq<Slot>) {
    forall i | 0 <= i < |b| :: b[i].Some?
  }

  /** The merge loses and invents nothing. */
  lemma {:induction false} MergeKeepsAll(a: seq<Slot>, b: seq<Slot>)
    ensures multiset(Merge(a, b)) == multiset(a) + multiset(b)
    decreases |a| + |b|
  {
    if a != [] && b != [] {
      if Before(b[0], a[0]) {
        MergeKeepsAll(a, b[1..]);
        CountCons(b[0], Merge(a, b[1..]));
        CountHead(b);
      } else {
        MergeKeepsAll(a[1..], b);
        CountCons(a[0], Merge(a[1..], b));
        CountHead(a);
      }
    }
  }

  lemma {:induction false} CountCons(x: Slot, a: seq<Slot>)
    ensures multiset([x] + a) == multiset{x} + multiset(a)
  {
  }

  lemma {:induction false} CountHead(a: seq<Slot>)
    requires a != []
    ensures multiset(a) == multiset{a[0]} + multiset(a[1..])
  {
    assert a == [a[0]] + a[1..];
    CountCons(a[0], a[1..]);
  }

  lemma {:induction false} SentCons(x: Slot, a: seq<Slot>)
    ensures Sent([x] + a) == (if x.None? then [] else [x.value]) + Sent(a)
  {
    assert ([x] + a)[1..] == a;
  }

  lemma {:induction false} SentConcat(a: seq<Slot>, b: seq<Slot>)
    ensures Sent(a + b) == Sent(a) + Sent(b)
    decreases |a|
  {
    if a == [] {
      assert a + b == b;
    } else {
      assert (a + b)[1..] == a[1..] + b;
      SentConcat(a[1..], b);
    }
  }

  /** A port that gets nothing from the second list keeps the order of the first. */
  lemma {:induction false} NullsChangeNothing(a: seq<Slot>, b: seq<Slot>)
    requires forall i | 0 <= i < |b| :: b[i].None?
    ensures Sent(Merge(a, b)) == Sent(a)
    decreases |b|
  {
    if a == [] && b != [] {
      NullsChangeNothing(a, b[1..]);
    } else if b != [] {
      NullsChangeNothing(a, b[1..]);
      SentCons(b[0], Merge(a, b[1..]));
    }
  }

  /** A null at the head of the first list lets the whole second list go ahead. */
  lemma {:induction false} NullGivesWay(a: seq<Slot>, b: seq<Slot>)
    requires a != [] && a[0].None?
    ensures Merge(a, b) == b + a
    decreases |b|
  {
    if b != [] {
      NullGivesWay(a, b[1..]);
      assert [b[0]] + (b[1..] + a) == b + a;
    }
  }

  /** An output of the first list that has a null before it and is less than one of the second. */
  ghost predicate Overtaken(a: seq<Slot>, b: seq<Slot>) {
    exists i, m, k :: OvertakenAt(a, b, i, m, k)
  }

  predicate OvertakenAt(a: seq<Slot>, b: seq<Slot>, i: nat, m: nat, k: nat) {
    && i < m < |a| && k < |b| && a[i].None? && a[m].Some? && b[k].Some? && a[m].value < b[k].value
  }

  lemma {:induction false} SentAt(a: seq<Slot>, m: nat) returns (j: nat)
    requires m < |a| && a[m].Some?
    ensures j < |Sent(a)| && Sent(a)[j] == a[m].value
    decreases |a|
  {
    if m == 0 {
      j := 0;
    } else {
      j := SentAt(a[1..], m - 1);
      j := j + if a[0].None? then 0 else 1;
    }
  }

  lemma {:induction false} SentFrom(a: seq<Slot>, j: nat) returns (m: nat)
    requires j < |Sent(a)|
    ensures m < |a| && a[m].Some? && a[m].value == Sent(a)[j]
    decreases |a|
  {
    if a[0].Some? && j == 0 {
      m := 0;
    } else {
      m := SentFrom(a[1..], j - if a[0].None? then 0 else 1);
      m := m + 1;
    }
  }

  lemma {:induction false} NullCase(a: seq<Slot>, b: seq<Slot>)
    requires a != [] && a[0].None? && AllSent(b) && Disjoint(Sent(a), Sent(b))
    ensures Below(Sent(b), Sent(a)) <==> !Overtaken(a, b)
  {
    if Below(Sent(b), Sent(a)) {
      forall i: nat, m: nat, k: nat ensures !OvertakenAt(a, b, i, m, k) {
        if i < m < |a| && k < |b| && a[m].Some? {
          var x := SentAt(a, m);
          var y := SentAt(b, k);
          assert Sent(b)[y] < Sent(a)[x];
        }
      }
    } else {
      var i, j :| 0 <= i < |Sent(b)| && 0 <= j < |Sent(a)| && Sent(b)[i] >= Sent(a)[j];
      var k := SentFrom(b, i);
      var m := SentFrom(a, j);
      assert Sent(a)[j] in Sent(a) && Sent(b)[i] in Sent(b);
      assert OvertakenAt(a, b, 0, m, k);
    }
  }

  lemma {:induction false} AscendingConcat(s: seq<nat>, t: seq<nat>)
    requires Ascending(s) && Ascending(t)
    ensures Ascending(s + t) <==> Below(s, t)
  {
    if Ascending(s + t) {
      forall i, j | 0 <= i < |s| && 0 <= j < |t| ensures s[i] < t[j] {
        assert (s + t)[i] < (s + t)[|s| + j];
      }
    }
  }

  lemma {:induction false} AscendingCons(x: nat, s: seq<nat>)
    requires forall y | y in s :: x < y
    ensures Ascending([x] + s) <==> Ascending(s)
  {
    assert forall i | 0 <= i < |s| :: s[i] in s;
    if Ascending([x] + s) {
      forall i, j | 0 <= i < j < |s| ensures s[i] < s[j] {
        assert ([x] + s)[i + 1] < ([x] + s)[j + 1];
      }
    }
  }

  lemma {:induction false} SentOfMerge(a: seq<Slot>, b: seq<Slot>, x: nat)
    requires x in Sent(Merge(a, b))
    ensures x in Sent(a) || x in Sent(b)
    decreases |a| + |b|
  {
    if a != [] && b != [] {
      if Before(b[0], a[0]) {
        SentCons(b[0], Merge(a, b[1..]));
        if x in Sent(Merge(a, b[1..])) { SentOfMerge(a, b[1..], x); }
      } else {
        SentCons(a[0], Merge(a[1..], b));
        if x in Sent(Merge(a[1..], b)) { SentOfMerge(a[1..], b, x); }
      }
    }
  }

  lemma {:induction false} AscendingTail(x: nat, t: seq<nat>)
    requires Ascending([x] + t)
    ensures Ascending(t) && forall y | y in t :: x < y
  {
    var s := [x] + t;
    forall i, j | 0 <= i < j < |t| ensures t[i] < t[j] {
      assert s[i + 1] < s[j + 1];
    }
    forall y | y in t ensures x < y {
      var j :| 0 <= j < |t| && t[j] == y;
      assert s[0] < s[j + 1];
    }
  }

  /** The head of an ascending list is its least output. */
  lemma {:induction false} HeadLeast(a: seq<Slot>)
    requires a != [] && a[0].Some? && Ascending(Sent(a))
    ensures Sent(a) == [a[0].value] + Sent(a[1..]) && Ascending(Sent(a[1..]))
    ensures forall x | x in Sent(a[1..]) :: a[0].value < x
  {
    AscendingTail(a[0].value, Sent(a[1..]));
  }

  lemma {:induction false} DropSecond(a: seq<Slot>, b: seq<Slot>)
    requires a != [] && a[0].Some? && b != [] && b[0].Some? && b[0].value < a[0].value && Ascending(Sent(a))
    ensures Overtaken(a, b) <==> Overtaken(a, b[1..])
  {
    if Overtaken(a, b) {
      var i: nat, m: nat, k: nat :| OvertakenAt(a, b, i, m, k);
      var j := SentAt(a, m);
      HeadLeast(a);
      assert a[m].value in Sent(a);
      assert k > 0;
      assert OvertakenAt(a, b[1..], i, m, k - 1);
    }
    if Overtaken(a, b[1..]) {
      var i: nat, m: nat, k: nat :| OvertakenAt(a, b[1..], i, m, k);
      assert OvertakenAt(a, b, i, m, k + 1);
    }
  }

  lemma {:induction false} DropFirst(a: seq<Slot>, b: seq<Slot>)
    requires a != [] && a[0].Some?
    ensures Overtaken(a, b) <==> Overtaken(a[1..], b)
  {
    if Overtaken(a, b) {
      var i: nat, m: nat, k: nat :| OvertakenAt(a, b, i, m, k);
      assert OvertakenAt(a[1..], b, i - 1, m - 1, k);
    }
    if Overtaken(a[1..], b) {
      var i: nat, m: nat, k: nat :| OvertakenAt(a[1..], b, i, m, k);
      assert OvertakenAt(a, b, i + 1, m + 1, k);
    }
  }

  ghost predicate Mergeable(a: seq<Slot>, b: seq<Slot>) {
    Ascending(Sent(a)) && Ascending(Sent(b)) && AllSent(b) && Disjoint(Sent(a), Sent(b))
  }

  lemma {:induction false} SecondLeads(a: seq<Slot>, b: seq<Slot>)
    requires Mergeable(a, b) && a != [] && b != [] && a[0].Some? && b[0].value < a[0].value
    ensures Mergeable(a, b[1..])
    ensures Ascending(Sent(Merge(a, b))) <==> Ascending(Sent(Merge(a, b[1..])))
  {
    var rest := Merge(a, b[1..]);
    HeadLeast(a);
    HeadLeast(b);
    SentCons(b[0], rest);
    forall x | x in Sent(rest) ensures b[0].value < x {
      SentOfMerge(a, b[1..], x);
    }
    AscendingCons(b[0].value, Sent(rest));
  }

  lemma {:induction false} FirstLeads(a: seq<Slot>, b: seq<Slot>)
    requires Mergeable(a, b) && a != [] && b != [] && a[0].Some? && !(b[0].value < a[0].value)
    ensures Mergeable(a[1..], b)
    ensures Ascending(Sent(Merge(a, b))) <==> Ascending(Sent(Merge(a[1..], b)))
  {
    var rest := Merge(a[1..], b);
    HeadLeast(a);
    HeadLeast(b);
    SentCons(a[0], rest);
    assert a[0].value in Sent(a) && b[0].value in Sent(b);
    forall x | x in Sent(rest) ensures a[0].value < x {
      SentOfMerge(a[1..], b, x);
    }
    AscendingCons(a[0].value, Sent(rest));
  }

  /** The port that also gets the placeholders (or errors) keeps the order of its outputs exactly when no
      output that follows a null is less than one of them. */
  lemma {:induction false} InOrderIffNotOvertaken(a: seq<Slot>, b: seq<Slot>)
    requires Mergeable(a, b)
    ensures Ascending(Sent(Merge(a, b))) <==> !Overtaken(a, b)
    decreases |a| + |b|
  {
    if a == [] || b == [] {
      assert forall i: nat, m: nat, k: nat :: !OvertakenAt(a, b, i, m, k);
    } else if a[0].None? {
      NullGivesWay(a, b);
      SentConcat(b, a);
      AscendingConcat(Sent(b), Sent(a));
      NullCase(a, b);
    } else if b[0].value < a[0].value {
      SecondLeads(a, b);
      DropSecond(a, b);
      InOrderIffNotOvertaken(a, b[1..]);
    } else {
      FirstLeads(a, b);
      DropFirst(a, b);
      InOrderIffNotOvertaken(a[1..], b);
    }
  }

  // ----- both merges of a port -----

  /** The list of a port: outputs merged with placeholders, then with errors. */
  function PortList(valid: seq<Slot>, placeholders: seq<Slot>, errors: seq<Slot>): seq<Slot> {
    Merge(Merge(valid, placeholders), errors)
  }

  /** What it sends of a block. */
  function PortOutput(valid: seq<Slot>, placeholders: seq<Slot>, errors: seq<Slot>): seq<nat> {
    Sent(PortList(valid, placeholders, errors))
  }

  /** A merge with sent slots puts no null before an output that had none before it. */
  lemma {:induction false} OvertakenThroughMerge(a: seq<Slot>, b: seq<Slot>, c: seq<Slot>)
    requires AllSent(b)
    ensures Overtaken(Merge(a, b), c) <==> Overtaken(a, c)
    decreases |a| + |b|
  {
    if a == [] {
      assert forall i: nat, m: nat, k: nat :: !OvertakenAt(b, c, i, m, k) && !OvertakenAt(a, c, i, m, k);
    } else if b == [] {
    } else if a[0].None? {
      NullGivesWay(a, b);
      OvertakenAfter(a, b, c);
    } else if b[0].value < a[0].value {
      OvertakenThroughMerge(a, b[1..], c);
      DropHead(b[0], Merge(a, b[1..]), c);
    } else {
      OvertakenThroughMerge(a[1..], b, c);
      DropHead(a[0], Merge(a[1..], b), c);
      DropFirst(a, c);
    }
  }

  lemma {:induction false} DropHead(x: Slot, a: seq<Slot>, c: seq<Slot>)
    requires x.Some?
    ensures Overtaken([x] + a, c) <==> Overtaken(a, c)
  {
    DropFirst([x] + a, c);
    assert ([x] + a)[1..] == a;
  }

  lemma {:induction false} OvertakenAfter(a: seq<Slot>, b: seq<Slot>, c: seq<Slot>)
    requires AllSent(b)
    ensures Overtaken(b + a, c) <==> Overtaken(a, c)
    decreases |b|
  {
    if b == [] {
      assert b + a == a;
    } else {
      OvertakenAfter(a, b[1..], c);
      DropHead(b[0], b[1..] + a, c);
      assert b + a == [b[0]] + (b[1..] + a);
    }
  }

  /** The merge keeps the first list's outputs in their order. */
  lemma {:induction false} FirstStaysInOrder(a: seq<Slot>, b: seq<Slot>)
    requires Ascending(Sent(Merge(a, b)))
    ensures Ascending(Sent(a))
    decreases |a| + |b|
  {
    if a != [] && b != [] {
      if Before(b[0], a[0]) {
        var rest := Merge(a, b[1..]);
        SentCons(b[0], rest);
        if b[0].Some? {
          AscendingTail(b[0].value, Sent(rest));
        } else {
          assert [] + Sent(rest) == Sent(rest);
        }
        FirstStaysInOrder(a, b[1..]);
      } else {
        var rest := Merge(a[1..], b);
        SentCons(a[0], rest);
        AscendingTail(a[0].value, Sent(rest));
        FirstStaysInOrder(a[1..], b);
        forall x | x in Sent(a[1..]) ensures a[0].value < x { SentThroughMerge(a[1..], b, x); }
        AscendingCons(a[0].value, Sent(a[1..]));
      }
    }
  }

  lemma {:induction false} SentThroughMerge(a: seq<Slot>, b: seq<Slot>, x: nat)
    requires x in Sent(a)
    ensures x in Sent(Merge(a, b))
    decreases |a| + |b|
  {
    if b != [] {
      if Before(b[0], a[0]) {
        SentThroughMerge(a, b[1..], x);
        SentCons(b[0], Merge(a, b[1..]));
      } else {
        SentCons(a[0], Merge(a[1..], b));
        if x in Sent(a[1..]) { SentThroughMerge(a[1..], b, x); }
      }
    }
  }

  /** The port that gets placeholders and errors sends its block in index order exactly when no output
      that follows a null is less than a placeholder or an error. */
  lemma {:induction false} PortInOrderIff(valid: seq<Slot>, placeholders: seq<Slot>, errors: seq<Slot>)
    requires Mergeable(valid, placeholders) && Mergeable(valid, errors) && Disjoint(Sent(placeholders), Sent(errors))
    ensures Ascending(PortOutput(valid, placeholders, errors))
       <==> !Overtaken(valid, placeholders) && !Overtaken(valid, errors)
  {
    var both := Merge(valid, placeholders);
    InOrderIffNotOvertaken(valid, placeholders);
    OvertakenThroughMerge(valid, placeholders, errors);
    forall x | x in Sent(both) ensures x !in Sent(errors) { SentOfMerge(valid, placeholders, x); }
    if Ascending(Sent(both)) {
      InOrderIffNotOvertaken(both, errors);
    } else if Ascending(Sent(Merge(both, errors))) {
      FirstStaysInOrder(both, errors);
    }
  }

  // ----- the blocks of an if/else node -----

  /** What an if/else node makes of a row: data for one branch, or a placeholder or error that passes. */
  datatype Row = Data(branch: nat) | Placeholder | Failed

  datatype Lane = VALID | PLACEHOLDER | ERROR

  function LaneOf(r: Row): Lane {
    match r
    case Data(_) => VALID
    case Placeholder => PLACEHOLDER
    case Failed => ERROR
  }

  /** Placeholders and errors go to the first port only. */
  function PortOf(r: Row): nat {
    if r.Data? then r.branch else 0
  }

  /** One list of port p for a block whose first row has index `at`. */
  function Slots(rows: seq<Row>, at: nat, p: nat, lane: Lane): seq<Slot> {
    if rows == [] then []
    else (if LaneOf(rows[0]) == lane then [if PortOf(rows[0]) == p then Some(at) else None] else [])
         + Slots(rows[1..], at + 1, p, lane)
  }

  function BlockOutput(rows: seq<Row>, at: nat, p: nat): seq<nat> {
    PortOutput(Slots(rows, at, p, VALID), Slots(rows, at, p, PLACEHOLDER), Slots(rows, at, p, ERROR))
  }

  /** Is x a row of the block, in this lane and for this port? */
  predicate Here(rows: seq<Row>, at: nat, p: nat, lane: Lane, x: nat) {
    at <= x < at + |rows| && LaneOf(rows[x - at]) == lane && PortOf(rows[x - at]) == p
  }

  lemma {:induction false} SlotsStep(rows: seq<Row>, at: nat, p: nat, lane: Lane)
    requires rows != []
    ensures Sent(Slots(rows, at, p, lane))
         == (if Here(rows, at, p, lane, at) then [at] else []) + Sent(Slots(rows[1..], at + 1, p, lane))
  {
    var rest := Slots(rows[1..], at + 1, p, lane);
    if LaneOf(rows[0]) == lane {
      SentCons(if PortOf(rows[0]) == p then Some(at) else None, rest);
    } else {
      assert [] + rest == rest;
    }
  }

  function One(b: bool): nat {
    if b then 1 else 0
  }

  lemma {:induction false} SlotsCount(rows: seq<Row>, at: nat, p: nat, lane: Lane, x: nat)
    ensures multiset(Sent(Slots(rows, at, p, lane)))[x] == One(Here(rows, at, p, lane, x))
    decreases |rows|
  {
    if rows == [] {
      assert Sent(Slots(rows, at, p, lane)) == [];
    } else {
      SlotsCount(rows[1..], at + 1, p, lane, x);
      SlotsCountStep(rows, at, p, lane, x);
      HereStep(rows, at, p, lane, x);
    }
  }

  lemma {:induction false} SlotsCountStep(rows: seq<Row>, at: nat, p: nat, lane: Lane, x: nat)
    requires rows != []
    ensures multiset(Sent(Slots(rows, at, p, lane)))[x]
         == multiset(Sent(Slots(rows[1..], at + 1, p, lane)))[x] + One(x == at && Here(rows, at, p, lane, at))
  {
    var rest := Sent(Slots(rows[1..], at + 1, p, lane));
    SlotsStep(rows, at, p, lane);
    if Here(rows, at, p, lane, at) {
      CountParts([at], rest, x);
    } else {
      assert [] + rest == rest;
    }
  }

  lemma {:induction false} HereStep(rows: seq<Row>, at: nat, p: nat, lane: Lane, x: nat)
    requires rows != []
    ensures One(Here(rows, at, p, lane, x))
         == One(Here(rows[1..], at + 1, p, lane, x)) + One(x == at && Here(rows, at, p, lane, at))
  {
  }

  lemma CountParts(s: seq<nat>, t: seq<nat>, x: nat)
    ensures multiset(s + t)[x] == multiset(s)[x] + multiset(t)[x]
  {
  }

  lemma {:induction false} SlotsHere(rows: seq<Row>, at: nat, p: nat, lane: Lane)
    ensures forall x :: x in Sent(Slots(rows, at, p, lane)) <==> Here(rows, at, p, lane, x)
  {
    forall x ensures x in Sent(Slots(rows, at, p, lane)) <==> Here(rows, at, p, lane, x) {
      SlotsCount(rows, at, p, lane, x);
      assert x in Sent(Slots(rows, at, p, lane)) <==> x in multiset(Sent(Slots(rows, at, p, lane)));
    }
  }

  lemma {:induction false} SlotsAscend(rows: seq<Row>, at: nat, p: nat, lane: Lane)
    ensures Ascending(Sent(Slots(rows, at, p, lane)))
    decreases |rows|
  {
    if rows != [] {
      SlotsStep(rows, at, p, lane);
      SlotsAscend(rows[1..], at + 1, p, lane);
      SlotsHere(rows[1..], at + 1, p, lane);
      AscendingCons(at, Sent(Slots(rows[1..], at + 1, p, lane)));
    }
  }

  /** Off the data lane the first port's slots are all sent and the other ports' all null. */
  lemma {:induction false} OffLane(rows: seq<Row>, at: nat, p: nat, lane: Lane)
    requires lane != VALID
    ensures forall i | 0 <= i < |Slots(rows, at, p, lane)| :: Slots(rows, at, p, lane)[i].Some? <==> p == 0
    decreases |rows|
  {
    if rows != [] { OffLane(rows[1..], at + 1, p, lane); }
  }

  lemma {:induction false} SentFront(a: seq<Slot>, b: seq<Slot>)
    requires b != [] && AllSent(b)
    ensures Merge(a, b) != [] && Merge(a, b)[0].Some?
  {
  }

  function BlockList(rows: seq<Row>, at: nat, p: nat): seq<Slot> {
    PortList(Slots(rows, at, p, VALID), Slots(rows, at, p, PLACEHOLDER), Slots(rows, at, p, ERROR))
  }

  /** The list of some port starts with an output that is not null: of the first port, or of that of the
      first row. */
  lemma {:induction false} SomePortStarts(rows: seq<Row>, at: nat)
    requires rows != []
    ensures exists p :: (p == 0 || p == PortOf(rows[0])) && BlockList(rows, at, p) != [] && BlockList(rows, at, p)[0].Some?
  {
    OffLane(rows, at, 0, PLACEHOLDER);
    OffLane(rows, at, 0, ERROR);
    var v, h, e := Slots(rows, at, 0, VALID), Slots(rows, at, 0, PLACEHOLDER), Slots(rows, at, 0, ERROR);
    if e != [] {
      SentFront(Merge(v, h), e);
      assert BlockList(rows, at, 0)[0].Some?;
    } else if h != [] {
      SentFront(v, h);
      assert BlockList(rows, at, 0)[0].Some?;
    } else {
      var p := PortOf(rows[0]);
      SameSlots(rows, at, p, PLACEHOLDER);
      SameSlots(rows, at, p, ERROR);
      SlotOfRow(rows, at, p, VALID, 0);
      assert BlockList(rows, at, p)[0].Some?;
    }
  }

  /** The lists of a lane are equally long on all ports. */
  lemma {:induction false} SameSlots(rows: seq<Row>, at: nat, p: nat, lane: Lane)
    ensures |Slots(rows, at, p, lane)| == |Slots(rows, at, 0, lane)|
    decreases |rows|
  {
    if rows != [] { SameSlots(rows[1..], at + 1, p, lane); }
  }

  // ----- where a block's slots come from -----

  /** The position of row i in its lane. */
  function Pos(rows: seq<Row>, lane: Lane, i: nat): nat
    requires i <= |rows|
  {
    if i == 0 then 0 else (if LaneOf(rows[0]) == lane then 1 else 0) + Pos(rows[1..], lane, i - 1)
  }

  lemma {:induction false} PosGrows(rows: seq<Row>, lane: Lane, i: nat, j: nat)
    requires i < j <= |rows|
    ensures Pos(rows, lane, i) + (if LaneOf(rows[i]) == lane then 1 else 0) <= Pos(rows, lane, j)
    decreases |rows|
  {
    if i > 0 { PosGrows(rows[1..], lane, i - 1, j - 1); }
  }

  lemma {:induction false} SlotOfRow(rows: seq<Row>, at: nat, p: nat, lane: Lane, i: nat)
    requires i < |rows| && LaneOf(rows[i]) == lane
    ensures var j, slots := Pos(rows, lane, i), Slots(rows, at, p, lane);
            j < |slots| && slots[j] == if PortOf(rows[i]) == p then Some(at + i) else None
    decreases |rows|
  {
    if i > 0 { SlotOfRow(rows[1..], at + 1, p, lane, i - 1); }
  }

  lemma {:induction false} RowOfSlot(rows: seq<Row>, at: nat, p: nat, lane: Lane, j: nat) returns (i: nat)
    requires j < |Slots(rows, at, p, lane)|
    ensures i < |rows| && LaneOf(rows[i]) == lane && Pos(rows, lane, i) == j
    decreases |rows|
  {
    if LaneOf(rows[0]) != lane {
      i := RowOfSlot(rows[1..], at + 1, p, lane, j);
      i := i + 1;
    } else if j == 0 {
      i := 0;
    } else {
      i := RowOfSlot(rows[1..], at + 1, p, lane, j - 1);
      i := i + 1;
    }
  }

  predicate OutOfTurnAt(rows: seq<Row>, lane: Lane, i: nat, m: nat, k: nat) {
    && i < m < k < |rows| && rows[i].Data? && rows[i].branch != 0 && rows[m] == Data(0) && LaneOf(rows[k]) == lane
  }

  lemma {:induction false} OvertakenRows(rows: seq<Row>, at: nat, lane: Lane)
    requires lane != VALID
    ensures Overtaken(Slots(rows, at, 0, VALID), Slots(rows, at, 0, lane))
       <==> exists i, m, k :: OutOfTurnAt(rows, lane, i, m, k)
  {
    var a, b := Slots(rows, at, 0, VALID), Slots(rows, at, 0, lane);
    if Overtaken(a, b) {
      var i: nat, m: nat, k: nat :| OvertakenAt(a, b, i, m, k);
      RowsOvertake(rows, at, lane, i, m, k);
    }
    if exists i, m, k :: OutOfTurnAt(rows, lane, i, m, k) {
      var i: nat, m: nat, k: nat :| OutOfTurnAt(rows, lane, i, m, k);
      SlotOfRow(rows, at, 0, VALID, i);
      SlotOfRow(rows, at, 0, VALID, m);
      SlotOfRow(rows, at, 0, lane, k);
      PosGrows(rows, VALID, i, m);
      assert OvertakenAt(a, b, Pos(rows, VALID, i), Pos(rows, VALID, m), Pos(rows, lane, k));
    }
  }

  lemma {:induction false} RowsOvertake(rows: seq<Row>, at: nat, lane: Lane, i: nat, m: nat, k: nat)
    requires lane != VALID && OvertakenAt(Slots(rows, at, 0, VALID), Slots(rows, at, 0, lane), i, m, k)
    ensures exists i', m', k' :: OutOfTurnAt(rows, lane, i', m', k')
  {
    var i' := RowOfSlot(rows, at, 0, VALID, i);
    var m' := RowOfSlot(rows, at, 0, VALID, m);
    var k' := RowOfSlot(rows, at, 0, lane, k);
    SlotOfRow(rows, at, 0, VALID, i');
    SlotOfRow(rows, at, 0, VALID, m');
    SlotOfRow(rows, at, 0, lane, k');
    if m' < i' { PosGrows(rows, VALID, m', i'); }
    assert OutOfTurnAt(rows, lane, i', m', k');
  }

  /** A row of the first branch with a row of another before it and a placeholder or error after it. */
  ghost predicate OutOfTurn(rows: seq<Row>) {
    exists i, m, k :: OutOfTurnAt(rows, PLACEHOLDER, i, m, k) || OutOfTurnAt(rows, ERROR, i, m, k)
  }

  lemma {:induction false} LanesMergeable(rows: seq<Row>, at: nat)
    ensures Mergeable(Slots(rows, at, 0, VALID), Slots(rows, at, 0, PLACEHOLDER))
    ensures Mergeable(Slots(rows, at, 0, VALID), Slots(rows, at, 0, ERROR))
    ensures Disjoint(Sent(Slots(rows, at, 0, PLACEHOLDER)), Sent(Slots(rows, at, 0, ERROR)))
  {
    SlotsAscend(rows, at, 0, VALID);
    SlotsAscend(rows, at, 0, PLACEHOLDER);
    SlotsAscend(rows, at, 0, ERROR);
    SlotsHere(rows, at, 0, VALID);
    SlotsHere(rows, at, 0, PLACEHOLDER);
    SlotsHere(rows, at, 0, ERROR);
    OffLane(rows, at, 0, PLACEHOLDER);
    OffLane(rows, at, 0, ERROR);
  }

  /** A port sends a block in index order exactly when it is not the first or no row is out of turn. */
  lemma {:induction false} BlockInOrderIff(rows: seq<Row>, at: nat, p: nat)
    ensures Ascending(BlockOutput(rows, at, p)) <==> p != 0 || !OutOfTurn(rows)
  {
    if p == 0 {
      LanesMergeable(rows, at);
      PortInOrderIff(Slots(rows, at, 0, VALID), Slots(rows, at, 0, PLACEHOLDER), Slots(rows, at, 0, ERROR));
      OvertakenRows(rows, at, PLACEHOLDER);
      OvertakenRows(rows, at, ERROR);
    } else {
      var valid, placeholders := Slots(rows, at, p, VALID), Slots(rows, at, p, PLACEHOLDER);
      OffLane(rows, at, p, PLACEHOLDER);
      OffLane(rows, at, p, ERROR);
      NullsChangeNothing(valid, placeholders);
      NullsChangeNothing(Merge(valid, placeholders), Slots(rows, at, p, ERROR));
      SlotsAscend(rows, at, p, VALID);
    }
  }

  lemma {:induction false} SentCount(a: seq<Slot>, b: seq<Slot>)
    ensures multiset(Sent(Merge(a, b))) == multiset(Sent(a)) + multiset(Sent(b))
    decreases |a| + |b|
  {
    if a != [] && b != [] {
      if Before(b[0], a[0]) {
        SentCount(a, b[1..]);
        SentCons(b[0], Merge(a, b[1..]));
      } else {
        SentCount(a[1..], b);
        SentCons(a[0], Merge(a[1..], b));
      }
    }
  }

  /** Every row of the block leaves once, by its own port. */
  lemma {:induction false} BlockSendsEachOnce(rows: seq<Row>, at: nat, p: nat, x: nat)
    ensures multiset(BlockOutput(rows, at, p))[x]
         == if at <= x < at + |rows| && PortOf(rows[x - at]) == p then 1 else 0
  {
    var v, h, e := Slots(rows, at, p, VALID), Slots(rows, at, p, PLACEHOLDER), Slots(rows, at, p, ERROR);
    SentCount(v, h);
    SentCount(Merge(v, h), e);
    SlotsCount(rows, at, p, VALID, x);
    SlotsCount(rows, at, p, PLACEHOLDER, x);
    SlotsCount(rows, at, p, ERROR, x);
    if at <= x < at + |rows| {
      var lane := LaneOf(rows[x - at]);
      assert lane == VALID || lane == PLACEHOLDER || lane == ERROR;
    }
  }

  /** What port p sends of a whole stream, block after block. */
  function Emitted(blocks: seq<seq<Row>>, p: nat): seq<nat> {
    if blocks == [] then []
    else
      var before := blocks[..|blocks| - 1];
      Emitted(before, p) + BlockOutput(blocks[|blocks| - 1], |Flat(before)|, p)
  }

  lemma {:induction false} FlatLast(blocks: seq<seq<Row>>)
    requires blocks != []
    ensures Flat(blocks) == Flat(blocks[..|blocks| - 1]) + blocks[|blocks| - 1]
  {
    var before := blocks[..|blocks| - 1];
    FlatAppend(before, blocks[|blocks| - 1]);
    assert before + [blocks[|blocks| - 1]] == blocks;
  }

  /** Conservation: every row of the stream leaves once, by its own port. */
  lemma {:induction false} EachRowOnce(blocks: seq<seq<Row>>, p: nat, x: nat)
    ensures multiset(Emitted(blocks, p))[x] == if x < |Flat(blocks)| && PortOf(Flat(blocks)[x]) == p then 1 else 0
  {
    if blocks != [] {
      var before, last := blocks[..|blocks| - 1], blocks[|blocks| - 1];
      FlatLast(blocks);
      EachRowOnce(before, p, x);
      BlockSendsEachOnce(last, |Flat(before)|, p, x);
    }
  }

  lemma {:induction false} EmittedBelow(blocks: seq<seq<Row>>, p: nat)
    ensures forall x | x in Emitted(blocks, p) :: x < |Flat(blocks)|
  {
    forall x | x in Emitted(blocks, p) ensures x < |Flat(blocks)| {
      EachRowOnce(blocks, p, x);
      assert x in multiset(Emitted(blocks, p));
    }
  }

  lemma {:induction false} BlockFrom(rows: seq<Row>, at: nat, p: nat)
    ensures forall x | x in BlockOutput(rows, at, p) :: at <= x
  {
    forall x | x in BlockOutput(rows, at, p) ensures at <= x {
      BlockSendsEachOnce(rows, at, p, x);
      assert x in multiset(BlockOutput(rows, at, p));
    }
  }

  lemma {:induction false} AscendingParts(s: seq<nat>, t: seq<nat>, n: nat)
    requires (forall x | x in s :: x < n) && (forall x | x in t :: n <= x)
    ensures Ascending(s + t) <==> Ascending(s) && Ascending(t)
  {
    if Ascending(s + t) {
      forall i, j | 0 <= i < j < |s| ensures s[i] < s[j] { assert (s + t)[i] < (s + t)[j]; }
      forall i, j | 0 <= i < j < |t| ensures t[i] < t[j] { assert (s + t)[|s| + i] < (s + t)[|s| + j]; }
    } else if Ascending(s) && Ascending(t) {
      assert forall i | 0 <= i < |s| :: s[i] in s;
      assert forall i | 0 <= i < |t| :: t[i] in t;
      AscendingConcat(s, t);
    }
  }

  /** A branch gets its rows in order exactly when it is not the first or no block has a row out of turn. */
  lemma {:induction false} EmittedInOrderIff(blocks: seq<seq<Row>>, p: nat)
    ensures Ascending(Emitted(blocks, p)) <==> p != 0 || forall j | 0 <= j < |blocks| :: !OutOfTurn(blocks[j])
  {
    if blocks != [] {
      var before, last := blocks[..|blocks| - 1], blocks[|blocks| - 1];
      EmittedInOrderIff(before, p);
      BlockInOrderIff(last, |Flat(before)|, p);
      EmittedBelow(before, p);
      BlockFrom(last, |Flat(before)|, p);
      AscendingParts(Emitted(before, p), BlockOutput(last, |Flat(before)|, p), |Flat(before)|);
    }
  }

  const OVERTAKEN_BLOCK: seq<Row> := [Data(1), Data(0), Placeholder]

  /** It happens: row 0 goes to the other branch, row 1 to the first, and row 2 is a placeholder. */
  lemma {:induction false} PlaceholderOvertakes()
    ensures BlockOutput(OVERTAKEN_BLOCK, 0, 0) == [2, 1]
    ensures !Ascending(BlockOutput(OVERTAKEN_BLOCK, 0, 0))
  {
    var valid: seq<Slot>, placeholders: seq<Slot> := [None, Some(1)], [Some(2)];
    assert Slots(OVERTAKEN_BLOCK, 0, 0, VALID) == valid;
    assert Slots(OVERTAKEN_BLOCK, 0, 0, PLACEHOLDER) == placeholders;
    assert Slots(OVERTAKEN_BLOCK, 0, 0, ERROR) == [];
    NullGivesWay(valid, placeholders);
    SentConcat(placeholders, valid);
    assert OutOfTurnAt(OVERTAKEN_BLOCK, PLACEHOLDER, 0, 1, 2);
    BlockInOrderIff(OVERTAKEN_BLOCK, 0, 0);
  }
}
