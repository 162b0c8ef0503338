/** The statistics tree and its notifications: a registration names items by a pattern below the item it
    is made on, and reaches items that exist already as well as items created later. */
module StatsTree {
  import opened Basics
  import opened Buffers

  type Name = string

  type Path = seq<Name>

  const ANY: Name := "*"

  /** A configuration is known by its id; `path` is the part of its pattern still to be walked. */
  datatype Cfg = Cfg(id: nat, path: Path)

  datatype Item = Item(leaf: bool, children: map<Name, Item>, cfgs: map<Name, seq<Cfg>>, consumers: seq<Cfg>)

  function At(m: map<Name, seq<Cfg>>, k: Name): seq<Cfg> {
    if k in m then m[k] else []
  }

  function Fresh(leaf: bool): Item {
    Item(leaf, map[], map[], [])
  }

  predicate Selects(segment: Name, name: Name) {
    segment == name || segment == ANY
  }

  // ----- the operations on one item -----

  /** `RegisterNotify`: the children that are there get the rest of the pattern, and it is kept for those
      to come. */
  function Register(it: Item, c: Cfg): Item
    decreases |c.path|, 0
  {
    if c.path == [] then it.(consumers := it.consumers + [c])
    else
      var root, rest := c.path[0], Cfg(c.id, c.path[1..]);
      it.(children := PassedOn(it.children, root, rest), cfgs := it.cfgs[root := At(it.cfgs, root) + [rest]])
  }

  function PassedOn(children: map<Name, Item>, root: Name, rest: Cfg): map<Name, Item>
    decreases |rest.path|, 1
  {
    map k | k in children :: if Selects(root, k) then Register(children[k], rest) else children[k]
  }

  function Without(list: seq<Cfg>, id: nat): seq<Cfg> {
    if list == [] then []
    else (if list[0].id == id then [] else [list[0]]) + Without(list[1..], id)
  }

  function Unregister(it: Item, c: Cfg): Item
    decreases |c.path|, 0
  {
    if c.path == [] then it.(consumers := Without(it.consumers, c.id))
    else
      var root, rest := c.path[0], Cfg(c.id, c.path[1..]);
      it.(children := TakenBack(it.children, root, rest), cfgs := it.cfgs[root := Without(At(it.cfgs, root), c.id)])
  }

  function TakenBack(children: map<Name, Item>, root: Name, rest: Cfg): map<Name, Item>
    decreases |rest.path|, 1
  {
    map k | k in children :: if Selects(root, k) then Unregister(children[k], rest) else children[k]
  }

  function RegisterAll(it: Item, list: seq<Cfg>): Item
    decreases |list|
  {
    if list == [] then it else Register(RegisterAll(it, list[..|list| - 1]), list[|list| - 1])
  }

  predicate CanAdd(it: Item, name: Name) {
    !it.leaf && name != "" && name != ANY
  }

  /** What a new child is handed. */
  function Handed(it: Item, name: Name): seq<Cfg> {
    At(it.cfgs, ANY) + At(it.cfgs, name)
  }

  /** `AddItemInner`: an item of that name that exists already is replaced. */
  function AddItem(it: Item, name: Name, leaf: bool): Item {
    if !CanAdd(it, name) then it
    else it.(children := it.children[name := RegisterAll(Fresh(leaf), Handed(it, name))])
  }

  function DelItem(it: Item, name: Name): Item {
    it.(children := it.children - {name})
  }

  // ----- items by path -----

  function Get(t: Item, y: Path): Option<Item>
    decreases |y|
  {
    if y == [] then Some(t) else if y[0] in t.children then Get(t.children[y[0]], y[1..]) else None
  }

  function Put(t: Item, x: Path, it: Item): Item
    decreases |x|
  {
    if x == [] then it
    else if x[0] !in t.children then t
    else t.(children := t.children[x[0] := Put(t.children[x[0]], x[1..], it)])
  }

  predicate SameLocal(a: Item, b: Item) {
    a.leaf == b.leaf && a.consumers == b.consumers && a.cfgs == b.cfgs
  }

  /** The same items, with the same lists, except at and below `x`. */
  lemma {:induction false} PutElsewhere(t: Item, x: Path, it: Item, y: Path)
    requires Get(t, x).Some? && !(x <= y)
    ensures Get(Put(t, x, it), y).Some? <==> Get(t, y).Some?
    ensures Get(t, y).Some? ==> SameLocal(Get(Put(t, x, it), y).value, Get(t, y).value)
    decreases |x|
  {
    if y != [] && x[0] == y[0] {
      PutElsewhere(t.children[x[0]], x[1..], it, y[1..]);
    }
  }

  lemma {:induction false} PutBelow(t: Item, x: Path, it: Item, z: Path)
    requires Get(t, x).Some?
    ensures Get(Put(t, x, it), x + z) == Get(it, z)
    decreases |x|
  {
    if x == [] {
      assert x + z == z;
    } else {
      assert (x + z)[1..] == x[1..] + z;
      PutBelow(t.children[x[0]], x[1..], it, z);
    }
  }

  lemma {:induction false} PutSame(t: Item, x: Path)
    requires Get(t, x).Some?
    ensures Put(t, x, Get(t, x).value) == t
    decreases |x|
  {
    if x != [] {
      PutSame(t.children[x[0]], x[1..]);
      assert t.children[x[0] := t.children[x[0]]] == t.children;
    }
  }

  lemma {:induction false} GetBelow(t: Item, x: Path, z: Path)
    requires Get(t, x).Some?
    ensures Get(t, x + z) == Get(Get(t, x).value, z)
    decreases |x|
  {
    if x == [] {
      assert x + z == z;
    } else {
      assert (x + z)[1..] == x[1..] + z;
      GetBelow(t.children[x[0]], x[1..], z);
    }
  }

  // ----- what a registration reaches -----

  /** The pattern selects the path `z`, or one that leads on from it. */
  predicate Under(p: Path, z: Path) {
    |z| <= |p| && forall i | 0 <= i < |z| :: Selects(p[i], z[i])
  }

  lemma {:induction false} UnderStep(p: Path, z: Path)
    requires z != []
    ensures Under(p, z) <==> p != [] && Selects(p[0], z[0]) && Under(p[1..], z[1..])
  {
    if p != [] && Selects(p[0], z[0]) && Under(p[1..], z[1..]) {
      forall i | 0 <= i < |z| ensures Selects(p[i], z[i]) {
        if i > 0 { assert p[i] == p[1..][i - 1] && z[i] == z[1..][i - 1]; }
      }
    }
    if Under(p, z) {
      assert Selects(p[0], z[0]);
      forall i | 0 <= i < |z[1..]| ensures Selects(p[1..][i], z[1..][i]) {
        assert Selects(p[i + 1], z[i + 1]);
      }
    }
  }

  function Deposit(it: Item, c: Cfg): Item {
    if c.path == [] then it.(consumers := it.consumers + [c])
    else it.(cfgs := it.cfgs[c.path[0] := At(it.cfgs, c.path[0]) + [Cfg(c.id, c.path[1..])]])
  }

  function Withdraw(it: Item, c: Cfg): Item {
    if c.path == [] then it.(consumers := Without(it.consumers, c.id))
    else it.(cfgs := it.cfgs[c.path[0] := Without(At(it.cfgs, c.path[0]), c.id)])
  }

  function Advanced(c: Cfg, d: nat): Cfg {
    if d <= |c.path| then Cfg(c.id, c.path[d..]) else c
  }

  /** Registering leaves its mark on exactly the items the pattern selects or leads through. */
  lemma {:induction false} RegisterReaches(it: Item, c: Cfg, z: Path)
    ensures Get(Register(it, c), z).Some? <==> Get(it, z).Some?
    ensures Get(it, z).Some? ==>
              var a, b := Get(it, z).value, Get(Register(it, c), z).value;
              SameLocal(b, if Under(c.path, z) then Deposit(a, Advanced(c, |z|)) else a)
    decreases |z|
  {
    if z != [] && z[0] in it.children {
      UnderStep(c.path, z);
      if c.path != [] && Selects(c.path[0], z[0]) {
        RegisterReaches(it.children[z[0]], Cfg(c.id, c.path[1..]), z[1..]);
        assert |z| <= |c.path| ==> c.path[1..][|z| - 1..] == c.path[|z|..];
      }
    }
  }

  lemma {:induction false} UnregisterReaches(it: Item, c: Cfg, z: Path)
    ensures Get(Unregister(it, c), z).Some? <==> Get(it, z).Some?
    ensures Get(it, z).Some? ==>
              var a, b := Get(it, z).value, Get(Unregister(it, c), z).value;
              SameLocal(b, if Under(c.path, z) then Withdraw(a, Advanced(c, |z|)) else a)
    decreases |z|
  {
    if z != [] && z[0] in it.children {
      UnderStep(c.path, z);
      if c.path != [] && Selects(c.path[0], z[0]) {
        UnregisterReaches(it.children[z[0]], Cfg(c.id, c.path[1..]), z[1..]);
        assert |z| <= |c.path| ==> c.path[1..][|z| - 1..] == c.path[|z|..];
      }
    }
  }

  // ----- the law -----

  /** An active registration: where it was made, and with what. */
  datatype Reg = Reg(at: Path, cfg: Cfg)

  predicate Covers(r: Reg, y: Path) {
    r.at <= y && Under(r.cfg.path, y[|r.at|..])
  }

  function Left(r: Reg, y: Path): Cfg {
    if |r.at| <= |y| then Advanced(r.cfg, |y| - |r.at|) else r.cfg
  }

  /** What the active registrations come to at the path `y`, in whatever order they were made. */
  function Expected(regs: seq<Reg>, y: Path): multiset<Cfg>
    decreases |regs|
  {
    if regs == [] then multiset{}
    else
      var n := |regs| - 1;
      Expected(regs[..n], y) + One(regs[n], y)
  }

  function One(r: Reg, y: Path): multiset<Cfg> {
    if Covers(r, y) then multiset{Left(r, y)} else multiset{}
  }

  /** Items can be named so that a pattern with this rest comes to its end. */
  predicate Possible(p: Path) {
    "" !in p
  }

  predicate Fits(exact: bool, have: nat, want: nat) {
    if exact then have == want else have <= want
  }

  /** Is what a parent keeps for a child of that name looked at?  A leaf gets no children. */
  predicate Matters(exact: bool, leaf: bool, p: Path) {
    exact ==> !leaf && Possible(p)
  }

  /** Exactly: the consumers of an item are the registrations that end there, and what it keeps for a
      child is what leads on to a child of that name, as far as there can ever be one.  Otherwise: there
      is nothing beyond these. */
  ghost predicate ItemOk(exact: bool, it: Item, m: multiset<Cfg>) {
    && (forall c :: Fits(exact, multiset(it.consumers)[c], if c.path == [] then m[c] else 0))
    && (forall k, c: Cfg | Matters(exact, it.leaf, [k] + c.path) :: KeptOk(exact, it, m, k, c))
  }

  ghost predicate KeptOk(exact: bool, it: Item, m: multiset<Cfg>, k: Name, c: Cfg) {
    Fits(exact, multiset(At(it.cfgs, k))[c], m[Cfg(c.id, [k] + c.path)])
  }

  ghost predicate OkAt(exact: bool, t: Item, regs: seq<Reg>, y: Path) {
    Get(t, y).Some? ==> ItemOk(exact, Get(t, y).value, Expected(regs, y))
  }

  ghost predicate Holds(exact: bool, t: Item, regs: seq<Reg>) {
    forall y :: OkAt(exact, t, regs, y)
  }

  ghost predicate Law(t: Item, regs: seq<Reg>) {
    Holds(true, t, regs)
  }

  lemma {:induction false} SameLocalOk(exact: bool, a: Item, b: Item, m: multiset<Cfg>)
    requires SameLocal(a, b) && ItemOk(exact, a, m)
    ensures ItemOk(exact, b, m)
  {
    forall k, c: Cfg | Matters(exact, b.leaf, [k] + c.path) ensures KeptOk(exact, b, m, k, c) {
      assert KeptOk(exact, a, m, k, c);
    }
  }

  lemma {:induction false} ItemOkThrough(exact: bool, it: Item, m: multiset<Cfg>, m': multiset<Cfg>)
    requires ItemOk(exact, it, m)
    requires forall c: Cfg :: (exact ==> Possible(c.path)) ==> Fits(exact, m[c], m'[c])
    ensures ItemOk(exact, it, m')
  {
    forall k, c: Cfg | Matters(exact, it.leaf, [k] + c.path) ensures KeptOk(exact, it, m', k, c) {
      assert KeptOk(exact, it, m, k, c);
    }
  }

  // ----- registering -----

  lemma {:induction false} DepositConsumers(exact: bool, it: Item, c: Cfg, m: multiset<Cfg>, x: Cfg)
    requires Fits(exact, multiset(it.consumers)[x], if x.path == [] then m[x] else 0)
    ensures Fits(exact, multiset(Deposit(it, c).consumers)[x], if x.path == [] then (m + multiset{c})[x] else 0)
  {
    if c.path == [] {
      assert multiset(Deposit(it, c).consumers) == multiset(it.consumers) + multiset{c};
    }
  }

  lemma {:induction false} DepositNext(exact: bool, it: Item, c: Cfg, m: multiset<Cfg>, k: Name, x: Cfg)
    requires KeptOk(exact, it, m, k, x)
    ensures KeptOk(exact, Deposit(it, c), m + multiset{c}, k, x)
  {
    if c.path != [] {
      SamePath(k, x.path, c.path);
      if k == c.path[0] {
        assert multiset(At(Deposit(it, c).cfgs, k)) == multiset(At(it.cfgs, k)) + multiset{Cfg(c.id, c.path[1..])};
      }
    }
  }

  lemma {:induction false} DepositKeeps(exact: bool, it: Item, c: Cfg, m: multiset<Cfg>)
    requires ItemOk(exact, it, m)
    ensures ItemOk(exact, Deposit(it, c), m + multiset{c})
  {
    var it' := Deposit(it, c);
    forall x ensures Fits(exact, multiset(it'.consumers)[x], if x.path == [] then (m + multiset{c})[x] else 0) {
      DepositConsumers(exact, it, c, m, x);
    }
    forall k, x: Cfg | Matters(exact, it'.leaf, [k] + x.path) ensures KeptOk(exact, it', m + multiset{c}, k, x) {
      DepositNext(exact, it, c, m, k, x);
    }
  }

  lemma {:induction false} SamePath(k: Name, rest: Path, p: Path)
    requires p != []
    ensures [k] + rest == p <==> k == p[0] && rest == p[1..]
  {
    assert p == [p[0]] + p[1..];
    assert ([k] + rest)[1..] == rest;
  }

  lemma {:induction false} ExpectedAppend(regs: seq<Reg>, r: Reg, y: Path)
    ensures Expected(regs + [r], y) == Expected(regs, y) + One(r, y)
  {
    assert (regs + [r])[..|regs|] == regs;
  }

  function DoRegister(t: Item, x: Path, c: Cfg): Item {
    if Get(t, x).None? then t else Put(t, x, Register(Get(t, x).value, c))
  }

  /** The item at `y` after registering: changed where the registration covers it. */
  lemma {:induction false} RegisterLocal(t: Item, x: Path, c: Cfg, y: Path)
    requires Get(t, x).Some?
    ensures Get(DoRegister(t, x, c), y).Some? <==> Get(t, y).Some?
    ensures Get(t, y).Some? ==>
              var a, b, r := Get(t, y).value, Get(DoRegister(t, x, c), y).value, Reg(x, c);
              SameLocal(b, if Covers(r, y) then Deposit(a, Left(r, y)) else a)
  {
    var it := Get(t, x).value;
    if x <= y {
      var z := y[|x|..];
      assert y == x + z;
      GetBelow(t, x, z);
      PutBelow(t, x, Register(it, c), z);
      RegisterReaches(it, c, z);
    } else {
      PutElsewhere(t, x, Register(it, c), y);
    }
  }

  lemma {:induction false} DepositOne(exact: bool, a: Item, b: Item, m: multiset<Cfg>, r: Reg, y: Path)
    requires ItemOk(exact, a, m) && SameLocal(b, if Covers(r, y) then Deposit(a, Left(r, y)) else a)
    ensures ItemOk(exact, b, m + One(r, y))
  {
    if Covers(r, y) {
      DepositKeeps(exact, a, Left(r, y), m);
      SameLocalOk(exact, Deposit(a, Left(r, y)), b, m + multiset{Left(r, y)});
    } else {
      assert m + multiset{} == m;
      SameLocalOk(exact, a, b, m);
    }
  }

  lemma {:induction false} RegisterBelow(exact: bool, a: Item, b: Item, regs: seq<Reg>, r: Reg, y: Path)
    requires ItemOk(exact, a, Expected(regs, y)) && SameLocal(b, if Covers(r, y) then Deposit(a, Left(r, y)) else a)
    ensures ItemOk(exact, b, Expected(regs + [r], y))
  {
    ExpectedAppend(regs, r, y);
    DepositOne(exact, a, b, Expected(regs, y), r, y);
  }

  lemma {:induction false} RegisterKeepsLaw(exact: bool, t: Item, regs: seq<Reg>, x: Path, c: Cfg)
    requires Holds(exact, t, regs) && Get(t, x).Some?
    ensures Holds(exact, DoRegister(t, x, c), regs + [Reg(x, c)])
  {
    forall y ensures OkAt(exact, DoRegister(t, x, c), regs + [Reg(x, c)], y) {
      assert OkAt(exact, t, regs, y);
      RegisterLocal(t, x, c, y);
      if Get(t, y).Some? {
        RegisterBelow(exact, Get(t, y).value, Get(DoRegister(t, x, c), y).value, regs, Reg(x, c), y);
      }
    }
  }

  // ----- items going and coming -----

  /** Registrations made on an item that is gone, or below it, are gone with it. */
  function Outside(regs: seq<Reg>, gone: Path): seq<Reg>
    decreases |regs|
  {
    if regs == [] then []
    else
      var n := |regs| - 1;
      Outside(regs[..n], gone) + if gone <= regs[n].at then [] else [regs[n]]
  }

  lemma {:induction false} OutsideSame(regs: seq<Reg>, gone: Path, y: Path)
    requires !(gone <= y)
    ensures Expected(Outside(regs, gone), y) == Expected(regs, y)
    decreases |regs|
  {
    if regs != [] {
      var n := |regs| - 1;
      OutsideSame(regs[..n], gone, y);
      if gone <= regs[n].at {
        NotAbove(gone, regs[n].at, y);
        assert Outside(regs, gone) == Outside(regs[..n], gone);
      } else {
        ExpectedAppend(Outside(regs[..n], gone), regs[n], y);
      }
    }
  }

  lemma {:induction false} PrefixTrans(a: Path, b: Path, c: Path)
    requires a <= b && b <= c
    ensures a <= c
  {
  }

  lemma {:induction false} NotAbove(gone: Path, at: Path, y: Path)
    requires gone <= at && !(gone <= y)
    ensures !(at <= y)
  {
    if at <= y { PrefixTrans(gone, at, y); }
  }

  function DoDel(t: Item, x: Path, name: Name): Item {
    if Get(t, x).None? then t else Put(t, x, DelItem(Get(t, x).value, name))
  }

  lemma {:induction false} DelOkAt(exact: bool, t: Item, regs: seq<Reg>, x: Path, name: Name, y: Path)
    requires Get(t, x).Some? && OkAt(exact, t, regs, y)
    ensures OkAt(exact, DoDel(t, x, name), Outside(regs, x + [name]), y)
  {
    DelLocal(t, x, name, y);
    if Get(DoDel(t, x, name), y).Some? {
      OutsideSame(regs, x + [name], y);
      SameLocalOk(exact, Get(t, y).value, Get(DoDel(t, x, name), y).value, Expected(regs, y));
    }
  }

  /** The items not at or below the deleted one are left, as they were. */
  lemma {:induction false} DelLocal(t: Item, x: Path, name: Name, y: Path)
    requires Get(t, x).Some?
    ensures Get(DoDel(t, x, name), y).Some? <==> Get(t, y).Some? && !(x + [name] <= y)
    ensures Get(DoDel(t, x, name), y).Some? ==> SameLocal(Get(t, y).value, Get(DoDel(t, x, name), y).value)
  {
    var it := Get(t, x).value;
    if x <= y {
      var z := y[|x|..];
      assert y == x + z;
      GetBelow(t, x, z);
      PutBelow(t, x, DelItem(it, name), z);
      FirstStep(x, name, z);
    } else {
      PutElsewhere(t, x, DelItem(it, name), y);
      NotUnderParent(x, name, y);
    }
  }

  lemma {:induction false} FirstStep(x: Path, name: Name, z: Path)
    ensures x + [name] <= x + z <==> z != [] && z[0] == name
  {
    if z != [] {
      assert (x + z)[..|x| + 1] == x + [z[0]];
      assert (x + [name])[|x|] == name && (x + [z[0]])[|x|] == z[0];
    }
  }

  lemma {:induction false} NotUnderParent(x: Path, name: Name, y: Path)
    requires !(x <= y)
    ensures !(x + [name] <= y)
  {
    if x + [name] <= y { PrefixTrans(x, x + [name], y); }
  }

  lemma {:induction false} DelKeepsLaw(exact: bool, t: Item, regs: seq<Reg>, x: Path, name: Name)
    requires Holds(exact, t, regs) && Get(t, x).Some?
    ensures Holds(exact, DoDel(t, x, name), Outside(regs, x + [name]))
  {
    forall y ensures OkAt(exact, DoDel(t, x, name), Outside(regs, x + [name]), y) {
      assert OkAt(exact, t, regs, y);
      DelOkAt(exact, t, regs, x, name, y);
    }
  }

  lemma {:induction false} RegisterHere(it: Item, c: Cfg)
    ensures SameLocal(Register(it, c), Deposit(it, c)) && Register(it, c).children.Keys == it.children.Keys
  {
  }

  lemma {:induction false} MultisetLast(list: seq<Cfg>)
    requires list != []
    ensures multiset(list) == multiset(list[..|list| - 1]) + multiset{list[|list| - 1]}
  {
    assert list == list[..|list| - 1] + [list[|list| - 1]];
  }

  /** A new item that was handed a list of registrations holds exactly these. */
  lemma {:induction false} RegisterAllHolds(exact: bool, leaf: bool, list: seq<Cfg>)
    ensures RegisterAll(Fresh(leaf), list).children.Keys == {} && RegisterAll(Fresh(leaf), list).leaf == leaf
    ensures ItemOk(exact, RegisterAll(Fresh(leaf), list), multiset(list))
    decreases |list|
  {
    if list != [] {
      var n := |list| - 1;
      RegisterAllHolds(exact, leaf, list[..n]);
      var it := RegisterAll(Fresh(leaf), list[..n]);
      DepositKeeps(exact, it, list[n], multiset(list[..n]));
      RegisterHere(it, list[n]);
      MultisetLast(list);
      SameLocalOk(exact, Deposit(it, list[n]), Register(it, list[n]), multiset(list));
    }
  }

  ghost predicate NoneWithin(regs: seq<Reg>, gone: Path) {
    forall i | 0 <= i < |regs| :: !(gone <= regs[i].at)
  }

  /** What a parent passes on to a child of that name. */
  lemma {:induction false} ExpectedOfChild(regs: seq<Reg>, x: Path, name: Name, c: Cfg)
    requires name != ANY && NoneWithin(regs, x + [name])
    ensures Expected(regs, x + [name])[c]
         == Expected(regs, x)[Cfg(c.id, [ANY] + c.path)] + Expected(regs, x)[Cfg(c.id, [name] + c.path)]
    decreases |regs|
  {
    if regs != [] {
      var n := |regs| - 1;
      ExpectedOfChild(regs[..n], x, name, c);
      OneOfChild(regs[n], x, name, c);
      var a, b := Cfg(c.id, [ANY] + c.path), Cfg(c.id, [name] + c.path);
      assert Expected(regs, x)[a] == Expected(regs[..n], x)[a] + One(regs[n], x)[a];
      assert Expected(regs, x)[b] == Expected(regs[..n], x)[b] + One(regs[n], x)[b];
    }
  }

  lemma {:induction false} OneOfChild(r: Reg, x: Path, name: Name, c: Cfg)
    requires name != ANY && !(x + [name] <= r.at)
    ensures One(r, x + [name])[c] == One(r, x)[Cfg(c.id, [ANY] + c.path)] + One(r, x)[Cfg(c.id, [name] + c.path)]
  {
    CoversParent(r, x, name);
    assert ([ANY] + c.path)[0] != ([name] + c.path)[0];
    if Covers(r, x) {
      var d, p := |x| - |r.at|, r.cfg.path;
      if d < |p| {
        SamePath(ANY, c.path, p[d..]);
        SamePath(name, c.path, p[d..]);
        assert p[d..][1..] == p[d + 1..];
      }
    }
  }

  lemma {:induction false} PrefixOfAppend(a: Path, x: Path, name: Name)
    ensures a <= x + [name] <==> a <= x || a == x + [name]
  {
    if a <= x + [name] && |a| <= |x| { assert a == (x + [name])[..|a|] == x[..|a|]; }
  }

  lemma {:induction false} CoversParent(r: Reg, x: Path, name: Name)
    requires !(x + [name] <= r.at)
    ensures Covers(r, x + [name])
       <==> Covers(r, x) && |x| - |r.at| < |r.cfg.path| && Selects(r.cfg.path[|x| - |r.at|], name)
  {
    PrefixOfAppend(r.at, x, name);
    if r.at <= x {
      assert (x + [name])[|r.at|..] == x[|r.at|..] + [name];
      UnderAppend(r.cfg.path, x[|r.at|..], name);
    }
  }

  lemma {:induction false} UnderAppend(p: Path, z: Path, name: Name)
    ensures Under(p, z + [name]) <==> Under(p, z) && |z| < |p| && Selects(p[|z|], name)
  {
    var w := z + [name];
    if Under(p, w) {
      assert Selects(p[|z|], w[|z|]);
      forall i | 0 <= i < |z| ensures Selects(p[i], z[i]) { assert Selects(p[i], w[i]); }
    }
  }

  lemma {:induction false} OutsideNone(regs: seq<Reg>, gone: Path)
    ensures NoneWithin(Outside(regs, gone), gone)
    decreases |regs|
  {
    if regs != [] { OutsideNone(regs[..|regs| - 1], gone); }
  }

  lemma {:induction false} HandedCount(it: Item, name: Name, c: Cfg)
    ensures multiset(Handed(it, name))[c] == multiset(At(it.cfgs, ANY))[c] + multiset(At(it.cfgs, name))[c]
  {
  }

  lemma {:induction false} ExpectedOfNew(regs: seq<Reg>, x: Path, name: Name, c: Cfg)
    requires name != ANY
    ensures Expected(Outside(regs, x + [name]), x + [name])[c]
         == Expected(regs, x)[Cfg(c.id, [ANY] + c.path)] + Expected(regs, x)[Cfg(c.id, [name] + c.path)]
  {
    OutsideNone(regs, x + [name]);
    OutsideSame(regs, x + [name], x);
    ExpectedOfChild(Outside(regs, x + [name]), x, name, c);
  }

  /** It is what the registrations come to at its path. */
  lemma {:induction false} HandedIsExpected(exact: bool, it: Item, regs: seq<Reg>, x: Path, name: Name, c: Cfg)
    requires ItemOk(exact, it, Expected(regs, x)) && CanAdd(it, name) && (exact ==> Possible(c.path))
    ensures Fits(exact, multiset(Handed(it, name))[c], Expected(Outside(regs, x + [name]), x + [name])[c])
  {
    ExpectedOfNew(regs, x, name, c);
    HandedCount(it, name, c);
    assert Matters(exact, it.leaf, [ANY] + c.path) && Matters(exact, it.leaf, [name] + c.path);
    assert KeptOk(exact, it, Expected(regs, x), ANY, c) && KeptOk(exact, it, Expected(regs, x), name, c);
  }

  function DoAdd(t: Item, x: Path, name: Name, leaf: bool): Item {
    if Get(t, x).None? then t else Put(t, x, AddItem(Get(t, x).value, name, leaf))
  }

  lemma {:induction false} NewItemOk(exact: bool, it: Item, regs: seq<Reg>, x: Path, name: Name, leaf: bool)
    requires ItemOk(exact, it, Expected(regs, x)) && CanAdd(it, name)
    ensures ItemOk(exact, RegisterAll(Fresh(leaf), Handed(it, name)), Expected(Outside(regs, x + [name]), x + [name]))
  {
    var m := Expected(Outside(regs, x + [name]), x + [name]);
    RegisterAllHolds(exact, leaf, Handed(it, name));
    forall c: Cfg | exact ==> Possible(c.path) ensures Fits(exact, multiset(Handed(it, name))[c], m[c]) {
      HandedIsExpected(exact, it, regs, x, name, c);
    }
    ItemOkThrough(exact, RegisterAll(Fresh(leaf), Handed(it, name)), multiset(Handed(it, name)), m);
  }

  /** Of the paths through a new item only its own has an item. */
  lemma {:induction false} AddNew(t: Item, x: Path, name: Name, leaf: bool, z: Path)
    requires Get(t, x).Some? && CanAdd(Get(t, x).value, name)
    ensures Get(DoAdd(t, x, name, leaf), x + ([name] + z))
         == if z == [] then Some(RegisterAll(Fresh(leaf), Handed(Get(t, x).value, name))) else None
  {
    var it := Get(t, x).value;
    PutBelow(t, x, AddItem(it, name, leaf), [name] + z);
    assert ([name] + z)[1..] == z;
    RegisterAllHolds(true, leaf, Handed(it, name));
  }

  lemma {:induction false} AddOkNew(exact: bool, t: Item, regs: seq<Reg>, x: Path, name: Name, leaf: bool, z: Path)
    requires Get(t, x).Some? && CanAdd(Get(t, x).value, name) && OkAt(exact, t, regs, x)
    ensures OkAt(exact, DoAdd(t, x, name, leaf), Outside(regs, x + [name]), x + ([name] + z))
  {
    AddNew(t, x, name, leaf, z);
    if z == [] {
      NewItemOk(exact, Get(t, x).value, regs, x, name, leaf);
      assert x + ([name] + z) == x + [name];
    }
  }

  lemma {:induction false} AddOld(t: Item, x: Path, name: Name, leaf: bool, y: Path)
    requires Get(t, x).Some? && CanAdd(Get(t, x).value, name) && !(x + [name] <= y)
    ensures Get(DoAdd(t, x, name, leaf), y).Some? <==> Get(t, y).Some?
    ensures Get(t, y).Some? ==> SameLocal(Get(t, y).value, Get(DoAdd(t, x, name, leaf), y).value)
  {
    var it := Get(t, x).value;
    if x <= y {
      var z := y[|x|..];
      assert y == x + z;
      GetBelow(t, x, z);
      PutBelow(t, x, AddItem(it, name, leaf), z);
      FirstStep(x, name, z);
    } else {
      PutElsewhere(t, x, AddItem(it, name, leaf), y);
    }
  }

  lemma {:induction false} AddOkOld(exact: bool, t: Item, regs: seq<Reg>, x: Path, name: Name, leaf: bool, y: Path)
    requires Get(t, x).Some? && CanAdd(Get(t, x).value, name) && OkAt(exact, t, regs, y) && !(x + [name] <= y)
    ensures OkAt(exact, DoAdd(t, x, name, leaf), Outside(regs, x + [name]), y)
  {
    OutsideSame(regs, x + [name], y);
    AddOld(t, x, name, leaf, y);
    if Get(t, y).Some? {
      SameLocalOk(exact, Get(t, y).value, Get(DoAdd(t, x, name, leaf), y).value, Expected(regs, y));
    }
  }

  lemma {:induction false} AddOkAt(exact: bool, t: Item, regs: seq<Reg>, x: Path, name: Name, leaf: bool, y: Path)
    requires Get(t, x).Some? && CanAdd(Get(t, x).value, name) && OkAt(exact, t, regs, x) && OkAt(exact, t, regs, y)
    ensures OkAt(exact, DoAdd(t, x, name, leaf), Outside(regs, x + [name]), y)
  {
    if x + [name] <= y {
      var z := y[|x| + 1..];
      assert y == x + ([name] + z);
      AddOkNew(exact, t, regs, x, name, leaf, z);
    } else {
      AddOkOld(exact, t, regs, x, name, leaf, y);
    }
  }

  lemma {:induction false} AddKeepsLaw(exact: bool, t: Item, regs: seq<Reg>, x: Path, name: Name, leaf: bool)
    requires Holds(exact, t, regs) && Get(t, x).Some? && CanAdd(Get(t, x).value, name)
    ensures Holds(exact, DoAdd(t, x, name, leaf), Outside(regs, x + [name]))
  {
    assert OkAt(exact, t, regs, x);
    forall y ensures OkAt(exact, DoAdd(t, x, name, leaf), Outside(regs, x + [name]), y) {
      assert OkAt(exact, t, regs, y);
      AddOkAt(exact, t, regs, x, name, leaf, y);
    }
  }

  // ----- taking a registration back -----

  function Dropped(regs: seq<Reg>, r: Reg): seq<Reg>
    decreases |regs|
  {
    if regs == [] then []
    else
      var n := |regs| - 1;
      Dropped(regs[..n], r) + if regs[n] == r then [] else [regs[n]]
  }

  lemma {:induction false} InDropped(regs: seq<Reg>, r: Reg, q: Reg)
    ensures q in Dropped(regs, r) <==> q in regs && q != r
    decreases |regs|
  {
    if regs != [] {
      InDropped(regs[..|regs| - 1], r, q);
      assert regs == regs[..|regs| - 1] + [regs[|regs| - 1]];
    }
  }

  lemma {:induction false} DroppedSame(regs: seq<Reg>, r: Reg, y: Path, e: Cfg)
    requires One(r, y)[e] == 0
    ensures Expected(Dropped(regs, r), y)[e] == Expected(regs, y)[e]
    decreases |regs|
  {
    if regs != [] {
      var n := |regs| - 1;
      DroppedSame(regs[..n], r, y, e);
      if regs[n] == r {
        assert Dropped(regs, r) == Dropped(regs[..n], r);
      } else {
        ExpectedAppend(Dropped(regs[..n], r), regs[n], y);
      }
    }
  }

  ghost predicate Brings(q: Reg, y: Path, e: Cfg) {
    Covers(q, y) && Left(q, y) == e
  }

  lemma {:induction false} ExpectedHas(regs: seq<Reg>, y: Path, e: Cfg)
    ensures Expected(regs, y)[e] > 0 <==> exists q :: q in regs && Brings(q, y, e)
    decreases |regs|
  {
    if regs != [] {
      var n := |regs| - 1;
      ExpectedHas(regs[..n], y, e);
      assert regs == regs[..n] + [regs[n]];
      if Brings(regs[n], y, e) {
        assert regs[n] in regs;
      } else if Expected(regs, y)[e] > 0 {
        var q :| q in regs[..n] && Brings(q, y, e);
        assert q in regs;
      }
    }
  }

  lemma {:induction false} CountCons(c: Cfg, list: seq<Cfg>, x: Cfg)
    ensures multiset([c] + list)[x] == multiset(list)[x] + (if c == x then 1 else 0)
  {
  }

  lemma {:induction false} WithoutCount(list: seq<Cfg>, id: nat, x: Cfg)
    ensures multiset(Without(list, id))[x] == if x.id == id then 0 else multiset(list)[x]
    decreases |list|
  {
    if list != [] {
      var rest := Without(list[1..], id);
      WithoutCount(list[1..], id, x);
      CountCons(list[0], list[1..], x);
      assert list == [list[0]] + list[1..];
      if list[0].id == id {
        assert [] + rest == rest;
      } else {
        CountCons(list[0], rest, x);
      }
    }
  }

  function DoUnregister(t: Item, x: Path, c: Cfg): Item {
    if Get(t, x).None? then t else Put(t, x, Unregister(Get(t, x).value, c))
  }

  /** A configuration has one pattern, wherever it is registered. */
  ghost predicate OnePattern(regs: seq<Reg>, c: Cfg) {
    forall q | q in regs && q.cfg.id == c.id :: q.cfg == c
  }

  /** `q` keeps an entry in the very list that taking `r` back clears at `y`. */
  predicate SharesList(q: Reg, r: Reg, y: Path) {
    && q.cfg == r.cfg && q != r && Covers(q, y) && Covers(r, y)
    && Left(q, y).path != [] && Left(r, y).path != [] && Left(q, y).path[0] == Left(r, y).path[0]
  }

  /** ... and it may yet lead to an item. */
  ghost predicate Clash(regs: seq<Reg>, r: Reg, y: Path) {
    exists q :: q in regs && SharesList(q, r, y) && Possible(Left(q, y).path)
  }

  lemma {:induction false} SamePlace(a: Path, b: Path, y: Path)
    requires a <= y && b <= y && |a| == |b|
    ensures a == b
  {
  }

  /** Where the pattern ends there is one place a configuration can have been registered. */
  lemma {:induction false} EndsOnce(regs: seq<Reg>, r: Reg, y: Path)
    requires OnePattern(regs, r.cfg) && Covers(r, y) && Left(r, y).path == []
    ensures Expected(Dropped(regs, r), y)[Cfg(r.cfg.id, [])] == 0
  {
    var e := Cfg(r.cfg.id, []);
    ExpectedHas(Dropped(regs, r), y, e);
    forall q | q in Dropped(regs, r) ensures !Brings(q, y, e) {
      InDropped(regs, r, q);
      if Covers(q, y) && |q.at| == |r.at| { SamePlace(q.at, r.at, y); }
    }
  }

  lemma {:induction false} ListCleared(regs: seq<Reg>, r: Reg, y: Path, p: Path)
    requires OnePattern(regs, r.cfg) && Covers(r, y) && Left(r, y).path != []
    requires !Clash(regs, r, y) && Possible([Left(r, y).path[0]] + p)
    ensures Expected(Dropped(regs, r), y)[Cfg(r.cfg.id, [Left(r, y).path[0]] + p)] == 0
  {
    var e := Cfg(r.cfg.id, [Left(r, y).path[0]] + p);
    ExpectedHas(Dropped(regs, r), y, e);
    forall q | q in Dropped(regs, r) ensures !Brings(q, y, e) {
      InDropped(regs, r, q);
      assert !(SharesList(q, r, y) && Possible(Left(q, y).path));
    }
  }

  lemma {:induction false} WithdrawConsumers(it: Item, regs: seq<Reg>, r: Reg, y: Path, e: Cfg)
    requires ItemOk(true, it, Expected(regs, y)) && OnePattern(regs, r.cfg) && Covers(r, y)
    ensures multiset(Withdraw(it, Left(r, y)).consumers)[e] == if e.path == [] then Expected(Dropped(regs, r), y)[e] else 0
  {
    WithoutCount(it.consumers, r.cfg.id, e);
    if Left(r, y).path == [] {
      EndsOnce(regs, r, y);
      if e.id != r.cfg.id { DroppedSame(regs, r, y, e); }
    } else if e.path == [] {
      DroppedSame(regs, r, y, e);
    }
  }

  lemma {:induction false} WithdrawList(it: Item, c: Cfg, k: Name, x: Cfg)
    ensures multiset(At(Withdraw(it, c).cfgs, k))[x]
         == if c.path != [] && c.path[0] == k && x.id == c.id then 0 else multiset(At(it.cfgs, k))[x]
  {
    WithoutCount(At(it.cfgs, k), c.id, x);
  }

  /** What is cleared is what the registration brought to the list, together with what shares it. */
  predicate Cleared(c: Cfg, k: Name, x: Cfg) {
    c.path != [] && c.path[0] == k && x.id == c.id
  }

  lemma {:induction false} NotCleared(regs: seq<Reg>, r: Reg, y: Path, k: Name, x: Cfg)
    requires Covers(r, y) && !Cleared(Left(r, y), k, x)
    ensures Expected(Dropped(regs, r), y)[Cfg(x.id, [k] + x.path)] == Expected(regs, y)[Cfg(x.id, [k] + x.path)]
  {
    var e := Cfg(x.id, [k] + x.path);
    assert e.path[0] == k;
    DroppedSame(regs, r, y, e);
  }

  lemma {:induction false} WithdrawCfgs(it: Item, regs: seq<Reg>, r: Reg, y: Path, k: Name, x: Cfg)
    requires KeptOk(true, it, Expected(regs, y), k, x) && Possible([k] + x.path)
    requires OnePattern(regs, r.cfg) && Covers(r, y) && !Clash(regs, r, y)
    ensures KeptOk(true, Withdraw(it, Left(r, y)), Expected(Dropped(regs, r), y), k, x)
  {
    WithdrawList(it, Left(r, y), k, x);
    if Cleared(Left(r, y), k, x) {
      ListCleared(regs, r, y, x.path);
    } else {
      NotCleared(regs, r, y, k, x);
    }
  }

  lemma {:induction false} WithdrawOk(it: Item, regs: seq<Reg>, r: Reg, y: Path)
    requires ItemOk(true, it, Expected(regs, y)) && OnePattern(regs, r.cfg) && Covers(r, y)
    requires it.leaf || !Clash(regs, r, y)
    ensures ItemOk(true, Withdraw(it, Left(r, y)), Expected(Dropped(regs, r), y))
  {
    var it', m := Withdraw(it, Left(r, y)), Expected(Dropped(regs, r), y);
    forall e ensures multiset(it'.consumers)[e] == if e.path == [] then m[e] else 0 {
      WithdrawConsumers(it, regs, r, y, e);
    }
    forall k, x: Cfg | Matters(true, it'.leaf, [k] + x.path) ensures KeptOk(true, it', m, k, x) {
      WithdrawCfgs(it, regs, r, y, k, x);
    }
  }

  lemma {:induction false} WithdrawFewer(it: Item, regs: seq<Reg>, r: Reg, y: Path, e: Cfg)
    requires Fits(false, multiset(it.consumers)[e], if e.path == [] then Expected(regs, y)[e] else 0) && Covers(r, y)
    ensures Fits(false, multiset(Withdraw(it, Left(r, y)).consumers)[e],
                 if e.path == [] then Expected(Dropped(regs, r), y)[e] else 0)
  {
    WithoutCount(it.consumers, r.cfg.id, e);
    if !(Left(r, y).path == [] && e.id == r.cfg.id) && e.path == [] {
      DroppedSame(regs, r, y, e);
    }
  }

  /** Too much may be taken, but never too little. */
  lemma {:induction false} WithdrawLeavesNoMore(it: Item, regs: seq<Reg>, r: Reg, y: Path)
    requires ItemOk(false, it, Expected(regs, y)) && Covers(r, y)
    ensures ItemOk(false, Withdraw(it, Left(r, y)), Expected(Dropped(regs, r), y))
  {
    var it', m := Withdraw(it, Left(r, y)), Expected(Dropped(regs, r), y);
    forall e ensures Fits(false, multiset(it'.consumers)[e], if e.path == [] then m[e] else 0) {
      WithdrawFewer(it, regs, r, y, e);
    }
    forall k, x ensures KeptOk(false, it', m, k, x) {
      assert KeptOk(false, it, Expected(regs, y), k, x);
      WithdrawList(it, Left(r, y), k, x);
      if !Cleared(Left(r, y), k, x) { NotCleared(regs, r, y, k, x); }
    }
  }

  lemma {:induction false} StillWanted(regs: seq<Reg>, r: Reg, q: Reg, y: Path)
    requires q in regs && q != r && Covers(q, y)
    ensures Expected(Dropped(regs, r), y)[Left(q, y)] > 0
  {
    InDropped(regs, r, q);
    assert Brings(q, y, Left(q, y));
    ExpectedHas(Dropped(regs, r), y, Left(q, y));
  }

  /** With a clash, an entry that is still wanted is gone. */
  lemma {:induction false} WithdrawTooMuch(it: Item, regs: seq<Reg>, r: Reg, y: Path)
    requires Clash(regs, r, y) && !it.leaf
    ensures !ItemOk(true, Withdraw(it, Left(r, y)), Expected(Dropped(regs, r), y))
  {
    var q :| q in regs && SharesList(q, r, y) && Possible(Left(q, y).path);
    StillWanted(regs, r, q, y);
    WantedIsGone(it, Left(r, y), Left(q, y), Expected(Dropped(regs, r), y));
  }

  lemma {:induction false} WantedIsGone(it: Item, c: Cfg, e: Cfg, m: multiset<Cfg>)
    requires c.path != [] && e.path != [] && c.path[0] == e.path[0] && c.id == e.id && m[e] > 0
    requires !it.leaf && Possible(e.path)
    ensures !ItemOk(true, Withdraw(it, c), m)
  {
    var k, x := e.path[0], Cfg(e.id, e.path[1..]);
    assert [k] + x.path == e.path;
    WithdrawList(it, c, k, x);
    assert Matters(true, Withdraw(it, c).leaf, [k] + x.path) && !KeptOk(true, Withdraw(it, c), m, k, x);
  }

  lemma {:induction false} DroppedAll(regs: seq<Reg>, r: Reg, y: Path)
    requires !Covers(r, y)
    ensures Expected(Dropped(regs, r), y) == Expected(regs, y)
  {
    forall e ensures Expected(Dropped(regs, r), y)[e] == Expected(regs, y)[e] {
      DroppedSame(regs, r, y, e);
    }
  }

  lemma {:induction false} UnregisterLocal(t: Item, x: Path, c: Cfg, y: Path)
    requires Get(t, x).Some?
    ensures Get(DoUnregister(t, x, c), y).Some? <==> Get(t, y).Some?
    ensures Get(t, y).Some? ==>
              var a, b, r := Get(t, y).value, Get(DoUnregister(t, x, c), y).value, Reg(x, c);
              SameLocal(b, if Covers(r, y) then Withdraw(a, Left(r, y)) else a)
  {
    var it := Get(t, x).value;
    if x <= y {
      var z := y[|x|..];
      assert y == x + z;
      GetBelow(t, x, z);
      PutBelow(t, x, Unregister(it, c), z);
      UnregisterReaches(it, c, z);
    } else {
      PutElsewhere(t, x, Unregister(it, c), y);
    }
  }

  lemma {:induction false} UnregisterBelow(a: Item, b: Item, regs: seq<Reg>, r: Reg, y: Path)
    requires OnePattern(regs, r.cfg) && ItemOk(true, a, Expected(regs, y))
    requires SameLocal(b, if Covers(r, y) then Withdraw(a, Left(r, y)) else a)
    ensures ItemOk(true, b, Expected(Dropped(regs, r), y)) <==> a.leaf || !Clash(regs, r, y)
  {
    if !Covers(r, y) {
      DroppedAll(regs, r, y);
      SameLocalOk(true, a, b, Expected(regs, y));
    } else if !a.leaf && Clash(regs, r, y) {
      WithdrawTooMuch(a, regs, r, y);
      if ItemOk(true, b, Expected(Dropped(regs, r), y)) {
        SameLocalOk(true, b, Withdraw(a, Left(r, y)), Expected(Dropped(regs, r), y));
      }
    } else {
      WithdrawOk(a, regs, r, y);
      SameLocalOk(true, Withdraw(a, Left(r, y)), b, Expected(Dropped(regs, r), y));
    }
  }

  /** An item that can have children keeps, in a list that gets cleared at `y`, an entry of the same
      configuration registered elsewhere that may yet lead to an item. */
  ghost predicate ClashAt(t: Item, regs: seq<Reg>, r: Reg, y: Path) {
    Get(t, y).Some? && !Get(t, y).value.leaf && Clash(regs, r, y)
  }

  /** Taking a registration back keeps the law exactly when there is no such clash. */
  lemma {:induction false} UnregisterKeepsLawIff(t: Item, regs: seq<Reg>, x: Path, c: Cfg)
    requires Law(t, regs) && Get(t, x).Some? && OnePattern(regs, c)
    ensures Law(DoUnregister(t, x, c), Dropped(regs, Reg(x, c))) <==> forall y :: !ClashAt(t, regs, Reg(x, c), y)
  {
    var t', regs', r := DoUnregister(t, x, c), Dropped(regs, Reg(x, c)), Reg(x, c);
    forall y ensures OkAt(true, t', regs', y) <==> !ClashAt(t, regs, r, y) {
      assert OkAt(true, t, regs, y);
      UnregisterLocal(t, x, c, y);
      if Get(t, y).Some? {
        UnregisterBelow(Get(t, y).value, Get(t', y).value, regs, r, y);
      }
    }
  }

  lemma {:induction false} UnregisterBelowNoMore(a: Item, b: Item, regs: seq<Reg>, r: Reg, y: Path)
    requires ItemOk(false, a, Expected(regs, y)) && SameLocal(b, if Covers(r, y) then Withdraw(a, Left(r, y)) else a)
    ensures ItemOk(false, b, Expected(Dropped(regs, r), y))
  {
    if Covers(r, y) {
      WithdrawLeavesNoMore(a, regs, r, y);
      SameLocalOk(false, Withdraw(a, Left(r, y)), b, Expected(Dropped(regs, r), y));
    } else {
      DroppedAll(regs, r, y);
      SameLocalOk(false, a, b, Expected(regs, y));
    }
  }

  lemma {:induction false} UnregisterLeavesNoMore(t: Item, regs: seq<Reg>, x: Path, c: Cfg)
    requires Holds(false, t, regs) && Get(t, x).Some?
    ensures Holds(false, DoUnregister(t, x, c), Dropped(regs, Reg(x, c)))
  {
    forall y ensures OkAt(false, DoUnregister(t, x, c), Dropped(regs, Reg(x, c)), y) {
      assert OkAt(false, t, regs, y);
      UnregisterLocal(t, x, c, y);
      if Get(t, y).Some? {
        UnregisterBelowNoMore(Get(t, y).value, Get(DoUnregister(t, x, c), y).value, regs, Reg(x, c), y);
      }
    }
  }

  // ----- every run -----

  datatype Op =
    | AddOp(at: Path, name: Name, leaf: bool)
    | DelOp(at: Path, name: Name)
    | RegOp(at: Path, cfg: Cfg)
    | UnregOp(at: Path, cfg: Cfg)

  datatype Sys = Sys(tree: Item, regs: seq<Reg>)

  const INIT: Sys := Sys(Item(false, map[], map[], []), [])

  /** Operations are made on items that exist; a name that may not be added leaves everything as it is. */
  function Step(s: Sys, op: Op): Sys {
    if Get(s.tree, op.at).None? then s
    else match op
      case AddOp(x, name, leaf) =>
        Sys(DoAdd(s.tree, x, name, leaf),
            if CanAdd(Get(s.tree, x).value, name) then Outside(s.regs, x + [name]) else s.regs)
      case DelOp(x, name) => Sys(DoDel(s.tree, x, name), Outside(s.regs, x + [name]))
      case RegOp(x, c) => Sys(DoRegister(s.tree, x, c), s.regs + [Reg(x, c)])
      case UnregOp(x, c) => Sys(DoUnregister(s.tree, x, c), Dropped(s.regs, Reg(x, c)))
  }

  /** Only taking back needs care. */
  ghost predicate Careful(s: Sys, op: Op) {
    op.UnregOp? ==> OnePattern(s.regs, op.cfg) && forall y :: !ClashAt(s.tree, s.regs, Reg(op.at, op.cfg), y)
  }

  lemma {:induction false} StepKeepsLaw(exact: bool, s: Sys, op: Op)
    requires Holds(exact, s.tree, s.regs) && (exact ==> Careful(s, op))
    ensures Holds(exact, Step(s, op).tree, Step(s, op).regs)
  {
    if Get(s.tree, op.at).Some? {
      match op
      case AddOp(x, name, leaf) =>
        if CanAdd(Get(s.tree, x).value, name) {
          AddKeepsLaw(exact, s.tree, s.regs, x, name, leaf);
        } else {
          PutSame(s.tree, x);
        }
      case DelOp(x, name) => DelKeepsLaw(exact, s.tree, s.regs, x, name);
      case RegOp(x, c) => RegisterKeepsLaw(exact, s.tree, s.regs, x, c);
      case UnregOp(x, c) =>
        if exact {
          UnregisterKeepsLawIff(s.tree, s.regs, x, c);
        } else {
          UnregisterLeavesNoMore(s.tree, s.regs, x, c);
        }
    }
  }

  ghost predicate AllCareful(s: Sys, run: seq<Op>)
    decreases |run|
  {
    run == [] || (Careful(s, run[0]) && AllCareful(Step(s, run[0]), run[1..]))
  }

  function Run(s: Sys, run: seq<Op>): Sys
    decreases |run|
  {
    if run == [] then s else Run(Step(s, run[0]), run[1..])
  }

  lemma {:induction false} RunKeepsLaw(exact: bool, s: Sys, run: seq<Op>)
    requires Holds(exact, s.tree, s.regs) && (exact ==> AllCareful(s, run))
    ensures Holds(exact, Run(s, run).tree, Run(s, run).regs)
    decreases |run|
  {
    if run != [] {
      StepKeepsLaw(exact, s, run[0]);
      RunKeepsLaw(exact, Step(s, run[0]), run[1..]);
    }
  }

  lemma {:induction false} InitLaw(exact: bool)
    ensures Holds(exact, INIT.tree, INIT.regs)
  {
    forall y ensures OkAt(exact, INIT.tree, INIT.regs, y) {
      assert y != [] ==> Get(INIT.tree, y).None?;
    }
  }

  // ----- which items there are -----

  /** A flat table of the items: for each path whether the item there is a leaf. */
  type Table = map<Path, bool>

  function Spared(m: Table, gone: Path): Table {
    map y | y in m && !(gone <= y) :: m[y]
  }

  function Tabled(m: Table, op: Op): Table {
    if op.at !in m then m
    else match op
      case AddOp(x, name, leaf) =>
        if m[x] || name == "" || name == ANY then m else Spared(m, x + [name])[x + [name] := leaf]
      case DelOp(x, name) => Spared(m, x + [name])
      case RegOp(_, _) => m
      case UnregOp(_, _) => m
  }

  function TabledRun(m: Table, run: seq<Op>): Table
    decreases |run|
  {
    if run == [] then m else TabledRun(Tabled(m, run[0]), run[1..])
  }

  ghost predicate ShownAt(t: Item, m: Table, y: Path) {
    (y in m <==> Get(t, y).Some?) && (y in m ==> m[y] == Get(t, y).value.leaf)
  }

  ghost predicate Shows(t: Item, m: Table) {
    forall y :: ShownAt(t, m, y)
  }

  lemma {:induction false} AddShows(t: Item, m: Table, x: Path, name: Name, leaf: bool, y: Path)
    requires ShownAt(t, m, y) && Get(t, x).Some? && CanAdd(Get(t, x).value, name)
    ensures ShownAt(DoAdd(t, x, name, leaf), Spared(m, x + [name])[x + [name] := leaf], y)
  {
    if x + [name] <= y {
      var z := y[|x| + 1..];
      assert y == x + ([name] + z);
      assert z == [] <==> y == x + [name];
      AddNew(t, x, name, leaf, z);
      RegisterAllHolds(true, leaf, Handed(Get(t, x).value, name));
    } else {
      AddOld(t, x, name, leaf, y);
    }
  }

  lemma {:induction false} StepShows(s: Sys, m: Table, op: Op)
    requires Shows(s.tree, m)
    ensures Shows(Step(s, op).tree, Tabled(m, op))
  {
    assert ShownAt(s.tree, m, op.at);
    if op.at in m {
      forall y ensures ShownAt(Step(s, op).tree, Tabled(m, op), y) {
        assert ShownAt(s.tree, m, y);
        match op
        case AddOp(x, name, leaf) =>
          if CanAdd(Get(s.tree, x).value, name) {
            AddShows(s.tree, m, x, name, leaf, y);
          } else {
            PutSame(s.tree, x);
          }
        case DelOp(x, name) => DelLocal(s.tree, x, name, y);
        case RegOp(x, c) => RegisterLocal(s.tree, x, c, y);
        case UnregOp(x, c) => UnregisterLocal(s.tree, x, c, y);
      }
    }
  }

  lemma {:induction false} RunShows(s: Sys, m: Table, run: seq<Op>)
    requires Shows(s.tree, m)
    ensures Shows(Run(s, run).tree, TabledRun(m, run))
    decreases |run|
  {
    if run != [] {
      StepShows(s, m, run[0]);
      RunShows(Step(s, run[0]), Tabled(m, run[0]), run[1..]);
    }
  }

  /** After any run the tree has exactly the items of the flat table: an item that is added takes the place
      of whatever was at its path or below, one that is deleted goes with all below it, and no other item
      comes, goes or turns into a leaf. */
  lemma {:induction false} TreeIsTable(run: seq<Op>, y: Path)
    ensures ShownAt(Run(INIT, run).tree, TabledRun(map[[] := false], run), y)
  {
    forall z ensures ShownAt(INIT.tree, map[[] := false], z) {
      assert z != [] ==> Get(INIT.tree, z).None?;
    }
    RunShows(INIT, map[[] := false], run);
  }

  /** The registration selects exactly the path `y`. */
  predicate Matches(r: Reg, y: Path) {
    r.at <= y && |y| - |r.at| == |r.cfg.path|
    && forall i | 0 <= i < |r.cfg.path| :: Selects(r.cfg.path[i], y[|r.at| + i])
  }

  /** How often the configuration is actively registered so that it selects `y`. */
  function Matching(regs: seq<Reg>, id: nat, y: Path): nat
    decreases |regs|
  {
    if regs == [] then 0
    else
      var n := |regs| - 1;
      Matching(regs[..n], id, y) + if regs[n].cfg.id == id && Matches(regs[n], y) then 1 else 0
  }

  lemma {:induction false} MatchesIsEnding(r: Reg, y: Path)
    ensures Matches(r, y) <==> Covers(r, y) && Left(r, y).path == []
  {
    if r.at <= y {
      var z := y[|r.at|..];
      assert forall i | 0 <= i < |z| :: z[i] == y[|r.at| + i];
    }
  }

  lemma {:induction false} ExpectedEnds(regs: seq<Reg>, id: nat, y: Path)
    ensures Expected(regs, y)[Cfg(id, [])] == Matching(regs, id, y)
    decreases |regs|
  {
    if regs != [] {
      ExpectedEnds(regs[..|regs| - 1], id, y);
      MatchesIsEnding(regs[|regs| - 1], y);
    }
  }

  function Consumers(s: Sys, y: Path, id: nat): nat {
    if Get(s.tree, y).Some? then multiset(Get(s.tree, y).value.consumers)[Cfg(id, [])] else 0
  }

  /** Every item notifies exactly who selects its path, each as often as registered. */
  ghost predicate Right(s: Sys) {
    forall y, id :: Get(s.tree, y).Some? ==> Consumers(s, y, id) == Matching(s.regs, id, y)
  }

  lemma {:induction false} LawIsRight(s: Sys)
    requires Law(s.tree, s.regs)
    ensures Right(s)
  {
    forall y, id | Get(s.tree, y).Some? ensures Consumers(s, y, id) == Matching(s.regs, id, y) {
      assert OkAt(true, s.tree, s.regs, y);
      ExpectedEnds(s.regs, id, y);
    }
  }

  /** After any run, an item's consumers are exactly the active registrations that select its path, each as
      often as it was made, whether the item or the registration came first. */
  lemma {:induction false} ConsumersAreMatches(run: seq<Op>, y: Path, id: nat)
    requires AllCareful(INIT, run) && Get(Run(INIT, run).tree, y).Some?
    ensures Consumers(Run(INIT, run), y, id) == Matching(Run(INIT, run).regs, id, y)
  {
    InitLaw(true);
    RunKeepsLaw(true, INIT, run);
    LawIsRight(Run(INIT, run));
  }

  /** Two trees grown in different orders under the same active registrations notify alike. */
  lemma {:induction false} OrderDoesNotMatter(one: seq<Op>, two: seq<Op>, y: Path, id: nat)
    requires AllCareful(INIT, one) && AllCareful(INIT, two) && Run(INIT, one).regs == Run(INIT, two).regs
    requires Get(Run(INIT, one).tree, y).Some? && Get(Run(INIT, two).tree, y).Some?
    ensures Consumers(Run(INIT, one), y, id) == Consumers(Run(INIT, two), y, id)
  {
    ConsumersAreMatches(one, y, id);
    ConsumersAreMatches(two, y, id);
  }

  // ----- what goes wrong, and when -----

  ghost predicate Grows(run: seq<Op>) {
    forall k | 0 <= k < |run| :: run[k].AddOp?
  }

  /** The item at `y` lacks an entry that may yet lead to an item. */
  ghost predicate Lacks(s: Sys, y: Path, e: Cfg) {
    && Get(s.tree, y).Some? && !Get(s.tree, y).value.leaf && e.path != [] && Possible(e.path)
    && multiset(At(Get(s.tree, y).value.cfgs, e.path[0]))[Cfg(e.id, e.path[1..])] < Expected(s.regs, y)[e]
  }

  /** A child that the entry selects. */
  function ChildFor(e: Cfg): Name
    requires e.path != []
  {
    if e.path[0] == ANY then "x" else e.path[0]
  }

  lemma {:induction false} HandedTooLittle(s: Sys, y: Path, e: Cfg)
    requires Holds(false, s.tree, s.regs) && Lacks(s, y, e)
    ensures var name := ChildFor(e);
            && CanAdd(Get(s.tree, y).value, name)
            && multiset(Handed(Get(s.tree, y).value, name))[Cfg(e.id, e.path[1..])]
             < Expected(Outside(s.regs, y + [name]), y + [name])[Cfg(e.id, e.path[1..])]
  {
    var it, name, c := Get(s.tree, y).value, ChildFor(e), Cfg(e.id, e.path[1..]);
    assert OkAt(false, s.tree, s.regs, y);
    assert e.path[0] in e.path && e.path == [e.path[0]] + c.path;
    ExpectedOfNew(s.regs, y, name, c);
    HandedCount(it, name, c);
    assert Matters(false, it.leaf, [ANY] + c.path) && Matters(false, it.leaf, [name] + c.path);
    assert KeptOk(false, it, Expected(s.regs, y), ANY, c) && KeptOk(false, it, Expected(s.regs, y), name, c);
  }

  /** A new item has what it was handed, and no more. */
  lemma {:induction false} NewHolds(list: seq<Cfg>, c: Cfg)
    requires Possible(c.path)
    ensures var child := RegisterAll(Fresh(false), list);
            && !child.leaf
            && multiset(list)[c] == if c.path == [] then multiset(child.consumers)[c]
                                    else multiset(At(child.cfgs, c.path[0]))[Cfg(c.id, c.path[1..])]
  {
    RegisterAllHolds(true, false, list);
    if c.path != [] {
      assert [c.path[0]] + c.path[1..] == c.path;
      assert KeptOk(true, RegisterAll(Fresh(false), list), multiset(list), c.path[0], Cfg(c.id, c.path[1..]));
    }
  }

  /** A missing entry is missing from the child that should have got it, too. */
  lemma {:induction false} LackPassesOn(s: Sys, y: Path, e: Cfg)
    requires Holds(false, s.tree, s.regs) && Lacks(s, y, e)
    ensures var s', y', c := Step(s, AddOp(y, ChildFor(e), false)), y + [ChildFor(e)], Cfg(e.id, e.path[1..]);
            && Get(s'.tree, y').Some?
            && if c.path == [] then Consumers(s', y', c.id) < Matching(s'.regs, c.id, y') else Lacks(s', y', c)
  {
    var name, c := ChildFor(e), Cfg(e.id, e.path[1..]);
    HandedTooLittle(s, y, e);
    AddNew(s.tree, y, name, false, []);
    assert y + ([name] + []) == y + [name];
    NewHolds(Handed(Get(s.tree, y).value, name), c);
    ExpectedEnds(Outside(s.regs, y + [name]), c.id, y + [name]);
  }

  lemma {:induction false} GrowsWrong(s: Sys, y: Path, e: Cfg) returns (growth: seq<Op>)
    requires Holds(false, s.tree, s.regs) && Lacks(s, y, e)
    ensures Grows(growth) && !Right(Run(s, growth))
    decreases |e.path|
  {
    var op, c, y' := AddOp(y, ChildFor(e), false), Cfg(e.id, e.path[1..]), y + [ChildFor(e)];
    LackPassesOn(s, y, e);
    StepKeepsLaw(false, s, op);
    if c.path == [] {
      growth := [op];
      assert Run(s, [op]) == Run(Step(s, op), [op][1..]) == Step(s, op);
    } else {
      var rest := GrowsWrong(Step(s, op), y', c);
      growth := [op] + rest;
      assert growth[1..] == rest;
    }
  }

  /** Where the law fails, the consumers are wrong already or an entry is missing. */
  lemma {:induction false} FailsBy(s: Sys, y: Path)
    requires Holds(false, s.tree, s.regs) && !OkAt(true, s.tree, s.regs, y) && Right(s)
    ensures exists e :: Lacks(s, y, e)
  {
    var it, m := Get(s.tree, y).value, Expected(s.regs, y);
    assert OkAt(false, s.tree, s.regs, y);
    forall c ensures Fits(true, multiset(it.consumers)[c], if c.path == [] then m[c] else 0) {
      assert Fits(false, multiset(it.consumers)[c], if c.path == [] then m[c] else 0);
      if c.path == [] {
        assert Consumers(s, y, c.id) == Matching(s.regs, c.id, y);
        ExpectedEnds(s.regs, c.id, y);
      }
    }
    var k, c: Cfg :| Matters(true, it.leaf, [k] + c.path) && !KeptOk(true, it, m, k, c);
    assert KeptOk(false, it, m, k, c);
    assert ([k] + c.path)[1..] == c.path;
    assert Lacks(s, y, Cfg(c.id, [k] + c.path));
  }

  /** After any run, careful or not: the consumers are right and stay so however the tree grows exactly
      when the law holds. */
  lemma {:induction false} StaysRightIffLaw(run: seq<Op>)
    ensures var s := Run(INIT, run);
            (forall growth | Grows(growth) :: Right(Run(s, growth))) <==> Law(s.tree, s.regs)
  {
    var s := Run(INIT, run);
    InitLaw(false);
    RunKeepsLaw(false, INIT, run);
    if Law(s.tree, s.regs) {
      forall growth | Grows(growth) ensures Right(Run(s, growth)) {
        NothingTakenBack(s, growth);
        RunKeepsLaw(true, s, growth);
        LawIsRight(Run(s, growth));
      }
    } else if forall growth | Grows(growth) :: Right(Run(s, growth)) {
      var y :| !OkAt(true, s.tree, s.regs, y);
      assert Grows([]) && Run(s, []) == s;
      FailsBy(s, y);
      var e :| Lacks(s, y, e);
      var growth := GrowsWrong(s, y, e);
    }
  }

  lemma {:induction false} RunSnoc(s: Sys, run: seq<Op>, op: Op)
    ensures Run(s, run + [op]) == Step(Run(s, run), op)
    decreases |run|
  {
    if run == [] {
      assert run + [op] == [op] && [op][1..] == [];
      assert Run(s, [op]) == Run(Step(s, op), []);
    } else {
      assert (run + [op])[1..] == run[1..] + [op];
      RunSnoc(Step(s, run[0]), run[1..], op);
    }
  }

  /** Taking a registration back, after a careful run, makes no later item's consumers wrong exactly when
      there is no clash. */
  lemma {:induction false} TakingBackIsSafeIff(run: seq<Op>, x: Path, c: Cfg)
    requires AllCareful(INIT, run) && Get(Run(INIT, run).tree, x).Some? && OnePattern(Run(INIT, run).regs, c)
    ensures var s := Run(INIT, run);
            ((forall growth | Grows(growth) :: Right(Run(Step(s, UnregOp(x, c)), growth)))
             <==> (forall y :: !ClashAt(s.tree, s.regs, Reg(x, c), y)))
  {
    var s := Run(INIT, run);
    InitLaw(true);
    RunKeepsLaw(true, INIT, run);
    RunSnoc(INIT, run, UnregOp(x, c));
    StaysRightIffLaw(run + [UnregOp(x, c)]);
    UnregisterKeepsLawIff(s.tree, s.regs, x, c);
  }

  const TWO_ANY: Cfg := Cfg(0, [ANY, ANY])

  lemma {:induction false} RegisteredOnce(s: Sys, x: Path, c: Cfg, y: Path)
    requires Get(s.tree, x).Some? && Get(s.tree, y).Some? && !Get(s.tree, y).value.leaf
    ensures var s' := Step(s, RegOp(x, c));
            s'.regs == s.regs + [Reg(x, c)] && Get(s'.tree, y).Some? && !Get(s'.tree, y).value.leaf
  {
    RegisterLocal(s.tree, x, c, y);
  }

  lemma {:induction false} TwoSteps(s: Sys, a: Op, b: Op)
    ensures Run(s, [a, b]) == Step(Step(s, a), b)
  {
    var s' := Step(s, a);
    assert [a, b][1..] == [b];
    assert Run(s', [b]) == Run(Step(s', b), [b][1..]) == Step(s', b);
  }

  lemma {:induction false} RegisteredTwice(s: Sys)
    requires s.regs == [] && Get(s.tree, ["a"]).Some? && !Get(s.tree, ["a"]).value.leaf
    ensures var s' := Run(s, [RegOp([], TWO_ANY), RegOp(["a"], TWO_ANY)]);
            && s'.regs == [Reg([], TWO_ANY), Reg(["a"], TWO_ANY)]
            && Get(s'.tree, ["a"]).Some? && !Get(s'.tree, ["a"]).value.leaf
  {
    TwoSteps(s, RegOp([], TWO_ANY), RegOp(["a"], TWO_ANY));
    RegisteredOnce(s, [], TWO_ANY, ["a"]);
    RegisteredOnce(Step(s, RegOp([], TWO_ANY)), ["a"], TWO_ANY, ["a"]);
  }

  lemma {:induction false} NothingTakenBack(s: Sys, run: seq<Op>)
    requires forall k | 0 <= k < |run| :: !run[k].UnregOp?
    ensures AllCareful(s, run)
    decreases |run|
  {
    if run != [] { NothingTakenBack(Step(s, run[0]), run[1..]); }
  }

  lemma {:induction false} FirstA()
    ensures var s := Step(INIT, AddOp([], "a", false));
            s.regs == [] && Get(s.tree, ["a"]).Some? && !Get(s.tree, ["a"]).value.leaf
  {
  }

  /** The condition is needed: one configuration with the pattern `*.*`, registered on the root and on the
      item `a`, shares a list there, and taking it back from `a` takes it from the root as well.  The next
      item below `a` is selected by the registration on the root and does not notify it. */
  lemma {:induction false} TakingBackTooMuch() returns (run: seq<Op>)
    ensures AllCareful(INIT, run)
    ensures var s := Run(INIT, run + [UnregOp(["a"], TWO_ANY)] + [AddOp(["a"], "x", false)]);
            Get(s.tree, ["a", "x"]).Some? && Consumers(s, ["a", "x"], 0) == 0 && Matching(s.regs, 0, ["a", "x"]) == 1
  {
    var first, twice := AddOp([], "a", false), [RegOp([], TWO_ANY), RegOp(["a"], TWO_ANY)];
    run := [first] + twice;
    NothingTakenBack(INIT, run);
    InitLaw(true);
    RunKeepsLaw(true, INIT, run);
    FirstA();
    RegisteredTwice(Step(INIT, first));
    assert run[1..] == twice;
    RunSnoc(INIT, run, UnregOp(["a"], TWO_ANY));
    RunSnoc(INIT, run + [UnregOp(["a"], TWO_ANY)], AddOp(["a"], "x", false));
    NothingAtX(Run(INIT, run));
  }

  lemma {:induction false} OnlyRootLeft()
    ensures Dropped([Reg([], TWO_ANY), Reg(["a"], TWO_ANY)], Reg(["a"], TWO_ANY)) == [Reg([], TWO_ANY)]
    ensures Outside([Reg([], TWO_ANY)], ["a", "x"]) == [Reg([], TWO_ANY)]
  {
    var a, b := Reg([], TWO_ANY), Reg(["a"], TWO_ANY);
    assert [a, b][..1] == [a] && [a][..0] == [];
    assert a.at != b.at;
    assert Dropped([a], b) == Dropped([a][..0], b) + [a];
    assert Outside([a], ["a", "x"]) == Outside([a][..0], ["a", "x"]) + [a];
  }

  lemma {:induction false} RootMatchesX()
    ensures Matching([Reg([], TWO_ANY)], 0, ["a", "x"]) == 1
  {
    var a := Reg([], TWO_ANY);
    assert [a][..0] == [];
    assert Matching([a], 0, ["a", "x"]) == Matching([a][..0], 0, ["a", "x"]) + 1;
  }

  /** The list for any child of `a` has been cleared, and there is none for a child `x`. */
  lemma {:induction false} NothingKeptAtA(s: Sys)
    requires Law(s.tree, s.regs) && s.regs == [Reg([], TWO_ANY), Reg(["a"], TWO_ANY)]
    requires Get(s.tree, ["a"]).Some? && !Get(s.tree, ["a"]).value.leaf
    ensures var t := DoUnregister(s.tree, ["a"], TWO_ANY);
            && Get(t, ["a"]).Some? && !Get(t, ["a"]).value.leaf
            && multiset(Handed(Get(t, ["a"]).value, "x"))[Cfg(0, [])] == 0
  {
    var r, it, c := Reg(["a"], TWO_ANY), Get(s.tree, ["a"]).value, Cfg(0, []);
    var it' := Get(DoUnregister(s.tree, ["a"], TWO_ANY), ["a"]).value;
    LeftHere(["a"], TWO_ANY);
    UnregisterLocal(s.tree, ["a"], TWO_ANY, ["a"]);
    HandedCount(it', "x", c);
    WithdrawList(it, Left(r, ["a"]), ANY, c);
    WithdrawList(it, Left(r, ["a"]), "x", c);
    NoneForX(s.regs);
    assert OkAt(true, s.tree, s.regs, ["a"]);
    assert ["x"] + c.path == ["x"];
    assert Matters(true, it.leaf, ["x"] + c.path);
    assert KeptOk(true, it, Expected(s.regs, ["a"]), "x", c);
  }

  lemma {:induction false} LeftHere(x: Path, c: Cfg)
    ensures Covers(Reg(x, c), x) && Left(Reg(x, c), x) == c
  {
    assert c.path[0..] == c.path;
  }

  lemma {:induction false} NoneForX(regs: seq<Reg>)
    requires regs == [Reg([], TWO_ANY), Reg(["a"], TWO_ANY)]
    ensures Expected(regs, ["a"])[Cfg(0, ["x"])] == 0
  {
    ExpectedHas(regs, ["a"], Cfg(0, ["x"]));
    forall q | q in regs ensures !Brings(q, ["a"], Cfg(0, ["x"])) { OnlyAny(q); }
  }

  lemma {:induction false} OnlyAny(q: Reg)
    requires q.cfg == TWO_ANY
    ensures !Brings(q, ["a"], Cfg(0, ["x"]))
  {
    var left := Left(q, ["a"]).path;
    assert forall i | 0 <= i < |left| :: left[i] == ANY;
    assert ["x"][0] != ANY;
  }

  lemma {:induction false} NewConsumers(t: Item, x: Path, name: Name, id: nat)
    requires Get(t, x).Some? && CanAdd(Get(t, x).value, name)
    ensures var t' := DoAdd(t, x, name, false);
            && Get(t', x + [name]).Some?
            && multiset(Get(t', x + [name]).value.consumers)[Cfg(id, [])]
            == multiset(Handed(Get(t, x).value, name))[Cfg(id, [])]
  {
    AddNew(t, x, name, false, []);
    assert [name] + [] == [name];
    NewHolds(Handed(Get(t, x).value, name), Cfg(id, []));
  }

  lemma {:induction false} NothingAtX(s: Sys)
    requires Law(s.tree, s.regs) && s.regs == [Reg([], TWO_ANY), Reg(["a"], TWO_ANY)]
    requires Get(s.tree, ["a"]).Some? && !Get(s.tree, ["a"]).value.leaf
    ensures var s' := Step(Step(s, UnregOp(["a"], TWO_ANY)), AddOp(["a"], "x", false));
            Get(s'.tree, ["a", "x"]).Some? && Consumers(s', ["a", "x"], 0) == 0 && Matching(s'.regs, 0, ["a", "x"]) == 1
  {
    var t, regs := DoUnregister(s.tree, ["a"], TWO_ANY), [Reg([], TWO_ANY)];
    OnlyRootLeft();
    RootMatchesX();
    assert Step(s, UnregOp(["a"], TWO_ANY)) == Sys(t, regs);
    NothingKeptAtA(s);
    NewConsumers(t, ["a"], "x", 0);
    assert ["a", "x"] == ["a"] + ["x"];
    assert Step(Sys(t, regs), AddOp(["a"], "x", false)) == Sys(DoAdd(t, ["a"], "x", false), regs);
  }

  // ----- the loops over children and lists -----

  method RegisterNotify(it: Item, c: Cfg) returns (it': Item)
    ensures it' == Register(it, c)
    decreases |c.path|, 0
  {
    if c.path == [] {
      return it.(consumers := it.consumers + [c]);
    }
    var root, rest := c.path[0], Cfg(c.id, c.path[1..]);
    var children := RegisterChildren(it.children, root, rest);
    it' := it.(children := children, cfgs := it.cfgs[root := At(it.cfgs, root) + [rest]]);
  }

  method RegisterChildren(children: map<Name, Item>, root: Name, rest: Cfg) returns (children': map<Name, Item>)
    ensures children' == PassedOn(children, root, rest)
    decreases |rest.path|, 1
  {
    children' := map[];
    var todo := children.Keys;
    while todo != {}
      invariant todo <= children.Keys && children'.Keys == children.Keys - todo
      invariant forall k | k in children' :: children'[k] == PassedOn(children, root, rest)[k]
      decreases |todo|
    {
      var k :| k in todo;
      var child := children[k];
      if Selects(root, k) {
        child := RegisterNotify(child, rest);
      }
      todo, children' := todo - {k}, children'[k := child];
    }
  }

  method UnRegisterNotify(it: Item, c: Cfg) returns (it': Item)
    ensures it' == Unregister(it, c)
    decreases |c.path|, 0
  {
    if c.path == [] {
      var consumers := RemoveId(it.consumers, c.id);
      return it.(consumers := consumers);
    }
    var root, rest := c.path[0], Cfg(c.id, c.path[1..]);
    var list := RemoveId(At(it.cfgs, root), c.id);
    var children := UnRegisterChildren(it.children, root, rest);
    it' := it.(children := children, cfgs := it.cfgs[root := list]);
  }

  method UnRegisterChildren(children: map<Name, Item>, root: Name, rest: Cfg) returns (children': map<Name, Item>)
    ensures children' == TakenBack(children, root, rest)
    decreases |rest.path|, 1
  {
    children' := map[];
    var todo := children.Keys;
    while todo != {}
      invariant todo <= children.Keys && children'.Keys == children.Keys - todo
      invariant forall k | k in children' :: children'[k] == TakenBack(children, root, rest)[k]
      decreases |todo|
    {
      var k :| k in todo;
      var child := children[k];
      if Selects(root, k) {
        child := UnRegisterNotify(child, rest);
      }
      todo, children' := todo - {k}, children'[k := child];
    }
  }

  method RemoveId(list: seq<Cfg>, id: nat) returns (left: seq<Cfg>)
    ensures left == Without(list, id)
  {
    left := [];
    var i := |list|;
    while i > 0
      invariant 0 <= i <= |list| && left == Without(list[i..], id)
    {
      i := i - 1;
      assert list[i..][1..] == list[i + 1..];
      if list[i].id != id {
        left := [list[i]] + left;
      }
    }
    assert list[0..] == list;
  }

  method RegisterEach(it: Item, list: seq<Cfg>) returns (it': Item)
    ensures it' == RegisterAll(it, list)
  {
    it' := it;
    for i := 0 to |list|
      invariant it' == RegisterAll(it, list[..i])
    {
      assert list[..i + 1][..i] == list[..i];
      it' := RegisterNotify(it', list[i]);
    }
    assert list[..|list|] == list;
  }

  /** The new child is handed what was kept for any child, then what was kept for one of its name. */
  method AddItemInner(it: Item, name: Name, leaf: bool) returns (ok: bool, it': Item)
    ensures ok == CanAdd(it, name) && it' == AddItem(it, name, leaf)
  {
    if it.leaf || name == "" || name == ANY {
      return false, it;
    }
    var child := RegisterEach(Fresh(leaf), At(it.cfgs, ANY) + At(it.cfgs, name));
    ok, it' := true, it.(children := it.children[name := child]);
  }

  // ----- pattern strings -----

  function GetRootPath(s: string): string {
    s[..Next(s, '.', 0)]
  }

  function GetSubPath(s: string): string {
    var j := Next(s, '.', 0);
    if j == |s| then "" else s[j + 1..]
  }

  /** The segments a registration walks: root after root until nothing is left. */
  function Segments(s: string): Path
    decreases |s|
  {
    if s == "" then [] else [GetRootPath(s)] + Segments(GetSubPath(s))
  }

  function Dotted(p: Path): string {
    if p == [] then "" else if |p| == 1 then p[0] else p[0] + "." + Dotted(p[1..])
  }

  ghost predicate NoDot(p: Path) {
    forall k, i | 0 <= k < |p| && 0 <= i < |p[k]| :: p[k][i] != '.'
  }

  lemma {:induction false} RootOfDotted(name: Name, rest: string)
    requires forall i | 0 <= i < |name| :: name[i] != '.'
    ensures GetRootPath(name + "." + rest) == name && GetSubPath(name + "." + rest) == rest
    ensures GetRootPath(name) == name && GetSubPath(name) == ""
  {
    var s := name + "." + rest;
    NextIs(s, '.', 0, |name|);
    NextIs(name, '.', 0, |name|);
    assert s[..|name|] == name && s[|name| + 1..] == rest;
  }

  lemma {:induction false} SegmentsStep(p: Path)
    requires NoDot(p) && |p| > 1
    ensures Segments(Dotted(p)) == [p[0]] + Segments(Dotted(p[1..]))
  {
    RootOfDotted(p[0], Dotted(p[1..]));
  }

  lemma {:induction false} WalkedAsWritten(p: Path)
    requires NoDot(p)
    ensures Segments(Dotted(p)) == WithoutLastEmpty(p)
    decreases |p|
  {
    if |p| == 1 {
      RootOfDotted(p[0], "");
      assert p == [p[0]];
    } else if |p| > 1 {
      SegmentsStep(p);
      WalkedAsWritten(p[1..]);
      LastEmptyOfRest(p);
    }
  }

  /** A pattern is walked as the segments it was written with, exactly unless the last one is empty. */
  lemma {:induction false} SegmentsOfDotted(p: Path)
    requires NoDot(p)
    ensures Segments(Dotted(p)) == p <==> (p == [] || p[|p| - 1] != "")
  {
    WalkedAsWritten(p);
  }
}
