/** The tree that routes HTTP requests: registered paths are kept segment by segment, and a request goes
    to the longest registered prefix of its path. */
module PathTrie {
  import opened Basics

  datatype Status = OK | EXIST | NOTFOUND

  datatype Node = Node(valid: bool, children: map<string, Node>)

  type Path = seq<string>

  const LEAF: Node := Node(false, map[])

  /** Is `p` registered below `n`? */
  predicate Has(n: Node, p: Path)
    decreases |p|
  {
    if p == [] then n.valid else p[0] in n.children && Has(n.children[p[0]], p[1..])
  }

  /** Is there a node at `p`? */
  predicate Reaches(n: Node, p: Path)
    decreases |p|
  {
    p == [] || (p[0] in n.children && Reaches(n.children[p[0]], p[1..]))
  }

  predicate Dead(n: Node) {
    !n.valid && n.children == map[]
  }

  /** No node but the root is kept without need. */
  ghost predicate Tidy(n: Node) {
    forall k | k in n.children :: !Dead(n.children[k]) && Tidy(n.children[k])
  }

  // ----- the operations -----

  function ChildOr(n: Node, k: string): Node {
    if k in n.children then n.children[k] else LEAF
  }

  function Add(n: Node, p: Path): (Node, Status)
    decreases |p|
  {
    if p == [] then (if n.valid then (n, EXIST) else (n.(valid := true), OK))
    else
      var (child, ret) := Add(ChildOr(n, p[0]), p[1..]);
      (n.(children := n.children[p[0] := child]), ret)
  }

  function Del(n: Node, p: Path): (Node, Status)
    decreases |p|
  {
    if p == [] then (n.(valid := false), OK)
    else if p[0] !in n.children then (n, NOTFOUND)
    else
      var (child, ret) := Del(n.children[p[0]], p[1..]);
      if ret == NOTFOUND then (n, ret)
      else if Dead(child) then (n.(children := n.children - {p[0]}), OK)
      else (n.(children := n.children[p[0] := child]), OK)
  }

  /** Follows the path, keeping the nodes passed in `nodes`, and takes back what led to nothing. */
  function Match(n: Node, path: Path, nodes: Path): (Status, Path)
    decreases |path|
  {
    var own := if n.valid then OK else NOTFOUND;
    if path == [] || path[0] !in n.children then (own, nodes)
    else
      var (ret, nodes') := Match(n.children[path[0]], path[1..], nodes + [path[0]]);
      if ret == OK then (OK, nodes') else (own, nodes)
  }

  // ----- insertion and removal -----

  lemma {:induction false} HasChild(n: Node, k: string, q: Path)
    ensures Has(n, [k] + q) <==> k in n.children && Has(n.children[k], q)
  {
    assert ([k] + q)[1..] == q;
  }

  /** Adding is insertion into the set of registered paths; only a registered path exists already. */
  lemma {:induction false} AddInserts(n: Node, p: Path, q: Path)
    ensures Has(Add(n, p).0, q) <==> Has(n, q) || q == p
    ensures Add(n, p).1 == (if Has(n, p) then EXIST else OK)
    decreases |p|
  {
    if p != [] {
      var c := ChildOr(n, p[0]);
      if q != [] && q[0] == p[0] {
        AddInserts(c, p[1..], q[1..]);
        assert q == p <==> q[1..] == p[1..] by { assert q == [q[0]] + q[1..] && p == [p[0]] + p[1..]; }
      } else {
        AddInserts(c, p[1..], p[1..]);
      }
    }
  }

  /** Deleting is removal, and leaves the tree alone where there is no node. */
  lemma {:induction false} DelRemoves(n: Node, p: Path, q: Path)
    ensures Has(Del(n, p).0, q) <==> Has(n, q) && q != p
    ensures Del(n, p).1 == (if Reaches(n, p) then OK else NOTFOUND)
    ensures !Reaches(n, p) ==> Del(n, p).0 == n
    decreases |p|
  {
    if p != [] && p[0] in n.children {
      var c := n.children[p[0]];
      if q != [] && q[0] == p[0] {
        DelRemoves(c, p[1..], q[1..]);
        assert q == p <==> q[1..] == p[1..] by { assert q == [q[0]] + q[1..] && p == [p[0]] + p[1..]; }
      } else {
        DelRemoves(c, p[1..], p[1..]);
      }
    }
  }

  // ----- no node without need -----

  lemma {:induction false} AddTidy(n: Node, p: Path)
    requires Tidy(n)
    ensures Tidy(Add(n, p).0) && !Dead(Add(n, p).0)
    decreases |p|
  {
    if p != [] {
      AddTidy(ChildOr(n, p[0]), p[1..]);
      var n' := Add(n, p).0;
      assert p[0] in n'.children;
    }
  }

  lemma {:induction false} DelTidy(n: Node, p: Path)
    requires Tidy(n)
    ensures Tidy(Del(n, p).0)
    decreases |p|
  {
    if p != [] && p[0] in n.children {
      DelTidy(n.children[p[0]], p[1..]);
    }
  }

  /** In a tidy tree every node leads to a registered path. */
  lemma {:induction false} LeadsSomewhere(n: Node) returns (q: Path)
    requires Tidy(n) && !Dead(n)
    ensures Has(n, q)
    decreases n
  {
    if n.valid {
      q := [];
    } else {
      var k :| k in n.children;
      var q' := LeadsSomewhere(n.children[k]);
      HasChild(n, k, q');
      q := [k] + q';
    }
  }

  ghost predicate Extends(n: Node, p: Path, q: Path) {
    p <= q && Has(n, q)
  }

  /** The nodes are exactly the prefixes of registered paths. */
  lemma {:induction false} ReachesIffPrefix(n: Node, p: Path)
    requires Tidy(n) && p != []
    ensures Reaches(n, p) <==> exists q :: Extends(n, p, q)
  {
    if Reaches(n, p) {
      var q := PathThrough(n, p);
      assert Extends(n, p, q);
    }
    if q :| Extends(n, p, q) {
      HasReaches(n, p, q);
    }
  }

  lemma {:induction false} PathThrough(n: Node, p: Path) returns (q: Path)
    requires Tidy(n) && Reaches(n, p) && (p == [] ==> !Dead(n))
    ensures p <= q && Has(n, q)
    decreases |p|
  {
    if p == [] {
      q := LeadsSomewhere(n);
    } else {
      var q' := PathThrough(n.children[p[0]], p[1..]);
      HasChild(n, p[0], q');
      q := [p[0]] + q';
    }
  }

  lemma {:induction false} HasReaches(n: Node, p: Path, q: Path)
    requires p <= q && Has(n, q)
    ensures Reaches(n, p)
    decreases |p|
  {
    if p != [] { HasReaches(n.children[p[0]], p[1..], q[1..]); }
  }

  /** A tidy tree is determined by the paths registered in it. */
  lemma {:induction false} TidyIsCanonical(a: Node, b: Node)
    requires Tidy(a) && Tidy(b) && forall q :: Has(a, q) <==> Has(b, q)
    ensures a == b
    decreases a
  {
    assert Has(a, []) <==> Has(b, []);
    forall k | k in a.children ensures k in b.children && a.children[k] == b.children[k] {
      SameChild(a, b, k);
      forall q ensures Has(a.children[k], q) <==> Has(b.children[k], q) {
        HasChild(a, k, q);
        HasChild(b, k, q);
      }
      TidyIsCanonical(a.children[k], b.children[k]);
    }
    forall k | k in b.children ensures k in a.children {
      SameChild(b, a, k);
    }
    assert a.children == b.children;
  }

  lemma {:induction false} SameChild(a: Node, b: Node, k: string)
    requires Tidy(a) && k in a.children && forall q :: Has(a, q) <==> Has(b, q)
    ensures k in b.children
  {
    var q := LeadsSomewhere(a.children[k]);
    HasChild(a, k, q);
    HasChild(b, k, q);
  }

  /** Deleting a path that was just added gives back the very tree. */
  lemma {:induction false} DelUndoesAdd(n: Node, p: Path)
    requires Tidy(n) && !Has(n, p)
    ensures Del(Add(n, p).0, p).0 == n
  {
    AddTidy(n, p);
    DelTidy(Add(n, p).0, p);
    forall q ensures Has(Del(Add(n, p).0, p).0, q) <==> Has(n, q) {
      AddInserts(n, p, q);
      DelRemoves(Add(n, p).0, p, q);
    }
    TidyIsCanonical(Del(Add(n, p).0, p).0, n);
  }

  // ----- matching -----

  ghost predicate IsLongest(n: Node, path: Path, k: nat) {
    k <= |path| && Has(n, path[..k]) && forall j | k < j <= |path| :: !Has(n, path[..j])
  }

  /** A match is the longest registered prefix; none is found only if no prefix is registered. */
  lemma {:induction false} MatchIsLongest(n: Node, path: Path, nodes: Path) returns (k: nat)
    ensures Match(n, path, nodes).0 == OK ==> IsLongest(n, path, k) && Match(n, path, nodes).1 == nodes + path[..k]
    ensures Match(n, path, nodes).0 != OK ==>
              Match(n, path, nodes).1 == nodes && forall j | 0 <= j <= |path| :: !Has(n, path[..j])
    decreases |path|
  {
    k := 0;
    if path != [] && path[0] in n.children {
      var nodes' := nodes + [path[0]];
      var k' := MatchIsLongest(n.children[path[0]], path[1..], nodes');
      forall j | 1 <= j <= |path| ensures Has(n, path[..j]) <==> Has(n.children[path[0]], path[1..][..j - 1]) {
        assert path[..j][1..] == path[1..][..j - 1];
      }
      if Match(n.children[path[0]], path[1..], nodes').0 == OK {
        k := k' + 1;
        assert nodes' + path[1..][..k'] == nodes + path[..k];
      }
    }
  }

  // ----- path strings -----

  /** The names from position `i` on; nothing follows a slash at the very end. */
  function NamesFrom(s: string, i: nat): Path
    decreases |s| - i
  {
    if i >= |s| then []
    else
      var j := Next(s, '/', i);
      if j == |s| then [s[i..]] else [s[i..j]] + NamesFrom(s, j + 1)
  }

  /** Names start after the first slash, or at the start of a string that has none. */
  function Start(s: string): nat {
    var j := Next(s, '/', 0);
    if j == |s| then 0 else j + 1
  }

  function Split(s: string): Path {
    NamesFrom(s, Start(s))
  }

  /** A scan that has found `names` and stands at `from`. */
  ghost predicate Scanned(s: string, from: nat, names: Path) {
    names + NamesFrom(s, from) == Split(s)
  }

  lemma {:induction false} ScanStep(s: string, from: nat, names: Path)
    requires Scanned(s, from, names) && from < |s|
    ensures var to := Next(s, '/', from);
            if to == |s| then names + [s[from..]] == Split(s) else Scanned(s, to + 1, names + [s[from..to]])
  {
    var to := Next(s, '/', from);
    if to < |s| {
      assert names + [s[from..to]] + NamesFrom(s, to + 1) == names + ([s[from..to]] + NamesFrom(s, to + 1));
    }
  }

  lemma {:induction false} ScanEnd(s: string, from: nat, names: Path)
    requires Scanned(s, from, names) && from >= |s|
    ensures names == Split(s)
  {
    assert names + [] == names;
  }

  method SplitHttpPath(s: string) returns (names: Path)
    ensures names == Split(s)
  {
    names := [];
    var at := Find(s, '/', 0);
    var from := if at == |s| then 0 else at + 1;
    assert Scanned(s, from, names);
    while from < |s|
      invariant Scanned(s, from, names)
      decreases |s| - from
    {
      ScanStep(s, from, names);
      var to := Find(s, '/', from);
      if to == |s| {
        return names + [s[from..]];
      }
      names, from := names + [s[from..to]], to + 1;
    }
    ScanEnd(s, from, names);
  }

  function Joined(names: Path): string {
    if names == [] then "" else "/" + names[0] + Joined(names[1..])
  }

  /** The string a match reports. */
  function PathString(names: Path): string {
    if names == [] then "/" else Joined(names)
  }

  ghost predicate NoSlash(names: Path) {
    forall k, i | 0 <= k < |names| && 0 <= i < |names[k]| :: names[k][i] != '/'
  }

  lemma {:induction false} RestNames(names: Path)
    requires |names| > 1
    ensures WithoutLastEmpty(names) == [names[0]] + WithoutLastEmpty(names[1..])
    ensures Joined(names[1..]) != ""
  {
  }

  lemma {:induction false} OneName(s: string, i: nat, name: string)
    requires i + |name| <= |s| && s[i..i + |name|] == name && forall k | 0 <= k < |name| :: name[k] != '/'
    requires i + |name| < |s| ==> s[i + |name|] == '/'
    ensures Next(s, '/', i) == i + |name|
  {
    forall k | i <= k < i + |name| ensures s[k] != '/' {
      assert s[k] == name[k - i];
    }
    NextIs(s, '/', i, i + |name|);
  }

  lemma {:induction false} LastName(s: string, i: nat, name: string)
    requires i + |name| == |s| && s[i..i + |name|] == name && Next(s, '/', i) == |s|
    ensures NamesFrom(s, i) == if name == "" then [] else [name]
  {
    if name != "" { assert s[i..] == s[i..i + |name|]; }
  }

  lemma {:induction false} FirstName(s: string, i: nat, j: nat)
    requires i <= j < |s| && Next(s, '/', i) == j
    ensures NamesFrom(s, i) == [s[i..j]] + NamesFrom(s, j + 1)
  {
  }

  lemma {:induction false} SingleName(names: Path)
    requires |names| == 1
    ensures WithoutLastEmpty(names) == if names[0] == "" then [] else [names[0]]
  {
  }

  lemma {:induction false} MoreNames(s: string, i: nat, j: nat, names: Path)
    requires i <= j < |s| && Next(s, '/', i) == j && |names| > 1 && s[i..j] == names[0]
    requires NamesFrom(s, j + 1) == WithoutLastEmpty(names[1..])
    ensures NamesFrom(s, i) == WithoutLastEmpty(names)
  {
    FirstName(s, i, j);
    RestNames(names);
  }

  lemma {:induction false} TailParts(s: string, i: nat, name: string, after: string)
    requires i < |s| && s[i..] == "/" + name + after
    ensures var j := i + 1 + |name|; j <= |s| && s[i + 1..j] == name && s[j..] == after
  {
    var t := s[i..];
    assert t[1..1 + |name|] == name && t[1 + |name|..] == after;
  }

  lemma {:induction false} FrontName(s: string, i: nat, names: Path)
    requires names != [] && NoSlash(names) && i < |s| && s[i..] == Joined(names)
    ensures var j := i + 1 + |names[0]|;
            && j <= |s| && s[i + 1..j] == names[0] && Next(s, '/', i + 1) == j
            && s[j..] == Joined(names[1..]) && (|names| > 1 <==> j < |s|)
  {
    var j := i + 1 + |names[0]|;
    TailParts(s, i, names[0], Joined(names[1..]));
    if |names| > 1 { assert s[j..][0] == '/'; }
    OneName(s, i + 1, names[0]);
  }

  /** Reading back names that were written one after the other. */
  lemma {:induction false} NamesOfJoined(s: string, i: nat, names: Path)
    requires names != [] && NoSlash(names) && i < |s| && s[i..] == Joined(names)
    ensures NamesFrom(s, i + 1) == WithoutLastEmpty(names)
    decreases |names|
  {
    FrontName(s, i, names);
    var j := i + 1 + |names[0]|;
    if |names| == 1 {
      LastName(s, i + 1, names[0]);
      SingleName(names);
    } else {
      NamesOfJoined(s, j, names[1..]);
      MoreNames(s, i + 1, j, names);
    }
  }

  lemma {:induction false} SplitOfString(names: Path)
    requires NoSlash(names)
    ensures Split(PathString(names)) == WithoutLastEmpty(names)
  {
    if names == [] {
      NextIs("/", '/', 0, 0);
    } else {
      var s := Joined(names);
      assert s[0..] == s;
      NextIs(s, '/', 0, 0);
      NamesOfJoined(s, 0, names);
    }
  }

  /** Splitting gives the names back exactly when the last one is not empty. */
  lemma {:induction false} SplitUndoesJoin(names: Path)
    requires NoSlash(names)
    ensures Split(PathString(names)) == names <==> (names == [] || names[|names| - 1] != "")
  {
    SplitOfString(names);
  }

  // ----- any path string -----

  function Untrailed(t: string): string {
    if t != "" && t[|t| - 1] == '/' then t[..|t| - 1] else t
  }

  lemma {:induction false} UntrailedTail(a: string, t: string)
    requires t != ""
    ensures a + Untrailed(t) == Untrailed(a + t)
  {
  }

  lemma {:induction false} NotTrailed(s: string, i: nat)
    requires i < |s| && s[|s| - 1] != '/'
    ensures Untrailed("/" + s[i..]) == "/" + s[i..]
  {
    var t := "/" + s[i..];
    assert t[|t| - 1] == s[|s| - 1];
  }

  lemma {:induction false} SlashParts(s: string, i: nat, j: nat)
    requires i <= j < |s| && s[j] == '/'
    ensures ("/" + s[i..j]) + ("/" + s[j + 1..]) == "/" + s[i..]
  {
    assert s[i..] == s[i..j] + [s[j]] + s[j + 1..];
  }

  lemma {:induction false} JoinedCons(name: string, names: Path)
    ensures Joined([name] + names) == ("/" + name) + Joined(names)
  {
    assert ([name] + names)[1..] == names;
  }

  lemma {:induction false} JoinedNames(s: string, i: nat)
    requires i <= |s|
    ensures Joined(NamesFrom(s, i)) == Untrailed("/" + s[i..])
    decreases |s| - i
  {
    if i < |s| {
      var j := Next(s, '/', i);
      if j == |s| {
        NotTrailed(s, i);
        JoinedCons(s[i..], []);
        assert [s[i..]] + [] == [s[i..]];
      } else {
        JoinedNames(s, j + 1);
        JoinedCons(s[i..j], NamesFrom(s, j + 1));
        UntrailedTail("/" + s[i..j], "/" + s[j + 1..]);
        SlashParts(s, i, j);
      }
    }
  }

  /** A path string, whatever it is, from its first slash on; one is put before a string that has none. */
  function FromSlash(s: string): string {
    var j := Next(s, '/', 0);
    if j == |s| then "/" + s else s[j..]
  }

  /** Whatever a request asks for: its names, written out, are the string from its first slash on, less one
      slash at the end, and `/` if nothing is left. */
  lemma {:induction false} JoinUndoesSplit(s: string)
    ensures PathString(Split(s)) == if FromSlash(s) == "/" then "/" else Untrailed(FromSlash(s))
  {
    var j := Next(s, '/', 0);
    JoinedNames(s, Start(s));
    assert s[0..] == s;
    assert j < |s| ==> s[j..] == "/" + s[j + 1..];
    assert Split(s) == [] <==> FromSlash(s) == "/";
  }
}
