/** The nodes of the HTTP path tree as objects that are updated in place.  Each carries the tree below it as
    a ghost value, and its operations are those of `PathTrie` on that value. */
module PathNodes {
  import opened PathTrie

  function WithChild(n: Node, name: string, child: Node): Node {
    n.(children := n.children[name := child])
  }

  lemma {:induction false} AddUnfold(n: Node, p: Path)
    requires p != []
    ensures Add(n, p).0 == WithChild(n, p[0], Add(ChildOr(n, p[0]), p[1..]).0)
    ensures Add(n, p).1 == Add(ChildOr(n, p[0]), p[1..]).1
  {
  }

  lemma {:induction false} SetAgain(n: Node, name: string, a: Node, b: Node)
    ensures WithChild(WithChild(n, name, a), name, b) == WithChild(n, name, b)
    ensures WithChild(n, name, a).children[name] == a
    ensures name in n.children ==> WithChild(n, name, n.children[name]) == n
  {
  }

  lemma {:induction false} DelUnfold(n: Node, p: Path)
    requires p != [] && p[0] in n.children
    ensures var r := Del(n.children[p[0]], p[1..]);
            && Del(n, p).1 == r.1
            && (r.1 == NOTFOUND ==> Del(n, p).0 == n)
            && (r.1 != NOTFOUND ==>
                  Del(n, p).0 == if Dead(r.0) then n.(children := n.children - {p[0]}) else WithChild(n, p[0], r.0))
  {
    DelRemoves(n.children[p[0]], p[1..], []);
  }

  // ----- the node objects -----

  /** Children's nodes lie inside, without the node itself, and no two children share one. */
  ghost predicate Apart(node: HttpPathMatchNode, repr: set<HttpPathMatchNode>, below: map<string, set<HttpPathMatchNode>>) {
    && (forall k | k in below :: node !in below[k] && below[k] <= repr)
    && (forall j, k | j in below && k in below && j != k :: below[j] !! below[k])
  }

  lemma {:induction false} ApartGrows(node: HttpPathMatchNode, repr: set<HttpPathMatchNode>,
                                      below: map<string, set<HttpPathMatchNode>>, k: string, nodes: set<HttpPathMatchNode>)
    requires Apart(node, repr, below) && node !in nodes
    requires (nodes - (if k in below then below[k] else {})) !! repr
    ensures Apart(node, repr + nodes, below[k := nodes])
  {
  }

  class HttpPathMatchNode {
    var valid: bool
    var children: map<string, HttpPathMatchNode>
    ghost var repr: set<HttpPathMatchNode>
    /** The nodes below each child, and the tree below this node as a value. */
    ghost var below: map<string, set<HttpPathMatchNode>>
    ghost var shape: Node

    ghost predicate Valid()
      reads this, repr
      decreases repr, 1
    {
      && this in repr && shape.valid == valid && shape.children.Keys == children.Keys == below.Keys
      && Apart(this, repr, below)
      && (forall k | k in children :: children[k].StandsFor(below[k], shape.children[k]))
    }

    /** Everything but one child is in order. */
    ghost predicate AllButOne(name: string)
      reads this, repr
    {
      && this in repr && shape.valid == valid && shape.children.Keys == children.Keys == below.Keys
      && Apart(this, repr, below)
      && (forall k | k in children && k != name :: children[k].StandsFor(below[k], shape.children[k]))
    }

    /** This node owns exactly these nodes and stands for this value. */
    ghost predicate StandsFor(nodes: set<HttpPathMatchNode>, value: Node)
      reads nodes
      decreases nodes, 2
    {
      this in nodes && repr == nodes && shape == value && Valid()
    }

    constructor ()
      ensures Valid() && fresh(repr) && shape == LEAF && repr == {this}
    {
      valid, children, repr, below, shape := false, map[], {this}, map[], LEAF;
    }

    method AddChild(path: Path) returns (st: Status)
      requires Valid()
      modifies repr
      ensures Valid() && fresh(repr - old(repr)) && old(repr) <= repr
      ensures shape == Add(old(shape), path).0 && st == Add(old(shape), path).1
      decreases |path|, 0
    {
      if path == [] {
        if valid {
          return EXIST;
        }
        valid, shape := true, shape.(valid := true);
        return OK;
      }
      AddUnfold(shape, path);
      SetAgain(shape, path[0], LEAF, Add(LEAF, path[1..]).0);
      if path[0] !in children {
        NewChild(path[0]);
      }
      st := AddBelow(path[0], path[1..]);
    }

    method NewChild(name: string)
      requires Valid() && name !in children
      modifies this
      ensures Valid() && fresh(repr - old(repr)) && old(repr) <= repr && name in children
      ensures shape == WithChild(old(shape), name, LEAF)
    {
      var child := new HttpPathMatchNode();
      ApartGrows(this, repr, below, name, {child});
      children, repr, below := children[name := child], repr + {child}, below[name := {child}];
      shape := WithChild(shape, name, LEAF);
    }

    method AddBelow(name: string, rest: Path) returns (st: Status)
      requires Valid() && name in children
      modifies repr
      ensures Valid() && fresh(repr - old(repr)) && old(repr) <= repr
      ensures st == Add(old(shape).children[name], rest).1
      ensures shape == WithChild(old(shape), name, Add(old(shape).children[name], rest).0)
      decreases |rest|, 1
    {
      var child := children[name];
      assert child.StandsFor(below[name], shape.children[name]);
      st := child.AddChild(rest);
      Relink(name);
    }

    lemma {:induction false} AllStand(name: string, nodes: map<string, set<HttpPathMatchNode>>, value: Node)
      requires name in children && AllButOne(name) && children[name].Valid() && this !in children[name].repr
      requires nodes == below[name := children[name].repr] && value == WithChild(shape, name, children[name].shape)
      ensures forall k | k in children :: k in nodes && k in value.children && this !in nodes[k]
      ensures forall k | k in children :: children[k].StandsFor(nodes[k], value.children[k])
    {
      forall k | k in children ensures children[k].StandsFor(nodes[k], value.children[k]) && this !in nodes[k] {
        if k != name { assert children[k].StandsFor(below[k], shape.children[k]); }
      }
    }

    /** Takes note of what a child has become. */
    ghost method Relink(name: string)
      requires name in children && AllButOne(name) && children[name].Valid()
      requires this !in children[name].repr && below[name] <= children[name].repr
      requires (children[name].repr - below[name]) !! repr
      modifies this
      ensures Valid() && repr == old(repr) + old(children[name].repr)
      ensures shape == WithChild(old(shape), name, old(children[name].shape))
      ensures children == old(children)
    {
      var child := children[name];
      ApartGrows(this, repr, below, name, child.repr);
      ghost var nodes, value := below[name := child.repr], WithChild(shape, name, child.shape);
      AllStand(name, nodes, value);
      repr, below, shape := repr + child.repr, nodes, value;
      assert forall k | k in children :: children[k].StandsFor(nodes[k], value.children[k]);
    }

    method DelChild(path: Path) returns (st: Status)
      requires Valid()
      modifies repr
      ensures Valid() && repr == old(repr)
      ensures shape == Del(old(shape), path).0 && st == Del(old(shape), path).1
      decreases |path|, 0
    {
      if path == [] {
        valid, shape := false, shape.(valid := false);
        return OK;
      }
      if path[0] !in children {
        return NOTFOUND;
      }
      DelUnfold(shape, path);
      st := DelBelow(path[0], path[1..]);
      if st == NOTFOUND {
        return;
      }
      Prune(path[0]);
    }

    /** Deletes below a child; nothing changes where there is no node. */
    method DelBelow(name: string, rest: Path) returns (st: Status)
      requires Valid() && name in children
      modifies repr
      ensures Valid() && repr == old(repr) && name in children
      ensures st == Del(old(shape).children[name], rest).1
      ensures st == NOTFOUND ==> shape == old(shape)
      ensures st != NOTFOUND ==>
                shape == WithChild(old(shape), name, Del(old(shape).children[name], rest).0)
      decreases |rest|, 1
    {
      var child := children[name];
      assert child.StandsFor(below[name], shape.children[name]);
      DelRemoves(child.shape, rest, rest);
      SetAgain(shape, name, child.shape, child.shape);
      st := child.DelChild(rest);
      Relink(name);
    }

    /** A child without use is dropped. */
    method Prune(name: string)
      requires Valid() && name in children
      modifies this
      ensures Valid() && repr == old(repr)
      ensures shape == if Dead(old(shape).children[name]) then old(shape).(children := old(shape).children - {name}) else old(shape)
    {
      var child := children[name];
      assert child.StandsFor(below[name], shape.children[name]) && child.Valid();
      if !child.valid && child.children == map[] {
        assert child.shape.children == map[];
        children, below := children - {name}, below - {name};
        shape := shape.(children := shape.children - {name});
      } else {
        assert child.valid || child.shape.children.Keys != {};
      }
    }

    method MatchChild(path: Path, nodes: Path) returns (st: Status, nodes': Path)
      requires Valid()
      ensures st == Match(shape, path, nodes).0 && nodes' == Match(shape, path, nodes).1
      decreases |path|
    {
      st, nodes' := if valid then OK else NOTFOUND, nodes;
      if path == [] || path[0] !in children {
        return;
      }
      var found, passed := children[path[0]].MatchChild(path[1..], nodes + [path[0]]);
      if found == OK {
        return OK, passed;
      }
    }
  }

  // ----- the tree object -----

  class HttpPathMatchTree {
    const root: HttpPathMatchNode

    /** The nodes are sound and none is kept without need. */
    ghost predicate Valid()
      reads root, root.repr
    {
      root.Valid() && Tidy(root.shape)
    }

    constructor ()
      ensures Valid() && fresh(root.repr) && root.shape == LEAF
    {
      root := new HttpPathMatchNode();
    }

    method AddNode(s: string) returns (ret: Status)
      requires Valid()
      modifies root.repr
      ensures Valid() && fresh(root.repr - old(root.repr))
      ensures ret == (if Has(old(root.shape), Split(s)) then EXIST else OK)
      ensures forall q :: Has(root.shape, q) <==> Has(old(root.shape), q) || q == Split(s)
    {
      var names := SplitHttpPath(s);
      ghost var before := root.shape;
      AddTidy(before, names);
      forall q ensures Has(Add(before, names).0, q) <==> Has(before, q) || q == names {
        AddInserts(before, names, q);
      }
      AddInserts(before, names, names);
      ret := root.AddChild(names);
    }

    method DelNode(s: string)
      requires Valid()
      modifies root.repr
      ensures Valid() && root.repr == old(root.repr)
      ensures forall q :: Has(root.shape, q) <==> Has(old(root.shape), q) && q != Split(s)
    {
      var names := SplitHttpPath(s);
      ghost var before := root.shape;
      DelTidy(before, names);
      forall q ensures Has(Del(before, names).0, q) <==> Has(before, q) && q != names {
        DelRemoves(before, names, q);
      }
      var ignored := root.DelChild(names);
    }

    method MatchPath(s: string) returns (ret: Status, found: string, ghost k: nat)
      requires Valid()
      ensures ret == OK ==> IsLongest(root.shape, Split(s), k) && found == PathString(Split(s)[..k])
      ensures ret != OK ==> ret == NOTFOUND && forall j | 0 <= j <= |Split(s)| :: !Has(root.shape, Split(s)[..j])
    {
      var names := SplitHttpPath(s);
      k := MatchIsLongest(root.shape, names, []);
      var nodes: Path;
      ret, nodes := root.MatchChild(names, []);
      found := "";
      if ret == OK {
        assert [] + names[..k] == names[..k];
        found := PathString(nodes);
      }
    }
  }
}
