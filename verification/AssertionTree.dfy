// The assertion tree and its merge (assertion/function/assertiontree/root_assertion_node.go).
module AssertionTrees {
  import opened Annotation
  import opened TriggerSlices

  /** `id` stands for the class of shallowly equal nodes. */
  datatype Tree = Node(id: nat, consumers: seq<Consumer>, children: seq<Tree>)

  /** An access path, below the root. */
  type Path = seq<nat>

  ghost predicate DistinctIds(cs: seq<Tree>) {
    forall x, y :: 0 <= x < y < |cs| ==> cs[x].id != cs[y].id
  }

  /** No two children of a node are shallowly equal; each consumer is listed once. */
  ghost predicate WellFormed(t: Tree) {
    DistinctKeys(t.consumers) && DistinctIds(t.children) && forall c :: c in t.children ==> WellFormed(c)
  }

  function Child(cs: seq<Tree>, id: nat): Option<Tree> {
    if cs == [] then None else if cs[0].id == id then Some(cs[0]) else Child(cs[1..], id)
  }

  lemma {:induction false} ChildIs(cs: seq<Tree>, id: nat)
    ensures match Child(cs, id)
            case Some(c) => c in cs && c.id == id
            case None => forall c :: c in cs ==> c.id != id
  {
    if cs != [] && cs[0].id != id {
      ChildIs(cs[1..], id);
    }
  }

  lemma ChildAt(cs: seq<Tree>, i: nat)
    requires DistinctIds(cs) && i < |cs|
    ensures Child(cs, cs[i].id) == Some(cs[i])
  {
    ChildIs(cs, cs[i].id);
    assert cs[i] in cs;
    var c := Child(cs, cs[i].id).value;
    var j :| 0 <= j < |cs| && cs[j] == c;
  }

  lemma ChildNone(cs: seq<Tree>, id: nat)
    requires forall i :: 0 <= i < |cs| ==> cs[i].id != id
    ensures Child(cs, id) == None
  {
    ChildIs(cs, id);
  }

  /** The node at a path. */
  function At(t: Tree, p: Path): Option<Tree>
    decreases |p|
  {
    if p == [] then Some(t)
    else
      match Child(t.children, p[0])
      case None => None
      case Some(c) => At(c, p[1..])
  }

  ghost predicate Has(t: Tree, p: Path) {
    At(t, p).Some?
  }

  /** What the tree says about a consumer at a path. */
  ghost function Says(t: Tree, p: Path, k: nat): Option<Guarding> {
    match At(t, p)
    case None => None
    case Some(n) => Meaning(n.consumers, k)
  }

  ghost predicate SameAt(l: Tree, r: Tree, p: Path) {
    && (Has(l, p) <==> Has(r, p))
    && forall k :: Says(l, p, k) == Says(r, p, k)
  }

  ghost predicate Same(l: Tree, r: Tree) {
    forall p :: SameAt(l, r, p)
  }

  ghost predicate JoinAt(l: Tree, r: Tree, t: Tree, p: Path) {
    && (Has(t, p) <==> Has(l, p) || Has(r, p))
    && forall k :: Says(t, p, k) == Join(Says(l, p, k), Says(r, p, k))
  }

  /** `t` has the paths of both and, at each, the consumers of both with their guards intersected. */
  ghost predicate IsJoin(l: Tree, r: Tree, t: Tree) {
    t.id == l.id && forall p :: JoinAt(l, r, t, p)
  }

  /** Children on their own. */
  function Bush(cs: seq<Tree>): Tree {
    Node(0, [], cs)
  }

  lemma AtBush(t: Tree, p: Path)
    requires p != []
    ensures At(t, p) == At(Bush(t.children), p)
  {
  }

  lemma AtNew(cs: seq<Tree>, c: Tree, p: Path)
    requires DistinctIds(cs + [c]) && p != []
    ensures At(Bush(cs + [c]), p) == if p[0] == c.id then At(c, p[1..]) else At(Bush(cs), p)
    ensures p[0] == c.id ==> At(Bush(cs), p) == None
  {
    ChildUnion(cs, c, p[0]);
    hide DistinctIds;
  }

  lemma ChildUnion(cs: seq<Tree>, c: Tree, id: nat)
    requires DistinctIds(cs + [c])
    ensures Child(cs + [c], id) == if id == c.id then Some(c) else Child(cs, id)
    ensures id == c.id ==> Child(cs, id) == None
  {
    var all := cs + [c];
    if id == c.id {
      ChildAt(all, |cs|);
      assert forall i :: 0 <= i < |cs| ==> cs[i] == all[i];
      ChildNone(cs, id);
    } else if i :| 0 <= i < |cs| && cs[i].id == id {
      assert DistinctIds(cs) by {
        assert forall i :: 0 <= i < |cs| ==> cs[i] == all[i];
      }
      assert all[i] == cs[i];
      ChildAt(all, i);
      ChildAt(cs, i);
    } else {
      ChildNone(cs, id);
      ChildNone(all, id);
    }
  }

  lemma ChildReplaced(cs: seq<Tree>, i: nat, c: Tree, id: nat)
    requires DistinctIds(cs) && i < |cs| && c.id == cs[i].id
    ensures DistinctIds(cs[i := c])
    ensures Child(cs[i := c], id) == if id == c.id then Some(c) else Child(cs, id)
  {
    var all := cs[i := c];
    if j :| 0 <= j < |cs| && cs[j].id == id {
      ChildAt(all, j);
      ChildAt(cs, j);
    } else {
      ChildNone(cs, id);
      ChildNone(all, id);
    }
  }

  lemma AtReplaced(cs: seq<Tree>, i: nat, c: Tree, p: Path)
    requires DistinctIds(cs) && i < |cs| && c.id == cs[i].id && p != []
    ensures At(Bush(cs[i := c]), p) == if p[0] == c.id then At(c, p[1..]) else At(Bush(cs), p)
    ensures p[0] == c.id ==> At(Bush(cs), p) == At(cs[i], p[1..])
  {
    ChildReplaced(cs, i, c, p[0]);
    ChildAt(cs, i);
    hide DistinctIds;
  }

  /** One child of the right is merged into a child that exists. */
  lemma MergedStep(ls: seq<Tree>, rs: seq<Tree>, r: Tree, cs: seq<Tree>, i: nat, m: Tree)
    requires IsJoin(Bush(ls), Bush(rs), Bush(cs)) && DistinctIds(cs) && DistinctIds(rs + [r])
    requires i < |cs| && cs[i].id == r.id && IsJoin(cs[i], r, m)
    ensures IsJoin(Bush(ls), Bush(rs + [r]), Bush(cs[i := m]))
  {
    hide At, Child, DistinctIds, Meaning, Join;
    var after := Bush(cs[i := m]);
    AtEmpty(ls, rs, r, cs[i := m]);
    JoinEmpty();
    forall p ensures JoinAt(Bush(ls), Bush(rs + [r]), after, p) {
      if p != [] {
        AtNew(rs, r, p);
        AtReplaced(cs, i, m, p);
        assert JoinAt(Bush(ls), Bush(rs), Bush(cs), p);
        if p[0] == r.id {
          var q := p[1..];
          assert JoinAt(cs[i], r, m, q);
          assert forall k :: Says(after, p, k) == Says(m, q, k) && Says(Bush(cs), p, k) == Says(cs[i], q, k);
          assert forall k :: Says(Bush(rs + [r]), p, k) == Says(r, q, k);
        }
      }
    }
  }

  lemma JoinEmpty()
    ensures forall a :: Join(a, None) == a && Join(None, a) == a
  {
  }

  lemma AtEmpty(ls: seq<Tree>, rs: seq<Tree>, r: Tree, cs: seq<Tree>)
    ensures Has(Bush(cs), []) && Has(Bush(ls), [])
    ensures forall k :: Says(Bush(cs), [], k) == Join(Says(Bush(ls), [], k), Says(Bush(rs + [r]), [], k))
  {
  }

  /** One child of the right is new. */
  lemma AddedStep(ls: seq<Tree>, rs: seq<Tree>, r: Tree, cs: seq<Tree>)
    requires IsJoin(Bush(ls), Bush(rs), Bush(cs)) && DistinctIds(cs + [r]) && DistinctIds(rs + [r])
    ensures IsJoin(Bush(ls), Bush(rs + [r]), Bush(cs + [r]))
  {
    hide At, Child, DistinctIds, Meaning, Join;
    AtEmpty(ls, rs, r, cs + [r]);
    JoinEmpty();
    forall p ensures JoinAt(Bush(ls), Bush(rs + [r]), Bush(cs + [r]), p) {
      if p != [] {
        AtNew(rs, r, p);
        AtNew(cs, r, p);
        assert JoinAt(Bush(ls), Bush(rs), Bush(cs), p);
      }
    }
  }

  lemma JoinWithNothing(ls: seq<Tree>)
    ensures IsJoin(Bush(ls), Bush([]), Bush(ls))
  {
    forall p ensures Has(Bush([]), p) <==> p == [] {
    }
    hide At;
  }

  /** Consumers and children together. */
  lemma JoinNodes(l: Tree, r: Tree, consumers: seq<Consumer>, cs: seq<Tree>)
    requires forall k :: Meaning(consumers, k) == Join(Meaning(l.consumers, k), Meaning(r.consumers, k))
    requires IsJoin(Bush(l.children), Bush(r.children), Bush(cs))
    ensures IsJoin(l, r, Node(l.id, consumers, cs))
  {
    var t := Node(l.id, consumers, cs);
    hide Join;
    forall p ensures JoinAt(l, r, t, p) {
      if p != [] {
        AtBush(t, p);
        AtBush(l, p);
        AtBush(r, p);
        assert JoinAt(Bush(l.children), Bush(r.children), Bush(cs), p);
        hide At;
        assert forall k :: Says(t, p, k) == Says(Bush(cs), p, k);
      } else {
        assert forall k :: Says(t, p, k) == Meaning(consumers, k);
        assert forall k :: Says(l, p, k) == Meaning(l.consumers, k) && Says(r, p, k) == Meaning(r.consumers, k);
      }
    }
  }

  /** Copies what `right` has into `left`: a join. */
  method MergeInto(left: Tree, right: Tree) returns (t: Tree)
    requires WellFormed(left) && WellFormed(right) && left.id == right.id
    ensures WellFormed(t) && IsJoin(left, right, t)
    ensures |left.children| <= |t.children|
    ensures forall i :: 0 <= i < |left.children| ==> t.children[i].id == left.children[i].id
    ensures SameStart(left.consumers, t.consumers)
    decreases right
  {
    var consumers := MergeConsumeTriggerSlices(left.consumers, right.consumers);
    var cs := left.children;
    JoinWithNothing(left.children);
    hide IsJoin, Meaning, Join, DistinctKeys, DistinctIds;
    for j := 0 to |right.children|
      invariant DistinctIds(cs) && forall c :: c in cs ==> WellFormed(c)
      invariant |left.children| <= |cs| && forall i :: 0 <= i < |left.children| ==> cs[i].id == left.children[i].id
      invariant IsJoin(Bush(left.children), Bush(right.children[..j]), Bush(cs))
    {
      var r := right.children[j];
      assert r in right.children;
      assert right.children[..j + 1] == right.children[..j] + [r];
      DistinctPrefix(right.children, j + 1);
      var found := false;
      for i := 0 to |cs|
        invariant !found && forall x :: 0 <= x < i ==> cs[x].id != r.id
      {
        if cs[i].id == r.id {
          assert cs[i] in cs;
          var m := MergeInto(cs[i], r);
          JoinId(cs[i], r, m);
          MergedStep(left.children, right.children[..j], r, cs, i, m);
          ChildReplaced(cs, i, m, 0);
          cs := cs[i := m];
          found := true;
          break;
        }
      }
      if !found {
        DistinctMore(cs, r);
        AddedStep(left.children, right.children[..j], r, cs);
        cs := cs + [r];
      }
    }
    assert right.children[..|right.children|] == right.children;
    JoinNodes(left, right, consumers, cs);
    return Node(left.id, consumers, cs);
  }

  lemma JoinId(l: Tree, r: Tree, t: Tree)
    requires IsJoin(l, r, t)
    ensures t.id == l.id
  {
  }

  lemma DistinctPrefix(cs: seq<Tree>, n: nat)
    requires DistinctIds(cs) && n <= |cs|
    ensures DistinctIds(cs[..n])
  {
  }

  lemma DistinctMore(cs: seq<Tree>, c: Tree)
    requires DistinctIds(cs) && forall x :: 0 <= x < |cs| ==> cs[x].id != c.id
    ensures DistinctIds(cs + [c])
  {
  }

  /** Full equality, the fixed point condition. */
  predicate EqNodes(l: Tree, r: Tree)
    decreases l
  {
    && l.id == r.id
    && |l.consumers| == |r.consumers| && Within(l.consumers, r.consumers)
    && |l.children| == |r.children|
    && forall c | c in l.children :: exists d | d in r.children :: EqNodes(c, d)
  }

  ghost function IdsOf(cs: seq<Tree>): (ids: seq<nat>)
    ensures |ids| == |cs| && forall i :: 0 <= i < |cs| ==> ids[i] == cs[i].id
  {
    seq(|cs|, i requires 0 <= i < |cs| => cs[i].id)
  }

  lemma IdsOfDistinct(cs: seq<Tree>)
    requires DistinctIds(cs)
    ensures NoDuplicates(IdsOf(cs))
    ensures forall id :: id in IdsOf(cs) <==> Child(cs, id).Some?
  {
    forall id ensures id in IdsOf(cs) <==> Child(cs, id).Some? {
      ChildIs(cs, id);
      if Child(cs, id).Some? {
        var i :| 0 <= i < |cs| && cs[i] == Child(cs, id).value;
        assert IdsOf(cs)[i] == id;
      } else if i :| 0 <= i < |cs| && cs[i].id == id {
        assert cs[i] in cs;
      }
    }
  }

  /** As many children, each matched on the right: the same children. */
  lemma SameChildren(ls: seq<Tree>, rs: seq<Tree>, id: nat)
    requires DistinctIds(ls) && DistinctIds(rs) && |ls| == |rs|
    requires forall c :: c in ls ==> exists d :: d in rs && d.id == c.id
    ensures Child(ls, id).Some? <==> Child(rs, id).Some?
  {
    IdsOfDistinct(ls);
    IdsOfDistinct(rs);
    forall x | x in IdsOf(ls) ensures x in IdsOf(rs) {
      var i :| 0 <= i < |ls| && IdsOf(ls)[i] == x;
      assert ls[i] in ls;
      var d :| d in rs && d.id == ls[i].id;
      var j :| 0 <= j < |rs| && rs[j] == d;
      assert IdsOf(rs)[j] == x;
    }
    hide IdsOf, Child, DistinctIds, NoDuplicates;
    NoMoreThan(IdsOf(ls), IdsOf(rs));
  }

  /** Equal trees say the same at every path. */
  lemma {:induction false} EqNodesAt(l: Tree, r: Tree, p: Path, k: nat)
    requires WellFormed(l) && WellFormed(r) && EqNodes(l, r)
    ensures Has(l, p) <==> Has(r, p)
    ensures Says(l, p, k) == Says(r, p, k)
    decreases |p|
  {
    if p == [] {
      SlicesEqIsSameMeaning(l.consumers, r.consumers);
    } else {
      SameChildren(l.children, r.children, p[0]);
      ChildIs(l.children, p[0]);
      ChildIs(r.children, p[0]);
      if Child(l.children, p[0]).Some? {
        var c, d := Child(l.children, p[0]).value, Child(r.children, p[0]).value;
        var e :| e in r.children && EqNodes(c, e);
        OneChild(r.children, d, e);
        EqNodesAt(c, d, p[1..], k);
      }
    }
  }

  lemma OneChild(cs: seq<Tree>, c: Tree, d: Tree)
    requires DistinctIds(cs) && c in cs && d in cs && c.id == d.id
    ensures c == d
  {
    var i :| 0 <= i < |cs| && cs[i] == c;
    var j :| 0 <= j < |cs| && cs[j] == d;
  }

  lemma SameBelow(l: Tree, r: Tree, c: Tree, d: Tree)
    requires Same(l, r) && DistinctIds(l.children) && DistinctIds(r.children)
    requires c in l.children && d in r.children && c.id == d.id
    ensures Same(c, d)
  {
    ChildIs(l.children, c.id);
    ChildIs(r.children, c.id);
    OneChild(l.children, c, Child(l.children, c.id).value);
    OneChild(r.children, d, Child(r.children, d.id).value);
    forall p ensures SameAt(c, d, p) {
      var q := [c.id] + p;
      assert q[1..] == p;
      assert At(l, q) == At(c, p) && At(r, q) == At(d, p);
      assert SameAt(l, r, q);
      hide At;
      assert forall k :: Says(l, q, k) == Says(c, p, k) && Says(r, q, k) == Says(d, p, k);
    }
  }

  lemma SameHasChild(l: Tree, r: Tree, id: nat)
    requires Same(l, r)
    ensures Child(l.children, id).Some? <==> Child(r.children, id).Some?
  {
    assert SameAt(l, r, [id]);
    ChildPath(l, id);
    ChildPath(r, id);
  }

  lemma ChildPath(t: Tree, id: nat)
    ensures Has(t, [id]) <==> Child(t.children, id).Some?
  {
    assert [id][1..] == [];
    if Child(t.children, id).Some? {
      assert At(t, [id]) == At(Child(t.children, id).value, []);
    }
  }

  lemma SameCount(l: Tree, r: Tree)
    requires Same(l, r) && DistinctIds(l.children) && DistinctIds(r.children)
    ensures |l.children| == |r.children|
  {
    IdsOfDistinct(l.children);
    IdsOfDistinct(r.children);
    forall id ensures id in IdsOf(l.children) <==> id in IdsOf(r.children) {
      SameHasChild(l, r, id);
    }
    hide IdsOf, Child, DistinctIds, NoDuplicates;
    NoMoreThan(IdsOf(l.children), IdsOf(r.children));
    NoMoreThan(IdsOf(r.children), IdsOf(l.children));
  }

  lemma {:induction false} SameIsEqNodes(l: Tree, r: Tree)
    requires WellFormed(l) && WellFormed(r) && l.id == r.id && Same(l, r)
    ensures EqNodes(l, r)
    decreases l
  {
    assert SameMeaning(l.consumers, r.consumers) by {
      assert SameAt(l, r, []);
      assert forall k :: Says(l, [], k) == Meaning(l.consumers, k) && Says(r, [], k) == Meaning(r.consumers, k);
    }
    SlicesEqIsSameMeaning(l.consumers, r.consumers);
    SameCount(l, r);
    forall c | c in l.children ensures exists d :: d in r.children && EqNodes(c, d) {
      SameHasChild(l, r, c.id);
      ChildIs(l.children, c.id);
      ChildIs(r.children, c.id);
      var d := Child(r.children, c.id).value;
      SameBelow(l, r, c, d);
      SameIsEqNodes(c, d);
    }
  }

  /** The comparison decides whether two trees say the same. */
  lemma EqNodesIsSame(l: Tree, r: Tree)
    requires WellFormed(l) && WellFormed(r)
    ensures EqNodes(l, r) <==> l.id == r.id && Same(l, r)
  {
    hide WellFormed, Has, Says;
    if EqNodes(l, r) {
      forall p ensures SameAt(l, r, p) {
        EqNodesAt(l, r, p, 0);
        forall k ensures Says(l, p, k) == Says(r, p, k) {
          EqNodesAt(l, r, p, k);
        }
      }
    }
    if l.id == r.id && Same(l, r) {
      SameIsEqNodes(l, r);
    }
  }

  lemma MergeCommutes(l: Tree, r: Tree, a: Tree, b: Tree)
    requires WellFormed(a) && WellFormed(b) && l.id == r.id && IsJoin(l, r, a) && IsJoin(r, l, b)
    ensures EqNodes(a, b)
  {
    hide WellFormed, Has, Says, Join;
    forall p ensures SameAt(a, b, p) {
      assert JoinAt(l, r, a, p) && JoinAt(r, l, b, p);
      forall k ensures Says(a, p, k) == Says(b, p, k) {
        JoinLaws(Says(l, p, k), Says(r, p, k), None);
      }
    }
    EqNodesIsSame(a, b);
  }

  lemma MergeAssociates(x: Tree, y: Tree, z: Tree, xy: Tree, yz: Tree, a: Tree, b: Tree)
    requires WellFormed(a) && WellFormed(b)
    requires IsJoin(x, y, xy) && IsJoin(xy, z, a) && IsJoin(y, z, yz) && IsJoin(x, yz, b)
    ensures EqNodes(a, b)
  {
    hide WellFormed, Has, Says, Join;
    forall p ensures SameAt(a, b, p) {
      assert JoinAt(x, y, xy, p) && JoinAt(xy, z, a, p) && JoinAt(y, z, yz, p) && JoinAt(x, yz, b, p);
      forall k ensures Says(a, p, k) == Says(b, p, k) {
        JoinLaws(Says(x, p, k), Says(y, p, k), Says(z, p, k));
      }
    }
    EqNodesIsSame(a, b);
  }

  lemma MergeIdempotent(t: Tree, a: Tree)
    requires WellFormed(t) && WellFormed(a) && IsJoin(t, t, a)
    ensures EqNodes(a, t)
  {
    hide WellFormed, Has, Says, Join;
    forall p ensures SameAt(a, t, p) {
      assert JoinAt(t, t, a, p);
      forall k ensures Says(a, p, k) == Says(t, p, k) {
        JoinLaws(Says(t, p, k), None, None);
      }
    }
    EqNodesIsSame(a, t);
  }
}
