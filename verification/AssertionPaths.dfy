// Cutting a subtree out of the assertion tree and grafting one in
// (assertion/function/assertiontree/root_assertion_node.go: lookupPath, linkPath, LiftFromPath, LandAtPath).
module AssertionPaths {
  import opened Annotation
  import opened TriggerSlices
  import opened AssertionTrees

  function IndexOf(cs: seq<Tree>, id: nat): (i: nat)
    requires Child(cs, id).Some?
    ensures i < |cs| && cs[i].id == id && Child(cs, id) == Some(cs[i])
    ensures forall j :: 0 <= j < i ==> cs[j].id != id
  {
    if cs[0].id == id then 0 else IndexOf(cs[1..], id) + 1
  }

  /** `t` without the subtree at `p`. */
  function Without(t: Tree, p: Path): Tree
    requires p != [] && At(t, p).Some?
    decreases |p|
  {
    var i := IndexOf(t.children, p[0]);
    if |p| == 1 then t.(children := t.children[..i] + t.children[i + 1..])
    else t.(children := t.children[i := Without(t.children[i], p[1..])])
  }

  lemma ChildRemoved(cs: seq<Tree>, i: nat, id: nat)
    requires DistinctIds(cs) && i < |cs|
    ensures DistinctIds(cs[..i] + cs[i + 1..])
    ensures Child(cs[..i] + cs[i + 1..], id) == if id == cs[i].id then None else Child(cs, id)
  {
    var rest := cs[..i] + cs[i + 1..];
    assert forall j :: 0 <= j < |rest| ==> rest[j] == if j < i then cs[j] else cs[j + 1];
    if j :| 0 <= j < |cs| && cs[j].id == id && j != i {
      ChildAt(cs, j);
      ChildAt(rest, if j < i then j else j - 1);
    } else {
      ChildNone(rest, id);
      if id != cs[i].id {
        ChildNone(cs, id);
      }
    }
  }

  lemma {:induction false} WithoutWellFormed(t: Tree, p: Path)
    requires WellFormed(t) && p != [] && Has(t, p)
    ensures WellFormed(Without(t, p)) && Without(t, p).id == t.id && Without(t, p).consumers == t.consumers
    decreases |p|
  {
    var i := IndexOf(t.children, p[0]);
    assert t.children[i] in t.children;
    if |p| == 1 {
      ChildRemoved(t.children, i, 0);
    } else {
      WithoutWellFormed(t.children[i], p[1..]);
      ChildReplaced(t.children, i, Without(t.children[i], p[1..]), 0);
    }
  }

  /** Where the paths part, or the node is above, nothing is lost. */
  ghost predicate Kept(t: Tree, t': Tree, p: Path, q: Path) {
    && (p <= q ==> !Has(t', q))
    && (!(p <= q) ==> SameAt(t, t', q))
    && (!(p <= q) && !(q <= p) ==> At(t', q) == At(t, q))
  }

  lemma {:induction false} WithoutKeeps(t: Tree, p: Path, q: Path)
    requires WellFormed(t) && p != [] && Has(t, p)
    ensures Kept(t, Without(t, p), p, q)
    decreases |p|
  {
    if q != [] {
      var i := IndexOf(t.children, p[0]);
      assert t.children[i] in t.children;
      PrefixTail(p, q);
      if |p| == 1 {
        ChildRemoved(t.children, i, q[0]);
      } else {
        var c := Without(t.children[i], p[1..]);
        WithoutWellFormed(t.children[i], p[1..]);
        WithoutKeeps(t.children[i], p[1..], q[1..]);
        ChildReplaced(t.children, i, c, q[0]);
        ChildReplaced(t.children, i, c, p[0]);
        KeptStep(t, Without(t, p), t.children[i], c, p, q);
      }
    } else {
      WithoutWellFormed(t, p);
      assert At(t, q) == Some(t) && At(Without(t, p), q) == Some(Without(t, p));
    }
  }

  lemma KeptStep(t: Tree, t': Tree, c: Tree, c': Tree, p: Path, q: Path)
    requires |p| > 1 && q != [] && p[0] == c.id == c'.id && Kept(c, c', p[1..], q[1..])
    requires Child(t.children, c.id) == Some(c) && Child(t'.children, c.id) == Some(c')
    requires q[0] != c.id ==> Child(t'.children, q[0]) == Child(t.children, q[0])
    ensures Kept(t, t', p, q)
  {
    PrefixTail(p, q);
    PrefixTail(q, p);
    if q[0] == c.id {
      assert At(t, q) == At(c, q[1..]) && At(t', q) == At(c', q[1..]);
      hide At;
      assert forall k :: Says(t, q, k) == Says(c, q[1..], k) && Says(t', q, k) == Says(c', q[1..], k);
    } else {
      assert At(t, q) == At(t', q);
      hide At;
      assert forall k :: Says(t, q, k) == Says(t', q, k);
    }
  }

  lemma PrefixTail(p: Path, q: Path)
    requires p != [] && q != []
    ensures p <= q <==> p[0] == q[0] && p[1..] <= q[1..]
  {
    if p[0] == q[0] && p[1..] <= q[1..] {
      assert p == [p[0]] + p[1..] && q == [q[0]] + q[1..];
      assert q[1..][..|p| - 1] == p[1..];
      assert q[..|p|] == [q[0]] + q[1..][..|p| - 1];
    }
  }

  /** A linear tree: a chain of nodes without consumers, with `last` at the end of the path. */
  function Linked(id: nat, p: Path, last: Tree): Tree
    requires p != []
    decreases |p|
  {
    Node(id, [], [if |p| == 1 then last else Linked(p[0], p[1..], last)])
  }

  lemma {:induction false} LinkedWellFormed(id: nat, p: Path, last: Tree)
    requires p != [] && WellFormed(last) && last.id == p[|p| - 1]
    ensures WellFormed(Linked(id, p, last))
    decreases |p|
  {
    if |p| > 1 {
      LinkedWellFormed(p[0], p[1..], last);
    }
  }

  ghost function CarriedAt(p: Path, last: Tree, q: Path, k: nat): Option<Guarding> {
    if p <= q then Says(last, q[|p|..], k) else None
  }

  ghost predicate HoldsLast(t: Tree, p: Path, last: Tree, q: Path) {
    && (Has(t, q) <==> q <= p || (p <= q && Has(last, q[|p|..])))
    && forall k :: Says(t, q, k) == CarriedAt(p, last, q, k)
  }

  /** It holds what its last node holds, at the end of the path. */
  lemma {:induction false} LinkedAt(id: nat, p: Path, last: Tree, q: Path)
    requires p != [] && last.id == p[|p| - 1]
    ensures HoldsLast(Linked(id, p, last), p, last, q)
    decreases |p|
  {
    var t := Linked(id, p, last);
    if q == [] {
    } else {
      PrefixTail(p, q);
      PrefixTail(q, p);
      var next := if |p| == 1 then last else Linked(p[0], p[1..], last);
      assert t.children == [next] && next.id == p[0];
      if q[0] != p[0] {
        ChildNone(t.children, q[0]);
      } else {
        assert At(t, q) == At(next, q[1..]);
        if |p| > 1 {
          LinkedAt(p[0], p[1..], last, q[1..]);
        }
        hide At, Linked;
        LinkedStep(t, next, p, last, q);
      }
    }
  }

  lemma LinkedStep(t: Tree, next: Tree, p: Path, last: Tree, q: Path)
    requires p != [] && q != [] && q[0] == p[0] && At(t, q) == At(next, q[1..])
    requires if |p| == 1 then next == last else HoldsLast(next, p[1..], last, q[1..])
    ensures HoldsLast(t, p, last, q)
  {
    assert Has(last, []);
    hide At;
    PrefixTail(p, q);
    PrefixTail(q, p);
    assert forall k :: Says(t, q, k) == Says(next, q[1..], k);
    if p <= q {
      assert q[1..][|p| - 1..] == q[|p|..];
    }
    if |p| == 1 {
      assert p <= q && q[|p|..] == q[1..];
      assert forall k :: CarriedAt(p, last, q, k) == Says(last, q[1..], k);
    } else {
      assert forall k :: CarriedAt(p, last, q, k) == CarriedAt(p[1..], last, q[1..], k);
    }
  }

  /** The children that do not look like their new parent, without children. */
  function Ungrown(cs: seq<Tree>, leaf: Tree): seq<Tree> {
    if cs == [] then []
    else
      Ungrown(cs[..|cs| - 1], leaf) + if EqNodes(cs[|cs| - 1], leaf) then [] else [cs[|cs| - 1]]
  }

  /** What lands: the node under its new name, cut where it would grow the tree for ever. */
  function Cut(node: Tree, id: nat): Tree {
    Node(id, node.consumers, Ungrown(node.children, Node(id, node.consumers, [])))
  }

  function Unless(c: Option<Tree>, leaf: Tree): Option<Tree> {
    if c.Some? && EqNodes(c.value, leaf) then None else c
  }

  lemma FrontDiffers(front: seq<Tree>, last: Tree)
    requires DistinctIds(front + [last])
    ensures forall c :: c in front ==> c.id != last.id
  {
    forall c | c in front ensures c.id != last.id {
      var i :| 0 <= i < |front| && front[i] == c;
      assert (front + [last])[i] == c && (front + [last])[|front|] == last;
    }
  }

  lemma {:induction false} UngrownIs(cs: seq<Tree>, leaf: Tree, id: nat)
    requires DistinctIds(cs)
    ensures DistinctIds(Ungrown(cs, leaf)) && forall c :: c in Ungrown(cs, leaf) ==> c in cs && !EqNodes(c, leaf)
    ensures Child(Ungrown(cs, leaf), id) == Unless(Child(cs, id), leaf)
  {
    if cs != [] {
      var front, last := cs[..|cs| - 1], cs[|cs| - 1];
      assert cs == front + [last];
      DistinctPrefix(cs, |cs| - 1);
      UngrownIs(front, leaf, id);
      ChildUnion(front, last, id);
      hide EqNodes, Child, DistinctIds;
      if !EqNodes(last, leaf) {
        FrontDiffers(front, last);
        assert forall c :: c in Ungrown(front, leaf) ==> c.id != last.id;
        DistinctMore(Ungrown(front, leaf), last);
        ChildUnion(Ungrown(front, leaf), last, id);
        assert Ungrown(cs, leaf) == Ungrown(front, leaf) + [last];
      } else {
        assert Ungrown(cs, leaf) == Ungrown(front, leaf) + [];
        assert Ungrown(front, leaf) + [] == Ungrown(front, leaf);
      }
    }
  }

  /** Whether the growth cut drops what is at `q` below the node. */
  ghost predicate Grows(node: Tree, id: nat, q: Path) {
    q == [id] && At(node, q).Some? && EqNodes(At(node, q).value, Node(id, node.consumers, []))
  }

  lemma CutIs(node: Tree, id: nat, q: Path)
    requires WellFormed(node)
    ensures WellFormed(Cut(node, id)) && Cut(node, id).id == id
    ensures forall k :: Says(Cut(node, id), q, k) == if Grows(node, id, q) then None else Says(node, q, k)
  {
    var leaf := Node(id, node.consumers, []);
    UngrownIs(node.children, leaf, 0);
    assert WellFormed(Cut(node, id)) by {
      hide EqNodes;
    }
    if q != [] {
      UngrownIs(node.children, leaf, q[0]);
      match Child(node.children, q[0]) {
        case None =>
        case Some(c) =>
          ChildIs(node.children, q[0]);
          if EqNodes(c, leaf) {
            CutGone(node, id, q, c);
          } else {
            assert At(node, q) == At(c, q[1..]) == At(Cut(node, id), q);
            GrowsNot(node, id, q, c);
          }
      }
    }
  }

  lemma GrowsNot(node: Tree, id: nat, q: Path, c: Tree)
    requires q != [] && Child(node.children, q[0]) == Some(c) && !EqNodes(c, Node(id, node.consumers, []))
    ensures !Grows(node, id, q)
  {
    if q == [id] {
      assert q[1..] == [] && At(node, q) == At(c, []);
    }
  }

  lemma CutGone(node: Tree, id: nat, q: Path, c: Tree)
    requires q != [] && Child(node.children, q[0]) == Some(c) && c.id == q[0] &&
      EqNodes(c, Node(id, node.consumers, []))
    requires Child(Cut(node, id).children, q[0]) == None
    ensures forall k :: Says(Cut(node, id), q, k) == if Grows(node, id, q) then None else Says(node, q, k)
  {
    assert At(node, q) == At(c, q[1..]) && At(Cut(node, id), q) == None;
    if |q| == 1 {
      assert q == [id] && q[1..] == [];
    } else {
      assert c.children == [] && At(c, q[1..]) == None;
    }
  }
}
