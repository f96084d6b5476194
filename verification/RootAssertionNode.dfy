// Productions at the root of the assertion tree
// (assertion/function/assertiontree/root_assertion_node.go: AddProduction, triggerProductions, ProcessEntry).
module RootAssertionNodes {
  import opened Annotation
  import opened TriggerSlices
  import opened AssertionTrees
  import opened AssertionPaths

  /** What the source program says about nodes: the producer of what a node denotes when nothing
      better is known, which nodes are index expressions, and the path that a child's expression,
      built anew, is parsed to. */
  datatype NodeRules = NodeRules(defaultProducer: nat -> nat, isIndex: nat -> bool, parse: nat -> Option<Path>)

  /** The producer of a child of a produced node. */
  function ProducerOf(rules: NodeRules, deeper: Option<nat>, id: nat): nat {
    if deeper.Some? && rules.isIndex(id) then deeper.value else rules.defaultProducer(id)
  }

  ghost predicate In(ts: seq<Full>, x: (nat, nat), bare: bool) {
    if bare then x in Bare(ts) else x in Facts(ts)
  }

  ghost predicate Consumes(cs: seq<Consumer>, producer: nat, x: (nat, nat), bare: bool) {
    exists c :: c in cs && x == (producer, c.key) && (bare ==> !c.guarding.matched)
  }

  /** The triggers that production owes the subtree: each consumer meets the producer of its node. */
  ghost predicate Owes(rules: NodeRules, t: Tree, producer: nat, deeper: Option<nat>, x: (nat, nat), bare: bool)
    decreases t
  {
    || Consumes(t.consumers, producer, x, bare)
    || exists c :: c in t.children && Owes(rules, c, ProducerOf(rules, deeper, c.id), None, x, bare)
  }

  ghost predicate OwesAny(rules: NodeRules, cs: seq<Tree>, deeper: Option<nat>, x: (nat, nat), bare: bool) {
    exists c :: c in cs && Owes(rules, c, ProducerOf(rules, deeper, c.id), None, x, bare)
  }

  /** The producer at a path below a produced node. */
  ghost function ProducerAt(rules: NodeRules, producer: nat, deeper: Option<nat>, p: Path): nat {
    if p == [] then producer
    else if |p| == 1 then ProducerOf(rules, deeper, p[0])
    else rules.defaultProducer(p[|p| - 1])
  }

  /** A consumer at `p` that becomes part of x. */
  ghost predicate OwedAt(rules: NodeRules, t: Tree, producer: nat, deeper: Option<nat>, x: (nat, nat), bare: bool,
                         p: Path)
  {
    && x.0 == ProducerAt(rules, producer, deeper, p)
    && Says(t, p, x.1).Some? && (bare ==> !Says(t, p, x.1).value.matched)
  }

  lemma ConsumesIs(t: Tree, producer: nat, x: (nat, nat), bare: bool)
    requires DistinctKeys(t.consumers)
    ensures Consumes(t.consumers, producer, x, bare) <==>
      x.0 == producer && Meaning(t.consumers, x.1).Some? && (bare ==> !Meaning(t.consumers, x.1).value.matched)
  {
    MeaningIs(t.consumers, x.1);
    hide Meaning, DistinctKeys;
  }

  lemma BelowChild(t: Tree, c: Tree, p: Path)
    requires WellFormed(t) && c in t.children
    ensures At(t, [c.id] + p) == At(c, p)
  {
    var i :| 0 <= i < |t.children| && t.children[i] == c;
    ChildAt(t.children, i);
    assert ([c.id] + p)[1..] == p;
  }

  /** Owed is exactly what some path says. */
  lemma {:induction false} OwesIsAtSomePath(rules: NodeRules, t: Tree, producer: nat, deeper: Option<nat>,
                                           x: (nat, nat), bare: bool)
    requires WellFormed(t)
    ensures Owes(rules, t, producer, deeper, x, bare) <==> exists p :: OwedAt(rules, t, producer, deeper, x, bare, p)
    decreases t
  {
    ConsumesIs(t, producer, x, bare);
    if Owes(rules, t, producer, deeper, x, bare) {
      OwedSomewhere(rules, t, producer, deeper, x, bare);
    }
    if p :| OwedAt(rules, t, producer, deeper, x, bare, p) {
      if p != [] {
        OwedBelow(rules, t, producer, deeper, x, bare, p);
      }
    }
  }

  lemma OwedSomewhere(rules: NodeRules, t: Tree, producer: nat, deeper: Option<nat>, x: (nat, nat), bare: bool)
    requires WellFormed(t) && Owes(rules, t, producer, deeper, x, bare)
    ensures exists p :: OwedAt(rules, t, producer, deeper, x, bare, p)
    decreases t, 0
  {
    ConsumesIs(t, producer, x, bare);
    if Consumes(t.consumers, producer, x, bare) {
      assert At(t, []) == Some(t);
      assert OwedAt(rules, t, producer, deeper, x, bare, []);
    } else {
      var c :| c in t.children && Owes(rules, c, ProducerOf(rules, deeper, c.id), None, x, bare);
      OwesIsAtSomePath(rules, c, ProducerOf(rules, deeper, c.id), None, x, bare);
      var q :| OwedAt(rules, c, ProducerOf(rules, deeper, c.id), None, x, bare, q);
      BelowChild(t, c, q);
      hide At, Meaning;
      assert Says(t, [c.id] + q, x.1) == Says(c, q, x.1);
      assert OwedAt(rules, t, producer, deeper, x, bare, [c.id] + q);
    }
  }

  lemma OwedBelow(rules: NodeRules, t: Tree, producer: nat, deeper: Option<nat>, x: (nat, nat), bare: bool, p: Path)
    requires WellFormed(t) && p != [] && OwedAt(rules, t, producer, deeper, x, bare, p)
    ensures Owes(rules, t, producer, deeper, x, bare)
    decreases t, 0
  {
    ChildIs(t.children, p[0]);
    var c := Child(t.children, p[0]).value;
    assert p == [c.id] + p[1..];
    BelowChild(t, c, p[1..]);
    assert OwedAt(rules, c, ProducerOf(rules, deeper, c.id), None, x, bare, p[1..]) by {
      hide At, Meaning;
      assert Says(t, p, x.1) == Says(c, p[1..], x.1);
    }
    OwesIsAtSomePath(rules, c, ProducerOf(rules, deeper, c.id), None, x, bare);
  }

  ghost predicate Clear(t: Tree) {
    t.consumers == [] && forall c :: c in t.children ==> Clear(c)
  }

  lemma {:induction false} ClearOwesNothing(rules: NodeRules, t: Tree, producer: nat, deeper: Option<nat>,
                                           x: (nat, nat), bare: bool)
    requires Clear(t)
    ensures !Owes(rules, t, producer, deeper, x, bare)
    decreases t
  {
    forall c | c in t.children ensures !Owes(rules, c, ProducerOf(rules, deeper, c.id), None, x, bare) {
      ClearOwesNothing(rules, c, ProducerOf(rules, deeper, c.id), None, x, bare);
    }
  }

  /** Triggers are never dropped or moved; they can only lose their guards. */
  ghost predicate Lasting(ts: seq<Full>, ts': seq<Full>) {
    |ts| <= |ts'| && forall i :: 0 <= i < |ts| ==> Lowered(ts[i], ts'[i])
  }

  lemma LastingThen(a: seq<Full>, b: seq<Full>, c: seq<Full>)
    requires Lasting(a, b) && Lasting(b, c)
    ensures Lasting(a, c)
  {
  }

  lemma MergedIn(left: seq<Full>, t: Full, out: seq<Full>)
    requires Merged(left, [t], out)
    ensures Lasting(left, out)
    ensures forall x, bare :: In(out, x, bare) <==>
      In(left, x, bare) || (x == t.Pair() && (bare ==> !t.consumer.guarding.matched))
  {
    NoFacts();
    FactsOn([], t);
    assert [] + [t] == [t];
    hide Facts, Bare;
  }

  lemma ConsumesNext(cs: seq<Consumer>, i: nat, producer: nat)
    requires i < |cs|
    ensures forall x, bare :: Consumes(cs[..i + 1], producer, x, bare) <==>
      Consumes(cs[..i], producer, x, bare) || (x == (producer, cs[i].key) && (bare ==> !cs[i].guarding.matched))
  {
    assert cs[..i + 1] == cs[..i] + [cs[i]];
    assert forall c :: c in cs[..i + 1] <==> c in cs[..i] || c == cs[i];
    forall x, bare
      ensures Consumes(cs[..i + 1], producer, x, bare) <==>
        Consumes(cs[..i], producer, x, bare) || (x == (producer, cs[i].key) && (bare ==> !cs[i].guarding.matched))
    {
      if Consumes(cs[..i], producer, x, bare) {
        var c :| c in cs[..i] && x == (producer, c.key) && (bare ==> !c.guarding.matched);
        assert c in cs[..i + 1];
      }
      assert cs[i] in cs[..i + 1];
    }
  }

  /** The triggers after consumers met a producer. */
  ghost predicate AddsConsumers(ts: seq<Full>, ts': seq<Full>, cs: seq<Consumer>, producer: nat) {
    && Lasting(ts, ts')
    && forall x, bare :: In(ts', x, bare) <==> In(ts, x, bare) || Consumes(cs, producer, x, bare)
  }

  /** The triggers after children were produced. */
  ghost predicate AddsChildren(rules: NodeRules, ts: seq<Full>, ts': seq<Full>, cs: seq<Tree>, deeper: Option<nat>) {
    && Lasting(ts, ts')
    && forall x, bare :: In(ts', x, bare) <==> In(ts, x, bare) || OwesAny(rules, cs, deeper, x, bare)
  }

  /** The triggers after a subtree was produced. */
  ghost predicate AddsNode(rules: NodeRules, ts: seq<Full>, ts': seq<Full>, t: Tree, producer: nat,
                           deeper: Option<nat>)
  {
    && Lasting(ts, ts')
    && forall x, bare :: In(ts', x, bare) <==> In(ts, x, bare) || Owes(rules, t, producer, deeper, x, bare)
  }

  /** Production conserves consumers: the triggers gain exactly one fact for each consumer that some
      path of the subtree holds, unmatched exactly if the consumer was. */
  lemma ProductionConserves(rules: NodeRules, ts: seq<Full>, ts': seq<Full>, t: Tree, producer: nat,
                            deeper: Option<nat>,
                            x: (nat, nat), bare: bool)
    requires WellFormed(t) && AddsNode(rules, ts, ts', t, producer, deeper)
    ensures In(ts', x, bare) <==> In(ts, x, bare) || exists p :: OwedAt(rules, t, producer, deeper, x, bare, p)
  {
    hide In, Owes, OwedAt, Lasting;
    OwesIsAtSomePath(rules, t, producer, deeper, x, bare);
  }

  lemma AddsTogether(rules: NodeRules, a: seq<Full>, b: seq<Full>, c: seq<Full>, t: Tree, producer: nat,
                     deeper: Option<nat>)
    requires AddsConsumers(a, b, t.consumers, producer) && AddsChildren(rules, b, c, t.children, deeper)
    ensures AddsNode(rules, a, c, t, producer, deeper)
  {
    LastingThen(a, b, c);
    hide In, Consumes, Lasting;
    forall x, bare ensures In(c, x, bare) <==> In(a, x, bare) || Owes(rules, t, producer, deeper, x, bare) {
      assert Owes(rules, t, producer, deeper, x, bare) <==>
        Consumes(t.consumers, producer, x, bare) || OwesAny(rules, t.children, deeper, x, bare);
    }
  }

  lemma OwesAnyNext(rules: NodeRules, cs: seq<Tree>, i: nat, deeper: Option<nat>, x: (nat, nat), bare: bool)
    requires i < |cs|
    ensures OwesAny(rules, cs[..i + 1], deeper, x, bare) <==>
      OwesAny(rules, cs[..i], deeper, x, bare) || Owes(rules, cs[i], ProducerOf(rules, deeper, cs[i].id), None, x, bare)
  {
    hide Owes;
    assert cs[..i + 1] == cs[..i] + [cs[i]];
    assert cs[i] in cs[..i + 1];
    assert forall c :: c in cs[..i] ==> c in cs[..i + 1];
  }

  lemma AddsNext(rules: NodeRules, a: seq<Full>, b: seq<Full>, c: seq<Full>, cs: seq<Tree>, i: nat, deeper: Option<nat>)
    requires i < |cs| && AddsChildren(rules, a, b, cs[..i], deeper)
    requires AddsNode(rules, b, c, cs[i], ProducerOf(rules, deeper, cs[i].id), None)
    ensures AddsChildren(rules, a, c, cs[..i + 1], deeper)
  {
    LastingThen(a, b, c);
    hide In, Owes, OwesAny, Lasting;
    forall x, bare ensures In(c, x, bare) <==> In(a, x, bare) || OwesAny(rules, cs[..i + 1], deeper, x, bare) {
      OwesAnyNext(rules, cs, i, deeper, x, bare);
    }
  }

  lemma AddsNothing(rules: NodeRules, ts: seq<Full>, producer: nat, deeper: Option<nat>)
    ensures AddsConsumers(ts, ts, [], producer) && AddsChildren(rules, ts, ts, [], deeper)
  {
    hide In;
  }

  lemma AddsConsumer(a: seq<Full>, b: seq<Full>, c: seq<Full>, cs: seq<Consumer>, i: nat, producer: nat)
    requires i < |cs| && AddsConsumers(a, b, cs[..i], producer) && Merged(b, [Full(producer, cs[i])], c)
    ensures AddsConsumers(a, c, cs[..i + 1], producer)
  {
    MergedIn(b, Full(producer, cs[i]), c);
    LastingThen(a, b, c);
    ConsumesNext(cs, i, producer);
    hide In, Consumes, Lasting, Merged;
  }

  /** Only index children so far, with the deeper producer. */
  ghost predicate OwesIndexed(rules: NodeRules, cs: seq<Tree>, deeper: nat, x: (nat, nat), bare: bool) {
    exists c :: c in cs && rules.isIndex(c.id) && Owes(rules, c, deeper, None, x, bare)
  }

  ghost predicate AddsIndexed(rules: NodeRules, ts: seq<Full>, ts': seq<Full>, cs: seq<Tree>, deeper: nat) {
    && Lasting(ts, ts')
    && forall x, bare :: In(ts', x, bare) <==> In(ts, x, bare) || OwesIndexed(rules, cs, deeper, x, bare)
  }

  /** Index children are empty now, the others as they were. */
  ghost predicate IndexedCleared(rules: NodeRules, cs: seq<Tree>, cs': seq<Tree>) {
    && |cs'| <= |cs|
    && forall j :: 0 <= j < |cs'| ==>
      if rules.isIndex(cs[j].id) then cs'[j].id == cs[j].id && Clear(cs'[j]) else cs'[j] == cs[j]
  }

  lemma IndexedNext(rules: NodeRules, a: seq<Full>, b: seq<Full>, c: seq<Full>, cs: seq<Tree>, i: nat, deeper: nat)
    requires i < |cs| && AddsIndexed(rules, a, b, cs[..i], deeper)
    requires if rules.isIndex(cs[i].id) then AddsNode(rules, b, c, cs[i], deeper, None) else b == c
    ensures AddsIndexed(rules, a, c, cs[..i + 1], deeper)
  {
    LastingThen(a, b, b);
    LastingThen(a, b, c);
    hide In, Owes, Lasting;
    assert cs[..i + 1] == cs[..i] + [cs[i]];
    forall x, bare
      ensures OwesIndexed(rules, cs[..i + 1], deeper, x, bare) <==>
        OwesIndexed(rules, cs[..i], deeper, x, bare) ||
          (rules.isIndex(cs[i].id) && Owes(rules, cs[i], deeper, None, x, bare))
    {
      assert cs[i] in cs[..i + 1];
      assert forall c :: c in cs[..i] ==> c in cs[..i + 1];
    }
    hide OwesIndexed;
  }

  /** What index children owe with the deeper producer, and the rest by default, is all. */
  lemma OwesSplit(rules: NodeRules, cs: seq<Tree>, cs': seq<Tree>, deeper: nat, x: (nat, nat), bare: bool)
    requires IndexedCleared(rules, cs, cs') && |cs'| == |cs|
    ensures OwesAny(rules, cs, Some(deeper), x, bare) <==>
      OwesIndexed(rules, cs, deeper, x, bare) || OwesAny(rules, cs', None, x, bare)
  {
    forall j | 0 <= j < |cs| && rules.isIndex(cs[j].id)
      ensures !Owes(rules, cs'[j], ProducerOf(rules, None, cs'[j].id), None, x, bare)
    {
      ClearOwesNothing(rules, cs'[j], ProducerOf(rules, None, cs'[j].id), None, x, bare);
    }
    hide Owes, Clear;
    if c :| c in cs && !rules.isIndex(c.id) && Owes(rules, c, ProducerOf(rules, Some(deeper), c.id), None, x, bare) {
      var j :| 0 <= j < |cs| && cs[j] == c;
      assert cs'[j] in cs';
    }
    if c :| c in cs' && Owes(rules, c, ProducerOf(rules, None, c.id), None, x, bare) {
      var j :| 0 <= j < |cs'| && cs'[j] == c;
      assert cs[j] in cs;
    }
  }

  lemma AddsAll(rules: NodeRules, a: seq<Full>, b: seq<Full>, c: seq<Full>, d: seq<Full>, t: Tree, cs: seq<Tree>,
                producer: nat, deeper: nat)
    requires IndexedCleared(rules, t.children, cs) && |cs| == |t.children|
    requires AddsIndexed(rules, a, b, t.children, deeper) && AddsConsumers(b, c, t.consumers, producer)
    requires AddsChildren(rules, c, d, cs, None)
    ensures AddsNode(rules, a, d, t, producer, Some(deeper))
  {
    LastingThen(a, b, c);
    LastingThen(a, c, d);
    hide In, Consumes, Lasting, IndexedCleared, OwesIndexed;
    forall x, bare ensures In(d, x, bare) <==> In(a, x, bare) || Owes(rules, t, producer, Some(deeper), x, bare) {
      OwesSplit(rules, t.children, cs, deeper, x, bare);
      assert Owes(rules, t, producer, Some(deeper), x, bare) <==>
        Consumes(t.consumers, producer, x, bare) || OwesAny(rules, t.children, Some(deeper), x, bare);
      hide Owes, OwesAny;
    }
  }

  /** `t'` is `t` with the node merged in at the path. */
  ghost predicate LandsAt(t: Tree, p: Path, last: Tree, t': Tree, q: Path) {
    && (Has(t', q) <==> Has(t, q) || q <= p || (p <= q && Has(last, q[|p|..])))
    && forall k :: Says(t', q, k) == Join(Says(t, q, k), CarriedAt(p, last, q, k))
  }

  ghost predicate LandsAs(t: Tree, p: Path, last: Tree, t': Tree) {
    t'.id == t.id && forall q :: LandsAt(t, p, last, t', q)
  }

  ghost predicate Lands(t: Tree, p: Path, node: Tree, t': Tree)
    requires p != []
  {
    LandsAs(t, p, Cut(node, p[|p| - 1]), t')
  }

  lemma LandReady(id: nat, p: Path, node: Tree)
    requires p != [] && WellFormed(node)
    ensures WellFormed(Linked(id, p, Cut(node, p[|p| - 1]))) && Linked(id, p, Cut(node, p[|p| - 1])).id == id
  {
    CutIs(node, p[|p| - 1], []);
    LinkedWellFormed(id, p, Cut(node, p[|p| - 1]));
  }

  lemma Landing(t: Tree, p: Path, node: Tree, t': Tree)
    requires p != [] && WellFormed(t) && t.consumers == [] && WellFormed(t')
    requires IsJoin(t, Linked(t.id, p, Cut(node, p[|p| - 1])), t')
    ensures Lands(t, p, node, t') && t'.consumers == []
  {
    var last := Cut(node, p[|p| - 1]);
    forall q ensures LandsAt(t, p, last, t', q) {
      LinkedAt(t.id, p, last, q);
      assert JoinAt(t, Linked(t.id, p, last), t', q);
      hide At, Linked, Meaning, Join, Has, Ungrown;
    }
    assert LandsAt(t, p, last, t', []);
    NoConsumers(t, p, last, t');
  }

  lemma NoConsumers(t: Tree, p: Path, last: Tree, t': Tree)
    requires p != [] && t.consumers == [] && WellFormed(t') && LandsAt(t, p, last, t', [])
    ensures t'.consumers == []
  {
    assert forall k :: Says(t, [], k) == None && CarriedAt(p, last, [], k) == None;
    assert forall k :: Says(t', [], k) == Meaning(t'.consumers, k) == None;
    if t'.consumers != [] {
      MeaningAt(t'.consumers, 0);
    }
  }

  class RootAssertionNode {
    const rules: NodeRules
    var tree: Tree
    var triggers: seq<Full>

    /** The root holds no consumers of its own. */
    ghost predicate Valid()
      reads this
    {
      WellFormed(tree) && tree.consumers == []
    }

    method AddNewTriggers(t: Full)
      modifies this`triggers
      ensures Merged(old(triggers), [t], triggers)
    {
      triggers := MergeFullTriggers(triggers, [t]);
    }

    method MatchConsumeTriggers(cs: seq<Consumer>, producer: nat)
      modifies this`triggers
      ensures AddsConsumers(old(triggers), triggers, cs, producer)
    {
      hide AddsConsumers, Merged;
      AddsNothing(rules, triggers, producer, None);
      assert cs[..0] == [];
      for i := 0 to |cs|
        invariant AddsConsumers(old(triggers), triggers, cs[..i], producer)
      {
        ghost var before := triggers;
        AddNewTriggers(Full(producer, cs[i]));
        AddsConsumer(old(triggers), before, triggers, cs, i, producer);
      }
      assert cs[..|cs|] == cs;
    }

    /** Meets everything below `t` with default producers; nothing is left to consume there. */
    method ProcessChildren(t: Tree) returns (t': Tree)
      modifies this`triggers
      ensures AddsChildren(rules, old(triggers), triggers, t.children, None)
      ensures t'.id == t.id && t'.consumers == t.consumers && forall c :: c in t'.children ==> Clear(c)
      decreases t
    {
      hide AddsChildren, AddsConsumers, AddsNode;
      var cs := [];
      AddsNothing(rules, triggers, 0, None);
      assert t.children[..0] == [];
      for i := 0 to |t.children|
        invariant AddsChildren(rules, old(triggers), triggers, t.children[..i], None)
        invariant forall c :: c in cs ==> Clear(c)
      {
        var child := t.children[i];
        assert child in t.children;
        ghost var before := triggers;
        MatchConsumeTriggers(child.consumers, rules.defaultProducer(child.id));
        ghost var between := triggers;
        var c := ProcessChildren(child);
        AddsTogether(rules, before, between, triggers, child, rules.defaultProducer(child.id), None);
        AddsNext(rules, old(triggers), before, triggers, t.children, i, None);
        cs := cs + [c.(consumers := [])];
      }
      assert t.children[..|t.children|] == t.children;
      return Node(t.id, t.consumers, cs);
    }

    /** Meets the consumers of the whole subtree, each with the producer of its node. */
    method TriggerProductions(t: Tree, producer: nat, deeper: Option<nat>) returns (t': Tree)
      modifies this`triggers
      ensures AddsNode(rules, old(triggers), triggers, t, producer, deeper)
      ensures t'.id == t.id && Clear(t')
      decreases t
    {
      hide AddsChildren, AddsConsumers, AddsNode, AddsIndexed, IndexedCleared;
      if deeper == None {
        MatchConsumeTriggers(t.consumers, producer);
        ghost var between := triggers;
        t' := ProcessChildren(t);
        AddsTogether(rules, old(triggers), between, triggers, t, producer, None);
        return t'.(consumers := []);
      }
      var cs := [];
      IndexedFirst(rules, triggers, t.children, deeper.value);
      assert t.children[..0] == [];
      for i := 0 to |t.children|
        invariant |cs| == i && IndexedCleared(rules, t.children, cs)
        invariant AddsIndexed(rules, old(triggers), triggers, t.children[..i], deeper.value)
      {
        var child := t.children[i];
        assert child in t.children;
        ghost var before := triggers;
        var c := child;
        if rules.isIndex(child.id) {
          c := TriggerProductions(child, deeper.value, None);
        }
        IndexedNext(rules, old(triggers), before, triggers, t.children, i, deeper.value);
        ClearedNext(rules, t.children, cs, c);
        cs := cs + [c];
      }
      assert t.children[..|t.children|] == t.children;
      ghost var indexed := triggers;
      MatchConsumeTriggers(t.consumers, producer);
      ghost var between := triggers;
      t' := ProcessChildren(Node(t.id, [], cs));
      AddsAll(rules, old(triggers), indexed, between, triggers, t, cs, producer, deeper.value);
    }

    /** The node at a path, by scanning children. */
    method LookupPath(path: Option<Path>) returns (node: Option<Tree>)
      ensures node == if path.None? then None else At(tree, path.value)
    {
      if path.None? {
        return None;
      }
      var p, current := path.value, tree;
      for i := 0 to |p|
        invariant At(tree, p) == At(current, p[i..])
      {
        var next := None;
        for j := 0 to |current.children|
          invariant next == None && forall x :: 0 <= x < j ==> current.children[x].id != p[i]
        {
          if current.children[j].id == p[i] {
            next := Some(current.children[j]);
            break;
          }
        }
        ChildScanned(current.children, p[i], next);
        assert p[i..][1..] == p[i + 1..];
        if next == None {
          return None;
        }
        current := next.value;
      }
      return Some(current);
    }

    /** The production: the subtree moves from the tree into the triggers. */
    method AddProduction(path: Option<Path>, producer: nat, deeper: Option<nat>)
      requires Valid() && (path.Some? ==> path.value != [])
      modifies this
      ensures Valid() && tree.id == old(tree).id
      ensures if path.Some? && Has(old(tree), path.value)
              then tree == Without(old(tree), path.value) &&
                AddsNode(rules, old(triggers), triggers, At(old(tree), path.value).value, producer, deeper)
              else tree == old(tree) && triggers == old(triggers)
    {
      hide AddsNode;
      var node := LookupPath(path);
      if node == None {
        return;
      }
      var _ := TriggerProductions(node.value, producer, deeper);
      WithoutWellFormed(tree, path.value);
      tree := Without(tree, path.value);
    }

    /** Merging whole roots: the trees join, the triggers are merged. */
    method MergeRoot(other: RootAssertionNode)
      requires Valid() && other.Valid() && tree.id == other.tree.id
      modifies this
      ensures Valid() && IsJoin(old(tree), old(other.tree), tree)
      ensures Merged(old(triggers), old(other.triggers), triggers)
    {
      hide WellFormed, IsJoin, Merged;
      var merged := MergeInto(tree, other.tree);
      StillNoConsumers(tree, other.tree, merged);
      var all := MergeFullTriggers(triggers, other.triggers);
      tree, triggers := merged, all;
    }

    /** The fixed point condition on whole roots: the same meaning and the same triggers. */
    method EqRoot(other: RootAssertionNode) returns (eq: bool)
      requires Valid() && other.Valid()
      ensures eq <==> tree.id == other.tree.id && Same(tree, other.tree) && Ids(triggers) == Ids(other.triggers)
    {
      EqNodesIsSame(tree, other.tree);
      hide Same, Ids;
      if !EqNodes(tree, other.tree) {
        return false;
      }
      eq := FullTriggerSlicesEq(triggers, other.triggers);
    }

    /** The first half of an assignment: takes the subtree out. */
    method LiftFromPath(path: Option<Path>) returns (node: Option<Tree>)
      requires Valid() && (path.Some? ==> path.value != [])
      modifies this`tree
      ensures Valid() && node == if path.None? then None else At(old(tree), path.value)
      ensures tree == if node.None? then old(tree) else Without(old(tree), path.value)
    {
      node := LookupPath(path);
      if node.Some? {
        WithoutWellFormed(tree, path.value);
        tree := Without(tree, path.value);
      }
    }

    /** The second half: merges it in under another path, cut where it would grow for ever. */
    method LandAtPath(path: Option<Path>, node: Tree)
      requires Valid() && WellFormed(node) && (path.Some? ==> path.value != [])
      modifies this`tree
      ensures Valid() && tree.id == old(tree).id
      ensures if path.None? then tree == old(tree) else Lands(old(tree), path.value, node, tree)
    {
      if path.None? {
        return;
      }
      var id := path.value[|path.value| - 1];
      var leaf := Node(id, node.consumers, []);
      var kids := [];
      for i := 0 to |node.children|
        invariant kids == Ungrown(node.children[..i], leaf)
      {
        assert node.children[..i + 1][..i] == node.children[..i];
        if !EqNodes(node.children[i], leaf) {
          kids := kids + [node.children[i]];
        }
      }
      assert node.children[..|node.children|] == node.children;
      var linked := Linked(tree.id, path.value, Node(id, node.consumers, kids));
      LandReady(tree.id, path.value, node);
      hide Linked, IsJoin, WellFormed, Ungrown, EqNodes;
      var merged := MergeInto(tree, linked);
      Landing(tree, path.value, node, merged);
      tree := merged;
    }

    /** At the entry, every child is produced, until none is left: then no consumer was lost. That is
        if each child's built expression is parsed back to the child; otherwise there comes a first
        child that no production removes, and the loop goes on for ever without a change. */
    method ProcessEntry() returns (stuck: bool)
      requires Valid() && forall id :: rules.parse(id) != Some([])
      modifies this
      ensures Valid()
      ensures stuck <==> exists c :: c in old(tree).children && rules.parse(c.id) != Some([c.id])
      ensures !stuck ==> tree.children == [] && AddsChildren(rules, old(triggers), triggers, old(tree).children, None)
      ensures stuck ==> tree.children != [] && !Tracked(tree, rules.parse(tree.children[0].id))
    {
      hide AddsChildren, AddsNode;
      ghost var all, i := tree.children, 0;
      AddsNothing(rules, triggers, 0, None);
      assert all[..0] == [];
      while |tree.children| > 0
        invariant Valid() && i <= |all| && tree.children == all[i..]
        invariant forall c :: c in all[..i] ==> rules.parse(c.id) == Some([c.id])
        invariant AddsChildren(rules, old(triggers), triggers, all[..i], None)
        decreases |tree.children|
      {
        var child := tree.children[0];
        assert child == all[i] && child in all;
        assert all[..i + 1] == all[..i] + [child];
        ghost var before, was := triggers, tree;
        FirstChild(tree);
        AddProduction(rules.parse(child.id), rules.defaultProducer(child.id), None);
        if rules.parse(child.id) != Some([child.id]) {
          FirstStays(was, rules.parse(child.id));
          return true;
        }
        AddsNext(rules, old(triggers), before, triggers, all, i, None);
        assert all[i..][1..] == all[i + 1..];
        i := i + 1;
      }
      assert all[..|all|] == all;
      return false;
    }
  }

  /** There is a node at the path: a production changes something. */
  ghost predicate Tracked(t: Tree, path: Option<Path>) {
    path.Some? && Has(t, path.value)
  }

  /** A production that does not remove the first child leaves it first, and cannot be repeated. */
  lemma FirstStays(t: Tree, path: Option<Path>)
    requires WellFormed(t) && t.children != [] && path != Some([]) && path != Some([t.children[0].id])
    ensures
      var t' := if Tracked(t, path) then Without(t, path.value) else t;
      t'.children != [] && t'.children[0].id == t.children[0].id && !Tracked(t', path)
  {
    if Tracked(t, path) {
      var p := path.value;
      WithoutKeeps(t, p, p);
      var i := IndexOf(t.children, p[0]);
      if |p| == 1 {
        assert p == [p[0]];
        assert i != 0;
      } else {
        assert t.children[i] in t.children;
        WithoutWellFormed(t.children[i], p[1..]);
      }
    }
  }

  lemma StillNoConsumers(l: Tree, r: Tree, t: Tree)
    requires l.consumers == [] && r.consumers == [] && WellFormed(t) && IsJoin(l, r, t)
    ensures t.consumers == []
  {
    assert JoinAt(l, r, t, []);
    assert forall k :: Says(l, [], k) == None && Says(r, [], k) == None && Says(t, [], k) == Meaning(t.consumers, k);
    if t.consumers != [] {
      MeaningAt(t.consumers, 0);
    }
  }

  lemma FirstChild(t: Tree)
    requires WellFormed(t) && t.children != []
    ensures At(t, [t.children[0].id]) == Some(t.children[0])
    ensures Without(t, [t.children[0].id]).children == t.children[1..]
  {
    var c := t.children[0];
    assert [c.id][1..] == [] && At(t, [c.id]) == At(c, []);
    assert IndexOf(t.children, c.id) == 0;
    assert t.children[..0] + t.children[1..] == t.children[1..];
  }

  lemma ChildScanned(cs: seq<Tree>, id: nat, next: Option<Tree>)
    requires match next
             case None => forall x :: 0 <= x < |cs| ==> cs[x].id != id
             case Some(c) =>
               exists j :: 0 <= j < |cs| && cs[j] == c && c.id == id && forall x :: 0 <= x < j ==> cs[x].id != id
    ensures Child(cs, id) == next
  {
    match next
    case None =>
      ChildNone(cs, id);
    case Some(c) =>
      ChildIs(cs, id);
      var i := IndexOf(cs, id);
  }

  lemma IndexedFirst(rules: NodeRules, ts: seq<Full>, cs: seq<Tree>, deeper: nat)
    ensures AddsIndexed(rules, ts, ts, [], deeper) && IndexedCleared(rules, cs, [])
  {
    hide In;
  }

  lemma ClearedNext(rules: NodeRules, cs: seq<Tree>, cs': seq<Tree>, c: Tree)
    requires |cs'| < |cs| && IndexedCleared(rules, cs, cs')
    requires if rules.isIndex(cs[|cs'|].id) then c.id == cs[|cs'|].id && Clear(c) else c == cs[|cs'|]
    ensures IndexedCleared(rules, cs, cs' + [c])
  {
    hide Clear;
  }
}
