// Backpropagation across an assignment of as many expressions as there are targets
// (assertion/function/assertiontree/backprop.go): a simultaneous substitution.
module ParallelAssignment {
  import opened Annotation
  import opened TriggerSlices
  import opened AssertionTrees
  import opened AssertionPaths
  import opened RootAssertionNodes

  /** An untrackable expression has no path, and is a prefix of untrackable ones only. */
  predicate IsPrefix(a: Option<Path>, b: Option<Path>) {
    if a.None? || b.None? then a.None? && b.None? else a.value <= b.value
  }

  predicate IsStrictPrefix(a: Option<Path>, b: Option<Path>) {
    (if b.None? then 0 else |b.value|) > (if a.None? then 0 else |a.value|) && IsPrefix(a, b)
  }

  /** A target that another one, to its right or strictly above it, makes irrelevant. */
  ghost predicate Shadowed(lhs: seq<Option<Path>>, i: nat)
    requires i < |lhs|
  {
    || (exists j :: 0 <= j < i && IsStrictPrefix(lhs[j], lhs[i]))
    || (exists j :: i < j < |lhs| && IsPrefix(lhs[j], lhs[i]))
  }

  method BuildShadowMask(lhs: seq<Option<Path>>) returns (mask: seq<bool>)
    ensures |mask| == |lhs| && forall i :: 0 <= i < |lhs| ==> (mask[i] <==> Shadowed(lhs, i))
  {
    mask := [];
    for i := 0 to |lhs|
      invariant |mask| == i
      invariant forall x :: 0 <= x < i ==> (mask[x] <==> Shadowed(lhs, x))
    {
      var shadowed := false;
      for j := 0 to i
        invariant !shadowed && forall x :: 0 <= x < j ==> !IsStrictPrefix(lhs[x], lhs[i])
      {
        if IsStrictPrefix(lhs[j], lhs[i]) {
          shadowed := true;
          break;
        }
      }
      if !shadowed {
        for j := i + 1 to |lhs|
          invariant !shadowed && forall x :: i < x < j ==> !IsPrefix(lhs[x], lhs[i])
        {
          if IsPrefix(lhs[j], lhs[i]) {
            shadowed := true;
            break;
          }
        }
      }
      mask := mask + [shadowed];
    }
  }

  /** The targets that the assignment acts on. */
  ghost predicate Acts(lhs: seq<Option<Path>>, i: nat)
    requires i < |lhs|
  {
    lhs[i].Some? && !Shadowed(lhs, i)
  }

  /** A target counts exactly if whichever other one is a prefix of it is the same one, assigned to before. */
  lemma ActsExactly(lhs: seq<Option<Path>>, i: nat)
    requires i < |lhs| && lhs[i].Some?
    ensures Acts(lhs, i) <==>
      forall j :: 0 <= j < |lhs| && j != i && lhs[j].Some? && lhs[j].value <= lhs[i].value ==> j < i && lhs[j] == lhs[i]
  {
    forall j | 0 <= j < |lhs| && j != i
      ensures IsPrefix(lhs[j], lhs[i]) <==> lhs[j].Some? && lhs[j].value <= lhs[i].value
      ensures IsStrictPrefix(lhs[j], lhs[i]) <==> IsPrefix(lhs[j], lhs[i]) && lhs[j] != lhs[i]
    {
      if lhs[j].Some? && lhs[j].value <= lhs[i].value && |lhs[i].value| == |lhs[j].value| {
        assert lhs[j].value == lhs[i].value;
      }
    }
    hide IsPrefix, IsStrictPrefix;
  }

  /** None of them is a prefix of another. */
  lemma ActiveTargetsAreAntichain(lhs: seq<Option<Path>>, i: nat, j: nat)
    requires i < |lhs| && j < |lhs| && i != j && Acts(lhs, i) && Acts(lhs, j)
    ensures !(lhs[i].value <= lhs[j].value)
  {
    if lhs[i].value <= lhs[j].value {
      assert IsPrefix(lhs[i], lhs[j]);
      if i < j && lhs[i].value == lhs[j].value {
        assert IsPrefix(lhs[j], lhs[i]);
      }
    }
  }

  /** Every trackable target has an active prefix. */
  lemma {:induction false} ActivePrefix(lhs: seq<Option<Path>>, i: nat) returns (j: nat)
    requires i < |lhs| && lhs[i].Some?
    ensures j < |lhs| && Acts(lhs, j) && lhs[j].value <= lhs[i].value
    decreases |lhs[i].value|, |lhs| - i
  {
    if !Shadowed(lhs, i) {
      j := i;
    } else if k :| 0 <= k < i && IsStrictPrefix(lhs[k], lhs[i]) {
      j := ActivePrefix(lhs, k);
    } else {
      var k :| i < k < |lhs| && IsPrefix(lhs[k], lhs[i]);
      j := ActivePrefix(lhs, k);
    }
  }

  ghost predicate Overwritten(lhs: seq<Option<Path>>, q: Path) {
    exists i :: 0 <= i < |lhs| && lhs[i].Some? && lhs[i].value <= q
  }

  /** Taken out by the first n targets. */
  ghost predicate Gone(lhs: seq<Option<Path>>, n: nat, q: Path)
    requires n <= |lhs|
  {
    exists i :: 0 <= i < n && Acts(lhs, i) && lhs[i].value <= q
  }

  lemma GoneIsOverwritten(lhs: seq<Option<Path>>, q: Path)
    ensures Gone(lhs, |lhs|, q) <==> Overwritten(lhs, q)
  {
    if i :| 0 <= i < |lhs| && lhs[i].Some? && lhs[i].value <= q {
      var j := ActivePrefix(lhs, i);
      assert lhs[j].value <= q;
    }
  }

  /** Lifting keeps every subtree that is neither below nor above a target. */
  ghost predicate LiftedAt(t: Tree, lhs: seq<Option<Path>>, n: nat, t': Tree, q: Path)
    requires n <= |lhs|
  {
    && (Gone(lhs, n, q) ==> !Has(t', q))
    && (!Gone(lhs, n, q) ==> SameAt(t, t', q))
    && (!Gone(lhs, n, q) && (forall i :: 0 <= i < n && Acts(lhs, i) ==> !(q <= lhs[i].value)) ==> At(t', q) == At(t, q))
  }

  ghost predicate Lifted(t: Tree, lhs: seq<Option<Path>>, n: nat, t': Tree)
    requires n <= |lhs|
  {
    WellFormed(t') && t'.id == t.id && t'.consumers == [] && forall q :: LiftedAt(t, lhs, n, t', q)
  }

  lemma GoneNext(lhs: seq<Option<Path>>, n: nat, q: Path)
    requires n < |lhs|
    ensures Gone(lhs, n + 1, q) <==> Gone(lhs, n, q) || (Acts(lhs, n) && lhs[n].value <= q)
  {
    hide Shadowed;
  }

  /** Lifts commute: the next subtree is still as it was at first. */
  lemma NextIsThere(t: Tree, lhs: seq<Option<Path>>, n: nat, t': Tree)
    requires n < |lhs| && Acts(lhs, n) && Lifted(t, lhs, n, t')
    ensures At(t', lhs[n].value) == At(t, lhs[n].value)
  {
    forall i | 0 <= i < n && Acts(lhs, i)
      ensures !(lhs[i].value <= lhs[n].value) && !(lhs[n].value <= lhs[i].value)
    {
      ActiveTargetsAreAntichain(lhs, i, n);
      ActiveTargetsAreAntichain(lhs, n, i);
    }
    hide Acts;
    assert LiftedAt(t, lhs, n, t', lhs[n].value);
  }

  lemma {:induction false} HasPrefix(t: Tree, p: Path, q: Path)
    requires p <= q && Has(t, q)
    ensures Has(t, p)
    decreases |p|
  {
    if p != [] {
      PrefixTail(p, q);
      HasPrefix(Child(t.children, p[0]).value, p[1..], q[1..]);
    }
  }

  lemma LiftedNext(t: Tree, lhs: seq<Option<Path>>, n: nat, t': Tree, t'': Tree)
    requires n < |lhs| && Lifted(t, lhs, n, t') && (lhs[n].Some? ==> lhs[n].value != [])
    requires t'' == if Acts(lhs, n) && Has(t', lhs[n].value) then Without(t', lhs[n].value) else t'
    ensures Lifted(t, lhs, n + 1, t'')
  {
    if Acts(lhs, n) && Has(t', lhs[n].value) {
      WithoutWellFormed(t', lhs[n].value);
    }
    var m := n + 1;
    forall q ensures LiftedAt(t, lhs, m, t'', q) {
      GoneNext(lhs, n, q);
      assert LiftedAt(t, lhs, n, t', q);
      if Acts(lhs, n) {
        var p := lhs[n].value;
        if Has(t', p) {
          WithoutKeeps(t', p, q);
        } else if p <= q && Has(t', q) {
          HasPrefix(t', p, q);
        }
      }
      hide Gone, Acts, At, Without;
      SameAtThen(t, t', t'', q);
    }
  }

  lemma SameAtThen(a: Tree, b: Tree, c: Tree, q: Path)
    ensures SameAt(a, b, q) && SameAt(b, c, q) ==> SameAt(a, c, q)
  {
    hide At;
  }

  /** The right side of one assignment: tracked, or what produces its value; no producer means that
      it is never nil. */
  datatype Source = Tracked(path: Path) | Produced(producers: seq<(nat, Option<nat>)>) {
    function Producer(): nat {
      if Produced? && producers != [] then producers[0].0 else NEVER
    }

    function Deeper(): Option<nat> {
      if Produced? && producers != [] then producers[0].1 else None
    }
  }

  /** The class of producers that never yield nil. */
  const NEVER: nat := 0

  datatype Landing = Landing(node: Tree, path: Path)

  /** The subtrees that move, and where to. */
  ghost function Landings(t: Tree, lhs: seq<Option<Path>>, rhs: seq<Source>, n: nat): seq<Landing>
    requires n <= |lhs| == |rhs|
  {
    if n == 0 then []
    else
      Landings(t, lhs, rhs, n - 1) +
      if Acts(lhs, n - 1) && rhs[n - 1].Tracked? && Has(t, lhs[n - 1].value)
      then [Landing(At(t, lhs[n - 1].value).value, rhs[n - 1].path)]
      else []
  }

  /** What one landing brings to a path. */
  ghost function Brings(l: Landing, q: Path, k: nat): Option<Guarding> {
    if l.path == [] then None else CarriedAt(l.path, Cut(l.node, l.path[|l.path| - 1]), q, k)
  }

  /** What is said at a path once all have landed. */
  ghost function Landed(base: Option<Guarding>, ls: seq<Landing>, q: Path, k: nat): Option<Guarding> {
    if ls == [] then base else Join(Landed(base, ls[..|ls| - 1], q, k), Brings(ls[|ls| - 1], q, k))
  }

  /** One landing makes the path to it, and what the node has below. */
  ghost predicate Makes(l: Landing, q: Path) {
    l.path != [] && (q <= l.path || (l.path <= q && Has(Cut(l.node, l.path[|l.path| - 1]), q[|l.path|..])))
  }

  ghost predicate AnyMakes(ls: seq<Landing>, q: Path) {
    exists i :: 0 <= i < |ls| && Makes(ls[i], q)
  }

  ghost predicate LandedAt(t: Tree, ls: seq<Landing>, t': Tree, q: Path) {
    && (Has(t', q) <==> Has(t, q) || AnyMakes(ls, q))
    && forall k :: Says(t', q, k) == Landed(Says(t, q, k), ls, q, k)
  }

  ghost predicate AllLand(t: Tree, ls: seq<Landing>, t': Tree) {
    forall q :: LandedAt(t, ls, t', q)
  }

  /** The paths after the whole assignment. */
  ghost predicate AssignedHas(t: Tree, lhs: seq<Option<Path>>, rhs: seq<Source>, q: Path)
    requires |lhs| == |rhs|
  {
    (Has(t, q) && !Overwritten(lhs, q)) || AnyMakes(Landings(t, lhs, rhs, |lhs|), q)
  }

  /** What a path says after the whole assignment. */
  ghost function Assigned(t: Tree, lhs: seq<Option<Path>>, rhs: seq<Source>, q: Path, k: nat): Option<Guarding>
    requires |lhs| == |rhs|
  {
    Landed(if Overwritten(lhs, q) then None else Says(t, q, k), Landings(t, lhs, rhs, |lhs|), q, k)
  }

  ghost predicate OwesAssigned(rules: NodeRules, t: Tree, lhs: seq<Option<Path>>, rhs: seq<Source>, i: nat,
                               x: (nat, nat), bare: bool)
    requires i < |lhs| == |rhs|
  {
    && Acts(lhs, i) && rhs[i].Produced? && Has(t, lhs[i].value)
    && Owes(rules, At(t, lhs[i].value).value, rhs[i].Producer(), rhs[i].Deeper(), x, bare)
  }

  /** The triggers after the first n targets: what is overwritten by an untracked value is produced. */
  ghost predicate AddsAssigned(rules: NodeRules, ts: seq<Full>, ts': seq<Full>, t: Tree,
                               lhs: seq<Option<Path>>, rhs: seq<Source>, n: nat)
    requires n <= |lhs| == |rhs|
  {
    && Lasting(ts, ts')
    && forall x, bare :: In(ts', x, bare) <==>
      In(ts, x, bare) || exists i :: 0 <= i < n && OwesAssigned(rules, t, lhs, rhs, i, x, bare)
  }

  /** A right side that yields more than one value is refused. */
  ghost predicate Single(lhs: seq<Option<Path>>, rhs: seq<Source>, n: nat)
    requires n <= |lhs| == |rhs|
  {
    forall i :: 0 <= i < n && Acts(lhs, i) && rhs[i].Produced? ==> |rhs[i].producers| <= 1
  }

  ghost predicate Proper(lhs: seq<Option<Path>>, rhs: seq<Source>) {
    && |lhs| == |rhs|
    && (forall i :: 0 <= i < |lhs| && lhs[i].Some? ==> lhs[i].value != [])
    && (forall i :: 0 <= i < |rhs| && rhs[i].Tracked? ==> rhs[i].path != [])
  }

  /** The state while targets are lifted or produced. */
  ghost predicate Assigning(rules: NodeRules, t: Tree, ts: seq<Full>, lhs: seq<Option<Path>>, rhs: seq<Source>, n: nat,
                            t': Tree, ts': seq<Full>, ls: seq<Landing>)
    requires n <= |lhs| == |rhs|
  {
    && Lifted(t, lhs, n, t') && AddsAssigned(rules, ts, ts', t, lhs, rhs, n)
    && ls == Landings(t, lhs, rhs, n) && Single(lhs, rhs, n)
  }

  lemma AddsAssignedNext(rules: NodeRules, ts: seq<Full>, ts': seq<Full>, ts'': seq<Full>, t: Tree,
                         lhs: seq<Option<Path>>, rhs: seq<Source>, n: nat)
    requires n < |lhs| == |rhs| && AddsAssigned(rules, ts, ts', t, lhs, rhs, n)
    requires if Acts(lhs, n) && rhs[n].Produced? && Has(t, lhs[n].value)
             then AddsNode(rules, ts', ts'', At(t, lhs[n].value).value, rhs[n].Producer(), rhs[n].Deeper())
             else ts'' == ts'
    ensures AddsAssigned(rules, ts, ts'', t, lhs, rhs, n + 1)
  {
    LastingThen(ts, ts', ts');
    LastingThen(ts, ts', ts'');
    hide In, Owes, Acts, Has, Lasting;
    forall x, bare
      ensures In(ts'', x, bare) <==> In(ts', x, bare) || OwesAssigned(rules, t, lhs, rhs, n, x, bare)
    {
    }
    hide OwesAssigned;
  }

  lemma AssigningFirst(rules: NodeRules, t: Tree, ts: seq<Full>, lhs: seq<Option<Path>>, rhs: seq<Source>)
    requires |lhs| == |rhs| && WellFormed(t) && t.consumers == []
    ensures Assigning(rules, t, ts, lhs, rhs, 0, t, ts, [])
  {
    hide At, In;
  }

  lemma ReadyToLift(rules: NodeRules, t: Tree, ts: seq<Full>, lhs: seq<Option<Path>>, rhs: seq<Source>, n: nat,
                    t': Tree, ts': seq<Full>, ls: seq<Landing>)
    requires n < |lhs| == |rhs| && Assigning(rules, t, ts, lhs, rhs, n, t', ts', ls)
    ensures WellFormed(t') && t'.consumers == []
    ensures Acts(lhs, n) ==> At(t', lhs[n].value) == At(t, lhs[n].value)
  {
    hide Acts, LiftedAt;
    if Acts(lhs, n) {
      NextIsThere(t, lhs, n, t');
    }
  }

  lemma AssigningNext(rules: NodeRules, t: Tree, ts: seq<Full>, lhs: seq<Option<Path>>, rhs: seq<Source>, n: nat,
                      t': Tree, ts': seq<Full>, ls: seq<Landing>, t'': Tree, ts'': seq<Full>, ls': seq<Landing>)
    requires n < |lhs| && Proper(lhs, rhs) && Assigning(rules, t, ts, lhs, rhs, n, t', ts', ls)
    requires t'' == if Acts(lhs, n) && Has(t', lhs[n].value) then Without(t', lhs[n].value) else t'
    requires if Acts(lhs, n) && rhs[n].Produced? && Has(t, lhs[n].value)
             then AddsNode(rules, ts', ts'', At(t, lhs[n].value).value, rhs[n].Producer(), rhs[n].Deeper())
             else ts'' == ts'
    requires ls' == if Acts(lhs, n) && rhs[n].Tracked? && Has(t, lhs[n].value)
                    then ls + [Landing(At(t, lhs[n].value).value, rhs[n].path)] else ls
    requires Acts(lhs, n) && rhs[n].Produced? ==> |rhs[n].producers| <= 1
    ensures Assigning(rules, t, ts, lhs, rhs, n + 1, t'', ts'', ls')
  {
    hide AddsNode, Acts, Has, Lifted, AddsAssigned, Without;
    LiftedNext(t, lhs, n, t', t'');
    AddsAssignedNext(rules, ts, ts', ts'', t, lhs, rhs, n);
    assert ls + [] == ls;
  }

  /** One target: lifted, or produced. */
  method AssignOne(root: RootAssertionNode, lhs: seq<Option<Path>>, rhs: seq<Source>, mask: seq<bool>, n: nat,
                   ls: seq<Landing>,
                   ghost t: Tree, ghost ts: seq<Full>)
    returns (ls': seq<Landing>, ok: bool)
    requires Proper(lhs, rhs) && n < |lhs| == |mask| && (mask[n] <==> Shadowed(lhs, n))
    requires Assigning(root.rules, t, ts, lhs, rhs, n, root.tree, root.triggers, ls)
    modifies root
    ensures ok ==> Assigning(root.rules, t, ts, lhs, rhs, n + 1, root.tree, root.triggers, ls')
    ensures ok <==> !(Acts(lhs, n) && rhs[n].Produced? && |rhs[n].producers| > 1)
  {
    ghost var t', ts' := root.tree, root.triggers;
    ReadyToLift(root.rules, t, ts, lhs, rhs, n, t', ts', ls);
    assert Acts(lhs, n) <==> lhs[n].Some? && !mask[n];
    hide Assigning, Acts, AddsNode, Shadowed, WellFormed;
    ls', ok := ls, true;
    if !mask[n] && lhs[n].Some? {
      match rhs[n]
      case Tracked(path) =>
        var node := root.LiftFromPath(lhs[n]);
        if node.Some? {
          ls' := ls + [Landing(node.value, path)];
        }
      case Produced(producers) =>
        if |producers| > 1 {
          return ls, false;
        } else if |producers| == 1 {
          root.AddProduction(lhs[n], producers[0].0, producers[0].1);
        } else {
          root.AddProduction(lhs[n], NEVER, None);
        }
    }
    AssigningNext(root.rules, t, ts, lhs, rhs, n, t', ts', ls, root.tree, root.triggers, ls');
  }

  lemma {:induction false} LandingsWellFormed(t: Tree, lhs: seq<Option<Path>>, rhs: seq<Source>, n: nat)
    requires Proper(lhs, rhs) && n <= |lhs| && WellFormed(t)
    ensures forall l :: l in Landings(t, lhs, rhs, n) ==> WellFormed(l.node) && l.path != []
  {
    if n > 0 {
      LandingsWellFormed(t, lhs, rhs, n - 1);
      if lhs[n - 1].Some? && Has(t, lhs[n - 1].value) {
        SubtreeWellFormed(t, lhs[n - 1].value);
      }
    }
  }

  lemma {:induction false} SubtreeWellFormed(t: Tree, p: Path)
    requires WellFormed(t) && Has(t, p)
    ensures WellFormed(At(t, p).value)
    decreases |p|
  {
    if p != [] {
      ChildIs(t.children, p[0]);
      SubtreeWellFormed(Child(t.children, p[0]).value, p[1..]);
    }
  }

  lemma AnyMakesNext(ls: seq<Landing>, i: nat, q: Path)
    requires i < |ls|
    ensures AnyMakes(ls[..i + 1], q) <==> AnyMakes(ls[..i], q) || Makes(ls[i], q)
  {
    hide Makes;
    var front, more := ls[..i], ls[..i + 1];
    assert more == front + [ls[i]];
    if j :| 0 <= j < |front| && Makes(front[j], q) {
      assert more[j] == front[j];
    }
    assert more[i] == ls[i];
  }

  lemma LandsNext(t: Tree, ls: seq<Landing>, i: nat, t': Tree, t'': Tree)
    requires i < |ls| && ls[i].path != [] && AllLand(t, ls[..i], t') && Lands(t', ls[i].path, ls[i].node, t'')
    ensures AllLand(t, ls[..i + 1], t'')
  {
    var l, more := ls[i], ls[..i + 1];
    assert more == ls[..i] + [l] && more[..i] == ls[..i];
    forall q ensures LandedAt(t, more, t'', q) {
      assert LandsAt(t', l.path, Cut(l.node, l.path[|l.path| - 1]), t'', q);
      assert LandedAt(t, ls[..i], t', q);
      AnyMakesNext(ls, i, q);
      hide At, Cut, Join, AnyMakes;
      assert forall k :: Says(t'', q, k) == Join(Says(t', q, k), Brings(l, q, k));
    }
  }

  /** All landings, in order. */
  method LandAll(root: RootAssertionNode, ls: seq<Landing>)
    requires root.Valid() && forall l :: l in ls ==> WellFormed(l.node) && l.path != []
    modifies root`tree
    ensures root.Valid() && root.tree.id == old(root.tree).id && AllLand(old(root.tree), ls, root.tree)
  {
    hide WellFormed, AllLand, Lands;
    NoneLand(root.tree);
    assert ls[..0] == [];
    for i := 0 to |ls|
      invariant root.Valid() && root.tree.id == old(root.tree).id && AllLand(old(root.tree), ls[..i], root.tree)
    {
      assert ls[i] in ls;
      ghost var before := root.tree;
      root.LandAtPath(Some(ls[i].path), ls[i].node);
      LandsNext(old(root.tree), ls, i, before, root.tree);
    }
    assert ls[..|ls|] == ls;
  }

  lemma NoneLand(t: Tree)
    ensures AllLand(t, [], t)
  {
    hide At;
  }

  lemma AssignmentIs(rules: NodeRules, t: Tree, ts: seq<Full>, lhs: seq<Option<Path>>, rhs: seq<Source>,
                     t': Tree, ts': seq<Full>, ls: seq<Landing>, t'': Tree)
    requires |lhs| == |rhs| && Assigning(rules, t, ts, lhs, rhs, |lhs|, t', ts', ls) && AllLand(t', ls, t'')
    ensures forall q, k :: Says(t'', q, k) == Assigned(t, lhs, rhs, q, k)
    ensures forall q :: Has(t'', q) <==> AssignedHas(t, lhs, rhs, q)
  {
    hide Acts, At, Landed, Landings, AddsAssigned, AnyMakes;
    forall q ensures Has(t'', q) <==> AssignedHas(t, lhs, rhs, q) {
      GoneIsOverwritten(lhs, q);
      assert LiftedAt(t, lhs, |lhs|, t', q) && LandedAt(t', ls, t'', q);
    }
    forall q, k ensures Says(t'', q, k) == Assigned(t, lhs, rhs, q, k) {
      GoneIsOverwritten(lhs, q);
      assert LiftedAt(t, lhs, |lhs|, t', q) && LandedAt(t', ls, t'', q);
      hide Gone, Overwritten;
      assert Says(t', q, k) == if Overwritten(lhs, q) then None else Says(t, q, k);
    }
  }

  ghost predicate GivesDeeper(v: Source) {
    exists n: nat, m: nat :: v == Produced([(n, Some(m))])
  }

  /** Which producer a consumer meets at `r` below a target that is assigned `v`: there, that of the value
      or the one that is never nil; at an index of it, what the value gives for its elements; and where the
      value gives nothing, the producer of the node. */
  ghost predicate Meets(rules: NodeRules, v: Source, r: Path, n: nat) {
    if r == [] then (v == Produced([]) && n == NEVER) || exists d: Option<nat> :: v == Produced([(n, d)])
    else if |r| == 1 && rules.isIndex(r[0]) && GivesDeeper(v) then exists m: nat :: v == Produced([(m, Some(n))])
    else v.Produced? && n == rules.defaultProducer(r[|r| - 1])
  }

  /** A consumer at `q`; a bare one is not matched. */
  ghost predicate Waits(t: Tree, q: Path, k: nat, bare: bool) {
    Says(t, q, k).Some? && (bare ==> !Says(t, q, k).value.matched)
  }

  ghost predicate Untracked(rules: NodeRules, t: Tree, lhs: seq<Option<Path>>, rhs: seq<Source>, i: nat, r: Path,
                            x: (nat, nat), bare: bool)
    requires i < |lhs| == |rhs|
  {
    Acts(lhs, i) && Waits(t, lhs[i].value + r, x.1, bare) && Meets(rules, rhs[i], r, x.0)
  }

  /** The triggers gain exactly the pairs of a consumer below an active target with what it meets there. */
  ghost predicate GainsUntracked(rules: NodeRules, ts: seq<Full>, ts': seq<Full>, t: Tree, lhs: seq<Option<Path>>,
                                 rhs: seq<Source>)
    requires |lhs| == |rhs|
  {
    forall x, bare :: In(ts', x, bare) <==>
      In(ts, x, bare) || exists i, r :: 0 <= i < |lhs| && Untracked(rules, t, lhs, rhs, i, r, x, bare)
  }

  lemma MeetsIs(rules: NodeRules, v: Source, r: Path, n: nat)
    requires v.Produced? && |v.producers| <= 1
    ensures Meets(rules, v, r, n) <==> n == ProducerAt(rules, v.Producer(), v.Deeper(), r)
  {
    if |v.producers| == 1 {
      var (m, d) := v.producers[0];
      assert v == Produced([(m, d)]);
      assert forall m': nat, d': Option<nat> :: v == Produced([(m', d')]) ==> v.producers[0] == (m', d');
    }
  }

  lemma OwesUntracked(rules: NodeRules, t: Tree, lhs: seq<Option<Path>>, rhs: seq<Source>, i: nat, x: (nat, nat),
                      bare: bool)
    requires i < |lhs| == |rhs| && WellFormed(t) && Single(lhs, rhs, |lhs|)
    ensures OwesAssigned(rules, t, lhs, rhs, i, x, bare) <==>
      exists r :: Untracked(rules, t, lhs, rhs, i, r, x, bare)
  {
    hide Shadowed;
    if Acts(lhs, i) && rhs[i].Produced? {
      var p, v := lhs[i].value, rhs[i];
      if Has(t, p) {
        var node := At(t, p).value;
        SubtreeWellFormed(t, p);
        OwesIsAtSomePath(rules, node, v.Producer(), v.Deeper(), x, bare);
        forall r ensures OwedAt(rules, node, v.Producer(), v.Deeper(), x, bare, r) <==>
            Untracked(rules, t, lhs, rhs, i, r, x, bare) {
          AtBelow(t, p, r);
          MeetsIs(rules, v, r, x.0);
          hide At, Meaning, Meets, ProducerAt, Acts;
        }
        hide At, Owes, OwedAt, Untracked, Acts;
      } else if r :| Untracked(rules, t, lhs, rhs, i, r, x, bare) {
        HasPrefix(t, p, p + r);
        assert false;
      }
    } else if r :| Untracked(rules, t, lhs, rhs, i, r, x, bare) {
      assert false;
    }
  }

  lemma AddsUntracked(rules: NodeRules, ts: seq<Full>, ts': seq<Full>, t: Tree, lhs: seq<Option<Path>>,
                      rhs: seq<Source>)
    requires |lhs| == |rhs| && WellFormed(t) && Single(lhs, rhs, |lhs|)
    requires AddsAssigned(rules, ts, ts', t, lhs, rhs, |lhs|)
    ensures GainsUntracked(rules, ts, ts', t, lhs, rhs)
  {
    hide In, OwesAssigned, Untracked, WellFormed, Lasting, Single;
    forall x, bare
      ensures In(ts', x, bare) <==>
        In(ts, x, bare) || exists i, r :: 0 <= i < |lhs| && Untracked(rules, t, lhs, rhs, i, r, x, bare)
    {
      OweUntracked(rules, t, lhs, rhs, x, bare);
    }
  }

  lemma OweUntracked(rules: NodeRules, t: Tree, lhs: seq<Option<Path>>, rhs: seq<Source>, x: (nat, nat), bare: bool)
    requires |lhs| == |rhs| && WellFormed(t) && Single(lhs, rhs, |lhs|)
    ensures (exists i :: 0 <= i < |lhs| && OwesAssigned(rules, t, lhs, rhs, i, x, bare)) <==>
      exists i, r :: 0 <= i < |lhs| && Untracked(rules, t, lhs, rhs, i, r, x, bare)
  {
    hide OwesAssigned, Untracked, WellFormed, Single;
    if i :| 0 <= i < |lhs| && OwesAssigned(rules, t, lhs, rhs, i, x, bare) {
      OwesUntracked(rules, t, lhs, rhs, i, x, bare);
    }
    if i, r :| 0 <= i < |lhs| && Untracked(rules, t, lhs, rhs, i, r, x, bare) {
      OwesUntracked(rules, t, lhs, rhs, i, x, bare);
    }
  }

  /** The whole assignment is one simultaneous substitution: at every path, what no target overwrites
      stays, and each active target's subtree arrives under its tracked source, or is produced. */
  method AssignOneToOne(root: RootAssertionNode, lhs: seq<Option<Path>>, rhs: seq<Source>) returns (ok: bool)
    requires root.Valid() && Proper(lhs, rhs)
    modifies root
    ensures ok <==> Single(lhs, rhs, |lhs|)
    ensures ok ==> root.Valid() && root.tree.id == old(root.tree).id
    ensures ok ==> forall q, k :: Says(root.tree, q, k) == Assigned(old(root.tree), lhs, rhs, q, k)
    ensures ok ==> forall q :: Has(root.tree, q) <==> AssignedHas(old(root.tree), lhs, rhs, q)
    ensures ok ==> AddsAssigned(root.rules, old(root.triggers), root.triggers, old(root.tree), lhs, rhs, |lhs|)
    ensures ok ==> GainsUntracked(root.rules, old(root.triggers), root.triggers, old(root.tree), lhs, rhs)
  {
    hide Assigning, WellFormed, Acts, Shadowed, AllLand, AddsAssigned;
    ghost var t, ts := root.tree, root.triggers;
    var mask := BuildShadowMask(lhs);
    var landings := [];
    AssigningFirst(root.rules, t, ts, lhs, rhs);
    for n := 0 to |lhs|
      invariant Assigning(root.rules, t, ts, lhs, rhs, n, root.tree, root.triggers, landings)
    {
      AssigningSingle(root.rules, t, ts, lhs, rhs, n, root.tree, root.triggers, landings);
      landings, ok := AssignOne(root, lhs, rhs, mask, n, landings, t, ts);
      if !ok {
        return false;
      }
    }
    ghost var lifted := root.tree;
    AssigningLast(root.rules, t, ts, lhs, rhs, lifted, root.triggers, landings);
    AddsUntracked(root.rules, ts, root.triggers, t, lhs, rhs);
    hide GainsUntracked;
    LandAll(root, landings);
    AssignmentIs(root.rules, t, ts, lhs, rhs, lifted, root.triggers, landings, root.tree);
    ok := true;
  }

  lemma AssigningSingle(rules: NodeRules, t: Tree, ts: seq<Full>, lhs: seq<Option<Path>>, rhs: seq<Source>, n: nat,
                        t': Tree, ts': seq<Full>, ls: seq<Landing>)
    requires n <= |lhs| == |rhs| && Assigning(rules, t, ts, lhs, rhs, n, t', ts', ls)
    ensures Single(lhs, rhs, n)
  {
  }

  lemma AssigningLast(rules: NodeRules, t: Tree, ts: seq<Full>, lhs: seq<Option<Path>>, rhs: seq<Source>,
                      t': Tree, ts': seq<Full>, ls: seq<Landing>)
    requires WellFormed(t) && Proper(lhs, rhs) && Assigning(rules, t, ts, lhs, rhs, |lhs|, t', ts', ls)
    ensures WellFormed(t') && t'.id == t.id && t'.consumers == []
    ensures AddsAssigned(rules, ts, ts', t, lhs, rhs, |lhs|) && Single(lhs, rhs, |lhs|)
    ensures forall l :: l in ls ==> WellFormed(l.node) && l.path != []
  {
    hide AddsAssigned, WellFormed, Acts;
    LandingsWellFormed(t, lhs, rhs, |lhs|);
  }

  /** `a` is said with no more guards, and not as matched unless `b` is. */
  ghost predicate AtMost(a: Option<Guarding>, b: Guarding) {
    a.Some? && a.value.guards <= b.guards && (a.value.matched ==> b.matched)
  }

  lemma {:induction false} LandedKeeps(base: Option<Guarding>, ls: seq<Landing>, q: Path, k: nat, i: nat)
    requires i < |ls| && Brings(ls[i], q, k).Some?
    ensures AtMost(Landed(base, ls, q, k), Brings(ls[i], q, k).value)
  {
    hide Brings;
    if i < |ls| - 1 {
      LandedKeeps(base, ls[..|ls| - 1], q, k, i);
    }
  }

  lemma {:induction false} LandingIsThere(t: Tree, lhs: seq<Option<Path>>, rhs: seq<Source>, n: nat, i: nat)
    returns (x: nat)
    requires n <= |lhs| == |rhs| && i < n && Acts(lhs, i) && rhs[i].Tracked? && Has(t, lhs[i].value)
    ensures x < |Landings(t, lhs, rhs, n)|
    ensures Landings(t, lhs, rhs, n)[x] == Landing(At(t, lhs[i].value).value, rhs[i].path)
  {
    hide Acts, Has, At;
    if i == n - 1 {
      x := |Landings(t, lhs, rhs, n - 1)|;
    } else {
      x := LandingIsThere(t, lhs, rhs, n - 1, i);
    }
  }

  lemma {:induction false} AtBelow(t: Tree, p: Path, r: Path)
    requires Has(t, p)
    ensures At(t, p + r) == At(At(t, p).value, r)
    decreases |p|
  {
    if p == [] {
      assert p + r == r;
    } else {
      assert (p + r)[1..] == p[1..] + r;
      AtBelow(Child(t.children, p[0]).value, p[1..], r);
    }
  }

  /** A consumer under an active target is found under its source: no consumer is lost, apart from
      what the growth cut drops. */
  lemma ConsumersArrive(t: Tree, lhs: seq<Option<Path>>, rhs: seq<Source>, i: nat, r: Path, k: nat)
    requires Proper(lhs, rhs) && WellFormed(t) && i < |lhs| && Acts(lhs, i) && rhs[i].Tracked?
    requires Has(t, lhs[i].value) && Says(t, lhs[i].value + r, k).Some?
    requires !Grows(At(t, lhs[i].value).value, rhs[i].path[|rhs[i].path| - 1], r)
    ensures AtMost(Assigned(t, lhs, rhs, rhs[i].path + r, k), Says(t, lhs[i].value + r, k).value)
  {
    var node, p := At(t, lhs[i].value).value, rhs[i].path;
    var q := p + r;
    var x := LandingIsThere(t, lhs, rhs, |lhs|, i);
    SubtreeWellFormed(t, lhs[i].value);
    AtBelow(t, lhs[i].value, r);
    assert q[|p|..] == r;
    CutIs(node, p[|p| - 1], r);
    assert Brings(Landing(node, p), q, k) == Says(t, lhs[i].value + r, k) by {
      hide At, Cut, Grows, Meaning;
    }
    hide Landings, Overwritten, Brings, At, Acts;
    LandedKeeps(if Overwritten(lhs, q) then None else Says(t, q, k), Landings(t, lhs, rhs, |lhs|), q, k, x);
  }

  /** A target that is assigned the value of producer n, which gives d for its elements: every consumer at
      the target meets n, those at an index of it meet d, and the others below it what their node produces. */
  lemma ValueIsMet(rules: NodeRules, ts: seq<Full>, ts': seq<Full>, t: Tree, lhs: seq<Option<Path>>, rhs: seq<Source>,
                   i: nat, n: nat, d: Option<nat>, k: nat, bare: bool)
    requires |lhs| == |rhs| && GainsUntracked(rules, ts, ts', t, lhs, rhs)
    requires i < |lhs| && Acts(lhs, i) && rhs[i] == Produced([(n, d)])
    ensures Waits(t, lhs[i].value, k, bare) ==> In(ts', (n, k), bare)
    ensures forall c :: Waits(t, lhs[i].value + [c], k, bare) ==>
      In(ts', (if rules.isIndex(c) && d.Some? then d.value else rules.defaultProducer(c), k), bare)
    ensures forall r, c :: r != [] && Waits(t, lhs[i].value + r + [c], k, bare) ==>
      In(ts', (rules.defaultProducer(c), k), bare)
  {
    hide Waits, In, Shadowed;
    assert forall n': nat, d': Option<nat> :: rhs[i] == Produced([(n', d')]) ==> (n', d') == (n, d) by {
      assert rhs[i].producers[0] == (n, d);
    }
    if Waits(t, lhs[i].value, k, bare) {
      assert lhs[i].value + [] == lhs[i].value;
      assert Untracked(rules, t, lhs, rhs, i, [], (n, k), bare);
    }
    forall c | Waits(t, lhs[i].value + [c], k, bare)
      ensures In(ts', (if rules.isIndex(c) && d.Some? then d.value else rules.defaultProducer(c), k), bare)
    {
      var x := (if rules.isIndex(c) && d.Some? then d.value else rules.defaultProducer(c), k);
      assert Untracked(rules, t, lhs, rhs, i, [c], x, bare);
    }
    forall r, c | r != [] && Waits(t, lhs[i].value + r + [c], k, bare)
      ensures In(ts', (rules.defaultProducer(c), k), bare)
    {
      assert lhs[i].value + (r + [c]) == lhs[i].value + r + [c];
      assert Untracked(rules, t, lhs, rhs, i, r + [c], (rules.defaultProducer(c), k), bare);
    }
  }

  /** A target that is assigned a value that is never nil: every consumer at it meets `NEVER`. */
  lemma NeverIsMet(rules: NodeRules, ts: seq<Full>, ts': seq<Full>, t: Tree, lhs: seq<Option<Path>>, rhs: seq<Source>,
                   i: nat, k: nat, bare: bool)
    requires |lhs| == |rhs| && GainsUntracked(rules, ts, ts', t, lhs, rhs)
    requires i < |lhs| && Acts(lhs, i) && rhs[i] == Produced([]) && Waits(t, lhs[i].value, k, bare)
    ensures In(ts', (NEVER, k), bare)
  {
    hide Waits, In, Shadowed;
    assert lhs[i].value + [] == lhs[i].value;
    assert Untracked(rules, t, lhs, rhs, i, [], (NEVER, k), bare);
  }

  lemma {:induction false} LandedFrom(base: Option<Guarding>, ls: seq<Landing>, q: Path, k: nat) returns (x: nat)
    requires Landed(base, ls, q, k).Some? && base.None?
    ensures x < |ls| && Brings(ls[x], q, k).Some?
  {
    hide Brings;
    if Brings(ls[|ls| - 1], q, k).Some? {
      x := |ls| - 1;
    } else {
      x := LandedFrom(base, ls[..|ls| - 1], q, k);
    }
  }

  lemma {:induction false} LandingHasTarget(t: Tree, lhs: seq<Option<Path>>, rhs: seq<Source>, n: nat, x: nat)
    returns (i: nat)
    requires n <= |lhs| == |rhs| && x < |Landings(t, lhs, rhs, n)|
    ensures i < n && Acts(lhs, i) && rhs[i].Tracked? && Has(t, lhs[i].value)
    ensures Landings(t, lhs, rhs, n)[x] == Landing(At(t, lhs[i].value).value, rhs[i].path)
  {
    hide Acts, Has, At;
    if x < |Landings(t, lhs, rhs, n - 1)| {
      i := LandingHasTarget(t, lhs, rhs, n - 1, x);
    } else {
      i := n - 1;
    }
  }

  /** No consumer is invented: what is said at a path was there and stayed, or was below an active target
      whose source leads to the path. */
  lemma ConsumersComeFrom(t: Tree, lhs: seq<Option<Path>>, rhs: seq<Source>, q: Path, k: nat)
    requires Proper(lhs, rhs) && WellFormed(t) && Assigned(t, lhs, rhs, q, k).Some?
    ensures (!Overwritten(lhs, q) && Says(t, q, k).Some?) ||
      exists i :: 0 <= i < |lhs| && Acts(lhs, i) && rhs[i].Tracked? && rhs[i].path <= q &&
        Says(t, lhs[i].value + q[|rhs[i].path|..], k).Some?
  {
    if Overwritten(lhs, q) || Says(t, q, k).None? {
      var ls := Landings(t, lhs, rhs, |lhs|);
      var x := LandedFrom(None, ls, q, k);
      var i := LandingHasTarget(t, lhs, rhs, |lhs|, x);
      SubtreeWellFormed(t, lhs[i].value);
      hide Has, Brings, Meaning, Landed, Landings, Acts, WellFormed, Overwritten;
      BroughtFrom(ls[x], q, k);
      AtBelow(t, lhs[i].value, q[|rhs[i].path|..]);
    }
  }

  lemma BroughtFrom(l: Landing, q: Path, k: nat)
    requires WellFormed(l.node) && Brings(l, q, k).Some?
    ensures l.path <= q && Says(l.node, q[|l.path|..], k).Some?
  {
    CutIs(l.node, l.path[|l.path| - 1], q[|l.path|..]);
    hide At, Cut, Grows, Meaning, WellFormed;
  }

  lemma {:induction false} LandedUntouched(base: Option<Guarding>, ls: seq<Landing>, q: Path, k: nat)
    requires forall l :: l in ls ==> !(l.path <= q)
    ensures Landed(base, ls, q, k) == base
  {
    if ls != [] {
      assert ls[|ls| - 1] in ls;
      LandedUntouched(base, ls[..|ls| - 1], q, k);
    }
  }

  lemma {:induction false} LandingsAreSources(t: Tree, lhs: seq<Option<Path>>, rhs: seq<Source>, n: nat, q: Path)
    requires n <= |lhs| == |rhs|
    requires forall i :: 0 <= i < n && Acts(lhs, i) && rhs[i].Tracked? ==> !(rhs[i].path <= q)
    ensures forall l :: l in Landings(t, lhs, rhs, n) ==> !(l.path <= q)
  {
    if n > 0 {
      LandingsAreSources(t, lhs, rhs, n - 1, q);
    }
  }

  /** Where nothing lands, what is not overwritten stays exactly as it was, and the rest is gone. */
  lemma OthersStayPut(t: Tree, lhs: seq<Option<Path>>, rhs: seq<Source>, q: Path, k: nat)
    requires |lhs| == |rhs|
    requires forall i :: 0 <= i < |lhs| && Acts(lhs, i) && rhs[i].Tracked? ==> !(rhs[i].path <= q)
    ensures Assigned(t, lhs, rhs, q, k) == if Overwritten(lhs, q) then None else Says(t, q, k)
  {
    LandingsAreSources(t, lhs, rhs, |lhs|, q);
    LandedUntouched(if Overwritten(lhs, q) then None else Says(t, q, k), Landings(t, lhs, rhs, |lhs|), q, k);
  }

  lemma SwapLandings(t: Tree, a: nat, b: nat)
    requires a != b && Has(t, [a]) && Has(t, [b])
    ensures Landings(t, [Some([a]), Some([b])], [Tracked([b]), Tracked([a])], 2) ==
      [Landing(At(t, [a]).value, [b]), Landing(At(t, [b]).value, [a])]
  {
    var lhs, rhs := [Some([a]), Some([b])], [Tracked([b]), Tracked([a])];
    ActsExactly(lhs, 0);
    ActsExactly(lhs, 1);
    hide Acts, At;
    assert Landings(t, lhs, rhs, 0) == [];
    assert Landings(t, lhs, rhs, 1) == [Landing(At(t, [a]).value, [b])];
  }

  lemma LandedTwice(base: Option<Guarding>, first: Landing, second: Landing, q: Path, k: nat)
    ensures Landed(base, [first, second], q, k) == Join(Join(base, Brings(first, q, k)), Brings(second, q, k))
  {
    hide Brings, Join;
    assert [first, second][..1] == [first] && [first][..0] == [];
    assert Landed(base, [first], q, k) == Join(base, Brings(first, q, k));
  }

  /** Swapping two variables swaps their subtrees. */
  lemma SwapSwaps(t: Tree, a: nat, b: nat, r: Path, k: nat)
    requires WellFormed(t) && a != b && Has(t, [a]) && Has(t, [b])
    requires !Grows(At(t, [b]).value, a, r)
    ensures Assigned(t, [Some([a]), Some([b])], [Tracked([b]), Tracked([a])], [a] + r, k) == Says(t, [b] + r, k)
  {
    var lhs, rhs, q := [Some([a]), Some([b])], [Tracked([b]), Tracked([a])], [a] + r;
    assert Overwritten(lhs, q) by {
      assert lhs[0].value <= q;
    }
    var first, second := Landing(At(t, [a]).value, [b]), Landing(At(t, [b]).value, [a]);
    SwapLandings(t, a, b);
    LandedTwice(None, first, second, q, k);
    SubtreeWellFormed(t, [b]);
    AtBelow(t, [b], r);
    assert q[1..] == r;
    CutIs(second.node, a, r);
    hide At, Cut, Grows, Landings, Overwritten, Meaning, WellFormed, Landed;
    assert Brings(first, q, k) == None;
    assert Brings(second, q, k) == Says(t, [b] + r, k);
  }
}
