// Export of the inferred map (inference/inferred_map.go): which sites are kept, and the diff
// against what upstream packages have exported already.
module Export {
  import opened Annotation
  import opened OrderedMaps
  import opened InferredMaps

  /** A walk along implications through undetermined sites. */
  ghost predicate Walk(m: Mapping, path: seq<Site>) {
    && path != []
    && (forall i :: 0 <= i < |path| ==> Undetermined(m, path[i]))
    && (forall i :: 0 <= i < |path| - 1 ==> Flows(m, path[i], path[i + 1]))
  }

  ghost predicate FromExported(m: Mapping, s: Site) {
    exists path: seq<Site> :: Walk(m, path) && path[0].Exported() && path[|path| - 1] == s
  }

  ghost predicate ToExported(m: Mapping, s: Site) {
    exists path: seq<Site> :: Walk(m, path) && path[0] == s && path[|path| - 1].Exported()
  }

  /** The sites that must not be forgotten. */
  ghost predicate Kept(m: Mapping, s: Site) {
    s in m && (s.Exported() || (FromExported(m, s) && ToExported(m, s)))
  }

  predicate Hidden(m: Mapping, s: Site) {
    Undetermined(m, s) && !s.Exported()
  }

  /** Between undetermined sites of a quiescent map, an edge is recorded at both ends. */
  lemma BothEnds(m: Mapping, p: Site, c: Site)
    requires Quiescent(m) && Undetermined(m, p) && Undetermined(m, c)
    ensures Flows(m, p, c) <==> FlowsBack(m, p, c)
  {
    assert Flows(m, p, c) ==> SettledForward(m, p, c, {});
    assert FlowsBack(m, p, c) ==> SettledBackward(m, p, c, {});
  }

  lemma WalkOn(m: Mapping, path: seq<Site>, c: Site)
    requires Walk(m, path) && Flows(m, path[|path| - 1], c) && Undetermined(m, c)
    ensures Walk(m, path + [c])
  {
    hide Flows, Undetermined;
  }

  lemma WalkBack(m: Mapping, p: Site, path: seq<Site>)
    requires Walk(m, path) && Flows(m, p, path[0]) && Undetermined(m, p)
    ensures Walk(m, [p] + path)
  {
    hide Flows, Undetermined;
    var longer := [p] + path;
    assert forall i :: 0 < i < |longer| ==> longer[i] == path[i - 1];
  }

  lemma FromExportedStep(m: Mapping, p: Site, c: Site)
    requires Flows(m, p, c) && Undetermined(m, c)
    requires Undetermined(m, p) && (p.Exported() || FromExported(m, p))
    ensures FromExported(m, c)
  {
    var path := [p];
    if !p.Exported() {
      path :| Walk(m, path) && path[0].Exported() && path[|path| - 1] == p;
    }
    assert Walk(m, path);
    WalkOn(m, path, c);
    hide Walk;
    assert Walk(m, path + [c]);
  }

  lemma ToExportedStep(m: Mapping, p: Site, c: Site)
    requires Flows(m, p, c) && Undetermined(m, p)
    requires Undetermined(m, c) && (c.Exported() || ToExported(m, c))
    ensures ToExported(m, p)
  {
    var path := [c];
    if !c.Exported() {
      path :| Walk(m, path) && path[0] == c && path[|path| - 1].Exported();
    }
    assert Walk(m, path);
    WalkBack(m, p, path);
    hide Walk;
    assert Walk(m, [p] + path);
  }

  /** A set that contains every hidden successor of an exported site and of its own members. */
  ghost predicate ClosedForward(m: Mapping, visited: set<Site>) {
    forall p, c :: Flows(m, p, c) && (p.Exported() || p in visited) && Hidden(m, c) ==> c in visited
  }

  ghost predicate ClosedBackward(m: Mapping, visited: set<Site>) {
    forall p, c :: FlowsBack(m, p, c) && (c.Exported() || c in visited) && Hidden(m, p) ==> p in visited
  }

  lemma {:induction false} ForwardReached(m: Mapping, visited: set<Site>, path: seq<Site>, i: nat)
    requires Walk(m, path) && path[0].Exported() && ClosedForward(m, visited) && i < |path|
    ensures path[i].Exported() || path[i] in visited
  {
    if i > 0 {
      ForwardReached(m, visited, path, i - 1);
      assert Flows(m, path[i - 1], path[i - 1 + 1]);
    }
  }

  lemma {:induction false} BackwardReached(m: Mapping, visited: set<Site>, path: seq<Site>, i: nat)
    requires Quiescent(m) && Walk(m, path) && path[|path| - 1].Exported() && ClosedBackward(m, visited) && i < |path|
    ensures path[i].Exported() || path[i] in visited
    decreases |path| - i
  {
    if i + 1 < |path| {
      BackwardReached(m, visited, path, i + 1);
      BothEnds(m, path[i], path[i + 1]);
      hide Quiescent;
    }
  }

  ghost function HiddenSites(m: Mapping): set<Site> {
    set s | s in m && Hidden(m, s)
  }

  /** What a walk has visited: a hidden site is marked for export by the second walk to reach it. */
  ghost function Visited(marks: set<Site>, toExport: set<Site>): set<Site> {
    marks + set s: Site | s in toExport && !s.Exported()
  }

  lemma VisitedMembers(marks: set<Site>, toExport: set<Site>)
    ensures forall s: Site :: !s.Exported() ==> (s in Visited(marks, toExport) <==> s in marks || s in toExport)
  {
  }

  /** Marking a site counts as a visit of this walk and of no other, whichever map records it. */
  lemma VisitStep(mine: set<Site>, other: set<Site>, toExport: set<Site>, site: Site)
    requires !site.Exported()
    ensures Visited(mine, toExport + {site}) == Visited(mine, toExport) + {site}
    ensures Visited(mine + {site}, toExport) == Visited(mine, toExport) + {site}
    ensures site in other ==> Visited(other, toExport + {site}) == Visited(other, toExport)
  {
  }

  /** A hidden site is to be exported exactly when both walks visited it. */
  ghost predicate Marks(m: Mapping, forward: set<Site>, backward: set<Site>, toExport: set<Site>) {
    && (forall s :: s in forward ==> Hidden(m, s) && FromExported(m, s))
    && (forall s :: s in backward ==> Hidden(m, s) && ToExported(m, s))
    && (forall s: Site :: !s.Exported() ==> (s in toExport <==> s in forward && s in backward))
  }

  ghost predicate SameRoots(toExport: set<Site>, toExport': set<Site>) {
    forall s: Site :: s.Exported() ==> (s in toExport <==> s in toExport')
  }

  /** Everything visited since `before`, but for `open`, had its hidden successors visited. */
  ghost predicate ClosedSince(m: Mapping, before: set<Site>, now: set<Site>, open: set<Site>) {
    forall p, c :: Flows(m, p, c) && p in now && p !in before && p !in open && Hidden(m, c) ==> c in now
  }

  ghost predicate ClosedBackSince(m: Mapping, before: set<Site>, now: set<Site>, open: set<Site>) {
    forall p, c :: FlowsBack(m, p, c) && c in now && c !in before && c !in open && Hidden(m, p) ==> p in now
  }

  lemma ClosedThen(m: Mapping, before: set<Site>, mid: set<Site>, now: set<Site>, open: set<Site>)
    requires before <= mid <= now
    ensures ClosedSince(m, before, mid, open) && ClosedSince(m, mid, now, {}) ==> ClosedSince(m, before, now, open)
    ensures ClosedBackSince(m, before, mid, open) && ClosedBackSince(m, mid, now, {}) ==>
      ClosedBackSince(m, before, now, open)
    ensures ClosedSince(m, now, now, {}) && ClosedBackSince(m, now, now, {})
  {
    hide Flows, FlowsBack, Hidden;
  }

  lemma ClosedStart(m: Mapping, before: set<Site>, site: Site)
    ensures ClosedSince(m, before, before + {site}, {site}) && ClosedBackSince(m, before, before + {site}, {site})
  {
  }

  lemma EdgeKeys(m: Mapping, site: Site)
    requires Undetermined(m, site)
    ensures forall c :: Flows(m, site, c) ==> c in m[site].implicates.keys
    ensures forall p :: FlowsBack(m, p, site) ==> p in m[site].implicants.keys
  {
  }

  /** An edge into or out of a visited site makes the other end reachable. */
  lemma EdgeReaches(m: Mapping, p: Site, c: Site)
    requires Quiescent(m) && (Flows(m, p, c) || FlowsBack(m, p, c))
    ensures Undetermined(m, p) && (p.Exported() || FromExported(m, p)) && Hidden(m, c) ==> FromExported(m, c)
    ensures Undetermined(m, c) && (c.Exported() || ToExported(m, c)) && Hidden(m, p) ==> ToExported(m, p)
  {
    if Undetermined(m, p) && Undetermined(m, c) {
      BothEnds(m, p, c);
      hide Quiescent;
      if p.Exported() || FromExported(m, p) {
        FromExportedStep(m, p, c);
      }
      if c.Exported() || ToExported(m, c) {
        ToExportedStep(m, p, c);
      }
    }
  }

  lemma RootsThen(r0: set<Site>, r1: set<Site>, r2: set<Site>)
    ensures SameRoots(r0, r0)
    ensures SameRoots(r0, r1) && SameRoots(r1, r2) ==> SameRoots(r0, r2)
  {
  }

  lemma RootsAdd(r: set<Site>, site: Site)
    requires !site.Exported()
    ensures SameRoots(r, r + {site})
  {
  }

  lemma MarksForward(m: Mapping, forward: set<Site>, backward: set<Site>, toExport: set<Site>, site: Site)
    requires Marks(m, forward, backward, toExport) && Hidden(m, site) && FromExported(m, site) && site !in forward
    ensures Marks(m, forward + {site}, backward, if site in backward then toExport + {site} else toExport)
  {
    hide FromExported, ToExported;
  }

  lemma MarksBackward(m: Mapping, forward: set<Site>, backward: set<Site>, toExport: set<Site>, site: Site)
    requires Marks(m, forward, backward, toExport) && Hidden(m, site) && ToExported(m, site) && site !in backward
    ensures Marks(m, forward, backward + {site}, if site in forward then toExport + {site} else toExport)
  {
    hide FromExported, ToExported;
  }

  lemma ClosedDone(m: Mapping, before: set<Site>, now: set<Site>, site: Site)
    ensures ClosedSince(m, before, now, {site}) && (forall c :: Flows(m, site, c) && Hidden(m, c) ==> c in now) ==>
      ClosedSince(m, before, now, {})
    ensures
      (ClosedBackSince(m, before, now, {site}) && forall p :: FlowsBack(m, p, site) && Hidden(m, p) ==> p in now) ==>
      ClosedBackSince(m, before, now, {})
  {
  }

  /** The two marking walks and the three visited maps that they share. */
  class SiteChooser {
    const mapping: OMap<Site, InferredVal>
    var toExport: set<Site>
    var reachableFromExported: set<Site>
    var reachesExported: set<Site>

    constructor (mapping: OMap<Site, InferredVal>)
      ensures this.mapping == mapping && toExport == {} && reachableFromExported == {} && reachesExported == {}
    {
      this.mapping := mapping;
      toExport, reachableFromExported, reachesExported := {}, {}, {};
    }

    ghost function M(): Mapping { mapping.vals }

    ghost function Forward(): set<Site>
      reads this
    {
      Visited(reachableFromExported, toExport)
    }

    ghost function Backward(): set<Site>
      reads this
    {
      Visited(reachesExported, toExport)
    }

    ghost predicate Valid()
      reads this
    {
      Marks(M(), Forward(), Backward(), toExport)
    }

    method MarkReachableFromExported(site: Site)
      requires Quiescent(M()) && Valid() && (Hidden(M(), site) ==> FromExported(M(), site))
      modifies this`toExport, this`reachableFromExported
      ensures Valid() && Backward() == old(Backward()) && old(Forward()) <= Forward()
      ensures SameRoots(old(toExport), toExport)
      ensures Hidden(M(), site) ==> site in Forward()
      ensures ClosedSince(M(), old(Forward()), Forward(), {})
      decreases HiddenSites(M()) - Forward()
    {
      hide FromExported, ClosedSince, SameRoots, Visited, Marks, Quiescent;
      RootsThen(toExport, toExport, toExport);
      ClosedThen(M(), Forward(), Forward(), Forward(), {});
      VisitedMembers(reachableFromExported, toExport);
      VisitedMembers(reachesExported, toExport);
      if site in mapping.vals && mapping.vals[site].UndeterminedVal? && !site.Exported()
         && site !in toExport && site !in reachableFromExported {
        ghost var mine, roots := Forward(), toExport;
        VisitStep(reachableFromExported, reachesExported, toExport, site);
        MarksForward(M(), Forward(), Backward(), toExport, site);
        RootsAdd(toExport, site);
        if site in reachesExported {
          toExport := toExport + {site};
        } else {
          reachableFromExported := reachableFromExported + {site};
        }
        ClosedStart(M(), mine, site);
        EdgeKeys(M(), site);
        var implicates := mapping.vals[site].implicates;
        for i := 0 to |implicates.keys|
          invariant Valid() && Backward() == old(Backward()) && mine + {site} <= Forward()
          invariant SameRoots(roots, toExport)
          invariant ClosedSince(M(), mine, Forward(), {site})
          invariant forall x :: x in implicates.keys[..i] && Hidden(M(), x) ==> x in Forward()
        {
          ghost var before, rootsBefore := Forward(), toExport;
          assert implicates.keys[i] in implicates.vals;
          EdgeReaches(M(), site, implicates.keys[i]);
          MarkReachableFromExported(implicates.keys[i]);
          ClosedThen(M(), mine, before, Forward(), {site});
          RootsThen(roots, rootsBefore, toExport);
        }
        ClosedDone(M(), mine, Forward(), site);
      }
    }

    method MarkReachesExported(site: Site)
      requires Quiescent(M()) && Valid() && (Hidden(M(), site) ==> ToExported(M(), site))
      modifies this`toExport, this`reachesExported
      ensures Valid() && Forward() == old(Forward()) && old(Backward()) <= Backward()
      ensures SameRoots(old(toExport), toExport)
      ensures Hidden(M(), site) ==> site in Backward()
      ensures ClosedBackSince(M(), old(Backward()), Backward(), {})
      decreases HiddenSites(M()) - Backward()
    {
      hide ToExported, ClosedBackSince, SameRoots, Visited, Marks, Quiescent;
      RootsThen(toExport, toExport, toExport);
      ClosedThen(M(), Backward(), Backward(), Backward(), {});
      VisitedMembers(reachesExported, toExport);
      VisitedMembers(reachableFromExported, toExport);
      if site in mapping.vals && mapping.vals[site].UndeterminedVal? && !site.Exported()
         && site !in toExport && site !in reachesExported {
        ghost var mine, roots := Backward(), toExport;
        VisitStep(reachesExported, reachableFromExported, toExport, site);
        MarksBackward(M(), Forward(), Backward(), toExport, site);
        RootsAdd(toExport, site);
        if site in reachableFromExported {
          toExport := toExport + {site};
        } else {
          reachesExported := reachesExported + {site};
        }
        ClosedStart(M(), mine, site);
        EdgeKeys(M(), site);
        var implicants := mapping.vals[site].implicants;
        for i := 0 to |implicants.keys|
          invariant Valid() && Forward() == old(Forward()) && mine + {site} <= Backward()
          invariant SameRoots(roots, toExport)
          invariant ClosedBackSince(M(), mine, Backward(), {site})
          invariant forall x :: x in implicants.keys[..i] && Hidden(M(), x) ==> x in Backward()
        {
          ghost var before, rootsBefore := Backward(), toExport;
          assert implicants.keys[i] in implicants.vals;
          EdgeReaches(M(), implicants.keys[i], site);
          MarkReachesExported(implicants.keys[i]);
          ClosedThen(M(), mine, before, Backward(), {site});
          RootsThen(roots, rootsBefore, toExport);
        }
        ClosedDone(M(), mine, Backward(), site);
      }
    }

    /** An exported site is kept, and both walks start at its edges. */
    method MarkRoot(site: Site)
      requires Quiescent(M()) && Valid() && site.Exported() && site in M()
      requires ClosedSince(M(), {}, Forward(), {}) && ClosedBackSince(M(), {}, Backward(), {})
      modifies this
      ensures Valid() && SameRoots(old(toExport) + {site}, toExport)
      ensures ClosedSince(M(), {}, Forward(), {}) && ClosedBackSince(M(), {}, Backward(), {})
      ensures old(Forward()) <= Forward() && old(Backward()) <= Backward()
      ensures RootEdges(M(), [site], Forward(), Backward())
    {
      hide Quiescent, Marks, SameRoots, ClosedSince, ClosedBackSince, FromExported, ToExported, Visited, RootEdges;
      RootKept(M(), reachableFromExported, reachesExported, toExport, site);
      toExport := toExport + {site};
      ghost var roots := toExport;
      RootsThen(roots, roots, roots);
      RootEdgesAt(M(), site, Forward(), Backward());
      if mapping.vals[site].UndeterminedVal? {
        EdgeKeys(M(), site);
        var implicants, implicates := mapping.vals[site].implicants, mapping.vals[site].implicates;
        for i := 0 to |implicants.keys|
          invariant Valid() && SameRoots(roots, toExport)
          invariant ClosedBackSince(M(), {}, Backward(), {})
          invariant Forward() == old(Forward()) && old(Backward()) <= Backward()
          invariant forall x :: x in implicants.keys[..i] && Hidden(M(), x) ==> x in Backward()
        {
          ghost var before, rootsBefore := Backward(), toExport;
          assert implicants.keys[i] in implicants.vals;
          EdgeReaches(M(), implicants.keys[i], site);
          MarkReachesExported(implicants.keys[i]);
          ClosedThen(M(), {}, before, Backward(), {});
          RootsThen(roots, rootsBefore, toExport);
        }
        ghost var backward := Backward();
        for i := 0 to |implicates.keys|
          invariant Valid() && SameRoots(roots, toExport)
          invariant ClosedSince(M(), {}, Forward(), {})
          invariant old(Forward()) <= Forward() && Backward() == backward
          invariant forall x :: x in implicates.keys[..i] && Hidden(M(), x) ==> x in Forward()
        {
          ghost var before, rootsBefore := Forward(), toExport;
          assert implicates.keys[i] in implicates.vals;
          EdgeReaches(M(), site, implicates.keys[i]);
          MarkReachableFromExported(implicates.keys[i]);
          ClosedThen(M(), {}, before, Forward(), {});
          RootsThen(roots, rootsBefore, toExport);
        }
        RootEdgesAt(M(), site, Forward(), Backward());
      }
    }

    method MarkFromRoots()
      requires Quiescent(M()) && toExport == {} && reachableFromExported == {} && reachesExported == {}
      modifies this
      ensures Valid() && RootsMarked(mapping.keys, toExport)
      ensures ClosedForward(M(), Forward()) && ClosedBackward(M(), Backward())
    {
      hide Quiescent, Visited, Marks, SameRoots, ClosedSince, ClosedBackSince, RootEdges, RootsMarked;
      hide ClosedForward, ClosedBackward;
      NothingMarked(M());
      for i := 0 to |mapping.keys|
        invariant Valid() && RootsMarked(mapping.keys[..i], toExport)
        invariant ClosedSince(M(), {}, Forward(), {}) && ClosedBackSince(M(), {}, Backward(), {})
        invariant RootEdges(M(), mapping.keys[..i], Forward(), Backward())
      {
        ghost var forward, backward, before := Forward(), Backward(), toExport;
        var site := mapping.keys[i];
        assert mapping.keys[..i + 1] == mapping.keys[..i] + [site];
        if site.Exported() {
          MarkRoot(site);
          RootEdgesMore(M(), mapping.keys[..i], forward, backward, site, Forward(), Backward());
        } else {
          RootEdgesSkip(M(), mapping.keys[..i], forward, backward, site);
        }
        RootsNext(mapping.keys[..i], before, site, toExport);
      }
      assert mapping.keys[..|mapping.keys|] == mapping.keys;
      RootsClose(mapping, Forward(), Backward());
    }
  }

  /** Every edge of the exported sites in `ss` leads to a visited site, if it leads to a hidden one. */
  ghost predicate RootEdges(m: Mapping, ss: seq<Site>, forward: set<Site>, backward: set<Site>) {
    && (forall s, c :: Flows(m, s, c) && s in ss && s.Exported() && Hidden(m, c) ==> c in forward)
    && (forall s, p :: FlowsBack(m, p, s) && s in ss && s.Exported() && Hidden(m, p) ==> p in backward)
  }

  ghost predicate RootsMarked(ss: seq<Site>, toExport: set<Site>) {
    forall s: Site :: s.Exported() ==> (s in toExport <==> s in ss)
  }

  lemma RootsNext(ss: seq<Site>, toExport: set<Site>, site: Site, toExport': set<Site>)
    requires RootsMarked(ss, toExport)
    ensures site.Exported() && SameRoots(toExport + {site}, toExport') ==> RootsMarked(ss + [site], toExport')
    ensures !site.Exported() ==> RootsMarked(ss + [site], toExport)
  {
  }

  lemma RootKept(m: Mapping, forward: set<Site>, backward: set<Site>, toExport: set<Site>, site: Site)
    requires site.Exported() && site in m
    ensures Visited(forward, toExport + {site}) == Visited(forward, toExport)
    ensures Visited(backward, toExport + {site}) == Visited(backward, toExport)
    ensures Marks(m, Visited(forward, toExport), Visited(backward, toExport), toExport) ==>
      Marks(m, Visited(forward, toExport), Visited(backward, toExport), toExport + {site})
  {
    hide FromExported, ToExported, Hidden;
  }

  lemma RootEdgesAt(m: Mapping, site: Site, forward: set<Site>, backward: set<Site>)
    ensures !Undetermined(m, site) ==> RootEdges(m, [site], forward, backward)
    ensures
      (forall c :: Flows(m, site, c) && Hidden(m, c) ==> c in forward) ==>
      (forall p :: FlowsBack(m, p, site) && Hidden(m, p) ==> p in backward) ==>
      RootEdges(m, [site], forward, backward)
  {
  }

  lemma RootEdgesMore(m: Mapping, ss: seq<Site>, forward: set<Site>, backward: set<Site>, site: Site,
                      forward': set<Site>, backward': set<Site>)
    requires RootEdges(m, ss, forward, backward) && RootEdges(m, [site], forward', backward')
    requires forward <= forward' && backward <= backward'
    ensures RootEdges(m, ss + [site], forward', backward')
  {
    hide Flows, FlowsBack, Hidden;
  }

  lemma RootEdgesSkip(m: Mapping, ss: seq<Site>, forward: set<Site>, backward: set<Site>, site: Site)
    requires RootEdges(m, ss, forward, backward) && !site.Exported()
    ensures RootEdges(m, ss + [site], forward, backward)
  {
    hide Flows, FlowsBack, Hidden;
  }

  lemma NothingMarked(m: Mapping)
    ensures Visited({}, {}) == {} && Marks(m, {}, {}, {})
    ensures RootsMarked([], {}) && RootEdges(m, [], {}, {})
    ensures ClosedSince(m, {}, {}, {}) && ClosedBackSince(m, {}, {}, {})
  {
  }

  lemma RootsClose(m: OMap<Site, InferredVal>, forward: set<Site>, backward: set<Site>)
    requires RootEdges(m.vals, m.keys, forward, backward)
    requires ClosedSince(m.vals, {}, forward, {}) && ClosedBackSince(m.vals, {}, backward, {})
    ensures ClosedForward(m.vals, forward) && ClosedBackward(m.vals, backward)
  {
    forall p, c | Flows(m.vals, p, c) ensures p in m.keys {
      assert p in m.vals;
    }
    forall p, c | FlowsBack(m.vals, p, c) ensures c in m.keys {
      assert c in m.vals;
    }
    hide Flows, FlowsBack, Hidden;
  }

  /** Closed sets of reachable sites are all the reachable sites. */
  lemma MarkedIsKept(m: OMap<Site, InferredVal>, forward: set<Site>, backward: set<Site>, toExport: set<Site>, s: Site)
    requires Quiescent(m.vals) && Marks(m.vals, forward, backward, toExport) && RootsMarked(m.keys, toExport)
    requires ClosedForward(m.vals, forward) && ClosedBackward(m.vals, backward)
    ensures s in toExport <==> Kept(m.vals, s)
  {
    assert s in m.keys <==> s in m.vals;
    if !s.Exported() && Kept(m.vals, s) {
      var path: seq<Site> :| Walk(m.vals, path) && path[0].Exported() && path[|path| - 1] == s;
      ForwardReached(m.vals, forward, path, |path| - 1);
      var path': seq<Site> :| Walk(m.vals, path') && path'[0] == s && path'[|path'| - 1].Exported();
      BackwardReached(m.vals, backward, path', 0);
    }
  }

  method ChooseSitesToExport(m: OMap<Site, InferredVal>) returns (sites: set<Site>)
    requires Quiescent(m.vals)
    ensures forall s :: s in sites <==> Kept(m.vals, s)
  {
    var chooser := new SiteChooser(m);
    chooser.MarkFromRoots();
    sites := chooser.toExport;
    hide Quiescent, Marks, ClosedForward, ClosedBackward, Visited, RootsMarked, Kept;
    forall s ensures s in sites <==> Kept(m.vals, s) {
      MarkedIsKept(m, chooser.Forward(), chooser.Backward(), sites, s);
    }
  }

  /** What is kept is convex: an undetermined site on a walk between kept undetermined sites is kept. */
  lemma KeptIsConvex(m: Mapping, path: seq<Site>, i: nat)
    requires Walk(m, path) && i < |path|
    requires Kept(m, path[0]) && Kept(m, path[|path| - 1])
    ensures Kept(m, path[i])
  {
    FromExportedAlong(m, path, i);
    ToExportedAlong(m, path, i);
  }

  lemma {:induction false} FromExportedAlong(m: Mapping, path: seq<Site>, i: nat)
    requires Walk(m, path) && i < |path| && (path[0].Exported() || FromExported(m, path[0]))
    ensures path[i].Exported() || FromExported(m, path[i])
  {
    if i > 0 {
      FromExportedAlong(m, path, i - 1);
      assert Flows(m, path[i - 1], path[i - 1 + 1]);
      FromExportedStep(m, path[i - 1], path[i]);
    }
  }

  lemma {:induction false} ToExportedAlong(m: Mapping, path: seq<Site>, i: nat)
    requires Walk(m, path) && i < |path| && (path[|path| - 1].Exported() || ToExported(m, path[|path| - 1]))
    ensures path[i].Exported() || ToExported(m, path[i])
    decreases |path| - i
  {
    if i + 1 < |path| {
      ToExportedAlong(m, path, i + 1);
      ToExportedStep(m, path[i], path[i + 1]);
    }
  }

  lemma WalkJoin(m: Mapping, p: seq<Site>, q: seq<Site>)
    requires Walk(m, p) && Walk(m, q) && p[|p| - 1] == q[0]
    ensures Walk(m, p + q[1..])
  {
    hide Flows, Undetermined;
    var joined := p + q[1..];
    forall i | 0 <= i < |joined| - 1 ensures Flows(m, joined[i], joined[i + 1]) {
      if i >= |p| - 1 {
        assert joined[i] == q[i - |p| + 1] && joined[i + 1] == q[i - |p| + 2];
      }
    }
    forall i | 0 <= i < |joined| ensures Undetermined(m, joined[i]) {
      if i >= |p| {
        assert joined[i] == q[i - |p| + 1];
      }
    }
  }

  ghost predicate ConvexSet(m: Mapping, sites: set<Site>) {
    forall path: seq<Site>, i :: Walk(m, path) && path[0] in sites && path[|path| - 1] in sites && 0 <= i < |path| ==>
      path[i] in sites
  }

  /** And minimal: every convex set that has all exported sites has what is kept. */
  lemma KeptIsLeastConvex(m: Mapping, sites: set<Site>, s: Site)
    requires ConvexSet(m, sites) && (forall t :: t in m && t.Exported() ==> t in sites)
    requires Kept(m, s)
    ensures s in sites
  {
    if !s.Exported() {
      var p: seq<Site> :| Walk(m, p) && p[0].Exported() && p[|p| - 1] == s;
      var q: seq<Site> :| Walk(m, q) && q[0] == s && q[|q| - 1].Exported();
      WalkJoin(m, p, q);
      var joined := p + q[1..];
      assert joined[|p| - 1] == s && joined[|joined| - 1] == q[|q| - 1];
      assert Undetermined(m, p[0]) && Undetermined(m, q[|q| - 1]);
      hide Walk;
    }
  }
}
