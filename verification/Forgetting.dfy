// When importing an export says more than the map that it came from. After a conflict the map may have
// dropped an implication that the upstream packages still state.
module Forgetting {
  import opened Annotation
  import opened InferredMaps
  import opened Constraints
  import opened Export
  import opened Incremental
  import opened Modular

  /** The implications of `up` that are not in `m` say nothing there. */
  ghost predicate EdgesHeld(up: Mapping, m: Mapping) {
    forall p, c :: Flows(up, p, c) || FlowsBack(up, p, c) ==>
      Flows(m, p, c) || FlowsBack(m, p, c) || Labelled(m, c, true) || Labelled(m, p, false)
  }

  /** What was known is still said exactly if every edge is there or settled by a label. */
  lemma NothingLostExactly(up: Mapping, m: Mapping)
    requires Quiescent(m) && Grows(up, m)
    ensures NothingLost(up, m) <==> EdgesHeld(up, m)
  {
    if NothingLost(up, m) {
      QuiescentModels(m);
      assert Models(Nilables(m), up) && Models(AllButNonnil(m), up);
      forall p, c | Flows(up, p, c)
        ensures Flows(m, p, c) || FlowsBack(m, p, c) || Labelled(m, c, true) || Labelled(m, p, false)
      {
        assert Flow(Nilables(m), p, c);
      }
      forall p, c | FlowsBack(up, p, c)
        ensures Flows(m, p, c) || FlowsBack(m, p, c) || Labelled(m, c, true) || Labelled(m, p, false)
      {
        assert Flow(AllButNonnil(m), p, c);
      }
    }
    if EdgesHeld(up, m) {
      forall a: Labelling | Models(a, m) ensures Models(a, up) {
        HeldModels(a, up, m);
      }
    }
  }

  lemma HeldModels(a: Labelling, up: Mapping, m: Mapping)
    requires Grows(up, m) && EdgesHeld(up, m) && Models(a, m)
    ensures Models(a, up)
  {
    GrowsKeeps(up, m);
    hide Grows, Flows, FlowsBack, Labelled;
    assert forall p, c :: Flows(m, p, c) || FlowsBack(m, p, c) ==> Flow(a, p, c);
  }

  /** An implication that the import states. */
  ghost predicate Knows(up: Mapping, x: Mapping, p: Site, c: Site) {
    Flows(up, p, c) || FlowsBack(up, p, c) || Flows(x, p, c) || FlowsBack(x, p, c)
  }

  ghost predicate Route(up: Mapping, x: Mapping, path: seq<Site>) {
    && path != []
    && forall i :: 0 <= i < |path| - 1 ==> Knows(up, x, path[i], path[i + 1])
  }

  ghost predicate WalkBetween(m: Mapping, p: Site, c: Site) {
    exists w: seq<Site> :: Walk(m, w) && w[0] == p && w[|w| - 1] == c
  }

  /** `m` makes `c` nilable if `p` is. */
  ghost predicate Leads(m: Mapping, p: Site, c: Site) {
    p == c || Labelled(m, p, false) || Labelled(m, c, true) || WalkBetween(m, p, c)
  }

  /** Wherever the import leads from one exported site to another, the map does too. */
  ghost predicate NothingForgotten(m: Mapping, up: Mapping, x: Mapping) {
    forall path: seq<Site> :: Route(up, x, path) && path[0].Exported() && path[|path| - 1].Exported() ==>
      Leads(m, path[0], path[|path| - 1])
  }

  /** The nilable sites, and what `p` leads to. */
  ghost function Downstream(m: Mapping, p: Site): Labelling {
    iset s | Labelled(m, s, true) || WalkBetween(m, p, s)
  }

  lemma WalkBetweenEnds(m: Mapping, p: Site, c: Site)
    ensures WalkBetween(m, p, c) ==> Undetermined(m, p) && Undetermined(m, c)
    ensures Undetermined(m, p) ==> WalkBetween(m, p, p)
  {
    if Undetermined(m, p) {
      assert Walk(m, [p]) && [p][0] == p && [p][|[p]| - 1] == p;
    }
  }

  lemma WalkBetweenOn(m: Mapping, p: Site, y: Site, z: Site)
    requires WalkBetween(m, p, y) && Flows(m, y, z) && Undetermined(m, z)
    ensures WalkBetween(m, p, z)
  {
    var w: seq<Site> :| Walk(m, w) && w[0] == p && w[|w| - 1] == y;
    WalkOn(m, w, z);
    var longer := w + [z];
    assert longer[0] == p && longer[|longer| - 1] == z;
  }

  lemma DownstreamFlow(m: Mapping, p: Site, y: Site, z: Site)
    requires Quiescent(m) && (Flows(m, y, z) || FlowsBack(m, y, z))
    ensures Flow(Downstream(m, p), y, z)
  {
    assert Flows(m, y, z) ==> SettledForward(m, y, z, {});
    assert FlowsBack(m, y, z) ==> SettledBackward(m, y, z, {});
    hide Quiescent;
    if y in Downstream(m, p) && !Labelled(m, z, true) {
      WalkBetweenEnds(m, p, y);
      assert Flows(m, y, z) && Undetermined(m, z);
      WalkBetweenOn(m, p, y, z);
    }
  }

  lemma DownstreamModels(m: Mapping, p: Site)
    requires Quiescent(m)
    ensures Models(Downstream(m, p), m)
  {
    forall s, v | Labelled(m, s, v) ensures s in Downstream(m, p) <==> v {
      WalkBetweenEnds(m, p, s);
    }
    forall y, z | Flows(m, y, z) || FlowsBack(m, y, z) ensures Flow(Downstream(m, p), y, z) {
      DownstreamFlow(m, p, y, z);
    }
    hide Quiescent, Downstream, Flows, FlowsBack;
  }

  lemma {:induction false} WalkFlows(a: Labelling, m: Mapping, w: seq<Site>, i: nat)
    requires Models(a, m) && Walk(m, w) && w[0] in a && i < |w|
    ensures w[i] in a
  {
    if i > 0 {
      WalkFlows(a, m, w, i - 1);
      assert Flows(m, w[i - 1], w[i - 1 + 1]);
    }
  }

  /** Leading is exactly what all models of the map agree on. */
  lemma LeadsIsForced(m: Mapping, p: Site, c: Site)
    requires Quiescent(m) && p in m
    ensures Leads(m, p, c) <==> forall a: Labelling :: Models(a, m) ==> Flow(a, p, c)
  {
    if Leads(m, p, c) {
      forall a: Labelling | Models(a, m) ensures Flow(a, p, c) {
        if WalkBetween(m, p, c) && p in a {
          var w: seq<Site> :| Walk(m, w) && w[0] == p && w[|w| - 1] == c;
          WalkFlows(a, m, w, |w| - 1);
        }
      }
    } else {
      DownstreamModels(m, p);
      WalkBetweenEnds(m, p, p);
      hide Quiescent, Models;
      assert !Flow(Downstream(m, p), p, c);
    }
  }

  lemma {:induction false} RouteFlows(a: Labelling, up: Mapping, x: Mapping, path: seq<Site>, i: nat)
    requires Models(a, up) && Models(a, x) && Route(up, x, path) && path[0] in a && i < |path|
    ensures path[i] in a
  {
    if i > 0 {
      RouteFlows(a, up, x, path, i - 1);
      assert Knows(up, x, path[i - 1], path[i - 1 + 1]);
    }
  }

  /** The import states edges of the map and of the upstream map, between sites of the map. */
  lemma KnownEdge(m: Mapping, up: Mapping, x: Mapping, p: Site, c: Site)
    requires Quiescent(m) && Quiescent(up) && Grows(up, m) && IsExport(m, up, x) && Knows(up, x, p, c)
    ensures p in m && c in m
    ensures !Labelled(up, c, false) && !Labelled(up, p, true)
  {
    GrowsKeeps(up, m);
    assert Flows(x, p, c) ==> Entry(m, up, x, p, Kept(m, p));
    assert FlowsBack(x, p, c) ==> Entry(m, up, x, c, Kept(m, c));
    hide Kept, Walk;
    assert Flows(x, p, c) ==> Flows(m, p, c);
    assert FlowsBack(x, p, c) ==> FlowsBack(m, p, c);
    hide IsExport, Entry;
    KnownIn(m, p, c);
    KnownIn(up, p, c);
  }

  lemma KnownIn(m: Mapping, p: Site, c: Site)
    requires Quiescent(m)
    ensures Flows(m, p, c) || FlowsBack(m, p, c) ==> p in m && c in m && !Labelled(m, c, false) && !Labelled(m, p, true)
  {
    assert Flows(m, p, c) ==> SettledForward(m, p, c, {});
    assert FlowsBack(m, p, c) ==> SettledBackward(m, p, c, {});
  }

  ghost predicate Reached(a: Labelling, up: Mapping, x: Mapping, s: Site) {
    exists path: seq<Site> :: Route(up, x, path) && path[0].Exported() && path[0] in a && path[|path| - 1] == s
  }

  /** Visible sites as in `a`; hidden ones nilable only if the import makes them so. */
  ghost function Reduced(a: Labelling, m: Mapping, up: Mapping, x: Mapping): Labelling {
    iset s | if Visible(m, s) then s in a else Labelled(up, s, true) || Reached(a, up, x, s)
  }

  lemma RouteOn(up: Mapping, x: Mapping, path: seq<Site>, c: Site)
    requires Route(up, x, path) && Knows(up, x, path[|path| - 1], c)
    ensures Route(up, x, path + [c])
  {
    hide Knows;
  }

  lemma ReducedReached(a: Labelling, m: Mapping, up: Mapping, x: Mapping, p: Site) returns (path: seq<Site>)
    requires p in Reduced(a, m, up, x) && p in m && !Labelled(up, p, true)
    ensures Route(up, x, path) && path[0].Exported() && path[0] in a && path[|path| - 1] == p
  {
    if Visible(m, p) {
      path := [p];
    } else {
      path :| Route(up, x, path) && path[0].Exported() && path[0] in a && path[|path| - 1] == p;
    }
  }

  lemma ReducedFlow(a: Labelling, m: Mapping, up: Mapping, x: Mapping, p: Site, c: Site)
    requires Quiescent(m) && Quiescent(up) && Grows(up, m) && IsExport(m, up, x) && NothingForgotten(m, up, x)
    requires Models(a, m) && Knows(up, x, p, c)
    ensures Flow(Reduced(a, m, up, x), p, c)
  {
    KnownEdge(m, up, x, p, c);
    if p in Reduced(a, m, up, x) {
      var path := ReducedReached(a, m, up, x, p);
      RouteOn(up, x, path, c);
      var longer := path + [c];
      assert longer[0] == path[0] && longer[|longer| - 1] == c;
      if Visible(m, c) {
        assert Leads(m, path[0], c);
        StartInMap(m, up, x, longer);
        LeadsIsForced(m, path[0], c);
      }
    }
  }

  lemma StartInMap(m: Mapping, up: Mapping, x: Mapping, path: seq<Site>)
    requires Quiescent(m) && Quiescent(up) && Grows(up, m) && IsExport(m, up, x) && Route(up, x, path) && |path| > 1
    ensures path[0] in m
  {
    assert Knows(up, x, path[0], path[0 + 1]);
    KnownEdge(m, up, x, path[0], path[1]);
  }

  lemma ReducedLabel(a: Labelling, m: Mapping, up: Mapping, x: Mapping, s: Site, v: bool)
    requires Quiescent(m) && Quiescent(up) && Grows(up, m) && IsExport(m, up, x)
    requires Models(a, m) && Labelled(up, s, v)
    ensures s in Reduced(a, m, up, x) <==> v
  {
    GrowsKeeps(up, m);
    hide Grows, IsExport;
    if !Visible(m, s) && !v && Reached(a, up, x, s) {
      var path: seq<Site> :| Route(up, x, path) && path[0].Exported() && path[0] in a && path[|path| - 1] == s;
      assert Knows(up, x, path[|path| - 2], path[|path| - 2 + 1]);
      KnownEdge(m, up, x, path[|path| - 2], s);
    }
  }

  /** What the map allows, the import allows, with the same visible labels. */
  lemma ReducedModels(a: Labelling, m: Mapping, up: Mapping, x: Mapping)
    requires Quiescent(m) && Quiescent(up) && Grows(up, m) && IsExport(m, up, x) && NothingForgotten(m, up, x)
    requires Models(a, m)
    ensures Models(Reduced(a, m, up, x), up) && Models(Reduced(a, m, up, x), x)
  {
    var r := Reduced(a, m, up, x);
    hide Quiescent, Grows, IsExport, NothingForgotten, Reduced, Labelled, Flows, FlowsBack;
    forall p, c | Knows(up, x, p, c) ensures Flow(r, p, c) {
      ReducedFlow(a, m, up, x, p, c);
    }
    forall s, v | Labelled(up, s, v) ensures s in r <==> v {
      ReducedLabel(a, m, up, x, s, v);
    }
    forall s, v | Labelled(x, s, v) ensures s in r <==> v {
      ExportedLabel(a, m, up, x, s, v);
    }
    assert forall p, c :: Flows(up, p, c) || FlowsBack(up, p, c) || Flows(x, p, c) || FlowsBack(x, p, c) ==>
      Knows(up, x, p, c);
  }

  lemma KeptLabelVisible(m: Mapping, s: Site, v: bool)
    ensures Labelled(m, s, v) && Kept(m, s) ==> Visible(m, s)
  {
  }

  lemma ExportedLabel(a: Labelling, m: Mapping, up: Mapping, x: Mapping, s: Site, v: bool)
    requires IsExport(m, up, x) && Models(a, m) && Labelled(x, s, v)
    ensures s in Reduced(a, m, up, x) <==> v
  {
    assert Entry(m, up, x, s, Kept(m, s));
    KeptLabelVisible(m, s, v);
    assert Labelled(m, s, v);
  }

  /** Solutions of the whole restrict to solutions of the import, with the same visible labels. */
  lemma WholeReduces(a: Labelling, m: Mapping, up: Mapping, x: Mapping, d: set<Fact>)
    requires Quiescent(m) && Quiescent(up) && Grows(up, m) && IsExport(m, up, x) && NothingForgotten(m, up, x)
    requires AllVisible(m, d) && AllHold(a, FactsOf(m) + d)
    ensures AllHold(Reduced(a, m, up, x), Imported(up, x, d))
    ensures forall s :: Visible(m, s) ==> (s in Reduced(a, m, up, x) <==> s in a)
  {
    AllHoldWhole(a, m, d);
    ReducedModels(a, m, up, x);
    AllHoldImported(Reduced(a, m, up, x), up, x, d);
    forall f | f in d ensures Holds(Reduced(a, m, up, x), f) {
      FactIsLocal(a, Reduced(a, m, up, x), f);
    }
  }

  /** If nothing is forgotten, modular analysis is whole-program analysis, conflicts or not. */
  lemma NothingForgottenSuffices(m: Mapping, up: Mapping, x: Mapping, d: set<Fact>)
    requires Quiescent(m) && Quiescent(up) && Grows(up, m) && IsExport(m, up, x) && NothingForgotten(m, up, x)
    requires AllVisible(m, d)
    ensures Satisfiable(Imported(up, x, d)) <==> Satisfiable(FactsOf(m) + d)
    ensures forall s, v :: Visible(m, s) ==>
      (Forced(Imported(up, x, d), s, v) <==> Forced(FactsOf(m) + d, s, v))
  {
    var imported, whole := Imported(up, x, d), FactsOf(m) + d;
    forall a: Labelling | AllHold(a, imported)
      ensures AllHold(Extended(a, m), whole) && forall s :: Visible(m, s) ==> (s in Extended(a, m) <==> s in a)
    {
      ImportedExtends(a, m, up, x, d);
    }
    forall a: Labelling | AllHold(a, whole)
      ensures AllHold(Reduced(a, m, up, x), imported)
      ensures forall s :: Visible(m, s) ==> (s in Reduced(a, m, up, x) <==> s in a)
    {
      WholeReduces(a, m, up, x, d);
    }
    hide FactsOf, Holds, AllHold, Extended, Reduced, Visible, Imported, NothingForgotten, IsExport, Quiescent, Grows;
    forall s, v | Visible(m, s) ensures Forced(imported, s, v) <==> Forced(whole, s, v) {
      if Forced(whole, s, v) {
        forall a: Labelling | AllHold(a, imported) ensures s in a <==> v {
          assert AllHold(Extended(a, m), whole);
        }
      }
      if Forced(imported, s, v) {
        forall a: Labelling | AllHold(a, whole) ensures s in a <==> v {
          assert AllHold(Reduced(a, m, up, x), imported);
        }
      }
    }
  }

  /** If something is forgotten, a later package can tell: it makes one exported site nilable and
      another nonnil, which the map allows and the import does not. */
  lemma ForgottenSeparates(m: Mapping, up: Mapping, x: Mapping, path: seq<Site>)
    requires Quiescent(m) && Quiescent(up) && Grows(up, m) && IsExport(m, up, x)
    requires Route(up, x, path) && path[0].Exported() && path[|path| - 1].Exported()
    requires !Leads(m, path[0], path[|path| - 1])
    ensures
      var d := {Label(path[0], true), Label(path[|path| - 1], false)};
      AllVisible(m, d) && Satisfiable(FactsOf(m) + d) && !Satisfiable(Imported(up, x, d))
  {
    var p, c := path[0], path[|path| - 1];
    var d := {Label(p, true), Label(c, false)};
    assert |path| > 1;
    StartInMap(m, up, x, path);
    LeadsIsForced(m, p, c);
    hide Quiescent, Leads, Models, IsExport, Grows, FactsOf, Imported, Route;
    var a: Labelling :| Models(a, m) && p in a && c !in a;
    AllHoldWhole(a, m, d);
    assert AllHold(a, d);
    forall b: Labelling ensures !AllHold(b, Imported(up, x, d)) {
      RouteRefutes(b, up, x, path);
    }
  }

  lemma RouteRefutes(b: Labelling, up: Mapping, x: Mapping, path: seq<Site>)
    requires Route(up, x, path)
    ensures !AllHold(b, Imported(up, x, {Label(path[0], true), Label(path[|path| - 1], false)}))
  {
    var p, c := path[0], path[|path| - 1];
    var d := {Label(p, true), Label(c, false)};
    AllHoldImported(b, up, x, d);
    if Models(b, up) && Models(b, x) && p in b {
      RouteFlows(b, up, x, path, |path| - 1);
    }
    hide Models, FactsOf, Imported, Route;
    assert Label(p, true) in d && Label(c, false) in d;
    assert Holds(b, Label(p, true)) <==> p in b;
    assert Holds(b, Label(c, false)) <==> c !in b;
  }

  /** So the import is as good as the map for every later package exactly if nothing is forgotten. */
  lemma ModularExactly(m: Mapping, up: Mapping, x: Mapping)
    requires Quiescent(m) && Quiescent(up) && Grows(up, m) && IsExport(m, up, x)
    ensures NothingForgotten(m, up, x) <==> forall d: set<Fact> :: AllVisible(m, d) ==>
      (Satisfiable(Imported(up, x, d)) <==> Satisfiable(FactsOf(m) + d))
  {
    if NothingForgotten(m, up, x) {
      forall d: set<Fact> | AllVisible(m, d) ensures Satisfiable(Imported(up, x, d)) <==> Satisfiable(FactsOf(m) + d) {
        NothingForgottenSuffices(m, up, x, d);
      }
    } else {
      var path: seq<Site> :| Route(up, x, path) && path[0].Exported() && path[|path| - 1].Exported()
        && !Leads(m, path[0], path[|path| - 1]);
      ForgottenSeparates(m, up, x, path);
    }
  }

  /** An upstream edge between exported sites is forgotten exactly if its ends have the labels that it
      excludes; then the import has no solution at all. */
  lemma ForgottenEdge(m: Mapping, up: Mapping, x: Mapping, p: Site, c: Site)
    requires Quiescent(m) && Quiescent(up) && Grows(up, m) && IsExport(m, up, x)
    requires p != c && p.Exported() && c.Exported() && (Flows(up, p, c) || FlowsBack(up, p, c))
    ensures !Leads(m, p, c) <==> Labelled(m, p, true) && Labelled(m, c, false)
    ensures !Leads(m, p, c) ==> Satisfiable(FactsOf(m)) && !Satisfiable(Imported(up, x, {}))
  {
    assert Knows(up, x, p, c);
    KnownEdge(m, up, x, p, c);
    EdgeStays(m, up, p, c);
    WalkBetweenEnds(m, p, c);
    QuiescentModels(m);
    FactsAreModels(Nilables(m), m);
    hide Quiescent, Models, IsExport, Grows, FactsOf, Imported, Flows, FlowsBack, WalkBetween, AllHold;
    if !Leads(m, p, c) {
      assert AllHold(Nilables(m), FactsOf(m));
      forall b: Labelling ensures !AllHold(b, Imported(up, x, {})) {
        EdgeRefutes(b, m, up, x, p, c);
      }
    }
  }

  lemma EdgeRefutes(b: Labelling, m: Mapping, up: Mapping, x: Mapping, p: Site, c: Site)
    requires Grows(up, m) && IsExport(m, up, x) && p.Exported() && c.Exported()
    requires (Flows(up, p, c) || FlowsBack(up, p, c)) && Labelled(m, p, true) && Labelled(m, c, false)
    ensures !AllHold(b, Imported(up, x, {}))
  {
    AllHoldImported(b, up, x, {});
    assert Models(b, up) ==> Flow(b, p, c);
    assert Kept(m, p) && Kept(m, c);
    if Models(b, up) && Models(b, x) {
      ImportSaysKept(b, m, up, x);
    }
  }

  /** An edge into or out of a site that is still open is still there. */
  lemma EdgeStays(m: Mapping, up: Mapping, p: Site, c: Site)
    requires Quiescent(m) && Quiescent(up) && Grows(up, m) && (Flows(up, p, c) || FlowsBack(up, p, c))
    ensures Undetermined(m, p) && Undetermined(m, c) ==> WalkBetween(m, p, c)
    ensures Undetermined(m, p) && !Undetermined(m, c) ==> Labelled(m, c, true)
    ensures !Undetermined(m, p) && Undetermined(m, c) ==> Labelled(m, p, false)
  {
    assert Flows(up, p, c) ==> SettledForward(up, p, c, {});
    assert FlowsBack(up, p, c) ==> SettledBackward(up, p, c, {});
    assert Flows(m, p, c) ==> SettledForward(m, p, c, {});
    assert FlowsBack(m, p, c) ==> SettledBackward(m, p, c, {});
    GrowsKeeps(up, m);
    if Undetermined(m, p) && Undetermined(m, c) {
      assert Flows(m, p, c);
      hide Quiescent;
      assert Walk(m, [p, c]) && [p, c][0] == p && [p, c][|[p, c]| - 1] == c;
    }
  }

  /** Without a conflict nothing is lost, and then nothing is forgotten. */
  lemma NothingLostIsEnough(m: Mapping, up: Mapping, x: Mapping)
    requires Quiescent(m) && Quiescent(up) && Grows(up, m) && IsExport(m, up, x) && NothingLost(up, m)
    ensures NothingForgotten(m, up, x)
  {
    forall path: seq<Site> | Route(up, x, path) && path[0].Exported() && path[|path| - 1].Exported()
      ensures Leads(m, path[0], path[|path| - 1])
    {
      if |path| > 1 {
        StartInMap(m, up, x, path);
        forall a: Labelling | Models(a, m) ensures Flow(a, path[0], path[|path| - 1]) {
          ModelsSayImport(a, m, up, x);
          if path[0] in a {
            RouteFlows(a, up, x, path, |path| - 1);
          }
        }
        LeadsIsForced(m, path[0], path[|path| - 1]);
      }
    }
  }
}
