// Importing only what was exported is as good as continuing from the whole map.
module Modular {
  import opened Annotation
  import opened InferredMaps
  import opened Constraints
  import opened Export
  import opened Incremental

  /** What a later package may mention: anything but the hidden sites of this map. */
  ghost predicate Visible(m: Mapping, s: Site) {
    s !in m || s.Exported()
  }

  ghost predicate AllVisible(m: Mapping, d: set<Fact>) {
    forall f, s :: f in d && s in FactSites(f) ==> Visible(m, s)
  }

  /** The labels and the edges of the kept sites. */
  ghost predicate KeptModels(a: Labelling, m: Mapping) {
    && (forall s, v :: Labelled(m, s, v) && Kept(m, s) ==> (s in a <==> v))
    && (forall p, c :: Flows(m, p, c) && Kept(m, p) ==> Flow(a, p, c))
    && (forall p, c :: FlowsBack(m, p, c) && Kept(m, c) ==> Flow(a, p, c))
  }

  lemma ImportSaysKept(a: Labelling, m: Mapping, up: Mapping, x: Mapping)
    requires IsExport(m, up, x) && Grows(up, m) && Models(a, up) && Models(a, x)
    ensures KeptModels(a, m)
  {
    hide Kept;
    forall s, v | Labelled(m, s, v) && Kept(m, s) ensures s in a <==> v {
      assert Entry(m, up, x, s, Kept(m, s));
      assert Labelled(x, s, v) || Labelled(up, s, v);
    }
    forall p, c | Flows(m, p, c) && Kept(m, p) ensures Flow(a, p, c) {
      assert Entry(m, up, x, p, Kept(m, p));
      assert Flows(x, p, c) || Flows(up, p, c);
    }
    forall p, c | FlowsBack(m, p, c) && Kept(m, c) ensures Flow(a, p, c) {
      assert Entry(m, up, x, c, Kept(m, c));
      assert FlowsBack(x, p, c) || FlowsBack(up, p, c);
    }
  }

  lemma ModelsSayImport(a: Labelling, m: Mapping, up: Mapping, x: Mapping)
    requires IsExport(m, up, x) && Models(a, m)
    ensures Models(a, x)
  {
    hide Kept;
    forall s, v | Labelled(x, s, v) ensures s in a <==> v {
      assert Entry(m, up, x, s, Kept(m, s));
      assert Labelled(m, s, v);
    }
    forall p, c | Flows(x, p, c) ensures Flow(a, p, c) {
      assert Entry(m, up, x, p, Kept(m, p));
      assert Flows(m, p, c);
    }
    forall p, c | FlowsBack(x, p, c) ensures Flow(a, p, c) {
      assert Entry(m, up, x, c, Kept(m, c));
      assert FlowsBack(m, p, c);
    }
  }

  /** A nilable exported site reaches `s` along undetermined sites. */
  ghost predicate Fed(a: Labelling, m: Mapping, s: Site) {
    exists path: seq<Site> :: Walk(m, path) && path[0].Exported() && path[0] in a && path[|path| - 1] == s
  }

  /** Visible sites as in `a`; hidden ones nilable only if they are labelled so or fed. */
  ghost function Extended(a: Labelling, m: Mapping): Labelling {
    iset s | if Visible(m, s) then s in a else Labelled(m, s, true) || Fed(a, m, s)
  }

  lemma FedOn(a: Labelling, m: Mapping, p: Site, c: Site)
    requires Flows(m, p, c) && Undetermined(m, c) && p in Extended(a, m)
    ensures Fed(a, m, c)
  {
    assert Undetermined(m, p);
    var path := [p];
    if !p.Exported() {
      path :| Walk(m, path) && path[0].Exported() && path[0] in a && path[|path| - 1] == p;
    }
    assert Walk(m, path);
    WalkOn(m, path, c);
    hide Walk;
    assert Walk(m, path + [c]);
  }

  /** What later packages can see of the map: the labels of exported sites, and which exported sites
      lead to which. */
  ghost predicate ExportedModels(a: Labelling, m: Mapping) {
    && (forall s, v :: Labelled(m, s, v) && s.Exported() ==> (s in a <==> v))
    && (forall path: seq<Site> :: Walk(m, path) && path[0].Exported() && path[|path| - 1].Exported() ==>
         Flow(a, path[0], path[|path| - 1]))
  }

  lemma KeptIsEnough(a: Labelling, m: Mapping)
    requires KeptModels(a, m)
    ensures ExportedModels(a, m)
  {
    forall s, v | Labelled(m, s, v) && s.Exported() ensures s in a <==> v {
      assert Kept(m, s);
    }
    forall path: seq<Site> | Walk(m, path) && path[0].Exported() && path[|path| - 1].Exported()
      ensures Flow(a, path[0], path[|path| - 1])
    {
      if path[0] in a {
        FedAlong(a, m, path, |path| - 1);
      }
    }
  }

  /** Along a walk that comes back to an exported site, everything is kept and so nilability is. */
  lemma {:induction false} FedAlong(a: Labelling, m: Mapping, path: seq<Site>, i: nat)
    requires KeptModels(a, m) && Walk(m, path) && i < |path|
    requires path[0].Exported() && path[0] in a && path[|path| - 1].Exported()
    ensures path[i] in a
  {
    if i > 0 {
      FedAlong(a, m, path, i - 1);
      FromExportedAlong(m, path, i - 1);
      ToExportedAlong(m, path, i - 1);
      assert Flows(m, path[i - 1], path[i - 1 + 1]) && Kept(m, path[i - 1]);
    }
  }

  lemma FedBack(a: Labelling, m: Mapping, p: Site, c: Site)
    requires ExportedModels(a, m) && Flows(m, p, c) && Undetermined(m, c) && c.Exported() && p in Extended(a, m)
    ensures c in a
  {
    FedOn(a, m, p, c);
    var path: seq<Site> :| Walk(m, path) && path[0].Exported() && path[0] in a && path[|path| - 1] == c;
    assert Flow(a, path[0], path[|path| - 1]);
  }

  /** What can be seen of the map allows what the whole map allows, with the same visible labels. */
  lemma ExtendedModels(a: Labelling, m: Mapping)
    requires Quiescent(m) && ExportedModels(a, m)
    ensures Models(Extended(a, m), m)
  {
    var a' := Extended(a, m);
    forall s, v | Labelled(m, s, v) ensures s in a' <==> v {
      LabelExtended(a, m, s, v);
    }
    forall p, c | Flows(m, p, c) ensures Flow(a', p, c) {
      FlowExtended(a, m, p, c);
    }
    forall p, c | FlowsBack(m, p, c) ensures Flow(a', p, c) {
      FlowExtended(a, m, p, c);
    }
  }

  lemma LabelExtended(a: Labelling, m: Mapping, s: Site, v: bool)
    requires ExportedModels(a, m) && Labelled(m, s, v)
    ensures s in Extended(a, m) <==> v
  {
  }

  lemma FlowExtended(a: Labelling, m: Mapping, p: Site, c: Site)
    requires Quiescent(m) && ExportedModels(a, m) && (Flows(m, p, c) || FlowsBack(m, p, c))
    ensures Flow(Extended(a, m), p, c)
  {
    assert Flows(m, p, c) ==> SettledForward(m, p, c, {});
    assert FlowsBack(m, p, c) ==> SettledBackward(m, p, c, {});
    hide Quiescent, ExportedModels, Fed, Extended, Kept;
    if Labelled(m, c, true) {
      LabelExtended(a, m, c, true);
    } else if Labelled(m, p, false) {
      LabelExtended(a, m, p, false);
    } else if p in Extended(a, m) {
      if c.Exported() {
        FedBack(a, m, p, c);
      } else {
        FedOn(a, m, p, c);
      }
      assert c in Extended(a, m) by {
        FedIsExtended(a, m, c);
      }
    }
  }

  lemma FedIsExtended(a: Labelling, m: Mapping, c: Site)
    requires Undetermined(m, c) && if c.Exported() then c in a else Fed(a, m, c)
    ensures c in Extended(a, m)
  {
  }

  /** The facts that a later package sees of this one, and what it adds. */
  ghost function Imported(up: Mapping, x: Mapping, d: set<Fact>): set<Fact> {
    FactsOf(up) + FactsOf(x) + d
  }

  lemma AllHoldImported(a: Labelling, up: Mapping, x: Mapping, d: set<Fact>)
    ensures AllHold(a, Imported(up, x, d)) <==> Models(a, up) && Models(a, x) && AllHold(a, d)
  {
    FactsAreModels(a, up);
    FactsAreModels(a, x);
    hide FactsOf, Models, Holds;
  }

  lemma AllHoldWhole(a: Labelling, m: Mapping, d: set<Fact>)
    ensures AllHold(a, FactsOf(m) + d) <==> Models(a, m) && AllHold(a, d)
  {
    FactsAreModels(a, m);
    hide FactsOf, Models, Holds;
  }

  /** A solution of what was imported and added extends to one of everything. */
  lemma ImportedExtends(a: Labelling, m: Mapping, up: Mapping, x: Mapping, d: set<Fact>)
    requires Quiescent(m) && Grows(up, m) && IsExport(m, up, x) && AllVisible(m, d)
    requires AllHold(a, Imported(up, x, d))
    ensures AllHold(Extended(a, m), FactsOf(m) + d)
    ensures forall s :: Visible(m, s) ==> (s in Extended(a, m) <==> s in a)
  {
    AllHoldImported(a, up, x, d);
    ImportSaysKept(a, m, up, x);
    KeptIsEnough(a, m);
    ExtendedModels(a, m);
    AllHoldWhole(Extended(a, m), m, d);
    forall f | f in d ensures Holds(Extended(a, m), f) {
      FactIsLocal(a, Extended(a, m), f);
    }
  }

  /** A solution of everything is one of what was imported and added, unless something was lost. */
  lemma WholeRestricts(a: Labelling, m: Mapping, up: Mapping, x: Mapping, d: set<Fact>)
    requires IsExport(m, up, x) && NothingLost(up, m) && AllHold(a, FactsOf(m) + d)
    ensures AllHold(a, Imported(up, x, d))
  {
    AllHoldWhole(a, m, d);
    AllHoldImported(a, up, x, d);
    ModelsSayImport(a, m, up, x);
  }

  /** Modular analysis is whole-program analysis: with the facts of the upstream packages and the
      export of `m` in place of `m`, the same visible constraints have a solution, and they force
      the same labels on visible sites. */
  lemma ModularIsWhole(m: Mapping, up: Mapping, x: Mapping, d: set<Fact>)
    requires Quiescent(m) && Grows(up, m) && IsExport(m, up, x) && NothingLost(up, m) && AllVisible(m, d)
    ensures Satisfiable(Imported(up, x, d)) <==> Satisfiable(FactsOf(m) + d)
    ensures forall s, v :: Visible(m, s) ==>
      (Forced(Imported(up, x, d), s, v) <==> Forced(FactsOf(m) + d, s, v))
  {
    var imported, whole := Imported(up, x, d), FactsOf(m) + d;
    forall a: Labelling | AllHold(a, imported)
      ensures AllHold(Extended(a, m), whole) && forall s :: Visible(m, s) ==> (s in Extended(a, m) <==> s in a)
    {
      ImportedExtends(a, m, up, x, d);
    }
    forall a: Labelling | AllHold(a, whole) ensures AllHold(a, imported) {
      WholeRestricts(a, m, up, x, d);
    }
    hide FactsOf, Holds, AllHold, Extended, Visible;
    forall s, v | Visible(m, s) && Forced(whole, s, v) ensures Forced(imported, s, v) {
      forall a: Labelling | AllHold(a, imported) ensures s in a <==> v {
        assert AllHold(Extended(a, m), whole);
      }
    }
  }

  /** With no upstream facts the export alone will do, whatever conflicts there were. */
  lemma ModularIsWholeFromScratch(m: Mapping, x: Mapping, d: set<Fact>)
    requires Quiescent(m) && IsExport(m, map[], x) && AllVisible(m, d)
    ensures Satisfiable(FactsOf(x) + d) <==> Satisfiable(FactsOf(m) + d)
    ensures forall s, v :: Visible(m, s) ==> (Forced(FactsOf(x) + d, s, v) <==> Forced(FactsOf(m) + d, s, v))
  {
    ModularIsWhole(m, map[], x, d);
    assert FactsOf(map[]) + FactsOf(x) + d == FactsOf(x) + d;
  }
}
