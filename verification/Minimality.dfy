// How little of a map an export could say (chooseSitesToExport in inference/inferred_map.go).
module Minimality {
  import opened Annotation
  import opened InferredMaps
  import opened Constraints
  import opened Export
  import opened Modular
  import opened Forgetting
  import opened Continuation

  /** Some of what `m` says, with the labels of all exported sites. */
  ghost predicate PartOf(fs: set<Fact>, m: Mapping) {
    && fs <= FactsOf(m)
    && forall s, v :: Labelled(m, s, v) && s.Exported() ==> Label(s, v) in fs
  }

  /** A walk along edges that are among `fs`. */
  ghost predicate Stated(m: Mapping, fs: set<Fact>, w: seq<Site>) {
    Walk(m, w) && forall i :: 0 <= i < |w| - 1 ==> Implication(w[i], w[i + 1]) in fs
  }

  ghost predicate StatedBetween(m: Mapping, fs: set<Fact>, p: Site, c: Site) {
    exists w: seq<Site> :: Stated(m, fs, w) && w[0] == p && w[|w| - 1] == c
  }

  /** Wherever the map leads from one exported site to another, what is left of it does. */
  ghost predicate StillLeads(m: Mapping, fs: set<Fact>) {
    forall p: Site, c: Site :: p.Exported() && c.Exported() && WalkBetween(m, p, c) ==> StatedBetween(m, fs, p, c)
  }

  lemma {:induction false} StatedFlows(a: Labelling, m: Mapping, fs: set<Fact>, w: seq<Site>, i: nat)
    requires AllHold(a, fs) && Stated(m, fs, w) && w[0] in a && i < |w|
    ensures w[i] in a
  {
    if i > 0 {
      StatedFlows(a, m, fs, w, i - 1);
      assert Implication(w[i - 1], w[i - 1 + 1]) in fs;
      assert Holds(a, Implication(w[i - 1], w[i]));
    }
  }

  lemma StatedModels(a: Labelling, m: Mapping, fs: set<Fact>)
    requires PartOf(fs, m) && StillLeads(m, fs) && AllHold(a, fs)
    ensures ExportedModels(a, m)
  {
    forall s, v | Labelled(m, s, v) && s.Exported() ensures s in a <==> v {
      assert Label(s, v) in fs && Holds(a, Label(s, v));
    }
    hide PartOf, AllHold;
    forall path: seq<Site> | Walk(m, path) && path[0].Exported() && path[|path| - 1].Exported()
      ensures Flow(a, path[0], path[|path| - 1])
    {
      assert WalkBetween(m, path[0], path[|path| - 1]);
      var w: seq<Site> :| Stated(m, fs, w) && w[0] == path[0] && w[|w| - 1] == path[|path| - 1];
      if path[0] in a {
        StatedFlows(a, m, fs, w, |w| - 1);
      }
    }
  }

  lemma PartExtends(a: Labelling, m: Mapping, fs: set<Fact>, d: set<Fact>)
    requires Quiescent(m) && PartOf(fs, m) && StillLeads(m, fs) && AllVisible(m, d) && AllHold(a, fs + d)
    ensures AllHold(Extended(a, m), FactsOf(m) + d)
    ensures forall s :: Visible(m, s) ==> (s in Extended(a, m) <==> s in a)
  {
    assert AllHold(a, fs) && AllHold(a, d);
    StatedModels(a, m, fs);
    ExtendedModels(a, m);
    AllHoldWhole(Extended(a, m), m, d);
    hide FactsOf, StillLeads, ExportedModels;
    forall f | f in d ensures Holds(Extended(a, m), f) {
      FactIsLocal(a, Extended(a, m), f);
    }
  }

  lemma StillLeadsIsEnough(m: Mapping, fs: set<Fact>)
    requires Quiescent(m) && PartOf(fs, m) && StillLeads(m, fs)
    ensures Agrees(m, FactsOf(m), fs)
  {
    forall d: set<Fact> | AllVisible(m, d) ensures AgreesOn(m, FactsOf(m), fs, d) {
      forall a: Labelling | AllHold(a, fs + d)
        ensures AllHold(Extended(a, m), FactsOf(m) + d)
        ensures forall s :: Visible(m, s) ==> (s in Extended(a, m) <==> s in a)
      {
        PartExtends(a, m, fs, d);
      }
      hide Extended, FactsOf, Holds, Visible, StillLeads, Quiescent;
      forall a: Labelling | AllHold(a, FactsOf(m) + d) ensures AllHold(a, fs + d) {
      }
      hide AllHold;
      forall s, v | Visible(m, s) && Forced(FactsOf(m) + d, s, v) ensures Forced(fs + d, s, v) {
        forall a: Labelling | AllHold(a, fs + d) ensures s in a <==> v {
          assert AllHold(Extended(a, m), FactsOf(m) + d);
        }
      }
    }
  }

  /** The nilable sites, and what `p` leads to along what is left. */
  ghost function StatedFrom(m: Mapping, fs: set<Fact>, p: Site): Labelling {
    iset s | Labelled(m, s, true) || StatedBetween(m, fs, p, s)
  }

  lemma StatedEnd(m: Mapping, fs: set<Fact>, p: Site, s: Site)
    ensures StatedBetween(m, fs, p, s) ==> Undetermined(m, s) && WalkBetween(m, p, s)
    ensures Undetermined(m, p) ==> StatedBetween(m, fs, p, p)
  {
    if Undetermined(m, p) {
      assert Stated(m, fs, [p]) && [p][0] == p && [p][|[p]| - 1] == p;
    }
  }

  lemma StatedOn(m: Mapping, fs: set<Fact>, p: Site, y: Site, z: Site)
    requires StatedBetween(m, fs, p, y) && Flows(m, y, z) && Undetermined(m, z) && Implication(y, z) in fs
    ensures StatedBetween(m, fs, p, z)
  {
    var w: seq<Site> :| Stated(m, fs, w) && w[0] == p && w[|w| - 1] == y;
    WalkOn(m, w, z);
    var longer := w + [z];
    assert longer[0] == p && longer[|longer| - 1] == z;
    hide Walk;
    assert Stated(m, fs, longer);
  }

  lemma FactIsJoined(m: Mapping, f: Fact)
    requires f in FactsOf(m)
    ensures f.Label? ==> Labelled(m, f.site, f.nilable)
    ensures f.Implication? ==> Joined(m, f.producer, f.consumer)
    ensures f.Label? || f.Implication?
  {
  }

  lemma StatedHolds(m: Mapping, fs: set<Fact>, p: Site, f: Fact)
    requires Quiescent(m) && fs <= FactsOf(m) && f in fs
    ensures Holds(StatedFrom(m, fs, p), f)
  {
    FactIsJoined(m, f);
    if f.Label? {
      StatedEnd(m, fs, p, f.site);
      hide StatedBetween;
    } else {
      var y, z := f.producer, f.consumer;
      assert Flows(m, y, z) ==> SettledForward(m, y, z, {});
      assert FlowsBack(m, y, z) ==> SettledBackward(m, y, z, {});
      StatedEnd(m, fs, p, y);
      hide Quiescent, StatedBetween;
      if y in StatedFrom(m, fs, p) && !Labelled(m, z, true) {
        assert Flows(m, y, z) && Undetermined(m, z);
        StatedOn(m, fs, p, y, z);
      }
    }
  }

  /** What is left does not lead from p to c any more: a later package can tell. */
  lemma LeadsNoMore(m: Mapping, fs: set<Fact>, p: Site, c: Site)
    requires Quiescent(m) && PartOf(fs, m) && p.Exported() && c.Exported()
    requires WalkBetween(m, p, c) && !StatedBetween(m, fs, p, c)
    ensures
      var d := {Label(p, true), Label(c, false)};
      AllVisible(m, d) && Satisfiable(fs + d) && !Satisfiable(FactsOf(m) + d)
  {
    var d, a := {Label(p, true), Label(c, false)}, StatedFrom(m, fs, p);
    WalkBetweenEnds(m, p, c);
    StatedEnd(m, fs, p, p);
    forall f | f in fs ensures Holds(a, f) {
      StatedHolds(m, fs, p, f);
    }
    LeadsIsForced(m, p, c);
    hide Quiescent, WalkBetween, StatedBetween, PartOf, FactsOf;
    assert p in a && c !in a;
    assert AllHold(a, fs + d);
    forall b: Labelling ensures !AllHold(b, FactsOf(m) + d) {
      AllHoldWhole(b, m, d);
      assert Label(p, true) in d && Label(c, false) in d;
      assert AllHold(b, d) ==> Holds(b, Label(p, true)) && Holds(b, Label(c, false));
    }
  }

  lemma TellsApart(m: Mapping, fs: set<Fact>, fs': set<Fact>, d: set<Fact>)
    requires AllVisible(m, d) && Satisfiable(fs' + d) && !Satisfiable(fs + d)
    ensures !Agrees(m, fs, fs')
  {
    hide Satisfiable, AllVisible, Forced, Visible;
    assert !AgreesOn(m, fs, fs', d);
  }

  /** A part of the map serves every later package exactly if it leads wherever the map leads, from one
      exported site to another. */
  lemma PartExactly(m: Mapping, fs: set<Fact>)
    requires Quiescent(m) && PartOf(fs, m)
    ensures Agrees(m, FactsOf(m), fs) <==> StillLeads(m, fs)
  {
    hide PartOf, Walk, WalkBetween, StatedBetween, Agrees, FactsOf, Quiescent;
    if StillLeads(m, fs) {
      StillLeadsIsEnough(m, fs);
    } else {
      var p: Site, c: Site :| p.Exported() && c.Exported() && WalkBetween(m, p, c) && !StatedBetween(m, fs, p, c);
      LeadsNoMore(m, fs, p, c);
      TellsApart(m, FactsOf(m), fs, {Label(p, true), Label(c, false)});
    }
  }

  /** The entries of the kept sites, but for `h`. */
  ghost function CutEntry(m: Mapping, h: Site): Mapping {
    map s | s in m && Kept(m, s) && s != h :: m[s]
  }

  lemma CutFacts(m: Mapping, h: Site, s: Site, f: Fact)
    requires s in m && Kept(m, s) && s != h && f in FactsAt(m, s)
    ensures f in FactsOf(CutEntry(m, h))
  {
    assert s in CutEntry(m, h) && FactsAt(CutEntry(m, h), s) == FactsAt(m, s);
    hide Kept;
  }

  lemma CutIsPart(m: Mapping, h: Site)
    requires !h.Exported()
    ensures PartOf(FactsOf(CutEntry(m, h)), m)
  {
    forall s, v | Labelled(m, s, v) && s.Exported() ensures Label(s, v) in FactsOf(CutEntry(m, h)) {
      assert Kept(m, s);
      CutFacts(m, h, s, Label(s, v));
    }
    hide Kept;
    forall f | f in FactsOf(CutEntry(m, h)) ensures f in FactsOf(m) {
      var s :| s in CutEntry(m, h) && f in FactsAt(CutEntry(m, h), s);
      assert f in FactsAt(m, s);
    }
  }

  lemma {:induction false} AlongCut(m: Mapping, h: Site, w: seq<Site>, i: nat)
    requires Quiescent(m) && Walk(m, w) && w[0].Exported() && w[|w| - 1].Exported() && i < |w|
    ensures StatedBetween(m, FactsOf(CutEntry(m, h)), w[0], w[i])
  {
    var fs := FactsOf(CutEntry(m, h));
    if i == 0 {
      StatedEnd(m, fs, w[0], w[0]);
    } else {
      AlongCut(m, h, w, i - 1);
      var y, z := w[i - 1], w[i];
      FromExportedAlong(m, w, i - 1);
      ToExportedAlong(m, w, i - 1);
      FromExportedAlong(m, w, i);
      ToExportedAlong(m, w, i);
      assert Flows(m, w[i - 1], w[i - 1 + 1]) && SettledForward(m, y, z, {});
      if y != z {
        var s := if y != h then y else z;
        CutFacts(m, h, s, Implication(y, z));
        StatedOn(m, fs, w[0], y, z);
      }
    }
  }

  /** Any one hidden entry is spare: its edges are recorded at their other ends as well. */
  lemma OneEntryIsSpare(m: Mapping, h: Site)
    requires Quiescent(m) && !h.Exported()
    ensures Agrees(m, FactsOf(m), FactsOf(CutEntry(m, h)))
  {
    CutIsPart(m, h);
    forall p: Site, c: Site | p.Exported() && c.Exported() && WalkBetween(m, p, c)
      ensures StatedBetween(m, FactsOf(CutEntry(m, h)), p, c)
    {
      var w: seq<Site> :| Walk(m, w) && w[0] == p && w[|w| - 1] == c;
      AlongCut(m, h, w, |w| - 1);
    }
    StillLeadsIsEnough(m, FactsOf(CutEntry(m, h)));
  }

  /** What the map says without a word about `h`. */
  ghost function Unmentioned(m: Mapping, h: Site): set<Fact> {
    set f | f in FactsOf(m) && h !in FactSites(f)
  }

  ghost predicate AroundBetween(m: Mapping, h: Site, p: Site, c: Site) {
    exists w: seq<Site> :: Walk(m, w) && w[0] == p && w[|w| - 1] == c && h !in w
  }

  lemma EdgeIsUnmentioned(m: Mapping, h: Site, y: Site, z: Site)
    requires Flows(m, y, z)
    ensures Implication(y, z) in Unmentioned(m, h) <==> y != h && z != h
  {
    assert Implication(y, z) in FactsAt(m, y);
  }

  lemma StatedIsAround(m: Mapping, h: Site, w: seq<Site>)
    requires Walk(m, w) && w[0] != h
    ensures Stated(m, Unmentioned(m, h), w) <==> h !in w
  {
    forall i | 0 <= i < |w| - 1
      ensures Implication(w[i], w[i + 1]) in Unmentioned(m, h) <==> w[i] != h && w[i + 1] != h
    {
      EdgeIsUnmentioned(m, h, w[i], w[i + 1]);
    }
    hide Walk, Unmentioned;
    if Stated(m, Unmentioned(m, h), w) {
      forall i | 0 <= i < |w| ensures w[i] != h {
        assert i > 0 ==> Implication(w[i - 1], w[i - 1 + 1]) in Unmentioned(m, h);
      }
    }
  }

  lemma AroundIsStated(m: Mapping, h: Site, p: Site, c: Site)
    requires p != h
    ensures StatedBetween(m, Unmentioned(m, h), p, c) <==> AroundBetween(m, h, p, c)
  {
    forall w: seq<Site> | Walk(m, w) && w[0] == p ensures Stated(m, Unmentioned(m, h), w) <==> h !in w {
      StatedIsAround(m, h, w);
    }
    assert forall w: seq<Site> :: Stated(m, Unmentioned(m, h), w) ==> Walk(m, w);
    hide Walk, Stated, Unmentioned;
  }

  /** A hidden site can be forgotten altogether exactly if there is a way around it wherever the map
      leads from one exported site to another. */
  lemma ForgettableExactly(m: Mapping, h: Site)
    requires Quiescent(m) && !h.Exported()
    ensures Agrees(m, FactsOf(m), Unmentioned(m, h)) <==>
      forall p: Site, c: Site :: p.Exported() && c.Exported() && WalkBetween(m, p, c) ==> AroundBetween(m, h, p, c)
  {
    var fs := Unmentioned(m, h);
    forall s, v | Labelled(m, s, v) && s.Exported() ensures Label(s, v) in fs {
      assert Label(s, v) in FactsAt(m, s);
    }
    forall p: Site, c: Site | p.Exported() ensures StatedBetween(m, fs, p, c) <==> AroundBetween(m, h, p, c) {
      AroundIsStated(m, h, p, c);
    }
    hide Quiescent, WalkBetween, AroundBetween, StatedBetween, Agrees, FactsOf;
    PartExactly(m, fs);
  }
}
