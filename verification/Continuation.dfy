// A package after another one, in two ways: continuing with the engine of the first, or importing its
// export into a new engine.
module Continuation {
  import opened Annotation
  import opened OrderedMaps
  import opened InferredMaps
  import opened Constraints
  import opened Explanation
  import opened Progress
  import opened Verdict
  import opened InferenceEngine
  import opened Export
  import opened Incremental
  import opened Modular
  import opened Forgetting
  import opened Batches
  import opened Reporting
  import opened Accumulation

  ghost predicate AgreesOn(m: Mapping, fs: set<Fact>, fs': set<Fact>, d: set<Fact>) {
    && (Satisfiable(fs + d) <==> Satisfiable(fs' + d))
    && forall s, v :: Visible(m, s) ==> (Forced(fs + d, s, v) <==> Forced(fs' + d, s, v))
  }

  /** No later package can tell `fs` from `fs'`. */
  ghost predicate Agrees(m: Mapping, fs: set<Fact>, fs': set<Fact>) {
    forall d: set<Fact> :: AllVisible(m, d) ==> AgreesOn(m, fs, fs', d)
  }

  lemma AgreesMore(m: Mapping, fs: set<Fact>, fs': set<Fact>, d: set<Fact>)
    requires Agrees(m, fs, fs') && AllVisible(m, d)
    ensures Agrees(m, fs + d, fs' + d)
  {
    hide Forced, Satisfiable, Visible;
    forall e: set<Fact> | AllVisible(m, e) ensures AgreesOn(m, fs + d, fs' + d, e) {
      assert (fs + d) + e == fs + (d + e) && (fs' + d) + e == fs' + (d + e);
      assert AllVisible(m, d + e);
      assert AgreesOn(m, fs, fs', d + e);
    }
  }

  lemma AgreesNow(m: Mapping, fs: set<Fact>, fs': set<Fact>)
    requires Agrees(m, fs, fs')
    ensures Satisfiable(fs) <==> Satisfiable(fs')
    ensures forall s, v :: Visible(m, s) ==> (Forced(fs, s, v) <==> Forced(fs', s, v))
  {
    hide Forced, Satisfiable, Visible;
    assert AllVisible(m, {}) && fs + {} == fs && fs' + {} == fs';
    assert AgreesOn(m, fs, fs', {});
  }

  lemma AgreesTimely(m: Mapping, fs: set<Fact>, fs': set<Fact>, d: set<Fact>)
    requires Agrees(m, fs, fs') && AllVisible(m, d)
    ensures Timely(fs, d) == Timely(fs', d) && AllVisible(m, Timely(fs, d))
  {
    AgreesNow(m, fs, fs');
    hide Forced, Satisfiable, Visible, Agrees;
    forall f | f in d ensures InTime(fs, f) <==> InTime(fs', f) {
      if Guarded(f) {
        assert f.trigger.ControllerSite() in FactSites(f);
      }
    }
  }

  /** Then the same triggers take effect. */
  lemma AgreesEffective(m: Mapping, fs: set<Fact>, fs': set<Fact>, d: set<Fact>)
    requires Agrees(m, fs, fs') && AllVisible(m, d)
    ensures Effective(fs, d) == Effective(fs', d) && AllVisible(m, Effective(fs, d))
  {
    AgreesTimely(m, fs, fs', d);
    var timely := Timely(fs, d);
    AgreesMore(m, fs, fs', timely);
    AgreesNow(m, fs, fs');
    AgreesNow(m, fs + timely, fs' + timely);
    hide Forced, Satisfiable, Visible, Agrees, Timely;
    forall f | f in d ensures TakesEffect(fs, d, f) <==> TakesEffect(fs', d, f) {
      if Guarded(f) {
        assert f.trigger.ControllerSite() in FactSites(f);
      }
    }
  }

  ghost predicate AllBatchesVisible(m: Mapping, batches: seq<seq<FullTrigger>>) {
    forall b :: b in batches ==> AllVisible(m, Assertions(b))
  }

  /** And batches have the same outcome. */
  lemma {:induction false} AgreesAfter(m: Mapping, fs: set<Fact>, fs': set<Fact>, batches: seq<seq<FullTrigger>>)
    requires Agrees(m, fs, fs') && AllBatchesVisible(m, batches)
    ensures Clean(fs, batches) <==> Clean(fs', batches)
    ensures Agrees(m, After(fs, batches), After(fs', batches))
  {
    if batches == [] {
      AgreesNow(m, fs, fs');
    } else {
      var front, d := batches[..|batches| - 1], Assertions(batches[|batches| - 1]);
      assert batches[|batches| - 1] in batches;
      AgreesAfter(m, fs, fs', front);
      var now, now' := After(fs, front), After(fs', front);
      AgreesTimely(m, now, now', d);
      AgreesMore(m, now, now', Timely(now, d));
      AgreesNow(m, now + Timely(now, d), now' + Timely(now, d));
      AgreesEffective(m, now, now', d);
      AgreesMore(m, now, now', Effective(now, d));
      hide Agrees, Satisfiable, Timely, Effective, Assertions;
    }
  }

  /** No later package can tell the import from the map, conflicts or not, exactly if nothing is
      forgotten. */
  lemma ModularAgrees(m: Mapping, up: Mapping, x: Mapping)
    requires Quiescent(m) && Quiescent(up) && Grows(up, m) && IsExport(m, up, x)
    ensures Agrees(m, FactsOf(m), FactsOf(up) + FactsOf(x)) <==> NothingForgotten(m, up, x)
  {
    hide Quiescent, Grows, IsExport, NothingForgotten, Forced, Satisfiable, FactsOf, Visible;
    if NothingForgotten(m, up, x) {
      forall d: set<Fact> | AllVisible(m, d) ensures AgreesOn(m, FactsOf(m), FactsOf(up) + FactsOf(x), d) {
        NothingForgottenSuffices(m, up, x, d);
      }
    }
    if Agrees(m, FactsOf(m), FactsOf(up) + FactsOf(x)) {
      forall d: set<Fact> | AllVisible(m, d)
        ensures Satisfiable(Imported(up, x, d)) <==> Satisfiable(FactsOf(m) + d)
      {
        assert AgreesOn(m, FactsOf(m), FactsOf(up) + FactsOf(x), d);
      }
      ModularExactly(m, up, x);
    }
  }

  ghost predicate SameSolutions(fs: set<Fact>, fs': set<Fact>) {
    forall a: Labelling :: AllHold(a, fs) <==> AllHold(a, fs')
  }

  lemma SameSolutionsMore(fs: set<Fact>, fs': set<Fact>, d: set<Fact>)
    requires SameSolutions(fs, fs')
    ensures SameSolutions(fs + d, fs' + d)
  {
    forall a: Labelling ensures AllHold(a, fs + d) <==> AllHold(a, fs' + d) {
      BothHold(a, fs, d);
      BothHold(a, fs', d);
    }
    hide AllHold;
  }

  lemma SameSolutionsAgree(m: Mapping, fs: set<Fact>, fs': set<Fact>)
    requires SameSolutions(fs, fs')
    ensures Agrees(m, fs, fs')
  {
    forall d: set<Fact> ensures AgreesOn(m, fs, fs', d) {
      SameSolutionsMore(fs, fs', d);
      hide AllHold;
    }
    hide AgreesOn, AllHold;
  }

  lemma AgreesTransitive(m: Mapping, f0: set<Fact>, f1: set<Fact>, f2: set<Fact>)
    requires Agrees(m, f0, f1) && Agrees(m, f1, f2)
    ensures Agrees(m, f0, f2)
  {
    hide Forced, Satisfiable, Visible;
    forall d: set<Fact> | AllVisible(m, d) ensures AgreesOn(m, f0, f2, d) {
      assert AgreesOn(m, f0, f1, d) && AgreesOn(m, f1, f2, d);
    }
  }

  /** The facts that a new engine imports mean the upstream map and the export. */
  lemma ImportMeans(facts: seq<OMap<Site, InferredVal>>, x: OMap<Site, InferredVal>, up: Mapping)
    requires SaysUpstream(facts, up)
    ensures SameSolutions(FactsOf(up) + FactsOf(x.vals), FactsOfAll(facts + [x]))
  {
    assert FactsOfAll(facts + [x]) == FactsOfAll(facts) + FactsOf(x.vals) by {
      FactsOfNext(facts + [x], |facts|);
      assert (facts + [x])[..|facts|] == facts && (facts + [x])[..|facts| + 1] == facts + [x];
    }
    forall a: Labelling
      ensures AllHold(a, FactsOf(up) + FactsOf(x.vals)) <==> AllHold(a, FactsOfAll(facts) + FactsOf(x.vals))
    {
      BothHold(a, FactsOf(up), FactsOf(x.vals));
      BothHold(a, FactsOfAll(facts), FactsOf(x.vals));
      FactsAreModels(a, up);
      hide FactsOf, FactsOfAll, Models, AllHold;
    }
  }

  lemma ExportExplained(m: Mapping, up: Mapping, x: Mapping, ev: set<Evidence>)
    requires IsExport(m, up, x) && Explained(m, ev)
    ensures Explained(x, ev)
  {
    hide Kept, Justified;
    forall s | Determined(x, s) ensures Justified(x[s].b, s, ev) {
      assert Entry(m, up, x, s, Kept(m, s));
      assert Determined(m, s) && m[s] == x[s];
    }
    forall p, c | Flows(x, p, c) ensures Edge(p, c, Implicates(x, p).vals[c]) in ev {
      assert Entry(m, up, x, p, Kept(m, p));
      assert Flows(m, p, c);
    }
    forall p, c | FlowsBack(x, p, c) ensures Edge(p, c, Implicants(x, c).vals[p]) in ev {
      assert Entry(m, up, x, c, Kept(m, c));
      assert FlowsBack(m, p, c);
    }
  }

  lemma ExplainedFacts(facts: seq<OMap<Site, InferredVal>>, x: OMap<Site, InferredVal>,
                       ev: set<Evidence>, ev': set<Evidence>)
    requires (forall y :: y in facts ==> Explained(y.vals, ev)) && Explained(x.vals, ev')
    ensures forall y :: y in facts + [x] ==> Explained(y.vals, ev + ev')
  {
    hide Explained;
    forall y | y in facts + [x] ensures Explained(y.vals, ev + ev') {
      if y in facts {
        ExplainedMonotone(y.vals, ev, ev + ev');
      } else {
        ExplainedMonotone(x.vals, ev', ev + ev');
      }
    }
  }

  lemma EmptyTable(table: Table, st: State, st': State)
    requires table == map[] && OnlyFrom(st, st', table, {}) && st.built <= st'.built
    ensures st'.built == st.built
  {
  }

  /** A new package starts in an engine that goes on. */
  method GoOn(e: Engine, annotations: seq<(Key, bool, bool)>) returns (reported: seq<Conflict>)
    requires e.Valid()
    modifies e, e.inferredMap
    ensures e.Valid() && reported == old(e.conflicts)
    ensures Tells(e.Now(), Satisfiable(FactsOf(old(e.M())) + AnnotationFacts(annotations)),
                  FactsOf(old(e.M())) + AnnotationFacts(annotations))
  {
    hide Settled, AllBacked, Sound, WellControlled, Grows, BatchOk, Tells, AnnotationFacts, FactsOf, Satisfiable;
    reported := e.HandOver();
    ghost var st, history := e.Now(), e.history;
    ValidParts(st, e.controlledTriggersBySite, e.history, e.inferredMap.upstreamMapping);
    WholeTells(st);
    e.ObserveAnnotations(annotations);
    EmptyTable(e.controlledTriggersBySite, st, e.Now());
    ValidParts(e.Now(), e.controlledTriggersBySite, e.history, e.inferredMap.upstreamMapping);
    NoneGuardedAnnotations(annotations);
    AnnotationsTell(st, history, FactsOf(st.m), AnnotationFacts(annotations), e.Now());
  }

  lemma NoneGuardedAnnotations(annotations: seq<(Key, bool, bool)>)
    ensures forall f :: f in AnnotationFacts(annotations) ==> !Guarded(f)
  {
  }

  /** What the reports of a later package rest on. */
  ghost predicate Inherited(imported: set<Evidence>, ev: set<Evidence>, st: State, history: set<Fact>) {
    forall e :: e in imported ==> Backed(e, ev, st.built, history)
  }

  lemma InheritedFrom(ev: set<Evidence>, st: State, history: set<Fact>)
    requires AllBacked(st.evidence, ev, st.built, history)
    ensures Inherited(ev + st.evidence, ev, st, history)
  {
    hide EvidenceOf, FromAnnotation;
  }

  lemma WholeTells(st: State)
    requires Quiescent(st.m) && st.conflicts == []
    ensures Tells(st, Satisfiable(FactsOf(st.m)), FactsOf(st.m))
  {
    forall a: Labelling ensures Models(a, st.m) <==> AllHold(a, FactsOf(st.m)) {
      FactsAreModels(a, st.m);
    }
    SameModelsSatisfiable(st.m, FactsOf(st.m));
  }

  lemma ImportAgrees(m: Mapping, up: Mapping, x: OMap<Site, InferredVal>, facts: seq<OMap<Site, InferredVal>>,
                     here: set<Fact>)
    requires Quiescent(m) && Quiescent(up) && Grows(up, m) && IsExport(m, up, x.vals)
    requires NothingForgotten(m, up, x.vals) && SaysUpstream(facts, up)
    requires AllVisible(m, here)
    ensures Agrees(m, FactsOf(m) + here, FactsOfAll(facts + [x]) + here)
  {
    ModularAgrees(m, up, x.vals);
    ImportMeans(facts, x, up);
    SameSolutionsAgree(m, FactsOf(up) + FactsOf(x.vals), FactsOfAll(facts + [x]));
    hide Agrees, FactsOf, FactsOfAll, SameSolutions, AllVisible, NothingForgotten;
    AgreesTransitive(m, FactsOf(m), FactsOf(up) + FactsOf(x.vals), FactsOfAll(facts + [x]));
    AgreesMore(m, FactsOf(m), FactsOfAll(facts + [x]), here);
  }

  /** The verdict and the labels of `st` are those of `fs` and then batches, on what `m` lets a later
      package see. */
  ghost predicate Decides(m: Mapping, fs: set<Fact>, batches: seq<seq<FullTrigger>>, st: State) {
    && (st.conflicts == [] <==> Clean(fs, batches))
    && (st.conflicts == [] ==>
         forall s, v :: Visible(m, s) ==> (Labelled(st.m, s, v) <==> Forced(After(fs, batches), s, v)))
  }

  /** A later package mentions sites of `m` only if they are exported. */
  ghost predicate Foreign(m: Mapping, annotations: seq<(Key, bool, bool)>, batches: seq<seq<FullTrigger>>) {
    AllVisible(m, AnnotationFacts(annotations)) && AllBatchesVisible(m, batches)
  }

  /** The second package in a new engine, whatever conflicts the first one had. */
  method ImportInto(first: Engine, x: OMap<Site, InferredVal>, facts: seq<OMap<Site, InferredVal>>,
                    annotations: seq<(Key, bool, bool)>, batches: seq<seq<FullTrigger>>, ghost ev: set<Evidence>)
    returns (second: Engine)
    requires first.Valid() && IsExport(first.M(), first.inferredMap.upstreamMapping, x.vals)
    requires forall y :: y in facts + [x] ==> Explained(y.vals, ev + first.evidence)
    requires forall b :: b in batches ==> BatchOk(b)
    ensures second.Valid() && fresh(second) && fresh(second.inferredMap) && second.imported == ev + first.evidence
    ensures
      (NothingForgotten(first.M(), first.inferredMap.upstreamMapping, x.vals)
       && SaysUpstream(facts, first.inferredMap.upstreamMapping) && Foreign(first.M(), annotations, batches)) ==>
      Decides(first.M(), FactsOf(first.M()) + AnnotationFacts(annotations), batches, second.Now())
  {
    hide Settled, AllBacked, Sound, WellControlled, Grows, Tells, Explained, Clean, After, Agrees, AllVisible,
      AllBatchesVisible, BatchOk, SaysUpstream, IsExport, Visible, Forced, Satisfiable, AnnotationFacts, FactsOf,
      FactsOfAll, NothingForgotten, Decides;
    ghost var m, up, here := first.M(), first.inferredMap.upstreamMapping, AnnotationFacts(annotations);
    ghost var fs, fs' := FactsOf(m) + here, FactsOfAll(facts + [x]) + here;
    second := ObserveGiven(facts + [x], annotations, ev + first.evidence);
    ObserveBatches(second, batches, fs');
    if NothingForgotten(m, up, x.vals) && SaysUpstream(facts, up) && Foreign(m, annotations, batches) {
      ValidParts(first.Now(), first.controlledTriggersBySite, first.history, up);
      ImportAgrees(m, up, x, facts, here);
      AgreesAfter(m, fs, fs', batches);
      ImportedLabels(m, second, fs, fs', batches);
    }
  }

  lemma ImportedLabels(m: Mapping, modular: Engine, fs: set<Fact>, fs': set<Fact>, batches: seq<seq<FullTrigger>>)
    requires modular.Valid() && Tells(modular.Now(), Clean(fs', batches), After(fs', batches))
    requires (Clean(fs, batches) <==> Clean(fs', batches)) && Agrees(m, After(fs, batches), After(fs', batches))
    ensures Decides(m, fs, batches, modular.Now())
  {
    hide Settled, AllBacked, Sound, WellControlled, Grows, Clean, After, Agrees, Labelled, Forced, Visible, SameModels;
    ValidParts(modular.Now(), modular.controlledTriggersBySite, modular.history, modular.inferredMap.upstreamMapping);
    if modular.conflicts == [] {
      TellsLabels(modular.Now(), Clean(fs', batches), After(fs', batches));
      AgreesNow(m, After(fs, batches), After(fs', batches));
    }
  }

  /** Without a conflict nothing is forgotten. */
  lemma CleanForgetsNothing(e: Engine, x: Mapping)
    requires e.Valid() && IsExport(e.M(), e.inferredMap.upstreamMapping, x) && e.conflicts == []
    ensures NothingForgotten(e.M(), e.inferredMap.upstreamMapping, x)
  {
    hide Settled, AllBacked, Sound, WellControlled, Grows, IsExport, NothingForgotten, NothingLost, Quiescent;
    ValidParts(e.Now(), e.controlledTriggersBySite, e.history, e.inferredMap.upstreamMapping);
    NothingLostIsEnough(e.M(), e.inferredMap.upstreamMapping, x);
  }

  /** Two ways to analyze a package that comes after `whole`: go on in the same engine, or import the
      upstream facts and the export of `whole` into a new one. If what the package observes mentions
      sites of `whole` only if they are exported, and nothing was forgotten, the new conflicts and all
      visible labels agree, controlled triggers included. Without a conflict in `whole` nothing is. */
  method ContinueOrImport(whole: Engine, facts: seq<OMap<Site, InferredVal>>, annotations: seq<(Key, bool, bool)>,
                          batches: seq<seq<FullTrigger>>, ghost ev: set<Evidence>)
    returns (modular: Engine, export_: OMap<Site, InferredVal>, reported: seq<Conflict>)
    requires whole.Valid() && SaysUpstream(facts, whole.inferredMap.upstreamMapping)
    requires (forall x :: x in facts ==> Explained(x.vals, ev)) && forall b :: b in batches ==> BatchOk(b)
    requires Foreign(whole.M(), annotations, batches)
    modifies whole, whole.inferredMap
    ensures whole.Valid() && modular.Valid() && fresh(modular) && reported == old(whole.conflicts)
    ensures IsExport(old(whole.M()), old(whole.inferredMap.upstreamMapping), export_.vals)
    ensures Decides(old(whole.M()), FactsOf(old(whole.M())) + AnnotationFacts(annotations), batches, whole.Now())
    ensures NothingForgotten(old(whole.M()), old(whole.inferredMap.upstreamMapping), export_.vals) ==>
      Decides(old(whole.M()), FactsOf(old(whole.M())) + AnnotationFacts(annotations), batches, modular.Now())
    ensures reported == [] ==> NothingForgotten(old(whole.M()), old(whole.inferredMap.upstreamMapping), export_.vals)
    ensures modular.imported == ev + old(whole.evidence)
  {
    hide Settled, AllBacked, Sound, WellControlled, Grows, Tells, Explained, Clean, After, Agrees, AllVisible,
      AllBatchesVisible, BatchOk, SaysUpstream, IsExport, Visible, Forced, Satisfiable, AnnotationFacts, FactsOf,
      FactsOfAll, NothingForgotten, Decides, Foreign;
    ghost var m, up, st := whole.M(), whole.inferredMap.upstreamMapping, whole.Now();
    ghost var fs := FactsOf(m) + AnnotationFacts(annotations);
    ValidParts(st, whole.controlledTriggersBySite, whole.history, up);
    export_ := ExportMap(whole.inferredMap.mapping, whole.inferredMap.upstreamMapping);
    ExportExplained(m, up, export_.vals, st.evidence);
    ExplainedFacts(facts, export_, ev, st.evidence);
    if whole.conflicts == [] {
      CleanForgetsNothing(whole, export_.vals);
    }
    modular := ImportInto(whole, export_, facts, annotations, batches, ev);
    reported := GoOn(whole, annotations);
    ObserveBatches(whole, batches, fs);
    ContinuedLabels(m, whole, fs, batches);
  }

  lemma ContinuedLabels(m: Mapping, whole: Engine, fs: set<Fact>, batches: seq<seq<FullTrigger>>)
    requires whole.Valid() && Tells(whole.Now(), Clean(fs, batches), After(fs, batches))
    ensures Decides(m, fs, batches, whole.Now())
  {
    hide Settled, AllBacked, Sound, WellControlled, Grows, Clean, After, Labelled, Forced, Visible, SameModels;
    ValidParts(whole.Now(), whole.controlledTriggersBySite, whole.history, whole.inferredMap.upstreamMapping);
    if whole.conflicts == [] {
      TellsLabels(whole.Now(), Clean(fs, batches), After(fs, batches));
    }
  }

  /** What two packages mean together, with no engine and no export in it. */
  ghost function Together(facts: seq<OMap<Site, InferredVal>>, annotations: seq<(Key, bool, bool)>,
                          batches: seq<seq<FullTrigger>>, annotations': seq<(Key, bool, bool)>): set<Fact> {
    After(GivenFacts(facts, annotations), batches) + AnnotationFacts(annotations')
  }

  lemma TogetherAgrees(m: Mapping, fs: set<Fact>, here: set<Fact>, batches: seq<seq<FullTrigger>>)
    requires SameModels(m, fs)
    ensures Clean(FactsOf(m) + here, batches) <==> Clean(fs + here, batches)
    ensures forall s, v :: Forced(After(FactsOf(m) + here, batches), s, v) <==> Forced(After(fs + here, batches), s, v)
  {
    forall a: Labelling ensures AllHold(a, FactsOf(m)) <==> AllHold(a, fs) {
      FactsAreModels(a, m);
    }
    assert SameSolutions(FactsOf(m), fs);
    hide FactsOf, SameModels, Forced, SameSolutions, AllHold, Agrees, Visible, AllVisible, AllBatchesVisible;
    SameSolutionsMore(FactsOf(m), fs, here);
    SameSolutionsAgree(map[], FactsOf(m) + here, fs + here);
    EverythingVisible(batches);
    AgreesAfter(map[], FactsOf(m) + here, fs + here, batches);
    AgreesNow(map[], After(FactsOf(m) + here, batches), After(fs + here, batches));
  }

  lemma EverythingVisible(batches: seq<seq<FullTrigger>>)
    ensures AllBatchesVisible(map[], batches) && forall s :: Visible(map[], s)
  {
  }

  /** Upstream facts, then one package, then another one that imports its export. If nothing was
      forgotten, the second verdict and its labels on visible sites are those of the map of the first
      package and the second package; without a conflict in the first, nothing was, and they are those
      of both packages together. */
  method TwoPackages(facts: seq<OMap<Site, InferredVal>>, ghost ev: set<Evidence>,
                     annotations: seq<(Key, bool, bool)>, triggers: seq<FullTrigger>, filtered: seq<FullTrigger>,
                     annotations': seq<(Key, bool, bool)>, batches': seq<seq<FullTrigger>>)
    returns (first: Engine, export_: OMap<Site, InferredVal>, second: Engine)
    requires (forall x :: x in facts ==> Explained(x.vals, ev)) && BatchOk(triggers) && BatchOk(filtered)
    requires forall b :: b in batches' ==> BatchOk(b)
    ensures first.Valid() && second.Valid()
    ensures first.conflicts == [] <==> Clean(GivenFacts(facts, annotations), [triggers, filtered])
    ensures
      (Satisfiable(FactsOfAll(facts)) && Foreign(first.M(), annotations', batches')
       && NothingForgotten(first.M(), first.inferredMap.upstreamMapping, export_.vals)) ==>
      Decides(first.M(), FactsOf(first.M()) + AnnotationFacts(annotations'), batches', second.Now())
    ensures first.conflicts == [] && Foreign(first.M(), annotations', batches') ==>
      Decides(first.M(), Together(facts, annotations, [triggers, filtered], annotations'), batches', second.Now())
    ensures Inherited(second.imported, ev, first.Now(), first.history)
  {
    hide Settled, AllBacked, Sound, WellControlled, Grows, Tells, Explained, Clean, After, Agrees, AllVisible,
      Accounted, Leaks, AllBatchesVisible, BatchOk, SaysUpstream, IsExport, Visible, Forced, Satisfiable,
      AnnotationFacts, FactsOf, FactsOfAll, NothingForgotten, Decides, Foreign, Together;
    var diagnostics;
    first, export_, diagnostics := AnalyzePackage(facts, annotations, triggers, filtered, ev);
    ValidParts(first.Now(), first.controlledTriggersBySite, first.history, first.inferredMap.upstreamMapping);
    InheritedFrom(ev, first.Now(), first.history);
    ExportExplained(first.M(), first.inferredMap.upstreamMapping, export_.vals, first.evidence);
    ExplainedFacts(facts, export_, ev, first.evidence);
    second := ImportInto(first, export_, facts, annotations', batches', ev);
    TellsVerdict(first.Now(), Clean(GivenFacts(facts, annotations), [triggers, filtered]),
                 After(GivenFacts(facts, annotations), [triggers, filtered]));
    if first.conflicts == [] && Foreign(first.M(), annotations', batches') {
      CleanForgetsNothing(first, export_.vals);
      DecidesTogether(facts, annotations, [triggers, filtered], annotations', batches', first.Now(), second.Now());
    }
  }

  lemma DecidesTogether(facts: seq<OMap<Site, InferredVal>>, annotations: seq<(Key, bool, bool)>,
                        batches: seq<seq<FullTrigger>>, annotations': seq<(Key, bool, bool)>,
                        batches': seq<seq<FullTrigger>>, first: State, second: State)
    requires first.conflicts == []
    requires Tells(first, Clean(GivenFacts(facts, annotations), batches),
                   After(GivenFacts(facts, annotations), batches))
    requires Decides(first.m, FactsOf(first.m) + AnnotationFacts(annotations'), batches', second)
    ensures Decides(first.m, Together(facts, annotations, batches, annotations'), batches', second)
  {
    TogetherAgrees(first.m, After(GivenFacts(facts, annotations), batches), AnnotationFacts(annotations'), batches');
    hide After, Clean, FactsOf, AnnotationFacts, Labelled, Forced, SameModels, Visible;
  }

  lemma TellsVerdict(st: State, clean: bool, fs: set<Fact>)
    requires Tells(st, clean, fs)
    ensures st.conflicts == [] <==> clean
  {
  }
}
