// The analysis of one package (accumulation/analyzer.go), on engines: the verdict, the labels, the
// reports and the export.
module Accumulation {
  import opened Annotation
  import opened OrderedMaps
  import opened InferredMaps
  import opened Constraints
  import opened Explanation
  import opened Progress
  import opened Effects
  import opened Verdict
  import opened InferenceEngine
  import opened Incremental
  import opened Batches
  import opened Diagnostic
  import opened Reporting

  /** Batch after batch. */
  method ObserveBatches(e: Engine, batches: seq<seq<FullTrigger>>, ghost fs: set<Fact>)
    requires e.Valid() && Tells(e.Now(), Satisfiable(fs), fs) && forall b :: b in batches ==> BatchOk(b)
    modifies e`conflicts, e`built, e`evidence, e`history, e`universe, e`controlledTriggersBySite, e.inferredMap`mapping
    ensures e.Valid() && Extends(old(e.Now()), e.Now())
    ensures e.history == old(e.history) + AllAssertions(batches)
    ensures Tells(e.Now(), Clean(fs, batches), After(fs, batches))
    ensures AllBuilt(batches, e.Now()) && KeepsTold(old(e.Now()), e.Now())
  {
    hide Settled, AllBacked, Sound, WellControlled, Grows, BatchOk, Fires, Tells, Clean, After, AllAssertions, TableFor;
    hide Acted, AllMet, BuiltIn, AllBuilt, KeepsTold, Faithful;
    Unchanged(e.Now());
    NoneBuilt(batches, e.Now());
    NoBatches(fs, e.Now(), batches);
    for i := 0 to |batches|
      invariant e.Valid() && Extends(old(e.Now()), e.Now())
      invariant e.history == old(e.history) + AllAssertions(batches[..i])
      invariant Tells(e.Now(), Clean(fs, batches[..i]), After(fs, batches[..i]))
      invariant AllBuilt(batches[..i], e.Now()) && KeepsTold(old(e.Now()), e.Now())
    {
      ghost var st, history := e.Now(), e.history;
      AllAssertionsNext(batches, i);
      assert batches[i] in batches;
      ValidParts(e.Now(), e.controlledTriggersBySite, e.history, e.inferredMap.upstreamMapping);
      e.BuildPkgInferenceMap(batches[i]);
      ValidParts(e.Now(), e.controlledTriggersBySite, e.history, e.inferredMap.upstreamMapping);
      assert e.history == history + Assertions(batches[i]);
      BatchTells(st, history, fs, batches[..i], batches[i], e.Now());
      BatchBuilt(e.controlledTriggersBySite, old(e.Now()), st, batches, i, e.Now());
      ExtendsTransitive(old(e.Now()), st, e.Now());
    }
    assert batches[..|batches|] == batches;
  }

  /** Every trigger that no controller guards was built. */
  ghost predicate AllBuilt(batches: seq<seq<FullTrigger>>, st: State) {
    forall b, t :: b in batches && t in b && !t.Controlled() ==> t in st.built
  }

  ghost predicate KeepsTold(st: State, st': State) {
    forall p, c :: Told(st, p, c) ==> Told(st', p, c)
  }

  lemma NoneBuilt(batches: seq<seq<FullTrigger>>, st: State)
    ensures AllBuilt(batches[..0], st) && KeepsTold(st, st)
  {
    hide Told;
  }

  lemma BatchBuilt(table: Table, start: State, st: State, batches: seq<seq<FullTrigger>>, i: nat, st': State)
    requires i < |batches| && Extends(st, st') && AllBuilt(batches[..i], st) && KeepsTold(start, st)
    requires Acted(table, st, {}, st', {}, {}) && Fires(st, batches[i], st')
    ensures AllBuilt(batches[..i + 1], st') && KeepsTold(start, st')
  {
    hide KeepsEdges, Roused, NewMet, Told, Grows, Labelled;
    StillTold(table, st, st');
    assert batches[..i + 1] == batches[..i] + [batches[i]];
  }

  lemma NoBatches(fs: set<Fact>, st: State, batches: seq<seq<FullTrigger>>)
    ensures Tells(st, Satisfiable(fs), fs) ==> Tells(st, Clean(fs, batches[..0]), After(fs, batches[..0]))
    ensures AllAssertions(batches[..0]) == {}
  {
    assert batches[..0] == [];
  }

  lemma ValidParts(st: State, table: Table, history: set<Fact>, up: Mapping)
    requires Sound(st, {}) && Settled(st, table, history, up)
    ensures Quiescent(st.m) && Faithful(st, history) && BuiltAreNilable(st) && Explained(st.m, st.evidence)
    ensures AllBuildable(history)
    ensures Quiescent(up) && Grows(up, st.m) && (st.conflicts == [] ==> NothingLost(up, st.m))
  {
  }

  /** Without controlled triggers, what was observed is what the state tells. */
  lemma TellsHistory(st: State, history: set<Fact>)
    requires Quiescent(st.m) && Faithful(st, history) && forall f :: f in history ==> !Guarded(f)
    ensures Tells(st, Satisfiable(history), history)
  {
    assert Awake(history, st.built) == history;
    VerdictIsExact(st, history);
  }

  lemma NoneGuarded(facts: seq<OMap<Site, InferredVal>>, annotations: seq<(Key, bool, bool)>)
    ensures forall f :: f in FactsOfAll(facts) + AnnotationFacts(annotations) ==> !Guarded(f)
  {
  }

  /** `facts` say what the engine imported. */
  ghost predicate SaysUpstream(facts: seq<OMap<Site, InferredVal>>, up: Mapping) {
    SameModels(up, FactsOfAll(facts))
  }

  /** The upstream snapshot says exactly what the upstream facts say, unless they contradict each other. */
  lemma SnapshotSaysUpstream(st: State, facts: seq<OMap<Site, InferredVal>>)
    requires Quiescent(st.m) && Faithful(st, FactsOfAll(facts))
    ensures Satisfiable(FactsOfAll(facts)) ==> SaysUpstream(facts, st.m)
  {
    NoneGuarded(facts, []);
    assert FactsOfAll(facts) + AnnotationFacts([]) == FactsOfAll(facts);
    TellsHistory(st, FactsOfAll(facts));
  }

  /** What a run that starts with these inputs knows before its first batch. */
  ghost function GivenFacts(facts: seq<OMap<Site, InferredVal>>, annotations: seq<(Key, bool, bool)>): set<Fact> {
    FactsOfAll(facts) + AnnotationFacts(annotations)
  }

  /** Every imported map and every annotation was observed. */
  ghost predicate GivenTold(facts: seq<OMap<Site, InferredVal>>, annotations: seq<(Key, bool, bool)>, st: State) {
    && (forall x :: x in facts ==> MapTold(x.vals, st))
    && (forall x :: x in annotations ==> LabelMet(NoState(), Site(x.0, x.1), AnnotationReason(x), st))
  }

  lemma FactsTold(table: Table, facts: seq<OMap<Site, InferredVal>>, st: State)
    requires forall x :: x in facts ==> MapMet(table, NoState(), x.vals, st)
    ensures GivenTold(facts, [], st)
  {
    hide MapMet, MapTold;
    forall x | x in facts ensures MapTold(x.vals, st) {
      MapIsTold(table, x.vals, st);
    }
  }

  lemma StillGiven(facts: seq<OMap<Site, InferredVal>>, annotations: seq<(Key, bool, bool)>, st: State, st': State)
    requires GivenTold(facts, annotations, st) && Extends(st, st') && KeepsTold(st, st')
    ensures GivenTold(facts, annotations, st')
  {
    hide MapTold, LabelMet, Told, Grows;
    forall x | x in facts ensures MapTold(x.vals, st') {
      MapStillTold(x.vals, st, st');
    }
    forall x | x in annotations ensures LabelMet(NoState(), Site(x.0, x.1), AnnotationReason(x), st') {
      LabelMetThen(NoState(), Site(x.0, x.1), AnnotationReason(x), st, st');
    }
  }

  lemma AnnotationsTold(table: Table, facts: seq<OMap<Site, InferredVal>>, annotations: seq<(Key, bool, bool)>,
                        st: State, st': State)
    requires GivenTold(facts, [], st) && Extends(st, st') && Acted(table, st, {}, st', {}, {})
    requires forall x :: x in annotations ==>
      HeedsLabel(table, st, Site(x.0, x.1), AnnotationReason(x), st', {})
    ensures GivenTold(facts, annotations, st')
  {
    StillTold(table, st, st');
    hide MapTold, LabelMet, Told, Grows, WaitersMet;
    StillGiven(facts, [], st, st');
    FromNothing(st);
    forall x | x in annotations ensures LabelMet(NoState(), Site(x.0, x.1), AnnotationReason(x), st') {
      LabelMetThen(NoState(), Site(x.0, x.1), AnnotationReason(x), st, st');
    }
  }

  /** Upstream facts and annotations, into a new engine. */
  method ObserveGiven(facts: seq<OMap<Site, InferredVal>>, annotations: seq<(Key, bool, bool)>, ghost ev: set<Evidence>)
    returns (e: Engine)
    requires forall x :: x in facts ==> Explained(x.vals, ev)
    ensures fresh(e) && fresh(e.inferredMap) && e.Valid() && e.history == GivenFacts(facts, annotations) &&
      e.imported == ev
    ensures Tells(e.Now(), Satisfiable(e.history), e.history)
    ensures Satisfiable(FactsOfAll(facts)) ==> SaysUpstream(facts, e.inferredMap.upstreamMapping)
    ensures GivenTold(facts, annotations, e.Now())
  {
    hide Settled, AllBacked, Sound, WellControlled, Grows, Explained, Tells, FactsOfAll, SaysUpstream, AnnotationFacts;
    hide GivenTold, Acted, HeedsLabel, MapMet, AllMet, Faithful, Satisfiable, OnlyFrom, AllBuildable, BuiltAreNilable;
    e := new Engine();
    assert e.Now() == NoState();
    e.ObserveUpstream(facts, ev);
    ghost var st := e.Now();
    FactsTold(e.controlledTriggersBySite, facts, st);
    ValidParts(st, e.controlledTriggersBySite, e.history, e.inferredMap.upstreamMapping);
    assert e.history == FactsOfAll(facts);
    SnapshotSaysUpstream(st, facts);
    e.ObserveAnnotations(annotations);
    AnnotationsTold(e.controlledTriggersBySite, facts, annotations, st, e.Now());
    ValidParts(e.Now(), e.controlledTriggersBySite, e.history, e.inferredMap.upstreamMapping);
    NoneGuarded(facts, annotations);
    TellsHistory(e.Now(), e.history);
  }

  lemma TellsLabels(st: State, clean: bool, fs: set<Fact>)
    requires Tells(st, clean, fs) && Quiescent(st.m) && st.conflicts == []
    ensures forall s, v :: Labelled(st.m, s, v) <==> Forced(fs, s, v)
  {
    hide Quiescent, Labelled, Forced, SameModels;
    forall s, v ensures Labelled(st.m, s, v) <==> Forced(fs, s, v) {
      LabelsAreForced(st.m, fs, s, v);
    }
  }

  /** One package: upstream facts, annotations, the first batch of triggers and the second one that
      is left after filtering; then the reports and the export. Verdict and labels are those of the
      facts in effect, which depend on nothing but the inputs. */
  method AnalyzePackage(facts: seq<OMap<Site, InferredVal>>, annotations: seq<(Key, bool, bool)>,
                        triggers: seq<FullTrigger>, filtered: seq<FullTrigger>, ghost ev: set<Evidence>)
    returns (e: Engine, export_: OMap<Site, InferredVal>, diagnostics: DiagnosticEngine)
    requires forall x :: x in facts ==> Explained(x.vals, ev)
    requires BatchOk(triggers) && BatchOk(filtered)
    ensures fresh(e) && fresh(e.inferredMap) && e.Valid() && e.imported == ev
    ensures e.history == GivenFacts(facts, annotations) + AllAssertions([triggers, filtered])
    ensures Tells(e.Now(), Clean(GivenFacts(facts, annotations), [triggers, filtered]),
                  After(GivenFacts(facts, annotations), [triggers, filtered]))
    ensures e.conflicts == [] ==> forall s, v ::
      Labelled(e.M(), s, v) <==> Forced(After(GivenFacts(facts, annotations), [triggers, filtered]), s, v)
    ensures Satisfiable(e.history) ==> e.conflicts == []
    ensures e.conflicts == [] ==>
      (LeastSolution(Nilables(e.M()), e.history) <==>
       forall f :: Overslept(GivenFacts(facts, annotations), [triggers, filtered], f) ==>
         Holds(Nilables(e.M()), Unguarded(f.trigger)))
    ensures Satisfiable(FactsOfAll(facts)) ==> SaysUpstream(facts, e.inferredMap.upstreamMapping)
    ensures e.conflicts == [] ==> Satisfiable(FactsOfAll(facts))
    ensures GivenTold(facts, annotations, e.Now()) && AllBuilt([triggers, filtered], e.Now()) && AllMet(e.Now())
    ensures IsExport(e.M(), e.inferredMap.upstreamMapping, export_.vals)
    ensures diagnostics.conflicts == ReportsOf(e.conflicts) && |diagnostics.conflicts| == |e.conflicts|
    ensures forall i :: 0 <= i < |e.conflicts| ==> Accounted(diagnostics.conflicts[i], ev, e.built, e.history)
    ensures e.conflicts != [] <==> Leaks(Awake(e.history, e.built))
  {
    hide Settled, AllBacked, Sound, WellControlled, Grows, Explained, Tells, SaysUpstream, After, Clean, BatchOk;
    hide Labelled, Forced;
    hide Accounted, Leaks, IsExport, ReportsOf, Holds, Satisfiable, LeastSolution, Overslept, AllAssertions;
    hide FactsOfAll, AnnotationFacts, GivenTold, AllBuilt, AllMet, KeepsTold;
    NoneGuarded(facts, annotations);
    e := ObserveGiven(facts, annotations, ev);
    ghost var given := e.Now();
    assert forall b :: b in [triggers, filtered] ==> BatchOk(b);
    ObserveBatches(e, [triggers, filtered], e.history);
    StillGiven(facts, annotations, given, e.Now());
    ValidParts(e.Now(), e.controlledTriggersBySite, e.history, e.inferredMap.upstreamMapping);
    if e.conflicts == [] {
      TellsLabels(e.Now(), Clean(GivenFacts(facts, annotations), [triggers, filtered]),
                  After(GivenFacts(facts, annotations), [triggers, filtered]));
    }
    CleanFacts(facts, annotations, [triggers, filtered], e.Now());
    OversleptExactly(e.Now(), GivenFacts(facts, annotations), [triggers, filtered]);
    AllAccounted(e.Now(), ev, e.history);
    export_ := ExportMap(e.inferredMap.mapping, e.inferredMap.upstreamMapping);
    diagnostics := Diagnose(e.conflicts);
  }

  /** Without a conflict, what was imported has a solution. */
  lemma CleanFacts(facts: seq<OMap<Site, InferredVal>>, annotations: seq<(Key, bool, bool)>,
                   batches: seq<seq<FullTrigger>>, st: State)
    requires Quiescent(st.m) && Tells(st, Clean(GivenFacts(facts, annotations), batches),
                                      After(GivenFacts(facts, annotations), batches))
    ensures st.conflicts == [] ==> Satisfiable(FactsOfAll(facts))
  {
    AfterIsGiven(GivenFacts(facts, annotations), batches);
    QuiescentModels(st.m);
    hide After, Clean, FactsOfAll, AnnotationFacts, Models;
    if st.conflicts == [] {
      assert AllHold(Nilables(st.m), After(GivenFacts(facts, annotations), batches));
      FewerHold(Nilables(st.m), FactsOfAll(facts), After(GivenFacts(facts, annotations), batches));
    }
  }

  lemma AllAccounted(st: State, imported: set<Evidence>, history: set<Fact>)
    requires Sound(st, {}) && Faithful(st, history) && AllBuildable(history)
    requires AllBacked(st.evidence, imported, st.built, history)
    ensures |ReportsOf(st.conflicts)| == |st.conflicts|
    ensures forall i :: 0 <= i < |st.conflicts| ==> Accounted(ReportsOf(st.conflicts)[i], imported, st.built, history)
    ensures st.conflicts != [] <==> Leaks(Awake(history, st.built))
  {
    assert Quiescent(st.m);
    hide Sound, Quiescent, AllBuildable, AllBacked, Accounted, Leaks, Faithful, ReportsOf;
    ReportsSize(st.conflicts);
    forall i | 0 <= i < |st.conflicts| ensures Accounted(ReportsOf(st.conflicts)[i], imported, st.built, history) {
      ReportsAreAccounted(st, imported, history, i);
    }
    ConflictIsLeak(st, history);
  }

  /** Whatever was observed, and in whatever order, one history has one verdict, and without a conflict
      the same triggers are awake and all labels are the same. */
  lemma OrderIndependent(st: State, st': State, history: set<Fact>)
    requires Quiescent(st.m) && Faithful(st, history) && BuiltAreNilable(st) && NoneOverslept(st, history)
    requires Quiescent(st'.m) && Faithful(st', history) && BuiltAreNilable(st') && NoneOverslept(st', history)
    ensures st.conflicts == [] <==> st'.conflicts == []
    ensures st.conflicts == [] ==> Awake(history, st.built) == Awake(history, st'.built)
    ensures st.conflicts == [] ==> forall s, v :: Labelled(st.m, s, v) <==> Labelled(st'.m, s, v)
  {
    WholeVerdictIsExact(st, history);
    WholeVerdictIsExact(st', history);
    if st.conflicts == [] {
      SameAwake(st, st', history);
      VerdictIsExact(st, history);
      VerdictIsExact(st', history);
      hide Quiescent, Faithful, Forced, Labelled, Awake, AllHold, Satisfiable;
    }
  }

  lemma SameAwake(st: State, st': State, history: set<Fact>)
    requires Faithful(st, history) && BuiltAreNilable(st) && NoneOverslept(st, history) && st.conflicts == []
    requires Faithful(st', history) && BuiltAreNilable(st') && NoneOverslept(st', history) && st'.conflicts == []
    requires Nilables(st.m) <= Nilables(st'.m) <= Nilables(st.m)
    ensures Awake(history, st.built) == Awake(history, st'.built)
  {
    forall s ensures Labelled(st.m, s, true) <==> Labelled(st'.m, s, true) {
      assert s in Nilables(st.m) <==> s in Nilables(st'.m);
    }
    hide Faithful, Labelled;
    forall f | f in history ensures Dormant(f, st.built) <==> Dormant(f, st'.built) {
    }
  }

  /** The same inputs, each batch in whatever order: the same verdict, and without a conflict the same
      labels. */
  lemma BatchesInAnyOrder(st: State, st': State, fs: set<Fact>, batches: seq<seq<FullTrigger>>,
                          batches': seq<seq<FullTrigger>>)
    requires Quiescent(st.m) && Tells(st, Clean(fs, batches), After(fs, batches))
    requires Quiescent(st'.m) && Tells(st', Clean(fs, batches'), After(fs, batches'))
    requires SameBatches(batches, batches')
    ensures st.conflicts == [] <==> st'.conflicts == []
    ensures st.conflicts == [] ==> forall s, v :: Labelled(st.m, s, v) <==> Labelled(st'.m, s, v)
  {
    SameOutcome(fs, batches, batches');
    hide Quiescent, Clean, After, Labelled, Forced, SameModels;
    if st.conflicts == [] {
      TellsLabels(st, Clean(fs, batches), After(fs, batches));
      TellsLabels(st', Clean(fs, batches'), After(fs, batches'));
    }
  }

  ghost predicate SameBatches(batches: seq<seq<FullTrigger>>, batches': seq<seq<FullTrigger>>) {
    |batches| == |batches'| && forall i :: 0 <= i < |batches| ==> Assertions(batches[i]) == Assertions(batches'[i])
  }

  lemma {:induction false} SameOutcome(fs: set<Fact>, batches: seq<seq<FullTrigger>>, batches': seq<seq<FullTrigger>>)
    requires SameBatches(batches, batches')
    ensures Clean(fs, batches) <==> Clean(fs, batches')
    ensures After(fs, batches) == After(fs, batches')
  {
    if batches != [] {
      SameOutcome(fs, batches[..|batches| - 1], batches'[..|batches| - 1]);
      hide Satisfiable, Timely, Effective, Assertions;
    }
  }

  /** A batch started when none of its controllers was nilable oversleeps nothing of its own. */
  lemma FreshBatchIsExact(st: State, history: set<Fact>, triggers: seq<FullTrigger>, st': State)
    requires Extends(st, st') && Fires(st, triggers, st')
    requires forall t :: t in triggers && t.Controlled() ==> !Labelled(st.m, t.ControllerSite(), true)
    ensures forall f ::
      (f in history + Assertions(triggers) && Dormant(f, st'.built)
       && Labelled(st'.m, f.trigger.ControllerSite(), true))
      ==> f in history && Dormant(f, st.built)
    ensures (forall f :: f in history ==> !Dormant(f, st.built)) ==> NoneOverslept(st', history + Assertions(triggers))
  {
    hide Grows, Labelled;
    forall f | f in Assertions(triggers) && Dormant(f, st'.built)
      ensures !Labelled(st'.m, f.trigger.ControllerSite(), true)
    {
      assert f.trigger in triggers;
    }
  }
}
