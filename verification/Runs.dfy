// Runs of the engine on which the verdict, or an export, is not what one might expect.
module Runs {
  import opened Annotation
  import opened OrderedMaps
  import opened InferredMaps
  import opened Constraints
  import opened Explanation
  import opened Progress
  import opened Verdict
  import opened InferenceEngine
  import opened Incremental
  import opened Modular
  import opened Forgetting
  import opened Batches
  import opened Accumulation
  import opened Closure

  function On(k: Key): Site {
    Site(k, false)
  }

  /** A trigger that was duplicated at a call: once the argument `k` is nilable, an always-nil producer
      flows to the result `r` of that call. */
  ghost predicate ReturnsNil(t: FullTrigger, k: Key, r: Key) {
    && t.controller == Some(k) && t.producer.kind.Always?
    && t.consumer.kind.Conditional? && t.consumer.site == Some(r)
  }

  /** `t` makes `r` nonnil. */
  ghost predicate MakesNonnil(t: FullTrigger, r: Key) {
    !t.Controlled() && t.producer.kind.Conditional? && t.producer.site == Some(r) && t.consumer.kind.Always?
  }

  /** Both built, they would be a conflict. */
  lemma NotBuiltBeside(st: State, history: set<Fact>, t: FullTrigger, sink: FullTrigger, k: Key, r: Key)
    requires Quiescent(st.m) && Faithful(st, history) && st.conflicts == []
    requires ReturnsNil(t, k, r) && MakesNonnil(sink, r) && Assertion(sink) in history
    ensures t !in st.built
  {
    QuiescentModels(st.m);
    assert Assertion(sink) in Awake(history, st.built);
    assert Holds(Nilables(st.m), Assertion(sink));
    assert t in st.built ==> Holds(Nilables(st.m), Unguarded(t));
  }

  lemma AnnotatedFacts(k: Key)
    ensures GivenFacts([], [(k, false, true)]) == {Label(On(k), true)}
  {
  }

  lemma OneBatch(fs: set<Fact>, b: seq<FullTrigger>)
    ensures Clean(fs, [b]) <==> Satisfiable(fs) && Satisfiable(fs + Timely(fs, Assertions(b)))
    ensures After(fs, [b]) == fs + Effective(fs, Assertions(b))
  {
    assert [b][..0] == [];
    assert (Clean(fs, []) <==> Satisfiable(fs)) && After(fs, []) == fs;
    hide Timely, Effective, Satisfiable, Assertions;
  }

  lemma LateTrigger(k: Key, r: Key, t: FullTrigger, sink: FullTrigger)
    requires k != r && ReturnsNil(t, k, r) && MakesNonnil(sink, r)
    ensures
      var fs := {Label(On(k), true)};
      Clean(fs, [[t, sink]]) && !Satisfiable(fs + Assertions([t, sink]))
  {
    var fs, d := {Label(On(k), true)}, Assertions([t, sink]);
    var just: Labelling := iset{On(k)};
    assert t in [t, sink] && sink in [t, sink] && d == {Assertion(t), Assertion(sink)};
    assert Forced(fs, On(k), true) by {
      assert forall a: Labelling :: AllHold(a, fs) ==> Holds(a, Label(On(k), true));
    }
    assert Timely(fs, d) == {Assertion(sink)};
    assert AllHold(just, fs) && AllHold(just, fs + {Assertion(sink)});
    OneBatch(fs, [t, sink]);
    hide Clean, Timely;
    forall a: Labelling ensures !AllHold(a, fs + d) {
      assert Label(On(k), true) in fs + d && Assertion(t) in fs + d && Assertion(sink) in fs + d;
      assert Holds(a, Label(On(k), true)) && Holds(a, Assertion(t)) ==> !Holds(a, Assertion(sink));
    }
  }

  lemma LateBatchOk(k: Key, r: Key, t: FullTrigger, sink: FullTrigger)
    requires k != r && ReturnsNil(t, k, r) && MakesNonnil(sink, r)
    ensures BatchOk([t, sink]) && AllAssertions([[t, sink]]) == Assertions([t, sink]) == {Assertion(t), Assertion(sink)}
  {
    assert [t, sink] in [[t, sink]] && t in [t, sink] && sink in [t, sink];
  }

  /** The argument `k` of a call is annotated nilable, and the result must not be nil, but is nil if `k`
      is: the trigger that says so never fires and no conflict is reported, although nothing satisfies
      what was observed. */
  method ControllerNilableBeforeBatch(k: Key, r: Key, t: FullTrigger, sink: FullTrigger) returns (e: Engine)
    requires k != r && ReturnsNil(t, k, r) && MakesNonnil(sink, r)
    ensures e.Valid() && e.history == {Label(On(k), true), Assertion(t), Assertion(sink)}
    ensures e.conflicts == [] && t !in e.built && !Satisfiable(e.history)
  {
    hide Settled, AllBacked, Sound, WellControlled, Grows, Tells, Clean, After, BatchOk, Satisfiable;
    AnnotatedFacts(k);
    LateTrigger(k, r, t, sink);
    LateBatchOk(k, r, t, sink);
    e := ObserveGiven([], [(k, false, true)], {});
    ghost var fs := {Label(On(k), true)};
    ObserveBatches(e, [[t, sink]], fs);
    ValidParts(e.Now(), e.controlledTriggersBySite, e.history, e.inferredMap.upstreamMapping);
    TellsClean(e.Now(), Clean(fs, [[t, sink]]), After(fs, [[t, sink]]));
    assert e.history == fs + Assertions([t, sink]);
    NotBuiltBeside(e.Now(), e.history, t, sink, k, r);
  }

  lemma TellsClean(st: State, clean: bool, fs: set<Fact>)
    requires Tells(st, clean, fs)
    ensures st.conflicts == [] <==> clean
  {
  }

  /** `t` leads from `s` to `x`. */
  ghost predicate Connects(t: FullTrigger, s: Key, x: Key) {
    && !t.Controlled() && t.producer.kind.Conditional? && t.producer.site == Some(s)
    && t.consumer.kind.Conditional? && t.consumer.site == Some(x)
  }

  /** `t` makes `s` nilable. */
  ghost predicate MakesNilable(t: FullTrigger, s: Key) {
    !t.Controlled() && t.producer.kind.Always? && t.consumer.kind.Conditional? && t.consumer.site == Some(s)
  }

  ghost predicate ThreeKeys(s: Key, x: Key, r: Key) {
    s != x && s != r && x != r
  }

  lemma FirstBatch(s: Key, x: Key, r: Key, edge: FullTrigger, t: FullTrigger, sink: FullTrigger)
    requires ThreeKeys(s, x, r) && Connects(edge, s, x) && ReturnsNil(t, x, r) && MakesNonnil(sink, r)
    ensures Clean({}, [[edge, t, sink]]) && After({}, [[edge, t, sink]]) == {Assertion(edge), Assertion(sink)}
  {
    var d, awake := Assertions([edge, t, sink]), {Assertion(edge), Assertion(sink)};
    var none: Labelling := iset{};
    assert edge in [edge, t, sink] && t in [edge, t, sink] && sink in [edge, t, sink];
    assert d == {Assertion(edge), Assertion(t), Assertion(sink)};
    assert AllHold(none, {}) && !Forced({}, On(x), true);
    assert Timely({}, d) == d && {} + d == d;
    assert Holds(none, Assertion(edge)) && Holds(none, Assertion(t)) && Holds(none, Assertion(sink));
    assert AllHold(none, d) && !Forced(d, On(x), true);
    assert Effective({}, d) == awake && {} + awake == awake;
    OneBatch({}, [edge, t, sink]);
  }

  lemma SecondBatch(s: Key, x: Key, r: Key, edge: FullTrigger, t: FullTrigger, sink: FullTrigger, src: FullTrigger)
    requires ThreeKeys(s, x, r) && Connects(edge, s, x) && ReturnsNil(t, x, r) && MakesNonnil(sink, r)
    requires MakesNilable(src, s)
    ensures Clean({}, [[edge, t, sink], [src]])
    ensures After({}, [[edge, t, sink], [src]]) == {Assertion(edge), Assertion(sink), Assertion(src)}
  {
    var batches, before := [[edge, t, sink], [src]], {Assertion(edge), Assertion(sink)};
    assert batches[..1] == [[edge, t, sink]];
    FirstBatch(s, x, r, edge, t, sink);
    hide AllHold, Forced;
    assert src in [src] && Assertions([src]) == {Assertion(src)};
    assert Timely(before, {Assertion(src)}) == {Assertion(src)} &&
      Effective(before, {Assertion(src)}) == {Assertion(src)};
    SourceReaches(s, x, r, edge, t, sink, src);
    assert before + {Assertion(src)} == {Assertion(edge), Assertion(sink), Assertion(src)};
  }

  lemma SourceReaches(s: Key, x: Key, r: Key, edge: FullTrigger, t: FullTrigger, sink: FullTrigger, src: FullTrigger)
    requires ThreeKeys(s, x, r) && Connects(edge, s, x) && ReturnsNil(t, x, r) && MakesNonnil(sink, r)
    requires MakesNilable(src, s)
    ensures
      var fs := {Assertion(edge), Assertion(sink), Assertion(src)};
      Satisfiable(fs) && Forced(fs, On(x), true)
    ensures !Satisfiable({Assertion(edge), Assertion(t), Assertion(sink), Assertion(src)})
  {
    var fs := {Assertion(edge), Assertion(sink), Assertion(src)};
    var all := {Assertion(edge), Assertion(t), Assertion(sink), Assertion(src)};
    var both: Labelling := iset{On(s), On(x)};
    assert Holds(both, Assertion(edge)) && Holds(both, Assertion(sink)) && Holds(both, Assertion(src));
    assert AllHold(both, fs);
    forall a: Labelling
      ensures AllHold(a, fs) ==> On(x) in a
      ensures !AllHold(a, all)
    {
      assert Assertion(edge) in fs && Assertion(src) in fs && Assertion(sink) in all && Assertion(t) in all;
      assert Assertion(edge) in all && Assertion(src) in all;
      assert Holds(a, Assertion(edge)) && Holds(a, Assertion(src)) ==> On(x) in a;
      assert On(x) in a && Holds(a, Assertion(t)) ==> !Holds(a, Assertion(sink));
    }
  }

  lemma BothBatchesOk(s: Key, x: Key, r: Key, edge: FullTrigger, t: FullTrigger, sink: FullTrigger, src: FullTrigger)
    requires ThreeKeys(s, x, r) && Connects(edge, s, x) && ReturnsNil(t, x, r) && MakesNonnil(sink, r)
    requires MakesNilable(src, s)
    ensures forall b :: b in [[edge, t, sink], [src]] ==> BatchOk(b)
    ensures GivenFacts([], []) == {}
    ensures AllAssertions([[edge, t, sink], [src]]) ==
      {Assertion(edge), Assertion(t), Assertion(sink), Assertion(src)}
  {
    var batches := [[edge, t, sink], [src]];
    assert batches[0] in batches && batches[1] in batches;
    assert edge in [edge, t, sink] && t in [edge, t, sink] && sink in [edge, t, sink] && src in [src];
    assert BatchOk([edge, t, sink]) && BatchOk([src]);
    hide BatchOk;
    forall f ensures f in AllAssertions(batches) <==>
        f in {Assertion(edge), Assertion(t), Assertion(sink), Assertion(src)} {
    }
  }

  /** A second way to come too late. In the first batch a trigger waits for `x`, to which `s` leads; in
      the second `s` becomes nilable, and so does `x`. Nobody waits for `x` any more, although it was
      nilable at the start of neither batch. */
  method ControllerNilableAfterBatch(s: Key, x: Key, r: Key, edge: FullTrigger, t: FullTrigger, sink: FullTrigger,
                                     src: FullTrigger)
    returns (e: Engine)
    requires ThreeKeys(s, x, r) && Connects(edge, s, x) && ReturnsNil(t, x, r) && MakesNonnil(sink, r)
    requires MakesNilable(src, s)
    ensures e.Valid() && e.history == {Assertion(edge), Assertion(t), Assertion(sink), Assertion(src)}
    ensures e.conflicts == [] && Labelled(e.M(), On(x), true) && t !in e.built && !Satisfiable(e.history)
  {
    hide Settled, AllBacked, Sound, WellControlled, Grows, Tells, Clean, After, BatchOk, Forced, Labelled, Satisfiable;
    hide Connects, MakesNilable, AllAssertions;
    BothBatchesOk(s, x, r, edge, t, sink, src);
    SecondBatch(s, x, r, edge, t, sink, src);
    SourceReaches(s, x, r, edge, t, sink, src);
    e := ObserveGiven([], [], {});
    assert e.history == {};
    ObserveBatches(e, [[edge, t, sink], [src]], {});
    ValidParts(e.Now(), e.controlledTriggersBySite, e.history, e.inferredMap.upstreamMapping);
    TellsClean(e.Now(), Clean({}, [[edge, t, sink], [src]]), After({}, [[edge, t, sink], [src]]));
    TellsLabels(e.Now(), Clean({}, [[edge, t, sink], [src]]), After({}, [[edge, t, sink], [src]]));
    NotBuiltBeside(e.Now(), e.history, t, sink, x, r);
  }

  /** An imported map that says: p implies c. */
  function OneEdge(p: Site, c: Site, a: PrimitiveFullTrigger): OMap<Site, InferredVal>
    requires p != c
  {
    Put(Put(New(), p, UndeterminedVal(New(), Put(New(), c, a))), c, UndeterminedVal(Put(New(), p, a), New()))
  }

  lemma OneEdgeFlows(p: Site, c: Site, a: PrimitiveFullTrigger)
    requires p != c
    ensures forall x, y :: Flows(OneEdge(p, c, a).vals, x, y) <==> x == p && y == c
    ensures forall x, y :: FlowsBack(OneEdge(p, c, a).vals, x, y) <==> x == p && y == c
    ensures Implicates(OneEdge(p, c, a).vals, p).vals == map[c := a] &&
      Implicants(OneEdge(p, c, a).vals, c).vals == map[p := a]
    ensures Implicants(OneEdge(p, c, a).vals, p).vals == map[] && Implicates(OneEdge(p, c, a).vals, c).vals == map[]
    ensures OneEdge(p, c, a).vals.Keys == {p, c}
    ensures forall x :: !Determined(OneEdge(p, c, a).vals, x)
  {
    hide View.Valid;
  }

  lemma OneEdgeSays(p: Site, c: Site, a: PrimitiveFullTrigger)
    requires p != c
    ensures Explained(OneEdge(p, c, a).vals, {Edge(p, c, a)})
    ensures FactsOfAll([OneEdge(p, c, a)]) == {Implication(p, c)}
  {
    var m := OneEdge(p, c, a);
    OneEdgeFlows(p, c, a);
    hide OneEdge, Flows, FlowsBack, Implicates, Implicants, Determined, View.Valid, Justified;
    OneEdgeFact(m.vals, p, c, a);
    assert FactsOfAll([m]) == FactsOf(m.vals) by {
      assert m in [m];
      hide FactsOf;
    }
  }

  lemma OneEdgeFact(m: Mapping, p: Site, c: Site, a: PrimitiveFullTrigger)
    requires p != c && m.Keys == {p, c} && forall x :: !Determined(m, x)
    requires Implicates(m, p).vals == map[c := a] && Implicants(m, c).vals == map[p := a]
    requires Implicants(m, p).vals == map[] && Implicates(m, c).vals == map[]
    ensures FactsOf(m) == {Implication(p, c)}
  {
    hide Implicates, Implicants, Determined;
    assert FactsAt(m, p) == {Implication(p, c)} by {
      assert c in Implicates(m, p).vals;
    }
    assert FactsAt(m, c) == {Implication(p, c)} by {
      assert p in Implicants(m, c).vals;
    }
    hide FactsAt;
    assert p in m && c in m;
  }

  ghost predicate OnlyDetermined(m: Mapping, rs: set<Site>) {
    forall s :: Determined(m, s) ==> s in rs
  }

  ghost function AllBut(rs: set<Site>): Labelling {
    iset s | s !in rs
  }

  ghost predicate FlowsWithin(m: Mapping, es: set<(Site, Site)>) {
    forall x, y :: Flows(m, x, y) || FlowsBack(m, x, y) ==> (x, y) in es
  }

  /** What is satisfied by calling every site nonnil, and by calling every site but some nilable, forces
      labels on no others. */
  lemma NothingForced(m: Mapping, fs: set<Fact>, rs: set<Site>)
    requires Quiescent(m) && SameModels(m, fs)
    requires AllHold(iset{}, fs) && AllHold(AllBut(rs), fs)
    ensures OnlyDetermined(m, rs) && forall s :: !Labelled(m, s, true)
  {
    hide Quiescent, Flows, FlowsBack, AllHold;
    assert Models(iset{}, m) && Models(AllBut(rs), m);
    assert forall s :: Determined(m, s) ==> Labelled(m, s, true) || Labelled(m, s, false);
  }

  /** A map that does not allow `a`, although no label is in the way, has an edge that `a` violates. */
  lemma EdgeIsThere(m: Mapping, a: Labelling, p: Site, c: Site, es: set<(Site, Site)>, rs: set<Site>)
    requires Quiescent(m) && OnlyDetermined(m, rs) && FlowsWithin(m, es) && !Models(a, m)
    requires (forall s :: !Labelled(m, s, true)) && forall s :: s in rs ==> s !in a
    requires forall e :: e in es ==> e.0 !in rs && (!Flow(a, e.0, e.1) ==> e == (p, c))
    ensures Flows(m, p, c)
  {
    forall x, y | FlowsBack(m, x, y) ensures Flows(m, x, y) {
      assert (x, y) in es && SettledBackward(m, x, y, {});
    }
    hide Quiescent, Flows, FlowsBack;
    assert forall s :: Labelled(m, s, false) ==> Determined(m, s);
    hide Determined, Labelled;
    var x, y :| Flows(m, x, y) && !Flow(a, x, y);
    assert (x, y) in es;
  }

  lemma OnlyEdgeLeads(m: Mapping, p: Site, c: Site)
    requires Flows(m, p, c) && forall y :: Flows(m, p, y) ==> y == c
    ensures LeadsFirst(m, p, c)
  {
    var keys := Implicates(m, p).keys;
    assert c in keys;
    assert keys[0] in Implicates(m, p).vals;
    assert Flows(m, p, keys[0]);
  }

  /** Edges come from what was imported and from what was built. */
  lemma FlowsFrom(st: State, imported: set<Evidence>, history: set<Fact>, es: set<(Site, Site)>)
    requires Explained(st.m, st.evidence) && AllBacked(st.evidence, imported, st.built, history)
    requires forall x, y, a :: Edge(x, y, a) in imported ==> (x, y) in es
    requires forall t, x, y, a :: t in st.built && Edge(x, y, a) in EvidenceOf(t) ==> (x, y) in es
    ensures FlowsWithin(st.m, es)
  {
    hide EvidenceOf, Justified, Flows, FlowsBack, Implicates, Implicants;
    forall x, y, a | Edge(x, y, a) in st.evidence ensures (x, y) in es {
      assert Backed(Edge(x, y, a), imported, st.built, history);
    }
  }

  /** After the first upstream fact: p leads to q and to nothing else. */
  lemma FirstImport(st: State, imported: set<Evidence>, history: set<Fact>, p: Site, q: Site, a: PrimitiveFullTrigger)
    requires Quiescent(st.m) && Faithful(st, history) && Explained(st.m, st.evidence)
    requires AllBacked(st.evidence, imported, st.built, history)
    requires history == {Implication(p, q)} && imported == {Edge(p, q, a)} && p != q
    ensures OnlyDetermined(st.m, {}) && LeadsFirst(st.m, p, q)
  {
    TellsHistory(st, history);
    assert AllHold(iset{}, history) && AllHold(AllBut({}), history);
    assert Satisfiable(history);
    NothingForced(st.m, history, {});
    FlowsFrom(st, imported, history, {(p, q)});
    var a: Labelling := iset{p};
    assert Implication(p, q) in history && !Holds(a, Implication(p, q));
    EdgeIsThere(st.m, a, p, q, {(p, q)}, {});
    OnlyEdgeLeads(st.m, p, q);
  }

  /** After the second: p leads to c as well, and to q first. */
  lemma SecondImport(first: Mapping, st: State, imported: set<Evidence>, history: set<Fact>,
                     p: Site, q: Site, c: Site, a: PrimitiveFullTrigger, a': PrimitiveFullTrigger)
    requires LeadsFirst(first, p, q) && Grows(first, st.m)
    requires Quiescent(st.m) && Faithful(st, history) && Explained(st.m, st.evidence)
    requires AllBacked(st.evidence, imported, st.built, history)
    requires history == {Implication(p, q), Implication(p, c)} && imported == {Edge(p, q, a), Edge(p, c, a')}
    requires p != q && p != c && q != c
    ensures OnlyDetermined(st.m, {}) && LeadsFirst(st.m, p, q) && Flows(st.m, p, c) && st.built == {}
  {
    TwoImplications(st, history, p, q, c);
    assert forall t :: Assertion(t) !in history;
    assert st.built == {};
    hide Quiescent, Faithful, Explained, AllBacked, Grows, LeadsFirst, FlowsWithin, AllHold, Models;
    NothingForced(st.m, history, {});
    FlowsFrom(st, imported, history, {(p, q), (p, c)});
    EdgeIsThere(st.m, iset{p, q}, p, c, {(p, q), (p, c)}, {});
    StillFirst(first, st.m, p, q);
  }

  lemma TwoImplications(st: State, history: set<Fact>, p: Site, q: Site, c: Site)
    requires Quiescent(st.m) && Faithful(st, history) && history == {Implication(p, q), Implication(p, c)}
    requires p != c && q != c
    ensures SameModels(st.m, history) && AllHold(iset{}, history) && AllHold(AllBut({}), history)
    ensures !Models(iset{p, q}, st.m)
  {
    TellsHistory(st, history);
    assert AllHold(iset{}, history) && AllHold(AllBut({}), history);
    assert Satisfiable(history);
    assert Implication(p, c) in history && !Holds(iset{p, q}, Implication(p, c));
    hide Models, Faithful, Quiescent;
  }

  lemma StillFirst(m: Mapping, m': Mapping, p: Site, q: Site)
    requires LeadsFirst(m, p, q) && Grows(m, m') && !Determined(m', p)
    ensures LeadsFirst(m', p, q)
  {
    assert Undetermined(m, p);
  }

  lemma NotAwake(st: State, history: set<Fact>, t: FullTrigger)
    requires Quiescent(st.m) && Faithful(st, history) && BuiltAreNilable(st) && AllHold(iset{}, history)
    ensures st.conflicts == [] && (t.Controlled() ==> t !in st.built)
  {
    var none: Labelling := iset{};
    FewerHold(none, Awake(history, st.built), history);
    VerdictIsExact(st, history);
    hide Quiescent, Awake, AllHold, Holds;
    assert t.Controlled() && t in st.built ==> Forced(Awake(history, st.built), t.ControllerSite(), true);
  }

  /** Upstream, p implies q and p implies c. In this package the result `r` of a call must not be nil, and
      is what `c` is if the argument `x` of the call is nilable; q leads to x, and p turns nilable. */
  datatype Waking = Waking(p: Key, q: Key, x: Key, c: Key, r: Key, a: PrimitiveFullTrigger, a': PrimitiveFullTrigger,
                           t: FullTrigger, sink: FullTrigger, edge: FullTrigger, src: FullTrigger) {
    ghost predicate Ok() {
      && p != q && p != x && p != c && p != r && q != x && q != c && q != r && x != c && x != r && c != r
      && t.controller == Some(x) && t.producer.kind.Conditional? && t.producer.site == Some(c)
      && t.consumer.kind.Conditional? && t.consumer.site == Some(r)
      && MakesNonnil(sink, r) && Connects(edge, q, x) && MakesNilable(src, p)
    }

    function Batch(): seq<FullTrigger> {
      [t, sink, edge, src]
    }

    ghost function Upstream(): set<Fact> {
      {Implication(On(p), On(q)), Implication(On(p), On(c))}
    }

    ghost function Imports(): set<Evidence> {
      {Edge(On(p), On(q), a), Edge(On(p), On(c), a')}
    }

    /** What is awake before p turns nilable. */
    ghost function Awaking(): set<Fact> {
      Upstream() + {Assertion(sink), Assertion(edge)}
    }

    ghost function Edges(): set<(Site, Site)> {
      {(On(p), On(q)), (On(p), On(c)), (On(q), On(x))}
    }
  }

  lemma AwakingHolds(z: Waking)
    requires z.Ok()
    ensures AllHold(iset{}, z.Awaking()) && AllHold(AllBut({On(z.r)}), z.Awaking())
    ensures AllHold(iset{}, z.Awaking() + {Assertion(z.t)})
    ensures Forced(z.Awaking(), On(z.r), false)
    ensures !Holds(iset{On(z.q)}, Assertion(z.edge))
  {
    assert Assertion(z.sink) in z.Awaking();
    assert forall a: Labelling :: Holds(a, Assertion(z.sink)) ==> On(z.r) !in a;
  }

  lemma BatchAwake(z: Waking, st: State, history: set<Fact>)
    requires z.Ok() && Quiescent(st.m) && Faithful(st, history) && BuiltAreNilable(st)
    requires history == z.Awaking() + {Assertion(z.t)}
    ensures SameModels(st.m, z.Awaking()) && st.built <= {z.sink, z.edge}
  {
    AwakingHolds(z);
    NotAwake(st, history, z.t);
    assert Awake(history, st.built) == z.Awaking();
    hide Awake, Holds, AllHold, Quiescent, BuiltAreNilable, Models;
    FaithfulMeans(st, history, z.Awaking());
  }

  /** In the batch: q leads to x now, r is nonnil, and nothing has been woken yet. */
  lemma EdgeBuilt(z: Waking, second: Mapping, st: State, imported: set<Evidence>, history: set<Fact>)
    requires z.Ok() && LeadsFirst(second, On(z.p), On(z.q)) && Grows(second, st.m)
    requires Quiescent(st.m) && Faithful(st, history) && BuiltAreNilable(st) && Explained(st.m, st.evidence)
    requires AllBacked(st.evidence, imported, st.built, history)
    requires history == z.Awaking() + {Assertion(z.t)}
    requires imported == z.Imports()
    ensures OnlyDetermined(st.m, {On(z.r)}) && Labelled(st.m, On(z.r), false)
    ensures LeadsFirst(st.m, On(z.p), On(z.q)) && LeadsFirst(st.m, On(z.q), On(z.x))
  {
    hide Faithful, BuiltAreNilable, Quiescent, Grows, Explained, AllBacked, LeadsFirst, FlowsWithin, OnlyDetermined;
    hide Awake, SameModels, AllHold, Models, Forced, Holds, Labelled;
    BatchAwake(z, st, history);
    AwakingHolds(z);
    NothingForced(st.m, z.Awaking(), {On(z.r)});
    LabelsAreForced(st.m, z.Awaking(), On(z.r), false);
    FlowsFrom(st, imported, history, z.Edges());
    JustOne(st.m, z);
    EdgeIsThere(st.m, iset{On(z.q)}, On(z.q), On(z.x), z.Edges(), {On(z.r)});
    OnlyEdge(st.m, On(z.q), On(z.x), z.Edges());
    StillOpen(st.m, On(z.p), {On(z.r)});
    StillFirst(second, st.m, On(z.p), On(z.q));
  }

  lemma JustOne(m: Mapping, z: Waking)
    requires SameModels(m, z.Awaking()) && z.Ok()
    ensures !Models(iset{On(z.q)}, m)
  {
    AwakingHolds(z);
    assert Assertion(z.edge) in z.Awaking();
    hide Models, Holds;
  }

  lemma FaithfulMeans(st: State, history: set<Fact>, fs: set<Fact>)
    requires Faithful(st, history) && st.conflicts == [] && Awake(history, st.built) == fs
    ensures SameModels(st.m, fs)
  {
    hide Models, AllHold, Awake;
  }

  lemma StillOpen(m: Mapping, p: Site, rs: set<Site>)
    requires OnlyDetermined(m, rs) && p !in rs
    ensures !Determined(m, p)
  {
  }

  lemma OnlyEdge(m: Mapping, p: Site, c: Site, es: set<(Site, Site)>)
    requires Flows(m, p, c) && FlowsWithin(m, es) && forall e :: e in es && e.0 == p ==> e.1 == c
    ensures LeadsFirst(m, p, c)
  {
    assert forall y :: Flows(m, p, y) ==> (p, y) in es;
    hide Flows, FlowsWithin;
    OnlyEdgeLeads(m, p, c);
  }

  /** An upstream package knows one implication. */
  method ImportEdge(e: Engine, p: Site, c: Site, a: PrimitiveFullTrigger)
    requires e.Valid() && p != c
    modifies e, e.inferredMap`mapping
    ensures e.Valid() && Extends(old(e.Now()), e.Now())
    ensures e.history == old(e.history) + {Implication(p, c)} && e.imported == old(e.imported) + {Edge(p, c, a)}
  {
    OneEdgeSays(p, c, a);
    hide Settled, AllBacked, Sound, WellControlled, Grows, Explained, OneEdge, FactsOfAll;
    e.ObserveFacts([OneEdge(p, c, a)], {Edge(p, c, a)});
  }

  /** Two upstream packages: one knows that p implies q, the next that p implies c. */
  method ImportBoth(z: Waking) returns (e: Engine)
    requires z.Ok()
    ensures fresh(e) && fresh(e.inferredMap) && e.Valid() && e.history == z.Upstream() && e.imported == z.Imports()
    ensures e.inferredMap.upstreamMapping == e.M()
    ensures Flows(e.M(), On(z.p), On(z.c)) && LeadsFirst(e.M(), On(z.p), On(z.q))
  {
    assert On(z.p) != On(z.q) && On(z.p) != On(z.c) && On(z.q) != On(z.c);
    hide Settled, AllBacked, Sound, WellControlled, Grows, Explained, Flows, LeadsFirst, Waking.Ok;
    hide Faithful, Quiescent, BuiltAreNilable, NothingLost, OnlyDetermined;
    e := new Engine();
    ImportEdge(e, On(z.p), On(z.q), z.a);
    ghost var first := e.Now();
    ValidParts(first, e.controlledTriggersBySite, e.history, e.inferredMap.upstreamMapping);
    FirstImport(first, e.imported, e.history, On(z.p), On(z.q), z.a);
    ImportEdge(e, On(z.p), On(z.c), z.a');
    ValidParts(e.Now(), e.controlledTriggersBySite, e.history, e.inferredMap.upstreamMapping);
    SecondImport(first.m, e.Now(), e.imported, e.history, On(z.p), On(z.q), On(z.c), z.a, z.a');
    e.Snapshot();
  }

  lemma WakingBatch(z: Waking)
    requires z.Ok()
    ensures BatchOk(z.Batch()) && ControlledOf(z.Batch()) == {Assertion(z.t)}
    ensures z.t in z.Batch() && z.sink in z.Batch() && z.edge in z.Batch() && z.src in z.Batch()
  {
    assert z.t in z.Batch() && z.sink == z.Batch()[1] && z.edge == z.Batch()[2] && z.src == z.Batch()[3];
  }

  lemma NothingElseWaits(z: Waking, table: Table, s: Site)
    requires z.Ok() && TableFor(table, z.Batch())
    ensures Waiting(table, s) == if s == On(z.x) then {z.t} else {}
  {
    forall u ensures u in Waiting(table, s) <==> u == z.t && s == On(z.x) {
      assert u in z.Batch() <==> u == z.t || u == z.sink || u == z.edge || u == z.src;
    }
  }

  /** p turns nilable: q first, then x, then the trigger, and c is nonnil before p's edge to it is followed. */
  lemma SinkBeforeEdge(z: Waking, table: Table, m: Mapping, m': Mapping)
    requires z.Ok() && OnlyDetermined(m, {On(z.r)}) && Labelled(m, On(z.r), false)
    requires LeadsFirst(m, On(z.p), On(z.q)) && LeadsFirst(m, On(z.q), On(z.x))
    requires TableFor(table, z.Batch()) && SourceStored(z.src, table, m, m')
    ensures Labelled(m', On(z.p), true) && Labelled(m', On(z.c), false)
  {
    NothingElseWaits(z, table, On(z.p));
    NothingElseWaits(z, table, On(z.q));
    NothingElseWaits(z, table, On(z.x));
    hide TableFor, Waiting, Labelled, Determined, LeadsFirst;
    var way := [On(z.p), On(z.q), On(z.x)];
    assert Refuses(m, z.t);
    assert WayTo(table, m, way, z.t) && way[0] == On(z.p);
  }

  /** The batch, as `BuildPkgInferenceMap` goes through it: `t` waits for x, the others are built. */
  method WakeBehindEdge(e: Engine, z: Waking)
    requires e.Valid() && z.Ok() && e.history == z.Upstream() && LeadsFirst(e.M(), On(z.p), On(z.q))
    requires e.imported == z.Imports()
    modifies e`conflicts, e`built, e`evidence, e`history, e`universe, e`controlledTriggersBySite, e.inferredMap`mapping
    ensures e.Valid() && e.history == z.Awaking() + {Assertion(z.t), Assertion(z.src)}
    ensures Labelled(e.M(), On(z.p), true) && Labelled(e.M(), On(z.c), false)
  {
    hide Settled, AllBacked, Sound, WellControlled, Grows, Woken, BatchOk, ControlledOf, TableFor, SourceStored;
    hide OnlyFrom, InTurn, Explained, LeadsFirst, Faithful, Quiescent, BuiltAreNilable, NothingLost, OnlyDetermined;
    hide Labelled, Waking.Ok, Waking.Batch;
    WakingBatch(z);
    ghost var second := e.Now();
    Started(z);
    e.StartBatch(z.Batch());
    e.BuildUncontrolled(z.sink);
    ghost var first := e.Now();
    e.BuildUncontrolled(z.edge);
    ghost var mid := e.Now();
    ExtendsTransitive(second, first, mid);
    ValidParts(mid, e.controlledTriggersBySite, e.history, e.inferredMap.upstreamMapping);
    EdgeBuilt(z, second.m, mid, e.imported, e.history);
    e.BuildUncontrolled(z.src);
    SinkBeforeEdge(z, e.controlledTriggersBySite, mid.m, e.M());
  }

  lemma Started(z: Waking)
    requires z.Ok()
    ensures !z.sink.Controlled() && !z.edge.Controlled() && !z.src.Controlled()
    ensures z.sink.Buildable() && z.edge.Buildable() && z.src.Buildable()
  {
  }

  /** The trigger is woken on the way from p through q to x, before the edge from p to c is followed. The
      conflict is reported, the edge is gone, and importing the export has no solution although the map
      has one. */
  method ActivationLosesAnEdge(z: Waking) returns (e: Engine, export_: OMap<Site, InferredVal>)
    requires z.Ok() && z.p.isExported && z.c.isExported
    ensures e.Valid() && e.history == z.Upstream() + Assertions(z.Batch())
    ensures e.conflicts != [] && Labelled(e.M(), On(z.p), true) && Labelled(e.M(), On(z.c), false)
    ensures IsExport(e.M(), e.inferredMap.upstreamMapping, export_.vals)
    ensures !NothingLost(e.inferredMap.upstreamMapping, e.M())
    ensures Satisfiable(FactsOf(e.M())) && !Satisfiable(Imported(e.inferredMap.upstreamMapping, export_.vals, {}))
  {
    BatchIs(z);
    assert z.p != z.q && z.p != z.c && z.q != z.c;
    hide Settled, AllBacked, Sound, WellControlled, Grows, IsExport, FactsOf, Imported, Flows, FlowsBack, Determined;
    hide Labelled, NothingLost, Faithful, BuiltAreNilable, LeadsFirst, Waking.Ok, Assertions, Satisfiable, Explained;
    hide Waking.Awaking, Waking.Batch, Waking.Upstream, Waking.Imports, Extends;
    e := ImportBoth(z);
    WakeBehindEdge(e, z);
    export_ := ExportWithoutEdge(e, On(z.p), On(z.c));
  }

  method ExportWithoutEdge(e: Engine, p: Site, c: Site) returns (export_: OMap<Site, InferredVal>)
    requires e.Valid() && p != c && p.Exported() && c.Exported() && Flows(e.inferredMap.upstreamMapping, p, c)
    requires Labelled(e.M(), p, true) && Labelled(e.M(), c, false)
    ensures IsExport(e.M(), e.inferredMap.upstreamMapping, export_.vals)
    ensures e.conflicts != [] && !NothingLost(e.inferredMap.upstreamMapping, e.M())
    ensures Satisfiable(FactsOf(e.M())) && !Satisfiable(Imported(e.inferredMap.upstreamMapping, export_.vals, {}))
  {
    hide Settled, AllBacked, Sound, WellControlled, Grows, IsExport, FactsOf, Imported, Flows, Labelled;
    hide NothingLost, Faithful, BuiltAreNilable, Explained, Satisfiable;
    ValidParts(e.Now(), e.controlledTriggersBySite, e.history, e.inferredMap.upstreamMapping);
    export_ := ExportMap(e.inferredMap.mapping, e.inferredMap.upstreamMapping);
    EdgeForgotten(e.M(), e.inferredMap.upstreamMapping, export_.vals, p, c);
  }

  lemma BatchIs(z: Waking)
    ensures z.Upstream() + Assertions(z.Batch()) == z.Awaking() + {Assertion(z.t), Assertion(z.src)}
  {
    assert Assertions(z.Batch()) == {Assertion(z.t), Assertion(z.sink), Assertion(z.edge), Assertion(z.src)} by {
      assert forall u :: u in z.Batch() <==> u == z.t || u == z.sink || u == z.edge || u == z.src;
    }
  }

  lemma EdgeForgotten(m: Mapping, up: Mapping, x: Mapping, p: Site, c: Site)
    requires Quiescent(m) && Quiescent(up) && Grows(up, m) && IsExport(m, up, x)
    requires p != c && p.Exported() && c.Exported() && Flows(up, p, c)
    requires Labelled(m, p, true) && Labelled(m, c, false)
    ensures Satisfiable(FactsOf(m)) && !Satisfiable(Imported(up, x, {})) && !NothingLost(up, m)
  {
    ForgottenEdge(m, up, x, p, c);
    QuiescentModels(m);
    assert !Flow(Nilables(m), p, c);
    assert !Models(Nilables(m), up);
  }

  lemma SinkLabelled(st: State, history: set<Fact>, x: Site, y: Site)
    requires Quiescent(st.m) && Faithful(st, history) && x != y
    requires history == {Implication(x, y), Label(y, true)}
    ensures st.conflicts == [] && Labelled(st.m, y, true) && !Determined(st.m, x)
  {
    TellsHistory(st, history);
    var one, both: Labelling := iset{y}, iset{x, y};
    assert AllHold(one, history) && AllHold(both, history);
    assert Label(y, true) in history;
    assert forall a: Labelling :: AllHold(a, history) ==> Holds(a, Label(y, true));
    LabelsAreForced(st.m, history, y, true);
    LabelsAreForced(st.m, history, x, true);
    LabelsAreForced(st.m, history, x, false);
    assert Determined(st.m, x) ==> Labelled(st.m, x, true) || Labelled(st.m, x, false);
  }

  /** The undetermined sites are not closed under implicates: x implies y, and then y is annotated. */
  method ClosureIsLost(x: Key, y: Key, a: PrimitiveFullTrigger) returns (e: Engine)
    requires x != y
    ensures e.Valid() && e.history == {Implication(On(x), On(y)), Label(On(y), true)} && e.conflicts == []
    ensures Undetermined(e.M(), On(x)) && Flows(e.M(), On(x), On(y)) && Labelled(e.M(), On(y), true)
    ensures !Closed(e.M())
  {
    hide Settled, AllBacked, Sound, WellControlled, Grows, Explained, Flows, LeadsFirst;
    hide Faithful, Quiescent, BuiltAreNilable, NothingLost, OnlyDetermined;
    e := new Engine();
    ImportEdge(e, On(x), On(y), a);
    ghost var first := e.Now();
    ValidParts(first, e.controlledTriggersBySite, e.history, e.inferredMap.upstreamMapping);
    FirstImport(first, e.imported, e.history, On(x), On(y), a);
    e.ObserveAnnotations([(y, false, true)]);
    AnnotatedFacts(y);
    ValidParts(e.Now(), e.controlledTriggersBySite, e.history, e.inferredMap.upstreamMapping);
    SinkLabelled(e.Now(), e.history, On(x), On(y));
    EdgeSurvives(first.m, e.M(), On(x), On(y));
  }

  lemma EdgeSurvives(m: Mapping, m': Mapping, x: Site, y: Site)
    requires LeadsFirst(m, x, y) && Grows(m, m') && !Determined(m', x) && Labelled(m', y, true)
    ensures Undetermined(m', x) && Flows(m', x, y) && !Closed(m')
  {
    assert y in Implicates(m, x).keys && Flows(m, x, y);
    assert Joined(m', x, y);
  }
}
