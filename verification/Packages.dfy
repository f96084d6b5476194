// Any number of packages, each of which imports the exports of those that it depends on.
module Packages {
  import opened Annotation
  import opened OrderedMaps
  import opened InferredMaps
  import opened Constraints
  import opened Incremental
  import opened Modular
  import opened Forgetting
  import opened Batches
  import opened Accumulation
  import opened Continuation

  /** A package that was analyzed: the facts that it adds, its map, what it exports, and which earlier
      packages it imports. */
  datatype Package = Package(own: set<Fact>, m: Mapping, exported: set<Fact>, deps: set<nat>)

  ghost function Owned(ps: seq<Package>): set<Fact> {
    if ps == [] then {} else Owned(ps[..|ps| - 1]) + ps[|ps| - 1].own
  }

  ghost function Exported(ps: seq<Package>, js: set<nat>): set<Fact> {
    set j, f | j in js && j < |ps| && f in ps[j].exported :: f
  }

  ghost function AllBut(ps: seq<Package>, js: set<nat>): set<Fact> {
    set j: nat, f | j < |ps| && j !in js && f in ps[j].exported :: f
  }

  ghost predicate SeenByAll(ps: seq<Package>, d: set<Fact>) {
    forall p :: p in ps ==> AllVisible(p.m, d)
  }

  /** Package `p` after `ps`: with its imports, what it exports stands for what it adds; and nobody
      mentions what another package keeps to itself. */
  ghost predicate Follows(ps: seq<Package>, p: Package) {
    && (forall j :: j in p.deps ==> j < |ps|)
    && Agrees(p.m, Exported(ps, p.deps) + p.own, Exported(ps, p.deps) + p.exported)
    && SeenByAll(ps, p.own)
    && AllVisible(p.m, AllBut(ps, p.deps))
  }

  ghost predicate Program(ps: seq<Package>) {
    ps != [] ==> Program(ps[..|ps| - 1]) && Follows(ps[..|ps| - 1], ps[|ps| - 1])
  }

  ghost function AllExported(ps: seq<Package>): set<Fact> {
    AllBut(ps, {})
  }

  lemma ExportedNext(ps: seq<Package>, p: Package, js: set<nat>)
    requires forall j :: j in js ==> j < |ps|
    ensures AllExported(ps + [p]) == AllExported(ps) + p.exported
    ensures AllExported(ps) == Exported(ps, js) + AllBut(ps, js)
  {
    assert (ps + [p])[|ps|] == p;
    assert forall j :: 0 <= j < |ps| ==> (ps + [p])[j] == ps[j];
  }

  lemma SeenTogether(m: Mapping, d: set<Fact>, d': set<Fact>)
    requires AllVisible(m, d) && AllVisible(m, d')
    ensures AllVisible(m, d + d')
  {
  }

  ghost predicate SeenSite(ps: seq<Package>, s: Site) {
    forall p :: p in ps ==> Visible(p.m, s)
  }

  /** With everything that was exported before, what `p` exports stands for what it adds. */
  lemma ExportStands(ps: seq<Package>, p: Package, d: set<Fact>)
    requires Follows(ps, p) && AllVisible(p.m, d)
    ensures AgreesOn(p.m, AllExported(ps) + p.own, AllExported(ps) + p.exported, d)
  {
    var known, rest := Exported(ps, p.deps), AllBut(ps, p.deps);
    ExportedNext(ps, p, p.deps);
    SeenTogether(p.m, rest, d);
    hide AllVisible, AllBut, Exported, Satisfiable, Forced, Visible;
    assert AgreesOn(p.m, known + p.own, known + p.exported, rest + d);
    assert AllExported(ps) + p.own + d == known + p.own + (rest + d);
    assert AllExported(ps) + p.exported + d == known + p.exported + (rest + d);
  }

  lemma SeenByFront(ps: seq<Package>, p: Package, d: set<Fact>)
    requires SeenByAll(ps + [p], d) && SeenByAll(ps, p.own)
    ensures AllVisible(p.m, d) && SeenByAll(ps, p.own + d)
  {
    hide AllVisible;
    assert p in ps + [p];
    forall q | q in ps ensures AllVisible(q.m, p.own + d) {
      assert q in ps + [p];
      SeenTogether(q.m, p.own, d);
    }
  }

  ghost predicate SameFor(ps: seq<Package>, fs: set<Fact>, fs': set<Fact>) {
    && (Satisfiable(fs) <==> Satisfiable(fs'))
    && forall s, v :: SeenSite(ps, s) ==> (Forced(fs, s, v) <==> Forced(fs', s, v))
  }

  lemma SameWith(ps: seq<Package>, p: Package, d: set<Fact>, fs: set<Fact>)
    requires Follows(ps, p) && AllVisible(p.m, d) && SameFor(ps, fs, AllExported(ps) + (p.own + d))
    ensures SameFor(ps + [p], fs, AllExported(ps + [p]) + d)
  {
    ExportStands(ps, p, d);
    ExportedNext(ps, p, {});
    assert AllExported(ps) + (p.own + d) == AllExported(ps) + p.own + d;
    hide Satisfiable, Forced, AllVisible, Visible, AllExported, Follows;
    forall s | SeenSite(ps + [p], s) ensures SeenSite(ps, s) && Visible(p.m, s) {
      assert p in ps + [p] && forall q :: q in ps ==> q in ps + [p];
    }
  }

  /** Nobody can tell all exports from everything that the packages say. */
  lemma {:induction false} AllPackages(ps: seq<Package>, d: set<Fact>)
    requires Program(ps) && SeenByAll(ps, d)
    ensures SameFor(ps, Owned(ps) + d, AllExported(ps) + d)
  {
    if ps == [] {
      assert AllExported(ps) == {} && Owned(ps) == {};
    } else {
      var front, p := ps[..|ps| - 1], ps[|ps| - 1];
      assert ps == front + [p];
      assert Owned(ps) + d == Owned(front) + (p.own + d);
      hide SameFor, SeenByAll, Owned;
      assert Follows(front, p);
      FollowsParts(front, p);
      SeenByFront(front, p, d);
      AllPackages(front, p.own + d);
      SameWith(front, p, d, Owned(ps) + d);
    }
  }

  lemma FollowsParts(ps: seq<Package>, p: Package)
    requires Follows(ps, p)
    ensures SeenByAll(ps, p.own)
  {
  }

  /** What a package adds to what it imports. */
  ghost function Added(facts: seq<OMap<Site, InferredVal>>, annotations: seq<(Key, bool, bool)>,
                       batches: seq<seq<FullTrigger>>): set<Fact> {
    After(GivenFacts(facts, annotations), batches) - FactsOfAll(facts)
  }

  /** A package that was analyzed without a conflict is such a package. */
  lemma AnalyzedExports(m: Mapping, up: Mapping, x: Mapping, facts: seq<OMap<Site, InferredVal>>,
                        annotations: seq<(Key, bool, bool)>, batches: seq<seq<FullTrigger>>)
    requires Quiescent(m) && Quiescent(up) && Grows(up, m) && IsExport(m, up, x) && NothingForgotten(m, up, x)
    requires SameModels(m, After(GivenFacts(facts, annotations), batches)) && SaysUpstream(facts, up)
    ensures Agrees(m, FactsOfAll(facts) + Added(facts, annotations, batches), FactsOfAll(facts) + FactsOf(x))
  {
    var after := After(GivenFacts(facts, annotations), batches);
    AfterIsGiven(GivenFacts(facts, annotations), batches);
    assert FactsOfAll(facts) + Added(facts, annotations, batches) == after;
    forall a: Labelling
      ensures AllHold(a, after) <==> AllHold(a, FactsOf(m))
      ensures AllHold(a, FactsOf(up)) <==> AllHold(a, FactsOfAll(facts))
    {
      FactsAreModels(a, m);
      FactsAreModels(a, up);
    }
    assert SameSolutions(after, FactsOf(m)) && SameSolutions(FactsOf(up), FactsOfAll(facts));
    hide After, AllHold, FactsOf, FactsOfAll, GivenFacts, Agrees, SameModels, Models, IsExport, NothingForgotten;
    SameSolutionsMore(FactsOf(up), FactsOfAll(facts), FactsOf(x));
    hide SameSolutions;
    SameSolutionsAgree(m, after, FactsOf(m));
    ModularAgrees(m, up, x);
    SameSolutionsAgree(m, FactsOf(up) + FactsOf(x), FactsOfAll(facts) + FactsOf(x));
    AgreesTransitive(m, after, FactsOf(m), FactsOf(up) + FactsOf(x));
    AgreesTransitive(m, after, FactsOf(up) + FactsOf(x), FactsOfAll(facts) + FactsOf(x));
  }
}
