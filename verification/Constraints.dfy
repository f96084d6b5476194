// What inference is about: labellings of sites, the constraints a labelling has to satisfy, and
// what an inferred map says about them. Nothing here mentions how the engine works.
module Constraints {
  import opened Annotation
  import opened OrderedMaps
  import opened InferredMaps

  /** The sites that a labelling makes nilable. */
  type Labelling = iset<Site>

  /** Some nil flows out of the producer of `t`. */
  ghost predicate Produces(a: Labelling, t: FullTrigger) {
    match t.producer.kind
    case Always => true
    case Never => false
    case _ => t.producer.site.Some? && t.ProducerSite() in a
  }

  /** The consumer of `t` tolerates nil. */
  ghost predicate Accepts(a: Labelling, t: FullTrigger) {
    match t.consumer.kind
    case Always => false
    case Never => true
    case _ => t.consumer.site.Some? && t.ConsumerSite() in a
  }

  predicate HasProducerSite(t: FullTrigger) {
    t.producer.kind.DependsOnSite() && t.producer.site.Some?
  }

  predicate HasConsumerSite(t: FullTrigger) {
    t.consumer.kind.DependsOnSite() && t.consumer.site.Some?
  }

  function SitesOf(t: FullTrigger): set<Site> {
    (if HasProducerSite(t) then {t.ProducerSite()} else {}) + (if HasConsumerSite(t) then {t.ConsumerSite()} else {})
  }

  ghost predicate Flow(a: Labelling, p: Site, c: Site) {
    p in a ==> c in a
  }

  datatype Fact =
    | Label(site: Site, nilable: bool)
    | Implication(producer: Site, consumer: Site)
    | Unguarded(trigger: FullTrigger)      // the assertion itself, whatever controls it
    | Assertion(trigger: FullTrigger)      // the assertion, once its controller is nilable

  ghost predicate Holds(a: Labelling, f: Fact) {
    match f
    case Label(s, v) => s in a <==> v
    case Implication(p, c) => Flow(a, p, c)
    case Unguarded(t) => Produces(a, t) ==> Accepts(a, t)
    case Assertion(t) => (t.Controlled() ==> t.ControllerSite() in a) && Produces(a, t) ==> Accepts(a, t)
  }

  function FactSites(f: Fact): set<Site> {
    match f
    case Label(s, _) => {s}
    case Implication(p, c) => {p, c}
    case Unguarded(t) => SitesOf(t)
    case Assertion(t) => SitesOf(t) + if t.Controlled() then {t.ControllerSite()} else {}
  }

  /** A fact only depends on its sites. */
  lemma FactIsLocal(a: Labelling, a': Labelling, f: Fact)
    requires forall s :: s in FactSites(f) ==> (s in a <==> s in a')
    ensures Holds(a, f) <==> Holds(a', f)
  {
  }

  ghost predicate AllHold(a: Labelling, fs: set<Fact>) {
    forall f :: f in fs ==> Holds(a, f)
  }

  ghost predicate Satisfiable(fs: set<Fact>) {
    exists a: Labelling :: AllHold(a, fs)
  }

  /** Every solution gives `s` the label `v`. */
  ghost predicate Forced(fs: set<Fact>, s: Site, v: bool) {
    forall a: Labelling :: AllHold(a, fs) ==> (s in a <==> v)
  }

  /** `a` agrees with every label and respects every implication edge of `m`. */
  ghost predicate Models(a: Labelling, m: Mapping) {
    && (forall s, v :: Labelled(m, s, v) ==> (s in a <==> v))
    && (forall p, c :: Flows(m, p, c) ==> Flow(a, p, c))
    && (forall p, c :: FlowsBack(m, p, c) ==> Flow(a, p, c))
  }

  /** The same as facts, one for each label and each edge. */
  ghost function FactsAt(m: Mapping, s: Site): set<Fact> {
    (if Determined(m, s) then {Label(s, m[s].b.Val())} else {})
    + (set c | c in Implicates(m, s).vals :: Implication(s, c))
    + (set p | p in Implicants(m, s).vals :: Implication(p, s))
  }

  ghost function FactsOf(m: Mapping): set<Fact> {
    set s, f | s in m && f in FactsAt(m, s) :: f
  }

  ghost function FactsAtAll(m: Mapping, ss: seq<Site>): set<Fact> {
    set s, f | s in ss && f in FactsAt(m, s) :: f
  }

  lemma FactsNext(m: Mapping, ss: seq<Site>, i: nat)
    requires i < |ss|
    ensures FactsAtAll(m, ss[..i + 1]) == FactsAtAll(m, ss[..i]) + FactsAt(m, ss[i])
  {
    hide FactsAt;
    assert ss[..i + 1] == ss[..i] + [ss[i]];
  }

  lemma FactsDone(m: OMap<Site, InferredVal>)
    ensures FactsAtAll(m.vals, m.keys) == FactsOf(m.vals)
  {
    hide FactsAt;
    assert forall s :: s in m.keys <==> s in m.vals;
  }

  ghost function FactsOfAll(ms: seq<OMap<Site, InferredVal>>): set<Fact> {
    set m, f | m in ms && f in FactsOf(m.vals) :: f
  }

  lemma FactsOfNext(ms: seq<OMap<Site, InferredVal>>, i: nat)
    requires i < |ms|
    ensures FactsOfAll(ms[..i + 1]) == FactsOfAll(ms[..i]) + FactsOf(ms[i].vals)
  {
    hide FactsOf;
    assert ms[..i + 1] == ms[..i] + [ms[i]];
  }

  lemma FactsAreModels(a: Labelling, m: Mapping)
    ensures AllHold(a, FactsOf(m)) <==> Models(a, m)
  {
    if AllHold(a, FactsOf(m)) {
      forall s, v | Labelled(m, s, v) ensures s in a <==> v {
        assert Label(s, v) in FactsAt(m, s) && Holds(a, Label(s, v));
      }
      forall p, c | Flows(m, p, c) ensures Flow(a, p, c) {
        assert Implication(p, c) in FactsAt(m, p) && Holds(a, Implication(p, c));
      }
      forall p, c | FlowsBack(m, p, c) ensures Flow(a, p, c) {
        assert Implication(p, c) in FactsAt(m, c) && Holds(a, Implication(p, c));
      }
    }
    if Models(a, m) {
      forall f | f in FactsOf(m) ensures Holds(a, f) {
        var s :| s in m && f in FactsAt(m, s);
        if f.Label? {
          assert Labelled(m, s, f.nilable);
        } else {
          assert Flows(m, f.producer, f.consumer) || FlowsBack(m, f.producer, f.consumer);
        }
      }
    }
  }

  ghost predicate Owes(a: Labelling, todo: Pending) {
    forall p, c :: (p, c) in todo ==> Flow(a, p, c)
  }

  /** Whatever the map says now implies what it said then. */
  ghost predicate NothingLost(before: Mapping, now: Mapping) {
    forall a: Labelling :: Models(a, now) ==> Models(a, before)
  }

  /** What the map says together with the implications still to be propagated. */
  ghost predicate Theory(a: Labelling, m: Mapping, todo: Pending) {
    Models(a, m) && Owes(a, todo)
  }

  lemma LabelTheory(a: Labelling, m: Mapping, s: Site, b: ExplainedBool, todo: Pending)
    requires !Determined(m, s)
    ensures Theory(a, WithLabel(m, s, b), todo + Owed(m, s, b.Val()))
      <==> Theory(a, m, todo) && Holds(a, Label(s, b.Val()))
  {
    LabelStored(m, s, b);
    OwedPairs(m, s, b.Val());
    hide Flows, FlowsBack, Labelled, WithLabel, Owed;
    var m', owed := WithLabel(m, s, b), Owed(m, s, b.Val());
    if Theory(a, m', todo + owed) {
      assert Labelled(m', s, b.Val());
      forall p, c | Flows(m, p, c) ensures Flow(a, p, c) {
        assert p == s && b.Val() ==> (p, c) in todo + owed;
      }
      forall p, c | FlowsBack(m, p, c) ensures Flow(a, p, c) {
        assert c == s && !b.Val() ==> (p, c) in todo + owed;
      }
    }
  }

  lemma ImplicationTheory(a: Labelling, m: Mapping, m': Mapping, p: Site, c: Site, e: PrimitiveFullTrigger,
                          todo: Pending)
    requires ImplicationStored(m, m', p, c, e)
    ensures Theory(a, m', todo) <==> Theory(a, m, todo) && Holds(a, Implication(p, c))
  {
    StoredFlows(m, m', p, c, e);
    hide Flows, FlowsBack, Labelled, ImplicationStored;
    if Theory(a, m', todo) {
      assert Flows(m', p, c);
    }
  }

  /** An implication into a nilable site or out of a nonnil site says nothing more. */
  lemma SettledTheory(a: Labelling, m: Mapping, todo: Pending, p: Site, c: Site)
    requires Labelled(m, c, true) || Labelled(m, p, false)
    ensures Theory(a, m, todo + {(p, c)}) <==> Theory(a, m, todo)
  {
    hide Flows, FlowsBack, Labelled;
    if Theory(a, m, todo) {
      assert Flow(a, p, c);
    }
  }

  ghost function Nilables(m: Mapping): Labelling {
    iset s | Labelled(m, s, true)
  }

  ghost function AllButNonnil(m: Mapping): Labelling {
    iset s | !Labelled(m, s, false)
  }

  /** A quiescent map is satisfiable, by leaving every open site nonnil and by leaving every open
      site nilable: so exactly the labels are forced. */
  lemma QuiescentModels(m: Mapping)
    requires Quiescent(m)
    ensures Models(Nilables(m), m)
    ensures Models(AllButNonnil(m), m)
  {
    var low, high := Nilables(m), AllButNonnil(m);
    forall p, c | Flows(m, p, c) ensures Flow(low, p, c) && Flow(high, p, c) {
      assert SettledForward(m, p, c, {});
    }
    forall p, c | FlowsBack(m, p, c) ensures Flow(low, p, c) && Flow(high, p, c) {
      assert SettledBackward(m, p, c, {});
    }
  }

  lemma LabelsAreExact(m: Mapping, s: Site)
    requires Quiescent(m)
    ensures Labelled(m, s, true) <==> forall a: Labelling :: Models(a, m) ==> s in a
    ensures Labelled(m, s, false) <==> forall a: Labelling :: Models(a, m) ==> s !in a
  {
    QuiescentModels(m);
    hide Models;
    if forall a: Labelling :: Models(a, m) ==> s in a {
      assert s in Nilables(m);
    }
    if forall a: Labelling :: Models(a, m) ==> s !in a {
      assert s !in AllButNonnil(m);
    }
  }
}
