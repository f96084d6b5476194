// What is reported for the conflicts of an engine (diagnostic/engine.go), and that each report shows a
// path of constraints that were observed or imported.
module Reporting {
  import opened Annotation
  import opened InferredMaps
  import opened Constraints
  import opened Explanation
  import opened Progress
  import opened Verdict
  import opened Diagnostic

  function ReportOf(c: Conflict): Report {
    match c
    case SingleAssertion(t) =>
      Report(t.consumer.position, [], [NewNode(Some(t.producer.repr), Some(t.consumer.repr))])
    case Overconstraint(yes, no) =>
      OverconstraintReport(yes, no)
  }

  ghost function ReportsOf(cs: seq<Conflict>): seq<Report> {
    if cs == [] then [] else ReportsOf(cs[..|cs| - 1]) + [ReportOf(cs[|cs| - 1])]
  }

  /** The diagnostic engine is handed the conflicts one by one, in the order in which they arise. */
  method Diagnose(cs: seq<Conflict>) returns (d: DiagnosticEngine)
    ensures fresh(d) && d.conflicts == ReportsOf(cs)
  {
    d := new DiagnosticEngine();
    for i := 0 to |cs|
      invariant fresh(d) && d.conflicts == ReportsOf(cs[..i])
    {
      assert cs[..i + 1][..i] == cs[..i];
      match cs[i]
      case SingleAssertion(t) => d.AddSingleAssertionConflict(t);
      case Overconstraint(yes, no) => d.AddOverconstraintConflict(yes, no);
    }
    assert cs[..|cs|] == cs;
  }

  lemma {:induction false} ReportAt(cs: seq<Conflict>, i: nat)
    requires i < |cs|
    ensures |ReportsOf(cs)| == |cs| && ReportsOf(cs)[i] == ReportOf(cs[i])
  {
    hide ReportOf;
    if i < |cs| - 1 {
      ReportAt(cs[..|cs| - 1], i);
    } else {
      ReportsSize(cs[..|cs| - 1]);
    }
  }

  lemma {:induction false} ReportsSize(cs: seq<Conflict>)
    ensures |ReportsOf(cs)| == |cs|
  {
    hide ReportOf;
    if cs != [] {
      ReportsSize(cs[..|cs| - 1]);
    }
  }

  /** A contiguous path of constraints from an always-nil source to an always-nonnil sink. */
  ghost predicate Complete(es: seq<Evidence>) {
    es != [] && Contiguous(es) && From(es[0]).None? && To(es[|es| - 1]).None?
  }

  /** The first `at` constraints are shown on the nil path, the others on the nonnil path, and the last
      one is where the report is. */
  ghost predicate ReportShows(r: Report, es: seq<Evidence>, at: nat) {
    && at < |es| && Shows(r.nilPath, es[..at]) && Shows(r.nonnilPath, es[at..])
    && r.position == PlaceOf(LastOf(es))
  }

  /** Every conflict is reported as a complete path of citable constraints. */
  lemma ConflictHasPath(c: Conflict, ev: set<Evidence>) returns (es: seq<Evidence>, at: nat)
    requires Substantiated(c, ev)
    ensures Complete(es) && (forall e :: e in es ==> e in ev)
    ensures ReportShows(ReportOf(c), es, at)
  {
    match c
    case SingleAssertion(t) =>
      es, at := [Unsafe(t)], 0;
      assert es[..0] == [] && es[0..] == es && es[|es| - 1] == Unsafe(t);
    case Overconstraint(yes, no) =>
      es, at := ReportedFlowIsContiguous(c, ev);
  }

  /** A report that shows a complete path of constraints, each observed or imported. */
  ghost predicate Accounted(r: Report, imported: set<Evidence>, built: set<FullTrigger>, history: set<Fact>) {
    exists es: seq<Evidence>, at: nat ::
      Complete(es) && ReportShows(r, es, at) && forall e :: e in es ==> Backed(e, imported, built, history)
  }

  ghost predicate Displays(text: string, position: Option<Position>, r: Repr) {
    text == r.text && if r.Located? then position == Some(r.location) else position == None
  }

  /** Reported at the consumer of `t`, with both of its representations shown last. */
  ghost predicate AtTrigger(r: Report, t: FullTrigger) {
    && r.position == t.consumer.position && r.nonnilPath != []
    && var last := LastOf(r.nonnilPath);
    && Displays(last.producerRepr, last.producerPosition, t.producer.repr)
    && Displays(last.consumerRepr, last.consumerPosition, t.consumer.repr)
  }

  ghost predicate AtAnnotation(r: Report, s: Site) {
    && r.position == s.key.position && r.nonnilPath != []
    && LastOf(r.nonnilPath) == Node(Some(s.key.position), None, NONNIL_TEXT, "")
  }

  /** Every report is where nil must not arrive: at a consumer that always refuses it, which is shown last,
      at an annotation that refuses it, or at a constraint of an earlier package that leads nowhere else. */
  lemma ReportedAtTheSink(r: Report, imported: set<Evidence>, built: set<FullTrigger>, history: set<Fact>)
    requires Accounted(r, imported, built, history)
    ensures
      || (exists t :: t in built && t.consumer.kind.Always? && AtTrigger(r, t))
      || (exists s :: Label(s, false) in history && AtAnnotation(r, s))
      || (exists e :: e in imported && To(e).None? && r.position == PlaceOf(e))
  {
    hide Contiguous;
    var es: seq<Evidence>, at: nat :|
      Complete(es) && ReportShows(r, es, at) && forall e :: e in es ==> Backed(e, imported, built, history);
    var e := LastOf(es);
    assert e in es && To(e).None?;
    assert es[at..][|es[at..]| - 1] == e;
    if t :| t in built && e in EvidenceOf(t) {
      assert AtTrigger(r, t);
    } else if e !in imported {
      assert FromAnnotation(e, history) && AtAnnotation(r, e.site);
    }
  }

  lemma ReportsAreAccounted(st: State, imported: set<Evidence>, history: set<Fact>, i: nat)
    requires Sound(st, {}) && AllBacked(st.evidence, imported, st.built, history) && i < |st.conflicts|
    ensures |ReportsOf(st.conflicts)| == |st.conflicts|
    ensures Accounted(ReportsOf(st.conflicts)[i], imported, st.built, history)
  {
    ReportAt(st.conflicts, i);
    assert Substantiated(st.conflicts[i], st.evidence);
    hide Substantiated, Consistent, Explained, Complete, ReportShows, ReportOf, Backed, ReportsOf;
    var es, at := ConflictHasPath(st.conflicts[i], st.evidence);
    assert forall e :: e in es ==> Backed(e, imported, st.built, history);
  }

  /** What a citable constraint says. */
  ghost predicate Says(a: Labelling, e: Evidence) {
    match e
    case NilSource(s, _) => s in a
    case NonnilSink(s, _) => s !in a
    case Annotated(s, v, _) => s in a <==> v
    case Edge(p, c, _) => Flow(a, p, c)
    case Unsafe(_) => false
  }

  /** Nil flows along a path. */
  lemma {:induction false} NilReaches(a: Labelling, es: seq<Evidence>, i: nat)
    requires es != [] && Contiguous(es) && From(es[0]).None? && (forall e :: e in es ==> Says(a, e))
    requires i < |es| && To(es[i]).Some?
    ensures To(es[i]).value in a
  {
    assert es[i] in es;
    if i > 0 {
      assert To(es[i - 1]).Some? && To(es[i - 1]) == From(es[i - 1 + 1]);
      NilReaches(a, es, i - 1);
    }
  }

  /** So the constraints of a complete path contradict each other. */
  lemma CompleteRefutes(a: Labelling, es: seq<Evidence>)
    requires Complete(es)
    ensures exists e :: e in es && !Says(a, e)
  {
    var last := |es| - 1;
    assert es[last] in es;
    if forall e :: e in es ==> Says(a, e) {
      if last > 0 {
        assert To(es[last - 1]).Some? && To(es[last - 1]) == From(es[last - 1 + 1]);
        NilReaches(a, es, last - 1);
      }
    }
  }

  /** What building a trigger cites is what it says. */
  lemma TriggerSays(a: Labelling, t: FullTrigger, e: Evidence)
    requires e in EvidenceOf(t) && Holds(a, Unguarded(t))
    ensures Says(a, e)
  {
  }

  /** A fact gives a constraint: an assertion what building it cites, an implication an edge, and a label
      a source or a sink. */
  ghost predicate Gives(f: Fact, e: Evidence) {
    match f
    case Label(s, v) => e == Annotated(s, v, s.key.position)
    case Implication(p, c) => e.Edge? && e.producer == p && e.consumer == c
    case Unguarded(t) => e in EvidenceOf(t)
    case Assertion(t) => e in EvidenceOf(t)
  }

  ghost predicate Given(fs: set<Fact>, e: Evidence) {
    exists f :: f in fs && Gives(f, e)
  }

  /** Some source leads to some sink, along given facts. */
  ghost predicate Leaks(fs: set<Fact>) {
    exists es: seq<Evidence> :: Complete(es) && forall e :: e in es ==> Given(fs, e)
  }

  /** Some source leads to `s`, along given facts. */
  ghost predicate Sourced(fs: set<Fact>, s: Site) {
    exists es: seq<Evidence> :: PathFrom(fs, es) && To(es[|es| - 1]) == Some(s)
  }

  ghost predicate PathFrom(fs: set<Fact>, es: seq<Evidence>) {
    es != [] && Contiguous(es) && From(es[0]).None? && forall e :: e in es ==> Given(fs, e)
  }

  lemma SourceStarts(fs: set<Fact>, e: Evidence)
    requires Given(fs, e) && From(e).None?
    ensures if To(e).Some? then Sourced(fs, To(e).value) else Leaks(fs)
  {
    hide Given;
    assert PathFrom(fs, [e]) && [e][|[e]| - 1] == e;
    assert To(e).None? ==> Complete([e]);
  }

  lemma SourceGoesOn(fs: set<Fact>, s: Site, e: Evidence)
    requires Sourced(fs, s) && Given(fs, e) && From(e) == Some(s)
    ensures if To(e).Some? then Sourced(fs, To(e).value) else Leaks(fs)
  {
    hide Given, From, To;
    var es: seq<Evidence> :| PathFrom(fs, es) && To(es[|es| - 1]) == Some(s);
    var longer := es + [e];
    assert longer[|longer| - 1] == e;
    assert PathFrom(fs, longer);
    assert To(e).None? ==> Complete(longer);
  }

  ghost function AllSourced(fs: set<Fact>): Labelling {
    iset s | Sourced(fs, s)
  }

  /** What holds even if its controller does not matter. */
  ghost predicate HoldsBare(a: Labelling, f: Fact) {
    if f.Assertion? then Holds(a, Unguarded(f.trigger)) else Holds(a, f)
  }

  /** Without a leak, making nilable what some source leads to satisfies everything. */
  lemma NoLeakHolds(fs: set<Fact>, f: Fact)
    requires !Leaks(fs) && AllBuildable(fs) && f in fs
    ensures HoldsBare(AllSourced(fs), f)
  {
    match f
    case Label(s, v) =>
      var e := Annotated(s, v, s.key.position);
      assert Gives(f, e) && Given(fs, e);
      if v {
        SourceStarts(fs, e);
      } else if Sourced(fs, s) {
        SourceGoesOn(fs, s, e);
      }
    case Implication(p, c) =>
      if Sourced(fs, p) {
        var e := Edge(p, c, PrimitiveFullTrigger(p.key.position, Plain(""), Plain("")));
        assert Gives(f, e) && Given(fs, e);
        SourceGoesOn(fs, p, e);
      }
    case Unguarded(t) =>
      TriggerHolds(fs, f, t);
    case Assertion(t) =>
      TriggerHolds(fs, f, t);
  }

  lemma TriggerHolds(fs: set<Fact>, f: Fact, t: FullTrigger)
    requires !Leaks(fs) && f in fs && (f == Unguarded(t) || f == Assertion(t)) && t.Buildable()
    ensures Holds(AllSourced(fs), Unguarded(t))
  {
    forall e | e in EvidenceOf(t) ensures Given(fs, e) {
      assert Gives(f, e);
    }
    hide Given, Sourced, Leaks;
    if t.producer.kind.Always? && !t.consumer.kind.Never? {
      var e := if t.consumer.kind.Always? then Unsafe(t) else NilSource(t.ConsumerSite(), t.Primitive());
      assert e in EvidenceOf(t);
      SourceStarts(fs, e);
    } else if t.producer.kind.DependsOnSite() && !t.consumer.kind.Never? && Sourced(fs, t.ProducerSite()) {
      var e := if t.consumer.kind.Always? then NonnilSink(t.ProducerSite(), t.Primitive())
               else Edge(t.ProducerSite(), t.ConsumerSite(), t.Primitive());
      assert e in EvidenceOf(t);
      SourceGoesOn(fs, t.ProducerSite(), e);
    }
  }

  lemma NoLeakIsSolution(fs: set<Fact>)
    requires !Leaks(fs) && AllBuildable(fs)
    ensures AllHold(AllSourced(fs), fs)
  {
    hide AllSourced, Leaks, AllBuildable;
    forall f | f in fs ensures Holds(AllSourced(fs), f) {
      NoLeakHolds(fs, f);
    }
  }

  lemma GivenSays(a: Labelling, f: Fact, e: Evidence)
    requires HoldsBare(a, f) && Gives(f, e)
    ensures Says(a, e)
  {
    if f.Assertion? || f.Unguarded? {
      TriggerSays(a, f.trigger, e);
    }
  }

  lemma LeakRefutes(a: Labelling, fs: set<Fact>)
    requires Leaks(fs)
    ensures exists f :: f in fs && !HoldsBare(a, f)
  {
    hide Complete, Gives, HoldsBare, Says;
    var es: seq<Evidence> :| Complete(es) && forall e :: e in es ==> Given(fs, e);
    CompleteRefutes(a, es);
    var e :| e in es && !Says(a, e);
    var f :| f in fs && Gives(f, e);
    if HoldsBare(a, f) {
      GivenSays(a, f, e);
    }
  }

  /** Constraints that nothing guards contradict each other exactly if a source leads to a sink. */
  lemma UnsatisfiableIsLeak(fs: set<Fact>)
    requires AllBuildable(fs) && forall f :: f in fs ==> !(f.Assertion? && f.trigger.Controlled())
    ensures !Satisfiable(fs) <==> Leaks(fs)
  {
    if Leaks(fs) {
      forall a: Labelling ensures !AllHold(a, fs) {
        LeakRefutes(a, fs);
        hide Leaks;
      }
    } else {
      NoLeakIsSolution(fs);
    }
  }

  /** There is a conflict exactly if what was observed or imported, and is awake, leads from a source to
      a sink. */
  lemma ConflictIsLeak(st: State, history: set<Fact>)
    requires Quiescent(st.m) && Faithful(st, history) && AllBuildable(history)
    ensures st.conflicts != [] <==> Leaks(Awake(history, st.built))
  {
    var awake := Awake(history, st.built);
    VerdictIsExact(st, history);
    if Leaks(awake) {
      LeakRefutes(Nilables(st.m), awake);
      if st.conflicts == [] {
        AwakeHoldsBare(st, history);
        assert false;
      }
    } else {
      assert AllBuildable(awake);
      hide AllBuildable, Leaks, Faithful;
      NoLeakIsSolution(awake);
    }
  }

  lemma AwakeHoldsBare(st: State, history: set<Fact>)
    requires Quiescent(st.m) && Faithful(st, history) && st.conflicts == []
    ensures forall f :: f in Awake(history, st.built) ==> HoldsBare(Nilables(st.m), f)
  {
    QuiescentModels(st.m);
    hide Quiescent, Models, Produces, Accepts;
    forall f | f in Awake(history, st.built) ensures HoldsBare(Nilables(st.m), f) {
      assert Holds(Nilables(st.m), f);
      if f.Assertion? && f.trigger.Controlled() {
        assert f.trigger in st.built;
      }
    }
  }
}
