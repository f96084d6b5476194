// The verdict of inference over a whole run: conflicts exist exactly when what was observed cannot
// be satisfied, and the labels are exactly what it forces.
module Verdict {
  import opened Annotation
  import opened InferredMaps
  import opened Constraints
  import opened Explanation
  import opened Progress

  /** A controlled trigger that was never built. */
  ghost predicate Dormant(f: Fact, built: set<FullTrigger>) {
    f.Assertion? && f.trigger.Controlled() && f.trigger !in built
  }

  /** What was observed, without the dormant triggers. */
  ghost function Awake(history: set<Fact>, built: set<FullTrigger>): set<Fact> {
    set f | f in history && !Dormant(f, built)
  }

  /** The state says exactly what was observed: without a conflict the models of the map are the
      solutions of everything but the dormant triggers, and with one there are no solutions. */
  ghost predicate Faithful(st: State, history: set<Fact>) {
    && (forall t :: t in st.built ==> Assertion(t) in history)
    && (st.conflicts != [] ==> !Satisfiable(Awake(history, st.built)))
    && (st.conflicts == [] ==> forall a: Labelling :: AllHold(a, Awake(history, st.built)) ==> Models(a, st.m))
    && (st.conflicts == [] ==> forall a: Labelling :: Models(a, st.m) ==>
         AllHold(a, Awake(history, st.built)) && forall t :: t in st.built ==> Holds(a, Unguarded(t)))
  }

  ghost predicate Heard(table: Table, history: set<Fact>) {
    forall s, t :: t in Waiting(table, s) ==> t.Controlled() && t.ControllerSite() == s && Assertion(t) in history
  }

  lemma NothingOwed(a: Labelling, m: Mapping)
    ensures Theory(a, m, {}) <==> Models(a, m)
  {
  }

  lemma FewerHold(a: Labelling, fs: set<Fact>, fs': set<Fact>)
    requires fs <= fs' && AllHold(a, fs')
    ensures AllHold(a, fs)
  {
    hide Holds;
  }

  /** Triggers that are waiting for their controllers are dormant. */
  lemma FaithfulWaiting(st: State, history: set<Fact>, more: set<Fact>)
    requires Faithful(st, history)
    requires forall f :: f in more ==> f.Assertion? && f.trigger.Controlled()
    ensures Faithful(st, history + more)
  {
    assert Awake(history + more, st.built) == Awake(history, st.built);
    hide Awake, Models, AllHold, Holds, Satisfiable;
  }

  /** `g`, the form in which `f` is remembered. */
  ghost predicate RememberedAs(f: Fact, g: Fact) {
    && g == (if f.Unguarded? then Assertion(f.trigger) else f)
    && (g.Assertion? ==> !g.trigger.Controlled() && g.trigger.Buildable())
  }

  lemma AwakeStep(st: State, history: set<Fact>, table: Table, f: Fact, g: Fact, st': State)
    requires (forall t :: t in st.built ==> Assertion(t) in history) && Heard(table, history)
    requires Extends(st, st') && Fired(st, table, f, st') && RememberedAs(f, g)
    ensures forall t :: t in st'.built ==> Assertion(t) in history + {g}
    ensures Awake(history, st.built) <= Awake(history + {g}, st'.built)
    ensures g in Awake(history + {g}, st'.built)
    ensures forall t :: t in st'.built ==> Assertion(t) in Awake(history + {g}, st'.built)
    ensures forall h :: h in Awake(history + {g}, st'.built) ==>
      h in Awake(history, st.built) || h == g || (h.Assertion? && h.trigger in st'.built && h.trigger !in st.built)
  {
    hide Grows, Waiting, Labelled;
  }

  lemma AwakeHolds(st: State, history: set<Fact>, f: Fact, g: Fact, st': State, a: Labelling)
    requires Awake(history, st.built) <= Awake(history + {g}, st'.built) && RememberedAs(f, g)
    requires g in Awake(history + {g}, st'.built)
    requires forall t :: t in st'.built ==> Assertion(t) in Awake(history + {g}, st'.built)
    requires AllHold(a, Awake(history + {g}, st'.built))
    ensures AllHold(a, Awake(history, st.built)) && Guards(a, st'.built) && Holds(a, f)
  {
    FewerHold(a, Awake(history, st.built), Awake(history + {g}, st'.built));
    assert Holds(a, g);
    hide Awake, Produces, Accepts;
  }

  /** One more observation. */
  lemma FaithfulStep(st: State, history: set<Fact>, table: Table, f: Fact, g: Fact, st': State)
    requires Faithful(st, history) && Heard(table, history) && RememberedAs(f, g)
    requires Extends(st, st') && Exact(st, {}, f, st', {}) && Fired(st, table, f, st')
    ensures Faithful(st', history + {g})
  {
    AwakeStep(st, history, table, f, g, st');
    var awake, awake' := Awake(history, st.built), Awake(history + {g}, st'.built);
    forall a: Labelling | AllHold(a, awake')
      ensures AllHold(a, awake) && Guards(a, st'.built) && Holds(a, f)
    {
      AwakeHolds(st, history, f, g, st', a);
    }
    forall a: Labelling
      ensures Theory(a, st.m, {}) <==> Models(a, st.m)
      ensures Theory(a, st'.m, {}) <==> Models(a, st'.m)
    {
      NothingOwed(a, st.m);
      NothingOwed(a, st'.m);
    }
    if st'.conflicts == [] {
      forall a: Labelling | Models(a, st'.m)
        ensures AllHold(a, awake') && forall t :: t in st'.built ==> Holds(a, Unguarded(t))
      {
        RememberedHold(st, history, f, g, st', a);
      }
    }
    hide Holds, Models, Guards, Theory, Awake, Fired, Grows, Heard;
  }

  lemma RememberedHold(st: State, history: set<Fact>, f: Fact, g: Fact, st': State, a: Labelling)
    requires Faithful(st, history) && RememberedAs(f, g) && st.conflicts == []
    requires Remembers(st, {}, f, st', {}) && Models(a, st'.m)
    requires forall h :: h in Awake(history + {g}, st'.built) ==>
      h in Awake(history, st.built) || h == g || (h.Assertion? && h.trigger in st'.built && h.trigger !in st.built)
    ensures AllHold(a, Awake(history + {g}, st'.built))
    ensures forall t :: t in st'.built ==> Holds(a, Unguarded(t))
  {
    NothingOwed(a, st.m);
    NothingOwed(a, st'.m);
    hide Models, Theory, Awake, Produces, Accepts;
    assert Models(a, st.m);
    forall h | h in Awake(history + {g}, st'.built) ensures Holds(a, h) {
      if h !in Awake(history, st.built) && h != g {
        assert Holds(a, Unguarded(h.trigger));
      }
    }
  }

  lemma StillNothingLost(up: Mapping, st: State, f: Fact, st': State)
    requires st.conflicts == [] ==> NothingLost(up, st.m)
    requires Extends(st, st') && Exact(st, {}, f, st', {})
    ensures st'.conflicts == [] ==> NothingLost(up, st'.m)
  {
    hide Models, Grows, Holds;
    if st'.conflicts == [] {
      forall a: Labelling | Models(a, st'.m) ensures Models(a, up) {
        NothingOwed(a, st'.m);
        NothingOwed(a, st.m);
      }
    }
  }

  /** Without a conflict, a controlled trigger that was built has a nilable controller. */
  ghost predicate BuiltAreNilable(st: State) {
    st.conflicts == [] ==> forall t :: t in st.built && t.Controlled() ==> Labelled(st.m, t.ControllerSite(), true)
  }

  lemma StillNilable(st: State, table: Table, f: Fact, g: Fact, st': State)
    requires BuiltAreNilable(st) && Extends(st, st') && Fired(st, table, f, st') && RememberedAs(f, g)
    ensures BuiltAreNilable(st')
  {
    GrowsKeeps(st.m, st'.m);
    hide Grows, Cited, Connected, Waiting, Labelled;
  }

  /** Building what is remembered does not panic. */
  ghost predicate AllBuildable(history: set<Fact>) {
    forall f :: f in history && (f.Assertion? || f.Unguarded?) ==> f.trigger.Buildable()
  }

  /** The state says what was observed, and extends what was imported. */
  ghost predicate Settled(st: State, table: Table, history: set<Fact>, up: Mapping) {
    && Heard(table, history) && AllBuildable(history)
    && Faithful(st, history)
    && BuiltAreNilable(st)
    && Quiescent(up) && Grows(up, st.m)
    && (st.conflicts == [] ==> NothingLost(up, st.m))
  }

  lemma SettledStep(st: State, table: Table, history: set<Fact>, up: Mapping, f: Fact, g: Fact, st': State)
    requires Settled(st, table, history, up) && RememberedAs(f, g)
    requires Extends(st, st') && Exact(st, {}, f, st', {}) && Fired(st, table, f, st')
    ensures Settled(st', table, history + {g}, up)
  {
    FaithfulStep(st, history, table, f, g, st');
    StillNilable(st, table, f, g, st');
    GrowsTransitive(up, st.m, st'.m);
    StillNothingLost(up, st, f, st');
    hide Faithful, Exact, Fired, Grows, NothingLost, BuiltAreNilable, Quiescent;
  }

  lemma SettledAdmits(st: State, table: Table, history: set<Fact>, up: Mapping, ev: set<Evidence>)
    requires Settled(st, table, history, up)
    ensures Settled(st.(evidence := st.evidence + ev), table, history, up)
  {
    hide Awake, Models, AllHold, Holds, Satisfiable, Grows, NothingLost, Heard, Labelled, Quiescent;
  }

  ghost predicate FromAnnotation(e: Evidence, history: set<Fact>) {
    e.Annotated? && e.position == e.site.key.position && Label(e.site, e.nilable) in history
  }

  /** Where a constraint that explanations may cite comes from: an imported map, a trigger that was
      built, or an annotation that was observed. */
  ghost predicate Backed(e: Evidence, imported: set<Evidence>, built: set<FullTrigger>, history: set<Fact>) {
    || e in imported
    || (exists t :: t in built && e in EvidenceOf(t))
    || FromAnnotation(e, history)
  }

  ghost predicate AllBacked(evidence: set<Evidence>, imported: set<Evidence>, built: set<FullTrigger>,
                            history: set<Fact>)
  {
    forall e :: e in evidence ==> Backed(e, imported, built, history)
  }

  lemma BackedMore(e: Evidence, imported: set<Evidence>, built: set<FullTrigger>, history: set<Fact>,
                   imported': set<Evidence>, built': set<FullTrigger>, history': set<Fact>)
    requires Backed(e, imported, built, history) && imported <= imported' && built <= built' && history <= history'
    ensures Backed(e, imported', built', history')
  {
    hide EvidenceOf;
    if t :| t in built && e in EvidenceOf(t) {
      assert t in built';
    }
  }

  lemma AllBackedMore(evidence: set<Evidence>, imported: set<Evidence>, built: set<FullTrigger>, history: set<Fact>,
                      imported': set<Evidence>, built': set<FullTrigger>, history': set<Fact>)
    requires AllBacked(evidence, imported, built, history)
    requires imported <= imported' && built <= built' && history <= history'
    ensures AllBacked(evidence, imported', built', history')
  {
    hide Backed;
    forall e | e in evidence ensures Backed(e, imported', built', history') {
      BackedMore(e, imported, built, history, imported', built', history');
    }
  }

  lemma StillBacked(st: State, imported: set<Evidence>, history: set<Fact>, st': State)
    requires AllBacked(st.evidence, imported, st.built, history) && Extends(st, st') && Cited(st, st')
    ensures AllBacked(st'.evidence, imported, st'.built, history)
  {
    AllBackedMore(st.evidence, imported, st.built, history, imported, st'.built, history);
    hide Grows, EvidenceOf, FromAnnotation;
    forall e | e in st'.evidence ensures Backed(e, imported, st'.built, history) {
      if e !in st.evidence {
        assert exists t :: t in st'.built && e in EvidenceOf(t);
      }
    }
  }

  /** The verdict and the labels are exact for everything that was observed and not left dormant. */
  lemma VerdictIsExact(st: State, history: set<Fact>)
    requires Quiescent(st.m) && Faithful(st, history)
    ensures st.conflicts == [] <==> Satisfiable(Awake(history, st.built))
    ensures st.conflicts == [] ==> forall s, v ::
      Labelled(st.m, s, v) <==> Forced(Awake(history, st.built), s, v)
  {
    if st.conflicts == [] {
      QuiescentModels(st.m);
      hide Models, Quiescent, Awake, AllHold;
      assert AllHold(Nilables(st.m), Awake(history, st.built));
      forall s, v
        ensures Labelled(st.m, s, v) <==> forall a: Labelling :: Models(a, st.m) ==> (s in a <==> v)
      {
        LabelsAreExact(st.m, s);
      }
    }
  }

  /** No dormant trigger has a nilable controller. */
  ghost predicate NoneOverslept(st: State, history: set<Fact>) {
    forall f :: f in history && Dormant(f, st.built) ==> !Labelled(st.m, f.trigger.ControllerSite(), true)
  }

  /** Then dormant triggers make no difference: the nilable labels are the least solution of all that
      was observed, controlled triggers included. */
  lemma WholeVerdictIsExact(st: State, history: set<Fact>)
    requires Quiescent(st.m) && Faithful(st, history) && NoneOverslept(st, history)
    ensures st.conflicts == [] <==> Satisfiable(history)
    ensures st.conflicts == [] ==> AllHold(Nilables(st.m), history)
    ensures st.conflicts == [] ==> forall a: Labelling :: AllHold(a, history) ==> Nilables(st.m) <= a
  {
    var awake, least := Awake(history, st.built), Nilables(st.m);
    forall a: Labelling | AllHold(a, history) ensures AllHold(a, awake) {
      FewerHold(a, awake, history);
    }
    if st.conflicts == [] {
      QuiescentModels(st.m);
      forall f | f in history ensures Holds(least, f) {
        if Dormant(f, st.built) {
          assert f.trigger.ControllerSite() !in least;
        } else {
          assert f in awake;
        }
      }
      assert AllHold(least, history);
      forall a: Labelling | AllHold(a, history) ensures least <= a {
        assert Models(a, st.m);
      }
    }
  }
}
