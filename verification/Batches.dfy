// What batches of triggers mean, with nothing but facts: which controlled triggers of a batch count
// at all, which of them take effect, and that this is what the engine computes.
module Batches {
  import opened Annotation
  import opened InferredMaps
  import opened Constraints
  import opened Progress
  import opened Verdict
  import opened InferenceEngine

  ghost function Assertions(triggers: seq<FullTrigger>): set<Fact> {
    set t | t in triggers :: Assertion(t)
  }

  ghost function AllAssertions(batches: seq<seq<FullTrigger>>): set<Fact> {
    set b, t | b in batches && t in b :: Assertion(t)
  }

  lemma AllAssertionsNext(batches: seq<seq<FullTrigger>>, i: nat)
    requires i < |batches|
    ensures batches[..i + 1] == batches[..i] + [batches[i]]
    ensures AllAssertions(batches[..i + 1]) == AllAssertions(batches[..i]) + Assertions(batches[i])
  {
    assert batches[..i + 1] == batches[..i] + [batches[i]];
  }

  ghost predicate Guarded(f: Fact) {
    f.Assertion? && f.trigger.Controlled()
  }

  /** A trigger whose controller is nilable before its batch comes too late to be woken. */
  ghost predicate InTime(fs: set<Fact>, f: Fact) {
    Guarded(f) ==> !Forced(fs, f.trigger.ControllerSite(), true)
  }

  ghost function Timely(fs: set<Fact>, d: set<Fact>): set<Fact> {
    set f | f in d && InTime(fs, f)
  }

  /** And one whose controller is not nilable after its batch is never woken later. */
  ghost predicate TakesEffect(fs: set<Fact>, d: set<Fact>, f: Fact) {
    InTime(fs, f) && (Guarded(f) ==> Forced(fs + Timely(fs, d), f.trigger.ControllerSite(), true))
  }

  ghost function Effective(fs: set<Fact>, d: set<Fact>): set<Fact> {
    set f | f in d && TakesEffect(fs, d, f)
  }

  /** The facts in effect after batches, one after the other. */
  ghost function After(fs: set<Fact>, batches: seq<seq<FullTrigger>>): set<Fact> {
    if batches == [] then fs
    else
      var before := After(fs, batches[..|batches| - 1]);
      before + Effective(before, Assertions(batches[|batches| - 1]))
  }

  /** Nothing contradicts what is in effect, in any batch. */
  ghost predicate Clean(fs: set<Fact>, batches: seq<seq<FullTrigger>>) {
    if batches == [] then Satisfiable(fs)
    else
      var front := batches[..|batches| - 1];
      && Clean(fs, front)
      && Satisfiable(After(fs, front) + Timely(After(fs, front), Assertions(batches[|batches| - 1])))
  }

  /** The state means `fs`: no conflict exactly if `clean`, and then the map has the same solutions. */
  ghost predicate Tells(st: State, clean: bool, fs: set<Fact>) {
    && (st.conflicts == [] <==> clean)
    && (st.conflicts == [] ==> SameModels(st.m, fs))
  }

  ghost predicate SameModels(m: Mapping, fs: set<Fact>) {
    forall a: Labelling :: Models(a, m) <==> AllHold(a, fs)
  }

  lemma BothHold(a: Labelling, fs: set<Fact>, d: set<Fact>)
    ensures AllHold(a, fs + d) <==> AllHold(a, fs) && AllHold(a, d)
  {
    hide Holds;
  }

  /** The labels are what the facts force. */
  lemma LabelsAreForced(m: Mapping, fs: set<Fact>, s: Site, v: bool)
    requires Quiescent(m) && SameModels(m, fs)
    ensures Labelled(m, s, v) <==> Forced(fs, s, v)
  {
    LabelsAreExact(m, s);
    hide Quiescent, Models, AllHold;
  }

  lemma SameModelsSatisfiable(m: Mapping, fs: set<Fact>)
    requires Quiescent(m) && SameModels(m, fs)
    ensures Satisfiable(fs)
  {
    QuiescentModels(m);
    hide Models, AllHold;
  }

  /** A batch between two states of a run, the first without a conflict. */
  ghost predicate Batch(st: State, history: set<Fact>, fs: set<Fact>, triggers: seq<FullTrigger>, st': State) {
    && Quiescent(st.m) && Faithful(st, history) && st.conflicts == [] && SameModels(st.m, fs)
    && Extends(st, st') && Fires(st, triggers, st')
    && Quiescent(st'.m) && Faithful(st', history + Assertions(triggers)) && BuiltAreNilable(st')
  }

  lemma BuiltIsTimely(st: State, history: set<Fact>, fs: set<Fact>, triggers: seq<FullTrigger>, st': State,
                      t: FullTrigger)
    requires Batch(st, history, fs, triggers, st') && t in st'.built && t !in st.built
    ensures Assertion(t) in Timely(fs, Assertions(triggers))
  {
    GrowsKeeps(st.m, st'.m);
    hide Grows, Faithful, Quiescent, SameModels, Labelled;
    assert t in triggers && Assertion(t) in Assertions(triggers);
    if t.Controlled() {
      BatchForced(st, history, fs, triggers, st', t.ControllerSite());
    }
  }

  lemma BatchForced(st: State, history: set<Fact>, fs: set<Fact>, triggers: seq<FullTrigger>, st': State, s: Site)
    requires Batch(st, history, fs, triggers, st')
    ensures Labelled(st.m, s, true) <==> Forced(fs, s, true)
  {
    LabelsAreForced(st.m, fs, s, true);
  }

  /** What is in time holds of everything that was built. */
  lemma TimelyImpliesAwake(st: State, history: set<Fact>, fs: set<Fact>, triggers: seq<FullTrigger>, st': State,
                           some: set<Fact>, a: Labelling)
    requires Batch(st, history, fs, triggers, st') && AllHold(a, fs) && AllHold(a, some)
    requires forall f :: f in Assertions(triggers) && !Guarded(f) ==> f in some
    requires forall t :: t in st'.built && t !in st.built ==> Assertion(t) in some
    ensures AllHold(a, Awake(history + Assertions(triggers), st'.built))
  {
    assert Models(a, st.m);
    assert AllHold(a, Awake(history, st.built)) && forall t :: t in st.built ==> Holds(a, Unguarded(t));
    hide Batch, Models, Faithful, Fires, Quiescent, Grows, SameModels;
    forall f | f in Awake(history + Assertions(triggers), st'.built) ensures Holds(a, f) {
      if Guarded(f) {
        if f.trigger in st.built {
          assert Holds(a, Unguarded(f.trigger));
        } else {
          assert f.trigger in st'.built;
        }
      } else if f in history {
        assert f in Awake(history, st.built);
      }
    }
  }

  /** Without a conflict, the map says what was in effect before and everything that was built. */
  lemma AwakeImplied(st: State, history: set<Fact>, fs: set<Fact>, triggers: seq<FullTrigger>, st': State, a: Labelling)
    requires Batch(st, history, fs, triggers, st') && st'.conflicts == [] && Models(a, st'.m)
    ensures AllHold(a, Awake(history + Assertions(triggers), st'.built)) && AllHold(a, fs)
  {
    assert AllHold(a, Awake(history + Assertions(triggers), st'.built));
    hide Holds, Grows, Quiescent;
    assert Awake(history, st.built) <= Awake(history + Assertions(triggers), st'.built);
    FewerHold(a, Awake(history, st.built), Awake(history + Assertions(triggers), st'.built));
    assert Models(a, st.m);
  }

  /** The least labels satisfy everything that was in time. */
  lemma LeastIsTimely(st: State, history: set<Fact>, fs: set<Fact>, triggers: seq<FullTrigger>, st': State)
    requires Batch(st, history, fs, triggers, st') && st'.conflicts == []
    ensures AllHold(Nilables(st'.m), fs + Timely(fs, Assertions(triggers)))
  {
    var low, d := Nilables(st'.m), Assertions(triggers);
    QuiescentModels(st'.m);
    AwakeImplied(st, history, fs, triggers, st', low);
    forall f | f in Timely(fs, d) ensures Holds(low, f) {
      TimelyHolds(st, history, fs, triggers, st', low, f);
    }
    hide Holds, Batch, Timely;
    BothHold(low, fs, Timely(fs, d));
  }

  lemma TimelyHolds(st: State, history: set<Fact>, fs: set<Fact>, triggers: seq<FullTrigger>, st': State,
                    low: Labelling, f: Fact)
    requires Batch(st, history, fs, triggers, st') && low == Nilables(st'.m) && f in Timely(fs, Assertions(triggers))
    requires AllHold(low, Awake(history + Assertions(triggers), st'.built))
    ensures Holds(low, f)
  {
    if Guarded(f) && f.trigger.ControllerSite() in low {
      BatchForced(st, history, fs, triggers, st', f.trigger.ControllerSite());
      hide Quiescent, Faithful, Grows, SameModels, Forced, AllHold, Labelled;
      assert f.trigger in triggers;
      assert f.trigger in st'.built;
    }
    hide Batch, Produces, Accepts;
    assert f in Assertions(triggers);
    if !Guarded(f) || f.trigger in st'.built {
      assert f in Awake(history + Assertions(triggers), st'.built);
    }
  }

  /** A batch is clean exactly if what is in time has a solution. */
  lemma BatchVerdict(st: State, history: set<Fact>, fs: set<Fact>, triggers: seq<FullTrigger>, st': State)
    requires Batch(st, history, fs, triggers, st')
    ensures st'.conflicts == [] <==> Satisfiable(fs + Timely(fs, Assertions(triggers)))
  {
    var d := Assertions(triggers);
    var timely := Timely(fs, d);
    if st'.conflicts == [] {
      LeastIsTimely(st, history, fs, triggers, st');
    }
    if Satisfiable(fs + timely) {
      var a: Labelling :| AllHold(a, fs + timely);
      TimelyAwake(st, history, fs, triggers, st', a);
      hide Holds, Awake;
      assert Satisfiable(Awake(history + d, st'.built));
    }
  }

  lemma TimelyAwake(st: State, history: set<Fact>, fs: set<Fact>, triggers: seq<FullTrigger>, st': State, a: Labelling)
    requires Batch(st, history, fs, triggers, st') && AllHold(a, fs + Timely(fs, Assertions(triggers)))
    ensures AllHold(a, Awake(history + Assertions(triggers), st'.built))
  {
    var timely := Timely(fs, Assertions(triggers));
    BothHold(a, fs, timely);
    forall t | t in st'.built && t !in st.built ensures Assertion(t) in timely {
      BuiltIsTimely(st, history, fs, triggers, st', t);
    }
    assert forall f :: f in Assertions(triggers) && !Guarded(f) ==> f in timely;
    hide Holds, Awake, Batch, Timely, Assertions;
    TimelyImpliesAwake(st, history, fs, triggers, st', timely, a);
  }

  /** Which sites are nilable after a batch. */
  lemma BatchNilables(st: State, history: set<Fact>, fs: set<Fact>, triggers: seq<FullTrigger>, st': State, s: Site)
    requires Batch(st, history, fs, triggers, st') && st'.conflicts == []
    ensures Labelled(st'.m, s, true) <==> Forced(fs + Timely(fs, Assertions(triggers)), s, true)
  {
    var all := fs + Timely(fs, Assertions(triggers));
    LeastIsTimely(st, history, fs, triggers, st');
    forall a: Labelling | AllHold(a, all) ensures Models(a, st'.m) {
      TimelyAwake(st, history, fs, triggers, st', a);
    }
    hide Batch, Holds, AllHold, Timely;
    if Labelled(st'.m, s, true) {
      assert forall a: Labelling :: Models(a, st'.m) ==> s in a;
    }
  }

  lemma EffectiveIsAwake(st: State, history: set<Fact>, fs: set<Fact>, triggers: seq<FullTrigger>, st': State, f: Fact)
    requires Batch(st, history, fs, triggers, st') && st'.conflicts == [] && f in Effective(fs, Assertions(triggers))
    ensures f in Awake(history + Assertions(triggers), st'.built)
  {
    if Guarded(f) {
      BatchNilables(st, history, fs, triggers, st', f.trigger.ControllerSite());
      BatchForced(st, history, fs, triggers, st', f.trigger.ControllerSite());
      hide Quiescent, Faithful, Grows, SameModels, Forced, Timely, Labelled;
      assert f.trigger in triggers;
    }
  }

  lemma BuiltIsEffective(st: State, history: set<Fact>, fs: set<Fact>, triggers: seq<FullTrigger>, st': State,
                         t: FullTrigger)
    requires Batch(st, history, fs, triggers, st') && st'.conflicts == [] && t in st'.built && t !in st.built
    ensures Assertion(t) in Effective(fs, Assertions(triggers))
  {
    BuiltIsTimely(st, history, fs, triggers, st', t);
    if t.Controlled() {
      BatchNilables(st, history, fs, triggers, st', t.ControllerSite());
      assert Labelled(st'.m, t.ControllerSite(), true);
      hide Batch;
    }
  }

  /** What a batch adds is exactly what takes effect. */
  lemma BatchSays(st: State, history: set<Fact>, fs: set<Fact>, triggers: seq<FullTrigger>, st': State)
    requires Batch(st, history, fs, triggers, st') && st'.conflicts == []
    ensures SameModels(st'.m, fs + Effective(fs, Assertions(triggers)))
  {
    var d := Assertions(triggers);
    var effective, awake := Effective(fs, d), Awake(history + d, st'.built);
    forall a: Labelling ensures Models(a, st'.m) <==> AllHold(a, fs + effective) {
      BothHold(a, fs, effective);
      if Models(a, st'.m) {
        AwakeImplied(st, history, fs, triggers, st', a);
        forall f | f in effective ensures Holds(a, f) {
          EffectiveIsAwake(st, history, fs, triggers, st', f);
        }
      }
      if AllHold(a, fs + effective) {
        EffectiveAwake(st, history, fs, triggers, st', a);
      }
      hide Holds, Models, Effective, Awake;
    }
  }

  lemma EffectiveAwake(st: State, history: set<Fact>, fs: set<Fact>, triggers: seq<FullTrigger>, st': State,
                       a: Labelling)
    requires Batch(st, history, fs, triggers, st') && st'.conflicts == []
    requires AllHold(a, fs + Effective(fs, Assertions(triggers)))
    ensures Models(a, st'.m)
  {
    var effective := Effective(fs, Assertions(triggers));
    BothHold(a, fs, effective);
    forall t | t in st'.built && t !in st.built ensures Assertion(t) in effective {
      BuiltIsEffective(st, history, fs, triggers, st', t);
    }
    assert forall f :: f in Assertions(triggers) && !Guarded(f) ==> f in effective;
    TimelyImpliesAwake(st, history, fs, triggers, st', effective, a);
    hide Holds, Awake, Effective, Assertions, Models;
  }

  /** One more batch, whatever came before. */
  lemma BatchTells(st: State, history: set<Fact>, fs: set<Fact>, batches: seq<seq<FullTrigger>>,
                   triggers: seq<FullTrigger>, st': State)
    requires Tells(st, Clean(fs, batches), After(fs, batches))
    requires Quiescent(st.m) && Faithful(st, history) && Extends(st, st') && Fires(st, triggers, st')
    requires Quiescent(st'.m) && Faithful(st', history + Assertions(triggers)) && BuiltAreNilable(st')
    ensures Tells(st', Clean(fs, batches + [triggers]), After(fs, batches + [triggers]))
  {
    assert (batches + [triggers])[..|batches|] == batches;
    var before := After(fs, batches);
    if st.conflicts == [] {
      assert Batch(st, history, before, triggers, st');
      BatchVerdict(st, history, before, triggers, st');
      if st'.conflicts == [] {
        BatchSays(st, history, before, triggers, st');
      }
    }
    hide Batch, Quiescent, Faithful, Fires, Grows, SameModels, BuiltAreNilable, Timely, Effective, Satisfiable;
  }

  /** A controlled trigger fires exactly if its controller turns nilable during its batch. */
  lemma FiresInItsBatch(st: State, triggers: seq<FullTrigger>, st': State, t: FullTrigger)
    requires Fires(st, triggers, st') && BuiltAreNilable(st') && st'.conflicts == []
    requires t in triggers && t.Controlled() && t !in st.built
    ensures t in st'.built <==> !Labelled(st.m, t.ControllerSite(), true) && Labelled(st'.m, t.ControllerSite(), true)
  {
    hide Labelled;
  }

  /** States of a run, before and after each batch. */
  ghost predicate RunOf(sts: seq<State>, batches: seq<seq<FullTrigger>>) {
    && |sts| == |batches| + 1
    && (forall i :: 0 <= i < |batches| ==> Fires(sts[i], batches[i], sts[i + 1]) && Extends(sts[i], sts[i + 1]))
    && (forall i :: 0 <= i < |sts| ==> BuiltAreNilable(sts[i]))
  }

  lemma {:induction false} StaysUnbuilt(sts: seq<State>, batches: seq<seq<FullTrigger>>, t: FullTrigger, i: nat, j: nat)
    requires RunOf(sts, batches) && i <= j < |sts|
    requires forall k :: i <= k < j ==> t !in batches[k]
    ensures t in sts[j].built <==> t in sts[i].built
  {
    hide Grows, BuiltAreNilable;
    if i < j {
      StaysUnbuilt(sts, batches, t, i, j - 1);
      assert Fires(sts[j - 1], batches[j - 1], sts[j - 1 + 1]) && Extends(sts[j - 1], sts[j - 1 + 1]);
    }
  }

  /** Over a whole run: a controlled trigger of one batch is built in the end exactly if its controller
      turned nilable during that batch, whatever later batches do. */
  lemma FiresOnlyInItsBatch(sts: seq<State>, batches: seq<seq<FullTrigger>>, t: FullTrigger, k: nat)
    requires RunOf(sts, batches) && k < |batches| && t in batches[k] && t.Controlled() && t !in sts[0].built
    requires forall i :: 0 <= i < |batches| && i != k ==> t !in batches[i]
    requires sts[k + 1].conflicts == []
    ensures t in sts[|batches|].built <==>
      !Labelled(sts[k].m, t.ControllerSite(), true) && Labelled(sts[k + 1].m, t.ControllerSite(), true)
  {
    StaysUnbuilt(sts, batches, t, 0, k);
    StaysUnbuilt(sts, batches, t, k + 1, |batches|);
    assert Fires(sts[k], batches[k], sts[k + 1]) && Extends(sts[k], sts[k + 1]);
    FiresInItsBatch(sts[k], batches[k], sts[k + 1], t);
  }

  /** Observing annotations while no trigger is waiting. */
  lemma AnnotationsTell(st: State, history: set<Fact>, fs: set<Fact>, ann: set<Fact>, st': State)
    requires Tells(st, Satisfiable(fs), fs) && (forall f :: f in ann ==> !Guarded(f))
    requires Quiescent(st.m) && Faithful(st, history) && Extends(st, st') && st'.built == st.built
    requires Quiescent(st'.m) && Faithful(st', history + ann)
    ensures Tells(st', Satisfiable(fs + ann), fs + ann)
  {
    var awake, awake' := Awake(history, st.built), Awake(history + ann, st'.built);
    assert awake' == awake + ann;
    forall a: Labelling ensures AllHold(a, awake') <==> AllHold(a, awake) && AllHold(a, ann) {
      BothHold(a, awake, ann);
    }
    forall a: Labelling ensures AllHold(a, fs + ann) <==> AllHold(a, fs) && AllHold(a, ann) {
      BothHold(a, fs, ann);
    }
    if st.conflicts == [] {
      hide Grows, Quiescent, Holds, AllHold, Models, Awake;
      assert forall a: Labelling :: AllHold(a, awake) <==> AllHold(a, fs);
      VerdictIsExact(st', history + ann);
    }
  }

  /** What is in effect, and what was checked on the way, is part of what was given. */
  lemma AfterIsGiven(fs: set<Fact>, batches: seq<seq<FullTrigger>>)
    ensures fs <= After(fs, batches) <= fs + AllAssertions(batches)
    ensures forall f :: f in AllAssertions(batches) && !Guarded(f) ==> f in After(fs, batches)
    ensures Satisfiable(fs + AllAssertions(batches)) ==> Clean(fs, batches)
  {
    var all := fs + AllAssertions(batches);
    if batches == [] {
      assert all == fs;
    } else {
      var n := |batches| - 1;
      assert batches[..n + 1] == batches;
      AllAssertionsNext(batches, n);
      AfterIsGiven(fs, batches[..n]);
      if a: Labelling :| AllHold(a, all) {
        FewerHold(a, fs + AllAssertions(batches[..n]), all);
        FewerHold(a, After(fs, batches[..n]) + Timely(After(fs, batches[..n]), Assertions(batches[n])), all);
      }
      hide Forced, AllHold, AllAssertions, Assertions;
    }
  }

  /** Never in effect, although the site that controls it is nilable in the end. */
  ghost predicate Overslept(fs: set<Fact>, batches: seq<seq<FullTrigger>>, f: Fact) {
    && f in AllAssertions(batches) && Guarded(f) && f !in After(fs, batches)
    && Forced(After(fs, batches), f.trigger.ControllerSite(), true)
  }

  ghost predicate LeastSolution(a: Labelling, fs: set<Fact>) {
    AllHold(a, fs) && forall b: Labelling :: AllHold(b, fs) ==> a <= b
  }

  /** A conflict is never wrong. Without one the nilable labels are the least solution of everything that
      was given exactly if each trigger that was overslept holds of them all the same. */
  lemma OversleptExactly(st: State, fs: set<Fact>, batches: seq<seq<FullTrigger>>)
    requires Quiescent(st.m) && Tells(st, Clean(fs, batches), After(fs, batches)) && forall f :: f in fs ==> !Guarded(f)
    ensures Satisfiable(fs + AllAssertions(batches)) ==> st.conflicts == []
    ensures st.conflicts == [] ==>
      (LeastSolution(Nilables(st.m), fs + AllAssertions(batches)) <==>
       forall f :: Overslept(fs, batches, f) ==> Holds(Nilables(st.m), Unguarded(f.trigger)))
  {
    AfterIsGiven(fs, batches);
    if st.conflicts == [] {
      hide After, Clean;
      OversleptAtLeast(st.m, fs, batches);
    }
  }

  lemma OversleptAtLeast(m: Mapping, fs: set<Fact>, batches: seq<seq<FullTrigger>>)
    requires Quiescent(m) && SameModels(m, After(fs, batches)) && forall f :: f in fs ==> !Guarded(f)
    requires fs <= After(fs, batches) <= fs + AllAssertions(batches)
    requires forall f :: f in AllAssertions(batches) && !Guarded(f) ==> f in After(fs, batches)
    ensures LeastSolution(Nilables(m), fs + AllAssertions(batches)) <==>
      forall f :: Overslept(fs, batches, f) ==> Holds(Nilables(m), Unguarded(f.trigger))
  {
    var low, given := Nilables(m), After(fs, batches);
    QuiescentModels(m);
    assert AllHold(low, given);
    forall b: Labelling | AllHold(b, fs + AllAssertions(batches)) ensures low <= b {
      FewerHold(b, given, fs + AllAssertions(batches));
      assert Models(b, m);
    }
    forall f | f in fs + AllAssertions(batches)
      ensures Holds(low, f) <==> (Overslept(fs, batches, f) ==> Holds(low, Unguarded(f.trigger)))
    {
      OversleptHolds(m, fs, batches, f);
    }
    hide After, Holds, AllAssertions, Models, Quiescent, SameModels;
    forall f | Overslept(fs, batches, f) ensures f in fs + AllAssertions(batches) {
    }
  }

  lemma OversleptHolds(m: Mapping, fs: set<Fact>, batches: seq<seq<FullTrigger>>, f: Fact)
    requires Quiescent(m) && SameModels(m, After(fs, batches)) && AllHold(Nilables(m), After(fs, batches))
    requires fs <= After(fs, batches) && f in fs + AllAssertions(batches)
    requires forall g :: g in AllAssertions(batches) && !Guarded(g) ==> g in After(fs, batches)
    ensures Holds(Nilables(m), f) <==> (Overslept(fs, batches, f) ==> Holds(Nilables(m), Unguarded(f.trigger)))
  {
    var low, given := Nilables(m), After(fs, batches);
    if f in given {
      assert Holds(low, f) && !Overslept(fs, batches, f);
    } else {
      LabelsAreForced(m, given, f.trigger.ControllerSite(), true);
      hide After, SameModels, Quiescent, Forced, AllHold, AllAssertions;
      assert f.trigger.ControllerSite() in low <==> Labelled(m, f.trigger.ControllerSite(), true);
    }
  }
}
