// inference/engine.go: observing sites, implications and triggers. Observations recurse through
// the graph and, when a controller turns nilable, re-enter through the triggers it controls.
module InferenceEngine {
  import opened Annotation
  import opened OrderedMaps
  import opened InferredMaps
  import opened Constraints
  import opened Explanation
  import opened Progress
  import opened Effects
  import opened Verdict

  /** The conflict between the reason that is known for a site and another one. */
  function Contradiction(known: ExplainedBool, b: ExplainedBool): Conflict {
    if known.Val() then Overconstraint(known, b) else Overconstraint(b, known)
  }

  lemma HeedsNothing(table: Table, st: State, s: Site, b: ExplainedBool, todo: Pending)
    requires Labelled(st.m, s, b.Val())
    ensures HeedsLabel(table, st, s, b, st, todo)
  {
  }

  lemma SoundIsConsistent(st: State, todo: Pending)
    requires Sound(st, todo)
    ensures Consistent(st.m, todo)
  {
  }

  lemma ActedReported(table: Table, st: State, todo: Pending, s: Site, known: ExplainedBool, b: ExplainedBool)
    requires known.Val() != b.Val()
    ensures
      var mid := st.(conflicts := st.conflicts + [Contradiction(known, b)]);
      Acted(table, st, todo, mid, todo, if b.Val() then {s} else {}) && Blamed(st, b, mid)
  {
    ActedConflict(table, st, todo, Contradiction(known, b));
    assert Blames(Contradiction(known, b), b);
    hide KeepsEdges, NewMet, NewConflict, WaitersMet, Blames, Labelled;
  }

  /** A label is stored, and then its edges are followed. */
  lemma ObservedThen(table: Table, st: State, todo: Pending, s: Site, b: ExplainedBool, mid: State, owed: Pending,
                     st': State)
    requires Extends(st, mid) && Extends(mid, st')
    requires Acted(table, st, todo, mid, owed, {}) && HeedsLabel(table, st, s, b, mid, owed)
    requires Acted(table, mid, owed, st', todo, {}) && Determined(mid.m, s)
    ensures Acted(table, st, todo, st', todo, {}) && HeedsLabel(table, st, s, b, st', todo)
    ensures Determined(st'.m, s) && st'.m[s] == mid.m[s]
  {
    ActedThen(table, st, todo, mid, owed, st', todo, {});
    ReasonKept(mid.m, s, st'.m);
    hide Grows, HeedsLabel, KeepsEdges, Roused, NewMet, Determined;
    assert KeepsEdges(table, mid, owed, st', todo);
    HeedsThen(table, st, s, b, mid, owed, st', todo);
  }

  /** Controlled triggers can be built and none of them ends in a controller, which is how they
      are constructed; without it the re-entrant activation could go round forever. */
  ghost predicate WellControlled(table: Table, universe: set<Site>) {
    forall s, t :: t in Waiting(table, s) ==>
      && t.Controlled() && t.ControllerSite() == s
      && t.Buildable() && SitesOf(t) <= universe
      && (HasConsumerSite(t) ==> t.ConsumerSite() !in table)
  }

  lemma SourceAndSinkJustified(t: FullTrigger, ev: set<Evidence>)
    requires EvidenceOf(t) <= ev
    ensures t.producer.kind.Always? && HasConsumerSite(t) ==>
      Justified(TrueBecauseShallowConstraint(t.Primitive()), t.ConsumerSite(), ev)
    ensures HasProducerSite(t) && t.consumer.kind.Always? ==>
      Justified(FalseBecauseShallowConstraint(t.Primitive()), t.ProducerSite(), ev)
  {
  }

  lemma ImportedEdges(imported: Mapping, s: Site, ev: set<Evidence>)
    requires Explained(imported, ev) && Undetermined(imported, s)
    ensures forall x :: x in imported[s].implicates.vals ==> Edge(s, x, imported[s].implicates.vals[x]) in ev
    ensures forall x :: x in imported[s].implicants.vals ==> Edge(x, s, imported[s].implicants.vals[x]) in ev
    ensures FactsAt(imported, s) ==
      (set x | x in imported[s].implicates.vals :: Implication(s, x))
      + (set x | x in imported[s].implicants.vals :: Implication(x, s))
  {
    hide Justified;
    assert forall x :: x in imported[s].implicates.vals ==> Flows(imported, s, x);
    assert forall x :: x in imported[s].implicants.vals ==> FlowsBack(imported, x, s);
  }

  lemma NoFacts(m: Mapping)
    ensures FactsAtAll(m, []) == {}
  {
  }

  lemma NoFactsAtAll()
    ensures FactsOfAll([]) == {}
  {
  }

  lemma EntriesThen(table: Table, s0: State, from: OMap<Site, InferredVal>, i: nat, s1: State, s2: State)
    requires i < |from.keys| && Extends(s0, s1) && Extends(s1, s2)
    requires Acted(table, s0, {}, s1, {}, {}) && Acted(table, s1, {}, s2, {}, {})
    requires forall k :: 0 <= k < i ==> EntryMet(table, s0, from.vals, from.keys[k], s1)
    requires EntryMet(table, s1, from.vals, from.keys[i], s2)
    ensures Acted(table, s0, {}, s2, {}, {})
    ensures forall k :: 0 <= k < i + 1 ==> EntryMet(table, s0, from.vals, from.keys[k], s2)
    ensures i == |from.keys| - 1 ==> MapMet(table, s0, from.vals, s2)
  {
    ActedThen(table, s0, {}, s1, {}, s2, {}, {});
    assert forall s :: s in from.vals ==> s in from.keys;
    hide EntryMet, Acted, Grows, View.Valid;
    forall k | 0 <= k < i + 1 ensures EntryMet(table, s0, from.vals, from.keys[k], s2) {
      EntryThen(table, s0, from.vals, from.keys[k], s1, s2);
    }
  }

  lemma MapsThen(table: Table, s0: State, facts: seq<OMap<Site, InferredVal>>, i: nat, s1: State, s2: State)
    requires i < |facts| && Extends(s0, s1) && Extends(s1, s2)
    requires Acted(table, s0, {}, s1, {}, {}) && Acted(table, s1, {}, s2, {}, {})
    requires forall x :: x in facts[..i] ==> MapMet(table, s0, x.vals, s1)
    requires MapMet(table, s1, facts[i].vals, s2)
    ensures Acted(table, s0, {}, s2, {}, {})
    ensures forall x :: x in facts[..i + 1] ==> MapMet(table, s0, x.vals, s2)
  {
    ActedThen(table, s0, {}, s1, {}, s2, {}, {});
    hide MapMet, Acted, Grows;
    forall x | x in facts[..i + 1] ensures MapMet(table, s0, x.vals, s2) {
      MapThen(table, s0, x.vals, s1, s2);
      assert x in facts[..i] || x == facts[i];
    }
  }

  lemma SettledSnapshot(st: State, table: Table, history: set<Fact>, up: Mapping)
    requires Settled(st, table, history, up) && Sound(st, {})
    ensures Settled(st, table, history, st.m)
    ensures forall s :: s in up ==> s in st.m
  {
    hide Heard, AllBuildable, Faithful, BuiltAreNilable, Models, Consistent, Explained;
  }

  /** A map by itself, as the state of an engine that has observed what the map says. */
  lemma HandedOver(st: State)
    requires Sound(st, {})
    ensures
      var st', history := State(st.m, [], {}, st.evidence), FactsOf(st.m);
      && AllMet(st') && Sound(st', {}) && Settled(st', map[], history, st.m)
      && AllBacked(st.evidence, st.evidence, {}, history)
  {
    var st', history := State(st.m, [], {}, st.evidence), FactsOf(st.m);
    assert forall f :: f in history ==> f.Label? || f.Implication?;
    assert Awake(history, {}) == history;
    forall a: Labelling ensures AllHold(a, history) <==> Models(a, st.m) {
      FactsAreModels(a, st.m);
    }
    hide FactsOf, Awake, Models, AllHold, Consistent, Explained;
  }

  ghost function AnnotationFacts(annotations: seq<(Key, bool, bool)>): set<Fact> {
    set x | x in annotations :: Label(Site(x.0, x.1), x.2)
  }

  /** The reason that an annotation is. */
  function AnnotationReason(x: (Key, bool, bool)): ExplainedBool {
    if x.2 then TrueBecauseAnnotation(x.0.position) else FalseBecauseAnnotation(x.0.position)
  }

  lemma HeededThen(table: Table, s0: State, annotations: seq<(Key, bool, bool)>, i: nat, s1: State, s2: State)
    requires i < |annotations| && Extends(s0, s1) && Extends(s1, s2)
    requires Acted(table, s0, {}, s1, {}, {}) && Acted(table, s1, {}, s2, {}, {})
    requires forall x :: x in annotations[..i] ==> HeedsLabel(table, s0, Site(x.0, x.1), AnnotationReason(x), s1, {})
    requires var y := annotations[i]; HeedsLabel(table, s1, Site(y.0, y.1), AnnotationReason(y), s2, {})
    ensures Acted(table, s0, {}, s2, {}, {})
    ensures forall x :: x in annotations[..i + 1] ==>
      HeedsLabel(table, s0, Site(x.0, x.1), AnnotationReason(x), s2, {})
  {
    ActedThen(table, s0, {}, s1, {}, s2, {}, {});
    hide HeedsLabel, KeepsEdges, Roused, NewMet, Grows;
    forall x | x in annotations[..i + 1] ensures HeedsLabel(table, s0, Site(x.0, x.1), AnnotationReason(x), s2, {}) {
      HeedsThen(table, s0, Site(x.0, x.1), AnnotationReason(x), s1, {}, s2, {});
      assert x in annotations[..i] || x == annotations[i];
    }
  }

  ghost predicate BatchOk(triggers: seq<FullTrigger>) {
    && (forall t :: t in triggers ==> t.Buildable())
    && (forall t, u :: t in triggers && u in triggers && t.Controlled() && u.Controlled() && HasConsumerSite(t) ==>
         t.ConsumerSite() != u.ControllerSite())
  }

  lemma BatchBuildable(triggers: seq<FullTrigger>, t: FullTrigger)
    requires BatchOk(triggers) && t in triggers
    ensures t.Buildable()
  {
  }

  ghost predicate TableFor(table: Table, triggers: seq<FullTrigger>) {
    && (forall s, t :: t in Waiting(table, s) <==> t in triggers && t.Controlled() && t.ControllerSite() == s)
    && (forall s :: s in table ==> Waiting(table, s) != {})
  }

  lemma TableNext(table: Table, front: seq<FullTrigger>, u: FullTrigger)
    requires TableFor(table, front)
    ensures !u.Controlled() ==> TableFor(table, front + [u])
    ensures u.Controlled() ==>
      TableFor(table[u.ControllerSite() := Waiting(table, u.ControllerSite()) + {u}], front + [u])
  {
    if u.Controlled() {
      var table' := table[u.ControllerSite() := Waiting(table, u.ControllerSite()) + {u}];
      forall s, t
        ensures t in Waiting(table', s) <==> t in front + [u] && t.Controlled() && t.ControllerSite() == s
      {
        assert t in Waiting(table', s) <==> t in Waiting(table, s) || (t == u && s == u.ControllerSite());
      }
    }
  }

  lemma ControllerOf(triggers: seq<FullTrigger>, table: Table, c: Site)
    requires TableFor(table, triggers)
    ensures c in table ==> exists u :: u in triggers && u.Controlled() && u.ControllerSite() == c
  {
    if c in table {
      assert Waiting(table, c) != {};
      var u :| u in Waiting(table, c);
      assert u in triggers && u.Controlled() && u.ControllerSite() == c;
    }
  }

  lemma BatchScope(triggers: seq<FullTrigger>, table: Table, universe: set<Site>, history: set<Fact>)
    requires BatchOk(triggers) && TableFor(table, triggers) && AllSites(triggers) <= universe
    requires ControlledOf(triggers) <= history
    ensures WellControlled(table, universe) && Heard(table, history) && AllBuildable(ControlledOf(triggers))
    ensures forall t :: t in triggers ==> SitesOf(t) <= universe
  {
    forall t | t in triggers ensures SitesOf(t) <= universe {
      forall s | s in SitesOf(t) ensures s in universe {
        assert s in AllSites(triggers);
      }
    }
    forall s, t | t in Waiting(table, s) && HasConsumerSite(t) ensures t.ConsumerSite() !in table {
      ControllerOf(triggers, table, t.ConsumerSite());
    }
    forall s, t | t in Waiting(table, s) ensures Assertion(t) in history {
      assert Assertion(t) in ControlledOf(triggers);
    }
  }

  /** Groups the controlled triggers by controller, as a map of sets. */
  method GroupByController(triggers: seq<FullTrigger>) returns (table: Table)
    ensures TableFor(table, triggers)
  {
    table := map[];
    for i := 0 to |triggers|
      invariant TableFor(table, triggers[..i])
    {
      var t := triggers[i];
      assert triggers[..i + 1] == triggers[..i] + [t];
      TableNext(table, triggers[..i], t);
      if t.Controlled() {
        var s := t.ControllerSite();
        table := table[s := Waiting(table, s) + {t}];
      }
    }
    assert triggers[..|triggers|] == triggers;
  }

  ghost function AllSites(triggers: seq<FullTrigger>): set<Site> {
    set t, s | t in triggers && s in SitesOf(t) :: s
  }

  ghost function ControlledOf(triggers: seq<FullTrigger>): set<Fact> {
    set t | t in triggers && t.Controlled() :: Assertion(t)
  }

  lemma ControlledFacts(triggers: seq<FullTrigger>)
    ensures forall f :: f in ControlledOf(triggers) ==> f.Assertion? && f.trigger.Controlled()
  {
  }

  ghost function UncontrolledOf(triggers: seq<FullTrigger>): set<Fact> {
    set t | t in triggers && !t.Controlled() :: Assertion(t)
  }

  /** Controlled triggers that were built had controllers that were not nilable at the start. */
  ghost predicate InTurn(st: State, st': State) {
    forall t :: t in st'.built && t !in st.built && t.Controlled() ==> !Labelled(st.m, t.ControllerSite(), true)
  }

  lemma NothingOutOfTurn(st: State, triggers: seq<FullTrigger>)
    ensures InTurn(st, st) && FromBatch(st, triggers, st)
  {
  }

  ghost predicate FromBatch(st: State, triggers: seq<FullTrigger>, st': State) {
    forall t :: t in st'.built && t !in st.built ==> t in triggers
  }

  lemma FromBatchNext(start: State, triggers: seq<FullTrigger>, st: State, table: Table, t: FullTrigger, st': State)
    requires FromBatch(start, triggers, st) && OnlyFrom(st, st', table, {t}) && TableFor(table, triggers) &&
      t in triggers
    ensures FromBatch(start, triggers, st')
  {
  }

  lemma InTurnThen(s0: State, s1: State, s2: State)
    requires Extends(s0, s1) && InTurn(s0, s1) && InTurn(s1, s2)
    ensures InTurn(s0, s2)
  {
    GrowsKeeps(s0.m, s1.m);
    hide Grows, Labelled;
  }

  /** What was built in between is among `others` or was waiting for its controller. */
  ghost predicate OnlyFrom(st: State, st': State, table: Table, others: set<FullTrigger>) {
    forall t :: t in st'.built && t !in st.built ==>
      t in others || (t.Controlled() && t in Waiting(table, t.ControllerSite()))
  }

  lemma FiredFromTable(st: State, st': State, table: Table, f: Fact, others: set<FullTrigger>)
    requires Fired(st, table, f, st') && (f.Unguarded? ==> f.trigger in others)
    ensures OnlyFrom(st, st', table, others)
  {
    hide Cited, Connected;
  }

  lemma OnlyFromThen(s0: State, s1: State, s2: State, table: Table)
    requires OnlyFrom(s0, s1, table, {}) && OnlyFrom(s1, s2, table, {})
    ensures OnlyFrom(s0, s2, table, {}) && OnlyFrom(s0, s0, table, {})
  {
  }

  lemma NothingBuilt(st: State, table: Table)
    ensures OnlyFrom(st, st, table, {})
  {
  }

  /** One trigger of a controller that turned nilable is built. */
  lemma ActivationStep(st: State, todo0: Pending, f: Fact, table: Table, s: Site,
                       before: State, todo: Pending, t: FullTrigger, after: State)
    requires Extends(st, before) && Exact(st, todo0, f, before, todo) && Fired(st, table, f, before)
    requires Extends(before, after) && Exact(before, todo, Unguarded(t), after, todo) &&
      Fired(before, table, Unguarded(t), after)
    requires t in Waiting(table, s) && t.Controlled() && t.ControllerSite() == s && t in after.built
    requires |before.conflicts| == |st.conflicts| ==> Labelled(before.m, s, true)
    requires !Labelled(st.m, s, true)
    requires Woken(st.m, before, table, {s}) && Woken(before.m, after, table, {})
    ensures Extends(st, after) && Exact(st, todo0, f, after, todo) && Fired(st, table, f, after)
    ensures Woken(st.m, after, table, {s})
    ensures |after.conflicts| == |st.conflicts| ==> Labelled(after.m, s, true)
  {
    GrowsKeeps(before.m, after.m);
    BuiltFollows(before.m, todo, after.built, t);
    ExactThen(st, todo0, f, before, todo, Unguarded(t), after, todo);
    WokenThen(st, before, after, table, {s});
    FiredThen(st, table, f, before, Unguarded(t), after);
    ExtendsTransitive(st, before, after);
    hide Exact, Grows, Woken, Labelled, Fired, Follows, Waiting;
  }

  lemma FirstOfNone(table: Table, m: Mapping, s: Site, b: ExplainedBool, m': Mapping)
    requires FirstAwake(table, m, s, m') && s !in m
    ensures FirstInLine(table, m, s, m')
  {
    assert Grows(m', m');
    hide FirstAwake, FirstInLine, Grows;
    assert forall c :: !LeadsFirst(m, s, c);
    FirstInLineVia(table, m, s, b, m', m');
  }

  lemma FirstOfEdges(table: Table, m: Mapping, s: Site, b: ExplainedBool, implicates: Edges, m': Mapping, m'': Mapping)
    requires FirstAwake(table, m, s, m') && Grows(m', m'') && Implicates(m, s) == implicates
    requires Waiting(table, s) == {} ==> m' == WithLabel(m, s, b)
    requires implicates.keys != [] && !Determined(m', implicates.keys[0]) ==>
      FirstInLine(table, m', implicates.keys[0], m'')
    ensures FirstInLine(table, m, s, m'')
  {
    hide FirstAwake, FirstInLine, Grows, WithLabel, Waiting, Determined;
    FirstInLineVia(table, m, s, b, m', m'');
  }

  /** An always-nil source makes its consumer nilable if that is still open, and wakes it first. */
  ghost predicate SourceStored(t: FullTrigger, table: Table, m: Mapping, m': Mapping) {
    t.producer.kind.Always? && HasConsumerSite(t) && !Determined(m, t.ConsumerSite()) ==>
      Labelled(m', t.ConsumerSite(), true) && FirstInLine(table, m, t.ConsumerSite(), m')
  }

  lemma AllBuiltThen(table: Table, triggers: seq<FullTrigger>, i: nat, s0: State, s1: State, s2: State)
    requires i < |triggers| && Extends(s0, s1) && Extends(s1, s2)
    requires Acted(table, s0, {}, s1, {}, {}) && Acted(table, s1, {}, s2, {}, {})
    requires forall t :: t in triggers[..i] && !t.Controlled() ==> BuiltIn(table, t, s0, s1, {})
    requires BuiltIn(table, triggers[i], s1, s2, {})
    ensures Acted(table, s0, {}, s2, {}, {})
    ensures forall t :: t in triggers[..i + 1] && !t.Controlled() ==> BuiltIn(table, t, s0, s2, {})
  {
    ActedThen(table, s0, {}, s1, {}, s2, {}, {});
    hide BuiltIn, KeepsEdges, Roused, NewMet, Grows;
    forall t | t in triggers[..i + 1] && !t.Controlled() ensures BuiltIn(table, t, s0, s2, {}) {
      BuiltThen(table, t, s0, s1, {}, s2, {});
      assert t in triggers[..i] || t == triggers[i];
    }
  }

  /** Which triggers of a batch fire: the uncontrolled ones, and of the controlled ones whose
      controller ends up nilable exactly those whose controller was not nilable at the start; and
      no others. */
  ghost predicate Fires(st: State, triggers: seq<FullTrigger>, st': State) {
    && (forall t :: t in triggers && !t.Controlled() ==> t in st'.built)
    && (forall t :: t in triggers && t.Controlled() && t !in st.built && Labelled(st'.m, t.ControllerSite(), true) ==>
         (t in st'.built <==> !Labelled(st.m, t.ControllerSite(), true)))
    && FromBatch(st, triggers, st')
  }

  lemma BatchFires(st: State, triggers: seq<FullTrigger>, st': State, table: Table)
    requires forall t :: t in triggers && !t.Controlled() ==> t in st'.built
    requires Woken(st.m, st', table, {}) && InTurn(st, st') && FromBatch(st, triggers, st') && TableFor(table, triggers)
    ensures Fires(st, triggers, st')
  {
    hide Labelled;
    forall t | t in triggers && t.Controlled() && Labelled(st'.m, t.ControllerSite(), true)
      ensures !Labelled(st.m, t.ControllerSite(), true) ==> t in st'.built
    {
      assert t in Waiting(table, t.ControllerSite());
    }
  }

  class Engine {
    const inferredMap: InferredMap
    var conflicts: seq<Conflict>
    var controlledTriggersBySite: Table
    ghost var built: set<FullTrigger>
    ghost var evidence: set<Evidence>
    ghost var imported: set<Evidence>
    ghost var universe: set<Site>
    ghost var history: set<Fact>

    constructor ()
      ensures Valid() && fresh(inferredMap)
      ensures M() == map[] && conflicts == [] && history == {} && built == {} && evidence == {} && imported == {}
      ensures inferredMap.upstreamMapping == map[]
    {
      inferredMap := new InferredMap();
      conflicts := [];
      controlledTriggersBySite := map[];
      built, evidence, imported, universe, history := {}, {}, {}, {}, {};
    }

    ghost function M(): Mapping
      reads this, inferredMap
    {
      inferredMap.mapping.vals
    }

    ghost function Now(): State
      reads this, inferredMap
    {
      State(inferredMap.mapping.vals, conflicts, built, evidence)
    }

    ghost predicate Ready(todo: Pending)
      reads this, inferredMap
    {
      && Sound(Now(), todo)
      && WellControlled(controlledTriggersBySite, universe)
      && forall s :: s in M() ==> s in universe
    }

    ghost function Open(): set<Site>
      reads this, inferredMap
    {
      universe - DeterminedSites(M())
    }

    ghost function Rank(s: Site, nilable: bool): nat
      reads this
    {
      if nilable && s in controlledTriggersBySite then 7 else 2
    }

    ghost function BuildRank(t: FullTrigger): nat
      reads this
    {
      if HasConsumerSite(t) then Rank(t.ConsumerSite(), true) + 2 else 4
    }

    /** The effect of a finished observation of `f`. */
    ghost predicate Stepped(st: State, todo: Pending, f: Fact, todo': Pending)
      reads this, inferredMap
    {
      && Extends(st, Now())
      && Exact(st, todo, f, Now(), todo')
      && Fired(st, controlledTriggersBySite, f, Now())
    }

    method ObserveSiteExplanation(s: Site, b: ExplainedBool, ghost todo: Pending)
      requires Ready(todo) && s in universe && Justified(b, s, evidence)
      modifies this`conflicts, this`built, this`evidence, inferredMap`mapping
      ensures Ready(todo)
      ensures Stepped(old(Now()), todo, Label(s, b.Val()), todo)
      ensures Woken(old(M()), Now(), controlledTriggersBySite, {})
      ensures Determined(M(), s)
      ensures |conflicts| == |old(conflicts)| || !Determined(old(M()), s) ==> Labelled(M(), s, b.Val())
      ensures b.Val() && !Determined(old(M()), s) ==> FirstInLine(controlledTriggersBySite, old(M()), s, M())
      ensures Acted(controlledTriggersBySite, old(Now()), todo, Now(), todo, {})
      ensures HeedsLabel(controlledTriggersBySite, old(Now()), s, b, Now(), todo)
      ensures Labelled(old(M()), s, b.Val()) ==> Now() == old(Now())
      ensures !Determined(old(M()), s) ==> M()[s].b == b
      ensures Determined(old(M()), s) && !Labelled(old(M()), s, b.Val()) ==>
        |conflicts| > |old(conflicts)| && conflicts[|old(conflicts)|] == Contradiction(old(M())[s].b, b)
      decreases Open(), Rank(s, b.Val())
    {
      hide Exact, Grows, Woken, Sound, Justified, Fired, FirstInLine, FirstAwake, WithLabel, LeadsFirst;
      hide Acted, HeedsLabel;
      if s !in inferredMap.mapping.vals {
        OwedNothing(M(), s, b.Val(), todo);
        StoreDeterminedAndActivate(s, b, todo);
        if b.Val() {
          FirstOfNone(controlledTriggersBySite, old(M()), s, b, M());
        }
        return;
      }
      match inferredMap.mapping.vals[s]
      case DeterminedVal(known) =>
        if known.Val() == b.Val() {
          KnownStep(Now(), todo, s, b.Val());
          Unchanged(Now());
          NothingFired(Now(), controlledTriggersBySite, Label(s, b.Val()), Now());
          NothingWoken(Now(), controlledTriggersBySite);
          ActedNothing(controlledTriggersBySite, Now(), todo);
          HeedsNothing(controlledTriggersBySite, Now(), s, b, todo);
          return;
        }
        ReportOverconstraint(s, known, b, todo);
      case UndeterminedVal(implicants, implicates) =>
        ghost var st := Now();
        EdgesInScope(st, s, todo);
        OwedEdges(st.m, s);
        StoreDeterminedAndActivate(s, b, todo);
        JustifiedMonotone(b, s, st.evidence, evidence);
        ghost var mid := Now();
        if b.Val() {
          PropagateNilable(s, b, implicates, todo, st);
          FirstOfEdges(controlledTriggersBySite, st.m, s, b, implicates, mid.m, M());
        } else {
          PropagateNonnil(s, b, implicants, todo, st);
        }
        ObservedThen(controlledTriggersBySite, st, todo, s, b, mid, todo + Owed(st.m, s, b.Val()), Now());
    }

    method StoreDeterminedAndActivate(s: Site, b: ExplainedBool, ghost todo: Pending)
      requires Ready(todo) && s in universe && Justified(b, s, evidence) && !Determined(M(), s)
      modifies this`conflicts, this`built, this`evidence, inferredMap`mapping
      ensures Ready(todo + Owed(old(M()), s, b.Val()))
      ensures Stepped(old(Now()), todo, Label(s, b.Val()), todo + Owed(old(M()), s, b.Val()))
      ensures Woken(old(M()), Now(), controlledTriggersBySite, {})
      ensures Labelled(M(), s, b.Val())
      ensures b.Val() ==> FirstAwake(controlledTriggersBySite, old(M()), s, M())
      ensures Waiting(controlledTriggersBySite, s) == {} ==> M() == WithLabel(old(M()), s, b)
      ensures Acted(controlledTriggersBySite, old(Now()), todo, Now(), todo + Owed(old(M()), s, b.Val()), {})
      ensures HeedsLabel(controlledTriggersBySite, old(Now()), s, b, Now(), todo + Owed(old(M()), s, b.Val()))
      ensures M()[s].b == b && Extends(old(Now()), Now())
      ensures Open() < old(Open())
      decreases Open(), Rank(s, b.Val()) - 1
    {
      SoundIsConsistent(Now(), todo);
      hide Sound, Exact, Grows, Woken, Owed, DeterminedSites, WellControlled, Justified, Fired, FirstAwake;
      hide Acted, HeedsLabel, WaitersMet, Consistent;
      ghost var st := Now();
      ActedLabel(controlledTriggersBySite, st, s, b, todo);
      LabelStep(st, s, b, todo, controlledTriggersBySite);
      Unchanged(st.(m := WithLabel(st.m, s, b)));
      LabelCloses(st.m, s, b, WithLabel(st.m, s, b), universe);
      inferredMap.StoreDetermined(s, b);
      ghost var mid := Now();
      NothingFired(st, controlledTriggersBySite, Label(s, b.Val()), Now());
      ActivateControlledTriggers(s, b, todo + Owed(st.m, s, b.Val()), st, todo, Label(s, b.Val()));
      LabelCloses(st.m, s, b, M(), universe);
      ReasonKept(mid.m, s, M());
      LabelThenWaiters(controlledTriggersBySite, st, todo, s, b, mid, todo + Owed(st.m, s, b.Val()), Now());
      if b.Val() {
        FirstAwakeStored(controlledTriggersBySite, st.m, s, b, M());
      }
    }

    method ReportOverconstraint(s: Site, known: ExplainedBool, b: ExplainedBool, ghost todo: Pending)
      requires Ready(todo) && s in universe && Justified(b, s, evidence)
      requires Determined(M(), s) && M()[s].b == known && known.Val() != b.Val()
      modifies this`conflicts, this`built, this`evidence, inferredMap`mapping
      ensures Ready(todo)
      ensures Stepped(old(Now()), todo, Label(s, b.Val()), todo)
      ensures Woken(old(M()), Now(), controlledTriggersBySite, {})
      ensures |conflicts| > |old(conflicts)| && Determined(M(), s)
      ensures conflicts[|old(conflicts)|] == Contradiction(known, b)
      ensures !b.Val() || Waiting(controlledTriggersBySite, s) == {} ==>
        M() == old(M()) && conflicts == old(conflicts) + [Contradiction(known, b)]
      ensures Acted(controlledTriggersBySite, old(Now()), todo, Now(), todo, {})
      ensures HeedsLabel(controlledTriggersBySite, old(Now()), s, b, Now(), todo)
      decreases Open(), Rank(s, b.Val()) - 1
    {
      hide Acted, HeedsLabel, WaitersMet;
      ghost var st := Now();
      var conflict := if known.Val() then Overconstraint(known, b) else Overconstraint(b, known);
      ActedReported(controlledTriggersBySite, st, todo, s, known, b);
      ConflictStep(st, s, known, b, conflict, todo, controlledTriggersBySite);
      conflicts := conflicts + [conflict];
      ghost var mid := Now();
      NothingFired(st, controlledTriggersBySite, Label(s, b.Val()), Now());
      ActivateControlledTriggers(s, b, todo, st, todo, Label(s, b.Val()));
      LabelThenWaiters(controlledTriggersBySite, st, todo, s, b, mid, todo, Now());
      GrowsKeeps(st.m, M());
    }

    /** `st`, `todo0` and `f`: where the observation that this belongs to started, and what it is. */
    method ActivateControlledTriggers(s: Site, b: ExplainedBool, ghost todo: Pending,
                                      ghost st: State, ghost todo0: Pending, ghost f: Fact)
      requires Ready(todo) && Stepped(st, todo0, f, todo)
      requires |conflicts| == |st.conflicts| && b.Val() ==> Labelled(M(), s, true)
      requires b.Val() ==> !Labelled(st.m, s, true)
      requires Woken(st.m, Now(), controlledTriggersBySite, if b.Val() then {s} else {})
      modifies this`conflicts, this`built, this`evidence, inferredMap`mapping
      ensures Ready(todo) && Stepped(st, todo0, f, todo) && Extends(old(Now()), Now())
      ensures Woken(st.m, Now(), controlledTriggersBySite, {})
      ensures b.Val() ==> FirstAwake(controlledTriggersBySite, old(M()), s, M())
      ensures !b.Val() || Waiting(controlledTriggersBySite, s) == {} ==> Now() == old(Now())
      ensures Acted(controlledTriggersBySite, old(Now()), todo, Now(), todo, {})
      ensures b.Val() ==> WaitersMet(controlledTriggersBySite, s, old(Now()), Now(), todo)
      decreases Open(), Rank(s, b.Val()) - 2
    {
      hide Sound, Exact, Grows, Woken, Labelled, Fired, SinkComesFirst, SitesOf, Acted, Met, BuiltIn;
      ghost var start := Now();
      Unchanged(start);
      ActedNothing(controlledTriggersBySite, start, todo);
      if s in controlledTriggersBySite && b.Val() {
        var waiting := controlledTriggersBySite[s];
        while waiting != {}
          invariant waiting <= controlledTriggersBySite[s]
          invariant Ready(todo) && Stepped(st, todo0, f, todo) && Extends(start, Now())
          invariant Woken(st.m, Now(), controlledTriggersBySite, {s})
          invariant controlledTriggersBySite[s] - waiting <= built
          invariant |conflicts| == |st.conflicts| ==> Labelled(M(), s, true)
          invariant waiting == controlledTriggersBySite[s] ==> Now() == start
          invariant Acted(controlledTriggersBySite, start, todo, Now(), todo, {})
          invariant forall u :: u in controlledTriggersBySite[s] - waiting ==> Met(u, start, Now(), todo)
          invariant forall u :: Waiting(controlledTriggersBySite, s) == {u} && u !in waiting ==>
            SinkComesFirst(start.m, s, u, M())
          decreases waiting
        {
          var t :| t in waiting;
          ghost var before := Now();
          GrowsKeeps(start.m, before.m);
          assert t in Waiting(controlledTriggersBySite, s);
          BuildFromSingleFullTrigger(t, todo);
          ActivationStep(st, todo0, f, controlledTriggersBySite, s, before, todo, t, Now());
          WaiterThen(controlledTriggersBySite, start, todo, before, t, Now());
          ExtendsTransitive(start, before, Now());
          assert forall u :: Waiting(controlledTriggersBySite, s) == {u} ==> u == t && waiting == {t};
          waiting := waiting - {t};
        }
        WokenClose(st.m, Now(), controlledTriggersBySite, s);
      } else if b.Val() {
        WokenClose(st.m, Now(), controlledTriggersBySite, s);
      }
    }

    /** The loop over the implicates that were stored for `s` before it was labelled nilable. */
    method PropagateNilable(s: Site, b: ExplainedBool, implicates: Edges, ghost todo: Pending, ghost st: State)
      requires s in universe && b.Val() == true && Justified(b, s, evidence) && Labelled(M(), s, true)
      requires forall x :: x in implicates.vals ==> x in universe && Edge(s, x, implicates.vals[x]) in evidence
      requires Ready(todo + OwedTo(s, implicates.keys))
      requires Stepped(st, todo, Label(s, true), todo + OwedTo(s, implicates.keys))
      requires Woken(st.m, Now(), controlledTriggersBySite, {})
      modifies this`conflicts, this`built, this`evidence, inferredMap`mapping
      ensures Ready(todo) && Stepped(st, todo, Label(s, true), todo) && Labelled(M(), s, true) &&
        Extends(old(Now()), Now())
      ensures Woken(st.m, Now(), controlledTriggersBySite, {})
      ensures implicates.keys != [] && !Determined(old(M()), implicates.keys[0]) ==>
        FirstInLine(controlledTriggersBySite, old(M()), implicates.keys[0], M())
      ensures Acted(controlledTriggersBySite, old(Now()), todo + OwedTo(s, implicates.keys), Now(), todo, {})
      decreases Open(), 10
    {
      hide Exact, Grows, Labelled, Woken, Justified, Sound, OwedTo, OwedBy, WellControlled, DeterminedSites, Fired;
      hide FirstInLine, Determined, Acted;
      OwedDone(todo, s);
      Unchanged(Now());
      ActedNothing(controlledTriggersBySite, Now(), todo + OwedTo(s, implicates.keys));
      assert implicates.keys[0..] == implicates.keys && implicates.keys[|implicates.keys|..] == [];
      for i := 0 to |implicates.keys|
        invariant Extends(old(Now()), Now()) && Open() <= old(Open())
        invariant Labelled(M(), s, true) && Justified(b, s, evidence)
        invariant Ready(todo + OwedTo(s, implicates.keys[i..]))
        invariant Acted(controlledTriggersBySite, old(Now()), todo + OwedTo(s, implicates.keys),
                        Now(), todo + OwedTo(s, implicates.keys[i..]), {})
        invariant i == 0 ==> M() == old(M())
        invariant i > 0 && !Determined(old(M()), implicates.keys[0]) ==>
          FirstInLine(controlledTriggersBySite, old(M()), implicates.keys[0], M())
        invariant Stepped(st, todo, Label(s, true), todo + OwedTo(s, implicates.keys[i..]))
        invariant Woken(st.m, Now(), controlledTriggersBySite, {})
      {
        var x := implicates.keys[i];
        OwedNext(todo, s, implicates.keys, i);
        ghost var before := Now();
        PropagateAcross(s, x, implicates.vals[x], b, todo + OwedTo(s, implicates.keys[i + 1..]),
                        st, todo, Label(s, true));
        if i > 0 && !Determined(old(M()), implicates.keys[0]) {
          FirstInLineGrows(controlledTriggersBySite, old(M()), implicates.keys[0], before.m, M());
        }
        ActedThen(controlledTriggersBySite, old(Now()), todo + OwedTo(s, implicates.keys), before,
                  todo + OwedTo(s, implicates.keys[i..]), Now(), todo + OwedTo(s, implicates.keys[i + 1..]), {});
        ExtendsTransitive(old(Now()), before, Now());
      }
    }

    /** The loop over the implicants that were stored for `s` before it was labelled nonnil. */
    method PropagateNonnil(s: Site, b: ExplainedBool, implicants: Edges, ghost todo: Pending, ghost st: State)
      requires s in universe && b.Val() == false && Justified(b, s, evidence) && Labelled(M(), s, false)
      requires forall x :: x in implicants.vals ==> x in universe && Edge(x, s, implicants.vals[x]) in evidence
      requires Ready(todo + OwedBy(implicants.keys, s))
      requires Stepped(st, todo, Label(s, false), todo + OwedBy(implicants.keys, s))
      requires Woken(st.m, Now(), controlledTriggersBySite, {})
      modifies this`conflicts, this`built, this`evidence, inferredMap`mapping
      ensures Ready(todo) && Stepped(st, todo, Label(s, false), todo) && Labelled(M(), s, false) &&
        Extends(old(Now()), Now())
      ensures Woken(st.m, Now(), controlledTriggersBySite, {})
      ensures Acted(controlledTriggersBySite, old(Now()), todo + OwedBy(implicants.keys, s), Now(), todo, {})
      decreases Open(), 10
    {
      hide Exact, Grows, Labelled, Woken, Justified, Sound, OwedTo, OwedBy, WellControlled, DeterminedSites, Fired;
      hide Acted;
      OwedDone(todo, s);
      Unchanged(Now());
      ActedNothing(controlledTriggersBySite, Now(), todo + OwedBy(implicants.keys, s));
      assert implicants.keys[0..] == implicants.keys && implicants.keys[|implicants.keys|..] == [];
      for i := 0 to |implicants.keys|
        invariant Extends(old(Now()), Now()) && Open() <= old(Open())
        invariant Labelled(M(), s, false) && Justified(b, s, evidence)
        invariant Ready(todo + OwedBy(implicants.keys[i..], s))
        invariant Acted(controlledTriggersBySite, old(Now()), todo + OwedBy(implicants.keys, s),
                        Now(), todo + OwedBy(implicants.keys[i..], s), {})
        invariant Stepped(st, todo, Label(s, false), todo + OwedBy(implicants.keys[i..], s))
        invariant Woken(st.m, Now(), controlledTriggersBySite, {})
      {
        var x := implicants.keys[i];
        OwedNext(todo, s, implicants.keys, i);
        ghost var before := Now();
        PropagateAcross(x, s, implicants.vals[x], b, todo + OwedBy(implicants.keys[i + 1..], s),
                        st, todo, Label(s, false));
        ActedThen(controlledTriggersBySite, old(Now()), todo + OwedBy(implicants.keys, s), before,
                  todo + OwedBy(implicants.keys[i..], s), Now(), todo + OwedBy(implicants.keys[i + 1..], s), {});
        ExtendsTransitive(old(Now()), before, Now());
      }
    }

    /** One round of either loop: `b` is the reason at the end of the implication p to c that it
        starts from, and the other end is observed. */
    method PropagateAcross(p: Site, c: Site, a: PrimitiveFullTrigger, b: ExplainedBool, ghost todo: Pending,
                           ghost st: State, ghost todo0: Pending, ghost f: Fact)
      requires p in universe && c in universe && Edge(p, c, a) in evidence
      requires Justified(b, if b.Val() then p else c, evidence) && Labelled(M(), if b.Val() then p else c, b.Val())
      requires Ready(todo + {(p, c)}) && Stepped(st, todo0, f, todo + {(p, c)})
      requires Woken(st.m, Now(), controlledTriggersBySite, {})
      modifies this`conflicts, this`built, this`evidence, inferredMap`mapping
      ensures Ready(todo) && Stepped(st, todo0, f, todo) && Extends(old(Now()), Now())
      ensures Woken(st.m, Now(), controlledTriggersBySite, {})
      ensures Justified(b, if b.Val() then p else c, evidence) && Labelled(M(), if b.Val() then p else c, b.Val())
      ensures b.Val() && !Determined(old(M()), c) ==> FirstInLine(controlledTriggersBySite, old(M()), c, M())
      ensures Acted(controlledTriggersBySite, old(Now()), todo + {(p, c)}, Now(), todo, {})
      ensures Open() <= old(Open())
      decreases Open(), 9
    {
      ghost var near, far := if b.Val() then p else c, if b.Val() then c else p;
      assert Determined(M(), near);
      hide Exact, Grows, Labelled, Woken, Justified, Sound, Determined, WellControlled, DeterminedSites, Fired;
      hide FirstInLine, Acted, HeedsLabel, Pushed;
      ghost var before := Now();
      DeepJustified(b, p, c, a, evidence);
      if b.Val() {
        ObserveSiteExplanation(c, TrueBecauseDeepConstraint(a, b), todo + {(p, c)});
      } else {
        ObserveSiteExplanation(p, FalseBecauseDeepConstraint(a, b), todo + {(p, c)});
      }
      GrowsKeeps(before.m, M());
      JustifiedMonotone(b, near, before.evidence, evidence);
      CrossedTo(controlledTriggersBySite, before, p, c, a, b, Now(), todo + {(p, c)});
      ActedSettle(controlledTriggersBySite, before, todo + {(p, c)}, Now(), todo, p, c);
      PropagationStep(st, todo0, controlledTriggersBySite, f, before, todo, p, c, Label(far, b.Val()), Now());
    }

    method BuildFromSingleFullTrigger(t: FullTrigger, ghost todo: Pending)
      requires Ready(todo) && t.Buildable() && SitesOf(t) <= universe
      modifies this`conflicts, this`built, this`evidence, inferredMap`mapping
      ensures Ready(todo) && t in built
      ensures Stepped(old(Now()), todo, Unguarded(t), todo)
      ensures Woken(old(M()), Now(), controlledTriggersBySite, {})
      ensures forall s :: SinkComesFirst(old(M()), s, t, M())
      ensures SourceStored(t, controlledTriggersBySite, old(M()), M())
      ensures Acted(controlledTriggersBySite, old(Now()), todo, Now(), todo, {})
      ensures BuiltIn(controlledTriggersBySite, t, old(Now()), Now(), todo)
      ensures t.producer.kind.Always? && t.consumer.kind.Always? ==>
        M() == old(M()) && conflicts == old(conflicts) + [SingleAssertion(t)]
      decreases Open(), BuildRank(t)
    {
      hide Exact, Grows, Woken, Justified, Sound, Theory, Fired, FirstInLine, Acted, HeedsLabel, EdgeMet, Met;
      ghost var st := Now();
      SourceAndSinkJustified(t, evidence + EvidenceOf(t));
      Recorded(st, t, EvidenceOf(t), todo);
      built := built + {t};
      evidence := evidence + EvidenceOf(t);
      ghost var noted := Now();
      ghost var g := Unguarded(t);
      var pKind, cKind := t.producer.kind, t.consumer.kind;
      if pKind.Always? && cKind.Always? {
        SingleStep(noted, todo, t);
        ActedConflict(controlledTriggersBySite, noted, todo, SingleAssertion(t));
        conflicts := conflicts + [SingleAssertion(t)];
        NothingFired(noted, controlledTriggersBySite, g, Now());
        NothingWoken(Now(), controlledTriggersBySite);
      } else if pKind.Always? && cKind.DependsOnSite() {
        g := Label(t.ConsumerSite(), true);
        ObserveSiteExplanation(t.ConsumerSite(), TrueBecauseShallowConstraint(t.Primitive()), todo);
      } else if pKind.DependsOnSite() && cKind.Always? {
        g := Label(t.ProducerSite(), false);
        ObserveSiteExplanation(t.ProducerSite(), FalseBecauseShallowConstraint(t.Primitive()), todo);
      } else if pKind.DependsOnSite() && cKind.DependsOnSite() {
        g := Implication(t.ProducerSite(), t.ConsumerSite());
        ObserveImplication(t.ProducerSite(), t.ConsumerSite(), t.Primitive(), todo);
      } else {
        ActedNothing(controlledTriggersBySite, noted, todo);
        ExactNothing(noted, todo, g);
        NothingFired(noted, controlledTriggersBySite, g, noted);
        NothingWoken(noted, controlledTriggersBySite);
      }
      BuiltNoted(controlledTriggersBySite, st, t, Now(), todo);
      ActedNoted(controlledTriggersBySite, st, todo, t, Now(), todo);
      FiredWith(st, controlledTriggersBySite, t, g, Now());
      BuiltStep(st, todo, t, EvidenceOf(t), g, Now());
      ExtendsTransitive(st, noted, Now());
    }

    method ObserveImplication(p: Site, c: Site, a: PrimitiveFullTrigger, ghost todo: Pending)
      requires Ready(todo) && p in universe && c in universe && Edge(p, c, a) in evidence
      modifies this`conflicts, this`built, this`evidence, inferredMap`mapping
      ensures Ready(todo)
      ensures Stepped(old(Now()), todo, Implication(p, c), todo)
      ensures Woken(old(M()), Now(), controlledTriggersBySite, {})
      ensures Labelled(old(M()), c, false) && !Determined(old(M()), p) ==> Labelled(M(), p, false)
      ensures Acted(controlledTriggersBySite, old(Now()), todo, Now(), todo, {})
      ensures EdgeMet(controlledTriggersBySite, old(Now()), Now(), todo, p, c)
      decreases Open(), Rank(c, true) + 1
    {
      hide Exact, Grows, Woken, Sound, Justified, Fired, FirstInLine, Joined, Relates, Acted, HeedsLabel, Pushed;
      ghost var st := Now();
      var m := inferredMap.mapping.vals;
      if p in m && m[p].DeterminedVal? {
        if m[p].b.Val() {
          LabelJustified(st, p, todo);
          DeepJustified(m[p].b, p, c, a, evidence);
          ObserveSiteExplanation(c, TrueBecauseDeepConstraint(a, m[p].b), todo);
          CrossedTo(controlledTriggersBySite, st, p, c, a, m[p].b, Now(), todo);
          ImplicationAsLabel(st, todo, p, c, Now());
          FiredInstead(st, controlledTriggersBySite, Implication(p, c), Label(c, true), Now());
        } else {
          KnownStep(st, todo, p, false);
          Unchanged(st);
          NothingFired(st, controlledTriggersBySite, Implication(p, c), st);
          ActedNothing(controlledTriggersBySite, st, todo);
          NothingWoken(st, controlledTriggersBySite);
        }
        return;
      }
      if c in m && m[c].DeterminedVal? {
        if !m[c].b.Val() {
          LabelJustified(st, c, todo);
          DeepJustified(m[c].b, p, c, a, evidence);
          ObserveSiteExplanation(p, FalseBecauseDeepConstraint(a, m[c].b), todo);
          CrossedTo(controlledTriggersBySite, st, p, c, a, m[c].b, Now(), todo);
          ImplicationAsLabel(st, todo, p, c, Now());
          FiredInstead(st, controlledTriggersBySite, Implication(p, c), Label(p, false), Now());
        } else {
          KnownStep(st, todo, c, true);
          Unchanged(st);
          NothingFired(st, controlledTriggersBySite, Implication(p, c), st);
          ActedNothing(controlledTriggersBySite, st, todo);
          NothingWoken(st, controlledTriggersBySite);
        }
        return;
      }
      inferredMap.StoreImplication(p, c, a);
      ImplicationStep(st, M(), p, c, a, todo, controlledTriggersBySite);
      ActedEdge(controlledTriggersBySite, st, M(), p, c, a, todo);
    }

    /** Between observations: nothing is pending, the map says what was observed, and everything that
        explanations cite was observed or imported. */
    ghost predicate Valid()
      reads this, inferredMap
    {
      && Ready({})
      && Settled(Now(), controlledTriggersBySite, history, inferredMap.upstreamMapping)
      && AllBacked(evidence, imported, built, history)
      && AllMet(Now())
    }

    /** The bookkeeping of one finished observation of `f`, remembered as `g`. */
    ghost method Remember(st: State, f: Fact, g: Fact)
      requires Ready({}) && Stepped(st, {}, f, {}) && RememberedAs(f, g)
      requires Settled(st, controlledTriggersBySite, history, inferredMap.upstreamMapping)
      requires AllBacked(st.evidence, imported, st.built, history + {g})
      requires AllMet(st) && Acted(controlledTriggersBySite, st, {}, Now(), {}, {})
      modifies this`history
      ensures Valid() && history == old(history) + {g}
    {
      hide Settled, Sound, Exact, WellControlled, Grows, AllBacked, RememberedAs, Acted, AllMet;
      StillAllMet(controlledTriggersBySite, st, Now());
      SettledStep(st, controlledTriggersBySite, history, inferredMap.upstreamMapping, f, g, Now());
      StillBacked(st, imported, history + {g}, Now());
      history := history + {g};
    }

    /** Sites and citable constraints that an observation brings in. */
    ghost method Admit(sites: set<Site>, ev: set<Evidence>)
      requires Valid()
      modifies this`universe, this`evidence
      ensures Ready({}) && Settled(Now(), controlledTriggersBySite, history, inferredMap.upstreamMapping)
      ensures sites <= universe && evidence == old(evidence) + ev
      ensures Extends(old(Now()), Now()) && AllMet(Now())
    {
      hide Exact, Grows, AllBacked, Settled, AllMet;
      AdmittedMet(Now(), evidence + ev);
      universe := universe + sites;
      Admitted(Now(), ev);
      SettledAdmits(Now(), controlledTriggersBySite, history, inferredMap.upstreamMapping, ev);
      evidence := evidence + ev;
    }

    /** The constraints that an observation of `g` brings in are backed once it is over. */
    lemma AdmittedBacked(ev: set<Evidence>, ev': set<Evidence>, g: Fact)
      requires AllBacked(ev, imported, built, history)
      requires forall e :: e in ev' ==> e in imported || FromAnnotation(e, history + {g})
      ensures AllBacked(ev + ev', imported, built, history + {g})
    {
      AllBackedMore(ev, imported, built, history, imported, built, history + {g});
      hide FromAnnotation, EvidenceOf;
    }

    method ObserveLabel(s: Site, b: ExplainedBool, ghost ev: set<Evidence>)
      requires Valid() && Justified(b, s, evidence + ev)
      requires forall e :: e in ev ==> e in imported || FromAnnotation(e, history + {Label(s, b.Val())})
      modifies this`conflicts, this`built, this`evidence, this`universe, this`history, inferredMap`mapping
      ensures Valid() && Extends(old(Now()), Now()) && evidence >= old(evidence) + ev
      ensures history == old(history) + {Label(s, b.Val())}
      ensures OnlyFrom(old(Now()), Now(), controlledTriggersBySite, {})
      ensures Exact(old(Now()), {}, Label(s, b.Val()), Now(), {})
      ensures Connected(old(Now()), controlledTriggersBySite, Label(s, b.Val()), Now())
      ensures Acted(controlledTriggersBySite, old(Now()), {}, Now(), {}, {})
      ensures HeedsLabel(controlledTriggersBySite, old(Now()), s, b, Now(), {})
      ensures Labelled(old(M()), s, b.Val()) ==> M() == old(M()) && conflicts == old(conflicts)
      ensures !Determined(old(M()), s) ==> Determined(M(), s) && M()[s].b == b
    {
      hide Faithful, Sound, Exact, WellControlled, Grows, Woken, Heard, Justified, Settled, AllBacked, FirstInLine;
      hide FromAnnotation, InItsTurn, Cited, Connected, Acted, HeedsLabel, AllMet;
      ghost var g := Label(s, b.Val());
      AdmittedBacked(evidence, ev, g);
      Admit({s}, ev);
      ghost var st := Now();
      ObserveSiteExplanation(s, b, {});
      FiredFromTable(st, Now(), controlledTriggersBySite, g, {});
      EvidenceAside(old(Now()), st.evidence, controlledTriggersBySite, g, Now());
      ActedAside(controlledTriggersBySite, old(Now()), st.evidence, Now());
      HeedsAside(controlledTriggersBySite, old(Now()), st.evidence, s, b, Now());
      Remember(st, g, g);
      ExtendsTransitive(old(Now()), st, Now());
    }

    method ObserveEdge(p: Site, c: Site, a: PrimitiveFullTrigger, ghost ev: set<Evidence>)
      requires Valid() && Edge(p, c, a) in evidence + ev && ev <= imported
      modifies this`conflicts, this`built, this`evidence, this`universe, this`history, inferredMap`mapping
      ensures Valid() && Extends(old(Now()), Now()) && evidence >= old(evidence) + ev
      ensures history == old(history) + {Implication(p, c)}
      ensures Acted(controlledTriggersBySite, old(Now()), {}, Now(), {}, {})
      ensures EdgeMet(controlledTriggersBySite, old(Now()), Now(), {}, p, c)
    {
      hide Faithful, Sound, Exact, WellControlled, Grows, Woken, Fired, Heard, Settled, AllBacked;
      hide Acted, EdgeMet, AllMet;
      ghost var g := Implication(p, c);
      AdmittedBacked(evidence, ev, g);
      Admit({p, c}, ev);
      ghost var st := Now();
      ObserveImplication(p, c, a, {});
      ActedAside(controlledTriggersBySite, old(Now()), st.evidence, Now());
      EdgeAside(controlledTriggersBySite, old(Now()), st.evidence, Now(), p, c);
      Remember(st, g, g);
      ExtendsTransitive(old(Now()), st, Now());
    }

    method ObserveAnnotations(annotations: seq<(Key, bool, bool)>)
      requires Valid()
      modifies this`conflicts, this`built, this`evidence, this`universe, this`history, inferredMap`mapping
      ensures Valid() && Extends(old(Now()), Now())
      ensures history == old(history) + AnnotationFacts(annotations)
      ensures OnlyFrom(old(Now()), Now(), controlledTriggersBySite, {})
      ensures Acted(controlledTriggersBySite, old(Now()), {}, Now(), {}, {})
      ensures forall x :: x in annotations ==>
        HeedsLabel(controlledTriggersBySite, old(Now()), Site(x.0, x.1), AnnotationReason(x), Now(), {})
    {
      hide Settled, AllBacked, Sound, WellControlled, Grows, OnlyFrom, Acted, HeedsLabel, AllMet, Exact, Connected;
      Unchanged(Now());
      ActedNothing(controlledTriggersBySite, Now(), {});
      NothingBuilt(Now(), controlledTriggersBySite);
      assert annotations[..|annotations|] == annotations;
      for i := 0 to |annotations|
        invariant Valid() && Extends(old(Now()), Now()) && OnlyFrom(old(Now()), Now(), controlledTriggersBySite, {})
        invariant history == old(history) + AnnotationFacts(annotations[..i])
        invariant Acted(controlledTriggersBySite, old(Now()), {}, Now(), {}, {})
        invariant forall x :: x in annotations[..i] ==>
          HeedsLabel(controlledTriggersBySite, old(Now()), Site(x.0, x.1), AnnotationReason(x), Now(), {})
      {
        var (key, isDeep, val) := annotations[i];
        assert annotations[..i + 1] == annotations[..i] + [annotations[i]];
        var site := Site(key, isDeep);
        ghost var st := Now();
        if val {
          ObserveLabel(site, TrueBecauseAnnotation(key.position), {Annotated(site, true, key.position)});
        } else {
          ObserveLabel(site, FalseBecauseAnnotation(key.position), {Annotated(site, false, key.position)});
        }
        HeededThen(controlledTriggersBySite, old(Now()), annotations, i, st, Now());
        ExtendsTransitive(old(Now()), st, Now());
        OnlyFromThen(old(Now()), st, Now(), controlledTriggersBySite);
      }
    }

    /** What one entry of an imported map is observed as. */
    method ObserveImported(s: Site, v: InferredVal, ghost from: Mapping, ghost ev: set<Evidence>)
      requires Valid() && s in from && from[s] == v && Explained(from, ev) && ev <= imported
      modifies this`conflicts, this`built, this`evidence, this`universe, this`history, inferredMap`mapping
      ensures Valid() && Extends(old(Now()), Now())
      ensures history == old(history) + FactsAt(from, s)
      ensures Acted(controlledTriggersBySite, old(Now()), {}, Now(), {}, {})
      ensures EntryMet(controlledTriggersBySite, old(Now()), from, s, Now())
    {
      hide Acted, HeedsLabel, EdgeMet, AllMet, Exact, Connected;
      match v
      case DeterminedVal(b) =>
        JustifiedMonotone(b, s, ev, evidence + ev);
        ObserveLabel(s, b, ev);
      case UndeterminedVal(implicants, implicates) =>
        ImportedEdges(from, s, ev);
        ghost var edges := FactsAt(from, s);
        hide Settled, AllBacked, Sound, WellControlled, Grows, FactsAt, Explained;
        Unchanged(Now());
        ObserveImplicates(s, implicates, ev);
        ghost var st := Now();
        ObserveImplicants(s, implicants, ev);
        EdgesThen(controlledTriggersBySite, old(Now()), st, Now());
        ActedThen(controlledTriggersBySite, old(Now()), {}, st, {}, Now(), {}, {});
        ExtendsTransitive(old(Now()), st, Now());
    }

    method ObserveImplicates(s: Site, implicates: Edges, ghost ev: set<Evidence>)
      requires Valid() && ev <= imported && forall x :: x in implicates.vals ==> Edge(s, x, implicates.vals[x]) in ev
      modifies this`conflicts, this`built, this`evidence, this`universe, this`history, inferredMap`mapping
      ensures Valid() && Extends(old(Now()), Now())
      ensures history == old(history) + set x | x in implicates.vals :: Implication(s, x)
      ensures Acted(controlledTriggersBySite, old(Now()), {}, Now(), {}, {})
      ensures forall x :: x in implicates.vals ==> EdgeMet(controlledTriggersBySite, old(Now()), Now(), {}, s, x)
    {
      hide Settled, AllBacked, Sound, WellControlled, Grows, Acted, EdgeMet, AllMet;
      Unchanged(Now());
      ActedNothing(controlledTriggersBySite, Now(), {});
      for i := 0 to |implicates.keys|
        invariant Valid() && Extends(old(Now()), Now())
        invariant history == old(history) + set x | x in implicates.keys[..i] :: Implication(s, x)
        invariant Acted(controlledTriggersBySite, old(Now()), {}, Now(), {}, {})
        invariant forall x :: x in implicates.keys[..i] ==>
          EdgeMet(controlledTriggersBySite, old(Now()), Now(), {}, s, x)
      {
        var x := implicates.keys[i];
        assert implicates.keys[..i + 1] == implicates.keys[..i] + [x];
        ghost var st := Now();
        ObserveEdge(s, x, implicates.vals[x], ev);
        EdgesThen(controlledTriggersBySite, old(Now()), st, Now());
        ActedThen(controlledTriggersBySite, old(Now()), {}, st, {}, Now(), {}, {});
        ExtendsTransitive(old(Now()), st, Now());
      }
      assert implicates.keys[..|implicates.keys|] == implicates.keys;
      assert forall x :: x in implicates.keys <==> x in implicates.vals;
    }

    method ObserveImplicants(s: Site, implicants: Edges, ghost ev: set<Evidence>)
      requires Valid() && ev <= imported && forall x :: x in implicants.vals ==> Edge(x, s, implicants.vals[x]) in ev
      modifies this`conflicts, this`built, this`evidence, this`universe, this`history, inferredMap`mapping
      ensures Valid() && Extends(old(Now()), Now())
      ensures history == old(history) + set x | x in implicants.vals :: Implication(x, s)
      ensures Acted(controlledTriggersBySite, old(Now()), {}, Now(), {}, {})
      ensures forall x :: x in implicants.vals ==> EdgeMet(controlledTriggersBySite, old(Now()), Now(), {}, x, s)
    {
      hide Settled, AllBacked, Sound, WellControlled, Grows, Acted, EdgeMet, AllMet;
      Unchanged(Now());
      ActedNothing(controlledTriggersBySite, Now(), {});
      for i := 0 to |implicants.keys|
        invariant Valid() && Extends(old(Now()), Now())
        invariant history == old(history) + set x | x in implicants.keys[..i] :: Implication(x, s)
        invariant Acted(controlledTriggersBySite, old(Now()), {}, Now(), {}, {})
        invariant forall x :: x in implicants.keys[..i] ==>
          EdgeMet(controlledTriggersBySite, old(Now()), Now(), {}, x, s)
      {
        var x := implicants.keys[i];
        assert implicants.keys[..i + 1] == implicants.keys[..i] + [x];
        ghost var st := Now();
        ObserveEdge(x, s, implicants.vals[x], ev);
        EdgesThen(controlledTriggersBySite, old(Now()), st, Now());
        ActedThen(controlledTriggersBySite, old(Now()), {}, st, {}, Now(), {}, {});
        ExtendsTransitive(old(Now()), st, Now());
      }
      assert implicants.keys[..|implicants.keys|] == implicants.keys;
      assert forall x :: x in implicants.keys <==> x in implicants.vals;
    }

    method ObserveFact(from: OMap<Site, InferredVal>, ghost ev: set<Evidence>)
      requires Valid() && Explained(from.vals, ev) && ev <= imported
      modifies this`conflicts, this`built, this`evidence, this`universe, this`history, inferredMap`mapping
      ensures Valid() && Extends(old(Now()), Now())
      ensures history == old(history) + FactsOf(from.vals)
      ensures Acted(controlledTriggersBySite, old(Now()), {}, Now(), {}, {})
      ensures MapMet(controlledTriggersBySite, old(Now()), from.vals, Now())
    {
      hide Settled, AllBacked, Sound, WellControlled, Grows, FactsAt, FactsOf, FactsAtAll, Explained, Acted, EntryMet;
      hide AllMet;
      Unchanged(Now());
      ActedNothing(controlledTriggersBySite, Now(), {});
      FactsDone(from);
      assert from.keys[..|from.keys|] == from.keys;
      assert FactsAtAll(from.vals, []) == {} by { NoFacts(from.vals); }
      for i := 0 to |from.keys|
        invariant Valid() && Extends(old(Now()), Now())
        invariant history == old(history) + FactsAtAll(from.vals, from.keys[..i])
        invariant Acted(controlledTriggersBySite, old(Now()), {}, Now(), {}, {})
        invariant forall k :: 0 <= k < i ==>
          EntryMet(controlledTriggersBySite, old(Now()), from.vals, from.keys[k], Now())
      {
        var s := from.keys[i];
        ghost var st := Now();
        FactsNext(from.vals, from.keys, i);
        ObserveImported(s, from.vals[s], from.vals, ev);
        EntriesThen(controlledTriggersBySite, old(Now()), from, i, st, Now());
        ExtendsTransitive(old(Now()), st, Now());
      }
    }

    /** Everything that the facts of upstream packages say is observed, and then becomes the snapshot. */
    method ObserveUpstream(facts: seq<OMap<Site, InferredVal>>, ghost ev: set<Evidence>)
      requires Valid() && forall x :: x in facts ==> Explained(x.vals, ev)
      modifies this`conflicts, this`built, this`evidence, this`imported, this`universe, this`history, inferredMap
      ensures Valid() && Extends(old(Now()), Now())
      ensures history == old(history) + FactsOfAll(facts)
      ensures inferredMap.upstreamMapping == M() && imported == old(imported) + ev
      ensures Acted(controlledTriggersBySite, old(Now()), {}, Now(), {}, {})
      ensures forall x :: x in facts ==> MapMet(controlledTriggersBySite, old(Now()), x.vals, Now())
    {
      hide Settled, AllBacked, Sound, WellControlled, Grows, FactsOfAll, Explained, Acted, MapMet, AllMet;
      ObserveFacts(facts, ev);
      Snapshot();
    }

    method ObserveFacts(facts: seq<OMap<Site, InferredVal>>, ghost ev: set<Evidence>)
      requires Valid() && forall x :: x in facts ==> Explained(x.vals, ev)
      modifies this`conflicts, this`built, this`evidence, this`imported, this`universe, this`history
      modifies inferredMap`mapping
      ensures Valid() && Extends(old(Now()), Now())
      ensures history == old(history) + FactsOfAll(facts) && imported == old(imported) + ev
      ensures Acted(controlledTriggersBySite, old(Now()), {}, Now(), {}, {})
      ensures forall x :: x in facts ==> MapMet(controlledTriggersBySite, old(Now()), x.vals, Now())
    {
      hide Settled, AllBacked, Sound, WellControlled, Grows, FactsOf, FactsOfAll, Explained, Models, Acted, MapMet;
      hide AllMet;
      ActedNothing(controlledTriggersBySite, Now(), {});
      AllBackedMore(evidence, imported, built, history, imported + ev, built, history);
      imported := imported + ev;
      Unchanged(Now());
      assert facts[..|facts|] == facts;
      NoFactsAtAll();
      for i := 0 to |facts|
        invariant Valid() && Extends(old(Now()), Now()) && imported == old(imported) + ev
        invariant history == old(history) + FactsOfAll(facts[..i])
        invariant Acted(controlledTriggersBySite, old(Now()), {}, Now(), {}, {})
        invariant forall x :: x in facts[..i] ==> MapMet(controlledTriggersBySite, old(Now()), x.vals, Now())
      {
        ghost var st := Now();
        FactsOfNext(facts, i);
        ObserveFact(facts[i], ev);
        MapsThen(controlledTriggersBySite, old(Now()), facts, i, st, Now());
        ExtendsTransitive(old(Now()), st, Now());
      }
    }

    method Snapshot()
      requires Valid()
      modifies inferredMap`upstreamMapping
      ensures Valid() && Now() == old(Now()) && inferredMap.upstreamMapping == M()
    {
      hide Settled, AllBacked, Sound, WellControlled;
      SettledSnapshot(Now(), controlledTriggersBySite, history, inferredMap.upstreamMapping);
      inferredMap.SnapshotUpstream();
    }

    /** What comes after this package finds its map, and nothing else: the conflicts were handed over, and
        nobody is waiting. */
    method HandOver() returns (reported: seq<Conflict>)
      requires Valid()
      modifies this, inferredMap`upstreamMapping
      ensures Valid() && reported == old(conflicts) && conflicts == [] && built == {}
      ensures M() == old(M()) && inferredMap.upstreamMapping == M() && history == FactsOf(M())
      ensures controlledTriggersBySite == map[] && imported == evidence == old(evidence)
    {
      HandedOver(Now());
      hide Settled, AllBacked, Sound;
      reported := conflicts;
      conflicts, controlledTriggersBySite := [], map[];
      built, imported, history := {}, evidence, FactsOf(M());
      inferredMap.SnapshotUpstream();
    }

    /** Replaces the controlled triggers of the previous batch. */
    method StartBatch(triggers: seq<FullTrigger>)
      requires Valid() && BatchOk(triggers)
      modifies this`controlledTriggersBySite, this`universe, this`history
      ensures Valid() && Now() == old(Now())
      ensures TableFor(controlledTriggersBySite, triggers)
      ensures history == old(history) + ControlledOf(triggers)
      ensures forall t :: t in triggers ==> SitesOf(t) <= universe
    {
      hide Sound, Faithful, Grows, SitesOf, BatchOk, TableFor, AllSites, ControlledOf, WellControlled, Heard, AllBacked;
      AllBackedMore(evidence, imported, built, history, imported, built, history + ControlledOf(triggers));
      var table := GroupByController(triggers);
      universe := universe + AllSites(triggers);
      BatchScope(triggers, table, universe, history + ControlledOf(triggers));
      controlledTriggersBySite := table;
      history := history + ControlledOf(triggers);
      assert forall f :: f in ControlledOf(triggers) ==> f.Assertion? && f.trigger.Controlled() by {
        ControlledFacts(triggers);
      }
      FaithfulWaiting(Now(), old(history), ControlledOf(triggers));
    }

    method BuildUncontrolled(t: FullTrigger)
      requires Valid() && t.Buildable() && SitesOf(t) <= universe && !t.Controlled()
      modifies this`conflicts, this`built, this`evidence, this`history, inferredMap`mapping
      ensures Valid() && Extends(old(Now()), Now()) && t in built
      ensures history == old(history) + {Assertion(t)}
      ensures Woken(old(M()), Now(), controlledTriggersBySite, {})
      ensures InTurn(old(Now()), Now()) && OnlyFrom(old(Now()), Now(), controlledTriggersBySite, {t})
      ensures SourceStored(t, controlledTriggersBySite, old(M()), M())
      ensures Acted(controlledTriggersBySite, old(Now()), {}, Now(), {}, {})
      ensures BuiltIn(controlledTriggersBySite, t, old(Now()), Now(), {})
      ensures t.producer.kind.Always? && t.consumer.kind.Always? ==>
        M() == old(M()) && conflicts == old(conflicts) + [SingleAssertion(t)]
    {
      hide Settled, AllBacked, Sound, Exact, WellControlled, Grows, Woken, SourceStored, SinkComesFirst, Cited;
      hide Connected, Acted, BuiltIn, AllMet;
      ghost var st := Now();
      AllBackedMore(evidence, imported, built, history, imported, built, history + {Assertion(t)});
      BuildFromSingleFullTrigger(t, {});
      FiredFromTable(st, Now(), controlledTriggersBySite, Unguarded(t), {t});
      Remember(st, Unguarded(t), Assertion(t));
    }

    method BuildPkgInferenceMap(triggers: seq<FullTrigger>)
      requires Valid() && BatchOk(triggers)
      modifies this`conflicts, this`built, this`evidence, this`history, this`universe, this`controlledTriggersBySite
      modifies inferredMap`mapping
      ensures Valid() && Extends(old(Now()), Now())
      ensures history == old(history) + set t | t in triggers :: Assertion(t)
      ensures Fires(old(Now()), triggers, Now())
      ensures TableFor(controlledTriggersBySite, triggers)
      ensures Acted(controlledTriggersBySite, old(Now()), {}, Now(), {}, {})
      ensures forall t :: t in triggers && !t.Controlled() ==>
        BuiltIn(controlledTriggersBySite, t, old(Now()), Now(), {})
    {
      hide Settled, AllBacked, Sound, WellControlled, Grows, Woken, InTurn, BatchOk, TableFor, SitesOf, OnlyFrom;
      hide FromBatch, SourceStored, Acted, BuiltIn, AllMet;
      ghost var start := Now();
      Unchanged(start);
      StartBatch(triggers);
      NothingWoken(start, controlledTriggersBySite);
      NothingOutOfTurn(start, triggers);
      ActedNothing(controlledTriggersBySite, start, {});
      for i := 0 to |triggers|
        invariant Valid() && Extends(start, Now())
        invariant history == old(history) + ControlledOf(triggers) + UncontrolledOf(triggers[..i])
        invariant forall t :: t in triggers[..i] && !t.Controlled() ==> t in built
        invariant TableFor(controlledTriggersBySite, triggers) && forall t :: t in triggers ==> SitesOf(t) <= universe
        invariant Woken(start.m, Now(), controlledTriggersBySite, {}) && InTurn(start, Now())
        invariant FromBatch(start, triggers, Now())
        invariant Acted(controlledTriggersBySite, start, {}, Now(), {}, {})
        invariant forall t :: t in triggers[..i] && !t.Controlled() ==>
          BuiltIn(controlledTriggersBySite, t, start, Now(), {})
      {
        var t := triggers[i];
        assert triggers[..i + 1] == triggers[..i] + [t];
        BatchBuildable(triggers, t);
        if !t.Controlled() {
          ghost var st := Now();
          BuildUncontrolled(t);
          WokenThen(start, st, Now(), controlledTriggersBySite, {});
          InTurnThen(start, st, Now());
          FromBatchNext(start, triggers, st, controlledTriggersBySite, t, Now());
          AllBuiltThen(controlledTriggersBySite, triggers, i, start, st, Now());
          ExtendsTransitive(start, st, Now());
        }
      }
      assert triggers[..|triggers|] == triggers;
      BatchFires(start, triggers, Now(), controlledTriggersBySite);
    }
  }
}
