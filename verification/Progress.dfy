// One observation as a step between states: what may grow, what must stay true, and exactly how
// the constraints expressed by the state change.
module Progress {
  import opened Annotation
  import opened InferredMaps
  import opened Constraints
  import opened Explanation

  /** Controlled triggers of the current batch, by controller. */
  type Table = map<Site, set<FullTrigger>>

  function Waiting(table: Table, s: Site): set<FullTrigger> {
    if s in table then table[s] else {}
  }

  /** The part of an engine that observations change. */
  datatype State = State(
    m: Mapping, conflicts: seq<Conflict>, built: set<FullTrigger>, evidence: set<Evidence>)

  ghost predicate Sound(st: State, todo: Pending) {
    && Consistent(st.m, todo)
    && Explained(st.m, st.evidence)
    && forall i :: 0 <= i < |st.conflicts| ==> Substantiated(st.conflicts[i], st.evidence)
  }

  ghost predicate Extends(st: State, st': State) {
    && Grows(st.m, st'.m)
    && st.conflicts <= st'.conflicts
    && st.built <= st'.built
    && st.evidence <= st'.evidence
  }

  lemma ExtendsTransitive(s0: State, s1: State, s2: State)
    requires Extends(s0, s1) && Extends(s1, s2)
    ensures Extends(s0, s2)
  {
    GrowsTransitive(s0.m, s1.m, s2.m);
    hide Grows;
  }

  /** Every controlled trigger that was built, as the clause it is. */
  ghost predicate Guards(a: Labelling, built: set<FullTrigger>) {
    forall t :: t in built && t.Controlled() ==> Holds(a, Assertion(t))
  }

  lemma FewerGuards(a: Labelling, built: set<FullTrigger>, built': set<FullTrigger>)
    requires built <= built' && Guards(a, built')
    ensures Guards(a, built)
  {
  }

  ghost predicate Refutes(m: Mapping, todo: Pending, built: set<FullTrigger>, f: Fact) {
    forall a: Labelling :: Theory(a, m, todo) && Guards(a, built) ==> !Holds(a, f)
  }

  ghost predicate Entails(m: Mapping, todo: Pending, built: set<FullTrigger>, f: Fact, m': Mapping, todo': Pending) {
    forall a: Labelling :: Theory(a, m, todo) && Guards(a, built) && Holds(a, f) ==> Theory(a, m', todo')
  }

  ghost predicate Follows(m: Mapping, todo: Pending, built: set<FullTrigger>, f: Fact) {
    forall a: Labelling :: Theory(a, m, todo) && Guards(a, built) ==> Holds(a, f)
  }

  /** Nothing that was known is forgotten, not the new fact and no trigger that was built. */
  ghost predicate Remembers(st: State, todo: Pending, f: Fact, st': State, todo': Pending) {
    forall a: Labelling :: Theory(a, st'.m, todo') ==>
      && Theory(a, st.m, todo)
      && Holds(a, f)
      && forall t :: t in st'.built && t !in st.built ==> Holds(a, Unguarded(t))
  }

  /** Observing `f` turned `st` into `st'`: a new conflict means that `f` contradicts what was known,
      and without one the constraints of `st'` are those of `st` and `f`. */
  ghost predicate Exact(st: State, todo: Pending, f: Fact, st': State, todo': Pending) {
    if |st'.conflicts| > |st.conflicts|
    then Refutes(st.m, todo, st'.built, f)
    else Entails(st.m, todo, st'.built, f, st'.m, todo') && Remembers(st, todo, f, st', todo')
  }

  /** Two steps in a row; the second observes something the first already implies. */
  lemma ExactThen(s0: State, todo0: Pending, f: Fact, s1: State, todo1: Pending,
                  g: Fact, s2: State, todo2: Pending)
    requires Extends(s0, s1) && Extends(s1, s2)
    requires Exact(s0, todo0, f, s1, todo1)
    requires |s1.conflicts| == |s0.conflicts| ==>
      Follows(s1.m, todo1, s2.built, g) && Exact(s1, todo1, g, s2, todo2)
    ensures Exact(s0, todo0, f, s2, todo2)
  {
    forall a: Labelling | Guards(a, s2.built) ensures Guards(a, s1.built) {
      FewerGuards(a, s1.built, s2.built);
    }
    hide Theory, Guards, Holds, Grows;
    if |s2.conflicts| == |s0.conflicts| {
      forall a: Labelling | Theory(a, s2.m, todo2)
        ensures Theory(a, s0.m, todo0) && Holds(a, f)
        ensures forall t :: t in s2.built && t !in s0.built ==> Holds(a, Unguarded(t))
      {
        assert Theory(a, s1.m, todo1);
      }
    }
  }

  /** Controllers that turned nilable had their triggers built, except at `open`. */
  ghost predicate Woken(m: Mapping, st': State, table: Table, open: set<Site>) {
    forall s, t :: t in Waiting(table, s) && Labelled(st'.m, s, true) && !Labelled(m, s, true) && s !in open ==>
      t in st'.built
  }

  /** What building a trigger may cite. */
  ghost function EvidenceOf(t: FullTrigger): set<Evidence> {
    if t.producer.kind.Always? && t.consumer.kind.Always? then {Unsafe(t)}
    else if t.producer.kind.Always? && HasConsumerSite(t) then {NilSource(t.ConsumerSite(), t.Primitive())}
    else if HasProducerSite(t) && t.consumer.kind.Always? then {NonnilSink(t.ProducerSite(), t.Primitive())}
    else if HasProducerSite(t) && HasConsumerSite(t) then {Edge(t.ProducerSite(), t.ConsumerSite(), t.Primitive())}
    else {}
  }

  /** Nothing fires out of turn: a trigger that was built, other than the observed one, was waiting,
      its controller was not nilable before, and is now unless there is a new conflict. */
  ghost predicate InItsTurn(st: State, table: Table, f: Fact, st': State) {
    forall t :: t in st'.built && t !in st.built && f != Unguarded(t) ==>
      && t.Controlled() && t in Waiting(table, t.ControllerSite())
      && !Labelled(st.m, t.ControllerSite(), true)
      && (|st'.conflicts| == |st.conflicts| ==> Labelled(st'.m, t.ControllerSite(), true))
  }

  /** Nothing is cited but what a trigger that was built gives. */
  ghost predicate Cited(st: State, st': State) {
    forall e :: e in st'.evidence && e !in st.evidence ==> exists t :: t in st'.built && e in EvidenceOf(t)
  }

  ghost predicate Joins(t: FullTrigger, p: Site, c: Site) {
    HasProducerSite(t) && HasConsumerSite(t) && t.ProducerSite() == p && t.ConsumerSite() == c
  }

  /** `f` is itself an implication from p to c. */
  ghost predicate Relates(f: Fact, p: Site, c: Site) {
    match f
    case Implication(x, y) => x == p && y == c
    case Unguarded(t) => Joins(t, p, c)
    case _ => false
  }

  /** A trigger that was waiting and has been built joins them. */
  ghost predicate WokenJoins(st: State, table: Table, st': State, p: Site, c: Site) {
    exists t :: t in st'.built && Joins(t, p, c) && WasWaiting(st, table, t)
  }

  ghost predicate WasWaiting(st: State, table: Table, t: FullTrigger) {
    t.Controlled() && t in Waiting(table, t.ControllerSite()) && !Labelled(st.m, t.ControllerSite(), true)
  }

  /** A new edge is what was observed, or what a trigger that was woken says. */
  ghost predicate Connected(st: State, table: Table, f: Fact, st': State) {
    forall p, c :: Joined(st'.m, p, c) ==>
      Joined(st.m, p, c) || Relates(f, p, c) || WokenJoins(st, table, st', p, c)
  }

  ghost predicate Fired(st: State, table: Table, f: Fact, st': State) {
    InItsTurn(st, table, f, st') && Cited(st, st') && Connected(st, table, f, st')
  }

  lemma ConnectedThen(s0: State, table: Table, f: Fact, s1: State, g: Fact, s2: State)
    requires Connected(s0, table, f, s1) && Connected(s1, table, g, s2) && Extends(s0, s1) && s1.built <= s2.built
    requires g.Unguarded? ==> WasWaiting(s0, table, g.trigger) && g.trigger in s2.built
    requires !g.Implication?
    ensures Connected(s0, table, f, s2)
  {
    GrowsKeeps(s0.m, s1.m);
    hide Grows, Joined, Joins, Waiting, Labelled;
    forall p, c | Joined(s2.m, p, c)
      ensures Joined(s0.m, p, c) || Relates(f, p, c) || WokenJoins(s0, table, s2, p, c)
    {
      if Relates(g, p, c) {
        assert WokenJoins(s0, table, s2, p, c);
      } else if WokenJoins(s1, table, s2, p, c) {
        var t :| t in s2.built && Joins(t, p, c) && WasWaiting(s1, table, t);
        assert WasWaiting(s0, table, t);
      } else if WokenJoins(s0, table, s1, p, c) {
        var t :| t in s1.built && Joins(t, p, c) && WasWaiting(s0, table, t);
        assert t in s2.built;
      }
    }
  }

  lemma FiredThen(s0: State, table: Table, f: Fact, s1: State, g: Fact, s2: State)
    requires Extends(s0, s1) && Extends(s1, s2) && Fired(s0, table, f, s1) && Fired(s1, table, g, s2)
    requires !g.Implication?
    requires g.Unguarded? ==> g.trigger in s2.built
    requires g.Unguarded? ==> g.trigger.Controlled() && g.trigger in Waiting(table, g.trigger.ControllerSite())
                              && !Labelled(s0.m, g.trigger.ControllerSite(), true)
                              && (|s1.conflicts| == |s0.conflicts| ==> Labelled(s1.m, g.trigger.ControllerSite(), true))
    ensures Fired(s0, table, f, s2)
  {
    GrowsKeeps(s0.m, s1.m);
    GrowsKeeps(s1.m, s2.m);
    CitedThen(s0, s1, s2);
    ConnectedThen(s0, table, f, s1, g, s2);
    hide Grows, Labelled, Waiting, Cited, Connected;
  }

  /** Where nothing is built and nothing cited, nothing fired. */
  lemma NothingFired(st: State, table: Table, f: Fact, st': State)
    requires st'.built == st.built && st'.evidence == st.evidence
    requires forall p, c :: Joined(st'.m, p, c) ==> Joined(st.m, p, c) || Relates(f, p, c)
    ensures Fired(st, table, f, st')
  {
    hide Joined, Relates;
  }

  lemma FiredInstead(st: State, table: Table, f: Fact, g: Fact, st': State)
    requires Fired(st, table, g, st') && g.Label?
    ensures Fired(st, table, f, st')
  {
    hide Cited, Labelled, Waiting, Joined;
  }

  /** Building a trigger and then observing what it says. */
  lemma FiredWith(st: State, table: Table, t: FullTrigger, g: Fact, st': State)
    requires Fired(st.(built := st.built + {t}, evidence := st.evidence + EvidenceOf(t)), table, g, st')
    requires t in st'.built && (!g.Unguarded? || g == Unguarded(t))
    requires g.Implication? ==> Joins(t, g.producer, g.consumer)
    ensures Fired(st, table, Unguarded(t), st')
  {
    hide EvidenceOf, Labelled, Waiting, Joined;
  }

  /** Nil must not get to the consumer: always, or because its site is known to be nonnil. */
  ghost predicate Refuses(m: Mapping, t: FullTrigger) {
    t.consumer.kind.Always? || (HasConsumerSite(t) && Labelled(m, t.ConsumerSite(), false))
  }

  /** A site that turns nilable wakes its triggers before anything follows its edges: if just one
      trigger waits there, and it makes a site nonnil that is still open, then it comes first. */
  ghost predicate FirstAwake(table: Table, m: Mapping, s: Site, m': Mapping) {
    forall t :: Waiting(table, s) == {t} ==> SinkComesFirst(m, s, t, m')
  }

  ghost predicate SinkComesFirst(m: Mapping, s: Site, t: FullTrigger, m': Mapping) {
    Refuses(m, t) && HasProducerSite(t) && t.ProducerSite() != s && !Determined(m, t.ProducerSite()) ==>
      Labelled(m', t.ProducerSite(), false)
  }

  /** A way that is followed before anything else: nobody waits for its sites but the last, where `t`
      alone waits, and the next site comes first among the edges of each. */
  ghost predicate WayTo(table: Table, m: Mapping, way: seq<Site>, t: FullTrigger) {
    && way != [] && Waiting(table, way[|way| - 1]) == {t}
    && Refuses(m, t) && HasProducerSite(t) && !Determined(m, t.ProducerSite())
    && (forall i :: 0 <= i < |way| ==> !Determined(m, way[i]) && way[i] != t.ProducerSite())
    && (forall i, j :: 0 <= i < j < |way| ==> way[i] != way[j])
    && (forall i :: 0 <= i < |way| - 1 ==> Waiting(table, way[i]) == {} && LeadsFirst(m, way[i], way[i + 1]))
  }

  ghost predicate LeadsFirst(m: Mapping, p: Site, c: Site) {
    Implicates(m, p).keys != [] && Implicates(m, p).keys[0] == c
  }

  /** The trigger at the end of such a way has made its site nonnil. */
  ghost predicate FirstInLine(table: Table, m: Mapping, s: Site, m': Mapping) {
    forall way, t :: WayTo(table, m, way, t) && way[0] == s ==> Labelled(m', t.ProducerSite(), false)
  }

  lemma FirstInLineGrows(table: Table, m: Mapping, s: Site, m': Mapping, m'': Mapping)
    requires FirstInLine(table, m, s, m') && Grows(m', m'')
    ensures FirstInLine(table, m, s, m'')
  {
    GrowsKeeps(m', m'');
    hide Grows, Labelled, WayTo;
  }

  /** Once its label is stored, a site no longer matters to what comes first. */
  lemma FirstAwakeStored(table: Table, m: Mapping, s: Site, b: ExplainedBool, m': Mapping)
    requires FirstAwake(table, WithLabel(m, s, b), s, m') && !Determined(m, s)
    ensures FirstAwake(table, m, s, m')
  {
    LabelStored(m, s, b);
    assert forall x :: Labelled(m, x, false) ==> Determined(m, x);
    hide Labelled, Determined, WithLabel;
    forall t | Waiting(table, s) == {t} ensures SinkComesFirst(m, s, t, m') {
      assert SinkComesFirst(WithLabel(m, s, b), s, t, m');
    }
  }

  lemma WayNext(table: Table, m: Mapping, way: seq<Site>, t: FullTrigger, b: ExplainedBool)
    requires WayTo(table, m, way, t) && |way| > 1
    ensures WayTo(table, WithLabel(m, way[0], b), way[1..], t)
  {
    hide Waiting;
    var m', rest := WithLabel(m, way[0], b), way[1..];
    assert Refuses(m', t);
    forall i | 0 <= i < |rest| - 1 ensures Waiting(table, rest[i]) == {} && LeadsFirst(m', rest[i], rest[i + 1]) {
      assert rest[i] == way[i + 1] && rest[i + 1] == way[i + 2];
      assert LeadsFirst(m, way[i + 1], way[i + 2]);
    }
    assert rest[|rest| - 1] == way[|way| - 1];
  }

  /** What comes first at a site: its own trigger, or whatever comes first behind its first edge. */
  lemma FirstInLineVia(table: Table, m: Mapping, s: Site, b: ExplainedBool, m': Mapping, m'': Mapping)
    requires FirstAwake(table, m, s, m') && Grows(m', m'')
    requires forall c :: Waiting(table, s) == {} && LeadsFirst(m, s, c) && !Determined(WithLabel(m, s, b), c) ==>
      FirstInLine(table, WithLabel(m, s, b), c, m'')
    ensures FirstInLine(table, m, s, m'')
  {
    GrowsKeeps(m', m'');
    hide Grows, Labelled, Waiting, LeadsFirst, Determined, WithLabel;
    forall way, t | WayTo(table, m, way, t) && way[0] == s ensures Labelled(m'', t.ProducerSite(), false) {
      if |way| == 1 {
        assert SinkComesFirst(m, s, t, m');
      } else {
        WayNext(table, m, way, t, b);
        assert WayTo(table, WithLabel(m, s, b), way[1..], t) && way[1..][0] == way[1];
        assert LeadsFirst(m, way[0], way[1]);
      }
    }
  }

  lemma CitedThen(s0: State, s1: State, s2: State)
    requires Cited(s0, s1) && Cited(s1, s2) && s1.built <= s2.built
    ensures Cited(s0, s2)
  {
    hide EvidenceOf;
    forall e | e in s2.evidence && e !in s0.evidence ensures exists t :: t in s2.built && e in EvidenceOf(t) {
      if e in s1.evidence {
        var t :| t in s1.built && e in EvidenceOf(t);
        assert t in s2.built;
      }
    }
  }

  lemma WokenThen(s0: State, s1: State, s2: State, table: Table, open: set<Site>)
    requires Extends(s1, s2) && Woken(s0.m, s1, table, open) && Woken(s1.m, s2, table, {})
    ensures Woken(s0.m, s2, table, open)
  {
    hide Grows;
  }

  /** One fact may stand for another where they agree. */
  lemma ExactInstead(st: State, todo: Pending, f: Fact, g: Fact, st': State, todo': Pending)
    requires Exact(st, todo, g, st', todo')
    requires forall a: Labelling :: Theory(a, st.m, todo) ==> (Holds(a, f) <==> Holds(a, g))
    ensures Exact(st, todo, f, st', todo')
  {
    hide Theory, Guards, Holds;
  }

  lemma ExactNothing(st: State, todo: Pending, f: Fact)
    requires forall a: Labelling :: Theory(a, st.m, todo) ==> Holds(a, f)
    ensures Exact(st, todo, f, st, todo)
  {
    hide Theory, Holds;
  }

  lemma ExactSettle(st0: State, todo0: Pending, f: Fact, st: State, todo: Pending, p: Site, c: Site)
    requires Exact(st0, todo0, f, st, todo + {(p, c)})
    requires |st.conflicts| == |st0.conflicts| ==> Labelled(st.m, c, true) || Labelled(st.m, p, false)
    requires st0.conflicts <= st.conflicts
    ensures Exact(st0, todo0, f, st, todo)
  {
    hide Theory, Guards, Holds, Labelled;
    if |st.conflicts| == |st0.conflicts| {
      forall a: Labelling
        ensures Theory(a, st.m, todo + {(p, c)}) <==> Theory(a, st.m, todo)
      {
        SettledTheory(a, st.m, todo, p, c);
      }
    }
  }

  lemma SoundSettle(st: State, todo: Pending, p: Site, c: Site)
    requires Sound(st, todo + {(p, c)}) && Determined(st.m, p) && Determined(st.m, c)
    ensures Sound(st, todo)
  {
    hide Explained, Substantiated;
    assert !Undetermined(st.m, p) && !Undetermined(st.m, c);
    forall x, y | Flows(st.m, x, y) ensures SettledForward(st.m, x, y, todo) {
      assert SettledForward(st.m, x, y, todo + {(p, c)});
    }
    forall x, y | FlowsBack(st.m, x, y) ensures SettledBackward(st.m, x, y, todo) {
      assert SettledBackward(st.m, x, y, todo + {(p, c)});
    }
  }

  /** The step that stores a label. */
  lemma LabelStep(st: State, s: Site, b: ExplainedBool, todo: Pending, table: Table)
    requires Sound(st, todo) && !Determined(st.m, s) && Justified(b, s, st.evidence)
    ensures
      var st', todo' := st.(m := WithLabel(st.m, s, b)), todo + Owed(st.m, s, b.Val());
      && Sound(st', todo') && Extends(st, st')
      && Exact(st, todo, Label(s, b.Val()), st', todo')
      && Woken(st.m, st', table, if b.Val() then {s} else {})
  {
    var st', todo' := st.(m := WithLabel(st.m, s, b)), todo + Owed(st.m, s, b.Val());
    LabelConsistent(st.m, s, b, todo);
    LabelExplained(st.m, s, b, st.evidence);
    LabelGrows(st.m, s, b);
    LabelStored(st.m, s, b);
    hide Consistent, Explained, Grows, Theory, Holds, Labelled, WithLabel, Owed, Substantiated;
    forall a: Labelling
      ensures Theory(a, st'.m, todo') <==> Theory(a, st.m, todo) && Holds(a, Label(s, b.Val()))
    {
      LabelTheory(a, st.m, s, b, todo);
    }
  }

  /** The step that stores an implication edge. */
  lemma ImplicationStep(st: State, m': Mapping, p: Site, c: Site, e: PrimitiveFullTrigger, todo: Pending, table: Table)
    requires Sound(st, todo) && ImplicationStored(st.m, m', p, c, e) && Edge(p, c, e) in st.evidence
    ensures
      var st' := st.(m := m');
      && Sound(st', todo) && Extends(st, st')
      && Exact(st, todo, Implication(p, c), st', todo)
      && Woken(st.m, st', table, {}) && Fired(st, table, Implication(p, c), st')
  {
    ImplicationConsistent(st.m, m', p, c, e, todo);
    ImplicationExplained(st.m, m', p, c, e, st.evidence);
    ImplicationGrows(st.m, m', p, c, e);
    StoredFlows(st.m, m', p, c, e);
    NothingFired(st, table, Implication(p, c), st.(m := m'));
    hide Consistent, Explained, Grows, Theory, Holds, Labelled, Substantiated, Fired;
    forall a: Labelling
      ensures Theory(a, m', todo) <==> Theory(a, st.m, todo) && Holds(a, Implication(p, c))
    {
      ImplicationTheory(a, st.m, m', p, c, e, todo);
    }
  }

  /** What may be cited has no part in what a step means. */
  lemma EvidenceAside(st: State, ev: set<Evidence>, table: Table, f: Fact, st': State)
    requires Exact(st.(evidence := ev), {}, f, st', {}) && Fired(st.(evidence := ev), table, f, st')
    ensures Exact(st, {}, f, st', {}) && Connected(st, table, f, st')
  {
  }

  lemma Unchanged(st: State)
    ensures Extends(st, st)
  {
  }

  lemma NothingWoken(st: State, table: Table)
    ensures Woken(st.m, st, table, {})
  {
  }

  lemma WokenClose(m: Mapping, st: State, table: Table, s: Site)
    requires Woken(m, st, table, {s}) && Waiting(table, s) <= st.built
    ensures Woken(m, st, table, {})
  {
  }

  /** Observing what a label already says. */
  lemma KnownStep(st: State, todo: Pending, s: Site, v: bool)
    requires Labelled(st.m, s, v)
    ensures Exact(st, todo, Label(s, v), st, todo)
    ensures !v ==> forall c :: Exact(st, todo, Implication(s, c), st, todo)
    ensures v ==> forall p :: Exact(st, todo, Implication(p, s), st, todo)
  {
    hide Labelled, Flows, FlowsBack, Guards;
  }

  /** The step that reports a label contradicting the stored one. */
  lemma ConflictStep(st: State, s: Site, known: ExplainedBool, b: ExplainedBool, c: Conflict, todo: Pending,
                     table: Table)
    requires Sound(st, todo) && Determined(st.m, s) && st.m[s].b == known && known.Val() != b.Val()
    requires Justified(b, s, st.evidence)
    requires c == if known.Val() then Overconstraint(known, b) else Overconstraint(b, known)
    ensures
      var st' := st.(conflicts := st.conflicts + [c]);
      && Sound(st', todo) && Extends(st, st')
      && Exact(st, todo, Label(s, b.Val()), st', todo)
      && Woken(st.m, st', table, {})
  {
    assert Labelled(st.m, s, known.Val());
    assert Justified(known, s, st.evidence);
    hide Consistent, Justified;
    assert Substantiated(c, st.evidence);
  }

  function OwedTo(s: Site, cs: seq<Site>): Pending {
    set c | c in cs :: (s, c)
  }

  function OwedBy(ps: seq<Site>, s: Site): Pending {
    set p | p in ps :: (p, s)
  }

  lemma OwedEdges(m: Mapping, s: Site)
    requires Undetermined(m, s)
    ensures Owed(m, s, true) == OwedTo(s, m[s].implicates.keys)
    ensures Owed(m, s, false) == OwedBy(m[s].implicants.keys, s)
  {
    var cs, ps := m[s].implicates, m[s].implicants;
    assert forall c :: c in cs.keys <==> c in cs.vals;
    assert forall p :: p in ps.keys <==> p in ps.vals;
  }

  lemma OwedNext(todo: Pending, s: Site, xs: seq<Site>, i: nat)
    requires i < |xs|
    ensures todo + OwedTo(s, xs[i..]) == todo + OwedTo(s, xs[i + 1..]) + {(s, xs[i])}
    ensures todo + OwedBy(xs[i..], s) == todo + OwedBy(xs[i + 1..], s) + {(xs[i], s)}
  {
    assert xs[i..] == [xs[i]] + xs[i + 1..];
  }

  /** Label `v` at one end of an owed implication determines the other end. */
  lemma OwedFollows(m: Mapping, todo: Pending, built: set<FullTrigger>, p: Site, c: Site)
    requires (p, c) in todo
    ensures Labelled(m, p, true) ==> Follows(m, todo, built, Label(c, true))
    ensures Labelled(m, c, false) ==> Follows(m, todo, built, Label(p, false))
  {
    hide Labelled, Flows, FlowsBack, Guards;
    forall a: Labelling | Theory(a, m, todo)
      ensures Labelled(m, p, true) ==> Holds(a, Label(c, true))
      ensures Labelled(m, c, false) ==> Holds(a, Label(p, false))
    {
      assert Flow(a, p, c);
    }
  }

  /** Propagating across the owed implication p to c settles it. */
  lemma PropagationStep(st: State, todo: Pending, table: Table, f: Fact, s1: State, todo1: Pending,
                        p: Site, c: Site, g: Fact, s2: State)
    requires Extends(st, s1) && Extends(s1, s2)
    requires Exact(st, todo, f, s1, todo1 + {(p, c)})
    requires Exact(s1, todo1 + {(p, c)}, g, s2, todo1 + {(p, c)})
    requires Fired(st, table, f, s1) && Fired(s1, table, g, s2)
    requires || (g == Label(c, true) && Labelled(s1.m, p, true))
             || (g == Label(p, false) && Labelled(s1.m, c, false))
    requires |s2.conflicts| == |s1.conflicts| ==> Labelled(s2.m, c, true) || Labelled(s2.m, p, false)
    requires Sound(s2, todo1 + {(p, c)}) && Determined(s2.m, p) && Determined(s2.m, c)
    requires Woken(st.m, s1, table, {}) && Woken(s1.m, s2, table, {})
    ensures Extends(st, s2) && Exact(st, todo, f, s2, todo1) && Fired(st, table, f, s2)
    ensures Sound(s2, todo1) && Woken(st.m, s2, table, {})
  {
    FiredThen(st, table, f, s1, g, s2);
    hide Labelled, Exact, Follows, Sound, Determined, Woken, Fired;
    SoundSettle(s2, todo1, p, c);
    WokenThen(st, s1, s2, table, {});
    OwedFollows(s1.m, todo1 + {(p, c)}, s2.built, p, c);
    ExactThen(st, todo, f, s1, todo1 + {(p, c)}, g, s2, todo1 + {(p, c)});
    ExactSettle(st, todo, f, s2, todo1, p, c);
    ExtendsTransitive(st, s1, s2);
  }

  /** Noting that a trigger is being built changes nothing that is known. */
  lemma Recorded(st: State, t: FullTrigger, ev: set<Evidence>, todo: Pending)
    requires Sound(st, todo)
    ensures
      var st' := st.(built := st.built + {t}, evidence := st.evidence + ev);
      Sound(st', todo) && Extends(st, st')
  {
    ExplainedMonotone(st.m, st.evidence, st.evidence + ev);
    SubstantiatedMonotone(st.conflicts, st.evidence, st.evidence + ev);
    hide Consistent, Explained, Substantiated;
  }

  lemma BuiltStep(st: State, todo: Pending, t: FullTrigger, ev: set<Evidence>, g: Fact, st': State)
    requires Extends(st.(built := st.built + {t}, evidence := st.evidence + ev), st')
    requires Exact(st.(built := st.built + {t}, evidence := st.evidence + ev), todo, g, st', todo)
    requires forall a: Labelling :: Theory(a, st.m, todo) ==> (Holds(a, Unguarded(t)) <==> Holds(a, g))
    ensures Exact(st, todo, Unguarded(t), st', todo)
  {
    hide Theory, Guards, Holds, Grows;
    var noted := st.(built := st.built + {t}, evidence := st.evidence + ev);
    if |st'.conflicts| == |st.conflicts| {
      forall a: Labelling | Theory(a, st'.m, todo)
        ensures Theory(a, st.m, todo) && Holds(a, Unguarded(t))
        ensures forall u :: u in st'.built && u !in st.built ==> Holds(a, Unguarded(u))
      {
        assert Theory(a, noted.m, todo);
      }
    }
  }

  lemma SingleStep(st: State, todo: Pending, t: FullTrigger)
    requires Sound(st, todo) && t.producer.kind.Always? && t.consumer.kind.Always? && Unsafe(t) in st.evidence
    ensures
      var st' := st.(conflicts := st.conflicts + [SingleAssertion(t)]);
      && Sound(st', todo) && Extends(st, st')
      && Exact(st, todo, Unguarded(t), st', todo)
  {
    hide Consistent, Explained, Theory, Guards;
    assert Substantiated(SingleAssertion(t), st.evidence);
  }

  lemma BuiltFollows(m: Mapping, todo: Pending, built: set<FullTrigger>, t: FullTrigger)
    requires t in built && t.Controlled()
    ensures Labelled(m, t.ControllerSite(), true) ==> Follows(m, todo, built, Unguarded(t))
  {
    hide Labelled, Flows, FlowsBack;
  }

  lemma LabelJustified(st: State, s: Site, todo: Pending)
    requires Sound(st, todo) && Determined(st.m, s)
    ensures Justified(st.m[s].b, s, st.evidence)
  {
  }

  lemma OwedDone(todo: Pending, s: Site)
    ensures todo + OwedTo(s, []) == todo && todo + OwedBy([], s) == todo
  {
  }

  lemma OwedNothing(m: Mapping, s: Site, v: bool, todo: Pending)
    requires s !in m
    ensures todo + Owed(m, s, v) == todo
  {
  }

  /** An edge that is stored leads to a mapped site and was observed. */
  lemma EdgesInScope(st: State, s: Site, todo: Pending)
    requires Sound(st, todo) && Undetermined(st.m, s)
    ensures forall c :: c in st.m[s].implicates.vals ==>
      c in st.m && Edge(s, c, st.m[s].implicates.vals[c]) in st.evidence
    ensures forall p :: p in st.m[s].implicants.vals ==>
      p in st.m && Edge(p, s, st.m[s].implicants.vals[p]) in st.evidence
  {
    hide Justified, Substantiated;
    forall c | c in st.m[s].implicates.vals ensures c in st.m {
      assert SettledForward(st.m, s, c, todo);
    }
    forall p | p in st.m[s].implicants.vals ensures p in st.m {
      assert SettledBackward(st.m, p, s, todo);
    }
    assert forall c :: c in st.m[s].implicates.vals ==> Flows(st.m, s, c);
    assert forall p :: p in st.m[s].implicants.vals ==> FlowsBack(st.m, p, s);
  }

  /** With the producer nilable, or the consumer nonnil, an implication is a label. */
  lemma ImplicationAsLabel(st: State, todo: Pending, p: Site, c: Site, st': State)
    ensures Labelled(st.m, p, true) && Exact(st, todo, Label(c, true), st', todo) ==>
      Exact(st, todo, Implication(p, c), st', todo)
    ensures Labelled(st.m, c, false) && Exact(st, todo, Label(p, false), st', todo) ==>
      Exact(st, todo, Implication(p, c), st', todo)
  {
    hide Exact, Flows, FlowsBack, Labelled;
    if Labelled(st.m, p, true) && Exact(st, todo, Label(c, true), st', todo) {
      ExactInstead(st, todo, Implication(p, c), Label(c, true), st', todo);
    }
    if Labelled(st.m, c, false) && Exact(st, todo, Label(p, false), st', todo) {
      ExactInstead(st, todo, Implication(p, c), Label(p, false), st', todo);
    }
  }

  lemma Admitted(st: State, ev: set<Evidence>)
    ensures Extends(st, st.(evidence := st.evidence + ev))
    ensures forall todo :: Sound(st, todo) ==> Sound(st.(evidence := st.evidence + ev), todo)
  {
    forall todo | Sound(st, todo) ensures Sound(st.(evidence := st.evidence + ev), todo) {
      ExplainedMonotone(st.m, st.evidence, st.evidence + ev);
      SubstantiatedMonotone(st.conflicts, st.evidence, st.evidence + ev);
      hide Consistent, Explained, Substantiated;
    }
  }
}
