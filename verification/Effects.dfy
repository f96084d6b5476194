// What an observation does whether or not there are conflicts: every trigger that is built leaves its
// mark on the labels, on the edges or on the conflicts, and so do those that were woken.
module Effects {
  import opened Annotation
  import opened OrderedMaps
  import opened InferredMaps
  import opened Constraints
  import opened Explanation
  import opened Progress

  ghost predicate NewConflict(st: State, c: Conflict, st': State) {
    exists i :: |st.conflicts| <= i < |st'.conflicts| && st'.conflicts[i] == c
  }

  ghost predicate Blames(c: Conflict, b: ExplainedBool) {
    c.Overconstraint? && (if b.Val() then c.nilExplanation else c.nonnilExplanation) == b
  }

  /** `b` is one of the reasons of a new conflict. */
  ghost predicate Blamed(st: State, b: ExplainedBool, st': State) {
    exists c :: NewConflict(st, c, st') && Blames(c, b)
  }

  /** Nil went along an edge from p to c, or nonnil back along it. */
  ghost predicate Crosses(b: ExplainedBool, ev: set<Evidence>, p: Site, c: Site) {
    (b.TrueBecauseDeepConstraint? || b.FalseBecauseDeepConstraint?) && Edge(p, c, b.internalAssertion) in ev
  }

  ghost predicate Across(st: State, st': State, p: Site, c: Site, v: bool) {
    exists b: ExplainedBool :: b.Val() == v && Blamed(st, b, st') && Crosses(b, st'.evidence, p, c)
  }

  /** An implication that is an edge, says nothing more, or is still to be propagated. */
  ghost predicate Held(m: Mapping, todo: Pending, p: Site, c: Site) {
    Joined(m, p, c) || Labelled(m, c, true) || Labelled(m, p, false) || (p, c) in todo
  }

  /** The label is there, or `b` is a reason of a new conflict. */
  ghost predicate LabelMet(st: State, s: Site, b: ExplainedBool, st': State) {
    Labelled(st'.m, s, b.Val()) || Blamed(st, b, st')
  }

  /** The mark that a trigger leaves. */
  ghost predicate Met(t: FullTrigger, st: State, st': State, todo: Pending) {
    if t.producer.kind.Always? && t.consumer.kind.Always? then
      NewConflict(st, SingleAssertion(t), st')
    else if t.producer.kind.Always? && HasConsumerSite(t) then
      LabelMet(st, t.ConsumerSite(), TrueBecauseShallowConstraint(t.Primitive()), st')
    else if HasProducerSite(t) && t.consumer.kind.Always? then
      LabelMet(st, t.ProducerSite(), FalseBecauseShallowConstraint(t.Primitive()), st')
    else if HasProducerSite(t) && HasConsumerSite(t) then
      || Held(st'.m, todo, t.ProducerSite(), t.ConsumerSite())
      || Across(st, st', t.ProducerSite(), t.ConsumerSite(), true)
      || Across(st, st', t.ProducerSite(), t.ConsumerSite(), false)
    else true
  }

  /** Everyone who waits for `s` was built, and left a mark. */
  ghost predicate WaitersMet(table: Table, s: Site, st: State, st': State, todo: Pending) {
    forall t :: t in Waiting(table, s) ==> t in st'.built && Met(t, st, st', todo)
  }

  /** An edge was followed and there was a conflict at the other end, where everyone was woken. */
  ghost predicate Pushed(table: Table, st: State, st': State, todo: Pending, p: Site, c: Site) {
    || Across(st, st', p, c, false)
    || (Across(st, st', p, c, true) && WaitersMet(table, c, st, st', todo))
  }

  ghost predicate EdgeMet(table: Table, st: State, st': State, todo: Pending, p: Site, c: Site) {
    Held(st'.m, todo, p, c) || Pushed(table, st, st', todo, p, c)
  }

  ghost predicate KeepsEdges(table: Table, st: State, todo: Pending, st': State, todo': Pending) {
    forall p, c :: Held(st.m, todo, p, c) ==> EdgeMet(table, st, st', todo', p, c)
  }

  /** Who waited for a site that turned nilable left a mark, except at `open`. */
  ghost predicate Roused(table: Table, st: State, st': State, todo: Pending, open: set<Site>) {
    forall s :: Labelled(st'.m, s, true) && !Labelled(st.m, s, true) && s !in open ==>
      WaitersMet(table, s, st, st', todo)
  }

  /** What was built left a mark. */
  ghost predicate NewMet(st: State, st': State, todo: Pending) {
    forall t :: t in st'.built && t !in st.built ==> Met(t, st, st', todo)
  }

  ghost predicate Acted(table: Table, st: State, todo: Pending, st': State, todo': Pending, open: set<Site>) {
    KeepsEdges(table, st, todo, st', todo') && Roused(table, st, st', todo', open) && NewMet(st, st', todo')
  }

  /** The observation of a label with reason `b`. */
  ghost predicate HeedsLabel(table: Table, st: State, s: Site, b: ExplainedBool, st': State, todo: Pending) {
    && LabelMet(st, s, b, st')
    && (b.Val() && !Labelled(st.m, s, true) ==> WaitersMet(table, s, st, st', todo))
  }

  /** The building of a trigger, with all that it sets off. */
  ghost predicate BuiltIn(table: Table, t: FullTrigger, st: State, st': State, todo: Pending) {
    if t.producer.kind.Always? && t.consumer.kind.Always? then
      NewConflict(st, SingleAssertion(t), st')
    else if t.producer.kind.Always? && HasConsumerSite(t) then
      HeedsLabel(table, st, t.ConsumerSite(), TrueBecauseShallowConstraint(t.Primitive()), st', todo)
    else if HasProducerSite(t) && t.consumer.kind.Always? then
      HeedsLabel(table, st, t.ProducerSite(), FalseBecauseShallowConstraint(t.Primitive()), st', todo)
    else if HasProducerSite(t) && HasConsumerSite(t) then
      EdgeMet(table, st, st', todo, t.ProducerSite(), t.ConsumerSite())
    else true
  }

  lemma BuiltIsMet(table: Table, t: FullTrigger, st: State, st': State, todo: Pending)
    requires BuiltIn(table, t, st, st', todo)
    ensures Met(t, st, st', todo)
  {
    hide Blamed, Held, Across, Labelled, NewConflict, WaitersMet;
  }

  // What was there stays there.

  lemma ConflictThen(s0: State, c: Conflict, s1: State, s2: State)
    requires s0.conflicts <= s1.conflicts <= s2.conflicts
    ensures NewConflict(s0, c, s1) ==> NewConflict(s0, c, s2)
    ensures NewConflict(s1, c, s2) ==> NewConflict(s0, c, s2)
  {
    if NewConflict(s0, c, s1) {
      var i :| |s0.conflicts| <= i < |s1.conflicts| && s1.conflicts[i] == c;
      assert s2.conflicts[i] == c;
    }
  }

  lemma BlamedThen(s0: State, b: ExplainedBool, s1: State, s2: State)
    requires s0.conflicts <= s1.conflicts <= s2.conflicts
    ensures Blamed(s0, b, s1) || Blamed(s1, b, s2) ==> Blamed(s0, b, s2)
  {
    forall c
      ensures NewConflict(s0, c, s1) ==> NewConflict(s0, c, s2)
      ensures NewConflict(s1, c, s2) ==> NewConflict(s0, c, s2)
    {
      ConflictThen(s0, c, s1, s2);
    }
    hide NewConflict, Blames;
  }

  lemma AcrossThen(s0: State, s1: State, s2: State, p: Site, c: Site, v: bool)
    requires s0.conflicts <= s1.conflicts <= s2.conflicts && s1.evidence <= s2.evidence
    ensures Across(s0, s1, p, c, v) || Across(s1, s2, p, c, v) ==> Across(s0, s2, p, c, v)
  {
    forall b ensures Blamed(s0, b, s1) || Blamed(s1, b, s2) ==> Blamed(s0, b, s2) {
      BlamedThen(s0, b, s1, s2);
    }
    hide Blamed;
  }

  lemma LabelMetThen(s0: State, s: Site, b: ExplainedBool, s1: State, s2: State)
    requires s0.conflicts <= s1.conflicts && Extends(s1, s2)
    ensures LabelMet(s0, s, b, s1) || LabelMet(s1, s, b, s2) ==> LabelMet(s0, s, b, s2)
  {
    GrowsKeeps(s1.m, s2.m);
    BlamedThen(s0, b, s1, s2);
    hide Grows, Blamed, Labelled;
  }

  /** A mark stays, and counts from earlier on as well. */
  lemma MetThen(table: Table, t: FullTrigger, s0: State, s1: State, todo1: Pending, s2: State, todo2: Pending)
    requires s0.conflicts <= s1.conflicts && Extends(s1, s2)
    requires (Met(t, s0, s1, todo1) && KeepsEdges(table, s1, todo1, s2, todo2)) || Met(t, s1, s2, todo2)
    ensures Met(t, s0, s2, todo2)
  {
    if t.producer.kind.Always? && t.consumer.kind.Always? {
      ConflictThen(s0, SingleAssertion(t), s1, s2);
    } else if t.producer.kind.Always? && HasConsumerSite(t) {
      LabelMetThen(s0, t.ConsumerSite(), TrueBecauseShallowConstraint(t.Primitive()), s1, s2);
    } else if HasProducerSite(t) && t.consumer.kind.Always? {
      LabelMetThen(s0, t.ProducerSite(), FalseBecauseShallowConstraint(t.Primitive()), s1, s2);
    } else if HasProducerSite(t) && HasConsumerSite(t) {
      AcrossThen(s0, s1, s2, t.ProducerSite(), t.ConsumerSite(), true);
      AcrossThen(s0, s1, s2, t.ProducerSite(), t.ConsumerSite(), false);
    }
    hide Held, Across, NewConflict, LabelMet, WaitersMet, Grows;
  }

  lemma WaitersThen(table: Table, s: Site, s0: State, s1: State, todo1: Pending, s2: State, todo2: Pending)
    requires s0.conflicts <= s1.conflicts && Extends(s1, s2) && KeepsEdges(table, s1, todo1, s2, todo2)
    ensures WaitersMet(table, s, s0, s1, todo1) || WaitersMet(table, s, s1, s2, todo2) ==>
      WaitersMet(table, s, s0, s2, todo2)
  {
    hide KeepsEdges, Met, Grows, Waiting;
    forall t | t in Waiting(table, s) ensures
        (Met(t, s0, s1, todo1) || Met(t, s1, s2, todo2)) ==> Met(t, s0, s2, todo2) {
      if Met(t, s0, s1, todo1) || Met(t, s1, s2, todo2) {
        MetThen(table, t, s0, s1, todo1, s2, todo2);
      }
    }
  }

  lemma EdgeMetThen(table: Table, s0: State, s1: State, todo1: Pending, s2: State, todo2: Pending, p: Site, c: Site)
    requires s0.conflicts <= s1.conflicts && Extends(s1, s2) && KeepsEdges(table, s1, todo1, s2, todo2)
    ensures EdgeMet(table, s0, s1, todo1, p, c) || EdgeMet(table, s1, s2, todo2, p, c) ==>
      EdgeMet(table, s0, s2, todo2, p, c)
  {
    AcrossThen(s0, s1, s2, p, c, true);
    AcrossThen(s0, s1, s2, p, c, false);
    WaitersThen(table, c, s0, s1, todo1, s2, todo2);
    hide Held, Across, WaitersMet, Grows;
  }

  /** Two steps in a row. */
  lemma ActedThen(table: Table, s0: State, todo0: Pending, s1: State, todo1: Pending, s2: State, todo2: Pending,
                  open: set<Site>)
    requires Extends(s0, s1) && Extends(s1, s2)
    requires Acted(table, s0, todo0, s1, todo1, open) && Acted(table, s1, todo1, s2, todo2, {})
    ensures Acted(table, s0, todo0, s2, todo2, open)
  {
    GrowsKeeps(s0.m, s1.m);
    hide Held, Grows, Labelled, Met, WaitersMet, EdgeMet;
    forall p, c | Held(s0.m, todo0, p, c) ensures EdgeMet(table, s0, s2, todo2, p, c) {
      EdgeMetThen(table, s0, s1, todo1, s2, todo2, p, c);
    }
    forall s | Labelled(s2.m, s, true) && !Labelled(s0.m, s, true) && s !in open
      ensures WaitersMet(table, s, s0, s2, todo2)
    {
      WaitersThen(table, s, s0, s1, todo1, s2, todo2);
    }
    forall t | t in s2.built && t !in s0.built ensures Met(t, s0, s2, todo2) {
      MetThen(table, t, s0, s1, todo1, s2, todo2);
    }
  }

  lemma HeedsThen(table: Table, s0: State, s: Site, b: ExplainedBool, s1: State, todo1: Pending, s2: State,
                  todo2: Pending)
    requires Extends(s0, s1) && Extends(s1, s2) && KeepsEdges(table, s1, todo1, s2, todo2)
    ensures HeedsLabel(table, s0, s, b, s1, todo1) ==> HeedsLabel(table, s0, s, b, s2, todo2)
    ensures HeedsLabel(table, s1, s, b, s2, todo2) && Roused(table, s0, s1, todo1, {}) ==>
      HeedsLabel(table, s0, s, b, s2, todo2)
  {
    LabelMetThen(s0, s, b, s1, s2);
    WaitersThen(table, s, s0, s1, todo1, s2, todo2);
    hide Grows, LabelMet, WaitersMet, Labelled, KeepsEdges;
  }

  lemma BuiltThen(table: Table, t: FullTrigger, s0: State, s1: State, todo1: Pending, s2: State, todo2: Pending)
    requires Extends(s0, s1) && Extends(s1, s2) && KeepsEdges(table, s1, todo1, s2, todo2)
    ensures BuiltIn(table, t, s0, s1, todo1) ==> BuiltIn(table, t, s0, s2, todo2)
    ensures BuiltIn(table, t, s1, s2, todo2) && Roused(table, s0, s1, todo1, {}) ==> BuiltIn(table, t, s0, s2, todo2)
  {
    if t.producer.kind.Always? && t.consumer.kind.Always? {
      ConflictThen(s0, SingleAssertion(t), s1, s2);
    } else if t.producer.kind.Always? && HasConsumerSite(t) {
      HeedsThen(table, s0, t.ConsumerSite(), TrueBecauseShallowConstraint(t.Primitive()), s1, todo1, s2, todo2);
    } else if HasProducerSite(t) && t.consumer.kind.Always? {
      HeedsThen(table, s0, t.ProducerSite(), FalseBecauseShallowConstraint(t.Primitive()), s1, todo1, s2, todo2);
    } else if HasProducerSite(t) && HasConsumerSite(t) {
      EdgeMetThen(table, s0, s1, todo1, s2, todo2, t.ProducerSite(), t.ConsumerSite());
    }
    hide NewConflict, HeedsLabel, EdgeMet, KeepsEdges, Roused, Grows;
  }

  // The single steps.

  lemma ActedNothing(table: Table, st: State, todo: Pending)
    ensures Acted(table, st, todo, st, todo, {})
  {
    hide Held, Pushed, Labelled;
  }

  lemma ActedLabel(table: Table, st: State, s: Site, b: ExplainedBool, todo: Pending)
    requires Consistent(st.m, todo) && !Determined(st.m, s)
    ensures Acted(table, st, todo, st.(m := WithLabel(st.m, s, b)), todo + Owed(st.m, s, b.Val()),
                  if b.Val() then {s} else {})
  {
    var m', todo' := WithLabel(st.m, s, b), todo + Owed(st.m, s, b.Val());
    LabelStored(st.m, s, b);
    OwedPairs(st.m, s, b.Val());
    hide Flows, FlowsBack, Labelled, WithLabel, Owed, Pushed, Met;
    forall p, c | Held(st.m, todo, p, c) ensures Held(m', todo', p, c) {
      assert Flows(st.m, p, c) ==> SettledForward(st.m, p, c, todo);
      assert FlowsBack(st.m, p, c) ==> SettledBackward(st.m, p, c, todo);
    }
  }

  lemma ActedEdge(table: Table, st: State, m': Mapping, p: Site, c: Site, e: PrimitiveFullTrigger, todo: Pending)
    requires ImplicationStored(st.m, m', p, c, e)
    ensures Acted(table, st, todo, st.(m := m'), todo, {}) && Held(m', todo, p, c)
  {
    StoredFlows(st.m, m', p, c, e);
    hide Flows, FlowsBack, Labelled, ImplicationStored, Pushed, Met;
    assert Flows(m', p, c);
  }

  lemma ActedConflict(table: Table, st: State, todo: Pending, c: Conflict)
    ensures Acted(table, st, todo, st.(conflicts := st.conflicts + [c]), todo, {})
    ensures NewConflict(st, c, st.(conflicts := st.conflicts + [c]))
  {
    var st' := st.(conflicts := st.conflicts + [c]);
    assert st'.conflicts[|st.conflicts|] == c;
    hide Held, Pushed, Labelled, Met;
  }

  lemma ActedClose(table: Table, st: State, todo: Pending, st': State, todo': Pending, s: Site)
    requires Acted(table, st, todo, st', todo', {s}) && WaitersMet(table, s, st, st', todo')
    ensures Acted(table, st, todo, st', todo', {})
  {
    hide KeepsEdges, NewMet, WaitersMet, Labelled;
  }

  /** `t` is noted as built, and then what it says is observed. */
  ghost function Noted(st: State, t: FullTrigger): State {
    st.(built := st.built + {t}, evidence := st.evidence + EvidenceOf(t))
  }

  lemma NotedMet(table: Table, u: FullTrigger, st: State, t: FullTrigger, st': State, todo: Pending)
    ensures Met(u, Noted(st, t), st', todo) <==> Met(u, st, st', todo)
  {
    hide EvidenceOf, Held;
  }

  lemma NotedWaiters(table: Table, s: Site, st: State, t: FullTrigger, st': State, todo: Pending)
    ensures WaitersMet(table, s, Noted(st, t), st', todo) <==> WaitersMet(table, s, st, st', todo)
  {
    forall u ensures Met(u, Noted(st, t), st', todo) <==> Met(u, st, st', todo) {
      NotedMet(table, u, st, t, st', todo);
    }
    hide Met, Noted;
  }

  lemma NotedAcross(st: State, t: FullTrigger, st': State, p: Site, c: Site, v: bool)
    ensures Across(Noted(st, t), st', p, c, v) <==> Across(st, st', p, c, v)
  {
    hide EvidenceOf;
  }

  lemma NotedEdge(table: Table, st: State, t: FullTrigger, st': State, todo: Pending, p: Site, c: Site)
    ensures EdgeMet(table, Noted(st, t), st', todo, p, c) <==> EdgeMet(table, st, st', todo, p, c)
  {
    NotedWaiters(table, c, st, t, st', todo);
    NotedAcross(st, t, st', p, c, true);
    NotedAcross(st, t, st', p, c, false);
    hide Held, Across, WaitersMet, Noted;
  }

  lemma NotedLabel(table: Table, st: State, t: FullTrigger, s: Site, b: ExplainedBool, st': State, todo: Pending)
    ensures HeedsLabel(table, Noted(st, t), s, b, st', todo) <==> HeedsLabel(table, st, s, b, st', todo)
  {
    NotedWaiters(table, s, st, t, st', todo);
    hide EvidenceOf, WaitersMet, Labelled;
  }

  lemma ActedNoted(table: Table, st: State, todo: Pending, t: FullTrigger, st': State, todo': Pending)
    requires Acted(table, Noted(st, t), todo, st', todo', {}) && Met(t, st, st', todo')
    ensures Acted(table, st, todo, st', todo', {})
  {
    forall p, c ensures EdgeMet(table, Noted(st, t), st', todo', p, c) <==> EdgeMet(table, st, st', todo', p, c) {
      NotedEdge(table, st, t, st', todo', p, c);
    }
    forall s ensures WaitersMet(table, s, Noted(st, t), st', todo') <==> WaitersMet(table, s, st, st', todo') {
      NotedWaiters(table, s, st, t, st', todo');
    }
    forall u ensures Met(u, Noted(st, t), st', todo') <==> Met(u, st, st', todo') {
      NotedMet(table, u, st, t, st', todo');
    }
    assert Noted(st, t).m == st.m && Noted(st, t).built == st.built + {t};
    hide Held, EdgeMet, WaitersMet, Met, Labelled, Noted;
  }

  /** One owed implication has been followed. */
  lemma ActedSettle(table: Table, st: State, todo0: Pending, st': State, todo: Pending, p: Site, c: Site)
    requires Acted(table, st, todo0, st', todo + {(p, c)}, {})
    requires Labelled(st'.m, c, true) || Labelled(st'.m, p, false) || Pushed(table, st, st', todo + {(p, c)}, p, c)
    ensures Acted(table, st, todo0, st', todo, {})
  {
    forall t | Met(t, st, st', todo + {(p, c)}) ensures Met(t, st, st', todo) {
      hide Across, LabelMet, NewConflict, Joined, Labelled;
    }
    forall s | WaitersMet(table, s, st, st', todo + {(p, c)}) ensures WaitersMet(table, s, st, st', todo) {
      hide Met;
    }
    forall x, y | EdgeMet(table, st, st', todo + {(p, c)}, x, y) ensures EdgeMet(table, st, st', todo, x, y) {
      hide Across, WaitersMet, Joined, Labelled;
    }
    hide Held, EdgeMet, WaitersMet, Met, Labelled, Across, Pushed;
  }

  /** The other end of an edge was observed. */
  lemma CrossedTo(table: Table, st: State, p: Site, c: Site, a: PrimitiveFullTrigger, b: ExplainedBool, st': State,
                  todo: Pending)
    requires Extends(st, st') && Edge(p, c, a) in st'.evidence
    requires if b.Val() then HeedsLabel(table, st, c, TrueBecauseDeepConstraint(a, b), st', todo)
             else HeedsLabel(table, st, p, FalseBecauseDeepConstraint(a, b), st', todo)
    ensures Labelled(st'.m, c, true) || Labelled(st'.m, p, false) || Pushed(table, st, st', todo, p, c)
  {
    GrowsKeeps(st.m, st'.m);
    var reason := if b.Val() then TrueBecauseDeepConstraint(a, b) else FalseBecauseDeepConstraint(a, b);
    hide Grows, Blamed, WaitersMet, Labelled;
    if Blamed(st, reason, st') {
      assert Across(st, st', p, c, b.Val());
    }
  }

  // What is true of a whole run.

  function NoState(): State {
    State(map[], [], {}, {})
  }

  /** Every trigger that was ever built has left its mark, conflicts or not. */
  ghost predicate AllMet(st: State) {
    forall t :: t in st.built ==> Met(t, NoState(), st, {})
  }

  lemma StillAllMet(table: Table, st: State, st': State)
    requires AllMet(st) && Extends(st, st') && Acted(table, st, {}, st', {}, {})
    ensures AllMet(st')
  {
    hide Met, KeepsEdges, Roused, Grows;
    forall t | t in st'.built ensures Met(t, NoState(), st', {}) {
      MetThen(table, t, NoState(), st, {}, st', {});
    }
  }

  ghost predicate Faults(cs: seq<Conflict>, b: ExplainedBool) {
    exists c :: c in cs && Blames(c, b)
  }

  /** What every trigger that was built has led to, whatever conflicts there were before. */
  lemma WhatWasBuilt(st: State, t: FullTrigger)
    requires AllMet(st) && Quiescent(st.m) && t in st.built
    ensures t.producer.kind.Always? && t.consumer.kind.Always? ==> SingleAssertion(t) in st.conflicts
    ensures t.producer.kind.Always? && HasConsumerSite(t) ==>
      Labelled(st.m, t.ConsumerSite(), true) || Faults(st.conflicts, TrueBecauseShallowConstraint(t.Primitive()))
    ensures HasProducerSite(t) && t.consumer.kind.Always? ==>
      Labelled(st.m, t.ProducerSite(), false) || Faults(st.conflicts, FalseBecauseShallowConstraint(t.Primitive()))
    ensures HasProducerSite(t) && HasConsumerSite(t) ==> Told(st, t.ProducerSite(), t.ConsumerSite())
    ensures HasProducerSite(t) && HasConsumerSite(t) && Labelled(st.m, t.ProducerSite(), true) ==>
      Labelled(st.m, t.ConsumerSite(), true) || !Labelled(st.m, t.ConsumerSite(), false) ||
      Broken(st, t.ProducerSite(), t.ConsumerSite())
  {
    assert Met(t, NoState(), st, {});
    forall b | Blamed(NoState(), b, st) ensures Faults(st.conflicts, b) {
      BlamedFaults(b, st);
    }
    if HasProducerSite(t) && HasConsumerSite(t) {
      var p, c := t.ProducerSite(), t.ConsumerSite();
      forall v | Across(NoState(), st, p, c, v) ensures Broken(st, p, c) {
        AcrossIsBroken(st, p, c, v);
      }
      if Labelled(st.m, p, true) && Labelled(st.m, c, false) {
        NotHeld(st.m, p, c);
      }
    }
    hide Held, Labelled, Blamed, Faults, Quiescent, Across, Broken;
  }

  /** A conflict has a reason that crosses an edge from p to c. */
  ghost predicate Broken(st: State, p: Site, c: Site) {
    exists b :: Faults(st.conflicts, b) && Crosses(b, st.evidence, p, c)
  }

  lemma BlamedFaults(b: ExplainedBool, st: State)
    requires Blamed(NoState(), b, st)
    ensures Faults(st.conflicts, b)
  {
    var c :| NewConflict(NoState(), c, st) && Blames(c, b);
    assert c in st.conflicts;
  }

  lemma AcrossIsBroken(st: State, p: Site, c: Site, v: bool)
    requires Across(NoState(), st, p, c, v)
    ensures Broken(st, p, c)
  {
    hide Blamed, Crosses;
    var b: ExplainedBool :| b.Val() == v && Blamed(NoState(), b, st) && Crosses(b, st.evidence, p, c);
    BlamedFaults(b, st);
  }

  lemma NotHeld(m: Mapping, p: Site, c: Site)
    requires Quiescent(m) && Labelled(m, p, true) && Labelled(m, c, false)
    ensures !Held(m, {}, p, c)
  {
  }

  /** An implication that was observed: held, or cited by a conflict. */
  ghost predicate Told(st: State, p: Site, c: Site) {
    Held(st.m, {}, p, c) || Broken(st, p, c)
  }

  lemma BrokenStill(st: State, st': State, p: Site, c: Site)
    requires Extends(st, st') && Broken(st, p, c)
    ensures Broken(st', p, c)
  {
    hide Grows;
    var b :| Faults(st.conflicts, b) && Crosses(b, st.evidence, p, c);
    var x :| x in st.conflicts && Blames(x, b);
    assert x in st'.conflicts;
    assert Faults(st'.conflicts, b) && Crosses(b, st'.evidence, p, c);
  }

  lemma NewlyBroken(st: State, st': State, p: Site, c: Site, v: bool)
    requires Across(st, st', p, c, v) && Extends(NoState(), st) && Extends(st, st')
    ensures Broken(st', p, c)
  {
    AcrossThen(NoState(), st, st', p, c, v);
    AcrossIsBroken(st', p, c, v);
  }

  lemma FromNothing(st: State)
    ensures Extends(NoState(), st)
  {
    assert forall s :: Implicates(NoState().m, s) == New() && Implicants(NoState().m, s) == New();
  }

  lemma EdgeIsTold(table: Table, st: State, st': State, p: Site, c: Site)
    requires EdgeMet(table, st, st', {}, p, c) && Extends(st, st')
    ensures Told(st', p, c)
  {
    FromNothing(st);
    hide Held, Across, WaitersMet, Broken, Grows;
    if v :| Across(st, st', p, c, v) {
      NewlyBroken(st, st', p, c, v);
    }
  }

  lemma StillTold(table: Table, st: State, st': State)
    requires Extends(st, st') && KeepsEdges(table, st, {}, st', {})
    ensures forall p, c :: Told(st, p, c) ==> Told(st', p, c)
  {
    hide Held, EdgeMet, Broken, Grows;
    forall p, c | Told(st, p, c) ensures Told(st', p, c) {
      if Broken(st, p, c) {
        BrokenStill(st, st', p, c);
      } else {
        EdgeIsTold(table, st, st', p, c);
      }
    }
  }

  /** Every label and every edge of an imported map was observed: a label is stored, or its reason is
      one of a conflict. */
  ghost predicate MapTold(from: Mapping, st: State) {
    && (forall s :: Determined(from, s) ==> LabelMet(NoState(), s, from[s].b, st))
    && (forall s, x :: x in Implicates(from, s).vals ==> Told(st, s, x))
    && (forall s, x :: x in Implicants(from, s).vals ==> Told(st, x, s))
  }

  lemma MapIsTold(table: Table, from: Mapping, st: State)
    requires MapMet(table, NoState(), from, st)
    ensures MapTold(from, st)
  {
    hide LabelMet, Told, EdgeMet, WaitersMet;
    forall s | s in from ensures
        EntryMet(table, NoState(), from, s, st) && (Determined(from, s) ==> LabelMet(NoState(), s, from[s].b, st)) {
    }
    FromNothing(st);
    forall p, c | EdgeMet(table, NoState(), st, {}, p, c) ensures Told(st, p, c) {
      EdgeIsTold(table, NoState(), st, p, c);
    }
    hide EntryMet;
    forall s, x | x in Implicates(from, s).vals ensures Told(st, s, x) {
      assert s in from;
      assert EntryMet(table, NoState(), from, s, st);
    }
    forall s, x | x in Implicants(from, s).vals ensures Told(st, x, s) {
      assert s in from;
      assert EntryMet(table, NoState(), from, s, st);
    }
  }

  lemma MapStillTold(from: Mapping, st: State, st': State)
    requires MapTold(from, st) && Extends(st, st') && forall p, c :: Told(st, p, c) ==> Told(st', p, c)
    ensures MapTold(from, st')
  {
    hide Told, LabelMet, Grows, Implicates, Implicants;
    forall s | Determined(from, s) ensures LabelMet(NoState(), s, from[s].b, st') {
      LabelMetThen(NoState(), s, from[s].b, st, st');
    }
  }

  lemma AdmittedMet(st: State, ev: set<Evidence>)
    requires AllMet(st) && st.evidence <= ev
    ensures AllMet(st.(evidence := ev))
  {
    var st' := st.(evidence := ev);
    forall t | t in st.built ensures Met(t, NoState(), st', {}) {
      if HasProducerSite(t) && HasConsumerSite(t) {
        AcrossThen(NoState(), st, st', t.ProducerSite(), t.ConsumerSite(), true);
        AcrossThen(NoState(), st, st', t.ProducerSite(), t.ConsumerSite(), false);
      }
      hide Held, Across;
    }
  }

  // What might have been cited before has nothing to do with what a step does.

  lemma MarksAside(table: Table, st: State, ev: set<Evidence>, st': State, todo: Pending)
    ensures forall u :: Met(u, st.(evidence := ev), st', todo) <==> Met(u, st, st', todo)
    ensures forall s :: WaitersMet(table, s, st.(evidence := ev), st', todo) <==> WaitersMet(table, s, st, st', todo)
    ensures forall p, c, v :: Across(st.(evidence := ev), st', p, c, v) <==> Across(st, st', p, c, v)
    ensures forall b :: Blamed(st.(evidence := ev), b, st') <==> Blamed(st, b, st')
  {
    var noted := st.(evidence := ev);
    forall u ensures Met(u, noted, st', todo) <==> Met(u, st, st', todo) {
      hide Held;
    }
    forall s ensures WaitersMet(table, s, noted, st', todo) <==> WaitersMet(table, s, st, st', todo) {
      hide Met;
    }
    forall p, c, v ensures Across(noted, st', p, c, v) <==> Across(st, st', p, c, v) {
    }
    hide Held, Across, WaitersMet, Met;
  }

  lemma ActedAside(table: Table, st: State, ev: set<Evidence>, st': State)
    requires Acted(table, st.(evidence := ev), {}, st', {}, {})
    ensures Acted(table, st, {}, st', {}, {})
  {
    MarksAside(table, st, ev, st', {});
    hide Held, Across, WaitersMet, Met, Labelled;
  }

  lemma HeedsAside(table: Table, st: State, ev: set<Evidence>, s: Site, b: ExplainedBool, st': State)
    requires HeedsLabel(table, st.(evidence := ev), s, b, st', {})
    ensures HeedsLabel(table, st, s, b, st', {})
  {
    MarksAside(table, st, ev, st', {});
    hide Across, WaitersMet, Met, Labelled, Blamed;
  }

  lemma EdgeAside(table: Table, st: State, ev: set<Evidence>, st': State, p: Site, c: Site)
    requires EdgeMet(table, st.(evidence := ev), st', {}, p, c)
    ensures EdgeMet(table, st, st', {}, p, c)
  {
    MarksAside(table, st, ev, st', {});
    hide Held, Across, WaitersMet, Met;
  }

  // What was imported.

  /** What the entry for `s` of an imported map says has been observed. */
  ghost predicate EntryMet(table: Table, st: State, from: Mapping, s: Site, st': State) {
    && (Determined(from, s) ==> HeedsLabel(table, st, s, from[s].b, st', {}))
    && (forall x :: x in Implicates(from, s).vals ==> EdgeMet(table, st, st', {}, s, x))
    && (forall x :: x in Implicants(from, s).vals ==> EdgeMet(table, st, st', {}, x, s))
  }

  lemma EdgesThen(table: Table, s0: State, s1: State, s2: State)
    requires Extends(s0, s1) && Extends(s1, s2) && Acted(table, s1, {}, s2, {}, {})
    ensures forall p, c :: EdgeMet(table, s0, s1, {}, p, c) || EdgeMet(table, s1, s2, {}, p, c) ==>
      EdgeMet(table, s0, s2, {}, p, c)
  {
    hide EdgeMet, KeepsEdges, Grows;
    forall p, c ensures EdgeMet(table, s0, s1, {}, p, c) || EdgeMet(table, s1, s2, {}, p, c) ==>
        EdgeMet(table, s0, s2, {}, p, c) {
      EdgeMetThen(table, s0, s1, {}, s2, {}, p, c);
    }
  }

  lemma EntryThen(table: Table, s0: State, from: Mapping, s: Site, s1: State, s2: State)
    requires Extends(s0, s1) && Extends(s1, s2)
    requires Acted(table, s0, {}, s1, {}, {}) && Acted(table, s1, {}, s2, {}, {})
    ensures EntryMet(table, s0, from, s, s1) || EntryMet(table, s1, from, s, s2) ==> EntryMet(table, s0, from, s, s2)
  {
    EdgesThen(table, s0, s1, s2);
    hide EdgeMet, HeedsLabel, KeepsEdges, Roused, NewMet, Grows, Implicates, Implicants;
    if Determined(from, s) {
      HeedsThen(table, s0, s, from[s].b, s1, {}, s2, {});
    }
  }

  ghost predicate MapMet(table: Table, st: State, from: Mapping, st': State) {
    forall s :: s in from ==> EntryMet(table, st, from, s, st')
  }

  lemma MapThen(table: Table, s0: State, from: Mapping, s1: State, s2: State)
    requires Extends(s0, s1) && Extends(s1, s2)
    requires Acted(table, s0, {}, s1, {}, {}) && Acted(table, s1, {}, s2, {}, {})
    ensures MapMet(table, s0, from, s1) || MapMet(table, s1, from, s2) ==> MapMet(table, s0, from, s2)
  {
    hide EntryMet, Acted, Grows;
    forall s | s in from ensures
        EntryMet(table, s0, from, s, s1) || EntryMet(table, s1, from, s, s2) ==> EntryMet(table, s0, from, s, s2) {
      EntryThen(table, s0, from, s, s1, s2);
    }
  }

  lemma ReasonKept(m: Mapping, s: Site, m': Mapping)
    requires Grows(m, m') && Determined(m, s)
    ensures Determined(m', s) && m'[s] == m[s]
  {
  }

  /** A label is stored, and then everyone who waits for its site is built. */
  lemma LabelThenWaiters(table: Table, st: State, todo: Pending, s: Site, b: ExplainedBool, mid: State, todo': Pending,
                         st': State)
    requires Extends(st, mid) && Extends(mid, st')
    requires Acted(table, st, todo, mid, todo', if b.Val() then {s} else {})
    requires Acted(table, mid, todo', st', todo', {}) && (b.Val() ==> WaitersMet(table, s, mid, st', todo'))
    requires Labelled(mid.m, s, b.Val()) || Blamed(st, b, mid)
    ensures Acted(table, st, todo, st', todo', {}) && HeedsLabel(table, st, s, b, st', todo')
  {
    ActedThen(table, st, todo, mid, todo', st', todo', if b.Val() then {s} else {});
    WaitersThen(table, s, st, mid, todo', st', todo');
    LabelMetThen(st, s, b, mid, st');
    if b.Val() {
      ActedClose(table, st, todo, st', todo', s);
    }
    hide Grows, Labelled, Blamed, WaitersMet, KeepsEdges, NewMet;
  }

  /** One more trigger of those that wait for a site. */
  lemma WaiterThen(table: Table, start: State, todo: Pending, before: State, t: FullTrigger, st': State)
    requires Extends(start, before) && Extends(before, st') && Acted(table, start, todo, before, todo, {})
    requires Acted(table, before, todo, st', todo, {}) && BuiltIn(table, t, before, st', todo)
    ensures Acted(table, start, todo, st', todo, {}) && Met(t, start, st', todo)
    ensures forall u :: Met(u, start, before, todo) ==> Met(u, start, st', todo)
  {
    ActedThen(table, start, todo, before, todo, st', todo, {});
    BuiltIsMet(table, t, before, st', todo);
    MetThen(table, t, start, before, todo, st', todo);
    hide Met, Grows, KeepsEdges, Roused, NewMet;
    assert KeepsEdges(table, before, todo, st', todo);
    forall u | Met(u, start, before, todo) ensures Met(u, start, st', todo) {
      MetThen(table, u, start, before, todo, st', todo);
    }
  }

  lemma BuiltNoted(table: Table, st: State, t: FullTrigger, st': State, todo: Pending)
    requires BuiltIn(table, t, Noted(st, t), st', todo)
    ensures BuiltIn(table, t, st, st', todo) && Met(t, st, st', todo)
  {
    if t.producer.kind.Always? && t.consumer.kind.Always? {
      assert |Noted(st, t).conflicts| == |st.conflicts|;
    } else if t.producer.kind.Always? && HasConsumerSite(t) {
      NotedLabel(table, st, t, t.ConsumerSite(), TrueBecauseShallowConstraint(t.Primitive()), st', todo);
    } else if HasProducerSite(t) && t.consumer.kind.Always? {
      NotedLabel(table, st, t, t.ProducerSite(), FalseBecauseShallowConstraint(t.Primitive()), st', todo);
    } else if HasProducerSite(t) && HasConsumerSite(t) {
      NotedEdge(table, st, t, st', todo, t.ProducerSite(), t.ConsumerSite());
    }
    hide HeedsLabel, EdgeMet, EvidenceOf, Met;
    BuiltIsMet(table, t, st, st', todo);
  }
}
