// Whether the undetermined sites are closed under implicants and implicates, as the documentation of
// inference/inferred_map.go has it: what one observation does to that.
module Closure {
  import opened Annotation
  import opened InferredMaps
  import opened Constraints
  import opened Progress
  import opened Explanation
  import opened Verdict
  import opened InferenceEngine
  import opened Export
  import opened Forgetting

  /** Every edge joins undetermined sites. */
  ghost predicate Closed(m: Mapping) {
    forall p, c :: Joined(m, p, c) ==> Undetermined(m, p) && Undetermined(m, c)
  }

  /** `s` drags `y` along: forward if it turns nilable, and backward if it turns nonnil. */
  ghost predicate Drags(m: Mapping, s: Site, v: bool, y: Site) {
    if v then WalkBetween(m, s, y) else WalkBetween(m, y, s)
  }

  /** What `m` allows if `s` is `v` and nothing else changes that need not. */
  ghost function Least(m: Mapping, s: Site, v: bool): Labelling {
    if v then iset y | y == s || y in Nilables(m) || Drags(m, s, v, y)
    else iset y | y != s && y in AllButNonnil(m) && !Drags(m, s, v, y)
  }

  /** A label is observed that contradicts nothing and wakes nobody. */
  ghost predicate LabelObserved(st: State, history: set<Fact>, table: Table, s: Site, v: bool, st': State) {
    && Quiescent(st.m) && Faithful(st, history) && st'.conflicts == st.conflicts == []
    && Grows(st.m, st'.m) && Quiescent(st'.m) && st'.built == st.built
    && Exact(st, {}, Label(s, v), st', {})
    && BuiltAreNilable(st) && Connected(st, table, Label(s, v), st')
  }

  lemma ObservedModels(st: State, history: set<Fact>, table: Table, s: Site, v: bool, st': State, a: Labelling)
    requires LabelObserved(st, history, table, s, v, st')
    ensures Models(a, st'.m) <==> Models(a, st.m) && (s in a <==> v)
  {
    NothingOwed(a, st.m);
    NothingOwed(a, st'.m);
    assert Holds(a, Label(s, v)) <==> (s in a <==> v);
    hide Models, Theory, Grows, Quiescent, Connected;
    if Models(a, st.m) {
      assert forall t :: t in st.built ==> Holds(a, Unguarded(t));
      assert Guards(a, st'.built);
    }
  }

  lemma StepFlows(m: Mapping, p: Site, c: Site)
    requires Quiescent(m) && Joined(m, p, c) && !Labelled(m, c, true) && !Labelled(m, p, false)
    ensures Flows(m, p, c) && FlowsBack(m, p, c)
  {
    assert Flows(m, p, c) ==> SettledForward(m, p, c, {});
    assert FlowsBack(m, p, c) ==> SettledBackward(m, p, c, {});
  }

  lemma DragsOn(m: Mapping, s: Site, v: bool, p: Site, c: Site)
    requires Flows(m, p, c) && FlowsBack(m, p, c)
    ensures v && Drags(m, s, v, p) ==> Drags(m, s, v, c)
    ensures !v && Drags(m, s, v, c) ==> Drags(m, s, v, p)
    ensures Drags(m, p, true, c) && Drags(m, c, false, p)
  {
    assert Walk(m, [p, c]) && [p, c][0] == p && [p, c][|[p, c]| - 1] == c;
    if v && WalkBetween(m, s, p) {
      WalkBetweenOn(m, s, p, c);
    }
    if !v && WalkBetween(m, c, s) {
      var w: seq<Site> :| Walk(m, w) && w[0] == c && w[|w| - 1] == s;
      WalkBack(m, p, w);
      var longer := [p] + w;
      assert longer[0] == p && longer[|longer| - 1] == s;
    }
  }

  lemma LeastFlow(m: Mapping, s: Site, v: bool, p: Site, c: Site)
    requires Quiescent(m) && Joined(m, p, c) && !Labelled(m, s, !v)
    ensures Flow(Least(m, s, v), p, c)
  {
    if !Labelled(m, c, true) && !Labelled(m, p, false) {
      StepFlows(m, p, c);
      assert Undetermined(m, p);
      DragsOn(m, s, v, p, c);
      WalkBetweenEnds(m, s, p);
      hide Quiescent, Flows, FlowsBack, WalkBetween;
      assert p == s && v ==> Drags(m, s, v, c);
      assert c == s && !v ==> Drags(m, s, v, p);
    } else {
      NotDragged(m, s, v, c);
      NotDragged(m, s, v, p);
      hide Quiescent, Flows, FlowsBack, Drags;
    }
  }

  lemma NotDragged(m: Mapping, s: Site, v: bool, y: Site)
    ensures Determined(m, y) ==> !Drags(m, s, v, y)
  {
    WalkBetweenEnds(m, s, y);
    WalkBetweenEnds(m, y, s);
    hide WalkBetween;
  }

  lemma LeastModels(m: Mapping, s: Site, v: bool)
    requires Quiescent(m) && !Labelled(m, s, !v)
    ensures Models(Least(m, s, v), m) && (s in Least(m, s, v) <==> v)
  {
    forall y, x | Labelled(m, y, x) ensures y in Least(m, s, v) <==> x {
      NotDragged(m, s, v, y);
      hide Drags;
    }
    forall p, c | Joined(m, p, c) ensures Flow(Least(m, s, v), p, c) {
      LeastFlow(m, s, v, p, c);
    }
    hide Quiescent, Least, Flows, FlowsBack, Labelled;
    assert forall p, c :: Flows(m, p, c) || FlowsBack(m, p, c) ==> Joined(m, p, c);
  }

  /** The labels afterwards: those from before, the one observed, and what it drags along. */
  lemma LabelsAfter(st: State, history: set<Fact>, table: Table, s: Site, v: bool, st': State, y: Site)
    requires LabelObserved(st, history, table, s, v, st')
    ensures Labelled(st'.m, y, v) <==> Labelled(st.m, y, v) || y == s || Drags(st.m, s, v, y)
    ensures Labelled(st'.m, y, !v) <==> Labelled(st.m, y, !v)
  {
    var a, least, most := Nilables(st'.m), Least(st.m, s, v), if v then AllButNonnil(st.m) else Nilables(st.m);
    QuiescentModels(st'.m);
    QuiescentModels(st.m);
    ObservedModels(st, history, table, s, v, st', a);
    LeastModels(st.m, s, v);
    ObservedModels(st, history, table, s, v, st', least);
    ObservedModels(st, history, table, s, v, st', most);
    GrowsKeeps(st.m, st'.m);
    LabelsAreExact(st'.m, y);
    hide LabelObserved, Models, Quiescent, Grows;
    if y == s || Drags(st.m, s, v, y) {
      forall b: Labelling | Models(b, st'.m) ensures y in b <==> v {
        ObservedModels(st, history, table, s, v, st', b);
        DragsIsForced(st.m, s, v, y, b);
      }
    }
  }

  lemma DragsIsForced(m: Mapping, s: Site, v: bool, y: Site, b: Labelling)
    requires Models(b, m) && (s in b <==> v) && (y == s || Drags(m, s, v, y))
    ensures y in b <==> v
  {
    if y != s {
      if v {
        var w: seq<Site> :| Walk(m, w) && w[0] == s && w[|w| - 1] == y;
        WalkFlows(b, m, w, |w| - 1);
      } else {
        var w: seq<Site> :| Walk(m, w) && w[0] == y && w[|w| - 1] == s;
        if y in b {
          WalkFlows(b, m, w, |w| - 1);
        }
      }
    }
  }

  /** An edge is dragged along as a whole, or not at all. */
  ghost predicate DragsWhole(m: Mapping, s: Site, v: bool) {
    forall p, c :: Flows(m, p, c) ==> (Drags(m, s, v, p) <==> Drags(m, s, v, c))
  }

  /** Exactly what is dragged along gets a label, and edges only go. */
  ghost predicate Dragged(m: Mapping, s: Site, v: bool, m': Mapping) {
    && (forall y :: Determined(m', y) <==> Determined(m, y) || y == s || Drags(m, s, v, y))
    && (forall p, c :: Joined(m', p, c) ==> Joined(m, p, c))
    && Grows(m, m')
  }

  lemma DraggedAfter(st: State, history: set<Fact>, table: Table, s: Site, v: bool, st': State)
    requires LabelObserved(st, history, table, s, v, st')
    ensures Dragged(st.m, s, v, st'.m)
  {
    forall y ensures Determined(st'.m, y) <==> Determined(st.m, y) || y == s || Drags(st.m, s, v, y) {
      LabelsAfter(st, history, table, s, v, st', y);
      assert Determined(st'.m, y) <==> Labelled(st'.m, y, v) || Labelled(st'.m, y, !v);
      assert Determined(st.m, y) <==> Labelled(st.m, y, v) || Labelled(st.m, y, !v);
    }
    hide Labelled, Determined, Drags, Exact, Faithful, Quiescent, Joined, Waiting, Joins;
    assert forall p, c :: !WokenJoins(st, table, st', p, c);
  }

  lemma ClosedEdge(m: Mapping, p: Site, c: Site)
    requires Quiescent(m) && Closed(m) && Joined(m, p, c)
    ensures Flows(m, p, c) && FlowsBack(m, p, c) && Undetermined(m, p) && Undetermined(m, c)
  {
    StepFlows(m, p, c);
  }

  lemma DragsItself(m: Mapping, s: Site, v: bool)
    requires Undetermined(m, s)
    ensures Drags(m, s, v, s)
  {
    WalkBetweenEnds(m, s, s);
  }

  lemma EdgeBroken(m: Mapping, s: Site, v: bool, m': Mapping, p: Site, c: Site)
    requires Quiescent(m) && Closed(m) && Dragged(m, s, v, m') && Closed(m') && Flows(m, p, c)
    ensures Drags(m, s, v, p) <==> Drags(m, s, v, c)
  {
    ClosedEdge(m, p, c);
    if Undetermined(m, s) {
      DragsItself(m, s, v);
    }
    hide Quiescent, Drags;
    assert Flows(m', p, c) || Determined(m', p);
    assert FlowsBack(m', p, c) || Determined(m', c);
    assert Joined(m', p, c) ==> Undetermined(m', p) && Undetermined(m', c);
  }

  lemma EdgeWhole(m: Mapping, s: Site, v: bool, m': Mapping, p: Site, c: Site)
    requires Quiescent(m) && Closed(m) && Dragged(m, s, v, m') && DragsWhole(m, s, v) && Joined(m', p, c)
    ensures Undetermined(m', p) && Undetermined(m', c)
  {
    ClosedEdge(m, p, c);
    if Undetermined(m, s) {
      DragsItself(m, s, v);
    }
    hide Quiescent, Drags;
    assert Drags(m, s, v, p) <==> Drags(m, s, v, c);
  }

  /** The documented closure survives the observation of a label exactly if each edge is dragged along
      as a whole: if nil gets to the end of an edge only through its start, and the other way round. */
  lemma ClosedAfterLabel(st: State, history: set<Fact>, table: Table, s: Site, v: bool, st': State)
    requires LabelObserved(st, history, table, s, v, st') && Closed(st.m)
    ensures Closed(st'.m) <==> DragsWhole(st.m, s, v)
  {
    DraggedAfter(st, history, table, s, v, st');
    if Closed(st'.m) {
      forall p, c | Flows(st.m, p, c) ensures Drags(st.m, s, v, p) <==> Drags(st.m, s, v, c) {
        EdgeBroken(st.m, s, v, st'.m, p, c);
      }
    }
    if DragsWhole(st.m, s, v) {
      forall p, c | Joined(st'.m, p, c) ensures Undetermined(st'.m, p) && Undetermined(st'.m, c) {
        EdgeWhole(st.m, s, v, st'.m, p, c);
      }
    }
  }

  /** An edge between two sites that are open or new always keeps it. */
  lemma ClosedAfterImplication(m: Mapping, m': Mapping, p: Site, c: Site, a: PrimitiveFullTrigger)
    requires Closed(m) && ImplicationStored(m, m', p, c, a) && !Determined(m, p) && !Determined(m, c)
    ensures Closed(m')
  {
    StoredFlows(m, m', p, c, a);
    hide Flows, FlowsBack;
    forall x, y | Joined(m', x, y) ensures Undetermined(m', x) && Undetermined(m', y) {
      assert Joined(m, x, y) || (x == p && y == c);
    }
  }

  /** The engine observes a label at a moment when no other observation is pending. */
  method ObserveOneLabel(e: Engine, s: Site, b: ExplainedBool, ghost ev: set<Evidence>)
    requires e.Valid() && Justified(b, s, e.evidence + ev) && Closed(e.M())
    requires forall x :: x in ev ==> x in e.imported || FromAnnotation(x, e.history + {Label(s, b.Val())})
    modifies e`conflicts, e`built, e`evidence, e`universe, e`history, e.inferredMap`mapping
    ensures e.Valid() && e.history == old(e.history) + {Label(s, b.Val())}
    ensures e.conflicts == [] && e.built == old(e.built) ==> (Closed(e.M()) <==> DragsWhole(old(e.M()), s, b.Val()))
  {
    ghost var st, table, history := e.Now(), e.controlledTriggersBySite, e.history;
    Parts(st, table, history, e.inferredMap.upstreamMapping);
    hide Settled, AllBacked, Sound, WellControlled, Grows, Exact, Connected, Closed, DragsWhole, Justified;
    hide FromAnnotation, Faithful, Quiescent, BuiltAreNilable;
    e.ObserveLabel(s, b, ev);
    Parts(e.Now(), table, e.history, e.inferredMap.upstreamMapping);
    if e.conflicts == [] && e.built == st.built {
      ClosedAfterLabel(st, history, table, s, b.Val(), e.Now());
    }
  }

  lemma Parts(st: State, table: Table, history: set<Fact>, up: Mapping)
    requires Sound(st, {}) && Settled(st, table, history, up)
    ensures Quiescent(st.m) && Faithful(st, history) && BuiltAreNilable(st)
  {
  }
}
