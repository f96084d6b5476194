// inference/inferred_value.go and the mutable part of inferred_map.go, on values: what is stored
// for a site, how the implication graph is kept consistent, and how it grows.
module InferredMaps {
  import opened Annotation
  import opened OrderedMaps

  type Edges = OMap<Site, PrimitiveFullTrigger>

  datatype InferredVal =
    | DeterminedVal(b: ExplainedBool)
    | UndeterminedVal(implicants: Edges, implicates: Edges)

  type Mapping = map<Site, InferredVal>

  predicate Determined(m: Mapping, s: Site) {
    s in m && m[s].DeterminedVal?
  }

  predicate Undetermined(m: Mapping, s: Site) {
    s in m && m[s].UndeterminedVal?
  }

  predicate Labelled(m: Mapping, s: Site, nilable: bool) {
    Determined(m, s) && m[s].b.Val() == nilable
  }

  function Implicates(m: Mapping, s: Site): Edges {
    if Undetermined(m, s) then m[s].implicates else New()
  }

  function Implicants(m: Mapping, s: Site): Edges {
    if Undetermined(m, s) then m[s].implicants else New()
  }

  /** An implication p to c as recorded at its producer, and as recorded at its consumer. */
  predicate Flows(m: Mapping, p: Site, c: Site) {
    c in Implicates(m, p).vals
  }

  predicate FlowsBack(m: Mapping, p: Site, c: Site) {
    p in Implicants(m, c).vals
  }

  /** An implication recorded at either end. */
  predicate Joined(m: Mapping, p: Site, c: Site) {
    Flows(m, p, c) || FlowsBack(m, p, c)
  }

  /** Implications whose propagation is still on the call stack. */
  type Pending = set<(Site, Site)>

  ghost predicate SettledForward(m: Mapping, p: Site, c: Site, todo: Pending) {
    || FlowsBack(m, p, c)
    || Labelled(m, c, true)
    || (Labelled(m, c, false) && (p, c) in todo)
  }

  ghost predicate SettledBackward(m: Mapping, p: Site, c: Site, todo: Pending) {
    || Flows(m, p, c)
    || Labelled(m, p, false)
    || (Labelled(m, p, true) && (p, c) in todo)
  }

  /** The graph invariant. With nothing pending: every implicate of an undetermined site is
      undetermined and points back, or is determined nilable; every implicant is undetermined
      and points forward, or is determined nonnil. */
  ghost predicate Consistent(m: Mapping, todo: Pending) {
    && (forall p, c :: Flows(m, p, c) ==> SettledForward(m, p, c, todo))
    && (forall p, c :: FlowsBack(m, p, c) ==> SettledBackward(m, p, c, todo))
  }

  ghost predicate Quiescent(m: Mapping) {
    Consistent(m, {})
  }

  /** The edges of a site that stays open keep their places. */
  ghost predicate InOrder(old_: Mapping, m: Mapping) {
    forall s :: Undetermined(old_, s) && Undetermined(m, s) ==>
      Implicates(old_, s).keys <= Implicates(m, s).keys && Implicants(old_, s).keys <= Implicants(m, s).keys
  }

  lemma InOrderTransitive(m0: Mapping, m1: Mapping, m2: Mapping)
    requires InOrder(m0, m1) && InOrder(m1, m2)
    requires forall s :: Undetermined(m0, s) && Undetermined(m2, s) ==> Undetermined(m1, s)
    ensures InOrder(m0, m2)
  {
    hide Implicates, Implicants, Undetermined;
  }

  /** `old` may only have gained sites, edges and labels; a label is final. */
  ghost predicate Grows(old_: Mapping, m: Mapping) {
    && (forall s :: s in old_ ==> s in m)
    && (forall s :: Determined(old_, s) ==> m[s] == old_[s])
    && (forall p, c :: Flows(old_, p, c) ==> Flows(m, p, c) || Determined(m, p))
    && (forall p, c :: FlowsBack(old_, p, c) ==> FlowsBack(m, p, c) || Determined(m, c))
    && InOrder(old_, m)
  }

  lemma GrowsTransitive(m0: Mapping, m1: Mapping, m2: Mapping)
    requires Grows(m0, m1) && Grows(m1, m2)
    ensures Grows(m0, m2)
  {
    InOrderTransitive(m0, m1, m2);
    hide InOrder;
  }

  ghost function DeterminedSites(m: Mapping): set<Site> {
    set s | s in m && m[s].DeterminedVal?
  }

  lemma GrowsKeeps(m: Mapping, m': Mapping)
    requires Grows(m, m')
    ensures DeterminedSites(m) <= DeterminedSites(m')
    ensures forall s, v :: Labelled(m, s, v) ==> Labelled(m', s, v)
    ensures forall s :: Determined(m, s) ==> Determined(m', s)
  {
  }

  /** Storing a label over an absent or undetermined site. */
  function WithLabel(m: Mapping, s: Site, b: ExplainedBool): Mapping {
    m[s := DeterminedVal(b)]
  }

  /** What propagation still owes after `s` is labelled. */
  ghost function Owed(m: Mapping, s: Site, nilable: bool): Pending {
    if nilable then set c | c in Implicates(m, s).vals :: (s, c) else set p | p in Implicants(m, s).vals :: (p, s)
  }

  lemma OwedPairs(m: Mapping, s: Site, nilable: bool)
    ensures forall p, c :: (p, c) in Owed(m, s, nilable) <==>
      if nilable then p == s && Flows(m, p, c) else c == s && FlowsBack(m, p, c)
  {
  }

  /** A stored label replaces the site's edges and touches nothing else. */
  lemma LabelStored(m: Mapping, s: Site, b: ExplainedBool)
    requires !Determined(m, s)
    ensures forall p, c :: Flows(WithLabel(m, s, b), p, c) <==> Flows(m, p, c) && p != s
    ensures forall p, c :: FlowsBack(WithLabel(m, s, b), p, c) <==> FlowsBack(m, p, c) && c != s
    ensures forall x :: Determined(WithLabel(m, s, b), x) <==> x == s || Determined(m, x)
    ensures forall x, v :: Labelled(WithLabel(m, s, b), x, v) <==> if x == s then v == b.Val() else Labelled(m, x, v)
  {
  }

  lemma LabelCloses(m: Mapping, s: Site, b: ExplainedBool, m': Mapping, universe: set<Site>)
    requires !Determined(m, s) && s in universe && Grows(m, m') && Grows(WithLabel(m, s, b), m')
    ensures universe - DeterminedSites(m') < universe - DeterminedSites(m)
    ensures Labelled(m', s, b.Val())
  {
    GrowsKeeps(m, m');
    assert Labelled(WithLabel(m, s, b), s, b.Val());
    GrowsKeeps(WithLabel(m, s, b), m');
    assert s in DeterminedSites(m') && s !in DeterminedSites(m);
  }

  lemma LabelConsistent(m: Mapping, s: Site, b: ExplainedBool, todo: Pending)
    requires Consistent(m, todo) && !Determined(m, s)
    ensures Consistent(WithLabel(m, s, b), todo + Owed(m, s, b.Val()))
  {
    LabelStored(m, s, b);
    OwedPairs(m, s, b.Val());
    hide Flows, FlowsBack, Labelled, WithLabel, Owed;
    var m', todo' := WithLabel(m, s, b), todo + Owed(m, s, b.Val());
    forall p, c | Flows(m', p, c)
      ensures SettledForward(m', p, c, todo')
    {
      assert SettledForward(m, p, c, todo);
    }
    forall p, c | FlowsBack(m', p, c)
      ensures SettledBackward(m', p, c, todo')
    {
      assert SettledBackward(m, p, c, todo);
    }
  }

  lemma LabelGrows(m: Mapping, s: Site, b: ExplainedBool)
    requires !Determined(m, s)
    ensures Grows(m, WithLabel(m, s, b))
  {
    LabelStored(m, s, b);
  }

  /** `m'` is `m` with the implication p to c recorded at both ends. */
  ghost predicate ImplicationStored(m: Mapping, m': Mapping, p: Site, c: Site, a: PrimitiveFullTrigger) {
    && (forall x :: x in m' <==> x in m || x == p || x == c)
    && (forall x :: Determined(m', x) <==> Determined(m, x))
    && (forall x :: Determined(m, x) ==> m'[x] == m[x])
    && (forall x :: Implicates(m', x) == if x == p then Put(Implicates(m, x), c, a) else Implicates(m, x))
    && (forall x :: Implicants(m', x) == if x == c then Put(Implicants(m, x), p, a) else Implicants(m, x))
  }

  lemma StoredFlows(m: Mapping, m': Mapping, p: Site, c: Site, a: PrimitiveFullTrigger)
    requires ImplicationStored(m, m', p, c, a)
    ensures forall x, y :: Flows(m', x, y) <==> Flows(m, x, y) || (x == p && y == c)
    ensures forall x, y :: FlowsBack(m', x, y) <==> FlowsBack(m, x, y) || (x == p && y == c)
    ensures forall x, v :: Labelled(m', x, v) <==> Labelled(m, x, v)
  {
    hide Implicates, Implicants, Determined;
  }

  lemma ImplicationConsistent(m: Mapping, m': Mapping, p: Site, c: Site, a: PrimitiveFullTrigger, todo: Pending)
    requires Consistent(m, todo) && ImplicationStored(m, m', p, c, a)
    ensures Consistent(m', todo)
  {
    StoredFlows(m, m', p, c, a);
    hide Flows, FlowsBack, Labelled, ImplicationStored;
    forall x, y | Flows(m', x, y) ensures SettledForward(m', x, y, todo) {
      assert Flows(m, x, y) ==> SettledForward(m, x, y, todo);
    }
    forall x, y | FlowsBack(m', x, y) ensures SettledBackward(m', x, y, todo) {
      assert FlowsBack(m, x, y) ==> SettledBackward(m, x, y, todo);
    }
  }

  lemma ImplicationGrows(m: Mapping, m': Mapping, p: Site, c: Site, a: PrimitiveFullTrigger)
    requires ImplicationStored(m, m', p, c, a)
    ensures Grows(m, m')
  {
    StoredFlows(m, m', p, c, a);
    hide Flows, FlowsBack, Implicates, Implicants;
  }

  /** Creating an empty entry for `s`, unless there is an entry. */
  function Entered(m: Mapping, s: Site): Mapping {
    if s in m then m else m[s := UndeterminedVal(New(), New())]
  }

  function WithImplicate(m: Mapping, p: Site, c: Site, a: PrimitiveFullTrigger): Mapping
    requires Undetermined(m, p)
  {
    m[p := m[p].(implicates := Put(m[p].implicates, c, a))]
  }

  function WithImplicant(m: Mapping, p: Site, c: Site, a: PrimitiveFullTrigger): Mapping
    requires Undetermined(m, c)
  {
    m[c := m[c].(implicants := Put(m[c].implicants, p, a))]
  }

  /** The four writes of `StoreImplication`. */
  function Stored(m: Mapping, p: Site, c: Site, a: PrimitiveFullTrigger): Mapping
    requires !Determined(m, p) && !Determined(m, c)
  {
    WithImplicant(WithImplicate(Entered(Entered(m, p), c), p, c, a), p, c, a)
  }

  lemma StoredAt(m: Mapping, p: Site, c: Site, a: PrimitiveFullTrigger, x: Site)
    requires !Determined(m, p) && !Determined(m, c)
    ensures
      var m' := Stored(m, p, c, a);
      && (x in m' <==> x in m || x == p || x == c)
      && (Determined(m', x) <==> Determined(m, x))
      && (Determined(m, x) ==> m'[x] == m[x])
      && Implicates(m', x) == (if x == p then Put(Implicates(m, x), c, a) else Implicates(m, x))
      && Implicants(m', x) == (if x == c then Put(Implicants(m, x), p, a) else Implicants(m, x))
  {
    hide View.Valid;
  }

  lemma StoredIsImplication(m: Mapping, p: Site, c: Site, a: PrimitiveFullTrigger)
    requires !Determined(m, p) && !Determined(m, c)
    ensures ImplicationStored(m, Stored(m, p, c, a), p, c, a)
  {
    hide Stored, Implicates, Implicants, Determined;
    forall x {
      StoredAt(m, p, c, a, x);
    }
  }

  /** A key that is new goes last. */
  function EnteredKeys(keys: seq<Site>, s: Site): seq<Site> {
    if s in keys then keys else keys + [s]
  }

  lemma KeysAreDomain(m: OMap<Site, InferredVal>)
    ensures forall s :: s in m.keys <==> s in m.vals
  {
  }

  class InferredMap {
    var mapping: OMap<Site, InferredVal>
    var upstreamMapping: Mapping

    constructor ()
      ensures mapping == New() && upstreamMapping == map[]
    {
      mapping := New();
      upstreamMapping := map[];
    }

    method StoreDetermined(s: Site, b: ExplainedBool)
      modifies this`mapping
      ensures mapping == old(mapping).Store(s, DeterminedVal(b))
    {
      mapping := Put(mapping, s, DeterminedVal(b));
    }

    /** The stored values of both sites have to be undetermined ones: the code asserts their type. */
    method StoreImplication(p: Site, c: Site, a: PrimitiveFullTrigger)
      requires !Determined(mapping.vals, p) && !Determined(mapping.vals, c)
      modifies this`mapping
      ensures ImplicationStored(old(mapping.vals), mapping.vals, p, c, a)
      ensures mapping.vals == Stored(old(mapping.vals), p, c, a)
      ensures mapping.keys == EnteredKeys(EnteredKeys(old(mapping.keys), p), c)
    {
      hide View.Valid, Implicates, Implicants, ImplicationStored;
      KeysAreDomain(mapping);
      for i := 0 to 2
        invariant mapping.keys == if i == 0 then old(mapping.keys) else if i == 1 then EnteredKeys(old(mapping.keys), p)
                                  else EnteredKeys(EnteredKeys(old(mapping.keys), p), c)
        invariant forall s :: s in mapping.keys <==> s in mapping.vals
        invariant mapping.vals == if i == 0 then old(mapping.vals) else if i == 1 then Entered(old(mapping.vals), p)
                                  else Entered(Entered(old(mapping.vals), p), c)
      {
        var s := if i == 0 then p else c;
        if s !in mapping.vals {
          mapping := Put(mapping, s, UndeterminedVal(New(), New()));
        }
      }
      var from := mapping.vals[p];
      mapping := Put(mapping, p, from.(implicates := Put(from.implicates, c, a)));
      var to := mapping.vals[c];
      mapping := Put(mapping, c, to.(implicants := Put(to.implicants, p, a)));
      StoredIsImplication(old(mapping.vals), p, c, a);
    }

    /** The whole map becomes the snapshot of what upstream packages already know. */
    method SnapshotUpstream()
      requires forall s :: s in upstreamMapping ==> s in mapping.vals
      modifies this`upstreamMapping
      ensures upstreamMapping == mapping.vals
    {
      for i := 0 to |mapping.keys|
        invariant forall s :: s in upstreamMapping ==> s in mapping.vals
        invariant forall j :: 0 <= j < i ==>
          mapping.keys[j] in upstreamMapping && upstreamMapping[mapping.keys[j]] == mapping.vals[mapping.keys[j]]
      {
        var s := mapping.keys[i];
        upstreamMapping := upstreamMapping[s := mapping.vals[s]];
      }
      forall s | s in mapping.vals
        ensures s in upstreamMapping && upstreamMapping[s] == mapping.vals[s]
      {
        assert s in mapping.keys;
      }
    }
  }
}
