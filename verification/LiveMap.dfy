// The inferred map as it lies in memory (inference/inferred_map.go, inferred_value.go): edge lists
// are written in place, and the upstream snapshot must not notice.
module LiveMaps {
  import opened Annotation
  import opened OrderedMaps
  import opened InferredMaps

  type EdgeMap = OrderedMap<Site, PrimitiveFullTrigger>

  datatype LiveVal = Known(b: ExplainedBool) | Open(implicants: EdgeMap, implicates: EdgeMap)

  type LiveVals = map<Site, LiveVal>

  /** What each edge list holds. */
  type Holdings = map<EdgeMap, Edges>

  ghost function Cells(lists: set<EdgeMap>): set<Pair<Site, PrimitiveFullTrigger>>
    reads lists
  {
    set m, p | m in lists && p in m.pairs :: p
  }

  ghost predicate Usable(m: EdgeMap)
    reads m
  {
    m.Valid() && m.inner.Allocated?
  }

  ghost predicate Disjoint(m: EdgeMap, x: EdgeMap)
    reads m, x
  {
    forall p :: p in m.pairs ==> p !in x.pairs
  }

  /** The lists hold what they should, and share no cells. */
  ghost predicate Holding(what: Holdings)
    reads what.Keys, Cells(what.Keys)
  {
    && (forall m :: m in what ==>
         Usable(m) && (forall p :: p in m.pairs ==> p in Cells(what.Keys)) && m.Contents() == what[m])
    && (forall m, x :: m in what && x in what && m != x ==> Disjoint(m, x))
  }

  /** Where an edge list is reached: in the live map or in the snapshot, at a site, one of its two. */
  datatype Spot = Spot(upstream: bool, site: Site, forward: bool)

  ghost predicate Has(live: LiveVals, up: LiveVals, q: Spot) {
    var vals := if q.upstream then up else live;
    q.site in vals && vals[q.site].Open?
  }

  ghost function At(live: LiveVals, up: LiveVals, q: Spot): EdgeMap
    requires Has(live, up, q)
  {
    var val := if q.upstream then up[q.site] else live[q.site];
    if q.forward then val.implicates else val.implicants
  }

  /** Every edge list is reached in one way only. */
  ghost predicate Owned(live: LiveVals, up: LiveVals, what: Holdings) {
    && (forall q :: Has(live, up, q) ==> At(live, up, q) in what)
    && (forall q, r :: Has(live, up, q) && Has(live, up, r) && q != r ==> At(live, up, q) != At(live, up, r))
  }

  ghost function Meaning(v: LiveVal, what: Holdings): InferredVal {
    match v
    case Known(b) => DeterminedVal(b)
    case Open(implicants, implicates) =>
      UndeterminedVal(if implicants in what then what[implicants] else New(),
                      if implicates in what then what[implicates] else New())
  }

  ghost function MeaningOf(vals: LiveVals, what: Holdings): Mapping {
    map s | s in vals :: Meaning(vals[s], what)
  }

  /** One list is written, and those that share no cell with it stay as they are. */
  method StoreBeside(m: EdgeMap, k: Site, a: PrimitiveFullTrigger, ghost others: set<EdgeMap>)
    requires Usable(m) && m !in others
    requires forall x :: x in others ==> Usable(x) && Disjoint(m, x)
    modifies m, m.pairs
    ensures Usable(m) && m.Contents() == old(m.Contents()).Store(k, a)
    ensures forall i :: 0 <= i < |m.pairs| ==> m.pairs[i] in old(m.pairs) || fresh(m.pairs[i])
    ensures forall x :: x in others ==> Usable(x) && x.pairs == old(x.pairs) && x.Contents() == old(x.Contents())
  {
    hide OrderedMap.Valid, OrderedMap.Contents, ViewOf, DistinctKeys, Indexes;
    ghost var was := map x | x in others :: x.Contents();
    forall x | x in others ensures ListedBy(x.pairs, was[x]) {
      ContentsList(x);
    }
    var _ := m.Store(k, a);
    forall x | x in others ensures x.Contents() == was[x] {
      assert forall p :: p in x.pairs ==> p.value == old(p.value);
      assert old(ListedBy(x.pairs, was[x]));
      ContentsList(x);
      ViewIsUnique(x.pairs, was[x], x.Contents());
    }
  }

  method StoreEdge(m: EdgeMap, k: Site, a: PrimitiveFullTrigger, ghost what: Holdings)
    requires Holding(what) && m in what
    modifies m, m.pairs
    ensures Holding(what[m := Put(what[m], k, a)])
    ensures forall i :: 0 <= i < |m.pairs| ==> m.pairs[i] in old(m.pairs) || fresh(m.pairs[i])
  {
    hide Usable, OrderedMap.Contents;
    StoreBeside(m, k, a, what.Keys - {m});
  }

  /** Writing to the list at `q` shows at `q` only. */
  lemma OtherSpot(live: LiveVals, up: LiveVals, what: Holdings, q: Spot, edges: Edges, r: Spot)
    requires Owned(live, up, what) && Has(live, up, q) && Has(live, up, r) && r != q
    ensures At(live, up, r) in what && what[At(live, up, q) := edges][At(live, up, r)] == what[At(live, up, r)]
  {
    hide Has, At;
  }

  lemma OtherVal(live: LiveVals, up: LiveVals, what: Holdings, q: Spot, edges: Edges, upstream: bool, s: Site)
    requires Owned(live, up, what) && Has(live, up, q) && s in (if upstream then up else live)
    ensures
      var val, what' := (if upstream then up else live)[s], what[At(live, up, q) := edges];
      var now, was := Meaning(val, what'), Meaning(val, what);
      if upstream != q.upstream || s != q.site then now == was
      else now == if q.forward then was.(implicates := edges) else was.(implicants := edges)
  {
    if Has(live, up, Spot(upstream, s, true)) {
      var ahead, back := Spot(upstream, s, true), Spot(upstream, s, false);
      if ahead != q {
        OtherSpot(live, up, what, q, edges, ahead);
      }
      if back != q {
        OtherSpot(live, up, what, q, edges, back);
      }
      hide Owned;
    }
  }

  lemma WrittenAt(live: LiveVals, up: LiveVals, what: Holdings, q: Spot, edges: Edges)
    requires Owned(live, up, what) && Has(live, up, q) && !q.upstream
    ensures
      var m, what' := MeaningOf(live, what), what[At(live, up, q) := edges];
      && q.site in m && m[q.site].UndeterminedVal?
      && MeaningOf(live, what') ==
         m[q.site := if q.forward then m[q.site].(implicates := edges) else m[q.site].(implicants := edges)]
      && MeaningOf(up, what') == MeaningOf(up, what)
  {
    var what' := what[At(live, up, q) := edges];
    forall s | s in live
      ensures
        var now, was := Meaning(live[s], what'), Meaning(live[s], what);
        if s != q.site then now == was
        else now == if q.forward then was.(implicates := edges) else was.(implicants := edges)
    {
      OtherVal(live, up, what, q, edges, false, s);
    }
    forall s | s in up ensures Meaning(up[s], what') == Meaning(up[s], what) {
      OtherVal(live, up, what, q, edges, true, s);
    }
    assert Meaning(live[q.site], what).UndeterminedVal?;
    hide Meaning, Has, At, Owned;
  }

  /** Storing an edge in place: the live map gains it, and the snapshot stays as it is. */
  lemma ForwardStored(live: LiveVals, up: LiveVals, what: Holdings, s: Site, k: Site, a: PrimitiveFullTrigger)
    requires Owned(live, up, what) && s in live && live[s].Open?
    ensures live[s].implicates in what && Undetermined(MeaningOf(live, what), s)
    ensures
      var what' := what[live[s].implicates := Put(what[live[s].implicates], k, a)];
      && Owned(live, up, what')
      && MeaningOf(live, what') == WithImplicate(MeaningOf(live, what), s, k, a)
      && MeaningOf(up, what') == MeaningOf(up, what)
  {
    var q := Spot(false, s, true);
    assert Has(live, up, q) && At(live, up, q) == live[s].implicates;
    assert At(live, up, q) in what;
    WrittenAt(live, up, what, q, Put(what[live[s].implicates], k, a));
    assert Owned(live, up, what[At(live, up, q) := Put(what[live[s].implicates], k, a)]);
    hide Has, At, Owned;
  }

  lemma BackStored(live: LiveVals, up: LiveVals, what: Holdings, s: Site, k: Site, a: PrimitiveFullTrigger)
    requires Owned(live, up, what) && s in live && live[s].Open?
    ensures live[s].implicants in what && Undetermined(MeaningOf(live, what), s)
    ensures
      var what' := what[live[s].implicants := Put(what[live[s].implicants], k, a)];
      && Owned(live, up, what')
      && MeaningOf(live, what') == WithImplicant(MeaningOf(live, what), k, s, a)
      && MeaningOf(up, what') == MeaningOf(up, what)
  {
    var q := Spot(false, s, false);
    assert Has(live, up, q) && At(live, up, q) == live[s].implicants;
    assert At(live, up, q) in what;
    WrittenAt(live, up, what, q, Put(what[live[s].implicants], k, a));
    assert Owned(live, up, what[At(live, up, q) := Put(what[live[s].implicants], k, a)]);
    hide Has, At, Owned;
  }

  function Placed(live: LiveVals, up: LiveVals, upstream: bool, s: Site, v: LiveVal): (LiveVals, LiveVals) {
    if upstream then (live, up[s := v]) else (live[s := v], up)
  }

  lemma SpotPlaced(live: LiveVals, up: LiveVals, upstream: bool, s: Site, x: EdgeMap, y: EdgeMap, q: Spot)
    requires var (live', up') := Placed(live, up, upstream, s, Open(x, y)); Has(live', up', q)
    ensures
      var (live', up') := Placed(live, up, upstream, s, Open(x, y));
      if q.upstream == upstream && q.site == s then At(live', up', q) == (if q.forward then y else x)
      else Has(live, up, q) && At(live', up', q) == At(live, up, q)
  {
  }

  /** A value with lists of its own, at a site of the live map or of the snapshot. */
  lemma PlacedOwned(live: LiveVals, up: LiveVals, what: Holdings, upstream: bool, s: Site, x: EdgeMap, y: EdgeMap,
                    implicants: Edges, implicates: Edges)
    requires Owned(live, up, what) && x !in what && y !in what && x != y
    ensures
      var (live', up') := Placed(live, up, upstream, s, Open(x, y));
      Owned(live', up', what[x := implicants][y := implicates])
  {
    var (live', up') := Placed(live, up, upstream, s, Open(x, y));
    forall q | Has(live', up', q)
      ensures
        if q.upstream == upstream && q.site == s then At(live', up', q) == (if q.forward then y else x)
        else Has(live, up, q) && At(live', up', q) == At(live, up, q)
    {
      SpotPlaced(live, up, upstream, s, x, y, q);
    }
    hide Has, At, Placed;
  }

  lemma MeaningKept(live: LiveVals, up: LiveVals, what: Holdings, upstream: bool, s: Site, what': Holdings)
    requires Owned(live, up, what) && s in (if upstream then up else live)
    requires forall m :: m in what ==> m in what' && what'[m] == what[m]
    ensures
      var val := (if upstream then up else live)[s];
      Meaning(val, what') == Meaning(val, what)
  {
    var q, r := Spot(upstream, s, true), Spot(upstream, s, false);
    if Has(live, up, q) {
      assert At(live, up, q) in what && At(live, up, r) in what;
    }
  }

  /** New objects that nothing refers to yet. */
  lemma AllKept(live: LiveVals, up: LiveVals, what: Holdings, what': Holdings)
    requires Owned(live, up, what)
    requires forall m :: m in what ==> m in what' && what'[m] == what[m]
    ensures MeaningOf(live, what') == MeaningOf(live, what) && MeaningOf(up, what') == MeaningOf(up, what)
  {
    forall s | s in live ensures Meaning(live[s], what') == Meaning(live[s], what) {
      MeaningKept(live, up, what, false, s, what');
    }
    forall s | s in up ensures Meaning(up[s], what') == Meaning(up[s], what) {
      MeaningKept(live, up, what, true, s, what');
    }
    hide Meaning, Owned;
  }

  lemma KnownOwned(live: LiveVals, up: LiveVals, what: Holdings, upstream: bool, s: Site, b: ExplainedBool)
    requires Owned(live, up, what)
    ensures
      var (live', up') := Placed(live, up, upstream, s, Known(b));
      Owned(live', up', what)
  {
    var (live', up') := Placed(live, up, upstream, s, Known(b));
    forall q | Has(live', up', q) ensures Has(live, up, q) && At(live', up', q) == At(live, up, q) {
    }
    hide Has, At, Placed;
  }

  lemma HoldingMore(what: Holdings, x: EdgeMap, edges: Edges)
    requires Holding(what) && x !in what && Usable(x) && x.Contents() == edges
    requires forall m :: m in what ==> Disjoint(m, x) && Disjoint(x, m)
    ensures Holding(what[x := edges])
  {
    hide Usable, OrderedMap.Contents;
  }

  lemma EnteredMeaning(live: LiveVals, up: LiveVals, what: Holdings, s: Site, x: EdgeMap, y: EdgeMap)
    requires Owned(live, up, what) && s !in live && x !in what && y !in what && x != y
    ensures
      var live', what' := live[s := Open(x, y)], what[x := New()][y := New()];
      && Owned(live', up, what')
      && MeaningOf(live', what') == Entered(MeaningOf(live, what), s)
      && MeaningOf(up, what') == MeaningOf(up, what)
  {
    var live', what' := live[s := Open(x, y)], what[x := New()][y := New()];
    PlacedOwned(live, up, what, false, s, x, y, New(), New());
    AllKept(live, up, what, what');
    assert Meaning(Open(x, y), what') == UndeterminedVal(New(), New());
    hide Owned, Meaning;
    forall t | t in live ensures MeaningOf(live, what')[t] == MeaningOf(live, what)[t] {
    }
  }

  lemma OpenIsUndetermined(vals: LiveVals, what: Holdings, s: Site)
    ensures Undetermined(MeaningOf(vals, what), s) <==> s in vals && vals[s].Open?
  {
  }

  class LiveMap {
    var mapping: OMap<Site, LiveVal>
    var upstreamMapping: LiveVals
    ghost var what: Holdings

    ghost predicate Valid()
      reads this, what.Keys, Cells(what.Keys)
    {
      Holding(what) && Owned(mapping.vals, upstreamMapping, what)
    }

    ghost function Map(): View<Site, InferredVal>
      reads this
    {
      View(mapping.keys, MeaningOf(mapping.vals, what))
    }

    ghost function Upstream(): Mapping
      reads this
    {
      MeaningOf(upstreamMapping, what)
    }

    constructor ()
      ensures Valid() && Map() == New() && Upstream() == map[] && what == map[]
    {
      mapping := New();
      upstreamMapping := map[];
      what := map[];
    }

    method StoreDetermined(s: Site, b: ExplainedBool)
      requires Valid()
      modifies this`mapping
      ensures Valid() && Map() == old(Map()).Store(s, DeterminedVal(b)) && Upstream() == old(Upstream())
    {
      hide Holding, Owned, OrderedMap.Valid, OrderedMap.Contents, ViewOf, View.Valid, Cells;
      KnownOwned(mapping.vals, upstreamMapping, what, false, s, b);
      assert forall p :: p in Cells(what.Keys) ==> (p as object) != (this as object);
      mapping := Put(mapping, s, Known(b));
    }

    /** An entry with two new lists. */
    method EnterNew(s: Site)
      requires Valid() && s !in mapping.vals
      modifies this`mapping, this`what
      ensures Valid() && mapping.vals.Keys == old(mapping.vals.Keys) + {s}
      ensures Map().vals == Entered(old(Map().vals), s) && Map().keys == old(Map().keys) + [s]
      ensures Upstream() == old(Upstream())
      ensures forall x :: x in what && x !in old(what) ==> fresh(x) && x.pairs == []
    {
      hide Holding, Owned, OrderedMap.Valid, OrderedMap.Contents, ViewOf, View.Valid, Cells, Usable, Disjoint, Placed;
      hide MeaningOf, Meaning, Entered;
      var x, y := NewLists(what);
      ghost var with := what[x := New()][y := New()];
      EnteredMeaning(mapping.vals, upstreamMapping, what, s, x, y);
      assert forall p :: p in Cells(with.Keys) ==> (p as object) != (this as object);
      mapping := Put(mapping, s, Open(x, y));
      what := with;
    }

    method Enter(s: Site)
      requires Valid()
      modifies this`mapping, this`what
      ensures Valid() && mapping.vals.Keys == old(mapping.vals.Keys) + {s}
      ensures Map().vals == Entered(old(Map().vals), s) && Map().keys == EnteredKeys(old(Map().keys), s)
      ensures Upstream() == old(Upstream())
      ensures forall x :: x in what && x !in old(what) ==> fresh(x) && x.pairs == []
    {
      assert s in mapping.keys <==> s in mapping.vals;
      if s !in mapping.vals {
        hide Holding, Owned, View.Valid, OrderedMap.Valid, OrderedMap.Contents, ViewOf, Cells;
        EnterNew(s);
      }
    }

    method StoreForward(p: Site, c: Site, a: PrimitiveFullTrigger)
      requires Valid() && Undetermined(Map().vals, p)
      modifies this`what, what.Keys, Cells(what.Keys)
      ensures Valid()
      ensures Map() == View(mapping.keys, WithImplicate(old(Map().vals), p, c, a)) && Upstream() == old(Upstream())
      ensures what.Keys == old(what.Keys)
      ensures forall x, q :: x in what && q in x.pairs ==> q in old(Cells(what.Keys)) || fresh(q)
    {
      hide Holding, Owned, View.Valid, OrderedMap.Valid, OrderedMap.Contents, ViewOf, Usable, Disjoint, Placed;
      OpenIsUndetermined(mapping.vals, what, p);
      hide MeaningOf, Meaning;
      ForwardStored(mapping.vals, upstreamMapping, what, p, c, a);
      var m := mapping.vals[p].implicates;
      assert forall q :: q in m.pairs ==> q in Cells(what.Keys);
      StoreEdge(m, c, a, what);
      ghost var stored := what[m := Put(what[m], c, a)];
      assert forall q :: q in Cells(stored.Keys) ==> (q as object) != (this as object);
      what := stored;
    }

    method StoreBack(p: Site, c: Site, a: PrimitiveFullTrigger)
      requires Valid() && Undetermined(Map().vals, c)
      modifies this`what, what.Keys, Cells(what.Keys)
      ensures Valid()
      ensures Map() == View(mapping.keys, WithImplicant(old(Map().vals), p, c, a)) && Upstream() == old(Upstream())
    {
      hide Holding, Owned, View.Valid, OrderedMap.Valid, OrderedMap.Contents, ViewOf, Usable, Disjoint, Placed;
      OpenIsUndetermined(mapping.vals, what, c);
      hide MeaningOf, Meaning;
      BackStored(mapping.vals, upstreamMapping, what, c, p, a);
      var m := mapping.vals[c].implicants;
      assert forall q :: q in m.pairs ==> q in Cells(what.Keys);
      StoreEdge(m, p, a, what);
      ghost var stored := what[m := Put(what[m], p, a)];
      assert forall q :: q in Cells(stored.Keys) ==> (q as object) != (this as object);
      what := stored;
    }

    /** Both writes go to lists that are shared with nobody: the snapshot stays as it is. */
    method StoreImplication(p: Site, c: Site, a: PrimitiveFullTrigger)
      requires Valid() && !Determined(Map().vals, p) && !Determined(Map().vals, c)
      modifies this`mapping, this`what, what.Keys, Cells(what.Keys)
      ensures Valid() && Upstream() == old(Upstream())
      ensures Map() == View(EnteredKeys(EnteredKeys(old(Map().keys), p), c), Stored(old(Map().vals), p, c, a))
    {
      hide Holding, Owned, View.Valid, OrderedMap.Valid, OrderedMap.Contents, ViewOf, Usable, Disjoint, Placed;
      hide Meaning, MeaningOf;
      Enter(p);
      Enter(c);
      StoreForward(p, c, a);
      StoreBack(p, c, a);
    }

    /** Copies one value into the snapshot. */
    method SnapshotAt(s: Site)
      requires Valid() && s in mapping.vals
      modifies this`upstreamMapping, this`what
      ensures Valid() && mapping == old(mapping) && Map() == old(Map())
      ensures Upstream() == old(Upstream())[s := Map().vals[s]]
      ensures s in upstreamMapping && upstreamMapping == old(upstreamMapping)[s := upstreamMapping[s]]
    {
      hide Holding, Owned, View.Valid, OrderedMap.Valid, OrderedMap.Contents, ViewOf, Usable, Disjoint, Cells;
      ghost var live, up := mapping.vals, upstreamMapping;
      match mapping.vals[s]
      case Known(b) =>
        KnownOwned(live, up, what, true, s, b);
        assert forall q :: q in Cells(what.Keys) ==> (q as object) != (this as object);
        upstreamMapping := upstreamMapping[s := Known(b)];
      case Open(implicants, implicates) =>
        ListsHeld(live, up, what, s);
        var x, y := CopyLists(implicants, implicates, what);
        ghost var with := what[x := what[implicants]][y := what[implicates]];
        CopiedMeaning(live, up, what, s, x, y);
        assert forall q :: q in Cells(with.Keys) ==> (q as object) != (this as object);
        hide Meaning, MeaningOf;
        upstreamMapping := upstreamMapping[s := Open(x, y)];
        what := with;
    }

    /** A deep copy of the whole map: equal in content, and still no list or cell has two owners. */
    method Snapshot()
      requires Valid() && Upstream().Keys <= Map().vals.Keys
      modifies this`upstreamMapping, this`what
      ensures Valid() && Map() == old(Map()) && Upstream() == Map().vals
    {
      NoneCopied(Upstream(), Map());
      hide Valid, MeaningOf, View.Valid, CopiedTo;
      for i := 0 to |mapping.keys|
        invariant Valid() && mapping == old(mapping) && Map() == old(Map())
        invariant CopiedTo(Upstream(), old(Map()), i)
      {
        InDomain(mapping, i);
        CopiedNext(Upstream(), Map(), i);
        SnapshotAt(mapping.keys[i]);
      }
      KeysInDomain(mapping, what);
      AllCopied(Upstream(), Map());
    }
  }

  lemma InDomain(m: OMap<Site, LiveVal>, i: nat)
    requires i < |m.keys|
    ensures m.keys[i] in m.vals
  {
  }

  lemma KeysInDomain(m: OMap<Site, LiveVal>, what: Holdings)
    ensures forall s :: s in MeaningOf(m.vals, what) ==> s in m.keys
  {
  }

  ghost predicate CopiedTo(up: Mapping, m: View<Site, InferredVal>, n: nat) {
    && up.Keys <= m.vals.Keys && n <= |m.keys|
    && forall j :: 0 <= j < n ==> m.keys[j] in up && m.keys[j] in m.vals && up[m.keys[j]] == m.vals[m.keys[j]]
  }

  lemma NoneCopied(up: Mapping, m: View<Site, InferredVal>)
    requires up.Keys <= m.vals.Keys
    ensures CopiedTo(up, m, 0)
  {
  }

  lemma CopiedNext(up: Mapping, m: View<Site, InferredVal>, n: nat)
    requires CopiedTo(up, m, n) && n < |m.keys|
    ensures m.keys[n] in m.vals ==> CopiedTo(up[m.keys[n] := m.vals[m.keys[n]]], m, n + 1)
  {
  }

  lemma AllCopied(up: Mapping, m: View<Site, InferredVal>)
    requires CopiedTo(up, m, |m.keys|) && forall s :: s in m.vals ==> s in m.keys
    ensures up == m.vals
  {
    forall s | s in m.vals ensures s in up && up[s] == m.vals[s] {
      var j :| 0 <= j < |m.keys| && m.keys[j] == s;
    }
  }

  lemma ListsHeld(live: LiveVals, up: LiveVals, what: Holdings, s: Site)
    requires Owned(live, up, what) && s in live && live[s].Open?
    ensures live[s].implicants in what && live[s].implicates in what
  {
    var q, r := Spot(false, s, true), Spot(false, s, false);
    assert Has(live, up, q) && Has(live, up, r);
  }

  lemma CopiedMeaning(live: LiveVals, up: LiveVals, what: Holdings, s: Site, x: EdgeMap, y: EdgeMap)
    requires Owned(live, up, what) && s in live && live[s].Open?
    requires live[s].implicants in what && live[s].implicates in what && x !in what && y !in what && x != y
    ensures
      var up', what' := up[s := Open(x, y)], what[x := what[live[s].implicants]][y := what[live[s].implicates]];
      && Owned(live, up', what')
      && MeaningOf(live, what') == MeaningOf(live, what)
      && MeaningOf(up', what') == MeaningOf(up, what)[s := MeaningOf(live, what)[s]]
  {
    var up', what' := up[s := Open(x, y)], what[x := what[live[s].implicants]][y := what[live[s].implicates]];
    PlacedOwned(live, up, what, true, s, x, y, what[live[s].implicants], what[live[s].implicates]);
    AllKept(live, up, what, what');
    assert Meaning(Open(x, y), what') == Meaning(live[s], what);
    hide Owned, Meaning;
    forall t | t in up ensures MeaningOf(up, what')[t] == MeaningOf(up, what)[t] {
    }
  }

  method CopyLists(m: EdgeMap, m': EdgeMap, ghost what: Holdings) returns (x: EdgeMap, y: EdgeMap)
    requires Holding(what) && m in what && m' in what
    ensures fresh(x) && fresh(y) && fresh(x.pairs) && fresh(y.pairs) && x !in what && y !in what && x != y
    ensures Holding(what[x := what[m]][y := what[m']])
  {
    hide Holding, OrderedMap.Contents, OrderedMap.Valid;
    x := CopyList(m, what);
    y := CopyList(m', what[x := what[m]]);
  }

  method CopyList(m: EdgeMap, ghost what: Holdings) returns (x: EdgeMap)
    requires Holding(what) && m in what
    ensures Holding(what[x := what[m]]) && fresh(x) && fresh(x.pairs) && x !in what
  {
    hide Holding, OrderedMap.Contents, OrderedMap.Valid;
    ghost var cells := Cells(what.Keys);
    HeldAt(what, m);
    x := CopyMap(m);
    assert x !in what && forall p :: p in cells ==> (p as object) != (x as object);
    HoldingMore(what, x, what[m]);
  }

  lemma HeldAt(what: Holdings, m: EdgeMap)
    requires Holding(what) && m in what
    ensures m.Valid() && m.Contents() == what[m]
  {
  }

  method NewLists(ghost what: Holdings) returns (x: EdgeMap, y: EdgeMap)
    requires Holding(what)
    ensures fresh(x) && fresh(y) && x !in what && y !in what && x != y && x.pairs == [] && y.pairs == []
    ensures Holding(what[x := New()][y := New()])
  {
    hide Holding, OrderedMap.Contents, OrderedMap.Valid;
    x := NewList(what);
    HoldingMore(what, x, New());
    y := NewList(what[x := New()]);
    HoldingMore(what[x := New()], y, New());
  }

  method NewList(ghost what: Holdings) returns (x: EdgeMap)
    requires Holding(what)
    ensures Holding(what) && fresh(x) && x !in what && x.pairs == [] && Usable(x) && x.Contents() == New()
  {
    hide Holding, OrderedMap.Contents, OrderedMap.Valid;
    ghost var cells := Cells(what.Keys);
    x := new OrderedMap();
    assert x !in what && forall p :: p in cells ==> (p as object) != (x as object);
  }
}
