// The diff of inference/inferred_value.go, and the exported map.
module Incremental {
  import opened Annotation
  import opened OrderedMaps
  import opened InferredMaps
  import opened Export

  /** The new value may replace the old one: labels are final and agree. Otherwise the diff panics. */
  predicate Supersedes(newVal: InferredVal, oldVal: InferredVal) {
    match newVal
    case DeterminedVal(b) => oldVal.DeterminedVal? ==> b.Val() == oldVal.b.Val()
    case UndeterminedVal(_, _) => oldVal.UndeterminedVal?
  }

  /** `diff` is what `now` has and `old_` has not. */
  ghost predicate IsDiff(now: Edges, old_: Edges, diff: Edges) {
    && (forall k :: k in diff.vals <==> k in now.vals && k !in old_.vals)
    && (forall k :: k in diff.vals ==> diff.vals[k] == now.vals[k])
    && diff.keys == Restricted(now.keys, diff.vals.Keys)
  }

  /** Storing under the next key keeps a part of a map in the map's order. */
  lemma RestrictedNext(keys: seq<Site>, i: nat, kept: set<Site>)
    requires i < |keys| && keys[i] !in keys[..i]
    ensures Restricted(keys[..i + 1], kept + {keys[i]}) == Restricted(keys[..i], kept) + [keys[i]]
    ensures keys[i] !in kept ==> Restricted(keys[..i + 1], kept) == Restricted(keys[..i], kept)
  {
    assert keys[..i + 1] == keys[..i] + [keys[i]];
    RestrictedElsewhere(keys[..i], kept, keys[i]);
    RestrictedOn(keys[..i], kept + {keys[i]}, keys[i]);
    RestrictedOn(keys[..i], kept, keys[i]);
  }

  lemma KeyAt<V>(m: OMap<Site, V>, i: nat)
    requires i < |m.keys|
    ensures m.keys[i] in m.vals && m.keys[i] !in m.keys[..i]
  {
  }

  lemma PutIs<V>(m: OMap<Site, V>, k: Site, v: V)
    ensures k !in m.vals ==> Put(m, k, v).keys == m.keys + [k]
    ensures Put(m, k, v).vals == m.vals[k := v] && Put(m, k, v).vals.Keys == m.vals.Keys + {k}
  {
  }

  ghost predicate PartMembers(now: Edges, old_: Edges, diff: Edges, i: nat)
    requires i <= |now.keys|
  {
    && (forall k :: k in diff.vals <==> k in now.keys[..i] && k !in old_.vals)
    && (forall k :: k in diff.vals ==> k in now.vals && diff.vals[k] == now.vals[k])
  }

  ghost predicate PartOrder<V>(keys: seq<Site>, x: OMap<Site, V>, i: nat)
    requires i <= |keys|
  {
    x.keys == Restricted(keys[..i], x.vals.Keys)
  }

  lemma PartMembersNext(now: Edges, old_: Edges, diff: Edges, i: nat)
    requires i < |now.keys| && PartMembers(now, old_, diff, i) && now.keys[i] in now.vals
    ensures now.keys[i] in old_.vals ==> PartMembers(now, old_, diff, i + 1)
    ensures now.keys[i] !in old_.vals ==> PartMembers(now, old_, Put(diff, now.keys[i], now.vals[now.keys[i]]), i + 1)
  {
    var k := now.keys[i];
    assert now.keys[..i + 1] == now.keys[..i] + [k];
    PutIs(diff, k, now.vals[k]);
    hide View.Valid, Put;
  }

  lemma PartOrderNext<V>(keys: seq<Site>, x: OMap<Site, V>, i: nat, v: V)
    requires i < |keys| && PartOrder(keys, x, i) && keys[i] !in keys[..i] && keys[i] !in x.vals
    ensures PartOrder(keys, x, i + 1) && PartOrder(keys, Put(x, keys[i], v), i + 1)
  {
    RestrictedNext(keys, i, x.vals.Keys);
    PutIs(x, keys[i], v);
    hide View.Valid, Put, Restricted;
  }

  /** The diff of the first i edges. */
  ghost predicate PartDiff(now: Edges, old_: Edges, diff: Edges, i: nat)
    requires i <= |now.keys|
  {
    PartMembers(now, old_, diff, i) && PartOrder(now.keys, diff, i)
  }

  lemma NotYet(now: Edges, old_: Edges, diff: Edges, i: nat)
    requires i < |now.keys| && PartMembers(now, old_, diff, i) && now.keys[i] !in now.keys[..i]
    ensures now.keys[i] !in diff.vals
  {
  }

  lemma PartDiffNext(now: Edges, old_: Edges, diff: Edges, i: nat)
    requires i < |now.keys| && PartDiff(now, old_, diff, i)
    ensures now.keys[i] in now.vals
    ensures now.keys[i] in old_.vals ==> PartDiff(now, old_, diff, i + 1)
    ensures now.keys[i] !in old_.vals ==> PartDiff(now, old_, Put(diff, now.keys[i], now.vals[now.keys[i]]), i + 1)
  {
    KeyAt(now, i);
    NotYet(now, old_, diff, i);
    PartMembersNext(now, old_, diff, i);
    PartOrderNext(now.keys, diff, i, now.vals[now.keys[i]]);
    hide View.Valid, Put, PartMembers, PartOrder;
  }

  lemma PartDiffEnds(now: Edges, old_: Edges, diff: Edges)
    ensures PartDiff(now, old_, New(), 0)
    ensures PartDiff(now, old_, diff, |now.keys|) ==> IsDiff(now, old_, diff)
  {
    assert now.keys[..|now.keys|] == now.keys;
    assert forall k :: k in now.keys <==> k in now.vals;
    hide View.Valid;
  }

  method EdgesDiff(now: Edges, old_: Edges) returns (diff: Edges, nonempty: bool)
    ensures IsDiff(now, old_, diff)
    ensures nonempty <==> diff.vals != map[]
  {
    hide PartDiff, IsDiff, View.Valid, Put;
    diff := New();
    nonempty := false;
    PartDiffEnds(now, old_, diff);
    for i := 0 to |now.keys|
      invariant PartDiff(now, old_, diff, i)
      invariant nonempty <==> diff.vals != map[]
    {
      var k := now.keys[i];
      PartDiffNext(now, old_, diff, i);
      if k !in old_.vals {
        PutIs(diff, k, now.vals[k]);
        diff := Put(diff, k, now.vals[k]);
        assert k in diff.vals;
        nonempty := true;
      }
    }
    PartDiffEnds(now, old_, diff);
  }

  /** Old edges and diff are disjoint and make up the new edges, when edges are only ever added. */
  lemma DiffIsLossless(now: Edges, old_: Edges, diff: Edges)
    requires IsDiff(now, old_, diff) && old_.vals.Keys <= now.vals.Keys
    ensures diff.vals.Keys !! old_.vals.Keys
    ensures diff.vals.Keys + old_.vals.Keys == now.vals.Keys
    ensures diff.vals == map[] <==> now.vals.Keys == old_.vals.Keys
  {
    if diff.vals == map[] {
      assert forall k :: k in now.vals ==> k in old_.vals;
    } else {
      var k :| k in diff.vals;
    }
  }

  ghost predicate NewEdge(now: Edges, old_: Edges) {
    exists k :: k in now.vals && k !in old_.vals
  }

  /** There is something that the old value does not say: a label where there was none, or an edge. */
  ghost predicate SaysMore(newVal: InferredVal, oldVal: InferredVal) {
    oldVal.UndeterminedVal? &&
    (newVal.UndeterminedVal? ==>
      NewEdge(newVal.implicants, oldVal.implicants) || NewEdge(newVal.implicates, oldVal.implicates))
  }

  /** A label, or at least one edge. */
  ghost predicate HoldsSomething(v: InferredVal) {
    v.UndeterminedVal? ==> v.implicants.vals != map[] || v.implicates.vals != map[]
  }

  lemma NewEdges(now: Edges, old_: Edges, diff: Edges)
    requires IsDiff(now, old_, diff)
    ensures NewEdge(now, old_) <==> diff.vals != map[]
    ensures NewEdge(now, old_) <==> !(now.vals.Keys <= old_.vals.Keys)
  {
    if k :| k in now.vals && k !in old_.vals {
      assert k in diff.vals;
    }
    if k :| k in diff.vals {
      assert k in now.vals && k !in old_.vals;
    }
  }

  method InferredValDiff(newVal: InferredVal, oldVal: InferredVal) returns (diff: Option<InferredVal>, nonempty: bool)
    requires Supersedes(newVal, oldVal)
    ensures ValDiff(newVal, oldVal, if nonempty then diff else None)
    ensures nonempty <==> SaysMore(newVal, oldVal)
    ensures nonempty ==> diff.Some? && HoldsSomething(diff.value)
  {
    match newVal
    case DeterminedVal(b) =>
      if oldVal.DeterminedVal? {
        return None, false;
      }
      return Some(newVal), true;
    case UndeterminedVal(implicants, implicates) =>
      var newImplicants, more := EdgesDiff(implicants, oldVal.implicants);
      var newImplicates, more' := EdgesDiff(implicates, oldVal.implicates);
      NewEdges(implicants, oldVal.implicants, newImplicants);
      NewEdges(implicates, oldVal.implicates, newImplicates);
      hide IsDiff, NewEdge;
      return Some(UndeterminedVal(newImplicants, newImplicates)), more || more';
  }

  /** What has to be exported on top of `oldVal`: nothing, a label, or exactly the new edges. */
  ghost predicate ValDiff(newVal: InferredVal, oldVal: InferredVal, diff: Option<InferredVal>) {
    if newVal.DeterminedVal? then
      diff == if oldVal.DeterminedVal? then None else Some(newVal)
    else if diff.None? then
      && oldVal.UndeterminedVal?
      && newVal.implicants.vals.Keys <= oldVal.implicants.vals.Keys
      && newVal.implicates.vals.Keys <= oldVal.implicates.vals.Keys
    else
      && oldVal.UndeterminedVal? && diff.value.UndeterminedVal? && HoldsSomething(diff.value)
      && IsDiff(newVal.implicants, oldVal.implicants, diff.value.implicants)
      && IsDiff(newVal.implicates, oldVal.implicates, diff.value.implicates)
  }

  /** A map that only grew never makes the diff panic. */
  lemma GrowthSupersedes(up: Mapping, m: Mapping, s: Site)
    requires Grows(up, m) && s in up
    ensures s in m && Supersedes(m[s], up[s])
  {
    assert Determined(up, s) ==> m[s] == up[s];
  }

  /** What the exported map holds for a site: nothing unless it is kept, and of a kept site what its
      upstream value does not say already. */
  ghost predicate Entry(m: Mapping, up: Mapping, x: Mapping, s: Site, kept: bool)
    requires s in m
  {
    if !kept then s !in x
    else if s in up then ValDiff(m[s], up[s], if s in x then Some(x[s]) else None)
    else s in x && x[s] == m[s]
  }

  ghost predicate IsExport(m: Mapping, up: Mapping, x: Mapping) {
    && (forall s :: s in x ==> s in m)
    && (forall s :: s in m ==> Entry(m, up, x, s, Kept(m, s)))
  }

  lemma EntriesKept(m: Mapping, up: Mapping, x: Mapping, x': Mapping, ss: seq<Site>, sites: set<Site>, t: Site)
    requires forall s :: s in ss ==> s in m && Entry(m, up, x, s, s in sites)
    requires t !in ss && forall s :: s != t ==> (s in x <==> s in x') && (s in x ==> x'[s] == x[s])
    ensures forall s :: s in ss ==> Entry(m, up, x', s, s in sites)
  {
    hide ValDiff;
  }

  method ExportEntry(m: OMap<Site, InferredVal>, up: Mapping, s: Site, sites: set<Site>, x: OMap<Site, InferredVal>)
    returns (x': OMap<Site, InferredVal>)
    requires s in m.vals && s !in x.vals && Grows(up, m.vals)
    ensures Entry(m.vals, up, x'.vals, s, s in sites)
    ensures x' == x || (s in x'.vals && x' == Put(x, s, x'.vals[s]))
  {
    hide Grows, ValDiff, Supersedes, View.Valid;
    x' := x;
    if s in sites {
      if s in up {
        GrowthSupersedes(up, m.vals, s);
        var diff, nonempty := InferredValDiff(m.vals[s], up[s]);
        if nonempty && diff.Some? {
          x' := Put(x, s, diff.value);
        }
      } else {
        x' := Put(x, s, m.vals[s]);
      }
    }
  }

  /** The selection part of `Export`. */
  method ExportMap(m: OMap<Site, InferredVal>, up: Mapping) returns (x: OMap<Site, InferredVal>)
    requires Quiescent(m.vals) && Grows(up, m.vals)
    ensures IsExport(m.vals, up, x.vals)
    ensures forall s :: s in x.vals <==> s in m.vals && Kept(m.vals, s) && (s in up ==> SaysMore(m.vals[s], up[s]))
    ensures x.keys == Restricted(m.keys, x.vals.Keys)
  {
    hide Quiescent, Grows, Kept, Entry, PartOrder, View.Valid, View.Store, Put;
    var sites := ChooseSitesToExport(m);
    x := New();
    KeysAreDomain(m);
    PartOrderFirst(m.keys, x);
    for i := 0 to |m.keys|
      invariant PartOrder(m.keys, x, i)
      invariant forall s :: s in x.vals ==> s in m.keys[..i]
      invariant forall s :: s in m.keys[..i] ==> s in m.vals && Entry(m.vals, up, x.vals, s, s in sites)
    {
      var s := m.keys[i];
      assert m.keys[..i + 1] == m.keys[..i] + [s];
      ghost var before := x;
      KeyAt(m, i);
      x := ExportEntry(m, up, s, sites, x);
      PartOrderStep(m.keys, before, i, x);
      EntriesKept(m.vals, up, before.vals, x.vals, m.keys[..i], sites, s);
    }
    assert m.keys[..|m.keys|] == m.keys;
    PartOrderEnd(m.keys, x);
    ExportedExactly(m.vals, up, x.vals);
  }

  /** Of the kept sites exactly those are exported that have something new to say; and of those known
      upstream each entry holds something. */
  lemma ExportedExactly(m: Mapping, up: Mapping, x: Mapping)
    requires IsExport(m, up, x) && Grows(up, m)
    ensures forall s :: s in x <==> s in m && Kept(m, s) && (s in up ==> SaysMore(m[s], up[s]))
    ensures forall s :: s in x && s in up ==> HoldsSomething(x[s])
  {
    hide Kept, Grows, IsDiff;
    forall s | s in m
      ensures s in x <==> Kept(m, s) && (s in up ==> SaysMore(m[s], up[s]))
      ensures s in x && s in up ==> HoldsSomething(x[s])
    {
      assert Entry(m, up, x, s, Kept(m, s));
      if s in up {
        GrowthSupersedes(up, m, s);
        if s in x && x[s].UndeterminedVal? {
          NewEdges(m[s].implicants, up[s].implicants, x[s].implicants);
          NewEdges(m[s].implicates, up[s].implicates, x[s].implicates);
        }
      }
    }
  }

  lemma PartOrderFirst<V>(keys: seq<Site>, x: OMap<Site, V>)
    requires x == New()
    ensures PartOrder(keys, x, 0)
  {
  }

  lemma PartOrderEnd<V>(keys: seq<Site>, x: OMap<Site, V>)
    requires PartOrder(keys, x, |keys|)
    ensures x.keys == Restricted(keys, x.vals.Keys)
  {
    assert keys[..|keys|] == keys;
  }

  lemma PartOrderStep<V>(keys: seq<Site>, x: OMap<Site, V>, i: nat, x': OMap<Site, V>)
    requires i < |keys| && PartOrder(keys, x, i) && keys[i] !in keys[..i] && keys[i] !in x.vals
    requires x' == x || (keys[i] in x'.vals && x' == Put(x, keys[i], x'.vals[keys[i]]))
    ensures PartOrder(keys, x', i + 1)
    ensures x'.vals == x.vals || (keys[i] in x'.vals && x'.vals == x.vals[keys[i] := x'.vals[keys[i]]])
  {
    hide PartOrder, View.Valid, Put;
    if x' == x {
      RestrictedNextSame(keys, i, x);
    } else {
      PartOrderNext(keys, x, i, x'.vals[keys[i]]);
    }
  }

  lemma RestrictedNextSame<V>(keys: seq<Site>, i: nat, x: OMap<Site, V>)
    requires i < |keys| && PartOrder(keys, x, i) && keys[i] !in keys[..i] && keys[i] !in x.vals
    ensures PartOrder(keys, x, i + 1)
  {
    RestrictedNext(keys, i, x.vals.Keys);
    hide View.Valid, Restricted;
  }
}
