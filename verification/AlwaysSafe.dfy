// Step 1 of ObservePackage (inference/engine.go): guard-missing triggers at functions whose returns
// are all safe are dropped, and so are the placeholders that track those returns.
module AlwaysSafePaths {
  import opened Annotation

  function GuardMissingSite(t: FullTrigger): Option<Site> {
    match t.producer.guardMissingReturn
    case Some(key) => Some(Site(key, t.producer.kind.DeepConditional?))
    case None => None
  }

  function PlaceholderSite(t: FullTrigger): Option<Site> {
    match t.consumer.alwaysSafeReturn
    case Some(key) => Some(Site(key, t.consumer.kind.DeepConditional?))
    case None => None
  }

  /** Every return of the function at `site` is known to be nonnil, and there is one. */
  ghost predicate AlwaysSafe(all: seq<FullTrigger>, site: Site) {
    && (exists r :: r in all && PlaceholderSite(r) == Some(site))
    && (forall r :: r in all && PlaceholderSite(r) == Some(site) ==> r.producer.kind.Never?)
  }

  ghost predicate Dropped(all: seq<FullTrigger>, t: FullTrigger) {
    PlaceholderSite(t).Some? || (GuardMissingSite(t).Some? && AlwaysSafe(all, GuardMissingSite(t).value))
  }

  /** What is left of `ts`, in order. */
  ghost function Remaining(all: seq<FullTrigger>, ts: seq<FullTrigger>): seq<FullTrigger> {
    if ts == [] then []
    else
      var front, last := ts[..|ts| - 1], ts[|ts| - 1];
      Remaining(all, front) + if Dropped(all, last) then [] else [last]
  }

  ghost predicate Distinct(ts: seq<FullTrigger>) {
    forall i, j :: 0 <= i < j < |ts| ==> ts[i] != ts[j]
  }

  type Index = map<Site, seq<nat>>

  /** `index` lists, for each site, the positions below n whose trigger `key` puts there. */
  ghost predicate Indexes(index: Index, ts: seq<FullTrigger>, n: nat, key: FullTrigger -> Option<Site>)
    requires n <= |ts|
  {
    && (forall s, i {:trigger i in index[s]} :: s in index && i in index[s] ==> i < n && key(ts[i]) == Some(s))
    && (forall i :: 0 <= i < n && key(ts[i]).Some? ==> key(ts[i]).value in index && i in index[key(ts[i]).value])
    && (forall s :: s in index ==> index[s] != [])
  }

  method IndexBySite(ts: seq<FullTrigger>, key: FullTrigger -> Option<Site>) returns (index: Index)
    ensures Indexes(index, ts, |ts|, key)
  {
    index := map[];
    for i := 0 to |ts|
      invariant Indexes(index, ts, i, key)
    {
      match key(ts[i])
      case Some(site) =>
        IndexNext(index, ts, i, key, site);
        index := index[site := (if site in index then index[site] else []) + [i]];
      case None =>
    }
  }

  lemma IndexNext(index: Index, ts: seq<FullTrigger>, i: nat, key: FullTrigger -> Option<Site>, site: Site)
    requires i < |ts| && Indexes(index, ts, i, key) && key(ts[i]) == Some(site)
    ensures Indexes(index[site := (if site in index then index[site] else []) + [i]], ts, i + 1, key)
  {
    var before := if site in index then index[site] else [];
    var index' := index[site := before + [i]];
    forall s, j | s in index' && j in index'[s] ensures j < i + 1 && key(ts[j]) == Some(s) {
      if s == site {
        assert j in before || j == i;
      }
    }
    forall j | 0 <= j < i + 1 && key(ts[j]).Some? ensures key(ts[j]).value in index' && j in index'[key(ts[j]).value] {
      if j < i {
        assert j in index[key(ts[j]).value];
      } else {
        assert i in before + [i];
      }
    }
  }

  lemma IndexedSites(index: Index, ts: seq<FullTrigger>, key: FullTrigger -> Option<Site>, site: Site)
    requires Indexes(index, ts, |ts|, key)
    ensures site in index <==> exists r :: r in ts && key(r) == Some(site)
    ensures site in index ==> forall r :: r in ts && key(r) == Some(site) <==>
      exists k :: 0 <= k < |index[site]| && index[site][k] < |ts| && ts[index[site][k]] == r
  {
    assert forall i :: 0 <= i < |ts| && key(ts[i]).Some? ==> key(ts[i]).value in index;
    if site in index {
      assert index[site][0] in index[site];
      assert key(ts[index[site][0]]) == Some(site);
      forall r | r in ts && key(r) == Some(site)
        ensures exists k :: 0 <= k < |index[site]| && index[site][k] < |ts| && ts[index[site][k]] == r
      {
        var i :| 0 <= i < |ts| && ts[i] == r;
        assert i in index[site];
      }
      assert forall k :: 0 <= k < |index[site]| ==> index[site][k] in index[site];
    }
  }

  /** Counts safe returns up to the first unsafe one, and compares. */
  method AllNever(ts: seq<FullTrigger>, indices: seq<nat>) returns (all: bool)
    requires forall k :: 0 <= k < |indices| ==> indices[k] < |ts|
    ensures all <==> forall k :: 0 <= k < |indices| ==> ts[indices[k]].producer.kind.Never?
  {
    var count := 0;
    for k := 0 to |indices|
      invariant count == k
      invariant forall l :: 0 <= l < k ==> ts[indices[l]].producer.kind.Never?
    {
      if !ts[indices[k]].producer.kind.Never? {
        break;
      }
      count := count + 1;
    }
    all := count == |indices|;
  }

  ghost predicate Marks(deleted: set<nat>, ts: seq<FullTrigger>) {
    forall i :: i in deleted <==> 0 <= i < |ts| && Dropped(ts, ts[i])
  }

  method AddAll(s: set<nat>, indices: seq<nat>) returns (s': set<nat>)
    ensures forall i :: i in s' <==> i in s || i in indices
  {
    s' := s;
    for k := 0 to |indices|
      invariant forall i :: i in s' <==> i in s || i in indices[..k]
    {
      assert indices[..k + 1] == indices[..k] + [indices[k]];
      s' := s' + {indices[k]};
    }
    assert indices[..|indices|] == indices;
  }

  /** The positions to delete. */
  method MarkDeleted(ts: seq<FullTrigger>) returns (deleted: set<nat>)
    ensures Marks(deleted, ts)
  {
    var missing := IndexBySite(ts, GuardMissingSite);
    var returns_ := IndexBySite(ts, PlaceholderSite);
    deleted := {};
    hide AlwaysSafe;
    var rest := missing.Keys;
    while rest != {}
      invariant rest <= missing.Keys
      invariant forall i :: i in deleted <==>
        exists s :: s in missing.Keys - rest && i in missing[s] && AlwaysSafe(ts, s)
    {
      var site :| site in rest;
      var safe := SafeAt(ts, returns_, site);
      if safe {
        deleted := AddAll(deleted, missing[site]);
      }
      rest := rest - {site};
    }
    var excused := deleted;
    rest := returns_.Keys;
    while rest != {}
      invariant rest <= returns_.Keys
      invariant forall i :: i in deleted <==> i in excused || exists s :: s in returns_.Keys - rest && i in returns_[s]
    {
      var site :| site in rest;
      deleted := AddAll(deleted, returns_[site]);
      rest := rest - {site};
    }
    MarksAll(ts, missing, returns_, deleted);
  }

  method SafeAt(ts: seq<FullTrigger>, returns_: Index, site: Site) returns (safe: bool)
    requires Indexes(returns_, ts, |ts|, PlaceholderSite)
    ensures safe <==> AlwaysSafe(ts, site)
  {
    IndexedSites(returns_, ts, PlaceholderSite, site);
    if site !in returns_ {
      return false;
    }
    forall k | 0 <= k < |returns_[site]| ensures returns_[site][k] < |ts| {
      assert returns_[site][k] in returns_[site];
    }
    safe := AllNever(ts, returns_[site]);
  }

  lemma MarksAll(ts: seq<FullTrigger>, missing: Index, returns_: Index, deleted: set<nat>)
    requires Indexes(missing, ts, |ts|, GuardMissingSite) && Indexes(returns_, ts, |ts|, PlaceholderSite)
    requires forall i :: i in deleted <==>
      (exists s :: s in missing && i in missing[s] && AlwaysSafe(ts, s)) ||
        (exists s :: s in returns_ && i in returns_[s])
    ensures Marks(deleted, ts)
  {
    hide AlwaysSafe;
  }

  /** The first position of `t`. */
  method IndexOf(a: array<FullTrigger>, t: FullTrigger) returns (k: nat)
    requires t in a[..]
    ensures k < a.Length && a[k] == t && t !in a[..k]
  {
    k := 0;
    while a[k] != t
      invariant k < a.Length && t !in a[..k] && t in a[k..]
      decreases a.Length - k
    {
      k := k + 1;
    }
  }

  ghost function First(ts: seq<FullTrigger>, t: FullTrigger): (k: nat)
    requires t in ts
    ensures k < |ts| && ts[k] == t && t !in ts[..k]
  {
    if ts[|ts| - 1] == t && t !in ts[..|ts| - 1] then |ts| - 1 else First(ts[..|ts| - 1], t)
  }

  /** Where a copy of `t` has been kept, that copy's place counts, and not what `t` is. */
  ghost predicate Goes(orig: seq<FullTrigger>, kept: seq<FullTrigger>, t: FullTrigger) {
    Dropped(orig, t) || (t in kept && First(kept, t) < |orig| && Dropped(orig, orig[First(kept, t)]))
  }

  /** What the filter keeps of `seen`: all that is not dropped, except for a repetition whose first copy
      was moved to the place of a trigger that is dropped. */
  ghost function Survivors(orig: seq<FullTrigger>, seen: seq<FullTrigger>): seq<FullTrigger> {
    if seen == [] then []
    else
      var kept, last := Survivors(orig, seen[..|seen| - 1]), seen[|seen| - 1];
      kept + if Goes(orig, kept, last) then [] else [last]
  }

  lemma SurvivorsNext(orig: seq<FullTrigger>, seen: seq<FullTrigger>, t: FullTrigger)
    ensures Survivors(orig, seen + [t]) ==
      Survivors(orig, seen) + if Goes(orig, Survivors(orig, seen), t) then [] else [t]
  {
    hide Goes;
    assert (seen + [t])[..|seen|] == seen;
  }

  lemma RemainingNext(orig: seq<FullTrigger>, seen: seq<FullTrigger>, t: FullTrigger)
    ensures Remaining(orig, seen + [t]) == Remaining(orig, seen) + if Dropped(orig, t) then [] else [t]
  {
    hide Dropped;
    assert (seen + [t])[..|seen|] == seen;
  }

  /** Nothing is lost or gained but repetitions. */
  lemma {:induction false} SurvivorsAre(orig: seq<FullTrigger>, seen: seq<FullTrigger>)
    ensures |Survivors(orig, seen)| <= |Remaining(orig, seen)| <= |seen|
    ensures forall t :: t in Survivors(orig, seen) <==> t in seen && !Dropped(orig, t)
  {
    if seen != [] {
      var front, last := seen[..|seen| - 1], seen[|seen| - 1];
      SurvivorsAre(orig, front);
      hide Dropped;
      assert seen == front + [last];
    }
  }

  /** A repetition of a trigger that stays, behind a first copy that lands where a dropped one was. */
  ghost predicate Confused(orig: seq<FullTrigger>, f: nat, j: nat) {
    && f < j < |orig| && orig[f] == orig[j] && orig[f] !in orig[..f] && !Dropped(orig, orig[f])
    && |Remaining(orig, orig[..f])| < |orig| && Dropped(orig, orig[|Remaining(orig, orig[..f])|])
  }

  lemma PrefixNext(orig: seq<FullTrigger>, j: nat)
    requires j < |orig|
    ensures orig[..j + 1] == orig[..j] + [orig[j]]
    ensures Remaining(orig, orig[..j + 1]) == Remaining(orig, orig[..j]) +
      if Dropped(orig, orig[j]) then [] else [orig[j]]
    ensures Survivors(orig, orig[..j + 1]) ==
      Survivors(orig, orig[..j]) + if Goes(orig, Survivors(orig, orig[..j]), orig[j]) then [] else [orig[j]]
  {
    hide Dropped, Goes, Survivors, Remaining;
    var seen := orig[..j];
    OneMore(orig, j);
    RemainingNext(orig, seen, orig[j]);
    SurvivorsNext(orig, seen, orig[j]);
  }

  lemma OneMore(orig: seq<FullTrigger>, j: nat)
    requires j < |orig|
    ensures orig[..j + 1] == orig[..j] + [orig[j]]
  {
  }

  /** The first copy of a trigger that stays is kept right behind all that stays before it. */
  lemma {:induction false} FirstCopy(orig: seq<FullTrigger>, f: nat, j: nat)
    requires f < j <= |orig| && orig[f] !in orig[..f] && !Dropped(orig, orig[f])
    ensures orig[f] in Remaining(orig, orig[..j])
    ensures First(Remaining(orig, orig[..j]), orig[f]) == |Remaining(orig, orig[..f])|
  {
    hide Dropped, Goes, Survivors, Remaining, First;
    var t, kept := orig[f], Remaining(orig, orig[..j - 1]);
    PrefixNext(orig, j - 1);
    if f == j - 1 {
      RemainingIn(orig, orig[..f]);
      assert Remaining(orig, orig[..j])[|kept|] == t;
      FirstIs(Remaining(orig, orig[..j]), t, |kept|);
    } else {
      FirstCopy(orig, f, j - 1);
      FirstIs(Remaining(orig, orig[..j]), t, |Remaining(orig, orig[..f])|);
    }
  }

  lemma NotBefore(ts: seq<FullTrigger>, t: FullTrigger, k: nat)
    requires k <= |ts| && t !in ts[..k]
    ensures forall l :: 0 <= l < k ==> ts[l] != t
  {
    assert forall l :: 0 <= l < k ==> ts[l] == ts[..k][l];
  }

  lemma FirstIs(ts: seq<FullTrigger>, t: FullTrigger, k: nat)
    requires k < |ts| && ts[k] == t && t !in ts[..k]
    ensures First(ts, t) == k
  {
    NotBefore(ts, t, k);
    NotBefore(ts, t, First(ts, t));
  }

  lemma {:induction false} RemainingIn(orig: seq<FullTrigger>, seen: seq<FullTrigger>)
    ensures forall t :: t in Remaining(orig, seen) ==> t in seen
  {
    if seen != [] {
      RemainingIn(orig, seen[..|seen| - 1]);
    }
  }

  /** The filter keeps all that should stay exactly if no repetition is confused. */
  lemma SurvivorsExactly(orig: seq<FullTrigger>)
    ensures Survivors(orig, orig) == Remaining(orig, orig) <==> forall f, j :: !Confused(orig, f, j)
  {
    hide Confused;
    assert orig[..|orig|] == orig;
    if forall f, j :: !Confused(orig, f, j) {
      NoneLost(orig, |orig|);
    }
    if f: nat, j: nat :| Confused(orig, f, j) {
      OneLost(orig, f, j);
      FallsBehind(orig, j + 1, |orig|);
    }
  }

  /** A placeholder, then the same trigger twice: the first copy takes the placeholder's place, and the
      second is thrown away with it. */
  lemma RepetitionIsLost(d: FullTrigger, t: FullTrigger)
    requires PlaceholderSite(d).Some? && PlaceholderSite(t) == None && GuardMissingSite(t) == None
    ensures Confused([d, t, t], 1, 2) && Survivors([d, t, t], [d, t, t]) != Remaining([d, t, t], [d, t, t])
  {
    var orig := [d, t, t];
    hide Survivors;
    assert orig[..1] == [d] && Remaining(orig, [d]) == [];
    SurvivorsExactly(orig);
  }

  lemma {:induction false} NoneLost(orig: seq<FullTrigger>, j: nat)
    requires j <= |orig| && forall f, j :: !Confused(orig, f, j)
    ensures Survivors(orig, orig[..j]) == Remaining(orig, orig[..j])
  {
    if j > 0 {
      NoneLost(orig, j - 1);
      PrefixNext(orig, j - 1);
      NotLost(orig, j - 1);
    }
  }

  lemma NotLost(orig: seq<FullTrigger>, j: nat)
    requires j < |orig| && forall f :: !Confused(orig, f, j)
    requires Survivors(orig, orig[..j]) == Remaining(orig, orig[..j])
    ensures Goes(orig, Survivors(orig, orig[..j]), orig[j]) <==> Dropped(orig, orig[j])
  {
    var kept, t := Remaining(orig, orig[..j]), orig[j];
    if t in kept && !Dropped(orig, t) {
      RemainingIn(orig, orig[..j]);
      var f := First(orig[..j], t);
      assert orig[..j][..f] == orig[..f];
      FirstCopy(orig, f, j);
      SurvivorsAre(orig, orig[..j]);
      assert !Confused(orig, f, j);
    }
  }

  lemma OneLost(orig: seq<FullTrigger>, f: nat, j: nat)
    requires Confused(orig, f, j)
    ensures j < |orig| && |Survivors(orig, orig[..j + 1])| < |Remaining(orig, orig[..j + 1])|
  {
    PrefixNext(orig, j);
    SurvivorsAre(orig, orig[..j]);
    if |Survivors(orig, orig[..j])| == |Remaining(orig, orig[..j])| {
      SameLength(orig, j);
      FirstCopy(orig, f, j);
    }
  }

  lemma GoesIfDropped(orig: seq<FullTrigger>, t: FullTrigger)
    ensures Dropped(orig, t) ==> forall kept :: Goes(orig, kept, t)
  {
  }

  lemma NothingSeen(orig: seq<FullTrigger>)
    ensures Survivors(orig, orig[..0]) == Remaining(orig, orig[..0]) == []
  {
    assert orig[..0] == [];
  }

  lemma {:induction false} SameLength(orig: seq<FullTrigger>, j: nat)
    requires j <= |orig| && |Survivors(orig, orig[..j])| == |Remaining(orig, orig[..j])|
    ensures Survivors(orig, orig[..j]) == Remaining(orig, orig[..j])
  {
    hide Goes, Dropped, Remaining, Survivors;
    if j == 0 {
      NothingSeen(orig);
    } else {
      GoesIfDropped(orig, orig[j - 1]);
      PrefixNext(orig, j - 1);
      SurvivorsAre(orig, orig[..j - 1]);
      SameLength(orig, j - 1);
    }
  }

  lemma {:induction false} FallsBehind(orig: seq<FullTrigger>, i: nat, j: nat)
    requires i <= j <= |orig| && |Survivors(orig, orig[..i])| < |Remaining(orig, orig[..i])|
    ensures |Survivors(orig, orig[..j])| < |Remaining(orig, orig[..j])|
  {
    hide Goes, Dropped, Remaining, Survivors;
    if i < j {
      GoesIfDropped(orig, orig[j - 1]);
      FallsBehind(orig, i, j - 1);
      PrefixNext(orig, j - 1);
    }
  }

  /** The state of the compaction: `orig[..j]` was seen, what was kept of it is in front. */
  ghost predicate Compacting(orig: seq<FullTrigger>, now: seq<FullTrigger>, i: nat, j: nat) {
    && i <= j <= |orig| == |now|
    && (forall k :: i <= k < |orig| ==> now[k] == orig[k])
    && now[..i] == Survivors(orig, orig[..j])
  }

  /** The flag found for the trigger at j, at its first position now, says whether it goes. */
  lemma FlagIs(orig: seq<FullTrigger>, now: seq<FullTrigger>, i: nat, j: nat, k: nat)
    requires Compacting(orig, now, i, j) && j < |orig| && k < |orig| && now[k] == orig[j] && orig[j] !in now[..k]
    ensures Dropped(orig, orig[k]) <==> Goes(orig, Survivors(orig, orig[..j]), orig[j])
  {
    hide Dropped;
    var t, kept := orig[j], now[..i];
    SurvivorsAre(orig, orig[..j]);
    assert now[j] == t;
    if k < i {
      assert kept[k] == t && kept[..k] == now[..k];
      FirstIs(kept, t, k);
    } else {
      assert kept == now[..k][..i];
      assert t !in kept;
    }
  }

  lemma KeepOne(orig: seq<FullTrigger>, now: seq<FullTrigger>, i: nat, j: nat)
    requires Compacting(orig, now, i, j) && j < |orig| && !Goes(orig, Survivors(orig, orig[..j]), orig[j])
    ensures i < |now| && Compacting(orig, now[i := orig[j]], i + 1, j + 1)
  {
    hide Goes;
    PrefixNext(orig, j);
    assert now[i := orig[j]][..i + 1] == now[..i] + [orig[j]];
  }

  lemma DropOne(orig: seq<FullTrigger>, now: seq<FullTrigger>, i: nat, j: nat)
    requires Compacting(orig, now, i, j) && j < |orig| && Goes(orig, Survivors(orig, orig[..j]), orig[j])
    ensures Compacting(orig, now, i, j + 1)
  {
    hide Goes;
    PrefixNext(orig, j);
  }

  /** The filter. The position of a trigger is looked up in the slice that is being compacted, so a
      repetition may be judged by the trigger whose place its first copy took. */
  method FilterInPlace(a: array<FullTrigger>) returns (n: nat)
    modifies a
    ensures n <= a.Length
    ensures a[..n] == Survivors(old(a[..]), old(a[..]))
    ensures forall t :: t in a[..n] <==> t in old(a[..]) && !Dropped(old(a[..]), t)
    ensures a[..n] == Remaining(old(a[..]), old(a[..])) <==> forall f, j :: !Confused(old(a[..]), f, j)
    ensures Distinct(old(a[..])) ==> a[..n] == Remaining(old(a[..]), old(a[..]))
  {
    ghost var orig := a[..];
    var deleted := MarkDeleted(a[..]);
    hide Compacting, Dropped, Survivors, Goes, Remaining, Confused, Distinct;
    CompactingFirst(orig);
    n := 0;
    while n < a.Length
      invariant n <= a.Length && Compacting(orig, a[..], n, n) && a[..] == orig
    {
      var delete := DeletesAt(orig, deleted, a, n, n);
      if delete {
        break;
      }
      KeepOne(orig, a[..], n, n);
      assert a[..] == a[..][n := orig[n]];
      n := n + 1;
    }
    for j := n to a.Length
      invariant n <= j && Compacting(orig, a[..], n, j)
    {
      n := Compact(orig, deleted, a, n, j);
    }
    Compacted(orig, a[..], n);
    assert a[..][..n] == a[..n];
  }

  method Compact(ghost orig: seq<FullTrigger>, deleted: set<nat>, a: array<FullTrigger>, i: nat, j: nat)
    returns (i': nat)
    requires Marks(deleted, orig) && i <= j < a.Length && Compacting(orig, a[..], i, j)
    modifies a
    ensures i' <= j + 1 && Compacting(orig, a[..], i', j + 1)
  {
    hide Compacting, Dropped, Survivors, Goes, Remaining, Confused, Distinct;
    var delete := DeletesAt(orig, deleted, a, i, j);
    if delete {
      return i;
    }
    CompactingParts(orig, a[..], i, j);
    KeepOne(orig, a[..], i, j);
    ghost var next := a[..][i := orig[j]];
    assert a[..][j] == orig[j];
    a[i] := a[j];
    assert a[..] == next;
    return i + 1;
  }

  /** Whether the trigger at j goes; deleting what may go keeps the state. */
  method DeletesAt(ghost orig: seq<FullTrigger>, deleted: set<nat>, a: array<FullTrigger>, i: nat, j: nat)
    returns (delete: bool)
    requires Marks(deleted, orig) && j < a.Length && Compacting(orig, a[..], i, j)
    ensures delete ==> Compacting(orig, a[..], i, j + 1)
    ensures !delete ==> !Goes(orig, Survivors(orig, orig[..j]), orig[j])
  {
    hide Compacting, Dropped, Survivors, Goes, Remaining, Confused, Distinct;
    CompactingParts(orig, a[..], i, j);
    assert a[..][j] == orig[j];
    var k := IndexOf(a, a[j]);
    assert a[..][..k] == a[..k];
    FlagIs(orig, a[..], i, j, k);
    delete := k in deleted;
    if delete {
      DropOne(orig, a[..], i, j);
    }
  }

  lemma CompactingFirst(orig: seq<FullTrigger>)
    ensures Compacting(orig, orig, 0, 0)
  {
  }

  lemma CompactingParts(orig: seq<FullTrigger>, now: seq<FullTrigger>, i: nat, j: nat)
    requires Compacting(orig, now, i, j)
    ensures i <= j <= |orig| == |now| && forall k :: i <= k < |orig| ==> now[k] == orig[k]
  {
  }

  lemma Compacted(orig: seq<FullTrigger>, now: seq<FullTrigger>, i: nat)
    requires Compacting(orig, now, i, |orig|)
    ensures i <= |now| && now[..i] == Survivors(orig, orig)
    ensures forall t :: t in now[..i] <==> t in orig && !Dropped(orig, t)
    ensures now[..i] == Remaining(orig, orig) <==> forall f, j :: !Confused(orig, f, j)
    ensures Distinct(orig) ==> now[..i] == Remaining(orig, orig)
  {
    assert Distinct(orig) ==> forall f, j :: !Confused(orig, f, j);
    hide Dropped, Confused, Distinct;
    assert orig[..|orig|] == orig;
    SurvivorsAre(orig, orig);
    SurvivorsExactly(orig);
  }
}
