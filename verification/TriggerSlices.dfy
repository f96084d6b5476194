// Merging and comparing slices of triggers (annotation/consume_trigger.go, annotation/full_trigger.go).
module TriggerSlices {
  import opened Annotation

  /** What a merge keeps of a consumer: the guards it passed and whether they were matched. */
  datatype Guarding = Guarding(guards: set<nat>, matched: bool)

  /** `key` stands for the consumed expression and the class of equal annotations. */
  datatype Consumer = Consumer(key: nat, guarding: Guarding)

  function Both(a: Guarding, b: Guarding): Guarding {
    Guarding(a.guards * b.guards, a.matched && b.matched)
  }

  /** What is guarded only on one of two branches is not guarded before them. */
  function Join(a: Option<Guarding>, b: Option<Guarding>): Option<Guarding> {
    if a.None? then b else if b.None? then a else Some(Both(a.value, b.value))
  }

  lemma JoinLaws(a: Option<Guarding>, b: Option<Guarding>, c: Option<Guarding>)
    ensures Join(a, b) == Join(b, a)
    ensures Join(Join(a, b), c) == Join(a, Join(b, c))
    ensures Join(a, a) == a
  {
    if a.Some? && b.Some? && c.Some? {
      assert (a.value.guards * b.value.guards) * c.value.guards == a.value.guards * (b.value.guards * c.value.guards);
    }
    if a.Some? {
      assert a.value.guards * a.value.guards == a.value.guards;
    }
    if a.Some? && b.Some? {
      assert a.value.guards * b.value.guards == b.value.guards * a.value.guards;
    }
  }

  function Single(c: Consumer, k: nat): Option<Guarding> {
    if c.key == k then Some(c.guarding) else None
  }

  /** What a slice says about a key. */
  function Meaning(cs: seq<Consumer>, k: nat): Option<Guarding> {
    if cs == [] then None else Join(Meaning(cs[..|cs| - 1], k), Single(cs[|cs| - 1], k))
  }

  lemma MeaningOn(cs: seq<Consumer>, c: Consumer, k: nat)
    ensures Meaning(cs + [c], k) == Join(Meaning(cs, k), Single(c, k))
  {
    assert (cs + [c])[..|cs|] == cs;
  }

  ghost predicate DistinctKeys(cs: seq<Consumer>) {
    forall x, y :: 0 <= x < y < |cs| ==> cs[x].key != cs[y].key
  }

  lemma {:induction false} MeaningNone(cs: seq<Consumer>, k: nat)
    requires forall x :: 0 <= x < |cs| ==> cs[x].key != k
    ensures Meaning(cs, k) == None
  {
    if cs != [] {
      MeaningNone(cs[..|cs| - 1], k);
    }
  }

  /** Without repeated keys, the meaning is what is listed. */
  lemma {:induction false} MeaningAt(cs: seq<Consumer>, x: nat)
    requires DistinctKeys(cs) && x < |cs|
    ensures Meaning(cs, cs[x].key) == Some(cs[x].guarding)
  {
    var front := cs[..|cs| - 1];
    if x < |cs| - 1 {
      MeaningAt(front, x);
    } else {
      MeaningNone(front, cs[x].key);
    }
  }

  lemma MeaningIs(cs: seq<Consumer>, k: nat)
    requires DistinctKeys(cs)
    ensures Meaning(cs, k).Some? <==> exists c :: c in cs && c.key == k
    ensures forall c :: c in cs && c.key == k ==> Meaning(cs, k) == Some(c.guarding)
    ensures Meaning(cs, k).Some? ==> Consumer(k, Meaning(cs, k).value) in cs
  {
    if x :| 0 <= x < |cs| && cs[x].key == k {
      MeaningAt(cs, x);
      assert cs[x] == Consumer(k, Meaning(cs, k).value);
      forall c | c in cs && c.key == k ensures c == cs[x] {
        var y :| 0 <= y < |cs| && cs[y] == c;
      }
    } else {
      MeaningNone(cs, k);
    }
  }

  lemma MeaningUpdated(out: seq<Consumer>, i: nat, c: Consumer, k: nat)
    requires DistinctKeys(out) && i < |out| && out[i].key == c.key
    ensures DistinctKeys(out[i := Consumer(c.key, Both(out[i].guarding, c.guarding))])
    ensures Meaning(out[i := Consumer(c.key, Both(out[i].guarding, c.guarding))], k) ==
      Join(Meaning(out, k), Single(c, k))
  {
    var out' := out[i := Consumer(c.key, Both(out[i].guarding, c.guarding))];
    if k == c.key {
      MeaningAt(out, i);
      MeaningAt(out', i);
    } else if x :| 0 <= x < |out| && out[x].key == k {
      MeaningAt(out, x);
      MeaningAt(out', x);
    } else {
      MeaningNone(out, k);
      MeaningNone(out', k);
    }
  }

  /** Positions are kept. */
  ghost predicate SameStart(out: seq<Consumer>, out': seq<Consumer>) {
    |out| <= |out'| && forall i :: 0 <= i < |out| ==> out'[i].key == out[i].key
  }

  method AddToOut(out: seq<Consumer>, c: Consumer) returns (out': seq<Consumer>)
    requires DistinctKeys(out)
    ensures DistinctKeys(out') && SameStart(out, out')
    ensures (forall i :: 0 <= i < |out| ==> out[i].key != c.key) ==> out' == out + [c]
    ensures forall k :: Meaning(out', k) == Join(Meaning(out, k), Single(c, k))
  {
    for i := 0 to |out|
      invariant forall x :: 0 <= x < i ==> out[x].key != c.key
    {
      if out[i].key == c.key {
        forall k {
          MeaningUpdated(out, i, c, k);
        }
        return out[i := Consumer(c.key, Both(out[i].guarding, c.guarding))];
      }
    }
    forall k {
      MeaningOn(out, c, k);
    }
    return out + [c];
  }

  /** The union of both, each key once, guards intersected. */
  method MergeConsumeTriggerSlices(left: seq<Consumer>, right: seq<Consumer>) returns (out: seq<Consumer>)
    ensures DistinctKeys(out)
    ensures forall k :: Meaning(out, k) == Join(Meaning(left, k), Meaning(right, k))
    ensures DistinctKeys(left) ==> SameStart(left, out)
  {
    hide Join, DistinctKeys;
    out := [];
    NoKeys();
    for i := 0 to |left|
      invariant DistinctKeys(out)
      invariant DistinctKeys(left) ==> out == left[..i]
      invariant forall k :: Meaning(out, k) == Meaning(left[..i], k)
    {
      KeyIsNew(left, i);
      out := AddToOut(out, left[i]);
      assert left[..i + 1] == left[..i] + [left[i]];
      forall k ensures Meaning(out, k) == Meaning(left[..i + 1], k) {
        MeaningOn(left[..i], left[i], k);
      }
    }
    assert left[..|left|] == left;
    JoinNone();
    for i := 0 to |right|
      invariant DistinctKeys(out) && (DistinctKeys(left) ==> SameStart(left, out))
      invariant forall k :: Meaning(out, k) == Join(Meaning(left, k), Meaning(right[..i], k))
    {
      out := AddToOut(out, right[i]);
      assert right[..i + 1] == right[..i] + [right[i]];
      forall k ensures Meaning(out, k) == Join(Meaning(left, k), Meaning(right[..i + 1], k)) {
        MeaningOn(right[..i], right[i], k);
        JoinLaws(Meaning(left, k), Meaning(right[..i], k), Single(right[i], k));
      }
    }
    assert right[..|right|] == right;
  }

  lemma KeyIsNew(cs: seq<Consumer>, i: nat)
    requires i < |cs|
    ensures DistinctKeys(cs) ==> forall j :: 0 <= j < i ==> cs[..i][j].key != cs[i].key
  {
  }

  lemma NoKeys()
    ensures DistinctKeys([])
  {
  }

  lemma JoinNone()
    ensures forall a :: Join(a, None) == a && Join(None, a) == a
  {
  }

  function Guarded(c: Consumer, guards: set<nat>): Consumer {
    c.(guarding := c.guarding.(guards := c.guarding.guards + guards))
  }

  ghost function AllGuarded(cs: seq<Consumer>, guards: set<nat>): seq<Consumer> {
    if cs == [] then [] else AllGuarded(cs[..|cs| - 1], guards) + [Guarded(cs[|cs| - 1], guards)]
  }

  /** Every consumer passes the guards too. */
  method ConsumeTriggerSliceAsGuarded(cs: seq<Consumer>, guards: set<nat>) returns (out: seq<Consumer>)
    ensures out == AllGuarded(cs, guards)
  {
    out := [];
    for i := 0 to |cs|
      invariant out == AllGuarded(cs[..i], guards)
    {
      assert cs[..i + 1][..i] == cs[..i];
      out := out + [Consumer(cs[i].key, Guarding(cs[i].guarding.guards + guards, cs[i].guarding.matched))];
    }
    assert cs[..|cs|] == cs;
  }

  ghost function MoreGuards(g: Option<Guarding>, guards: set<nat>): Option<Guarding> {
    if g.None? then None else Some(g.value.(guards := g.value.guards + guards))
  }

  lemma MoreGuardsJoin(a: Option<Guarding>, b: Option<Guarding>, guards: set<nat>)
    ensures MoreGuards(Join(a, b), guards) == Join(MoreGuards(a, guards), MoreGuards(b, guards))
  {
    if a.Some? && b.Some? {
      assert a.value.guards * b.value.guards + guards == (a.value.guards + guards) * (b.value.guards + guards);
    }
  }

  lemma {:induction false} GuardedMeaning(cs: seq<Consumer>, guards: set<nat>, k: nat)
    ensures Meaning(AllGuarded(cs, guards), k) == MoreGuards(Meaning(cs, k), guards)
  {
    if cs != [] {
      var front, last := cs[..|cs| - 1], cs[|cs| - 1];
      GuardedMeaning(front, guards, k);
      MeaningOn(AllGuarded(front, guards), Guarded(last, guards), k);
      MoreGuardsJoin(Meaning(front, k), Single(last, k), guards);
    }
  }

  /** Guarding what was merged is merging what was guarded. */
  lemma GuardingDistributes(left: seq<Consumer>, right: seq<Consumer>, merged: seq<Consumer>, guards: set<nat>, k: nat)
    requires Meaning(merged, k) == Join(Meaning(left, k), Meaning(right, k))
    ensures Meaning(AllGuarded(merged, guards), k) ==
      Join(Meaning(AllGuarded(left, guards), k), Meaning(AllGuarded(right, guards), k))
  {
    GuardedMeaning(left, guards, k);
    GuardedMeaning(right, guards, k);
    GuardedMeaning(merged, guards, k);
    MoreGuardsJoin(Meaning(left, k), Meaning(right, k), guards);
  }

  predicate Within<T(==)>(left: seq<T>, right: seq<T>) {
    forall l :: l in left ==> l in right
  }

  /** Compares lengths and looks each of `left` up in `right`. */
  method ConsumeTriggerSlicesEq(left: seq<Consumer>, right: seq<Consumer>) returns (eq: bool)
    ensures eq <==> |left| == |right| && Within(left, right)
  {
    if |left| != |right| {
      return false;
    }
    for i := 0 to |left|
      invariant forall x :: 0 <= x < i ==> left[x] in right
    {
      var found := false;
      for j := 0 to |right|
        invariant !found && left[i] !in right[..j]
      {
        if left[i] == right[j] {
          found := true;
          break;
        }
      }
      if !found {
        assert left[i] in left && right[..|right|] == right;
        return false;
      }
    }
    return true;
  }

  ghost predicate NoDuplicates<T>(cs: seq<T>) {
    forall x, y :: 0 <= x < y < |cs| ==> cs[x] != cs[y]
  }

  ghost predicate SameElements(left: seq<Consumer>, right: seq<Consumer>) {
    Within(left, right) && Within(right, left)
  }

  lemma {:induction false} NoMoreThan<T>(left: seq<T>, right: seq<T>)
    requires NoDuplicates(left) && Within(left, right)
    ensures |left| <= |right|
    ensures |left| == |right| ==> Within(right, left)
  {
    if left != [] {
      var last := left[|left| - 1];
      var front := left[..|left| - 1];
      assert last in left && left == front + [last];
      var j :| 0 <= j < |right| && right[j] == last;
      var rest := right[..j] + right[j + 1..];
      assert right == right[..j] + [last] + right[j + 1..];
      forall l | l in front ensures l in rest {
        assert l in left;
      }
      NoMoreThan(front, rest);
      if |left| == |right| {
        forall r | r in right ensures r in left {
          assert r in rest || r == last;
        }
      }
    }
  }

  /** On slices without duplicates, the comparison decides equality of the sets. */
  lemma SlicesEqIsSetEq(left: seq<Consumer>, right: seq<Consumer>)
    requires NoDuplicates(left) && NoDuplicates(right)
    ensures |left| == |right| && Within(left, right) <==> SameElements(left, right)
  {
    hide NoDuplicates, Within;
    if Within(left, right) {
      NoMoreThan(left, right);
    }
    if Within(right, left) {
      NoMoreThan(right, left);
    }
  }

  /** With duplicates on the left it may pass slices of different elements. */
  lemma DuplicatesMislead(a: Consumer, b: Consumer)
    requires a != b
    ensures |[a, a]| == |[a, b]| && Within([a, a], [a, b]) && !SameElements([a, a], [a, b])
  {
    assert b in [a, b] && b !in [a, a];
  }

  lemma DistinctKeysNoDuplicates(cs: seq<Consumer>)
    requires DistinctKeys(cs)
    ensures NoDuplicates(cs)
  {
  }

  ghost predicate SameMeaning(left: seq<Consumer>, right: seq<Consumer>) {
    forall k :: Meaning(left, k) == Meaning(right, k)
  }

  /** On slices with distinct keys, equality means meaning the same. */
  lemma SlicesEqIsSameMeaning(left: seq<Consumer>, right: seq<Consumer>)
    requires DistinctKeys(left) && DistinctKeys(right)
    ensures |left| == |right| && Within(left, right) <==> SameMeaning(left, right)
  {
    DistinctKeysNoDuplicates(left);
    DistinctKeysNoDuplicates(right);
    SlicesEqIsSetEq(left, right);
    hide DistinctKeys, NoDuplicates;
    if SameElements(left, right) {
      forall k ensures Meaning(left, k) == Meaning(right, k) {
        SameElementsMeaning(left, right, k);
      }
    }
    if SameMeaning(left, right) {
      SameMeaningWithin(left, right);
      SameMeaningWithin(right, left);
    }
  }

  lemma SameElementsMeaning(left: seq<Consumer>, right: seq<Consumer>, k: nat)
    requires DistinctKeys(left) && DistinctKeys(right) && SameElements(left, right)
    ensures Meaning(left, k) == Meaning(right, k)
  {
    hide DistinctKeys, Meaning;
    MeaningIs(left, k);
    MeaningIs(right, k);
  }

  lemma SameMeaningWithin(left: seq<Consumer>, right: seq<Consumer>)
    requires DistinctKeys(left) && DistinctKeys(right)
    requires SameMeaning(left, right)
    ensures Within(left, right)
  {
    forall l | l in left ensures l in right {
      MeaningIs(left, l.key);
      MeaningIs(right, l.key);
    }
  }

  /** A full trigger; `producer` stands for the class of equal producing annotations. */
  datatype Full = Full(producer: nat, consumer: Consumer) {
    /** What `equals` compares: guards are not among it. */
    function Id(): (nat, nat, bool) {
      (producer, consumer.key, consumer.guarding.matched)
    }

    /** What `equalsModuloGuardMatched` compares. */
    function Pair(): (nat, nat) {
      (producer, consumer.key)
    }
  }

  ghost function Ids(ts: seq<Full>): multiset<(nat, nat, bool)> {
    if ts == [] then multiset{} else Ids(ts[..|ts| - 1]) + multiset{ts[|ts| - 1].Id()}
  }

  lemma IdsOn(ts: seq<Full>, t: Full)
    ensures Ids(ts + [t]) == Ids(ts) + multiset{t.Id()}
  {
    assert (ts + [t])[..|ts|] == ts;
  }

  lemma {:induction false} IdsSize(ts: seq<Full>)
    ensures |Ids(ts)| == |ts|
  {
    if ts != [] {
      IdsSize(ts[..|ts| - 1]);
    }
  }

  /** The identities at the positions where `matched` is `want`. */
  ghost function Picked(ts: seq<Full>, matched: seq<bool>, want: bool): multiset<(nat, nat, bool)>
    requires |matched| == |ts|
  {
    if ts == [] then multiset{}
    else
      Picked(ts[..|ts| - 1], matched[..|ts| - 1], want) +
      if matched[|ts| - 1] == want then multiset{ts[|ts| - 1].Id()} else multiset{}
  }

  lemma {:induction false} PickedSplit(ts: seq<Full>, matched: seq<bool>)
    requires |matched| == |ts|
    ensures Picked(ts, matched, true) + Picked(ts, matched, false) == Ids(ts)
  {
    if ts != [] {
      PickedSplit(ts[..|ts| - 1], matched[..|ts| - 1]);
    }
  }

  lemma {:induction false} PickedNone(ts: seq<Full>, matched: seq<bool>)
    requires |matched| == |ts| && forall j :: 0 <= j < |ts| ==> !matched[j]
    ensures Picked(ts, matched, true) == multiset{}
  {
    if ts != [] {
      PickedNone(ts[..|ts| - 1], matched[..|ts| - 1]);
    }
  }

  lemma {:induction false} PickedMore(ts: seq<Full>, matched: seq<bool>, j: nat)
    requires |matched| == |ts| && j < |ts| && !matched[j]
    ensures Picked(ts, matched[j := true], true) == Picked(ts, matched, true) + multiset{ts[j].Id()}
  {
    var n := |ts| - 1;
    if j < n {
      PickedMore(ts[..n], matched[..n], j);
      assert matched[j := true][..n] == matched[..n][j := true];
    } else {
      assert matched[j := true][..n] == matched[..n];
    }
  }

  /** An identity that no open position has is not left open. */
  lemma {:induction false} NotOpen(ts: seq<Full>, matched: seq<bool>, id: (nat, nat, bool))
    requires |matched| == |ts| && forall j :: 0 <= j < |ts| && !matched[j] ==> ts[j].Id() != id
    ensures id !in Picked(ts, matched, false)
  {
    if ts != [] {
      NotOpen(ts[..|ts| - 1], matched[..|ts| - 1], id);
    }
  }

  /** `taken` of the right side is matched with the left side so far, and nothing more could be. */
  ghost predicate Greedy(seen: multiset<(nat, nat, bool)>, taken: multiset<(nat, nat, bool)>,
                         all: multiset<(nat, nat, bool)>)
  {
    && taken <= seen && taken <= all
    && forall id :: taken[id] < seen[id] ==> taken[id] == all[id]
  }

  lemma GreedyMatched(seen: multiset<(nat, nat, bool)>, taken: multiset<(nat, nat, bool)>,
                      all: multiset<(nat, nat, bool)>,
                      id: (nat, nat, bool))
    requires Greedy(seen, taken, all) && taken[id] < all[id]
    ensures Greedy(seen + multiset{id}, taken + multiset{id}, all)
  {
  }

  lemma GreedyUnmatched(seen: multiset<(nat, nat, bool)>, taken: multiset<(nat, nat, bool)>,
                        all: multiset<(nat, nat, bool)>,
                        id: (nat, nat, bool))
    requires Greedy(seen, taken, all) && taken[id] == all[id]
    ensures Greedy(seen + multiset{id}, taken, all)
  {
  }

  lemma SubSize(a: multiset<(nat, nat, bool)>, b: multiset<(nat, nat, bool)>)
    requires a <= b && |a| == |b|
    ensures a == b
  {
    assert b == a + (b - a);
  }

  lemma GreedyEnd(seen: multiset<(nat, nat, bool)>, taken: multiset<(nat, nat, bool)>, all: multiset<(nat, nat, bool)>)
    requires Greedy(seen, taken, all) && |seen| == |all|
    ensures |taken| == |seen| <==> seen == all
  {
    if |taken| == |seen| {
      SubSize(taken, seen);
      SubSize(taken, all);
    }
    if seen == all {
      assert taken == seen;
    }
  }

  /** The state of the matcher after `seen` on the left. */
  ghost predicate Matching(right: seq<Full>, matched: seq<bool>, count: nat, seen: seq<Full>) {
    && |matched| == |right|
    && Greedy(Ids(seen), Picked(right, matched, true), Ids(right))
    && count == |Picked(right, matched, true)|
  }

  /** The greedy matcher decides equality as multisets, up to what `equals` compares. */
  method FullTriggerSlicesEq(left: seq<Full>, right: seq<Full>) returns (eq: bool)
    ensures eq <==> Ids(left) == Ids(right)
  {
    hide Matching, Ids;
    if |left| != |right| {
      DifferentLengths(left, right);
      return false;
    }
    var matched, count := seq(|right|, i => false), 0;
    MatchingStart(right, matched);
    assert left[..0] == [];
    for i := 0 to |left|
      invariant |matched| == |right| && Matching(right, matched, count, left[..i])
    {
      matched, count := MatchOne(left[i], right, matched, count, left[..i]);
      assert left[..i + 1] == left[..i] + [left[i]];
    }
    assert left[..|left|] == left;
    eq := count == |left|;
    MatchingEnd(left, right, matched, count);
  }

  lemma DifferentLengths(left: seq<Full>, right: seq<Full>)
    requires |left| != |right|
    ensures Ids(left) != Ids(right)
  {
    IdsSize(left);
    IdsSize(right);
  }

  lemma MatchingStart(right: seq<Full>, matched: seq<bool>)
    requires |matched| == |right| && forall j :: 0 <= j < |right| ==> !matched[j]
    ensures Matching(right, matched, 0, [])
  {
    PickedNone(right, matched);
  }

  lemma MatchingEnd(left: seq<Full>, right: seq<Full>, matched: seq<bool>, count: nat)
    requires Matching(right, matched, count, left) && |left| == |right|
    ensures count == |left| <==> Ids(left) == Ids(right)
  {
    IdsSize(left);
    IdsSize(right);
    GreedyEnd(Ids(left), Picked(right, matched, true), Ids(right));
  }

  method MatchOne(l: Full, right: seq<Full>, matched: seq<bool>, count: nat, ghost seen: seq<Full>)
    returns (matched': seq<bool>, count': nat)
    requires |matched| == |right| && Matching(right, matched, count, seen)
    ensures |matched'| == |right| && Matching(right, matched', count', seen + [l])
  {
    IdsOn(seen, l);
    hide Greedy, Picked, Ids, Full.Id;
    for j := 0 to |right|
      invariant forall x :: 0 <= x < j && !matched[x] ==> right[x].Id() != l.Id()
    {
      if !matched[j] && l.Id() == right[j].Id() {
        OpenAt(right, matched, j);
        PickedMore(right, matched, j);
        GreedyMatched(Ids(seen), Picked(right, matched, true), Ids(right), l.Id());
        return matched[j := true], count + 1;
      }
    }
    NotOpen(right, matched, l.Id());
    PickedSplit(right, matched);
    GreedyUnmatched(Ids(seen), Picked(right, matched, true), Ids(right), l.Id());
    return matched, count;
  }

  lemma OpenAt(ts: seq<Full>, matched: seq<bool>, j: nat)
    requires |matched| == |ts| && j < |ts| && !matched[j]
    ensures Picked(ts, matched, true)[ts[j].Id()] < Ids(ts)[ts[j].Id()]
  {
    PickedMore(ts, matched, j);
    PickedSplit(ts, matched[j := true]);
    assert Picked(ts, matched[j := true], true)[ts[j].Id()] <= Ids(ts)[ts[j].Id()];
  }

  /** Which producer meets which consumer, and for which pairs that happens unmatched. */
  ghost function Facts(ts: seq<Full>): set<(nat, nat)> {
    set t | t in ts :: t.Pair()
  }

  ghost function Bare(ts: seq<Full>): set<(nat, nat)> {
    set t | t in ts && !t.consumer.guarding.matched :: t.Pair()
  }

  ghost predicate DistinctPairs(ts: seq<Full>) {
    forall x, y :: 0 <= x < y < |ts| ==> ts[x].Pair() != ts[y].Pair()
  }

  /** `t` can only have lost its guards. */
  ghost predicate Lowered(t: Full, t': Full) {
    t' == t || (t'.Pair() == t.Pair() && t'.consumer.guarding == Guarding({}, false) && t.consumer.guarding.matched)
  }

  ghost predicate Merged(left: seq<Full>, right: seq<Full>, out: seq<Full>) {
    && |left| <= |out| && (forall i :: 0 <= i < |left| ==> Lowered(left[i], out[i]))
    && (forall i :: |left| <= i < |out| ==> out[i] in right)
    && Facts(out) == Facts(left) + Facts(right) && Bare(out) == Bare(left) + Bare(right)
    && (DistinctPairs(left) && DistinctPairs(right) ==> DistinctPairs(out))
  }

  lemma DistinctPairsUpdated(out: seq<Full>, i: nat, t: Full)
    requires i < |out| && out[i].Pair() == t.Pair()
    ensures DistinctPairs(out) ==> DistinctPairs(out[i := t])
  {
    hide Full.Pair;
  }

  /** What is new on the right differs from all that was appended before. */
  lemma DistinctPairsOn(left: seq<Full>, seen: seq<Full>, out: seq<Full>, r: Full)
    requires |left| <= |out| && DistinctPairs(out) && DistinctPairs(seen + [r])
    requires forall i :: |left| <= i < |out| ==> out[i] in seen
    requires forall i :: 0 <= i < |left| ==> out[i].Pair() != r.Pair()
    ensures DistinctPairs(out + [r])
  {
    forall i | |left| <= i < |out| ensures out[i].Pair() != r.Pair() {
      var j :| 0 <= j < |seen| && seen[j] == out[i];
      assert (seen + [r])[j] == seen[j] && (seen + [r])[|seen|] == r;
    }
    hide Full.Pair;
  }

  lemma DistinctPairsFront(seen: seq<Full>, r: Full)
    requires DistinctPairs(seen + [r])
    ensures DistinctPairs(seen)
  {
    hide Full.Pair;
    assert forall j :: 0 <= j < |seen| ==> (seen + [r])[j] == seen[j];
  }

  lemma FactsOn(ts: seq<Full>, t: Full)
    ensures Facts(ts + [t]) == Facts(ts) + {t.Pair()}
    ensures Bare(ts + [t]) == Bare(ts) + if t.consumer.guarding.matched then {} else {t.Pair()}
  {
    assert forall x :: x in ts + [t] <==> x in ts || x == t;
  }

  lemma FactsUpdated(ts: seq<Full>, i: nat, t: Full)
    requires i < |ts| && t.Pair() == ts[i].Pair() && !t.consumer.guarding.matched
    ensures Facts(ts[i := t]) == Facts(ts) && Bare(ts[i := t]) == Bare(ts) + {t.Pair()}
  {
    var ts' := ts[i := t];
    assert ts'[i] in ts' && ts[i] in ts;
    forall x | x in ts && x != ts[i] ensures x in ts' {
      var j :| 0 <= j < |ts| && ts[j] == x;
      assert ts'[j] == x;
    }
    forall x | x in ts' ensures x in ts || x == t {
    }
  }

  /** The union modulo guards: `left` is updated in place, the rest is appended. */
  method MergeFullTriggers(left: seq<Full>, right: seq<Full>) returns (out: seq<Full>)
    ensures Merged(left, right, out)
  {
    out := left;
    hide Facts, Bare, Full.Pair, DistinctPairs;
    assert Facts([]) == {} && Bare([]) == {} by {
      NoFacts();
    }
    for i := 0 to |right|
      invariant Merged(left, right[..i], out)
    {
      assert right[..i + 1] == right[..i] + [right[i]];
      FactsOn(right[..i], right[i]);
      out := MergeOne(left, right[..i], out, right[i]);
    }
    assert right[..|right|] == right;
  }

  lemma NoFacts()
    ensures Facts([]) == {} && Bare([]) == {}
  {
  }

  method MergeOne(left: seq<Full>, ghost seen: seq<Full>, out: seq<Full>, r: Full) returns (out': seq<Full>)
    requires Merged(left, seen, out)
    ensures Merged(left, seen + [r], out')
  {
    hide Facts, Bare, DistinctPairs;
    FactsOn(seen, r);
    if DistinctPairs(seen + [r]) {
      DistinctPairsFront(seen, r);
    }
    for i := 0 to |left|
      invariant forall x :: 0 <= x < i ==> out[x].Pair() != r.Pair()
    {
      if out[i].Pair() == r.Pair() {
        FactAt(out, i);
        if out[i].consumer.guarding.matched && !r.consumer.guarding.matched {
          out' := out[i := Full(out[i].producer, Consumer(out[i].consumer.key, Guarding({}, false)))];
          FactsUpdated(out, i, out'[i]);
          DistinctPairsUpdated(out, i, out'[i]);
          return;
        }
        return out;
      }
    }
    FactsOn(out, r);
    if DistinctPairs(out) && DistinctPairs(seen + [r]) {
      DistinctPairsOn(left, seen, out, r);
    }
    return out + [r];
  }

  lemma FactAt(ts: seq<Full>, i: nat)
    requires i < |ts|
    ensures ts[i].Pair() in Facts(ts)
    ensures !ts[i].consumer.guarding.matched ==> ts[i].Pair() in Bare(ts)
  {
    assert ts[i] in ts;
  }
}
