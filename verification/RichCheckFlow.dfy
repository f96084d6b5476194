// What the propagation of rich check effects over a control flow graph means
// (assertion/function/assertiontree/rich_check_effect.go): one round as a function on listings, its
// iterates, and which blocks an effect ends up at.
module RichCheckFlow {

  /** An effect is a unique object; only the placeholder is shared. */
  datatype Effect = Noop | Check(id: nat)

  /** How an effect meets a node, and when two effects are worth one. */
  datatype Rules = Rules(invalidates: (Effect, nat) -> bool, equal: (Effect, Effect) -> bool) {
    /** A placeholder is invalidated by nothing, and every effect is equal to itself. */
    ghost predicate Valid() {
      && (forall n :: !invalidates(Noop, n))
      && (forall e :: equal(e, e))
    }
  }

  datatype Block = Block(nodes: seq<nat>, succs: seq<nat>, live: bool)

  type Graph = seq<Block>

  ghost predicate WellFormed(g: Graph) {
    forall b, c :: 0 <= b < |g| && c in g[b].succs ==> c < |g|
  }

  ghost predicate Succ(g: Graph, b: nat, c: nat) {
    b < |g| && c in g[b].succs
  }

  /** A path along successors. */
  ghost predicate Path(g: Graph, w: seq<nat>) {
    && w != []
    && (forall j :: 0 <= j < |w| ==> w[j] < |g|)
    && (forall j :: 0 < j < |w| ==> Succ(g, w[j - 1], w[j]))
  }

  ghost predicate Reaches(g: Graph, a: nat, b: nat) {
    exists w :: Path(g, w) && w[0] == a && w[|w| - 1] == b
  }

  lemma PathOn(g: Graph, w: seq<nat>, c: nat)
    requires Path(g, w) && Succ(g, w[|w| - 1], c) && c < |g|
    ensures Path(g, w + [c])
  {
    hide Succ;
  }

  lemma PathPrefix(g: Graph, w: seq<nat>, j: nat)
    requires Path(g, w) && 0 < j <= |w|
    ensures Path(g, w[..j])
  {
    hide Succ;
  }

  lemma PathSuffix(g: Graph, w: seq<nat>, j: nat)
    requires Path(g, w) && j < |w|
    ensures Path(g, w[j..])
  {
    hide Succ;
    var s := w[j..];
    forall i | 0 < i < |s| ensures Succ(g, s[i - 1], s[i]) {
      assert s[i - 1] == w[j + i - 1] && s[i] == w[j + i];
    }
  }

  /** The effects listed at the end of each block. */
  type Listing = seq<set<Effect>>

  /** What one propagation is about: the graph, the rules, where each effect starts, and which
      blocks each effect can reach at all. */
  datatype Problem = Problem(g: Graph, rules: Rules, start: Listing) {
    ghost predicate Valid() {
      && WellFormed(g) && rules.Valid() && |start| == |g|
      && (forall i, j, e :: 0 <= i < |g| && 0 <= j < |g| && e in start[i] && e in start[j] ==> i == j)
      && (forall i :: 0 <= i < |g| ==> Noop !in start[i])
    }

    /** Edges out of dead blocks are ignored. */
    ghost predicate Pred(p: nat, i: nat) {
      Succ(g, p, i) && g[p].live
    }

    /** Some block that starts `e` reaches `b`. */
    ghost predicate Touches(e: Effect, b: nat) {
      exists a :: 0 <= a < |start| && e in start[a] && Reaches(g, a, b)
    }

    ghost predicate Survives(e: Effect, i: nat)
      requires i < |g|
    {
      forall n :: n in g[i].nodes ==> !rules.invalidates(e, n)
    }

    /** `e` flows into `i`: some predecessor lists it, so does every predecessor that it can reach,
        and no node of `i` invalidates it. */
    ghost predicate Inflow(l: Listing, i: nat, e: Effect)
      requires i < |g| && |l| == |g|
    {
      && (exists p: nat :: Pred(p, i) && e in l[p])
      && (forall p: nat :: Pred(p, i) && Touches(e, p) ==> e in l[p])
      && Survives(e, i)
    }

    /** One round, at one block: membership after it. */
    ghost predicate Next(l: Listing, i: nat, e: Effect)
      requires i < |g| && |l| == |g|
    {
      e in l[i] || Inflow(l, i, e)
    }

    /** `l'` is the listing one round after `l`. */
    ghost predicate Round(l: Listing, l': Listing) {
      && |l| == |g| && |l'| == |g|
      && forall i, e :: 0 <= i < |g| ==> (e in l'[i] <==> Next(l, i, e))
    }

    /** The listings round by round, up to the one where the propagation is. */
    ghost predicate Run(ls: seq<Listing>) {
      && ls != [] && ls[0] == start
      && (forall k :: 0 <= k < |ls| ==> |ls[k]| == |g|)
      && (forall k :: 0 < k < |ls| ==> Round(ls[k - 1], ls[k]))
    }

    ghost predicate Fixed(l: Listing)
      requires |l| == |g|
    {
      forall i, e :: 0 <= i < |g| && Inflow(l, i, e) ==> e in l[i]
    }
  }

  lemma {:induction false} RunGrows(pr: Problem, ls: seq<Listing>, j: nat, k: nat, i: nat, e: Effect)
    requires pr.Valid() && pr.Run(ls) && j <= k < |ls| && i < |pr.g| && e in ls[j][i]
    ensures e in ls[k][i]
    decreases k - j
  {
    if j < k {
      assert pr.Round(ls[j + 1 - 1], ls[j + 1]);
      assert pr.Next(ls[j], i, e);
      RunGrows(pr, ls, j + 1, k, i, e);
    }
  }

  /** The listings of a run stay below every fixed listing above the start. */
  lemma {:induction false} RunIsLeast(pr: Problem, ls: seq<Listing>, k: nat, x: Listing)
    requires pr.Valid() && pr.Run(ls) && k < |ls| && |x| == |pr.g| && pr.Fixed(x)
    requires forall i :: 0 <= i < |pr.g| ==> pr.start[i] <= x[i]
    ensures forall i :: 0 <= i < |pr.g| ==> ls[k][i] <= x[i]
  {
    if k > 0 {
      RunIsLeast(pr, ls, k - 1, x);
      assert pr.Round(ls[k - 1], ls[k]);
      forall i, e | 0 <= i < |pr.g| && e in ls[k][i] ensures e in x[i] {
        assert pr.Next(ls[k - 1], i, e);
        if e !in ls[k - 1][i] {
          InflowMonotone(pr, ls[k - 1], x, i, e);
        }
      }
    }
  }

  lemma InflowMonotone(pr: Problem, l: Listing, x: Listing, i: nat, e: Effect)
    requires pr.Valid() && |l| == |x| == |pr.g| && i < |pr.g|
    requires (forall b :: 0 <= b < |pr.g| ==> l[b] <= x[b]) && pr.Inflow(l, i, e)
    ensures pr.Inflow(x, i, e)
  {
    hide Reaches;
    var p: nat :| pr.Pred(p, i) && e in l[p];
    assert e in x[p];
    forall p: nat | pr.Pred(p, i) && pr.Touches(e, p) ensures e in x[p] {
      assert e in l[p];
    }
  }

  ghost predicate NewAt(ls: seq<Listing>, k: nat, i: nat, e: Effect)
    requires k < |ls| && forall j :: 0 <= j < |ls| ==> i < |ls[j]|
  {
    e in ls[k][i] && (k > 0 ==> e !in ls[k - 1][i])
  }

  /** An effect that arrives in round k + 1 had arrived at some predecessor in round k. */
  lemma NewFrom(pr: Problem, ls: seq<Listing>, k: nat, i: nat, e: Effect) returns (p: nat)
    requires pr.Valid() && pr.Run(ls) && k + 1 < |ls| && i < |pr.g| && NewAt(ls, k + 1, i, e)
    ensures pr.Pred(p, i) && p < |pr.g| && NewAt(ls, k, p, e)
  {
    assert pr.Round(ls[k + 1 - 1], ls[k + 1]) && pr.Next(ls[k], i, e);
    if k == 0 {
      p :| pr.Pred(p, i) && e in ls[k][p];
    } else {
      assert pr.Round(ls[k - 1], ls[k]) && !pr.Next(ls[k - 1], i, e);
      if q: nat :| pr.Pred(q, i) && pr.Touches(e, q) && e !in ls[k - 1][q] {
        p := q;
      } else {
        p :| pr.Pred(p, i) && e in ls[k][p];
      }
    }
  }

  /** So behind it there is a path through k different blocks, along which it arrived round by round. */
  lemma {:induction false} Arrival(pr: Problem, ls: seq<Listing>, k: nat, i: nat, e: Effect) returns (w: seq<nat>)
    requires pr.Valid() && pr.Run(ls) && k < |ls| && i < |pr.g| && NewAt(ls, k, i, e)
    ensures |w| == k + 1 && w[k] == i && Path(pr.g, w)
    ensures forall j :: 0 <= j <= k ==> NewAt(ls, j, w[j], e)
    ensures forall j :: 0 <= j < k ==> pr.g[w[j]].live
  {
    if k == 0 {
      w := [i];
    } else {
      var p := NewFrom(pr, ls, k - 1, i, e);
      var before := Arrival(pr, ls, k - 1, p, e);
      PathOn(pr.g, before, i);
      w := before + [i];
    }
  }

  ghost predicate NoRepeat(w: seq<nat>) {
    forall x, y :: 0 <= x < y < |w| ==> w[x] != w[y]
  }

  lemma ArrivalDiffers(pr: Problem, ls: seq<Listing>, w: seq<nat>, e: Effect)
    requires pr.Valid() && pr.Run(ls) && |w| <= |ls| && (forall j :: 0 <= j < |w| ==> w[j] < |pr.g|)
    requires forall j :: 0 <= j < |w| ==> NewAt(ls, j, w[j], e)
    ensures NoRepeat(w)
  {
    forall x, y | 0 <= x < y < |w| ensures w[x] != w[y] {
      assert NewAt(ls, x, w[x], e) && NewAt(ls, y, w[y], e);
      RunGrows(pr, ls, x, y - 1, w[x], e);
    }
  }

  ghost function Below(n: nat): (r: set<nat>)
    ensures |r| == n && forall b: nat :: b in r <==> b < n
  {
    if n == 0 then {} else Below(n - 1) + {n - 1}
  }

  lemma {:induction false} DifferentIn(w: seq<nat>, s: set<nat>)
    requires NoRepeat(w) && forall j :: 0 <= j < |w| ==> w[j] in s
    ensures |w| <= |s|
  {
    if w != [] {
      var last := w[|w| - 1];
      DifferentIn(w[..|w| - 1], s - {last});
    }
  }

  /** Different blocks of an n-block graph are at most n. */
  lemma Pigeonhole(w: seq<nat>, n: nat)
    requires NoRepeat(w) && forall j :: 0 <= j < |w| ==> w[j] < n
    ensures |w| <= n
  {
    DifferentIn(w, Below(n));
  }

  /** A round that adds anything is not later than the number of blocks allows. */
  lemma GrowthIsEarly(pr: Problem, ls: seq<Listing>, k: nat, i: nat, e: Effect)
    requires pr.Valid() && pr.Run(ls) && k < |ls| && i < |pr.g| && NewAt(ls, k, i, e)
    ensures k < |pr.g|
  {
    var w := Arrival(pr, ls, k, i, e);
    ArrivalDiffers(pr, ls, w, e);
    Pigeonhole(w, |pr.g|);
  }

  /** A path of `e` from its block that does not come back to it. */
  ghost predicate Route(g: Graph, a: nat, w: seq<nat>, i: nat) {
    Path(g, w) && w[0] == a && w[|w| - 1] == i && forall j :: 0 < j < |w| ==> w[j] != a
  }

  /** No block after the first invalidates `e`, and none is passed twice. */
  ghost predicate Harmless(pr: Problem, e: Effect, w: seq<nat>) {
    (forall j :: 0 < j < |w| && w[j] < |pr.g| ==> pr.Survives(e, w[j])) && NoRepeat(w)
  }

  /** A live block's successors are live. */
  ghost predicate LiveClosed(g: Graph) {
    forall b: nat, c: nat :: Succ(g, b, c) && c < |g| && g[b].live ==> g[c].live
  }

  lemma {:induction false} LiveAlong(g: Graph, w: seq<nat>, j: nat)
    requires LiveClosed(g) && Path(g, w) && g[w[0]].live && j < |w|
    ensures g[w[j]].live
  {
    if j > 0 {
      LiveAlong(g, w, j - 1);
    }
  }

  /** The first round in which `e` is listed at `b`. */
  ghost function Rank(ls: seq<Listing>, b: nat, e: Effect, k: nat): (r: nat)
    requires k < |ls| && (forall j :: 0 <= j < |ls| ==> b < |ls[j]|) && e in ls[k][b]
    ensures r <= k && NewAt(ls, r, b, e)
  {
    if k == 0 || e !in ls[k - 1][b] then k else Rank(ls, b, e, k - 1)
  }

  lemma RankLeast(pr: Problem, ls: seq<Listing>, b: nat, e: Effect, k: nat, j: nat)
    requires pr.Valid() && pr.Run(ls) && k < |ls| && j < |ls| && b < |pr.g| && e in ls[k][b] && e in ls[j][b]
    ensures Rank(ls, b, e, k) <= j
  {
    var r := Rank(ls, b, e, k);
    if j < r {
      RunGrows(pr, ls, j, r - 1, b, e);
    }
  }

  /** One step of a route, backwards: the predecessor got the effect strictly before. */
  lemma RankStep(pr: Problem, ls: seq<Listing>, e: Effect, k: nat, p: nat, i: nat)
    requires pr.Valid() && pr.Run(ls) && k < |ls| && i < |pr.g| && p < |pr.g|
    requires pr.Pred(p, i) && pr.Touches(e, p) && e !in pr.start[i] && e in ls[k][i]
    ensures pr.Survives(e, i) && e in ls[k][p]
    ensures Rank(ls, p, e, k) < Rank(ls, i, e, k)
  {
    var r := Rank(ls, i, e, k);
    assert pr.Round(ls[r - 1], ls[r]) && pr.Next(ls[r - 1], i, e);
    assert e in ls[r - 1][p];
    RunGrows(pr, ls, r - 1, k, p, e);
    RankLeast(pr, ls, p, e, k, r - 1);
  }

  lemma RouteFront(pr: Problem, e: Effect, a: nat, w: seq<nat>, i: nat) returns (front: seq<nat>, p: nat)
    requires pr.Valid() && LiveClosed(pr.g) && a < |pr.g| && pr.g[a].live && e in pr.start[a]
    requires Route(pr.g, a, w, i) && |w| > 1
    ensures w == front + [i] && Route(pr.g, a, front, p) && p < |pr.g| && i < |pr.g|
    ensures pr.Pred(p, i) && pr.Touches(e, p) && e !in pr.start[i]
  {
    front, p := w[..|w| - 1], w[|w| - 2];
    PathPrefix(pr.g, w, |w| - 1);
    LiveAlong(pr.g, w, |w| - 2);
    assert Succ(pr.g, w[|w| - 1 - 1], w[|w| - 1]);
    assert Reaches(pr.g, a, p);
  }

  /** Where an effect is listed, every route to it is harmless. */
  lemma {:induction false} RouteIsHarmless(pr: Problem, ls: seq<Listing>, e: Effect, k: nat, a: nat, w: seq<nat>,
                                           i: nat)
    requires pr.Valid() && pr.Run(ls) && k < |ls| && LiveClosed(pr.g)
    requires a < |pr.g| && pr.g[a].live && e in pr.start[a] && Route(pr.g, a, w, i) && e in ls[k][i]
    ensures Harmless(pr, e, w)
    ensures forall j :: 0 <= j < |w| ==> e in ls[k][w[j]] && Rank(ls, w[j], e, k) <= Rank(ls, i, e, k)
    decreases |w|
  {
    if |w| > 1 {
      var front, p := RouteFront(pr, e, a, w, i);
      hide Path, Succ, Reaches, Problem.Run, Problem.Valid, Problem.Touches, Problem.Survives, LiveClosed;
      RankStep(pr, ls, e, k, p, i);
      RouteIsHarmless(pr, ls, e, k, a, front, p);
      HarmlessOn(pr, e, front, i);
    }
  }

  lemma HarmlessOn(pr: Problem, e: Effect, w: seq<nat>, i: nat)
    requires Harmless(pr, e, w) && i < |pr.g| && pr.Survives(e, i) && i !in w
    ensures Harmless(pr, e, w + [i])
  {
  }

  /** A listed effect came along a route. */
  lemma RouteExists(pr: Problem, ls: seq<Listing>, e: Effect, k: nat, a: nat, i: nat) returns (w: seq<nat>)
    requires pr.Valid() && pr.Run(ls) && k < |ls| && a < |pr.g| && i < |pr.g|
    requires e in pr.start[a] && e in ls[k][i]
    ensures Route(pr.g, a, w, i)
  {
    w := Arrival(pr, ls, Rank(ls, i, e, k), i, e);
    ArrivalDiffers(pr, ls, w, e);
    assert NewAt(ls, 0, w[0], e);
  }

  /** `i` can be reached by `e` and every route to it is harmless. */
  ghost predicate Deserves(pr: Problem, e: Effect, a: nat, i: nat) {
    && (exists w :: Route(pr.g, a, w, i))
    && (forall w :: Route(pr.g, a, w, i) ==> Harmless(pr, e, w))
  }

  lemma RouteOn(g: Graph, a: nat, w: seq<nat>, p: nat, i: nat)
    requires Route(g, a, w, p) && Succ(g, p, i) && i < |g| && i != a
    ensures Route(g, a, w + [i], i)
  {
    PathOn(g, w, i);
    hide Path;
  }

  /** What reaches `p` reaches it without coming back to the start. */
  lemma LastRoute(g: Graph, a: nat, w: seq<nat>, p: nat) returns (r: seq<nat>)
    requires Path(g, w) && w[0] == a && w[|w| - 1] == p
    ensures Route(g, a, r, p)
    decreases |w|
  {
    if j :| 0 < j < |w| && w[j] == a {
      PathSuffix(g, w, j);
      r := LastRoute(g, a, w[j..], p);
    } else {
      r := w;
    }
  }

  lemma DeservesBack(pr: Problem, e: Effect, a: nat, p: nat, i: nat)
    requires pr.Valid() && a < |pr.g| && e in pr.start[a] && i != a && i < |pr.g|
    requires pr.Pred(p, i) && pr.Touches(e, p) && Deserves(pr, e, a, i)
    ensures Deserves(pr, e, a, p)
  {
    var b :| 0 <= b < |pr.start| && e in pr.start[b] && Reaches(pr.g, b, p);
    assert b == a;
    var path :| Path(pr.g, path) && path[0] == a && path[|path| - 1] == p;
    var r := LastRoute(pr.g, a, path, p);
    forall w | Route(pr.g, a, w, p) ensures Harmless(pr, e, w) {
      RouteOn(pr.g, a, w, p, i);
      HarmlessFront(pr, e, w, i);
    }
  }

  lemma HarmlessFront(pr: Problem, e: Effect, w: seq<nat>, i: nat)
    requires Harmless(pr, e, w + [i])
    ensures Harmless(pr, e, w)
  {
    var longer := w + [i];
    assert forall j :: 0 <= j < |w| ==> longer[j] == w[j];
  }

  /** A block that deserves `e` and does not get it has a predecessor like that. */
  lemma MissingBack(pr: Problem, l: Listing, e: Effect, a: nat, i: nat) returns (p: nat)
    requires pr.Valid() && |l| == |pr.g| && pr.Fixed(l) && LiveClosed(pr.g)
    requires a < |pr.g| && pr.g[a].live && e in pr.start[a] && e in l[a]
    requires i < |pr.g| && i != a && Deserves(pr, e, a, i) && e !in l[i]
    ensures p < |pr.g| && p != a && pr.Pred(p, i) && Deserves(pr, e, a, p) && e !in l[p]
  {
    var w :| Route(pr.g, a, w, i);
    assert Harmless(pr, e, w) && |w| > 1;
    var q := w[|w| - 2];
    assert Succ(pr.g, w[|w| - 1 - 1], w[|w| - 1]);
    LiveAlong(pr.g, w, |w| - 2);
    PathPrefix(pr.g, w, |w| - 1);
    assert Reaches(pr.g, a, q) by {
      assert w[..|w| - 1][|w| - 2] == q;
    }
    assert pr.Survives(e, w[|w| - 1]);
    assert !pr.Inflow(l, i, e);
    if e !in l[q] {
      p := q;
    } else {
      p :| pr.Pred(p, i) && pr.Touches(e, p) && e !in l[p];
    }
    DeservesBack(pr, e, a, p, i);
  }

  /** Such predecessors can be followed back until a route to `i` repeats a block. */
  lemma {:induction false} NothingMissing(pr: Problem, l: Listing, e: Effect, a: nat, i: nat, p: nat, tail: seq<nat>)
    requires pr.Valid() && |l| == |pr.g| && pr.Fixed(l) && LiveClosed(pr.g)
    requires a < |pr.g| && pr.g[a].live && e in pr.start[a] && e in l[a]
    requires i < |pr.g| && i != a && Deserves(pr, e, a, i)
    requires p < |pr.g| && p != a && Deserves(pr, e, a, p) && e !in l[p]
    requires Path(pr.g, [p] + tail) && ([p] + tail)[|tail|] == i && a !in tail
    ensures false
    decreases |pr.g| - |tail|
  {
    var w :| Route(pr.g, a, w, p);
    RouteJoin(pr.g, a, w, p, tail, i);
    assert Harmless(pr, e, w + tail);
    Pigeonhole(w + tail, |pr.g|);
    var q := MissingBack(pr, l, e, a, p);
    PathBack(pr.g, q, [p] + tail);
    assert [q] + ([p] + tail) == [q, p] + tail;
    NothingMissing(pr, l, e, a, i, q, [p] + tail);
  }

  lemma PathBack(g: Graph, q: nat, w: seq<nat>)
    requires Path(g, w) && q < |g| && Succ(g, q, w[0])
    ensures Path(g, [q] + w)
  {
    hide Succ;
    var longer := [q] + w;
    assert forall j :: 0 < j < |longer| ==> longer[j] == w[j - 1];
  }

  lemma RouteJoin(g: Graph, a: nat, w: seq<nat>, p: nat, tail: seq<nat>, i: nat)
    requires Route(g, a, w, p) && Path(g, [p] + tail) && ([p] + tail)[|tail|] == i && a !in tail
    ensures Route(g, a, w + tail, i)
  {
    hide Succ;
    var joined, back := w + tail, [p] + tail;
    forall j | 0 < j < |joined| ensures Succ(g, joined[j - 1], joined[j]) && joined[j] != a {
      if j >= |w| {
        assert joined[j - 1] == back[j - |w|] && joined[j] == back[j - |w| + 1];
      }
    }
    forall j | 0 <= j < |joined| ensures joined[j] < |g| {
      if j >= |w| {
        assert joined[j] == back[j - |w| + 1];
      }
    }
  }

  /** Exactly where a propagation ends: at its own block, and at the blocks that it can reach and to
      which every route is harmless. */
  lemma FixedIsExact(pr: Problem, ls: seq<Listing>, e: Effect, a: nat, i: nat)
    requires pr.Valid() && pr.Run(ls) && pr.Fixed(ls[|ls| - 1]) && LiveClosed(pr.g)
    requires a < |pr.g| && pr.g[a].live && e in pr.start[a] && i < |pr.g|
    ensures e in ls[|ls| - 1][i] <==> i == a || Deserves(pr, e, a, i)
  {
    var k := |ls| - 1;
    RunGrows(pr, ls, 0, k, a, e);
    if i != a && e in ls[k][i] {
      var r := RouteExists(pr, ls, e, k, a, i);
      forall w | Route(pr.g, a, w, i) ensures Harmless(pr, e, w) {
        RouteIsHarmless(pr, ls, e, k, a, w, i);
      }
    }
    if i != a && Deserves(pr, e, a, i) && e !in ls[k][i] {
      NothingMissing(pr, ls[k], e, a, i, i, []);
    }
  }

  /** On graphs without cycles, a block gets an effect exactly if it can be reached and no block
      between invalidates the effect on any route. */
  lemma AcyclicIsExact(pr: Problem, ls: seq<Listing>, e: Effect, a: nat, i: nat)
    requires pr.Valid() && pr.Run(ls) && pr.Fixed(ls[|ls| - 1]) && LiveClosed(pr.g)
    requires a < |pr.g| && pr.g[a].live && e in pr.start[a] && i < |pr.g| && i != a
    requires forall w :: Path(pr.g, w) ==> NoRepeat(w)
    ensures e in ls[|ls| - 1][i] <==>
      (exists w :: Route(pr.g, a, w, i)) &&
      (forall w, j :: Route(pr.g, a, w, i) && 0 < j < |w| ==> pr.Survives(e, w[j]))
  {
    FixedIsExact(pr, ls, e, a, i);
  }

  /** Effects of dead blocks stay there. */
  lemma {:induction false} DeadStays(pr: Problem, ls: seq<Listing>, e: Effect, a: nat, k: nat, i: nat)
    requires pr.Valid() && pr.Run(ls) && k < |ls| && a < |pr.g| && i < |pr.g|
    requires !pr.g[a].live && e in pr.start[a] && e in ls[k][i]
    ensures i == a
  {
    if k > 0 {
      assert pr.Round(ls[k - 1], ls[k]) && pr.Next(ls[k - 1], i, e);
      if e in ls[k - 1][i] {
        DeadStays(pr, ls, e, a, k - 1, i);
      } else {
        var p: nat :| pr.Pred(p, i) && e in ls[k - 1][p];
        DeadStays(pr, ls, e, a, k - 1, p);
      }
    }
  }

  /** The documented criterion: `i` can be reached and no path to it invalidates `e`. */
  ghost predicate AllPaths(pr: Problem, e: Effect, a: nat, i: nat) {
    && (exists w :: Route(pr.g, a, w, i))
    && (forall w, j :: Route(pr.g, a, w, i) && 0 < j < |w| && w[j] < |pr.g| ==> pr.Survives(e, w[j]))
  }

  /** No way from `a` to `i` passes a block twice. */
  ghost predicate NoCycleBetween(g: Graph, a: nat, i: nat) {
    forall w :: Route(g, a, w, i) ==> NoRepeat(w)
  }

  lemma DeservesIs(pr: Problem, e: Effect, a: nat, i: nat)
    ensures Deserves(pr, e, a, i) <==> AllPaths(pr, e, a, i) && NoCycleBetween(pr.g, a, i)
  {
    hide Route, NoRepeat, Problem.Survives;
  }

  /** The documented criterion is met exactly where no cycle lies between: what is listed meets it,
      but behind a cycle, and at every block on one, nothing from before the cycle is ever listed. */
  lemma DocumentedUnlessCycle(pr: Problem, ls: seq<Listing>, e: Effect, a: nat, i: nat)
    requires pr.Valid() && pr.Run(ls) && pr.Fixed(ls[|ls| - 1]) && LiveClosed(pr.g)
    requires a < |pr.g| && pr.g[a].live && e in pr.start[a] && i < |pr.g| && i != a
    ensures e in ls[|ls| - 1][i] ==> AllPaths(pr, e, a, i)
    ensures NoCycleBetween(pr.g, a, i) ==> (AllPaths(pr, e, a, i) <==> e in ls[|ls| - 1][i])
    ensures !NoCycleBetween(pr.g, a, i) ==> e !in ls[|ls| - 1][i]
  {
    FixedIsExact(pr, ls, e, a, i);
    DeservesIs(pr, e, a, i);
  }

  /** A check, then a loop: 0 -> 1 -> 2 -> 1, where nothing is ever invalidated. */
  ghost function CheckThenLoop(): Problem {
    Problem([Block([], [1], true), Block([], [2], true), Block([], [1], true)],
            Rules((e, n) => false, (e, f) => e == f),
            [{Check(0)}, {}, {}])
  }

  lemma CheckThenLoopFacts()
    ensures CheckThenLoop().Valid() && LiveClosed(CheckThenLoop().g)
    ensures AllPaths(CheckThenLoop(), Check(0), 0, 1) && !NoCycleBetween(CheckThenLoop().g, 0, 1)
    ensures CheckThenLoop().Touches(Check(0), 2)
  {
    var pr := CheckThenLoop();
    assert pr.g[0].succs[0] == 1 && pr.g[1].succs[0] == 2 && pr.g[2].succs[0] == 1;
    assert Succ(pr.g, 0, 1) && Succ(pr.g, 1, 2) && Succ(pr.g, 2, 1);
    var once, twice, back := [0, 1], [0, 1, 2, 1], [0, 1, 2];
    assert Route(pr.g, 0, once, 1) && Route(pr.g, 0, twice, 1);
    assert twice[1] == twice[3] && !NoRepeat(twice);
    assert Path(pr.g, back) && back[0] == 0 && back[|back| - 1] == 2;
    assert Check(0) in pr.start[0];
  }

  /** The start is fixed: the loop's back edge comes from a block that does not list the effect yet. */
  lemma LoopIsStuck()
    ensures CheckThenLoop().Run([CheckThenLoop().start]) && CheckThenLoop().Fixed(CheckThenLoop().start)
  {
    var pr := CheckThenLoop();
    CheckThenLoopFacts();
    hide Path, Route, NoRepeat, Reaches, Problem.Touches, Problem.Survives;
    assert Succ(pr.g, 2, 1) && pr.Pred(2, 1);
    forall i, e | 0 <= i < |pr.g| ensures !pr.Inflow(pr.start, i, e) {
      assert forall p: nat :: pr.Pred(p, i) && e in pr.start[p] ==> p == 0 && e == Check(0) && i == 1;
    }
  }

  /** The loop meets the documented criterion and does not get the effect: not in the one run that the
      code makes, which ends where it starts, nor in any other. */
  lemma LoopMissesOut()
    ensures AllPaths(CheckThenLoop(), Check(0), 0, 1)
    ensures CheckThenLoop().Run([CheckThenLoop().start]) && CheckThenLoop().Fixed(CheckThenLoop().start)
    ensures forall ls :: CheckThenLoop().Run(ls) && CheckThenLoop().Fixed(ls[|ls| - 1]) ==> Check(0) !in ls[|ls| - 1][1]
  {
    var pr := CheckThenLoop();
    CheckThenLoopFacts();
    LoopIsStuck();
    hide Problem.Round, Problem.Fixed, AllPaths, NoCycleBetween, LiveClosed, Problem.Valid;
    forall ls | pr.Run(ls) && pr.Fixed(ls[|ls| - 1]) ensures Check(0) !in ls[|ls| - 1][1] {
      DocumentedUnlessCycle(pr, ls, Check(0), 0, 1);
    }
  }
}
