// The loops that propagate rich check effects (assertion/function/assertiontree/rich_check_effect.go),
// proved against the rounds of RichCheckFlow.
module RichCheckEffects {
  import opened RichCheckFlow

  ghost function SetOf(s: seq<Effect>): set<Effect> {
    set e | e in s
  }

  ghost predicate Distinct(s: seq<Effect>) {
    forall x, y :: 0 <= x < y < |s| ==> s[x] != s[y]
  }

  /** Only the placeholder repeats. */
  ghost predicate DistinctChecks(s: seq<Effect>) {
    forall x, y :: 0 <= x < y < |s| && s[x] == s[y] ==> s[x] == Noop
  }

  function Eq(rules: Rules, deep: bool, a: Effect, b: Effect): bool {
    if deep then rules.equal(a, b) else a == b
  }

  ghost predicate Covers(rules: Rules, deep: bool, out: seq<Effect>, e: Effect) {
    exists r :: r in out && Eq(rules, deep, r, e)
  }

  ghost predicate Apart(rules: Rules, deep: bool, out: seq<Effect>) {
    forall x, y :: 0 <= x < y < |out| ==> !Eq(rules, deep, out[x], out[y])
  }

  lemma ApartMore(rules: Rules, deep: bool, out: seq<Effect>, e: Effect)
    requires Apart(rules, deep, out) && !Covers(rules, deep, out, e)
    ensures Apart(rules, deep, out + [e])
  {
    hide Eq;
    var out' := out + [e];
    forall x, y | 0 <= x < y < |out'| ensures !Eq(rules, deep, out'[x], out'[y]) {
      if y == |out| {
        assert out[x] in out;
      }
    }
  }

  /** `out` holds effects of `s` only, pairwise different, and one for each effect of `s`. */
  ghost predicate Represents(rules: Rules, deep: bool, out: seq<Effect>, s: set<Effect>) {
    && (forall e :: e in out ==> e in s)
    && Apart(rules, deep, out)
    && (forall e :: e in s ==> Covers(rules, deep, out, e))
  }

  lemma CoversMore(rules: Rules, deep: bool, out: seq<Effect>, e: Effect)
    requires Eq(rules, deep, e, e)
    ensures Covers(rules, deep, out + [e], e)
    ensures forall f :: Covers(rules, deep, out, f) ==> Covers(rules, deep, out + [e], f)
  {
    hide Eq;
    assert e in out + [e];
    forall f | Covers(rules, deep, out, f) ensures Covers(rules, deep, out + [e], f) {
      var r :| r in out && Eq(rules, deep, r, f);
      assert r in out + [e];
    }
  }

  lemma RepresentsSame(rules: Rules, deep: bool, out: seq<Effect>, s: set<Effect>, e: Effect)
    requires Represents(rules, deep, out, s) && Covers(rules, deep, out, e)
    ensures Represents(rules, deep, out, s + {e})
  {
    hide Eq, Covers, Apart;
  }

  lemma RepresentsMore(rules: Rules, deep: bool, out: seq<Effect>, s: set<Effect>, e: Effect)
    requires Represents(rules, deep, out, s) && !Covers(rules, deep, out, e) && Eq(rules, deep, e, e)
    ensures Represents(rules, deep, out + [e], s + {e})
  {
    CoversMore(rules, deep, out, e);
    ApartMore(rules, deep, out, e);
    hide Eq, Covers, Apart;
  }

  method AddToOut(rules: Rules, deep: bool, out: seq<Effect>, e: Effect, ghost s: set<Effect>)
    returns (out': seq<Effect>)
    requires rules.Valid() && Represents(rules, deep, out, s)
    ensures Represents(rules, deep, out', s + {e})
    ensures out' == if Covers(rules, deep, out, e) then out else out + [e]
  {
    assert Eq(rules, deep, e, e);
    hide Represents, Eq;
    for i := 0 to |out|
      invariant forall j :: 0 <= j < i ==> !Eq(rules, deep, out[j], e)
    {
      if Eq(rules, deep, out[i], e) {
        assert out[i] in out;
        RepresentsSame(rules, deep, out, s, e);
        return out;
      }
    }
    RepresentsMore(rules, deep, out, s, e);
    return out + [e];
  }

  /** `left`, then what is new in `right`. */
  method MergeSlices(rules: Rules, deep: bool, left: seq<Effect>, right: seq<Effect>) returns (out: seq<Effect>)
    requires rules.Valid()
    ensures Represents(rules, deep, out, SetOf(left) + SetOf(right))
    ensures !deep && Distinct(left) ==> left <= out
  {
    out := [];
    hide Represents, Eq, Covers;
    NothingRepresented(rules, deep);
    assert SetOf(left[..0]) == {} && SetOf(right[..0]) == {};
    for i := 0 to |left|
      invariant Represents(rules, deep, out, SetOf(left[..i]))
      invariant !deep && Distinct(left) ==> out == left[..i]
    {
      assert left[..i + 1] == left[..i] + [left[i]];
      assert SetOf(left[..i + 1]) == SetOf(left[..i]) + {left[i]};
      NotYet(rules, left, i);
      out := AddToOut(rules, deep, out, left[i], SetOf(left[..i]));
    }
    assert left[..|left|] == left && SetOf(left) + {} == SetOf(left);
    for i := 0 to |right|
      invariant Represents(rules, deep, out, SetOf(left) + SetOf(right[..i]))
      invariant !deep && Distinct(left) ==> left <= out
    {
      assert right[..i + 1] == right[..i] + [right[i]];
      assert SetOf(left) + SetOf(right[..i + 1]) == SetOf(left) + SetOf(right[..i]) + {right[i]};
      out := AddToOut(rules, deep, out, right[i], SetOf(left) + SetOf(right[..i]));
    }
    assert right[..|right|] == right;
  }

  lemma NothingRepresented(rules: Rules, deep: bool)
    ensures Represents(rules, deep, [], {})
  {
  }

  lemma NotYet(rules: Rules, s: seq<Effect>, i: nat)
    requires i < |s|
    ensures Distinct(s) ==> !Covers(rules, false, s[..i], s[i])
  {
  }

  /** A copy without the placeholders. */
  method StripNoops(effects: seq<Effect>) returns (out: seq<Effect>)
    ensures SetOf(out) == SetOf(effects) - {Noop}
    ensures forall e :: e in out ==> e != Noop
    ensures DistinctChecks(effects) ==> Distinct(out)
  {
    out := [];
    for i := 0 to |effects|
      invariant SetOf(out) == SetOf(effects[..i]) - {Noop}
      invariant forall e :: e in out ==> e != Noop
      invariant DistinctChecks(effects) ==> Distinct(out)
    {
      assert effects[i] in out ==> effects[i] in SetOf(out) && effects[i] in effects[..i];
      assert effects[..i + 1] == effects[..i] + [effects[i]];
      assert SetOf(out + [effects[i]]) == SetOf(out) + {effects[i]};
      if effects[i] != Noop {
        out := out + [effects[i]];
      }
    }
    assert effects[..|effects|] == effects;
  }

  ghost predicate Alive(rules: Rules, nodes: seq<nat>, e: Effect) {
    forall n :: n in nodes ==> !rules.invalidates(e, n)
  }

  /** Each effect that some node invalidates is overwritten by the placeholder, in place. */
  method InvalidateAll(rules: Rules, nodes: seq<nat>, effects: seq<Effect>) returns (out: seq<Effect>)
    requires rules.Valid()
    ensures |out| == |effects|
    ensures forall j :: 0 <= j < |out| ==> out[j] == if Alive(rules, nodes, effects[j]) then effects[j] else Noop
  {
    out := effects;
    for k := 0 to |nodes|
      invariant |out| == |effects|
      invariant forall j :: 0 <= j < |out| ==>
        out[j] == if Alive(rules, nodes[..k], effects[j]) then effects[j] else Noop
    {
      assert nodes[..k + 1] == nodes[..k] + [nodes[k]];
      out := InvalidateBy(rules, nodes[k], out);
    }
    assert nodes[..|nodes|] == nodes;
  }

  method InvalidateBy(rules: Rules, node: nat, effects: seq<Effect>) returns (out: seq<Effect>)
    ensures |out| == |effects|
    ensures forall j :: 0 <= j < |out| ==> out[j] == if rules.invalidates(effects[j], node) then Noop else effects[j]
  {
    out := effects;
    for i := 0 to |effects|
      invariant |out| == |effects|
      invariant forall j :: 0 <= j < i ==> out[j] == if rules.invalidates(effects[j], node) then Noop else effects[j]
      invariant forall j :: i <= j < |out| ==> out[j] == effects[j]
    {
      if rules.invalidates(out[i], node) {
        out := out[i := Noop];
      }
    }
  }

  /** `preds` lists for each block the live blocks before `b` that lead to it. */
  ghost predicate PredsUpTo(g: Graph, preds: seq<seq<nat>>, b: nat) {
    && |preds| == |g|
    && forall i: nat, p: nat :: i < |g| ==> (p in preds[i] <==> p < b && p < |g| && Succ(g, p, i) && g[p].live)
  }

  method AddPred(succs: seq<nat>, b: nat, preds: seq<seq<nat>>) returns (preds': seq<seq<nat>>)
    requires forall c :: c in succs ==> c < |preds|
    ensures |preds'| == |preds|
    ensures forall i: nat, p: nat :: i < |preds| ==> (p in preds'[i] <==> p in preds[i] || (p == b && i in succs))
  {
    preds' := preds;
    for k := 0 to |succs|
      invariant |preds'| == |preds|
      invariant forall i: nat, p: nat :: i < |preds| ==>
        (p in preds'[i] <==> p in preds[i] || (p == b && i in succs[..k]))
    {
      assert succs[..k + 1] == succs[..k] + [succs[k]];
      assert succs[k] in succs;
      preds' := preds'[succs[k] := preds'[succs[k]] + [b]];
    }
    assert succs[..|succs|] == succs;
  }

  /** Predecessors, from live blocks only. */
  method GenPreds(g: Graph) returns (preds: seq<seq<nat>>)
    requires WellFormed(g)
    ensures PredsUpTo(g, preds, |g|)
  {
    preds := seq(|g|, i => []);
    for b := 0 to |g|
      invariant PredsUpTo(g, preds, b)
    {
      if g[b].live {
        preds := AddPred(g[b].succs, b, preds);
      }
    }
  }

  type Reach = map<Effect, seq<bool>>

  ghost predicate Shaped(reach: Reach, n: nat) {
    forall e :: e in reach ==> |reach[e]| == n
  }

  ghost predicate Marked(reach: Reach, e: Effect, b: nat) {
    e in reach && b < |reach[e]| && reach[e][b]
  }

  /** Every mark is a block that the effect can reach. */
  ghost predicate MarksReachable(pr: Problem, reach: Reach) {
    forall e, b :: Marked(reach, e, b) ==> pr.Touches(e, b)
  }

  /** Every effect's own block is marked. */
  ghost predicate StartsMarked(pr: Problem, reach: Reach) {
    forall e, b :: 0 <= b < |pr.start| && e in pr.start[b] ==> Marked(reach, e, b)
  }

  ghost predicate ClosedAt(g: Graph, reach: Reach, e: Effect, b: nat) {
    forall c: nat :: Marked(reach, e, b) && Succ(g, b, c) ==> Marked(reach, e, c)
  }

  ghost function Unmarked(reach: Reach): set<(Effect, nat)> {
    set e, b | e in reach && 0 <= b < |reach[e]| && !reach[e][b] :: (e, b)
  }

  lemma TouchesOn(pr: Problem, e: Effect, b: nat, c: nat)
    requires pr.Touches(e, b) && Succ(pr.g, b, c) && c < |pr.g|
    ensures pr.Touches(e, c)
  {
    var a :| 0 <= a < |pr.start| && e in pr.start[a] && Reaches(pr.g, a, b);
    var w :| Path(pr.g, w) && w[0] == a && w[|w| - 1] == b;
    PathOn(pr.g, w, c);
    assert Reaches(pr.g, a, c) by {
      assert (w + [c])[|w|] == c;
    }
  }

  lemma {:induction false} MarkedAlong(pr: Problem, reach: Reach, e: Effect, w: seq<nat>, j: nat)
    requires Path(pr.g, w) && j < |w| && Marked(reach, e, w[0])
    requires forall b :: 0 <= b < |pr.g| ==> ClosedAt(pr.g, reach, e, b)
    ensures Marked(reach, e, w[j])
  {
    if j > 0 {
      MarkedAlong(pr, reach, e, w, j - 1);
      assert ClosedAt(pr.g, reach, e, w[j - 1]) && Succ(pr.g, w[j - 1], w[j]);
    }
  }

  ghost predicate Closed(g: Graph, reach: Reach) {
    forall e, b :: 0 <= b < |g| ==> ClosedAt(g, reach, e, b)
  }

  lemma TouchedIsMarked(pr: Problem, reach: Reach, e: Effect, b: nat)
    requires StartsMarked(pr, reach) && Closed(pr.g, reach) && pr.Touches(e, b)
    ensures Marked(reach, e, b)
  {
    var a :| 0 <= a < |pr.start| && e in pr.start[a] && Reaches(pr.g, a, b);
    assert Marked(reach, e, a);
    hide Marked, ClosedAt, StartsMarked, Problem.Touches;
    var w :| Path(pr.g, w) && w[0] == a && w[|w| - 1] == b;
    MarkedAlong(pr, reach, e, w, |w| - 1);
  }

  /** Marks that are closed are exactly reachability. */
  lemma MarksAreExact(pr: Problem, reach: Reach, e: Effect, b: nat)
    requires MarksReachable(pr, reach) && StartsMarked(pr, reach) && Closed(pr.g, reach)
    ensures Marked(reach, e, b) <==> pr.Touches(e, b)
  {
    hide Problem.Touches, StartsMarked, Closed, Marked;
    if pr.Touches(e, b) {
      TouchedIsMarked(pr, reach, e, b);
    }
  }

  method MarkSuccs(row: seq<bool>, succs: seq<nat>) returns (row': seq<bool>, changed: bool)
    requires forall c :: c in succs ==> c < |row|
    ensures |row'| == |row| && forall j: nat :: j < |row| ==> (row'[j] <==> row[j] || j in succs)
    ensures changed <==> exists j: nat :: j < |row| && row'[j] && !row[j]
  {
    row', changed := row, false;
    for k := 0 to |succs|
      invariant |row'| == |row| && forall j: nat :: j < |row| ==> (row'[j] <==> row[j] || j in succs[..k])
      invariant changed <==> exists j: nat :: j < |row| && row'[j] && !row[j]
    {
      assert succs[..k + 1] == succs[..k] + [succs[k]];
      assert succs[k] in succs;
      if !row'[succs[k]] {
        row' := row'[succs[k] := true];
        changed := true;
        assert row'[succs[k]] && !row[succs[k]];
      }
    }
    assert succs[..|succs|] == succs;
  }

  /** `row` is the row of `e` with the successors of `b` marked. */
  ghost predicate RowAfter(g: Graph, reach: Reach, e: Effect, b: nat, row: seq<bool>) {
    && b < |g| && Shaped(reach, |g|) && Marked(reach, e, b) && |row| == |g|
    && forall j: nat :: j < |row| ==> (row[j] <==> reach[e][j] || j in g[b].succs)
  }

  lemma RowReachable(pr: Problem, reach: Reach, e: Effect, b: nat, row: seq<bool>)
    requires MarksReachable(pr, reach) && RowAfter(pr.g, reach, e, b, row)
    ensures MarksReachable(pr, reach[e := row])
  {
    var reach' := reach[e := row];
    forall f, c: nat | Marked(reach', f, c) ensures pr.Touches(f, c) {
      if f == e && !reach[e][c] {
        TouchesOn(pr, e, b, c);
      } else {
        assert Marked(reach, f, c);
      }
    }
  }

  lemma RowStarts(pr: Problem, reach: Reach, e: Effect, b: nat, row: seq<bool>)
    requires StartsMarked(pr, reach) && RowAfter(pr.g, reach, e, b, row)
    ensures StartsMarked(pr, reach[e := row])
  {
    forall f, c | 0 <= c < |pr.start| && f in pr.start[c] ensures Marked(reach[e := row], f, c) {
      assert Marked(reach, f, c);
    }
  }

  lemma RowClosed(g: Graph, reach: Reach, e: Effect, b: nat, row: seq<bool>)
    requires WellFormed(g) && RowAfter(g, reach, e, b, row)
    ensures Shaped(reach[e := row], |g|) && ClosedAt(g, reach[e := row], e, b)
  {
  }

  ghost predicate Fewer(now: Reach, before: Reach) {
    Unmarked(now) <= Unmarked(before) && (now != before ==> Unmarked(now) != Unmarked(before))
  }

  lemma RowFewer(g: Graph, reach: Reach, e: Effect, b: nat, row: seq<bool>)
    requires RowAfter(g, reach, e, b, row)
    ensures Fewer(reach[e := row], reach)
    ensures reach[e := row] == reach <==> forall j: nat :: j < |row| && row[j] ==> reach[e][j]
  {
    var reach' := reach[e := row];
    if j: nat :| j < |row| && row[j] && !reach[e][j] {
      assert (e, j) in Unmarked(reach) && (e, j) !in Unmarked(reach');
      assert reach'[e] != reach[e];
    } else {
      assert row == reach[e];
      assert reach' == reach;
    }
  }

  /** The state of one scan over the blocks, which started from `before`. */
  ghost predicate Scanning(pr: Problem, before: Reach, reach: Reach, done: bool) {
    && Shaped(reach, |pr.g|) && MarksReachable(pr, reach) && StartsMarked(pr, reach)
    && reach.Keys == before.Keys
    && Fewer(reach, before)
    && (done <==> reach == before)
  }

  /** One visit: if `e` is marked at `b`, then at its successors too. */
  method Visit(ghost pr: Problem, g: Graph, ghost before: Reach, reach: Reach, done: bool, e: Effect, b: nat)
    returns (reach': Reach, done': bool)
    requires pr.Valid() && pr.g == g && b < |g| && e in reach && Scanning(pr, before, reach, done)
    ensures Scanning(pr, before, reach', done') && ClosedAt(g, reach', e, b)
    ensures done' ==> reach' == reach
  {
    hide MarksReachable, StartsMarked, Fewer;
    reach', done' := reach, done;
    if reach[e][b] {
      var row, changed := MarkSuccs(reach[e], g[b].succs);
      RowReachable(pr, reach, e, b, row);
      RowStarts(pr, reach, e, b, row);
      RowClosed(g, reach, e, b, row);
      RowFewer(g, reach, e, b, row);
      FewerThen(before, reach, reach[e := row]);
      if changed {
        reach' := reach[e := row];
        done' := false;
      }
    }
  }

  lemma FewerThen(r0: Reach, r1: Reach, r2: Reach)
    requires Fewer(r1, r0) && Fewer(r2, r1)
    ensures Fewer(r2, r0)
    ensures r2 != r1 ==> r2 != r0
  {
    hide Unmarked;
  }

  method VisitBlock(ghost pr: Problem, g: Graph, ghost before: Reach, reach: Reach, done: bool, b: nat)
    returns (reach': Reach, done': bool)
    requires pr.Valid() && pr.g == g && b < |g| && Scanning(pr, before, reach, done)
    ensures Scanning(pr, before, reach', done') && (done' ==> done)
    ensures done' ==> forall e :: ClosedAt(g, reach', e, b)
  {
    hide Scanning;
    reach', done' := reach, done;
    var rest := reach.Keys;
    while rest != {}
      invariant Scanning(pr, before, reach', done') && (done' ==> done) && reach'.Keys == reach.Keys &&
        rest <= reach.Keys
      invariant done' ==> reach' == reach
      invariant done' ==> forall e :: e in reach && e !in rest ==> ClosedAt(g, reach', e, b)
    {
      var e :| e in rest;
      ScanningKeys(pr, before, reach', done');
      reach', done' := Visit(pr, g, before, reach', done', e, b);
      ScanningKeys(pr, before, reach', done');
      rest := rest - {e};
    }
    assert forall e :: e !in reach' ==> ClosedAt(g, reach', e, b);
  }

  lemma ScanningKeys(pr: Problem, before: Reach, reach: Reach, done: bool)
    requires Scanning(pr, before, reach, done)
    ensures reach.Keys == before.Keys && (done <==> reach == before)
  {
  }

  method Scan(ghost pr: Problem, g: Graph, reach: Reach) returns (reach': Reach, done: bool)
    requires pr.Valid() && pr.g == g && Shaped(reach, |g|) && MarksReachable(pr, reach) && StartsMarked(pr, reach)
    ensures Shaped(reach', |g|) && MarksReachable(pr, reach') && StartsMarked(pr, reach') && reach'.Keys == reach.Keys
    ensures done ==> Closed(g, reach')
    ensures Unmarked(reach') <= Unmarked(reach) && (!done ==> Unmarked(reach') != Unmarked(reach))
  {
    reach', done := reach, true;
    hide ClosedAt, Marked, MarksReachable, StartsMarked, Unmarked;
    for b := 0 to |g|
      invariant Scanning(pr, reach, reach', done)
      invariant done ==> forall e, c :: 0 <= c < b ==> ClosedAt(g, reach', e, c)
    {
      reach', done := VisitBlock(pr, g, reach, reach', done, b);
    }
  }

  ghost function Sets(blocks: seq<seq<Effect>>): Listing {
    seq(|blocks|, i requires 0 <= i < |blocks| => SetOf(blocks[i]))
  }

  function OneHot(n: nat, b: nat): (r: seq<bool>)
    ensures |r| == n && forall j :: 0 <= j < n ==> (r[j] <==> j == b)
  {
    seq(n, j => j == b)
  }

  method InitBlock(reach: Reach, effects: seq<Effect>, n: nat, b: nat) returns (reach': Reach)
    ensures reach'.Keys == reach.Keys + SetOf(effects)
    ensures forall e :: e in reach' ==> reach'[e] == if e in effects then OneHot(n, b) else reach[e]
  {
    reach' := reach;
    for k := 0 to |effects|
      invariant reach'.Keys == reach.Keys + SetOf(effects[..k])
      invariant forall e :: e in reach' ==> reach'[e] == if e in effects[..k] then OneHot(n, b) else reach[e]
    {
      assert effects[..k + 1] == effects[..k] + [effects[k]];
      reach' := reach'[effects[k] := OneHot(n, b)];
    }
    assert effects[..|effects|] == effects;
  }

  ghost predicate Initial(start: Listing, reach: Reach, b: nat)
    requires b <= |start|
  {
    && (forall e :: e in reach ==> exists i :: 0 <= i < b && e in start[i])
    && (forall e, i :: 0 <= i < b && e in start[i] ==> e in reach && reach[e] == OneHot(|start|, i))
  }

  lemma InitialNext(pr: Problem, reach: Reach, reach': Reach, b: nat)
    requires pr.Valid() && b < |pr.start| && Initial(pr.start, reach, b)
    requires reach'.Keys == reach.Keys + pr.start[b]
    requires forall e :: e in reach' ==> reach'[e] == if e in pr.start[b] then OneHot(|pr.start|, b) else reach[e]
    ensures Initial(pr.start, reach', b + 1)
  {
    forall e | e in reach' ensures exists i :: 0 <= i < b + 1 && e in pr.start[i] {
      assert e in pr.start[b] || e in reach;
    }
    forall e, i | 0 <= i < b + 1 && e in pr.start[i] ensures e in reach' && reach'[e] == OneHot(|pr.start|, i) {
      assert e in pr.start[b] ==> i == b;
    }
  }

  lemma InitialMarks(pr: Problem, reach: Reach)
    requires pr.Valid() && Initial(pr.start, reach, |pr.start|)
    ensures Shaped(reach, |pr.g|) && MarksReachable(pr, reach) && StartsMarked(pr, reach)
  {
    forall e | e in reach ensures |reach[e]| == |pr.g| {
      var i :| 0 <= i < |pr.start| && e in pr.start[i];
    }
    forall e, b: nat | Marked(reach, e, b) ensures pr.Touches(e, b) {
      var i :| 0 <= i < |pr.start| && e in pr.start[i];
      assert i == b && Path(pr.g, [b]) && [b][0] == b && [b][|[b]| - 1] == b;
      assert Reaches(pr.g, b, b);
    }
  }

  method InitNext(ghost pr: Problem, reach: Reach, effects: seq<Effect>, n: nat, b: nat) returns (reach': Reach)
    requires pr.Valid() && n == |pr.start| && b < n && pr.start[b] == SetOf(effects) && Initial(pr.start, reach, b)
    ensures Initial(pr.start, reach', b + 1)
  {
    hide Problem.Valid, OneHot, Initial;
    reach' := InitBlock(reach, effects, n, b);
    InitialNext(pr, reach, reach', b);
  }

  /** Every effect starts with its own block marked. */
  method InitReach(ghost pr: Problem, blocks: seq<seq<Effect>>) returns (reach: Reach)
    requires pr.Valid() && pr.start == Sets(blocks)
    ensures Shaped(reach, |blocks|) && MarksReachable(pr, reach) && StartsMarked(pr, reach)
  {
    InitialMarksSize(pr, blocks);
    reach := map[];
    assert Initial(pr.start, reach, 0);
    assert forall b :: 0 <= b < |blocks| ==> pr.start[b] == SetOf(blocks[b]);
    hide Problem.Valid, OneHot, Initial, Sets, SetOf, Shaped, MarksReachable, StartsMarked;
    for b := 0 to |blocks|
      invariant Initial(pr.start, reach, b)
    {
      reach := InitNext(pr, reach, blocks[b], |blocks|, b);
    }
    InitialMarks(pr, reach);
  }

  lemma InitialMarksSize(pr: Problem, blocks: seq<seq<Effect>>)
    requires pr.Valid() && pr.start == Sets(blocks)
    ensures |blocks| == |pr.start| == |pr.g|
  {
  }

  /** For each effect, the blocks that are reachable from the one that declares it. */
  method WeakPropagateRichChecks(ghost pr: Problem, g: Graph, blocks: seq<seq<Effect>>) returns (reach: Reach)
    requires pr.Valid() && pr.g == g && pr.start == Sets(blocks)
    ensures forall e, b: nat :: Marked(reach, e, b) <==> pr.Touches(e, b)
    ensures Shaped(reach, |g|)
  {
    hide MarksReachable, StartsMarked, Marked, Closed, Unmarked, Shaped;
    reach := InitReach(pr, blocks);
    var done := false;
    while !done
      invariant Shaped(reach, |g|) && MarksReachable(pr, reach) && StartsMarked(pr, reach)
      invariant done ==> Closed(g, reach)
      decreases Unmarked(reach), !done
    {
      reach, done := Scan(pr, g, reach);
    }
    forall e, b: nat ensures Marked(reach, e, b) <==> pr.Touches(e, b) {
      MarksAreExact(pr, reach, e, b);
    }
  }

  type Votes = map<Effect, bool>

  ghost predicate Offered(cur: seq<seq<Effect>>, preds: seq<nat>, e: Effect) {
    exists p :: p in preds && p < |cur| && e in cur[p]
  }

  method Nominate(votes: Votes, effects: seq<Effect>) returns (votes': Votes)
    requires forall e :: e in votes ==> votes[e]
    ensures votes'.Keys == votes.Keys + SetOf(effects)
    ensures forall e :: e in votes' ==> votes'[e]
  {
    votes' := votes;
    for k := 0 to |effects|
      invariant votes'.Keys == votes.Keys + SetOf(effects[..k])
      invariant forall e :: e in votes' ==> votes'[e]
    {
      assert effects[..k + 1] == effects[..k] + [effects[k]];
      votes' := votes'[effects[k] := true];
    }
    assert effects[..|effects|] == effects;
  }

  method Gather(cur: seq<seq<Effect>>, preds: seq<nat>) returns (votes: Votes)
    requires forall p :: p in preds ==> p < |cur|
    ensures forall e :: e in votes <==> Offered(cur, preds, e)
    ensures forall e :: e in votes ==> votes[e]
  {
    votes := map[];
    for k := 0 to |preds|
      invariant forall e :: e in votes <==> Offered(cur, preds[..k], e)
      invariant forall e :: e in votes ==> votes[e]
    {
      OfferedNext(cur, preds[..k], preds[k]);
      assert preds[..k + 1] == preds[..k] + [preds[k]];
      assert preds[k] in preds;
      hide Offered;
      votes := Nominate(votes, cur[preds[k]]);
    }
    assert preds[..|preds|] == preds;
  }

  lemma OfferedNext(cur: seq<seq<Effect>>, preds: seq<nat>, p: nat)
    ensures forall e :: Offered(cur, preds + [p], e) <==> Offered(cur, preds, e) || (p < |cur| && e in cur[p])
  {
    forall e | Offered(cur, preds, e) || (p < |cur| && e in cur[p]) ensures Offered(cur, preds + [p], e) {
      assert p in preds + [p];
      if q :| q in preds && q < |cur| && e in cur[q] {
        assert q in preds + [p];
      }
    }
  }

  /** Of `es`, the effects that reach `p`. */
  method Reaching(reach: Reach, es: set<Effect>, ghost n: nat, p: nat) returns (masking: Votes)
    requires Shaped(reach, n) && p < n
    ensures forall e :: e in masking <==> e in es && Marked(reach, e, p)
    ensures forall e :: e in masking ==> masking[e]
  {
    masking := map[];
    var rest := es;
    while rest != {}
      invariant rest <= es
      invariant forall e :: e in masking <==> e in es - rest && Marked(reach, e, p)
      invariant forall e :: e in masking ==> masking[e]
    {
      var e :| e in rest;
      rest := rest - {e};
      if e in reach && reach[e][p] {
        masking := masking[e := true];
      }
    }
  }

  method Unmask(masking: Votes, listed: seq<Effect>) returns (masking': Votes)
    ensures masking'.Keys == masking.Keys
    ensures forall e :: e in masking ==> (masking'[e] <==> masking[e] && e !in listed)
  {
    masking' := masking;
    for k := 0 to |listed|
      invariant masking'.Keys == masking.Keys
      invariant forall e :: e in masking ==> (masking'[e] <==> masking[e] && e !in listed[..k])
    {
      assert listed[..k + 1] == listed[..k] + [listed[k]];
      if listed[k] in masking' && masking'[listed[k]] {
        masking' := masking'[listed[k] := false];
      }
    }
    assert listed[..|listed|] == listed;
  }

  method Dismiss(votes: Votes, masking: Votes) returns (votes': Votes)
    requires masking.Keys <= votes.Keys
    ensures votes'.Keys == votes.Keys
    ensures forall e :: e in votes ==> (votes'[e] <==> votes[e] && !(e in masking && masking[e]))
  {
    votes' := votes;
    var rest := masking.Keys;
    while rest != {}
      invariant rest <= masking.Keys && votes'.Keys == votes.Keys
      invariant forall e :: e in votes ==> (votes'[e] <==> votes[e] && !(e in masking.Keys - rest && masking[e]))
    {
      var e :| e in rest;
      rest := rest - {e};
      if masking[e] {
        votes' := votes'[e := false];
      }
    }
  }

  ghost predicate Unopposed(cur: seq<seq<Effect>>, reach: Reach, preds: seq<nat>, e: Effect) {
    forall p :: p in preds && p < |cur| && Marked(reach, e, p) ==> e in cur[p]
  }

  method MaskAll(cur: seq<seq<Effect>>, reach: Reach, preds: seq<nat>, votes: Votes) returns (votes': Votes)
    requires Shaped(reach, |cur|) && forall p :: p in preds ==> p < |cur|
    requires forall e :: e in votes ==> votes[e]
    ensures votes'.Keys == votes.Keys
    ensures forall e :: e in votes ==> (votes'[e] <==> Unopposed(cur, reach, preds, e))
  {
    votes' := votes;
    hide Marked;
    for k := 0 to |preds|
      invariant votes'.Keys == votes.Keys
      invariant forall e :: e in votes ==> (votes'[e] <==> Unopposed(cur, reach, preds[..k], e))
    {
      var p := preds[k];
      assert p in preds;
      assert preds[..k + 1] == preds[..k] + [p];
      UnopposedNext(cur, reach, preds[..k], p);
      hide Unopposed, Shaped;
      var masking := Reaching(reach, votes'.Keys, |cur|, p);
      masking := Unmask(masking, cur[p]);
      votes' := Dismiss(votes', masking);
    }
    assert preds[..|preds|] == preds;
  }

  lemma UnopposedNext(cur: seq<seq<Effect>>, reach: Reach, preds: seq<nat>, p: nat)
    requires p < |cur|
    ensures forall e :: Unopposed(cur, reach, preds + [p], e) <==>
      Unopposed(cur, reach, preds, e) && (Marked(reach, e, p) ==> e in cur[p])
  {
    hide Marked;
    forall e ensures Unopposed(cur, reach, preds + [p], e) <==>
        Unopposed(cur, reach, preds, e) && (Marked(reach, e, p) ==> e in cur[p])
    {
      assert p in preds + [p];
      assert forall q :: q in preds ==> q in preds + [p];
    }
  }

  method Elected(votes: Votes) returns (out: seq<Effect>)
    ensures forall e :: e in out <==> e in votes && votes[e]
  {
    out := [];
    var rest := votes.Keys;
    while rest != {}
      invariant rest <= votes.Keys
      invariant forall e :: e in out <==> e in votes.Keys - rest && votes[e]
    {
      var e :| e in rest;
      rest := rest - {e};
      if votes[e] {
        out := out + [e];
      }
    }
  }

  /** The effects that flow out of the predecessors: listed at one, and at each that they reach. */
  method PredEffects(cur: seq<seq<Effect>>, reach: Reach, preds: seq<nat>) returns (out: seq<Effect>)
    requires Shaped(reach, |cur|) && forall p :: p in preds ==> p < |cur|
    ensures forall e :: e in out <==> Offered(cur, preds, e) && Unopposed(cur, reach, preds, e)
  {
    hide Shaped, Offered, Unopposed;
    if preds == [] {
      NoOffer(cur, preds);
      return [];
    }
    var votes := Gather(cur, preds);
    votes := MaskAll(cur, reach, preds, votes);
    out := Elected(votes);
  }

  lemma NoOffer(cur: seq<seq<Effect>>, preds: seq<nat>)
    requires preds == []
    ensures forall e :: !Offered(cur, preds, e)
  {
  }

  /** What a round knows: marks and predecessors that are exact, and listings without repeats. */
  ghost predicate Ready(pr: Problem, reach: Reach, preds: seq<seq<nat>>, cur: seq<seq<Effect>>) {
    && pr.Valid() && |cur| == |pr.g| && Shaped(reach, |pr.g|) && PredsUpTo(pr.g, preds, |pr.g|)
    && (forall e, b: nat :: Marked(reach, e, b) <==> pr.Touches(e, b))
    && (forall i :: 0 <= i < |cur| ==> Distinct(cur[i]) && Noop !in cur[i])
  }

  lemma InflowIs(pr: Problem, reach: Reach, preds: seq<seq<nat>>, cur: seq<seq<Effect>>, i: nat, e: Effect)
    requires Ready(pr, reach, preds, cur) && i < |cur|
    ensures pr.Inflow(Sets(cur), i, e) <==>
      Offered(cur, preds[i], e) && Unopposed(cur, reach, preds[i], e) && Alive(pr.rules, pr.g[i].nodes, e)
  {
    var l := Sets(cur);
    assert forall p: nat :: p < |cur| ==> (e in l[p] <==> e in cur[p]);
    assert forall p: nat :: p in preds[i] <==> pr.Pred(p, i);
    assert Alive(pr.rules, pr.g[i].nodes, e) <==> pr.Survives(e, i);
    hide Sets, Marked, Problem.Touches, Problem.Pred, Problem.Survives, Alive, PredsUpTo, Shaped, Distinct;
  }

  lemma PredsBelow(g: Graph, preds: seq<seq<nat>>, i: nat)
    requires PredsUpTo(g, preds, |g|) && i < |g|
    ensures forall p :: p in preds[i] ==> p < |g|
  {
    forall p | p in preds[i] ensures p < |g| {
      assert p < |g| && Succ(g, p, i) && g[p].live;
    }
  }

  lemma PredsAreBlocks(pr: Problem, reach: Reach, preds: seq<seq<nat>>, cur: seq<seq<Effect>>, i: nat)
    requires Ready(pr, reach, preds, cur) && i < |cur|
    ensures |preds| == |cur| && forall p :: p in preds[i] ==> p < |cur|
  {
    assert PredsUpTo(pr.g, preds, |pr.g|) && |cur| == |pr.g|;
    PredsBelow(pr.g, preds, i);
  }

  lemma Merged(rules: Rules, left: seq<Effect>, right: seq<Effect>, out: seq<Effect>)
    requires Represents(rules, false, out, SetOf(left) + SetOf(right))
    ensures Distinct(out) && forall e :: e in out <==> e in left || e in right
  {
    forall e | e in left || e in right ensures e in out {
      assert e in SetOf(left) + SetOf(right);
      assert Covers(rules, false, out, e);
    }
  }

  ghost predicate Survivors(rules: Rules, nodes: seq<nat>, effects: seq<Effect>, out: seq<Effect>) {
    forall e :: e in out <==> e in effects && Alive(rules, nodes, e) && e != Noop
  }

  /** Invalidating by each node and dropping the placeholders keeps exactly what no node invalidates. */
  method Filter(rules: Rules, nodes: seq<nat>, effects: seq<Effect>) returns (out: seq<Effect>)
    requires rules.Valid()
    ensures Survivors(rules, nodes, effects, out)
  {
    var kept := InvalidateAll(rules, nodes, effects);
    out := StripNoops(kept);
    assert forall e :: e in out <==> e in SetOf(kept) - {Noop} by {
      assert forall e :: e in out <==> e in SetOf(out);
    }
    hide Alive, SetOf;
    forall e ensures e in out <==> e in effects && Alive(rules, nodes, e) && e != Noop {
      KeptIff(rules, nodes, effects, kept, e);
    }
  }

  lemma KeptIff(rules: Rules, nodes: seq<nat>, effects: seq<Effect>, kept: seq<Effect>, e: Effect)
    requires |kept| == |effects|
    requires forall j :: 0 <= j < |kept| ==> kept[j] == if Alive(rules, nodes, effects[j]) then effects[j] else Noop
    ensures e in SetOf(kept) - {Noop} <==> e in effects && Alive(rules, nodes, e) && e != Noop
  {
    hide Alive;
    if e in effects && Alive(rules, nodes, e) && e != Noop {
      var j :| 0 <= j < |effects| && effects[j] == e;
      assert kept[j] == e;
    }
  }

  /** One block in one round. */
  method BlockRound(ghost pr: Problem, g: Graph, rules: Rules, reach: Reach, preds: seq<seq<nat>>,
                    cur: seq<seq<Effect>>, i: nat)
    returns (next: seq<Effect>)
    requires Ready(pr, reach, preds, cur) && pr.g == g && pr.rules == rules && i < |cur|
    ensures forall e :: e in next <==> pr.Next(Sets(cur), i, e)
    ensures Distinct(next) && Noop !in next && cur[i] <= next
  {
    PredsAreBlocks(pr, reach, preds, cur, i);
    assert Distinct(cur[i]) && Noop !in cur[i] && rules.Valid();
    assert forall e :: e in Sets(cur)[i] <==> e in cur[i];
    forall e
      ensures pr.Next(Sets(cur), i, e) <==> (e in cur[i] ||
        (Offered(cur, preds[i], e) && Unopposed(cur, reach, preds[i], e) && Alive(rules, g[i].nodes, e)))
    {
      InflowIs(pr, reach, preds, cur, i, e);
      hide Ready, Offered, Unopposed, Alive, Problem.Inflow, Sets;
    }
    assert forall e :: Offered(cur, preds[i], e) ==> e != Noop;
    assert Shaped(reach, |cur|);
    hide Ready, Offered, Unopposed, Alive, Problem.Next, Sets, Rules.Valid, Represents, Distinct, SetOf, Shaped;
    var inflow := PredEffects(cur, reach, preds[i]);
    inflow := Filter(rules, g[i].nodes, inflow);
    next := MergeSlices(rules, false, cur[i], inflow);
    Merged(rules, cur[i], inflow, next);
  }

  /** One round over all blocks; it is the last one exactly if it changes nothing. */
  method OneRound(ghost pr: Problem, g: Graph, rules: Rules, reach: Reach, preds: seq<seq<nat>>, cur: seq<seq<Effect>>)
    returns (next: seq<seq<Effect>>, done: bool)
    requires Ready(pr, reach, preds, cur) && pr.g == g && pr.rules == rules
    ensures pr.Round(Sets(cur), Sets(next)) && Ready(pr, reach, preds, next)
    ensures forall i :: 0 <= i < |g| ==> cur[i] <= next[i]
    ensures done <==> next == cur
  {
    assert |cur| == |g|;
    next, done := [], true;
    hide Ready, Problem.Next, Sets, Distinct;
    for i := 0 to |cur|
      invariant |next| == i
      invariant forall k, e :: 0 <= k < i ==> (e in next[k] <==> pr.Next(Sets(cur), k, e))
      invariant forall k :: 0 <= k < i ==> Distinct(next[k]) && Noop !in next[k] && cur[k] <= next[k]
      invariant done <==> next == cur[..i]
    {
      var block := BlockRound(pr, g, rules, reach, preds, cur, i);
      PrefixNext(cur, i, next, block);
      hide Problem.Next, Ready;
      next := next + [block];
      if |block| > |cur[i]| {
        done := false;
      }
    }
    assert cur[..|cur|] == cur;
    RoundIs(pr, reach, preds, cur, next);
  }

  lemma PrefixNext(cur: seq<seq<Effect>>, i: nat, next: seq<seq<Effect>>, block: seq<Effect>)
    requires |next| == i < |cur| && cur[i] <= block
    ensures next + [block] == cur[..i + 1] <==> next == cur[..i] && |block| <= |cur[i]|
  {
    assert cur[..i + 1] == cur[..i] + [cur[i]];
    if next + [block] == cur[..i + 1] {
      assert next == (next + [block])[..i] && block == (next + [block])[i] == cur[..i + 1][i];
      assert cur[..i] == cur[..i + 1][..i];
    }
    if |block| <= |cur[i]| {
      assert block == cur[i];
    }
  }

  lemma RoundIs(pr: Problem, reach: Reach, preds: seq<seq<nat>>, cur: seq<seq<Effect>>, next: seq<seq<Effect>>)
    requires Ready(pr, reach, preds, cur) && |next| == |cur|
    requires forall k, e :: 0 <= k < |cur| ==> (e in next[k] <==> pr.Next(Sets(cur), k, e))
    requires forall k :: 0 <= k < |cur| ==> Distinct(next[k]) && Noop !in next[k]
    ensures pr.Round(Sets(cur), Sets(next)) && Ready(pr, reach, preds, next)
  {
    assert Ready(pr, reach, preds, next) by {
      hide Distinct, Marked, Problem.Touches, Shaped, PredsUpTo, Problem.Next;
    }
    hide Ready, Problem.Next, Distinct;
  }

  lemma StillIsFixed(pr: Problem, l: Listing)
    requires pr.Round(l, l)
    ensures pr.Fixed(l)
  {
    hide Problem.Inflow;
  }

  lemma GrowthIsNew(pr: Problem, ls: seq<Listing>, cur: seq<seq<Effect>>, next: seq<seq<Effect>>)
    requires pr.Valid() && pr.Run(ls) && |ls| > 1 && |cur| == |next| == |pr.g| && next != cur
    requires ls[|ls| - 2] == Sets(cur) && ls[|ls| - 1] == Sets(next)
    requires forall i :: 0 <= i < |cur| ==> cur[i] <= next[i] && Distinct(next[i])
    ensures |ls| - 1 < |pr.g|
  {
    var i :| 0 <= i < |cur| && next[i] != cur[i];
    var e := next[i][|cur[i]|];
    assert e !in cur[i] && e in next[i];
    assert e !in Sets(cur)[i] && e in Sets(next)[i];
    assert NewAt(ls, |ls| - 1, i, e);
    GrowthIsEarly(pr, ls, |ls| - 1, i, e);
  }

  lemma RunOn(pr: Problem, ls: seq<Listing>, l: Listing)
    requires pr.Run(ls) && pr.Round(ls[|ls| - 1], l)
    ensures pr.Run(ls + [l])
  {
    assert |l| == |pr.g|;
    hide Problem.Round;
  }

  lemma RoundBound(rounds: nat, n: nat)
    requires rounds > 0
    ensures n == 0 ==> rounds > n * n * 2
    ensures rounds <= n ==> rounds <= n * n * 2
  {
    if n > 0 {
      assert n * 1 <= n * n;
    }
  }

  /** One round, as the next step of the run. */
  method NextRound(ghost pr: Problem, g: Graph, rules: Rules, reach: Reach, preds: seq<seq<nat>>, cur: seq<seq<Effect>>,
                   ghost ls: seq<Listing>)
    returns (next: seq<seq<Effect>>, done: bool)
    requires Ready(pr, reach, preds, cur) && pr.g == g && pr.rules == rules
    requires pr.Run(ls) && ls[|ls| - 1] == Sets(cur)
    ensures Ready(pr, reach, preds, next) && pr.Run(ls + [Sets(next)])
    ensures if done then pr.Fixed(Sets(next)) else |ls| < |g|
  {
    assert pr.Valid() && |cur| == |g|;
    next, done := OneRound(pr, g, rules, reach, preds, cur);
    assert |next| == |g| && forall i :: 0 <= i < |next| ==> Distinct(next[i]);
    hide Ready, Problem.Round, Problem.Fixed, Problem.Valid, Sets, Distinct, Problem.Run;
    RunOn(pr, ls, Sets(next));
    if done {
      StillIsFixed(pr, Sets(next));
    } else {
      GrowthIsNew(pr, ls + [Sets(next)], cur, next);
    }
  }

  /** Rounds until nothing changes. There are at most as many as blocks, so the bound on rounds is met
      on every graph that has a block. */
  method AllRounds(ghost pr: Problem, g: Graph, rules: Rules, reach: Reach, preds: seq<seq<nat>>,
                   blocks: seq<seq<Effect>>)
    returns (cur: seq<seq<Effect>>, panics: bool, ghost ls: seq<Listing>)
    requires Ready(pr, reach, preds, blocks) && pr.g == g && pr.rules == rules && pr.start == Sets(blocks)
    ensures panics <==> g == []
    ensures pr.Run(ls) && |ls| <= |g| + 2 && ls[|ls| - 1] == Sets(cur)
    ensures pr.Fixed(ls[|ls| - 1])
  {
    ls := [Sets(blocks)];
    assert pr.Run(ls);
    hide Ready, Problem.Fixed, Problem.Run, Sets, Problem.Valid;
    cur, panics := blocks, false;
    var rounds, done := 0, false;
    while !done
      invariant Ready(pr, reach, preds, cur) && pr.Run(ls) && ls[|ls| - 1] == Sets(cur)
      invariant |ls| == rounds + 1 && (if done then rounds <= |g| else rounds == 0 || rounds < |g|)
      invariant done ==> pr.Fixed(Sets(cur)) && g != []
      decreases |g| + 1 - rounds, !done
    {
      cur, done := NextRound(pr, g, rules, reach, preds, cur, ls);
      ls := ls + [Sets(cur)];
      rounds := rounds + 1;
      RoundBound(rounds, |g|);
      if rounds > |g| * |g| * 2 {
        return cur, true, ls;
      }
    }
  }

  /** The whole propagation: a run of rounds to a fixed listing, then one effect for each class of
      equal effects. */
  method PropagateRichChecks(ghost pr: Problem, g: Graph, rules: Rules, blocks: seq<seq<Effect>>)
    returns (out: seq<seq<Effect>>, panics: bool, ghost ls: seq<Listing>)
    requires pr.Valid() && pr.g == g && pr.rules == rules && pr.start == Sets(blocks)
    requires forall i :: 0 <= i < |blocks| ==> Distinct(blocks[i])
    ensures panics <==> g == []
    ensures pr.Run(ls) && |ls| <= |g| + 2 && |ls[|ls| - 1]| == |g| && pr.Fixed(ls[|ls| - 1])
    ensures |out| == |g| && forall i :: 0 <= i < |g| ==> Represents(rules, true, out[i], ls[|ls| - 1][i])
  {
    hide Problem.Valid, Problem.Run, Problem.Fixed, Represents, Sets, SetOf, Distinct, Shaped, PredsUpTo, Marked;
    hide Problem.Touches;
    ProblemParts(pr);
    var reach := WeakPropagateRichChecks(pr, g, blocks);
    var preds := GenPreds(g);
    ReadyAtFirst(pr, reach, preds, blocks);
    hide Ready;
    var cur;
    cur, panics, ls := AllRounds(pr, g, rules, reach, preds, blocks);
    RunSize(pr, ls);
    out := MergeDuplicates(rules, cur);
  }

  lemma ProblemParts(pr: Problem)
    requires pr.Valid()
    ensures WellFormed(pr.g) && pr.rules.Valid()
  {
  }

  lemma RunSize(pr: Problem, ls: seq<Listing>)
    requires pr.Run(ls)
    ensures |ls[|ls| - 1]| == |pr.g|
  {
  }

  /** One effect for each class of equal effects, at each block. */
  method MergeDuplicates(rules: Rules, cur: seq<seq<Effect>>) returns (out: seq<seq<Effect>>)
    requires rules.Valid()
    ensures |out| == |cur| == |Sets(cur)|
    ensures forall i :: 0 <= i < |cur| ==> Represents(rules, true, out[i], Sets(cur)[i])
  {
    assert |Sets(cur)| == |cur|;
    assert forall i :: 0 <= i < |cur| ==> Sets(cur)[i] == SetOf(cur[i]) + SetOf([]);
    hide Represents, Sets, SetOf, Rules.Valid;
    out := [];
    for i := 0 to |cur|
      invariant |out| == i
      invariant forall k :: 0 <= k < i ==> Represents(rules, true, out[k], Sets(cur)[k])
    {
      var block := MergeSlices(rules, true, cur[i], []);
      out := out + [block];
    }
  }

  lemma ReadyAtFirst(pr: Problem, reach: Reach, preds: seq<seq<nat>>, blocks: seq<seq<Effect>>)
    requires pr.Valid() && pr.start == Sets(blocks) && Shaped(reach, |pr.g|) && PredsUpTo(pr.g, preds, |pr.g|)
    requires forall e, b: nat :: Marked(reach, e, b) <==> pr.Touches(e, b)
    requires forall i :: 0 <= i < |blocks| ==> Distinct(blocks[i])
    ensures Ready(pr, reach, preds, blocks)
  {
    assert |blocks| == |pr.g|;
    forall i | 0 <= i < |blocks| ensures Noop !in blocks[i] {
      assert Noop !in pr.start[i];
    }
    hide Shaped, PredsUpTo, Marked, Problem.Touches, Distinct;
  }

  /** What the nodes of a block create: `made[k]` at node k. */
  type Creations = seq<seq<Effect>>

  /** `e` is created by one of the first n nodes and not invalidated by a later one of them. */
  ghost predicate LivesTo(rules: Rules, nodes: seq<nat>, made: Creations, n: nat, e: Effect)
    requires n <= |nodes| == |made|
  {
    exists k :: 0 <= k < n && e in made[k] && Alive(rules, nodes[k + 1..n], e)
  }

  /** Every effect is a new object. */
  ghost predicate New(made: Creations) {
    && (forall k :: 0 <= k < |made| ==> Distinct(made[k]) && Noop !in made[k])
    && (forall k, l, e :: 0 <= k < |made| && 0 <= l < |made| && e in made[k] && e in made[l] ==> k == l)
  }

  lemma LivesToNext(rules: Rules, nodes: seq<nat>, made: Creations, n: nat, e: Effect)
    requires n < |nodes| == |made|
    ensures LivesTo(rules, nodes, made, n + 1, e) <==>
      e in made[n] || (LivesTo(rules, nodes, made, n, e) && !rules.invalidates(e, nodes[n]))
  {
    assert Alive(rules, nodes[n + 1..n + 1], e);
    forall k | 0 <= k < n && e in made[k]
      ensures Alive(rules, nodes[k + 1..n + 1], e) <==>
        Alive(rules, nodes[k + 1..n], e) && !rules.invalidates(e, nodes[n])
    {
      AliveNext(rules, nodes, k + 1, n, e);
    }
    hide Alive;
  }

  lemma AliveNext(rules: Rules, nodes: seq<nat>, k: nat, n: nat, e: Effect)
    requires k <= n < |nodes|
    ensures Alive(rules, nodes[k..n + 1], e) <==> Alive(rules, nodes[k..n], e) && !rules.invalidates(e, nodes[n])
  {
    assert nodes[k..n + 1] == nodes[k..n] + [nodes[n]];
  }

  /** The effects of one block, so far. */
  ghost predicate Created(rules: Rules, nodes: seq<nat>, made: Creations, n: nat, effects: seq<Effect>)
    requires n <= |nodes| == |made|
  {
    && DistinctChecks(effects)
    && forall e :: e != Noop ==> (e in effects <==> LivesTo(rules, nodes, made, n, e))
  }

  lemma CreatedNext(rules: Rules, nodes: seq<nat>, made: Creations, n: nat, effects: seq<Effect>, kept: seq<Effect>)
    requires n < |nodes| == |made| && New(made) && Created(rules, nodes, made, n, effects) && |kept| == |effects|
    requires forall j :: 0 <= j < |kept| ==>
      kept[j] == if rules.invalidates(effects[j], nodes[n]) then Noop else effects[j]
    ensures Created(rules, nodes, made, n + 1, kept + made[n])
  {
    assert DistinctChecks(kept);
    forall e | e != Noop
      ensures e in kept + made[n] <==> LivesTo(rules, nodes, made, n + 1, e)
      ensures e in kept ==> e !in made[n]
    {
      LivesToNext(rules, nodes, made, n, e);
      assert e in kept <==> e in effects && !rules.invalidates(e, nodes[n]);
    }
    assert forall k :: 0 <= k < |made[n]| ==> made[n][k] in made[n];
  }

  /** One block's effects: created there and not invalidated before its end. */
  method BlockEffects(rules: Rules, nodes: seq<nat>, made: Creations) returns (effects: seq<Effect>)
    requires |made| == |nodes| && New(made)
    ensures forall e :: e in effects <==> LivesTo(rules, nodes, made, |nodes|, e)
    ensures Distinct(effects) && Noop !in effects
  {
    effects := [];
    hide New, Created, LivesTo;
    CreatedFirst(rules, nodes, made);
    for k := 0 to |nodes|
      invariant Created(rules, nodes, made, k, effects)
    {
      var kept := InvalidateBy(rules, nodes[k], effects);
      CreatedNext(rules, nodes, made, k, effects, kept);
      effects := kept + made[k];
    }
    var stripped := StripNoops(effects);
    CreatedLast(rules, nodes, made, effects, stripped);
    effects := stripped;
  }

  lemma CreatedFirst(rules: Rules, nodes: seq<nat>, made: Creations)
    requires |made| == |nodes|
    ensures Created(rules, nodes, made, 0, [])
  {
  }

  lemma CreatedLast(rules: Rules, nodes: seq<nat>, made: Creations, effects: seq<Effect>, stripped: seq<Effect>)
    requires |made| == |nodes| && New(made) && Created(rules, nodes, made, |nodes|, effects)
    requires SetOf(stripped) == SetOf(effects) - {Noop}
    ensures DistinctChecks(effects)
    ensures forall e :: e in stripped <==> LivesTo(rules, nodes, made, |nodes|, e)
  {
    assert !LivesTo(rules, nodes, made, |nodes|, Noop);
    forall e ensures e in stripped <==> LivesTo(rules, nodes, made, |nodes|, e) {
      assert e in stripped <==> e in SetOf(stripped);
      assert e in effects <==> e in SetOf(effects);
    }
  }

  ghost predicate Creates(made: Creations, e: Effect) {
    exists k :: 0 <= k < |made| && e in made[k]
  }

  /** Every effect is created once in the whole graph. */
  ghost predicate AllNew(g: Graph, made: seq<Creations>) {
    && |made| == |g|
    && (forall b :: 0 <= b < |g| ==> |made[b]| == |g[b].nodes| && New(made[b]))
    && (forall b, c, e :: 0 <= b < |g| && 0 <= c < |g| && Creates(made[b], e) && Creates(made[c], e) ==> b == c)
  }

  /** The listings that the propagation starts from meet what it expects. */
  method GenInitialRichCheckEffects(g: Graph, rules: Rules, made: seq<Creations>) returns (blocks: seq<seq<Effect>>)
    requires WellFormed(g) && rules.Valid() && AllNew(g, made)
    ensures |blocks| == |g| && forall i :: 0 <= i < |blocks| ==> Distinct(blocks[i])
    ensures forall b, e :: 0 <= b < |g| ==> (e in blocks[b] <==> LivesTo(rules, g[b].nodes, made[b], |g[b].nodes|, e))
    ensures Problem(g, rules, Sets(blocks)).Valid()
  {
    blocks := [];
    hide LivesTo, New, Rules.Valid, Distinct;
    for b := 0 to |g|
      invariant |blocks| == b
      invariant forall i :: 0 <= i < b ==> Distinct(blocks[i]) && Noop !in blocks[i]
      invariant forall i, e :: 0 <= i < b ==> (e in blocks[i] <==> LivesTo(rules, g[i].nodes, made[i], |g[i].nodes|, e))
    {
      var effects := BlockEffects(rules, g[b].nodes, made[b]);
      blocks := blocks + [effects];
    }
    forall i, j, e | 0 <= i < |g| && 0 <= j < |g| && e in blocks[i] && e in blocks[j] ensures i == j {
      CreatedOnce(g, rules, made, i, j, e);
    }
    ProblemOf(g, rules, blocks);
  }

  lemma CreatedOnce(g: Graph, rules: Rules, made: seq<Creations>, i: nat, j: nat, e: Effect)
    requires AllNew(g, made) && i < |g| && j < |g|
    requires LivesTo(rules, g[i].nodes, made[i], |g[i].nodes|, e) &&
      LivesTo(rules, g[j].nodes, made[j], |g[j].nodes|, e)
    ensures i == j
  {
    hide New, Alive;
    assert Creates(made[i], e) && Creates(made[j], e);
  }

  lemma ProblemOf(g: Graph, rules: Rules, blocks: seq<seq<Effect>>)
    requires WellFormed(g) && rules.Valid() && |blocks| == |g|
    requires forall i :: 0 <= i < |blocks| ==> Noop !in blocks[i]
    requires forall i, j, e :: 0 <= i < |g| && 0 <= j < |g| && e in blocks[i] && e in blocks[j] ==> i == j
    ensures Problem(g, rules, Sets(blocks)).Valid()
  {
    hide Rules.Valid, WellFormed;
  }
}
