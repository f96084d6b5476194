// The order in which backpropagation visits blocks (assertion/function/assertiontree/backprop.go).
module PostOrders {
  import opened RichCheckFlow

  ghost predicate Before(order: seq<nat>, v: nat, u: nat) {
    exists x, y :: 0 <= x < y < |order| && order[x] == v && order[y] == u
  }

  /** The stack on which each block was visited. */
  type Stacks = map<nat, seq<nat>>

  /** `v` lies below `u` on the stack on which `u` was visited, or is `u`. */
  ghost predicate Under(at: Stacks, u: nat, v: nat) {
    u in at && v in at[u]
  }

  /** The edge from u to v points back in the order, or to a block that was still on the stack. */
  ghost predicate EdgeOrdered(at: Stacks, order: seq<nat>, u: nat, v: nat) {
    Before(order, v, u) || Under(at, u, v)
  }

  ghost predicate Ordered(g: Graph, at: Stacks, order: seq<nat>) {
    forall u: nat, v: nat :: u in order && Succ(g, u, v) && v < |g| ==> EdgeOrdered(at, order, u, v)
  }

  /** The stack of a block is a path from the entry to it, made of the stacks of the blocks on it. */
  ghost predicate StackOf(g: Graph, at: Stacks, u: nat) {
    && u in at && Stack(g, at[u]) && at[u][|at[u]| - 1] == u && NoRepeat(at[u])
    && (forall j :: 0 <= j < |at[u]| ==> at[u][j] in at && at[at[u][j]] == at[u][..j + 1])
  }

  /** Whatever is below a finished block is on the stack, or finished later. */
  ghost predicate FinishedLater(at: Stacks, order: seq<nat>, stack: seq<nat>) {
    forall u, v :: u in order && Under(at, u, v) && v != u ==> v in stack || Before(order, u, v)
  }

  /** A successor is visited as soon as its block is finished. */
  ghost predicate SuccsVisited(g: Graph, order: seq<nat>, visited: seq<bool>) {
    forall u, v: nat :: u in order && Succ(g, u, v) ==> v < |visited| && visited[v]
  }

  /** The visited blocks are the finished ones and those on the stack. */
  ghost predicate Split(visited: seq<bool>, order: seq<nat>, stack: seq<nat>) {
    && (forall b: nat :: b < |visited| && visited[b] <==> b in order || b in stack)
    && (forall b :: b in order ==> b !in stack)
  }

  ghost predicate Stacked(g: Graph, at: Stacks, order: seq<nat>, stack: seq<nat>) {
    && (forall u :: u in at <==> u in order || u in stack)
    && (forall u :: u in at ==> StackOf(g, at, u))
    && (stack != [] ==> Under(at, stack[|stack| - 1], stack[|stack| - 1]) && at[stack[|stack| - 1]] == stack)
  }

  ghost predicate Searching(g: Graph, visited: seq<bool>, at: Stacks, order: seq<nat>, stack: seq<nat>) {
    && |visited| == |g|
    && NoRepeat(order) && Ordered(g, at, order) && SuccsVisited(g, order, visited)
    && Split(visited, order, stack)
    && Stacked(g, at, order, stack) && FinishedLater(at, order, stack)
  }

  ghost predicate Stack(g: Graph, stack: seq<nat>) {
    Path(g, stack) && stack[0] == 0
  }

  lemma StackReaches(g: Graph, stack: seq<nat>, v: nat)
    requires Stack(g, stack) && v in stack
    ensures Reaches(g, 0, stack[|stack| - 1]) && Reaches(g, v, stack[|stack| - 1])
  {
    var j :| 0 <= j < |stack| && stack[j] == v;
    PathSuffix(g, stack, j);
    assert stack[j..][0] == v && stack[j..][|stack[j..]| - 1] == stack[|stack| - 1];
  }

  lemma StaysBefore(order: seq<nat>, b: nat, u: nat, v: nat)
    requires Before(order, v, u)
    ensures Before(order + [b], v, u)
  {
    var x, y :| 0 <= x < y < |order| && order[x] == v && order[y] == u;
    assert (order + [b])[x] == v && (order + [b])[y] == u;
  }

  lemma LastIsAfter(order: seq<nat>, b: nat, v: nat)
    requires v in order
    ensures Before(order + [b], v, b)
  {
    var x :| 0 <= x < |order| && order[x] == v;
    assert (order + [b])[x] == v && (order + [b])[|order|] == b;
  }

  lemma Appended(s: seq<nat>, b: nat)
    ensures forall u :: u in s + [b] <==> u in s || u == b
  {
  }

  lemma TopIsNew(stack: seq<nat>, b: nat)
    requires NoRepeat(stack + [b])
    ensures b !in stack && NoRepeat(stack)
  {
    assert (stack + [b])[|stack|] == b;
    assert forall j :: 0 <= j < |stack| ==> (stack + [b])[j] == stack[j];
  }

  lemma NewOnTop(order: seq<nat>, b: nat)
    requires NoRepeat(order) && b !in order
    ensures NoRepeat(order + [b])
  {
  }

  /** A block is finished once all its successors are visited. */
  lemma Finish(g: Graph, visited: seq<bool>, at: Stacks, order: seq<nat>, stack: seq<nat>, b: nat)
    requires WellFormed(g) && Stack(g, stack + [b]) && NoRepeat(stack + [b])
    requires Searching(g, visited, at, order, stack + [b])
    requires b < |g| && forall v :: v in g[b].succs ==> v < |visited| && visited[v]
    ensures Searching(g, visited, at, order + [b], stack)
  {
    hide Stack, Path, Ordered, FinishedLater, NoRepeat, SuccsVisited, StackOf, Split, WellFormed;
    assert (stack + [b])[|stack|] == b;
    FinishSplit(g, visited, order, stack, b);
    FinishOrdered(g, visited, at, order, stack, b);
    FinishLater(at, order, stack, b);
    FinishStacked(g, at, order, stack, b);
    NewOnTop(order, b);
  }

  lemma FinishSplit(g: Graph, visited: seq<bool>, order: seq<nat>, stack: seq<nat>, b: nat)
    requires Split(visited, order, stack + [b]) && NoRepeat(stack + [b]) && SuccsVisited(g, order, visited)
    requires b < |g| && forall v :: v in g[b].succs ==> v < |visited| && visited[v]
    ensures Split(visited, order + [b], stack) && b !in order && SuccsVisited(g, order + [b], visited)
  {
    TopIsNew(stack, b);
    Appended(stack, b);
    Appended(order, b);
    hide NoRepeat;
  }

  lemma FinishStacked(g: Graph, at: Stacks, order: seq<nat>, stack: seq<nat>, b: nat)
    requires Stacked(g, at, order, stack + [b])
    ensures Stacked(g, at, order + [b], stack)
  {
    Appended(stack, b);
    Appended(order, b);
    if stack != [] {
      var j := |stack| - 1;
      OnTop(g, at, stack, b, j);
      assert stack[j] in stack;
    }
    hide StackOf;
  }

  /** The stack of a block on the stack is the part up to it. */
  lemma OnTop(g: Graph, at: Stacks, stack: seq<nat>, b: nat, j: nat)
    requires StackOf(g, at, b) && at[b] == stack + [b] && j < |stack|
    ensures stack[j] in at && at[stack[j]] == stack[..j + 1]
  {
    hide Path, Stack, NoRepeat;
    assert at[b][j] == stack[j];
    assert (stack + [b])[..j + 1] == stack[..j + 1];
  }

  lemma FinishOrdered(g: Graph, visited: seq<bool>, at: Stacks, order: seq<nat>, stack: seq<nat>, b: nat)
    requires Ordered(g, at, order) && Split(visited, order, stack + [b]) && |visited| == |g|
    requires b in at && at[b] == stack + [b] && b < |g|
    requires forall v :: v in g[b].succs ==> v < |visited| && visited[v]
    ensures Ordered(g, at, order + [b])
  {
    Appended(order, b);
    forall u: nat, v: nat | u in order + [b] && Succ(g, u, v) && v < |g| ensures EdgeOrdered(at, order + [b], u, v) {
      hide Before;
      if u in order {
        assert EdgeOrdered(at, order, u, v);
        if Before(order, v, u) {
          StaysBefore(order, b, u, v);
        }
      } else if v in order {
        LastIsAfter(order, b, v);
      }
    }
  }

  lemma FinishLater(at: Stacks, order: seq<nat>, stack: seq<nat>, b: nat)
    requires FinishedLater(at, order, stack + [b]) && b in at && at[b] == stack + [b]
    ensures FinishedLater(at, order + [b], stack)
  {
    Appended(stack, b);
    Appended(order, b);
    hide Before;
    forall u, v | u in order + [b] && Under(at, u, v) && v != u && v !in stack ensures Before(order + [b], u, v) {
      if v == b {
        LastIsAfter(order, b, u);
      } else {
        StaysBefore(order, b, v, u);
      }
    }
  }

  lemma Enter(g: Graph, visited: seq<bool>, at: Stacks, order: seq<nat>, stack: seq<nat>, b: nat)
    requires Searching(g, visited, at, order, stack) && b < |g| && !visited[b]
    requires Stack(g, stack + [b]) && NoRepeat(stack + [b])
    ensures Searching(g, visited[b := true], at[b := stack + [b]], order, stack + [b])
  {
    hide Stack, Path, Ordered, FinishedLater, NoRepeat, StackOf;
    NotYetStacked(g, visited, at, order, stack, b);
    Appended(stack, b);
    EnterStacked(g, at, order, stack, b);
    EnterOrdered(g, at, order, stack, b);
    hide Stacked;
  }

  lemma EnterOrdered(g: Graph, at: Stacks, order: seq<nat>, stack: seq<nat>, b: nat)
    requires Ordered(g, at, order) && FinishedLater(at, order, stack) && b !in order
    ensures Ordered(g, at[b := stack + [b]], order) && FinishedLater(at[b := stack + [b]], order, stack + [b])
  {
    hide Before;
    forall u: nat, v: nat | u in order && Succ(g, u, v) && v < |g|
      ensures EdgeOrdered(at[b := stack + [b]], order, u, v)
    {
      assert EdgeOrdered(at, order, u, v);
    }
  }

  lemma EnterStacked(g: Graph, at: Stacks, order: seq<nat>, stack: seq<nat>, b: nat)
    requires Stacked(g, at, order, stack) && Stack(g, stack + [b]) && NoRepeat(stack + [b]) && b !in at
    ensures Stacked(g, at[b := stack + [b]], order, stack + [b])
  {
    hide StackOf, Path, NoRepeat, Stack;
    Appended(stack, b);
    assert (stack + [b])[|stack + [b]| - 1] == b;
    StackOfTop(g, at, stack, b);
    forall u | u in at ensures StackOf(g, at[b := stack + [b]], u) {
      OldStackOf(g, at, u, b, stack + [b]);
    }
  }

  lemma OldStackOf(g: Graph, at: Stacks, u: nat, b: nat, w: seq<nat>)
    requires StackOf(g, at, u) && b !in at
    ensures StackOf(g, at[b := w], u)
  {
    hide Path, NoRepeat, Stack;
  }

  lemma StackOfTop(g: Graph, at: Stacks, stack: seq<nat>, b: nat)
    requires Stack(g, stack + [b]) && NoRepeat(stack + [b]) && b !in at
    requires stack != [] ==>
      stack[|stack| - 1] in at && at[stack[|stack| - 1]] == stack && StackOf(g, at, stack[|stack| - 1])
    ensures StackOf(g, at[b := stack + [b]], b)
  {
    hide Path, NoRepeat, Stack;
    var at', here := at[b := stack + [b]], stack + [b];
    forall j | 0 <= j < |here| ensures here[j] in at' && at'[here[j]] == here[..j + 1] {
      if j < |stack| {
        assert here[j] == stack[j] && here[..j + 1] == stack[..j + 1];
      } else {
        assert here[..j + 1] == here;
      }
    }
  }

  ghost function Unvisited(visited: seq<bool>): (r: set<nat>)
    ensures forall b: nat :: b in r <==> b < |visited| && !visited[b]
  {
    set b: nat | b in Below(|visited|) && !visited[b]
  }

  lemma SuccsInGraph(g: Graph, b: nat)
    requires WellFormed(g) && b < |g|
    ensures forall j :: 0 <= j < |g[b].succs| ==> g[b].succs[j] < |g| && g[b].succs[j] in g[b].succs
  {
    forall j | 0 <= j < |g[b].succs| ensures g[b].succs[j] < |g| && g[b].succs[j] in g[b].succs {
      assert g[b].succs[j] in g[b].succs;
    }
  }

  lemma NotYetStacked(g: Graph, visited: seq<bool>, at: Stacks, order: seq<nat>, stack: seq<nat>, b: nat)
    requires Searching(g, visited, at, order, stack) && b < |g| && !visited[b]
    ensures b !in at
  {
    hide Ordered, StackOf, FinishedLater, SuccsVisited, NoRepeat;
  }

  class PostOrder {
    const g: Graph
    var visited: seq<bool>
    var order: seq<nat>
    ghost var at: Stacks

    constructor (g: Graph)
      ensures this.g == g && visited == seq(|g|, i => false) && order == [] && at == map[]
    {
      this.g := g;
      visited := seq(|g|, i => false);
      order := [];
      at := map[];
    }

    /** Visits `b`, which the stack leads to, and everything first reached from it. */
    method Visit(b: nat, ghost stack: seq<nat>)
      requires WellFormed(g) && b < |g| && Stack(g, stack + [b]) && NoRepeat(stack + [b])
      requires Searching(g, visited, at, order, stack) && |visited| == |g| && !visited[b]
      modifies this
      ensures Searching(g, visited, at, order, stack) && |visited| == |g| && b in order && b in at &&
        at[b] == stack + [b]
      ensures visited[b] && forall c :: 0 <= c < |g| && old(visited)[c] ==> visited[c]
      ensures forall u :: u in old(at) ==> u in at && at[u] == old(at)[u]
      decreases Unvisited(visited)
    {
      hide Path, NoRepeat, Stack, Searching, WellFormed;
      SuccsInGraph(g, b);
      Enter(g, visited, at, order, stack, b);
      assert b in Unvisited(visited) && b !in Unvisited(visited[b := true]);
      NotYetStacked(g, visited, at, order, stack, b);
      visited := visited[b := true];
      ghost var here := stack + [b];
      at := at[b := here];
      for k := 0 to |g[b].succs|
        invariant Searching(g, visited, at, order, here) && |visited| == |g|
        invariant visited[b] && forall j :: 0 <= j < k ==> g[b].succs[j] < |g| && visited[g[b].succs[j]]
        invariant forall c :: 0 <= c < |g| && old(visited)[c] ==> visited[c]
        invariant b in at && at[b] == here && forall u :: u in old(at) ==> u in at && at[u] == old(at)[u]
        invariant b in Unvisited(old(visited)) && b !in Unvisited(visited) &&
          Unvisited(visited) <= Unvisited(old(visited))
      {
        var c := g[b].succs[k];
        if !visited[c] {
          Deeper(g, visited, at, order, here, c);
          Visit(c, here);
        }
      }
      Finish(g, visited, at, order, stack, b);
      order := order + [b];
    }
  }

  lemma Deeper(g: Graph, visited: seq<bool>, at: Stacks, order: seq<nat>, stack: seq<nat>, c: nat)
    requires Stack(g, stack) && NoRepeat(stack) && Searching(g, visited, at, order, stack)
    requires c < |g| && !visited[c] && Succ(g, stack[|stack| - 1], c)
    ensures Stack(g, stack + [c]) && NoRepeat(stack + [c])
  {
    PathOn(g, stack, c);
    hide Path, Ordered, SuccsVisited, Stacked, FinishedLater;
    assert c !in stack;
  }

  /** A depth-first post-order of what the entry reaches, with the stack on which each block was visited. */
  ghost predicate DepthFirst(g: Graph, order: seq<nat>, at: Stacks) {
    && NoRepeat(order)
    && (forall b: nat :: b in order <==> b < |g| && Reaches(g, 0, b))
    && (forall b :: b in at <==> b in order)
    && (forall b :: b in order ==> StackOf(g, at, b))
    && (forall u: nat, v: nat :: u in order && Succ(g, u, v) ==> v in order)
  }

  /** Every block that the entry reaches, once. An edge leads to an earlier block exactly if that block
      was not still on the stack, and what was on the stack is finished later. */
  method ComputePostOrder(g: Graph) returns (order: seq<nat>, ghost at: Stacks)
    requires WellFormed(g) && g != []
    ensures NoRepeat(order) && forall b: nat :: b in order <==> b < |g| && Reaches(g, 0, b)
    ensures DepthFirst(g, order, at)
    ensures forall u: nat, v: nat :: u in order && Succ(g, u, v) ==> (Before(order, v, u) <==> v !in at[u])
    ensures forall u, v :: u in order && v in at[u] && v != u ==> Before(order, u, v)
  {
    var search := new PostOrder(g);
    Start(g);
    search.Visit(0, []);
    order, at := search.order, search.at;
    Complete(g, search.visited, at, order);
  }

  lemma Start(g: Graph)
    requires g != []
    ensures Searching(g, seq(|g|, i => false), map[], [], []) && Stack(g, [0]) && [] + [0] == [0] && NoRepeat([0])
  {
  }

  lemma {:induction false} AllFinished(g: Graph, visited: seq<bool>, at: Stacks, order: seq<nat>, w: seq<nat>, j: nat)
    requires Searching(g, visited, at, order, []) && 0 in order && Path(g, w) && w[0] == 0 && j < |w|
    ensures w[j] in order
  {
    if j > 0 {
      AllFinished(g, visited, at, order, w, j - 1);
      assert Succ(g, w[j - 1], w[j]);
    }
  }

  lemma NotBoth(order: seq<nat>, u: nat, v: nat)
    requires NoRepeat(order) && Before(order, u, v)
    ensures !Before(order, v, u)
  {
  }

  lemma Complete(g: Graph, visited: seq<bool>, at: Stacks, order: seq<nat>)
    requires WellFormed(g) && Searching(g, visited, at, order, []) && 0 in order
    ensures DepthFirst(g, order, at)
    ensures forall u: nat, v: nat :: u in order && Succ(g, u, v) ==> (Before(order, v, u) <==> v !in at[u])
    ensures forall u, v :: u in order && v in at[u] && v != u ==> Before(order, u, v)
  {
    forall b: nat ensures b in order <==> b < |g| && Reaches(g, 0, b) {
      if b in order {
        assert StackOf(g, at, b);
      }
      if w :| Path(g, w) && w[0] == 0 && w[|w| - 1] == b {
        AllFinished(g, visited, at, order, w, |w| - 1);
      }
    }
    hide Path, NoRepeat, Before, Reaches, Stack;
    forall u, v | u in order && v in at[u] && v != u ensures Before(order, u, v) {
      assert Under(at, u, v);
    }
    forall u: nat, v: nat | u in order && Succ(g, u, v) ensures Before(order, v, u) <==> v !in at[u] {
      EdgeSides(g, visited, at, order, u, v);
    }
  }

  lemma EdgeSides(g: Graph, visited: seq<bool>, at: Stacks, order: seq<nat>, u: nat, v: nat)
    requires WellFormed(g) && Searching(g, visited, at, order, []) && u in order && Succ(g, u, v) && u in at
    ensures Before(order, v, u) <==> v !in at[u]
  {
    hide Path, Stack, StackOf;
    assert EdgeOrdered(at, order, u, v);
    if v in at[u] {
      if v == u {
        assert !Before(order, u, u);
      } else {
        assert Under(at, u, v);
        NotBoth(order, u, v);
      }
    }
  }

  /** Without cycles, every block comes after all that it leads to: reverse topological order. */
  lemma AcyclicIsReverseTopological(g: Graph, order: seq<nat>, at: Stacks, u: nat, v: nat)
    requires WellFormed(g) && forall w :: Path(g, w) ==> NoRepeat(w)
    requires DepthFirst(g, order, at)
    requires forall u: nat, v: nat :: u in order && Succ(g, u, v) ==> (Before(order, v, u) <==> v !in at[u])
    requires u in order && Succ(g, u, v)
    ensures Before(order, v, u)
  {
    assert StackOf(g, at, u);
    if v in at[u] {
      StackReaches(g, at[u], v);
      CycleRepeats(g, u, v);
    }
  }

  lemma CycleRepeats(g: Graph, u: nat, v: nat)
    requires Succ(g, u, v) && v < |g| && Reaches(g, v, u)
    ensures exists w :: Path(g, w) && !NoRepeat(w)
  {
    var w :| Path(g, w) && w[0] == v && w[|w| - 1] == u;
    PathOn(g, w, v);
    var cycle := w + [v];
    assert cycle[0] == cycle[|w|];
  }
}
