// The nil flow reported for a conflict (diagnostic/engine.go, diagnostic/nilflow.go).
module Diagnostic {
  import opened Annotation
  import opened Explanation

  datatype Node = Node(
    producerPosition: Option<Position>, consumerPosition: Option<Position>, producerRepr: string, consumerRepr: string)

  function LocationOf(r: Option<Repr>): Option<Position> {
    if r.Some? && r.value.Located? then Some(r.value.location) else None
  }

  function TextOf(r: Option<Repr>): string {
    if r.Some? then r.value.text else ""
  }

  function NewNode(p: Option<Repr>, c: Option<Repr>): Node {
    Node(LocationOf(p), LocationOf(c), TextOf(p), TextOf(c))
  }

  class NilFlow {
    var nilPath: seq<Node>
    var nonnilPath: seq<Node>

    constructor ()
      ensures nilPath == [] && nonnilPath == []
    {
      nilPath, nonnilPath := [], [];
    }

    /** The nil path is walked backwards from the conflict, so nodes are prepended. */
    method AddNilPathNode(p: Option<Repr>, c: Option<Repr>)
      modifies this`nilPath
      ensures nilPath == [NewNode(p, c)] + old(nilPath)
    {
      nilPath := [NewNode(p, c)] + nilPath;
    }

    method AddNonNilPathNode(p: Option<Repr>, c: Option<Repr>)
      modifies this`nonnilPath
      ensures nonnilPath == old(nonnilPath) + [NewNode(p, c)]
    {
      nonnilPath := nonnilPath + [NewNode(p, c)];
    }
  }

  /** An explanation and all its deeper reasons. */
  function Chain(b: ExplainedBool): (bs: seq<ExplainedBool>)
    ensures bs != []
  {
    match b.DeeperReason()
    case None => [b]
    case Some(d) => [b] + Chain(d)
  }

  function LastOf<T>(s: seq<T>): T
    requires s != []
  {
    s[|s| - 1]
  }

  function ChainFrom(r: Option<ExplainedBool>): seq<ExplainedBool> {
    if r.Some? then Chain(r.value) else []
  }

  const NILABLE_TEXT := "NILABLE because it is annotated as so"
  const NONNIL_TEXT := "NONNIL because it is annotated as so"

  /** How one reason is shown; an annotation is described by itself, at its position. */
  function ReprsOf(b: ExplainedBool): (Option<Repr>, Option<Repr>) {
    match b.TriggerReprs()
    case Some((p, c)) => (Some(p), Some(c))
    case None => (Some(Located(if b.Val() then NILABLE_TEXT else NONNIL_TEXT, b.Position())), None)
  }

  function NodeOf(b: ExplainedBool): Node {
    NewNode(ReprsOf(b).0, ReprsOf(b).1)
  }

  function Nodes(bs: seq<ExplainedBool>): seq<Node> {
    seq(|bs|, i requires 0 <= i < |bs| => NodeOf(bs[i]))
  }

  function Reverse<T>(s: seq<T>): seq<T> {
    seq(|s|, i requires 0 <= i < |s| => s[|s| - 1 - i])
  }

  lemma NodesNext(b: ExplainedBool, rest: seq<ExplainedBool>)
    ensures Nodes([b] + rest) == [NodeOf(b)] + Nodes(rest)
    ensures Reverse(Nodes([b] + rest)) == Reverse(Nodes(rest)) + [NodeOf(b)]
  {
    assert Nodes([b] + rest) == [NodeOf(b)] + Nodes(rest);
  }

  lemma NoMore()
    ensures Nodes(ChainFrom(None)) == [] && Reverse(Nodes(ChainFrom(None))) == []
  {
  }

  lemma ChainStart(b: ExplainedBool)
    ensures ChainFrom(Some(b)) == Chain(b)
    ensures Nodes(Chain(b)) == [] + Nodes(ChainFrom(Some(b)))
    ensures Reverse(Nodes(Chain(b))) == Reverse(Nodes(ChainFrom(Some(b)))) + []
  {
  }

  lemma ChainNext(b: ExplainedBool)
    ensures ChainFrom(Some(b)) == [b] + ChainFrom(b.DeeperReason())
    ensures b.DeeperReason().Some? ==> ChainFrom(b.DeeperReason()) != []
    ensures ChainFrom(Some(b))[|ChainFrom(Some(b))| - 1] ==
      if b.DeeperReason().Some? then ChainFrom(b.DeeperReason())[|ChainFrom(b.DeeperReason())| - 1] else b
  {
    if b.DeeperReason().Some? {
      ChainStart(b.DeeperReason().value);
    }
    assert Chain(b) == [b] + ChainFrom(b.DeeperReason());
  }

  /** One round of either loop: the reason moves from the rest of the chain to what is shown. */
  lemma ShowNext(b: ExplainedBool, rest: seq<ExplainedBool>, shown: seq<Node>)
    ensures Reverse(Nodes([b] + rest)) + shown == Reverse(Nodes(rest)) + ([NodeOf(b)] + shown)
    ensures shown + Nodes([b] + rest) == (shown + [NodeOf(b)]) + Nodes(rest)
  {
    NodesNext(b, rest);
    hide Nodes, Reverse, NodeOf;
  }

  datatype Report = Report(position: Position, nilPath: seq<Node>, nonnilPath: seq<Node>)

  /** The nil path is the reversed chain of the reasons for nilable, the nonnil path the chain of the
      reasons for nonnil, reported where that chain ends. */
  function OverconstraintReport(nilReason: ExplainedBool, nonnilReason: ExplainedBool): Report {
    Report(LastOf(Chain(nonnilReason)).Position(), Reverse(Nodes(Chain(nilReason))), Nodes(Chain(nonnilReason)))
  }

  class DiagnosticEngine {
    var conflicts: seq<Report>

    constructor ()
      ensures conflicts == []
    {
      conflicts := [];
    }

    method AddSingleAssertionConflict(t: FullTrigger)
      modifies this`conflicts
      ensures conflicts == old(conflicts) +
        [Report(t.consumer.position, [], [NewNode(Some(t.producer.repr), Some(t.consumer.repr))])]
    {
      var flow := new NilFlow();
      flow.AddNonNilPathNode(Some(t.producer.repr), Some(t.consumer.repr));
      assert flow.nonnilPath == [NewNode(Some(t.producer.repr), Some(t.consumer.repr))];
      conflicts := conflicts + [Report(t.consumer.position, flow.nilPath, flow.nonnilPath)];
    }

    method AddOverconstraintConflict(nilReason: ExplainedBool, nonnilReason: ExplainedBool)
      modifies this`conflicts
      ensures conflicts == old(conflicts) + [OverconstraintReport(nilReason, nonnilReason)]
    {
      hide ReprsOf, Nodes, Reverse, Chain, ChainFrom;
      var flow := new NilFlow();
      NoMore();
      ChainStart(nilReason);
      ChainStart(nonnilReason);
      var r := Some(nilReason);
      while r.Some?
        invariant Reverse(Nodes(Chain(nilReason))) == Reverse(Nodes(ChainFrom(r))) + flow.nilPath
        invariant flow.nonnilPath == []
        invariant conflicts == old(conflicts)
        decreases |ChainFrom(r)|
      {
        var b := r.value;
        ChainNext(b);
        ShowNext(b, ChainFrom(b.DeeperReason()), flow.nilPath);
        flow.AddNilPathNode(ReprsOf(b).0, ReprsOf(b).1);
        r := b.DeeperReason();
      }
      var position := nonnilReason.Position();
      ghost var chain := Chain(nonnilReason);
      r := Some(nonnilReason);
      while r.Some?
        invariant Nodes(chain) == flow.nonnilPath + Nodes(ChainFrom(r))
        invariant if r.Some? then ChainFrom(r) != [] && ChainFrom(r)[|ChainFrom(r)| - 1] == chain[|chain| - 1]
                  else position == chain[|chain| - 1].Position()
        invariant flow.nilPath == Reverse(Nodes(Chain(nilReason)))
        invariant conflicts == old(conflicts)
        decreases |ChainFrom(r)|
      {
        var b := r.value;
        ChainNext(b);
        ShowNext(b, ChainFrom(b.DeeperReason()), flow.nonnilPath);
        flow.AddNonNilPathNode(ReprsOf(b).0, ReprsOf(b).1);
        position := b.Position();
        r := b.DeeperReason();
      }
      assert flow.nonnilPath == Nodes(chain);
      conflicts := conflicts + [Report(position, flow.nilPath, flow.nonnilPath)];
    }
  }

  /** Where an observed constraint comes from and leads to; a source has no origin, a sink no end. */
  function From(e: Evidence): Option<Site> {
    match e
    case NilSource(_, _) => None
    case NonnilSink(s, _) => Some(s)
    case Annotated(s, nilable, _) => if nilable then None else Some(s)
    case Edge(p, _, _) => Some(p)
    case Unsafe(_) => None
  }

  function To(e: Evidence): Option<Site> {
    match e
    case NilSource(s, _) => Some(s)
    case NonnilSink(_, _) => None
    case Annotated(s, nilable, _) => if nilable then Some(s) else None
    case Edge(_, c, _) => Some(c)
    case Unsafe(_) => None
  }

  function Shown(e: Evidence): Node {
    match e
    case NilSource(_, a) => NewNode(Some(a.producerRepr), Some(a.consumerRepr))
    case NonnilSink(_, a) => NewNode(Some(a.producerRepr), Some(a.consumerRepr))
    case Annotated(_, nilable, pos) => NewNode(Some(Located(if nilable then NILABLE_TEXT else NONNIL_TEXT, pos)), None)
    case Edge(_, _, a) => NewNode(Some(a.producerRepr), Some(a.consumerRepr))
    case Unsafe(t) => NewNode(Some(t.producer.repr), Some(t.consumer.repr))
  }

  /** Where a constraint was observed. */
  function PlaceOf(e: Evidence): Position {
    match e
    case NilSource(_, a) => a.position
    case NonnilSink(_, a) => a.position
    case Annotated(_, _, pos) => pos
    case Edge(_, _, a) => a.position
    case Unsafe(t) => t.consumer.position
  }

  /** Consecutive constraints, each leading to the site where the next one starts. */
  ghost predicate Contiguous(es: seq<Evidence>) {
    forall i :: 0 <= i < |es| - 1 ==> To(es[i]).Some? && To(es[i]) == From(es[i + 1])
  }

  ghost predicate Shows(nodes: seq<Node>, es: seq<Evidence>) {
    |nodes| == |es| && forall i :: 0 <= i < |es| ==> nodes[i] == Shown(es[i])
  }

  lemma PathOn(nodes: seq<Node>, es: seq<Evidence>, n: Node, e: Evidence)
    requires Contiguous(es) && Shows(nodes, es) && es != [] && n == Shown(e)
    requires To(es[|es| - 1]).Some? && To(es[|es| - 1]) == From(e)
    ensures Contiguous(es + [e]) && Shows(nodes + [n], es + [e])
  {
    hide To, From, Shown;
  }

  lemma PathBack(n: Node, e: Evidence, nodes: seq<Node>, es: seq<Evidence>)
    requires Contiguous(es) && Shows(nodes, es) && es != [] && n == Shown(e)
    requires To(e).Some? && To(e) == From(es[0])
    ensures Contiguous([e] + es) && Shows([n] + nodes, [e] + es)
  {
    hide To, From, Shown;
    assert forall i :: 0 < i < |es| + 1 ==> ([e] + es)[i] == es[i - 1];
  }

  lemma {:induction false} NilPathTo(b: ExplainedBool, s: Site, ev: set<Evidence>) returns (es: seq<Evidence>)
    requires Justified(b, s, ev) && b.Val()
    ensures es != [] && (forall e :: e in es ==> e in ev) && Contiguous(es)
    ensures From(es[0]).None? && To(es[|es| - 1]) == Some(s)
    ensures Shows(Reverse(Nodes(Chain(b))), es)
    decreases b
  {
    match b
    case TrueBecauseShallowConstraint(a) => es := [NilSource(s, a)];
    case TrueBecauseAnnotation(pos) => es := [Annotated(s, true, pos)];
    case TrueBecauseDeepConstraint(a, d) =>
      var p :| Edge(p, s, a) in ev && Justified(d, p, ev);
      var before := NilPathTo(d, p, ev);
      es := before + [Edge(p, s, a)];
      NodesNext(b, Chain(d));
      assert Chain(b) == [b] + Chain(d) && NodeOf(b) == Shown(Edge(p, s, a));
      hide Contiguous, Shows, Nodes, Reverse, Chain, NodeOf, Shown, Justified;
      PathOn(Reverse(Nodes(Chain(d))), before, NodeOf(b), Edge(p, s, a));
  }

  lemma {:induction false} NonnilPathFrom(b: ExplainedBool, s: Site, ev: set<Evidence>) returns (es: seq<Evidence>)
    requires Justified(b, s, ev) && !b.Val()
    ensures es != [] && (forall e :: e in es ==> e in ev) && Contiguous(es)
    ensures From(es[0]) == Some(s) && To(es[|es| - 1]).None?
    ensures Shows(Nodes(Chain(b)), es)
    ensures LastOf(Chain(b)).Position() == PlaceOf(LastOf(es))
    decreases b
  {
    match b
    case FalseBecauseShallowConstraint(a) => es := [NonnilSink(s, a)];
    case FalseBecauseAnnotation(pos) => es := [Annotated(s, false, pos)];
    case FalseBecauseDeepConstraint(a, d) =>
      var c :| Edge(s, c, a) in ev && Justified(d, c, ev);
      var after := NonnilPathFrom(d, c, ev);
      es := [Edge(s, c, a)] + after;
      NodesNext(b, Chain(d));
      assert Chain(b) == [b] + Chain(d) && NodeOf(b) == Shown(Edge(s, c, a));
      assert LastOf(Chain(b)) == LastOf(Chain(d)) && LastOf(es) == LastOf(after);
      hide Contiguous, Shows, Nodes, Reverse, Chain, NodeOf, Shown, Justified;
      PathBack(NodeOf(b), Edge(s, c, a), Nodes(Chain(d)), after);
  }

  /** Every reported flow shows one contiguous path of observed constraints, from a source of nil
      through a site with contradicting reasons to a consumer that must not see nil. */
  lemma ReportedFlowIsContiguous(c: Conflict, ev: set<Evidence>) returns (es: seq<Evidence>, at: nat)
    requires Substantiated(c, ev) && c.Overconstraint?
    ensures 0 < at < |es| && (forall e :: e in es ==> e in ev) && Contiguous(es)
    ensures From(es[0]).None? && To(es[|es| - 1]).None?
    ensures Shows(Reverse(Nodes(Chain(c.nilExplanation))), es[..at])
    ensures Shows(Nodes(Chain(c.nonnilExplanation)), es[at..])
    ensures LastOf(Chain(c.nonnilExplanation)).Position() == PlaceOf(LastOf(es))
  {
    var s :| Justified(c.nilExplanation, s, ev) && Justified(c.nonnilExplanation, s, ev);
    var before := NilPathTo(c.nilExplanation, s, ev);
    var after := NonnilPathFrom(c.nonnilExplanation, s, ev);
    hide Justified, Shows, Nodes, Reverse, Chain, Contiguous;
    ContiguousJoin(before, after);
    es, at := before + after, |before|;
    assert es[..at] == before && es[at..] == after;
  }

  lemma ContiguousJoin(before: seq<Evidence>, after: seq<Evidence>)
    requires Contiguous(before) && Contiguous(after) && before != [] && after != []
    requires To(before[|before| - 1]).Some? && To(before[|before| - 1]) == From(after[0])
    ensures Contiguous(before + after)
  {
    hide To, From;
  }

  /** A chain has one truth value, and only its last reason is not a deep one. */
  lemma {:induction false} ChainIsUniform(b: ExplainedBool, s: Site, ev: set<Evidence>, i: nat)
    requires Justified(b, s, ev) && i < |Chain(b)|
    ensures Chain(b)[i].Val() == b.Val()
    ensures Chain(b)[i].DeeperReason().Some? <==> i < |Chain(b)| - 1
  {
    if i > 0 {
      match b
      case TrueBecauseDeepConstraint(a, d) =>
        var p :| Edge(p, s, a) in ev && Justified(d, p, ev);
        ChainIsUniform(d, p, ev, i - 1);
      case FalseBecauseDeepConstraint(a, d) =>
        var c :| Edge(s, c, a) in ev && Justified(d, c, ev);
        ChainIsUniform(d, c, ev, i - 1);
      case _ =>
    }
  }
}
