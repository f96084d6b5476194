// Why a site has its label: the chain of deeper reasons of inference/explained_bool.go, read
// against the constraints that were really observed.
module Explanation {
  import opened Annotation
  import opened InferredMaps

  /** An observed constraint that an explanation may cite, or a conflict on its own. */
  datatype Evidence =
    | NilSource(site: Site, assertion: PrimitiveFullTrigger)
    | NonnilSink(site: Site, assertion: PrimitiveFullTrigger)
    | Annotated(site: Site, nilable: bool, position: Position)
    | Edge(producer: Site, consumer: Site, assertion: PrimitiveFullTrigger)
    | Unsafe(trigger: FullTrigger)

  /** `b` is a reason for its value at `s`: an observed source, sink or annotation at `s`, or an
      observed edge out of (into) a site for which the deeper reason is one. */
  ghost predicate Justified(b: ExplainedBool, s: Site, ev: set<Evidence>) {
    match b
    case TrueBecauseShallowConstraint(a) => NilSource(s, a) in ev
    case FalseBecauseShallowConstraint(a) => NonnilSink(s, a) in ev
    case TrueBecauseAnnotation(pos) => Annotated(s, true, pos) in ev
    case FalseBecauseAnnotation(pos) => Annotated(s, false, pos) in ev
    case TrueBecauseDeepConstraint(a, d) => d.Val() && exists p :: Edge(p, s, a) in ev && Justified(d, p, ev)
    case FalseBecauseDeepConstraint(a, d) => !d.Val() && exists c :: Edge(s, c, a) in ev && Justified(d, c, ev)
  }

  lemma JustifiedMonotone(b: ExplainedBool, s: Site, ev: set<Evidence>, ev': set<Evidence>)
    requires Justified(b, s, ev) && ev <= ev'
    ensures Justified(b, s, ev')
  {
  }

  lemma DeepJustified(b: ExplainedBool, p: Site, c: Site, a: PrimitiveFullTrigger, ev: set<Evidence>)
    requires Edge(p, c, a) in ev
    ensures b.Val() && Justified(b, p, ev) ==> Justified(TrueBecauseDeepConstraint(a, b), c, ev)
    ensures !b.Val() && Justified(b, c, ev) ==> Justified(FalseBecauseDeepConstraint(a, b), p, ev)
  {
  }

  /** Every label has a reason and every edge was observed. */
  ghost predicate Explained(m: Mapping, ev: set<Evidence>) {
    && (forall s :: Determined(m, s) ==> Justified(m[s].b, s, ev))
    && (forall p, c :: Flows(m, p, c) ==> Edge(p, c, Implicates(m, p).vals[c]) in ev)
    && (forall p, c :: FlowsBack(m, p, c) ==> Edge(p, c, Implicants(m, c).vals[p]) in ev)
  }

  lemma ExplainedMonotone(m: Mapping, ev: set<Evidence>, ev': set<Evidence>)
    requires Explained(m, ev) && ev <= ev'
    ensures Explained(m, ev')
  {
    forall s | Determined(m, s) ensures Justified(m[s].b, s, ev') {
      JustifiedMonotone(m[s].b, s, ev, ev');
    }
    hide Justified;
  }

  lemma LabelExplained(m: Mapping, s: Site, b: ExplainedBool, ev: set<Evidence>)
    requires Explained(m, ev) && !Determined(m, s) && Justified(b, s, ev)
    ensures Explained(WithLabel(m, s, b), ev)
  {
    LabelStored(m, s, b);
    hide Justified;
    var m' := WithLabel(m, s, b);
    forall p, c | Flows(m', p, c) ensures Edge(p, c, Implicates(m', p).vals[c]) in ev {
      assert Flows(m, p, c);
    }
    forall p, c | FlowsBack(m', p, c) ensures Edge(p, c, Implicants(m', c).vals[p]) in ev {
      assert FlowsBack(m, p, c);
    }
  }

  lemma ImplicationExplained(m: Mapping, m': Mapping, p: Site, c: Site, a: PrimitiveFullTrigger, ev: set<Evidence>)
    requires Explained(m, ev) && ImplicationStored(m, m', p, c, a) && Edge(p, c, a) in ev
    ensures Explained(m', ev)
  {
    StoredFlows(m, m', p, c, a);
    hide Justified, Determined, Implicates, Implicants;
    forall x, y | Flows(m', x, y) ensures Edge(x, y, Implicates(m', x).vals[y]) in ev {
      assert Implicates(m', x).vals[y] == if x == p && y == c then a else Implicates(m, x).vals[y];
    }
    forall x, y | FlowsBack(m', x, y) ensures Edge(x, y, Implicants(m', y).vals[x]) in ev {
      assert Implicants(m', y).vals[x] == if x == p && y == c then a else Implicants(m, y).vals[x];
    }
  }

  datatype Conflict =
    | SingleAssertion(trigger: FullTrigger)
    | Overconstraint(nilExplanation: ExplainedBool, nonnilExplanation: ExplainedBool)

  /** A conflict is an always-nil producer meeting an always-nonnil consumer, or one site with a
      reason to be nilable and a reason to be nonnil. */
  ghost predicate Substantiated(c: Conflict, ev: set<Evidence>) {
    match c
    case SingleAssertion(t) => t.producer.kind.Always? && t.consumer.kind.Always? && Unsafe(t) in ev
    case Overconstraint(yes, no) =>
      yes.Val() && !no.Val() && exists s :: Justified(yes, s, ev) && Justified(no, s, ev)
  }

  lemma SubstantiatedMonotone(cs: seq<Conflict>, ev: set<Evidence>, ev': set<Evidence>)
    requires (forall i :: 0 <= i < |cs| ==> Substantiated(cs[i], ev)) && ev <= ev'
    ensures forall i :: 0 <= i < |cs| ==> Substantiated(cs[i], ev')
  {
    forall i | 0 <= i < |cs| ensures Substantiated(cs[i], ev') {
      assert Substantiated(cs[i], ev);
      if cs[i].Overconstraint? {
        var s :| Justified(cs[i].nilExplanation, s, ev) && Justified(cs[i].nonnilExplanation, s, ev);
        JustifiedMonotone(cs[i].nilExplanation, s, ev, ev');
        JustifiedMonotone(cs[i].nonnilExplanation, s, ev, ev');
      }
    }
  }
}
