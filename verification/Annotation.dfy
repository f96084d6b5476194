// Trigger kinds, annotation sites and full triggers (annotation/trigger.go, full_trigger.go),
// reduced to what inference reads; the explanations of inference/explained_bool.go.
module Annotation {

  datatype Option<+T> = None | Some(value: T)

  datatype Position = Position(filename: string, offset: int, line: int, column: int)

  /** A representation for messages; a located one carries the place it describes. */
  datatype Repr = Plain(text: string) | Located(text: string, location: Position)

  datatype Key = Key(position: Position, pkgPath: string, repr: string, isExported: bool, objectPath: string)

  /** An atomic choice between nilable and nonnil. */
  datatype Site = Site(key: Key, isDeep: bool) {
    predicate Exported() { key.isExported }
  }

  datatype Kind = Always | Conditional | DeepConditional | Never {
    predicate DependsOnSite() { Conditional? || DeepConditional? }
  }

  /** `ref` stands for the identity of the pointer; `guardMissingReturn` is the function return that
      a guard-missing producer replaced, if that function has a rich check effect. */
  datatype ProduceTrigger = ProduceTrigger(
    ref: nat, kind: Kind, site: Option<Key>, repr: Repr, guardMissingReturn: Option<Key>)

  /** `alwaysSafeReturn` is the function return whose safe paths a placeholder consumer tracks. */
  datatype ConsumeTrigger = ConsumeTrigger(
    ref: nat, kind: Kind, site: Option<Key>, repr: Repr, position: Position, alwaysSafeReturn: Option<Key>)

  datatype PrimitiveFullTrigger = PrimitiveFullTrigger(position: Position, producerRepr: Repr, consumerRepr: Repr)

  /** The assertion: if the producer yields nil, the consumer must accept it. A controlled one
      counts only once its controller is nilable. */
  datatype FullTrigger = FullTrigger(producer: ProduceTrigger, consumer: ConsumeTrigger, controller: Option<Key>) {
    predicate Controlled() { controller.Some? }

    /** A kind that depends on a site must come with one, or building panics. */
    predicate Buildable() {
      && (consumer.kind.DependsOnSite() && (producer.kind.Always? || producer.kind.DependsOnSite()) ==>
           consumer.site.Some?)
      && (producer.kind.DependsOnSite() && (consumer.kind.Always? || consumer.kind.DependsOnSite()) ==>
           producer.site.Some?)
    }

    function ProducerSite(): Site
      requires producer.site.Some?
    {
      Site(producer.site.value, producer.kind.DeepConditional?)
    }

    function ConsumerSite(): Site
      requires consumer.site.Some?
    {
      Site(consumer.site.value, consumer.kind.DeepConditional?)
    }

    function ControllerSite(): Site
      requires Controlled()
    {
      Site(controller.value, false)
    }

    function Primitive(): PrimitiveFullTrigger {
      PrimitiveFullTrigger(consumer.position, producer.repr, consumer.repr)
    }
  }

  datatype ExplainedBool =
    | TrueBecauseShallowConstraint(externalAssertion: PrimitiveFullTrigger)
    | FalseBecauseShallowConstraint(externalAssertion: PrimitiveFullTrigger)
    | TrueBecauseDeepConstraint(internalAssertion: PrimitiveFullTrigger, deeperExplanation: ExplainedBool)
    | FalseBecauseDeepConstraint(internalAssertion: PrimitiveFullTrigger, deeperExplanation: ExplainedBool)
    | TrueBecauseAnnotation(annotationPos: Position)
    | FalseBecauseAnnotation(annotationPos: Position)
  {
    predicate Val() {
      TrueBecauseShallowConstraint? || TrueBecauseDeepConstraint? || TrueBecauseAnnotation?
    }

    function DeeperReason(): Option<ExplainedBool> {
      if TrueBecauseDeepConstraint? || FalseBecauseDeepConstraint? then Some(deeperExplanation) else None
    }

    function Position(): Position {
      match this
      case TrueBecauseShallowConstraint(a) => a.position
      case FalseBecauseShallowConstraint(a) => a.position
      case TrueBecauseDeepConstraint(a, _) => a.position
      case FalseBecauseDeepConstraint(a, _) => a.position
      case TrueBecauseAnnotation(pos) => pos
      case FalseBecauseAnnotation(pos) => pos
    }

    /** The representations of producer and consumer; an annotation has none. */
    function TriggerReprs(): Option<(Repr, Repr)> {
      match this
      case TrueBecauseShallowConstraint(a) => Some((a.producerRepr, a.consumerRepr))
      case FalseBecauseShallowConstraint(a) => Some((a.producerRepr, a.consumerRepr))
      case TrueBecauseDeepConstraint(a, _) => Some((a.producerRepr, a.consumerRepr))
      case FalseBecauseDeepConstraint(a, _) => Some((a.producerRepr, a.consumerRepr))
      case TrueBecauseAnnotation(_) => None
      case FalseBecauseAnnotation(_) => None
    }
  }
}
