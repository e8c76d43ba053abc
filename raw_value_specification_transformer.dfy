/** The V1 raw value-specification transformer: a total dispatch over the
    raw variants, each turned into its protocol counterpart, with the
    graph-fetch trees transformed recursively and source information
    pruned from lambdas unless the context says to keep it. */
module RawValueSpecificationTransformer {

  import opened Wrappers
  import opened PlainJson
  import opened RawMetamodel
  import opened V1Protocol
  import opened CoreTransformerHelper

  /** The reserved key under which the metamodel stores source locations. */
  const SOURCE_INFORMATION_KEY: string := "sourceInformation"

  /** The part of the graph transformer context this transformer reads. It is
      fixed for the whole transformation. */
  datatype TransformerContext = TransformerContext(keepSourceInformation: bool)

  /** `j` holds source information at some depth. */
  predicate HasSourceInformation(j: Json)
  {
    Mentions(j, {SOURCE_INFORMATION_KEY})
  }

  /** The protocol copy of a lambda's `body` or `parameters`: a falsy or
      absent part becomes absent; otherwise the part is copied as is, or
      copied without source information when the context does not keep it. */
  function CopyLambdaPart(part: Option<Json>, context: TransformerContext): (r: Option<Json>)
    ensures r.None? <==> part.None? || !Truthy(part.value)
    ensures r.Some? && context.keepSourceInformation ==> r == part
    ensures r.Some? && !context.keepSourceInformation ==> r.value == Omit(part.value, {SOURCE_INFORMATION_KEY})
    ensures r.Some? && !context.keepSourceInformation ==> !HasSourceInformation(r.value)
    ensures r.Some? && !HasSourceInformation(part.value) ==> r == part
  {
    if part.Some? && Truthy(part.value) then
      if context.keepSourceInformation then part
      else Some(Omit(part.value, {SOURCE_INFORMATION_KEY}))
    else
      None
  }

  function VisitRawLambda(lambda: RawLambda, context: TransformerContext): (r: V1RawLambda)
    ensures r.body.None? <==> lambda.body.None? || !Truthy(lambda.body.value)
    ensures r.parameters.None? <==> lambda.parameters.None? || !Truthy(lambda.parameters.value)
    ensures context.keepSourceInformation ==>
              (r.body.Some? ==> r.body == lambda.body) && (r.parameters.Some? ==> r.parameters == lambda.parameters)
    ensures !context.keepSourceInformation ==>
              (r.body.Some? ==> r.body.value == Omit(lambda.body.value, {SOURCE_INFORMATION_KEY})) &&
              (r.parameters.Some? ==> r.parameters.value == Omit(lambda.parameters.value, {SOURCE_INFORMATION_KEY}))
    ensures !context.keepSourceInformation ==>
              (r.body.Some? ==> !HasSourceInformation(r.body.value)) &&
              (r.parameters.Some? ==> !HasSourceInformation(r.parameters.value))
  {
    V1RawLambda(CopyLambdaPart(lambda.body, context), CopyLambdaPart(lambda.parameters, context))
  }

  function VisitRawVariable(variable: RawVariableExpression): (r: V1RawVariable)
    ensures r.name == variable.name
    ensures r.classPath == TransformElementReference(variable.variableType)
    ensures r.multiplicity == TransformMultiplicity(variable.multiplicity)
    ensures r.multiplicity.lowerBound == variable.multiplicity.lowerBound
    ensures r.multiplicity.upperBound.None? <==> variable.multiplicity.upperBound.None?
  {
    V1RawVariable(
      TransformElementReference(variable.variableType),
      TransformMultiplicity(variable.multiplicity),
      variable.name)
  }

  /** The dispatch: every raw variant has exactly one handler, and the
      result is always the matching protocol variant. */
  function Transform(x: RawValueSpecification, context: TransformerContext): (r: V1RawValueSpecification)
    ensures r.V1Lambda? <==> x.Lambda?
    ensures r.V1Variable? <==> x.Variable?
    ensures r.V1RootGraphFetchTree? <==> x.RootGraphFetchTree?
    ensures r.V1PropertyGraphFetchTree? <==> x.PropertyGraphFetchTree?
    decreases x, 2
  {
    match x
    case Lambda(l) => V1Lambda(VisitRawLambda(l, context))
    case Variable(v) => V1Variable(VisitRawVariable(v))
    case RootGraphFetchTree(t) => V1RootGraphFetchTree(VisitRawRootGraphFetchTree(t, context))
    case PropertyGraphFetchTree(t) => V1PropertyGraphFetchTree(VisitRawPropertyGraphFetchTree(t, context))
  }

  /** Sub-trees are transformed one by one, in order, each by the dispatch. */
  function TransformSubTrees(subTrees: seq<RawValueSpecification>, context: TransformerContext): (r: seq<V1RawValueSpecification>)
    ensures |r| == |subTrees|
    ensures forall i :: 0 <= i < |subTrees| ==> r[i] == Transform(subTrees[i], context)
    decreases subTrees, 0
  {
    seq(|subTrees|, i requires 0 <= i < |subTrees| => Transform(subTrees[i], context))
  }

  function VisitRawRootGraphFetchTree(tree: RawRootGraphFetchTree, context: TransformerContext): (r: V1RawRootGraphFetchTree)
    ensures r.classPath == TransformElementReference(tree.classReference)
    ensures r.subTrees == TransformSubTrees(tree.subTrees, context)
    ensures |r.subTrees| == |tree.subTrees|
    decreases tree, 1
  {
    V1RawRootGraphFetchTree(
      TransformElementReference(tree.classReference),
      TransformSubTrees(tree.subTrees, context))
  }

  function VisitRawPropertyGraphFetchTree(tree: RawPropertyGraphFetchTree, context: TransformerContext): (r: V1RawPropertyGraphFetchTree)
    ensures r.alias == tree.alias
    ensures r.property == tree.property.value.name
    ensures r.parameters == tree.parameters
    ensures r.subTrees == TransformSubTrees(tree.subTrees, context)
    ensures |r.subTrees| == |tree.subTrees|
    ensures r.subType.None? <==> tree.subType.None?
    ensures tree.subType.Some? ==> r.subType == Some(TransformElementReference(tree.subType.value))
    decreases tree, 1
  {
    V1RawPropertyGraphFetchTree(
      tree.alias,
      tree.property.value.name,
      tree.parameters,
      TransformSubTrees(tree.subTrees, context),
      TransformOptionalElementReference(tree.subType))
  }

  /** The top-level entry: a raw lambda always comes back as a protocol
      lambda, the one the lambda handler builds. */
  function TransformRawLambda(lambda: RawLambda, context: TransformerContext): (r: V1RawLambda)
    ensures Transform(Lambda(lambda), context) == V1Lambda(r)
    ensures r == VisitRawLambda(lambda, context)
  {
    Transform(Lambda(lambda), context).lambda
  }
}
