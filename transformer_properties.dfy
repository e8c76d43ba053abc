/** What the transformer promises over whole trees: it keeps the tree's
    shape (variants, lengths and order of sub-trees), the context only
    decides about source information inside lambdas, and, under the
    stand-in reference and multiplicity helpers, no information about
    variables is lost. */
module TransformerProperties {

  import opened Wrappers
  import opened PlainJson
  import opened RawMetamodel
  import opened V1Protocol
  import opened CoreTransformerHelper
  import opened RawValueSpecificationTransformer

  datatype Kind = LambdaKind | VariableKind | RootTreeKind | PropertyTreeKind

  /** The skeleton of a tree: the variant of each node and its sub-trees, in order. */
  datatype Shape = Shape(kind: Kind, children: seq<Shape>)

  function RawShape(x: RawValueSpecification): Shape
  {
    match x
    case Lambda(_) => Shape(LambdaKind, [])
    case Variable(_) => Shape(VariableKind, [])
    case RootGraphFetchTree(t) =>
      Shape(RootTreeKind, seq(|t.subTrees|, i requires 0 <= i < |t.subTrees| => RawShape(t.subTrees[i])))
    case PropertyGraphFetchTree(t) =>
      Shape(PropertyTreeKind, seq(|t.subTrees|, i requires 0 <= i < |t.subTrees| => RawShape(t.subTrees[i])))
  }

  function V1Shape(y: V1RawValueSpecification): Shape
  {
    match y
    case V1Lambda(_) => Shape(LambdaKind, [])
    case V1Variable(_) => Shape(VariableKind, [])
    case V1RootGraphFetchTree(t) =>
      Shape(RootTreeKind, seq(|t.subTrees|, i requires 0 <= i < |t.subTrees| => V1Shape(t.subTrees[i])))
    case V1PropertyGraphFetchTree(t) =>
      Shape(PropertyTreeKind, seq(|t.subTrees|, i requires 0 <= i < |t.subTrees| => V1Shape(t.subTrees[i])))
  }

  /** A property tree all of whose sub-trees, at every depth, are property trees. */
  predicate IsPropertyTreeShape(s: Shape)
  {
    s.kind == PropertyTreeKind &&
    forall i :: 0 <= i < |s.children| ==> IsPropertyTreeShape(s.children[i])
  }

  /** A well-formed graph-fetch tree: a root or property tree whose sub-trees
      are property trees all the way down. */
  predicate IsGraphFetchTreeShape(s: Shape)
  {
    (s.kind == RootTreeKind || s.kind == PropertyTreeKind) &&
    forall i :: 0 <= i < |s.children| ==> IsPropertyTreeShape(s.children[i])
  }

  /** Transformation keeps the whole tree's skeleton: every node keeps its
      variant, and every node's sub-trees keep their number and order. */
  lemma {:induction false} TransformPreservesShape(x: RawValueSpecification, context: TransformerContext)
    ensures V1Shape(Transform(x, context)) == RawShape(x)
    decreases x
  {
    match x
    case RootGraphFetchTree(t) =>
      forall i | 0 <= i < |t.subTrees|
        ensures V1Shape(Transform(t.subTrees[i], context)) == RawShape(t.subTrees[i])
      {
        TransformPreservesShape(t.subTrees[i], context);
      }
    case PropertyGraphFetchTree(t) =>
      forall i | 0 <= i < |t.subTrees|
        ensures V1Shape(Transform(t.subTrees[i], context)) == RawShape(t.subTrees[i])
      {
        TransformPreservesShape(t.subTrees[i], context);
      }
    case _ =>
  }

  /** A well-formed raw graph-fetch tree becomes a well-formed protocol
      graph-fetch tree, so reading each transformed sub-tree as a protocol
      graph-fetch tree is sound. */
  lemma GraphFetchTreeStaysGraphFetchTree(x: RawValueSpecification, context: TransformerContext)
    requires IsGraphFetchTreeShape(RawShape(x))
    ensures IsGraphFetchTreeShape(V1Shape(Transform(x, context)))
  {
    TransformPreservesShape(x, context);
  }

  /** Some lambda reachable from `x` holds source information in a body or
      parameters part that the transformer copies. */
  predicate LambdaHasSourceInformation(x: RawValueSpecification)
  {
    match x
    case Lambda(l) =>
      (l.body.Some? && HasSourceInformation(l.body.value)) ||
      (l.parameters.Some? && HasSourceInformation(l.parameters.value))
    case Variable(_) => false
    case RootGraphFetchTree(t) =>
      exists i :: 0 <= i < |t.subTrees| && LambdaHasSourceInformation(t.subTrees[i])
    case PropertyGraphFetchTree(t) =>
      exists i :: 0 <= i < |t.subTrees| && LambdaHasSourceInformation(t.subTrees[i])
  }

  /** Every protocol lambda reachable from `y` is free of source information. */
  predicate V1LambdasFreeOfSourceInformation(y: V1RawValueSpecification)
  {
    match y
    case V1Lambda(l) =>
      (l.body.Some? ==> !HasSourceInformation(l.body.value)) &&
      (l.parameters.Some? ==> !HasSourceInformation(l.parameters.value))
    case V1Variable(_) => true
    case V1RootGraphFetchTree(t) =>
      forall i :: 0 <= i < |t.subTrees| ==> V1LambdasFreeOfSourceInformation(t.subTrees[i])
    case V1PropertyGraphFetchTree(t) =>
      forall i :: 0 <= i < |t.subTrees| ==> V1LambdasFreeOfSourceInformation(t.subTrees[i])
  }

  /** When the context drops source information, no lambda anywhere in the
      output holds any, at any depth. */
  lemma {:induction false} PruningReachesEveryLambda(x: RawValueSpecification, context: TransformerContext)
    requires !context.keepSourceInformation
    ensures V1LambdasFreeOfSourceInformation(Transform(x, context))
    decreases x
  {
    match x
    case RootGraphFetchTree(t) =>
      forall i | 0 <= i < |t.subTrees|
        ensures V1LambdasFreeOfSourceInformation(Transform(t.subTrees[i], context))
      {
        PruningReachesEveryLambda(t.subTrees[i], context);
      }
    case PropertyGraphFetchTree(t) =>
      forall i | 0 <= i < |t.subTrees|
        ensures V1LambdasFreeOfSourceInformation(Transform(t.subTrees[i], context))
      {
        PruningReachesEveryLambda(t.subTrees[i], context);
      }
    case _ =>
  }

  /** The context decides nothing else: on a tree whose lambdas hold no
      source information, both settings give the same output. */
  lemma {:induction false} ContextOnlyDecidesSourceInformation(x: RawValueSpecification, c1: TransformerContext, c2: TransformerContext)
    requires !LambdaHasSourceInformation(x)
    ensures Transform(x, c1) == Transform(x, c2)
    decreases x
  {
    match x
    case RootGraphFetchTree(t) =>
      SubTreesContextIndependent(t.subTrees, c1, c2);
    case PropertyGraphFetchTree(t) =>
      SubTreesContextIndependent(t.subTrees, c1, c2);
    case _ =>
  }

  lemma {:induction false} SubTreesContextIndependent(subTrees: seq<RawValueSpecification>, c1: TransformerContext, c2: TransformerContext)
    requires forall i :: 0 <= i < |subTrees| ==> !LambdaHasSourceInformation(subTrees[i])
    ensures TransformSubTrees(subTrees, c1) == TransformSubTrees(subTrees, c2)
    decreases subTrees
  {
    forall i | 0 <= i < |subTrees|
      ensures TransformSubTrees(subTrees, c1)[i] == TransformSubTrees(subTrees, c2)[i]
    {
      ContextOnlyDecidesSourceInformation(subTrees[i], c1, c2);
    }
  }

  /** Transforming an already pruned lambda again, under the same context,
      gives it back unchanged. */
  lemma TransformRawLambdaIsIdempotent(lambda: RawLambda, context: TransformerContext)
    ensures var r := TransformRawLambda(lambda, context);
            TransformRawLambda(RawLambda(r.body, r.parameters), context) == r
  {
  }

  /** A property tree's parameters are copied as they are whatever the
      context: source information inside any of them survives even when
      the context drops it. */
  lemma PropertyParametersAreNotPruned(tree: RawPropertyGraphFetchTree, context: TransformerContext, i: nat)
    requires i < |tree.parameters|
    ensures var r := VisitRawPropertyGraphFetchTree(tree, context);
            |r.parameters| == |tree.parameters| &&
            r.parameters[i] == tree.parameters[i] &&
            (HasSourceInformation(tree.parameters[i]) ==> HasSourceInformation(r.parameters[i]))
  {
  }

  /** One such tree: with the context dropping source information, its
      protocol parameters still hold some. */
  lemma PropertyParametersAreNotPrunedExample()
    ensures var tree := RawPropertyGraphFetchTree(
                          None,
                          PropertyReference(Property("orders", ElementReference("model::Firm"))),
                          [Obj([(SOURCE_INFORMATION_KEY, Num(1))])],
                          [],
                          None);
            var r := VisitRawPropertyGraphFetchTree(tree, TransformerContext(false));
            HasSourceInformation(r.parameters[0])
  {
    var j := Obj([(SOURCE_INFORMATION_KEY, Num(1))]);
    assert j.entries[0].0 in {SOURCE_INFORMATION_KEY};
  }

  /** With the stand-in reference and multiplicity helpers, a variable's
      protocol form loses nothing: distinct variables give distinct
      protocol variables. */
  lemma VariableTransformIsInjective(a: RawVariableExpression, b: RawVariableExpression)
    requires VisitRawVariable(a) == VisitRawVariable(b)
    ensures a == b
  {
  }
}
