/** The V1 wire-protocol side: plain data carriers with references
    flattened to path strings and no link back to the metamodel. */
module V1Protocol {

  import opened Wrappers
  import opened PlainJson

  /** A protocol multiplicity; an absent upper bound encodes `*`. */
  datatype V1Multiplicity = V1Multiplicity(lowerBound: nat, upperBound: Option<nat>)

  datatype V1RawLambda = V1RawLambda(body: Option<Json>, parameters: Option<Json>)

  /** `classPath` is the protocol's `class` field: the variable's type path. */
  datatype V1RawVariable =
    V1RawVariable(classPath: string, multiplicity: V1Multiplicity, name: string)

  datatype V1RawRootGraphFetchTree =
    V1RawRootGraphFetchTree(classPath: string, subTrees: seq<V1RawValueSpecification>)

  datatype V1RawPropertyGraphFetchTree =
    V1RawPropertyGraphFetchTree(
      alias: Option<string>,
      property: string,
      parameters: seq<Json>,
      subTrees: seq<V1RawValueSpecification>,
      subType: Option<string>)

  datatype V1RawValueSpecification =
    | V1Lambda(lambda: V1RawLambda)
    | V1Variable(variable: V1RawVariable)
    | V1RootGraphFetchTree(root: V1RawRootGraphFetchTree)
    | V1PropertyGraphFetchTree(propertyTree: V1RawPropertyGraphFetchTree)
}
