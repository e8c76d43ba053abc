/** The metamodel side: raw value specifications as the graph holds them
    before they are sent to the engine. Their `body` and `parameters` are
    loosely typed JSON; their references point at named elements. */
module RawMetamodel {

  import opened Wrappers
  import opened PlainJson

  /** A reference to a packageable element (a class, a type), by its path. */
  datatype ElementReference = ElementReference(path: string)

  /** A cardinality: a lower bound and an upper bound, `None` meaning
      unbounded (`*`). */
  datatype Multiplicity = Multiplicity(lowerBound: nat, upperBound: Option<nat>)

  /** A property of a class: its simple name and the class that owns it. */
  datatype Property = Property(name: string, owner: ElementReference)

  /** A resolved reference to a property. */
  datatype PropertyReference = PropertyReference(value: Property)

  datatype RawLambda = RawLambda(body: Option<Json>, parameters: Option<Json>)

  datatype RawVariableExpression =
    RawVariableExpression(name: string, variableType: ElementReference, multiplicity: Multiplicity)

  /** The root of a graph-fetch tree: the class to fetch and the property
      trees under it. */
  datatype RawRootGraphFetchTree =
    RawRootGraphFetchTree(classReference: ElementReference, subTrees: seq<RawValueSpecification>)

  /** One property to fetch, with the properties to fetch under it. */
  datatype RawPropertyGraphFetchTree =
    RawPropertyGraphFetchTree(
      alias: Option<string>,
      property: PropertyReference,
      parameters: seq<Json>,
      subTrees: seq<RawValueSpecification>,
      subType: Option<ElementReference>)

  /** The closed set of raw value specifications a transformer visits. */
  datatype RawValueSpecification =
    | Lambda(lambda: RawLambda)
    | Variable(variable: RawVariableExpression)
    | RootGraphFetchTree(root: RawRootGraphFetchTree)
    | PropertyGraphFetchTree(propertyTree: RawPropertyGraphFetchTree)
}
