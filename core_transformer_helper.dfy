/** The reference and multiplicity helpers the value-specification
    transformer imports: each maps a metamodel reference or cardinality to
    its protocol encoding. */
module CoreTransformerHelper {

  import opened Wrappers
  import opened RawMetamodel
  import opened V1Protocol

  /** A required element reference becomes its path. This is a stand-in:
      the model's reference holds nothing but its path. */
  function TransformElementReference(ref: ElementReference): (path: string)
    ensures path == ref.path
  {
    ref.path
  }

  /** An optional element reference: absent stays absent, present becomes
      its path. */
  function TransformOptionalElementReference(ref: Option<ElementReference>): (r: Option<string>)
    ensures r.Some? <==> ref.Some?
    ensures r.Some? ==> r.value == TransformElementReference(ref.value)
  {
    match ref
    case None => None
    case Some(e) => Some(TransformElementReference(e))
  }

  /** Bounds are copied; an unbounded upper bound stays the absent sentinel,
      distinct from every finite bound. */
  function TransformMultiplicity(m: Multiplicity): (r: V1Multiplicity)
    ensures r.lowerBound == m.lowerBound
    ensures r.upperBound.None? <==> m.upperBound.None?
    ensures m.upperBound.Some? ==> r.upperBound == Some(m.upperBound.value)
  {
    V1Multiplicity(m.lowerBound, m.upperBound)
  }

  /** Under these stand-in definitions, no two distinct references or
      multiplicities share an encoding. */
  lemma HelpersAreInjective(a: ElementReference, b: ElementReference, m: Multiplicity, n: Multiplicity)
    ensures TransformElementReference(a) == TransformElementReference(b) ==> a == b
    ensures TransformMultiplicity(m) == TransformMultiplicity(n) ==> m == n
  {
  }
}
