# V1 raw value-specification transformer, in Dafny

This project models the part of Legend Studio's protocol layer that turns
raw value specifications of the metamodel into their V1 wire-protocol
counterparts (`V1_RawValueSpecificationTransformer` and
`V1_transformRawLambda`). There are four raw variants:

- a **lambda**, whose `body` and `parameters` are loosely typed JSON. When
  the transformer context's `keepSourceInformation` is false, every object
  entry keyed `sourceInformation` is pruned from them, at any depth;
- a **variable**, which becomes its type path, its encoded multiplicity and
  its name;
- a **root graph-fetch tree**, which becomes its class path and its
  transformed sub-trees;
- a **property graph-fetch tree**, which becomes its alias, the property's
  simple name, its parameters, its transformed sub-trees and its optional
  sub-type path.

The visitor's double dispatch becomes a `match` over a closed datatype
(`Transform`), so every variant has exactly one handler. The transformer
is pure: each handler builds a fresh protocol value from its input and
the context, so the model uses datatypes, functions and lemmas.

Files, one module each:

- `wrappers.dfy` (`Wrappers`): `Option`, standing for `T | undefined`.
- `plain_json.dfy` (`PlainJson`): JSON values, JavaScript truthiness, and
  `Omit`, the recursive key pruning the transformer calls (`recursiveOmit`).
- `raw_metamodel.dfy` (`RawMetamodel`): the raw variants, element and
  property references, multiplicities.
- `v1_protocol.dfy` (`V1Protocol`): the protocol variants.
- `core_transformer_helper.dfy` (`CoreTransformerHelper`): the reference
  and multiplicity helpers.
- `raw_value_specification_transformer.dfy`
  (`RawValueSpecificationTransformer`): the four handlers, the dispatch and
  the top-level entry.
- `transformer_properties.dfy` (`TransformerProperties`): properties over
  whole trees: shape preservation, pruning in every lambda, what the
  context decides, idempotence, injectivity.

Field names that are Dafny keywords are renamed: a variable's `type` is
`variableType`, a root tree's `class` is `classReference`, and the
protocol's `class` field is `classPath`.

Behaviour of the code that the model keeps on purpose:

- The `body ? … : undefined` and `parameters ? … : undefined` tests are
  JavaScript truthiness tests. A body or parameters part that is `null`,
  `false`, `0` or `""` comes out absent, like a missing one; an empty
  array or object is kept. `CopyLambdaPart` states this as an
  if-and-only-if.
- Only lambdas are pruned. A property graph-fetch tree's `parameters` are
  copied with `toJS` alone, so source information inside them reaches the
  protocol even when `keepSourceInformation` is false
  (`PropertyParametersAreNotPruned`). Source information in the output
  follows the flag inside lambdas only.
- The code raises no error of its own: a variable's type reference is a
  required field, the dispatch is closed, and the `as` casts of
  transformed sub-trees are unchecked. The model follows the code.

## Model

| member | source | states |
|---|---|---|
| `PlainJson.Omit` | packages/legend-studio/src/models/protocols/pure/v1/transformation/pureGraph/from/V1_RawValueSpecificationTransformer.ts:61-64 | the pruned value holds no entry keyed by any of the keys at any depth, through arrays and objects; a value holding none of them comes back unchanged; arrays keep their length, scalars are untouched and the value keeps its kind |
| `PlainJson.OmitEntries` | packages/legend-studio/src/models/protocols/pure/v1/transformation/pureGraph/from/V1_RawValueSpecificationTransformer.ts:61-64 | an object's pruned entries are no more than its entries, hold none of the keys at any depth, and are the entries themselves when none of the keys occurs |
| `PlainJson.OmitEntriesKeepsOthers` | packages/legend-studio/src/models/protocols/pure/v1/transformation/pureGraph/from/V1_RawValueSpecificationTransformer.ts:61-64 | pruning removes only the listed keys: every entry under another key survives, with its value pruned |
| `PlainJson.OmitArrayItems` | packages/legend-studio/src/models/protocols/pure/v1/transformation/pureGraph/from/V1_RawValueSpecificationTransformer.ts:61-64 | an array is pruned item by item: item i of the result is item i of the input, pruned, and the length is kept |
| `PlainJson.OmitEntriesComeFromInput` | packages/legend-studio/src/models/protocols/pure/v1/transformation/pureGraph/from/V1_RawValueSpecificationTransformer.ts:61-64 | pruning invents no entry: entry i of a pruned object is an input entry at index at least i, under a kept key, with its value pruned |
| `PlainJson.OmitEntriesDistributes` | packages/legend-studio/src/models/protocols/pure/v1/transformation/pureGraph/from/V1_RawValueSpecificationTransformer.ts:61-64 | pruning the concatenation of two entry lists is the concatenation of pruning each, so kept entries keep their order and appear exactly once |
| `PlainJson.OmitSingleEntry` | packages/legend-studio/src/models/protocols/pure/v1/transformation/pureGraph/from/V1_RawValueSpecificationTransformer.ts:61-64 | a single entry is dropped when its key is listed and otherwise kept, with its value pruned |
| `PlainJson.OmitIdempotent` | packages/legend-studio/src/models/protocols/pure/v1/transformation/pureGraph/from/V1_RawValueSpecificationTransformer.ts:61-64 | pruning an already pruned value changes nothing |
| `PlainJson.OmitIsIdentityIff` | packages/legend-studio/src/models/protocols/pure/v1/transformation/pureGraph/from/V1_RawValueSpecificationTransformer.ts:61-64 | pruning leaves a value unchanged if and only if none of the keys occurs in it at any depth |
| `PlainJson.OmitComposes` | packages/legend-studio/src/models/protocols/pure/v1/transformation/pureGraph/from/V1_RawValueSpecificationTransformer.ts:61-64 | pruning one key list and then another equals pruning both lists at once |
| `CoreTransformerHelper.TransformElementReference` | packages/legend-studio/src/models/protocols/pure/v1/transformation/pureGraph/from/V1_RawValueSpecificationTransformer.ts:87-89 | stand-in for the unseen reference helper: a required reference becomes its path |
| `CoreTransformerHelper.TransformOptionalElementReference` | packages/legend-studio/src/models/protocols/pure/v1/transformation/pureGraph/from/V1_RawValueSpecificationTransformer.ts:124-126 | an absent reference stays absent and a present one becomes present, as the reference's path |
| `CoreTransformerHelper.TransformMultiplicity` | packages/legend-studio/src/models/protocols/pure/v1/transformation/pureGraph/from/V1_RawValueSpecificationTransformer.ts:90-92 | the lower bound is copied; an unbounded upper bound maps to the absent sentinel and a finite one is copied |
| `CoreTransformerHelper.HelpersAreInjective` | packages/legend-studio/src/models/protocols/pure/v1/transformation/pureGraph/from/V1_RawValueSpecificationTransformer.ts:87-92 | under the stand-in helpers (reference to its path, bounds copied), distinct element references, and distinct multiplicities, never share an encoding |
| `RawValueSpecificationTransformer.CopyLambdaPart` | packages/legend-studio/src/models/protocols/pure/v1/transformation/pureGraph/from/V1_RawValueSpecificationTransformer.ts:57-79 | the output part is absent exactly when the input part is absent or falsy; kept parts equal the input when the context keeps source information; when it does not, they are the input pruned of the source-information key and hold no source information; either way they equal the input when it had none |
| `RawValueSpecificationTransformer.VisitRawLambda` | packages/legend-studio/src/models/protocols/pure/v1/transformation/pureGraph/from/V1_RawValueSpecificationTransformer.ts:51-81 | body and parameters are each absent exactly when absent or falsy in the input; with the flag set they are the input parts; without it they are the input parts pruned of the source-information key, and hold no source information at any depth |
| `RawValueSpecificationTransformer.VisitRawVariable` | packages/legend-studio/src/models/protocols/pure/v1/transformation/pureGraph/from/V1_RawValueSpecificationTransformer.ts:83-95 | the name is copied verbatim, the class is the reference helper's image of the type, and the multiplicity is the multiplicity helper's image of the input one, keeping its lower bound and its unboundedness |
| `RawValueSpecificationTransformer.Transform` | packages/legend-studio/src/models/protocols/pure/v1/transformation/pureGraph/from/V1_RawValueSpecificationTransformer.ts:104-107 | the dispatch is total and yields the protocol variant matching the raw variant |
| `RawValueSpecificationTransformer.TransformSubTrees` | packages/legend-studio/src/models/protocols/pure/v1/transformation/pureGraph/from/V1_RawValueSpecificationTransformer.ts:104-107 | sub-trees keep their number and order: output i is the transform of input i, on structurally smaller inputs |
| `RawValueSpecificationTransformer.VisitRawRootGraphFetchTree` | packages/legend-studio/src/models/protocols/pure/v1/transformation/pureGraph/from/V1_RawValueSpecificationTransformer.ts:97-109 | the class is the reference helper's image of the root class and the sub-trees are the input sub-trees transformed one by one, in order |
| `RawValueSpecificationTransformer.VisitRawPropertyGraphFetchTree` | packages/legend-studio/src/models/protocols/pure/v1/transformation/pureGraph/from/V1_RawValueSpecificationTransformer.ts:111-128 | the alias is copied, absent included; the property is the resolved property's simple name, not a path; parameters are copied in order; the sub-trees are the input sub-trees transformed one by one, in order; the sub-type is absent exactly when absent in the input |
| `RawValueSpecificationTransformer.TransformRawLambda` | packages/legend-studio/src/models/protocols/pure/v1/transformation/pureGraph/from/V1_RawValueSpecificationTransformer.ts:131-137 | dispatching a lambda always yields the lambda variant, and the entry returns exactly that lambda, the one the lambda handler builds |
| `TransformerProperties.TransformPreservesShape` | packages/legend-studio/src/models/protocols/pure/v1/transformation/pureGraph/from/V1_RawValueSpecificationTransformer.ts:104-107 | the whole output tree has the input's skeleton: every node keeps its variant and every node's sub-trees their number and order, at every depth |
| `TransformerProperties.GraphFetchTreeStaysGraphFetchTree` | packages/legend-studio/src/models/protocols/pure/v1/transformation/pureGraph/from/V1_RawValueSpecificationTransformer.ts:104-107 | a graph-fetch tree whose sub-trees are property trees all the way down transforms into one of the same form, so the casts of transformed sub-trees are sound |
| `TransformerProperties.PruningReachesEveryLambda` | packages/legend-studio/src/models/protocols/pure/v1/transformation/pureGraph/from/V1_RawValueSpecificationTransformer.ts:57-79 | when the context drops source information, no lambda anywhere in the output tree holds any |
| `TransformerProperties.ContextOnlyDecidesSourceInformation` | packages/legend-studio/src/models/protocols/pure/v1/transformation/pureGraph/from/V1_RawValueSpecificationTransformer.ts:57-79 | when no lambda in the input holds source information, both settings of the flag give the same output tree |
| `TransformerProperties.TransformRawLambdaIsIdempotent` | packages/legend-studio/src/models/protocols/pure/v1/transformation/pureGraph/from/V1_RawValueSpecificationTransformer.ts:57-79 | transforming the output lambda again under the same context gives it back unchanged |
| `TransformerProperties.PropertyParametersAreNotPruned` | packages/legend-studio/src/models/protocols/pure/v1/transformation/pureGraph/from/V1_RawValueSpecificationTransformer.ts:118-119 | for every property tree and context, each parameter is copied unchanged in place, so source information in it survives even when the context drops it |
| `TransformerProperties.PropertyParametersAreNotPrunedExample` | packages/legend-studio/src/models/protocols/pure/v1/transformation/pureGraph/from/V1_RawValueSpecificationTransformer.ts:118-119 | a concrete property tree whose protocol parameters hold source information with the flag off |
| `TransformerProperties.VariableTransformIsInjective` | packages/legend-studio/src/models/protocols/pure/v1/transformation/pureGraph/from/V1_RawValueSpecificationTransformer.ts:86-94 | under the stand-in helpers, two variables with the same protocol form are the same variable |

## Left out

- MobX `toJS` and observables: `toJS` on plain data is the identity, and the model's data is plain values.
- `V1_CoreTransformerHelper` is not part of this model: the element reference helper is modelled as returning the reference's path, and the multiplicity helper as copying both bounds.
- HelpersAreInjective: holds of the stand-in helpers only; whether the real reference helper is injective depends on code that is not part of this model.
- VariableTransformIsInjective: rests on HelpersAreInjective, so it too is a fact about the stand-in helpers, not about the real ones.
- `recursiveOmit` from the shared library is not part of this model: `Omit` is this model's own recursive definition.
- `SOURCE_INFORMATION_KEY` is defined in `MetaModelConst`, which is not part of this model; its value `"sourceInformation"` is assumed, and no property depends on it.
- JSON numbers are integers: floating point, `NaN` and `-0` (both falsy in JavaScript) are not modelled.
- JavaScript objects have unique keys; the model's object entries may repeat a key, and pruning drops every repeat.
- Mutation and aliasing: the model works on values, so the transformer cannot change its input or its context, and transforming the same input twice gives equal results; neither fact is stated separately.
- The other fields of `V1_GraphTransformerContext`: this transformer reads only `keepSourceInformation`.
- Errors for a missing type reference, an unknown variant or a too-deep tree, and a recursion-depth guard: the code implements none of them.
- The data-space quick-start state, the persistence `AllRowsEquivalentToJson` metamodel and the `V1_GenerationInput` serialization schema: UI state, a hash delegated to a foreign function, and a schema declaration, none of them part of the transformer.
