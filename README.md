# PhysicalMaterial node of x3dom, modelled in Dafny

x3dom renders X3D scenes declared in a web page. Its `PhysicalMaterial` node
type is a metallic-roughness PBR material. It has four factor fields
(`baseColorFactor`, `metallicFactor`, `roughnessFactor`, `emissiveFactor`), two
normal-map settings (`normalSpace`, `normalBias`) and five optional texture
slots (`baseColorTexture`, `normalTexture`, `occlusionTexture`,
`emissiveTexture`, `metallicRoughnessTexture`). Beyond its field defaults it
does three things:

- `fieldChanged`: when one of the four factors changes, it walks from the
  material to the appearances using it and from each of those to the shapes
  using it. It marks every such shape's material dirty, then calls the
  appearance's `checkSortType`.
- `hasTextures`: tells whether any texture slot is bound.
- `getTextures`: lists the bound texture nodes in a fixed slot order. It also
  writes a role tag (`_type`) onto each listed node.

The model:

- `nodes.dfy`, module `Nodes`: the nodes the material talks to, as classes
  with the fields it touches. `Shape.dirtyMaterial` is `_dirty.material`.
  `Appearance.parents` is the appearance's `_parentNodes`, and
  `Appearance.sortChecks` counts `checkSortType` calls. `TextureNode.role` is
  `_type`. `Effect` is one side effect of a field change. A `Trace` records
  those effects: `Shape.MarkMaterialDirty` and `Appearance.CheckSortType` each
  append their own entry, so the trace shows the order of the calls.
- `propagation.dfy`, module `Propagation`: ghost functions over the
  material → appearance → shape back-links. They give the grandparent shapes
  and the ordered log of effects a watched-field change must produce. Lemmas
  state what that log means: which shapes get marked, which appearances get
  checked, how often and in what order.
- `texture_slots.dfy`, module `TextureSlots`: the five slots as a
  `seq<TextureNode?>` in scan order. `Bound` gives the listed nodes and
  `LastRole` the tag a node ends up with. Lemmas state order, length,
  emptiness, membership and tag facts about them.
- `physical_material.dfy`, module `PhysicalMaterialNode`: the class
  `PhysicalMaterial`, with its fields, constructor defaults and the three
  operations. `FieldChanged` and `GetTextures` update the heap in place and
  are proved against the functions above. For one of the four factor names,
  `FieldChanged` guarantees that the trace grows by exactly
  `FieldChangeEffects(parents)`. For any other name the trace is unchanged.
  As a result, the order lemmas of `Propagation` hold for the calls the
  method actually makes. The inner walk over one appearance's shapes is the method `MarkShapesDirty`, matching the inner
  `forEach` callback of the source. Each of the five identical slot blocks of
  `getTextures` is one call of `TagAndAppend`. The scenario methods at the end
  run a factor change and a normalSpace change on a small graph: one
  appearance used twice by the material, and one shape shared by two
  appearances.

Two modelling choices follow the code:

- `metallicFactor` and `roughnessFactor` carry `@range [0, 1]` only in doc
  comments (src/nodes/Shape/PhysicalMaterial.js:49 and :63). Nothing in the
  material checks or clamps a value, so the model has no range check.
- `_parentNodes` is an array that `Array.forEach` walks in order, and a
  repeated entry is visited again. Parents are therefore sequences: an
  appearance listed twice is checked twice, and its shapes are marked twice.

## Model

| member | source | states |
|---|---|---|
| `PhysicalMaterialNode.PhysicalMaterial.constructor` | src/nodes/Shape/PhysicalMaterial.js:40-169 | a fresh material has baseColorFactor (1,1,1,1), metallicFactor 0, roughnessFactor 0.2, emissiveFactor (0,0,0), normalSpace "TANGENT", normalBias (-1,-1,1), all five texture slots unbound, so `HasTextures()` is false, and no parents |
| `PhysicalMaterialNode.PhysicalMaterial.HasTextures` | src/nodes/Shape/PhysicalMaterial.js:187-194 | true iff some slot of the five is bound, and iff the texture list `Bound(Slots())` is non-empty |
| `PhysicalMaterialNode.PhysicalMaterial.FieldChanged` | src/nodes/Shape/PhysicalMaterial.js:173-185 | for a watched factor name: every grandparent shape ends up material-dirty, and each parent appearance's sort-check count grows by its number of occurrences among the parents. The trace of marks and checks grows by exactly `FieldChangeEffects(parents)`, so the order lemmas below describe the calls made. For any other name: no flag, count or trace entry changes. A flag is never cleared, and only grandparent flags, parent counters and the trace may be written |
| `PhysicalMaterialNode.NotifyAppearances` | src/nodes/Shape/PhysicalMaterial.js:178-183 | the outer walk: visiting the appearances in list order appends `FieldChangeEffects(apps)` to the trace, leaves every shape of every appearance material-dirty, and raises each appearance's sort-check count by its number of occurrences in the list |
| `PhysicalMaterialNode.NotifyAppearance` | src/nodes/Shape/PhysicalMaterial.js:179-182 | one step of the outer walk: the trace receives the marks of the appearance's shapes in order, then that appearance's check; all its shapes are dirty and its count rises by one |
| `PhysicalMaterialNode.MarkShapesDirty` | src/nodes/Shape/PhysicalMaterial.js:179-181 | every shape of the list is material-dirty afterwards, the trace receives the marks in list order, and no other shape is touched |
| `Nodes.Shape.MarkMaterialDirty` | src/nodes/Shape/PhysicalMaterial.js:180 | the shape's material flag is true afterwards and the trace gains one mark of this shape, nothing else |
| `Nodes.Appearance.CheckSortType` | src/nodes/Shape/PhysicalMaterial.js:182 | the call is recorded by incrementing the appearance's sort-check count and appending its check to the trace; nothing else about the appearance changes |
| `PhysicalMaterialNode.UnwatchedChangeIsInert` | src/nodes/Shape/PhysicalMaterial.js:175-177 | a change of normalSpace, normalBias or any of the five texture slots leaves every grandparent flag, every parent's sort-check count and the trace unchanged |
| `PhysicalMaterialNode.ScenarioGrandparents` | src/nodes/Shape/PhysicalMaterial.js:178-181 | with parents `[a1, a2, a1]`, `a1` used by shapes `s1`, `s2` and `a2` by `s2`, the shapes reached two levels up are exactly `s1` and `s2` |
| `PhysicalMaterialNode.RoughnessChangeScenario` | src/nodes/Shape/PhysicalMaterial.js:173-185 | on that graph a roughnessFactor change marks `s1` and `s2`, leaves an unrelated `s3` as it was, and re-checks `a1` twice and `a2` once |
| `PhysicalMaterialNode.NormalSpaceScenario` | src/nodes/Shape/PhysicalMaterial.js:173-185 | on that graph a normalSpace change leaves every flag and every sort-check count as it was |
| `PhysicalMaterialNode.RoughnessChangeOnFreshNodes` | src/nodes/Shape/PhysicalMaterial.js:173-185 | built from fresh, clean nodes, a roughnessFactor change and then a normalSpace change leave `s1` and `s2` dirty, `s3` clean, `a1` checked twice and `a2` once |
| `Propagation.MarksOnlyMark` | src/nodes/Shape/PhysicalMaterial.js:179-181 | the marks of a shape list are one `MaterialMarked` per shape, position by position |
| `Propagation.ChecksFollowParentOrder` | src/nodes/Shape/PhysicalMaterial.js:178-183 | the sort-type checks in `FieldChangeEffects(parents)`, which is what `FieldChanged` appends to the trace, are exactly the parent appearances, once per entry, in parent order |
| `Propagation.SortChecksPerAppearance` | src/nodes/Shape/PhysicalMaterial.js:178-183 | an appearance occurring n times among the parents is checked exactly n times |
| `Propagation.MarkedAreGrandparents` | src/nodes/Shape/PhysicalMaterial.js:178-181 | the shapes marked in `FieldChangeEffects(parents)`, which is what `FieldChanged` appends to the trace, are exactly the shapes that use some parent appearance |
| `Propagation.MarksPrecedeCheck` | src/nodes/Shape/PhysicalMaterial.js:178-183 | every sort-type check of an appearance comes immediately after the marks of that appearance's shapes, in their order |
| `PhysicalMaterialNode.PhysicalMaterial.GetTextures` | src/nodes/Shape/PhysicalMaterial.js:196-236 | returns `Bound(Slots())`; every bound slot's node carries `LastRole` for it (the role of the last slot binding it); the material, its slot bindings included, is unchanged, and only bound nodes' tags may be written |
| `PhysicalMaterialNode.TagAndAppend` | src/nodes/Shape/PhysicalMaterial.js:200-205 | one slot block: after it, the list is `Bound` of the slots up to and including this one, and every node of those slots carries its last role among them |
| `PhysicalMaterialNode.GetTexturesTwice` | src/nodes/Shape/PhysicalMaterial.js:196-236 | two successive listings return the same sequence. Every bound node's tag is `LastRole`, the role of the last slot binding it, both as recorded between the listings and after the second; this is the tag `GetTextures` promises for the first listing, so the second changes no tag |
| `PhysicalMaterialNode.SharedTextureTakesLastTag` | src/nodes/Shape/PhysicalMaterial.js:200-212 | a node bound as base colour texture of one material and as normal texture of another ends up tagged "normalMap" after listing the first, then the second |
| `TextureSlots.BoundIsOrderedSelection` | src/nodes/Shape/PhysicalMaterial.js:198-235 | the k-th listed node is the node of the k-th bound slot; the selected slot indices increase strictly and are all and only the bound slots |
| `TextureSlots.BoundLength` | src/nodes/Shape/PhysicalMaterial.js:198-235 | the list is as long as the number of bound slots (slots minus unbound ones) |
| `TextureSlots.BoundMembers` | src/nodes/Shape/PhysicalMaterial.js:198-235 | a node is listed iff some slot binds it |
| `TextureSlots.BoundEmptyIffUnbound` | src/nodes/Shape/PhysicalMaterial.js:189-235 | the list is empty iff no slot is bound, so it is empty iff `hasTextures` is false |
| `TextureSlots.LastRoleIsLastBindingSlot` | src/nodes/Shape/PhysicalMaterial.js:200-233 | a node's tag is the role of the last slot binding it; a node bound in one slot only carries that slot's role |
| `TextureSlots.LastRoleExtend` | src/nodes/Shape/PhysicalMaterial.js:200-233 | tagging one more slot overwrites the tag of that slot's node and keeps every other node's tag |
| `TextureSlots.SharedNodeKeepsLaterRole` | src/nodes/Shape/PhysicalMaterial.js:200-226 | a node bound as both base colour and emissive texture is listed twice and tagged "emissiveMap" |
| `TextureSlots.BaseColorThenEmissive` | src/nodes/Shape/PhysicalMaterial.js:200-226 | distinct base colour and emissive textures are listed in that order, tagged "diffuseMap" and "emissiveMap" |

## Left out

- src/nodes/Texturing/ImageTextureAtlas.js: it only declares three integer fields defaulting to 0 and has no operations.
- Field declaration and registration (`addField_*`, `x3dom.registerNodeType`, `defineClass`, the superclass constructor): their code is in base classes that are not part of this model. The defaults become constants and constructor postconditions. Type coercion of field values is not modelled.
- Range enforcement: the code has none. See the note on `@range` above.
- Field setters and the event wiring that calls `fieldChanged`: `FieldChanged` models the hook only, after the new value has been stored. Adding and removing parents is base-class code; `parents` is a plain field here.
- Internals of `checkSortType`: it belongs to the appearance node type. Only the call is recorded (a counter on the appearance and an entry in the ghost trace).
- The colour and factor values: they are carried as `real` tuples, and nothing in the material computes on them. Floating-point behaviour is not modelled.
- The other entries of a shape's `_dirty` record: only `material` is written here.
- `_parentNodes` entries of a type other than appearance (or shape, one level up): the model types them as `Appearance` and `Shape`.
- `PhysicalMaterialNode.PhysicalMaterial.HasTextures`: the source returns the first bound node or `null`, a truthy value used as a boolean. The model returns `bool`.
- The trace is ghost. Only the node methods that perform a mark or a check append to it, and it does not change what the methods compute.
- Rendering, shader generation and texture loading.
