/** The scene-graph nodes a PhysicalMaterial talks to. Only the state the
    material reads or writes is modelled: a shape's material dirty flag, an
    appearance's parent shapes and its sort-type re-checks, and a texture's
    role tag. */
module Nodes {

  /** A Shape node; `dirtyMaterial` is its `_dirty.material` flag, which the
      render loop reads and clears. */
  class Shape {
    var dirtyMaterial: bool

    constructor (dirty: bool)
      ensures dirtyMaterial == dirty
    {
      dirtyMaterial := dirty;
    }

    /** `shape._dirty.material = true`; the write is recorded in `trace`. */
    method MarkMaterialDirty(ghost trace: Trace)
      modifies this`dirtyMaterial, trace`events
      ensures dirtyMaterial
      ensures trace.events == old(trace.events) + [MaterialMarked(this)]
    {
      dirtyMaterial := true;
      trace.events := trace.events + [MaterialMarked(this)];
    }
  }

  /** An Appearance node: `parents` are its `_parentNodes` (the shapes that use
      it); `sortChecks` counts the calls of `checkSortType`, whose internals
      belong to the appearance node type and are not modelled. */
  class Appearance {
    var parents: seq<Shape>
    var sortChecks: nat

    constructor (shapes: seq<Shape>)
      ensures parents == shapes && sortChecks == 0
    {
      parents := shapes;
      sortChecks := 0;
    }

    /** Re-derives the draw-order class of the appearance; only the fact that
        it was called is recorded. */
    method CheckSortType(ghost trace: Trace)
      modifies this`sortChecks, trace`events
      ensures sortChecks == old(sortChecks) + 1
      ensures trace.events == old(trace.events) + [SortTypeChecked(this)]
    {
      sortChecks := sortChecks + 1;
      trace.events := trace.events + [SortTypeChecked(this)];
    }
  }

  /** A texture node that can be bound into a material's texture slot; `role`
      is its `_type` tag, which the material overwrites when it lists its
      textures. */
  class TextureNode {
    var role: string

    constructor (initialRole: string)
      ensures role == initialRole
    {
      role := initialRole;
    }
  }

  /** One observable side effect of a material field change, in the order
      they happen. */
  datatype Effect =
    | MaterialMarked(shape: Shape)       // shape._dirty.material = true
    | SortTypeChecked(app: Appearance)   // app.checkSortType()

  /** The observable side effects of a field change, in the order they
      happen: `MarkMaterialDirty` and `CheckSortType` each append their own
      entry, so the order of the calls is the order of `events`. */
  class Trace {
    ghost var events: seq<Effect>

    /** An empty trace. */
    constructor ()
      ensures events == []
    {
      events := [];
    }
  }
}
