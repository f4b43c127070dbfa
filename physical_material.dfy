/** The PhysicalMaterial node type (x3dom, component Shape): a metallic-roughness
    PBR material with four factor fields, two normal-map settings and five
    optional texture slots. Its behaviour is the dirty-flag fan-out on a factor
    change, the texture presence test and the ordered, tagging texture list. */
module PhysicalMaterialNode {
  import opened Nodes
  import Propagation
  import TextureSlots

  /** Field values are carried, never computed on. */
  datatype ColorRGBA = ColorRGBA(r: real, g: real, b: real, a: real)
  datatype Color = Color(r: real, g: real, b: real)
  datatype Vec3 = Vec3(x: real, y: real, z: real)

  /** Declared defaults. */
  const DefaultBaseColorFactor := ColorRGBA(1.0, 1.0, 1.0, 1.0)
  const DefaultMetallicFactor: real := 0.0
  const DefaultRoughnessFactor: real := 0.2
  const DefaultEmissiveFactor := Color(0.0, 0.0, 0.0)
  const DefaultNormalSpace := "TANGENT"
  const DefaultNormalBias := Vec3(-1.0, -1.0, 1.0)

  /** The fields whose change invalidates the shapes using the material. */
  const WatchedFields: set<string> :=
    {"baseColorFactor", "metallicFactor", "roughnessFactor", "emissiveFactor"}

  predicate IsWatched(fieldName: string)
  {
    fieldName in WatchedFields
  }

  class PhysicalMaterial {
    var baseColorFactor: ColorRGBA
    var metallicFactor: real
    var roughnessFactor: real
    var emissiveFactor: Color
    var normalSpace: string
    var normalBias: Vec3
    var baseColorTexture: TextureNode?
    var emissiveTexture: TextureNode?
    var metallicRoughnessTexture: TextureNode?
    var normalTexture: TextureNode?
    var occlusionTexture: TextureNode?
    /** The appearances that use this material (`_parentNodes`). */
    var parents: seq<Appearance>

    /** A fresh material: every field at its default, no texture bound, no
        parent yet. */
    constructor ()
      ensures baseColorFactor == DefaultBaseColorFactor && metallicFactor == DefaultMetallicFactor
      ensures roughnessFactor == DefaultRoughnessFactor && emissiveFactor == DefaultEmissiveFactor
      ensures normalSpace == DefaultNormalSpace && normalBias == DefaultNormalBias
      ensures Slots() == [null, null, null, null, null]
      ensures !HasTextures()
      ensures parents == []
    {
      baseColorFactor := DefaultBaseColorFactor;
      metallicFactor := DefaultMetallicFactor;
      roughnessFactor := DefaultRoughnessFactor;
      emissiveFactor := DefaultEmissiveFactor;
      normalSpace := DefaultNormalSpace;
      normalBias := DefaultNormalBias;
      baseColorTexture := null;
      emissiveTexture := null;
      metallicRoughnessTexture := null;
      normalTexture := null;
      occlusionTexture := null;
      parents := [];
    }

    /** The texture slots in the order `getTextures` scans them. */
    function Slots(): seq<TextureNode?>
      reads this
    {
      [baseColorTexture, normalTexture, occlusionTexture, emissiveTexture, metallicRoughnessTexture]
    }

    /** The texture nodes bound in some slot. */
    ghost function BoundTextures(): set<TextureNode>
      reads this
    {
      set t: TextureNode | t in Slots()
    }

    /** True iff at least one texture slot is bound. */
    function HasTextures(): (b: bool)
      reads this
      ensures b <==> exists i :: 0 <= i < |Slots()| && Slots()[i] != null
      ensures b <==> TextureSlots.Bound(Slots()) != []
    {
      TextureSlots.BoundEmptyIffUnbound(Slots());
      assert Slots()[0] == baseColorTexture && Slots()[1] == normalTexture && Slots()[2] == occlusionTexture;
      assert Slots()[3] == emissiveTexture && Slots()[4] == metallicRoughnessTexture;
      baseColorTexture != null || normalTexture != null || occlusionTexture != null ||
      emissiveTexture != null || metallicRoughnessTexture != null
    }

    /** A change of field `fieldName`, after the new value is stored. For a
        watched factor every shape that uses one of the material's appearances
        is marked material-dirty, and each appearance re-checks its sort type
        once per occurrence in `parents`, right after its own shapes are
        marked; `trace` receives these steps in the order they happen. Any
        other field changes nothing. No flag is ever cleared. */
    method FieldChanged(fieldName: string, ghost trace: Trace)
      modifies (set a | a in parents)`sortChecks, Propagation.Grandparents(parents)`dirtyMaterial, trace`events
      ensures trace.events ==
        old(trace.events) + if IsWatched(fieldName) then Propagation.FieldChangeEffects(parents) else []
      ensures forall s :: s in Propagation.Grandparents(parents) ==>
        s.dirtyMaterial == (IsWatched(fieldName) || old(s.dirtyMaterial))
      ensures forall a :: a in parents ==>
        a.sortChecks == old(a.sortChecks) + if IsWatched(fieldName) then multiset(parents)[a] else 0
    {
      if fieldName == "baseColorFactor" || fieldName == "metallicFactor" ||
         fieldName == "roughnessFactor" || fieldName == "emissiveFactor"
      {
        NotifyAppearances(parents, trace);
      }
    }

    /** Lists the bound texture nodes in slot order and tags each with the role
        of its slot; a node bound in several slots keeps the tag of the last
        one. The material itself, and every texture node not bound here, is
        left unchanged. The five identical slot blocks are the five iterations
        of the loop: block k handles slot k with role `Roles[k]`. */
    method GetTextures() returns (textures: seq<TextureNode>)
      modifies BoundTextures()`role
      ensures textures == TextureSlots.Bound(Slots())
      ensures forall i :: 0 <= i < |Slots()| && Slots()[i] != null ==>
        Slots()[i].role == TextureSlots.LastRole(Slots(), Slots()[i])
      ensures unchanged(this)
    {
      var s := Slots();
      assert s[..0] == [];
      textures := [];
      for k := 0 to 5
        invariant textures == TextureSlots.Bound(s[..k]) && TextureSlots.TaggedThrough(s, k)
        invariant unchanged(this)
      {
        textures := TagAndAppend(s, k, s[k], TextureSlots.Roles[k], textures);
      }
      assert s[..5] == s;
    }
  }

  /** The outer walk of a watched-field change: every appearance of `apps`, in
      order, is notified. */
  method NotifyAppearances(apps: seq<Appearance>, ghost trace: Trace)
    modifies (set a | a in apps)`sortChecks, Propagation.Grandparents(apps)`dirtyMaterial, trace`events
    ensures trace.events == old(trace.events) + Propagation.FieldChangeEffects(apps)
    ensures forall s :: s in Propagation.Grandparents(apps) ==> s.dirtyMaterial
    ensures forall a :: a in apps ==> a.sortChecks == old(a.sortChecks) + multiset(apps)[a]
  {
    ghost var links := Propagation.ParentLinks(apps);
    ghost var start := trace.events;
    var i := 0;
    while i < |apps|
      invariant 0 <= i <= |apps|
      invariant trace.events == start + Propagation.Effects(apps[..i], links[..i])
      invariant forall s :: s in Propagation.ShapesIn(links[..i]) ==> s.dirtyMaterial
      invariant forall a :: a in apps ==> a.sortChecks == old(a.sortChecks) + multiset(apps[..i])[a]
    {
      var app := apps[i];
      Propagation.LinkedShapesIn(links, i);
      ghost var before := trace.events;
      NotifyAppearance(app, links[i], trace);
      Propagation.LogStep(apps, links, i, start, before, trace.events);
      Propagation.EffectsStep(apps, links, i);
      i := i + 1;
    }
    assert apps[..i] == apps && links[..i] == links;
  }

  /** The outer walk's step for one parent appearance: its shapes are marked
      material-dirty, then its sort type is re-checked. */
  method NotifyAppearance(app: Appearance, ghost shapes: seq<Shape>, ghost trace: Trace)
    requires shapes == app.parents
    modifies app`sortChecks, (set s | s in shapes)`dirtyMaterial, trace`events
    ensures trace.events == old(trace.events) + Propagation.Marks(shapes) + [SortTypeChecked(app)]
    ensures forall s :: s in shapes ==> s.dirtyMaterial
    ensures app.sortChecks == old(app.sortChecks) + 1
  {
    MarkShapesDirty(app.parents, trace);
    app.CheckSortType(trace);
  }

  /** The inner walk of a field change: marks every shape in `shapes`
      material-dirty, in order. */
  method MarkShapesDirty(shapes: seq<Shape>, ghost trace: Trace)
    modifies (set s | s in shapes)`dirtyMaterial, trace`events
    ensures forall s :: s in shapes ==> s.dirtyMaterial
    ensures trace.events == old(trace.events) + Propagation.Marks(shapes)
  {
    var j := 0;
    while j < |shapes|
      invariant 0 <= j <= |shapes|
      invariant forall k :: 0 <= k < j ==> shapes[k].dirtyMaterial
      invariant trace.events == old(trace.events) + Propagation.Marks(shapes[..j])
    {
      var shape := shapes[j];
      shape.MarkMaterialDirty(trace);
      assert shapes[..j + 1][..j] == shapes[..j];
      j := j + 1;
    }
    assert shapes[..j] == shapes;
  }

  /** One slot block of `GetTextures`: a bound `node` is tagged with `role`, the
      role of slot `k`, and appended to the list of the slots before it. */
  method TagAndAppend(ghost slots: seq<TextureNode?>, k: nat, node: TextureNode?, role: string,
                      textures: seq<TextureNode>)
    returns (result: seq<TextureNode>)
    requires k < |slots| <= |TextureSlots.Roles| && node == slots[k] && role == TextureSlots.Roles[k]
    requires textures == TextureSlots.Bound(slots[..k]) && TextureSlots.TaggedThrough(slots, k)
    modifies (if node == null then {} else {node as TextureNode})`role
    ensures result == TextureSlots.Bound(slots[..k + 1]) && TextureSlots.TaggedThrough(slots, k + 1)
  {
    result := textures;
    if node != null {
      node.role := role;
      result := result + [node];
    }
    assert slots[..k + 1][..k] == slots[..k];
    forall i | 0 <= i <= k && slots[i] != null
      ensures slots[i].role == TextureSlots.LastRole(slots[..k + 1], slots[i])
    {
      TextureSlots.LastRoleExtend(slots, k, slots[i]);
    }
  }

  /** Listing a material's textures twice with no change in between gives the
      same list, and the second listing leaves every bound node with the tag
      the first one gave it: the role of the last slot binding it, as
      `GetTextures` promises for a single listing. */
  method GetTexturesTwice(m: PhysicalMaterial)
    returns (first: seq<TextureNode>, second: seq<TextureNode>, ghost tagsAfterFirst: map<TextureNode, string>)
    modifies m.BoundTextures()`role
    ensures first == second == TextureSlots.Bound(m.Slots())
    ensures tagsAfterFirst.Keys == m.BoundTextures()
    ensures forall t :: t in tagsAfterFirst ==> tagsAfterFirst[t] == TextureSlots.LastRole(m.Slots(), t)
    ensures forall t :: t in tagsAfterFirst ==> t.role == tagsAfterFirst[t]
  {
    first := m.GetTextures();
    tagsAfterFirst := map t | t in m.BoundTextures() :: t.role;
    second := m.GetTextures();
    forall t | t in tagsAfterFirst
      ensures tagsAfterFirst[t] == TextureSlots.LastRole(m.Slots(), t) && t.role == tagsAfterFirst[t]
    {
      var i :| 0 <= i < |m.Slots()| && m.Slots()[i] == t;
    }
  }

  /** A texture node shared by two materials in different slots keeps the tag
      of the material listed last: the tag lives on the shared node. */
  method SharedTextureTakesLastTag(m1: PhysicalMaterial, m2: PhysicalMaterial, t: TextureNode)
    requires m1.Slots() == [t, null, null, null, null]
    requires m2.Slots() == [null, t, null, null, null]
    modifies t`role
    ensures t.role == "normalMap"
  {
    assert m1.BoundTextures() == {t} && m2.BoundTextures() == {t};
    var _ := m1.GetTextures();
    var _ := m2.GetTextures();
    assert m2.Slots()[1] == t;
    TextureSlots.LastRoleIsLastBindingSlot(m2.Slots(), t, 1);
  }

  /** A change of any declared field other than the four factors (the
      normal-map settings or a texture slot) marks no shape, re-checks no
      appearance and records nothing. */
  method UnwatchedChangeIsInert(m: PhysicalMaterial, fieldName: string, ghost trace: Trace)
    requires fieldName in {"normalSpace", "normalBias", "baseColorTexture", "normalTexture",
                           "occlusionTexture", "emissiveTexture", "metallicRoughnessTexture"}
    modifies (set a | a in m.parents)`sortChecks, Propagation.Grandparents(m.parents)`dirtyMaterial, trace`events
    ensures trace.events == old(trace.events)
    ensures forall s :: s in Propagation.Grandparents(m.parents) ==> s.dirtyMaterial == old(s.dirtyMaterial)
    ensures forall a :: a in m.parents ==> a.sortChecks == old(a.sortChecks)
  {
    assert !IsWatched(fieldName);
    m.FieldChanged(fieldName, trace);
  }

  /** The grandparents of the parent list `[a1, a2, a1]`, where `a1` is used by
      shapes `s1` and `s2` and `a2` by `s2`, are `s1` and `s2`. */
  lemma ScenarioGrandparents(a1: Appearance, a2: Appearance, s1: Shape, s2: Shape)
    requires a1.parents == [s1, s2] && a2.parents == [s2]
    ensures Propagation.Grandparents([a1, a2, a1]) == {s1, s2}
  {
    var apps := [a1, a2, a1];
    assert apps[..2][..1] == [a1] && apps[..2] == [a1, a2] && apps[..1][..0] == [];
    var links := Propagation.ParentLinks(apps);
    assert links == [[s1, s2], [s2], [s1, s2]];
    assert s1 in links[0] && s2 in links[0];
    forall s | s in Propagation.ShapesIn(links) ensures s == s1 || s == s2 {
      var l :| l in links && s in l;
    }
  }

  /** A material used by appearance `a1` twice and by `a2` once, where `a1` is
      used by shapes `s1` and `s2` and `a2` by `s2`; shape `s3` uses neither.
      A roughness change marks `s1` and `s2`, leaves `s3` alone and re-checks
      `a1` twice and `a2` once. */
  method RoughnessChangeScenario(m: PhysicalMaterial, a1: Appearance, a2: Appearance,
                                 s1: Shape, s2: Shape, s3: Shape, trace: Trace)
    requires a1 != a2 && s3 != s1 && s3 != s2
    requires a1.parents == [s1, s2] && a2.parents == [s2] && m.parents == [a1, a2, a1]
    modifies a1`sortChecks, a2`sortChecks, s1`dirtyMaterial, s2`dirtyMaterial, trace`events
    ensures s1.dirtyMaterial && s2.dirtyMaterial && s3.dirtyMaterial == old(s3.dirtyMaterial)
    ensures a1.sortChecks == old(a1.sortChecks) + 2 && a2.sortChecks == old(a2.sortChecks) + 1
  {
    ScenarioGrandparents(a1, a2, s1, s2);
    assert (set a | a in m.parents) == {a1, a2};
    assert multiset(m.parents)[a1] == 2 && multiset(m.parents)[a2] == 1;
    assert IsWatched("roughnessFactor");
    m.FieldChanged("roughnessFactor", trace);
    assert a1 in m.parents && a2 in m.parents;
  }

  /** The same material graph: a normalSpace change leaves every flag and
      every count as it was. */
  method NormalSpaceScenario(m: PhysicalMaterial, a1: Appearance, a2: Appearance,
                             s1: Shape, s2: Shape, s3: Shape, trace: Trace)
    requires a1.parents == [s1, s2] && a2.parents == [s2] && m.parents == [a1, a2, a1]
    modifies a1`sortChecks, a2`sortChecks, s1`dirtyMaterial, s2`dirtyMaterial, trace`events
    ensures s1.dirtyMaterial == old(s1.dirtyMaterial) && s2.dirtyMaterial == old(s2.dirtyMaterial)
    ensures s3.dirtyMaterial == old(s3.dirtyMaterial)
    ensures a1.sortChecks == old(a1.sortChecks) && a2.sortChecks == old(a2.sortChecks)
  {
    ScenarioGrandparents(a1, a2, s1, s2);
    assert (set a | a in m.parents) == {a1, a2};
    assert !IsWatched("normalSpace");
    m.FieldChanged("normalSpace", trace);
    assert a1 in m.parents && a2 in m.parents;
  }

  /** The scenario above on freshly created nodes, starting from clean shapes
      and unchecked appearances, followed by a normalSpace change, which
      re-checks nothing more. */
  method RoughnessChangeOnFreshNodes()
    returns (s1: Shape, s2: Shape, s3: Shape, a1: Appearance, a2: Appearance)
    ensures s1.dirtyMaterial && s2.dirtyMaterial && !s3.dirtyMaterial
    ensures a1.sortChecks == 2 && a2.sortChecks == 1
  {
    s1 := new Shape(false);
    s2 := new Shape(false);
    s3 := new Shape(false);
    a1 := new Appearance([s1, s2]);
    a2 := new Appearance([s2]);
    var m := new PhysicalMaterial();
    m.parents := [a1, a2, a1];
    var trace := new Trace();
    RoughnessChangeScenario(m, a1, a2, s1, s2, s3, trace);
    NormalSpaceScenario(m, a1, a2, s1, s2, s3, trace);
  }
}
