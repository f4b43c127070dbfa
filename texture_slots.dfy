/** The five optional texture slots of a PhysicalMaterial, taken as a sequence
    in the fixed order in which `getTextures` scans them: baseColor, normal,
    occlusion, emissive, metallicRoughness. An unbound slot is `null`. */
module TextureSlots {
  import opened Nodes

  /** The role tag written for each slot, in scan order. */
  const Roles: seq<string> :=
    ["diffuseMap", "normalMap", "occlusionMap", "emissiveMap", "metallicRoughnessMap"]

  /** The bound slots' nodes, in slot order. */
  function Bound(slots: seq<TextureNode?>): seq<TextureNode>
  {
    if slots == [] then []
    else
      var last := slots[|slots| - 1];
      Bound(slots[..|slots| - 1]) + (if last == null then [] else [last])
  }

  /** The indices of the bound slots, in increasing order. */
  function BoundIndices(slots: seq<TextureNode?>): seq<nat>
  {
    if slots == [] then []
    else BoundIndices(slots[..|slots| - 1]) + (if slots[|slots| - 1] == null then [] else [|slots| - 1])
  }

  /** The tag a node bound in `slots` ends up with when the slots are tagged in
      order: the role of the last slot that binds it. */
  function LastRole(slots: seq<TextureNode?>, t: TextureNode): string
    requires |slots| <= |Roles|
    requires t in slots
  {
    var n := |slots| - 1;
    if slots[n] == t then Roles[n]
    else
      assert t in slots[..n] by {
        var i :| 0 <= i < |slots| && slots[i] == t;
        assert slots[..n][i] == t;
      }
      LastRole(slots[..n], t)
  }

  /** The result lists exactly the bound slots, in slot order: its k-th entry
      is the node of the k-th bound slot, and the selected indices are
      increasing and are all and only the bound ones. */
  lemma {:induction false} BoundIsOrderedSelection(slots: seq<TextureNode?>)
    ensures |BoundIndices(slots)| == |Bound(slots)|
    ensures forall k :: 0 <= k < |Bound(slots)| ==>
      BoundIndices(slots)[k] < |slots| && slots[BoundIndices(slots)[k]] == Bound(slots)[k]
    ensures forall p, q :: 0 <= p < q < |BoundIndices(slots)| ==> BoundIndices(slots)[p] < BoundIndices(slots)[q]
    ensures forall i :: 0 <= i < |slots| ==> (slots[i] != null <==> i in BoundIndices(slots))
  {
    if slots != [] {
      var n := |slots| - 1;
      var init := slots[..n];
      BoundIsOrderedSelection(init);
      assert forall i :: 0 <= i < n ==> init[i] == slots[i];
      assert forall j :: j in BoundIndices(init) ==> j < n;
    }
  }

  /** As many nodes are listed as slots are bound. */
  lemma {:induction false} BoundLength(slots: seq<TextureNode?>)
    ensures |Bound(slots)| == |slots| - multiset(slots)[null]
  {
    if slots != [] {
      var n := |slots| - 1;
      BoundLength(slots[..n]);
      assert slots == slots[..n] + [slots[n]];
    }
  }

  /** A node is listed iff some slot binds it. */
  lemma {:induction false} BoundMembers(slots: seq<TextureNode?>, t: TextureNode)
    ensures t in Bound(slots) <==> t in slots
  {
    BoundIsOrderedSelection(slots);
    if t in slots {
      var i :| 0 <= i < |slots| && slots[i] == t;
      var k :| 0 <= k < |BoundIndices(slots)| && BoundIndices(slots)[k] == i;
      assert Bound(slots)[k] == t;
    }
  }

  /** Nothing is listed iff no slot is bound. */
  lemma {:induction false} BoundEmptyIffUnbound(slots: seq<TextureNode?>)
    ensures Bound(slots) == [] <==> forall i :: 0 <= i < |slots| ==> slots[i] == null
  {
    BoundIsOrderedSelection(slots);
    if Bound(slots) == [] {
      assert BoundIndices(slots) == [];
    } else {
      assert slots[BoundIndices(slots)[0]] != null;
    }
  }

  /** A node carries the role of slot `i` when `i` is the last slot binding it;
      in particular a node bound in one slot only carries that slot's role. */
  lemma {:induction false} LastRoleIsLastBindingSlot(slots: seq<TextureNode?>, t: TextureNode, i: nat)
    requires |slots| <= |Roles|
    requires i < |slots| && slots[i] == t
    requires forall j :: i < j < |slots| ==> slots[j] != t
    ensures LastRole(slots, t) == Roles[i]
  {
    var n := |slots| - 1;
    if i < n {
      assert slots[..n][i] == t;
      LastRoleIsLastBindingSlot(slots[..n], t, i);
    }
  }

  /** Tagging one more slot: the new slot's role wins for its own node, every
      other node keeps the tag it had. */
  lemma LastRoleExtend(slots: seq<TextureNode?>, k: nat, t: TextureNode)
    requires k < |slots| <= |Roles|
    requires t in slots[..k + 1]
    ensures LastRole(slots[..k + 1], t) ==
      if slots[k] == t then Roles[k] else LastRole(slots[..k], t)
  {
    assert slots[..k + 1][..k] == slots[..k];
  }

  /** Every node bound in the first `k` slots carries the role it gets from
      tagging those slots in order. */
  ghost predicate TaggedThrough(slots: seq<TextureNode?>, k: nat)
    requires k <= |slots| <= |Roles|
    reads (set t: TextureNode | t in slots)`role
  {
    forall i :: 0 <= i < k && slots[i] != null ==>
      assert slots[..k][i] == slots[i];
      slots[i].role == LastRole(slots[..k], slots[i])
  }

  /** The same node bound as base colour and as emissive texture is listed
      twice and keeps the later slot's tag. */
  lemma SharedNodeKeepsLaterRole(t: TextureNode)
    ensures Bound([t, null, null, t, null]) == [t, t]
    ensures LastRole([t, null, null, t, null], t) == "emissiveMap"
  {
    var s: seq<TextureNode?> := [t, null, null, t, null];
    assert Bound(s[..1]) == [t] by { assert s[..1][..0] == []; }
    assert Bound(s[..3]) == [t] by { assert s[..3][..2] == s[..2] && s[..2][..1] == s[..1]; }
    assert Bound(s) == [t, t] by { assert s[..4][..3] == s[..3]; }
    LastRoleIsLastBindingSlot(s, t, 3);
  }

  /** With base colour and emissive textures bound, the list is those two, in
      slot order, tagged diffuseMap and emissiveMap. */
  lemma BaseColorThenEmissive(b: TextureNode, e: TextureNode)
    requires b != e
    ensures Bound([b, null, null, e, null]) == [b, e]
    ensures LastRole([b, null, null, e, null], b) == "diffuseMap"
    ensures LastRole([b, null, null, e, null], e) == "emissiveMap"
  {
    var s: seq<TextureNode?> := [b, null, null, e, null];
    assert Bound(s[..1]) == [b] by { assert s[..1][..0] == []; }
    assert Bound(s[..3]) == [b] by { assert s[..3][..2] == s[..2] && s[..2][..1] == s[..1]; }
    assert Bound(s) == [b, e] by { assert s[..4][..3] == s[..3]; }
    LastRoleIsLastBindingSlot(s, b, 0);
    LastRoleIsLastBindingSlot(s, e, 3);
  }
}
