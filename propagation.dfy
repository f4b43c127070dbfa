/** What a change of a watched PhysicalMaterial field does to the scene graph:
    for each parent appearance, in order, every shape using that appearance is
    marked material-dirty and then the appearance re-checks its sort type.
    The effects are defined on a snapshot of the back-links: `links[k]` is the
    shape list of the k-th parent appearance. */
module Propagation {
  import opened Nodes

  /** The shape lists of `apps`, read from the heap. */
  ghost function ParentLinks(apps: seq<Appearance>): (links: seq<seq<Shape>>)
    reads (set a | a in apps)`parents
    ensures |links| == |apps|
    ensures forall k :: 0 <= k < |apps| ==> links[k] == apps[k].parents
  {
    if apps == [] then [] else ParentLinks(apps[..|apps| - 1]) + [apps[|apps| - 1].parents]
  }

  /** The shapes listed in `links`. */
  function ShapesIn(links: seq<seq<Shape>>): set<Shape>
  {
    set l, s | l in links && s in l :: s
  }

  /** The shapes that use one of `apps`: the material's grandparents. */
  ghost function Grandparents(apps: seq<Appearance>): set<Shape>
    reads (set a | a in apps)`parents
  {
    ShapesIn(ParentLinks(apps))
  }

  /** One dirty mark per shape, in order. */
  function Marks(shapes: seq<Shape>): seq<Effect>
  {
    if shapes == [] then []
    else Marks(shapes[..|shapes| - 1]) + [MaterialMarked(shapes[|shapes| - 1])]
  }

  /** The effects of a watched-field change, in the order they happen, for
      parent appearances `apps` whose shape lists are `links`. */
  function Effects(apps: seq<Appearance>, links: seq<seq<Shape>>): seq<Effect>
    requires |apps| == |links|
  {
    if apps == [] then []
    else
      var n := |apps| - 1;
      Effects(apps[..n], links[..n]) + Marks(links[n]) + [SortTypeChecked(apps[n])]
  }

  /** The effects of a watched-field change on a material whose parent
      appearances are `apps`. */
  ghost function FieldChangeEffects(apps: seq<Appearance>): seq<Effect>
    reads (set a | a in apps)`parents
  {
    Effects(apps, ParentLinks(apps))
  }

  /** The appearances whose sort type is re-checked in `effects`, in order. */
  function CheckedAppearances(effects: seq<Effect>): seq<Appearance>
  {
    if effects == [] then []
    else
      var last := effects[|effects| - 1];
      CheckedAppearances(effects[..|effects| - 1]) + (if last.SortTypeChecked? then [last.app] else [])
  }

  /** The shapes that some effect in `effects` marks dirty. */
  function MarkedShapes(effects: seq<Effect>): set<Shape>
  {
    set e | e in effects && e.MaterialMarked? :: e.shape
  }

  /** Taking one more parent appearance into account. */
  lemma EffectsStep(apps: seq<Appearance>, links: seq<seq<Shape>>, i: nat)
    requires |apps| == |links| && i < |apps|
    ensures Effects(apps[..i + 1], links[..i + 1]) ==
      Effects(apps[..i], links[..i]) + Marks(links[i]) + [SortTypeChecked(apps[i])]
    ensures ShapesIn(links[..i + 1]) == ShapesIn(links[..i]) + set s | s in links[i]
    ensures multiset(apps[..i + 1]) == multiset(apps[..i]) + multiset{apps[i]}
  {
    assert apps[..i + 1] == apps[..i] + [apps[i]];
    assert apps[..i + 1][..i] == apps[..i];
    assert links[..i + 1][..i] == links[..i];
    assert links[..i + 1] == links[..i] + [links[i]];
  }

  /** A trace that held the effects of the first `i` appearances and then
      received the marks and the check of appearance `i` holds the effects of
      the first `i + 1`. */
  lemma LogStep(apps: seq<Appearance>, links: seq<seq<Shape>>, i: nat,
                start: seq<Effect>, before: seq<Effect>, after: seq<Effect>)
    requires |apps| == |links| && i < |apps|
    requires before == start + Effects(apps[..i], links[..i])
    requires after == before + Marks(links[i]) + [SortTypeChecked(apps[i])]
    ensures after == start + Effects(apps[..i + 1], links[..i + 1])
  {
    EffectsStep(apps, links, i);
  }

  /** The shapes of one appearance are among all the shapes. */
  lemma LinkedShapesIn(links: seq<seq<Shape>>, i: nat)
    requires i < |links|
    ensures forall s :: s in links[i] ==> s in ShapesIn(links)
  {
  }

  lemma {:induction false} MarksOnlyMark(shapes: seq<Shape>)
    ensures |Marks(shapes)| == |shapes|
    ensures forall k :: 0 <= k < |shapes| ==> Marks(shapes)[k] == MaterialMarked(shapes[k])
  {
    if shapes != [] {
      MarksOnlyMark(shapes[..|shapes| - 1]);
    }
  }

  lemma {:induction false} CheckedAppearancesAppend(e1: seq<Effect>, e2: seq<Effect>)
    ensures CheckedAppearances(e1 + e2) == CheckedAppearances(e1) + CheckedAppearances(e2)
    decreases |e2|
  {
    if e2 == [] {
      assert e1 + e2 == e1;
    } else {
      var init := e2[..|e2| - 1];
      assert (e1 + e2)[..|e1 + e2| - 1] == e1 + init;
      CheckedAppearancesAppend(e1, init);
    }
  }

  lemma {:induction false} NoChecksInMarks(shapes: seq<Shape>)
    ensures CheckedAppearances(Marks(shapes)) == []
  {
    if shapes != [] {
      var init := shapes[..|shapes| - 1];
      NoChecksInMarks(init);
      CheckedAppearancesAppend(Marks(init), [MaterialMarked(shapes[|shapes| - 1])]);
    }
  }

  lemma {:induction false} ChecksInEffects(apps: seq<Appearance>, links: seq<seq<Shape>>)
    requires |apps| == |links|
    ensures CheckedAppearances(Effects(apps, links)) == apps
  {
    if apps != [] {
      var n := |apps| - 1;
      var before := Effects(apps[..n], links[..n]);
      ChecksInEffects(apps[..n], links[..n]);
      NoChecksInMarks(links[n]);
      CheckedAppearancesAppend(before, Marks(links[n]));
      CheckedAppearancesAppend(before + Marks(links[n]), [SortTypeChecked(apps[n])]);
      assert apps == apps[..n] + [apps[n]];
    }
  }

  /** `checkSortType` is called once per entry of the parent list, in parent
      order: the checks in the effect log are exactly the parent appearances. */
  lemma ChecksFollowParentOrder(apps: seq<Appearance>)
    ensures CheckedAppearances(FieldChangeEffects(apps)) == apps
  {
    ChecksInEffects(apps, ParentLinks(apps));
  }

  lemma {:induction false} ChecksCounted(effects: seq<Effect>, a: Appearance)
    ensures multiset(effects)[SortTypeChecked(a)] == multiset(CheckedAppearances(effects))[a]
  {
    if effects != [] {
      var init := effects[..|effects| - 1];
      var last := effects[|effects| - 1];
      ChecksCounted(init, a);
      assert effects == init + [last];
    }
  }

  /** An appearance that occurs n times among the parents is re-checked
      exactly n times. */
  lemma SortChecksPerAppearance(apps: seq<Appearance>, a: Appearance)
    ensures multiset(FieldChangeEffects(apps))[SortTypeChecked(a)] == multiset(apps)[a]
  {
    ChecksCounted(FieldChangeEffects(apps), a);
    ChecksFollowParentOrder(apps);
  }

  lemma {:induction false} MarkedInEffects(apps: seq<Appearance>, links: seq<seq<Shape>>)
    requires |apps| == |links|
    ensures MarkedShapes(Effects(apps, links)) == ShapesIn(links)
  {
    if apps != [] {
      var n := |apps| - 1;
      MarkedInEffects(apps[..n], links[..n]);
      MarksOnlyMark(links[n]);
      EffectsStep(apps, links, n);
      assert apps[..n + 1] == apps && links[..n + 1] == links;
      var e := Effects(apps, links);
      assert MarkedShapes(Marks(links[n])) == set s | s in links[n] by {
        forall s | s in links[n] ensures s in MarkedShapes(Marks(links[n])) {
          var k :| 0 <= k < |links[n]| && links[n][k] == s;
          assert Marks(links[n])[k] == MaterialMarked(s);
        }
      }
      assert MarkedShapes(e) == MarkedShapes(Effects(apps[..n], links[..n])) + MarkedShapes(Marks(links[n]));
    }
  }

  /** The shapes marked dirty are exactly the material's grandparents. */
  lemma MarkedAreGrandparents(apps: seq<Appearance>)
    ensures MarkedShapes(FieldChangeEffects(apps)) == Grandparents(apps)
  {
    MarkedInEffects(apps, ParentLinks(apps));
  }

  lemma {:induction false} ChecksFollowMarks(apps: seq<Appearance>, links: seq<seq<Shape>>)
    requires |apps| == |links|
    ensures forall k :: 0 <= k < |Effects(apps, links)| && Effects(apps, links)[k].SortTypeChecked? ==>
      exists n :: 0 <= n < |apps| && Effects(apps, links)[k].app == apps[n] &&
        |links[n]| <= k && Effects(apps, links)[k - |links[n]|..k] == Marks(links[n])
  {
    if apps != [] {
      var n := |apps| - 1;
      ChecksFollowMarks(apps[..n], links[..n]);
      MarksOnlyMark(links[n]);
      var before := Effects(apps[..n], links[..n]);
      var e := Effects(apps, links);
      assert e == before + Marks(links[n]) + [SortTypeChecked(apps[n])];
      forall k | 0 <= k < |e| && e[k].SortTypeChecked?
        ensures exists m ::
          0 <= m < |apps| && e[k].app == apps[m] && |links[m]| <= k && e[k - |links[m]|..k] == Marks(links[m])
      {
        if k < |before| {
          assert e[k] == before[k];
          var m :| 0 <= m < n && before[k].app == apps[..n][m] &&
            |links[..n][m]| <= k && before[k - |links[..n][m]|..k] == Marks(links[..n][m]);
          assert e[k - |links[m]|..k] == before[k - |links[m]|..k];
        } else if k < |before| + |links[n]| {
          assert false;
        } else {
          assert e[k - |links[n]|..k] == Marks(links[n]);
        }
      }
    }
  }

  /** Each sort-type check comes right after the dirty marks of that
      appearance's shapes. */
  lemma MarksPrecedeCheck(apps: seq<Appearance>)
    ensures forall k :: 0 <= k < |FieldChangeEffects(apps)| && FieldChangeEffects(apps)[k].SortTypeChecked? ==>
      var a := FieldChangeEffects(apps)[k].app;
      |a.parents| <= k && FieldChangeEffects(apps)[k - |a.parents|..k] == Marks(a.parents)
  {
    ChecksFollowMarks(apps, ParentLinks(apps));
  }
}
