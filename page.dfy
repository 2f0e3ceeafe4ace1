/** The primitives page (src/app/page.tsx): the three facet selections and
    their toggle and clear handlers, the filter that narrows the catalog's
    layer groups to what the selections accept and drops the groups left
    empty, and the visible and total counts of the summary line. */
module PrimitivesPage {
  import opened Seqs
  import opened Catalog

  /** What the three selection lists hold at one moment. */
  datatype Selection = Selection(pillars: seq<Pillar>, layers: seq<Layer>, maturities: seq<Maturity>)

  /** The initial state, and the state after "Clear filters". */
  const NO_SELECTION := Selection([], [], [])

  /** `toggleItem`: a present item is removed (every occurrence of it); an
      absent one is appended. */
  function ToggleItem<T(==,!new)>(arr: seq<T>, item: T): (r: seq<T>)
    ensures item in r <==> item !in arr
    ensures item in arr ==> SubseqOf(r, arr) && forall x :: x != item ==> multiset(r)[x] == multiset(arr)[x]
    ensures item !in arr ==> r == arr + [item]
  {
    if item in arr then
      FilterIsSubseq(arr, x => x != item);
      FilterMultiset(arr, x => x != item);
      Filter(arr, x => x != item)
    else
      arr + [item]
  }

  /** The per-primitive test of the filter: each facet with a non-empty
      selection must accept the primitive; the pillar facet accepts when the
      primitive shares at least one pillar with the selection. */
  predicate Accepts(sel: Selection, p: Primitive) {
    if |sel.pillars| > 0 && !(exists pl :: pl in p.pillars && pl in sel.pillars) then false
    else if |sel.layers| > 0 && p.layer !in sel.layers then false
    else if |sel.maturities| > 0 && p.maturity !in sel.maturities then false
    else true
  }

  /** A primitive is accepted iff every facet either has an empty selection
      or accepts it: the pillar facet by a shared pillar, the layer and
      maturity facets by membership. */
  lemma AcceptsIff(sel: Selection, p: Primitive)
    ensures Accepts(sel, p) <==>
      && (sel.pillars == [] || exists pl :: pl in p.pillars && pl in sel.pillars)
      && (sel.layers == [] || p.layer in sel.layers)
      && (sel.maturities == [] || p.maturity in sel.maturities)
  {
  }

  /** One group with only the primitives the selection accepts. */
  function Narrow(g: LayerGroup, sel: Selection): (r: LayerGroup)
    ensures r.layer == g.layer && r.heading == g.heading && r.subtitle == g.subtitle
    ensures SubseqOf(r.primitives, g.primitives)
    ensures forall p :: p in r.primitives <==> p in g.primitives && Accepts(sel, p)
  {
    FilterIsSubseq(g.primitives, p => Accepts(sel, p));
    g.(primitives := Filter(g.primitives, p => Accepts(sel, p)))
  }

  /** Narrowing keeps every copy of an accepted primitive and no copy of the
      others. */
  lemma NarrowCounts(g: LayerGroup, sel: Selection)
    ensures forall p :: multiset(Narrow(g, sel).primitives)[p] == if Accepts(sel, p) then multiset(g.primitives)[p] else 0
  {
    FilterMultiset(g.primitives, p => Accepts(sel, p));
  }

  /** Every group narrowed, in the original order (the `map` step). */
  function NarrowAll(groups: seq<LayerGroup>, sel: Selection): (r: seq<LayerGroup>)
    ensures |r| == |groups|
    ensures forall i :: 0 <= i < |groups| ==> r[i] == Narrow(groups[i], sel)
  {
    if groups == [] then [] else [Narrow(groups[0], sel)] + NarrowAll(groups[1..], sel)
  }

  /** `filteredLayers`: the narrowed groups, without those left empty. */
  function FilterLayers(groups: seq<LayerGroup>, sel: Selection): (r: seq<LayerGroup>)
    ensures SubseqOf(r, NarrowAll(groups, sel))
    ensures forall g :: g in r ==> |g.primitives| > 0
    ensures forall i :: 0 <= i < |groups| && Narrow(groups[i], sel).primitives != [] ==> Narrow(groups[i], sel) in r
  {
    var narrowed := NarrowAll(groups, sel);
    FilterIsSubseq(narrowed, (g: LayerGroup) => |g.primitives| > 0);
    Filter(narrowed, (g: LayerGroup) => |g.primitives| > 0)
  }

  /** A narrowed group is empty iff the selection accepts none of its primitives. */
  lemma NarrowEmptyIff(g: LayerGroup, sel: Selection)
    ensures Narrow(g, sel).primitives == [] <==> forall p :: p in g.primitives ==> !Accepts(sel, p)
  {
    if forall p :: p in g.primitives ==> !Accepts(sel, p) {
      FilterNone(g.primitives, p => Accepts(sel, p));
    } else {
      var p :| p in g.primitives && Accepts(sel, p);
      assert p in Narrow(g, sel).primitives;
    }
  }

  /** The sum of the groups' sizes (the `reduce` of the summary line). */
  function SumLengths(groups: seq<LayerGroup>): (r: nat)
    ensures r == |Flatten(groups)|
  {
    if groups == [] then 0 else |groups[0].primitives| + SumLengths(groups[1..])
  }

  /** `totalVisible`: how many primitives the current filter shows. */
  function TotalVisible(sel: Selection): (r: nat)
    ensures r == |Flatten(FilterLayers(LAYERS, sel))|
  {
    SumLengths(FilterLayers(LAYERS, sel))
  }

  /** The catalog total of the summary line. */
  function CatalogTotal(): (r: nat)
    ensures r == |ALL_PRIMITIVES| == SUMMARY_STATS.totalPrimitives
  {
    CatalogSize();
    SumLengths(LAYERS)
  }

  /** What the page shows under the controls: one section per shown group,
      or the "No primitives match the current filters." message. */
  datatype Body = Sections(groups: seq<LayerGroup>) | NoMatch

  function PageBody(sel: Selection): (b: Body)
    ensures b.Sections? ==> b.groups == FilterLayers(LAYERS, sel)
    ensures b == NoMatch <==> TotalVisible(sel) == 0
  {
    var r := FilterLayers(LAYERS, sel);
    ShownGroupsCount(r);
    if |r| > 0 then Sections(r) else NoMatch
  }

  /** Groups that are all non-empty hold no primitive only when there are none. */
  lemma ShownGroupsCount(r: seq<LayerGroup>)
    requires forall g :: g in r ==> |g.primitives| > 0
    ensures |r| > 0 <==> SumLengths(r) > 0
  {
    if |r| > 0 {
      assert r[0] in r;
    }
  }

  /** The four handlers the page passes to the filter controls
      (`onPillarToggle`, `onLayerToggle`, `onMaturityToggle`, `onClear`). */
  datatype Callback =
    | PillarToggle(pillar: Pillar)
    | LayerToggle(layer: Layer)
    | MaturityToggle(maturity: Maturity)
    | ClearAll

  /** What invoking a handler does to the selections. */
  function Apply(sel: Selection, cb: Callback): (r: Selection)
    ensures cb.PillarToggle? ==> (r.layers == sel.layers && r.maturities == sel.maturities
      && forall x :: x in r.pillars <==> (x in sel.pillars) != (x == cb.pillar))
    ensures cb.LayerToggle? ==> (r.pillars == sel.pillars && r.maturities == sel.maturities
      && forall x :: x in r.layers <==> (x in sel.layers) != (x == cb.layer))
    ensures cb.MaturityToggle? ==> (r.pillars == sel.pillars && r.layers == sel.layers
      && forall x :: x in r.maturities <==> (x in sel.maturities) != (x == cb.maturity))
    ensures cb.ClearAll? ==> r.pillars == [] && r.layers == [] && r.maturities == []
  {
    match cb
    case PillarToggle(p) => ToggleMembers(sel.pillars, p); sel.(pillars := ToggleItem(sel.pillars, p))
    case LayerToggle(l) => ToggleMembers(sel.layers, l); sel.(layers := ToggleItem(sel.layers, l))
    case MaturityToggle(m) => ToggleMembers(sel.maturities, m); sel.(maturities := ToggleItem(sel.maturities, m))
    case ClearAll => NO_SELECTION
  }

  // ---------------------------------------------------------------------
  // Toggle
  // ---------------------------------------------------------------------

  /** Toggling an absent item twice gives the original list back. */
  lemma {:induction false} ToggleTwiceAbsent<T(!new)>(arr: seq<T>, item: T)
    requires item !in arr
    ensures ToggleItem(ToggleItem(arr, item), item) == arr
  {
    var keep := (x: T) => x != item;
    FilterConcat(arr, [item], keep);
    FilterKeepsAll(arr, keep);
    assert Filter([item], keep) == [];
  }

  /** Toggling a present item twice keeps the same members; the item moves to
      the end. */
  lemma {:induction false} ToggleTwicePresent<T(!new)>(arr: seq<T>, item: T)
    requires item in arr
    ensures var r := ToggleItem(ToggleItem(arr, item), item);
      (forall x :: x in r <==> x in arr) && r[|r| - 1] == item
  {
    var once := ToggleItem(arr, item);
    assert once == Filter(arr, x => x != item);
  }

  /** Toggling keeps a duplicate-free list duplicate-free. */
  lemma {:induction false} ToggleKeepsNoDup<T(!new)>(arr: seq<T>, item: T)
    requires NoDup(arr)
    ensures NoDup(ToggleItem(arr, item))
  {
    if item in arr {
      FilterNoDup(arr, x => x != item);
    } else {
      var r := arr + [item];
      forall i, j | 0 <= i < j < |r| ensures r[i] != r[j] {
        if j == |arr| {
          assert r[i] == arr[i];
        }
      }
    }
  }

  /** Toggling flips the membership of the toggled item and of nothing else. */
  lemma ToggleFlipsOnly<T(!new)>(arr: seq<T>, item: T, x: T)
    ensures x in ToggleItem(arr, item) <==> if x == item then x !in arr else x in arr
  {
    if item in arr && x != item {
      assert multiset(ToggleItem(arr, item))[x] == multiset(arr)[x];
    }
  }

  /** Toggling flips the membership of the toggled item, for every value at once. */
  lemma ToggleMembers<T(!new)>(arr: seq<T>, item: T)
    ensures forall x :: x in ToggleItem(arr, item) <==> (x in arr) != (x == item)
  {
    forall x ensures x in ToggleItem(arr, item) <==> (x in arr) != (x == item) {
      ToggleFlipsOnly(arr, item, x);
    }
  }

  // ---------------------------------------------------------------------
  // Filter engine
  // ---------------------------------------------------------------------

  /** Narrowing and dropping empty groups, then flattening, is the same as
      filtering the flattened catalog: the visible primitives are exactly the
      accepted ones, in catalog order. */
  lemma {:induction false} FlattenFilterLayers(groups: seq<LayerGroup>, sel: Selection)
    ensures Flatten(FilterLayers(groups, sel)) == Filter(Flatten(groups), p => Accepts(sel, p))
  {
    var keep := (p: Primitive) => Accepts(sel, p);
    var nonEmpty := (g: LayerGroup) => |g.primitives| > 0;
    if groups != [] {
      var g, rest := groups[0], groups[1..];
      var head := Narrow(g, sel);
      FlattenFilterLayers(rest, sel);
      assert NarrowAll(groups, sel) == [head] + NarrowAll(rest, sel);
      FilterConcat([head], NarrowAll(rest, sel), nonEmpty);
      assert FilterLayers(groups, sel) == Filter([head], nonEmpty) + FilterLayers(rest, sel);
      FlattenConcat(Filter([head], nonEmpty), FilterLayers(rest, sel));
      FilterConcat(g.primitives, Flatten(rest), keep);
      if |head.primitives| > 0 {
        assert Filter([head], nonEmpty) == [head];
      } else {
        assert Filter([head], nonEmpty) == [];
      }
      assert Flatten([head]) == head.primitives;
    }
  }

  /** Flattening distributes over concatenation. */
  lemma {:induction false} FlattenConcat(a: seq<LayerGroup>, b: seq<LayerGroup>)
    ensures Flatten(a + b) == Flatten(a) + Flatten(b)
  {
    if a == [] {
      assert a + b == b;
    } else {
      assert (a + b)[0] == a[0] && (a + b)[1..] == a[1..] + b;
      FlattenConcat(a[1..], b);
    }
  }

  /** Soundness and completeness of the filter over any list of groups: a
      primitive is shown iff some group holds it and every facet with a
      non-empty selection accepts it (pillars by sharing a tag, layer and
      maturity by membership). */
  lemma FilterSoundAndComplete(groups: seq<LayerGroup>, sel: Selection, p: Primitive)
    ensures (exists g :: g in FilterLayers(groups, sel) && p in g.primitives) <==>
      && p in Flatten(groups)
      && (sel.pillars == [] || exists pl :: pl in p.pillars && pl in sel.pillars)
      && (sel.layers == [] || p.layer in sel.layers)
      && (sel.maturities == [] || p.maturity in sel.maturities)
  {
    FlattenFilterLayers(groups, sel);
  }

  /** The same for the catalog: a primitive is shown iff it is one of
      `ALL_PRIMITIVES` and the three facets accept it. */
  lemma CatalogFilterSoundAndComplete(sel: Selection, p: Primitive)
    ensures (exists g :: g in FilterLayers(LAYERS, sel) && p in g.primitives) <==>
      && p in ALL_PRIMITIVES
      && (sel.pillars == [] || exists pl :: pl in p.pillars && pl in sel.pillars)
      && (sel.layers == [] || p.layer in sel.layers)
      && (sel.maturities == [] || p.maturity in sel.maturities)
  {
    FilterSoundAndComplete(LAYERS, sel, p);
  }

  /** Every shown group is a catalog group narrowed by the selection, and a
      group is dropped iff none of its primitives is accepted. */
  lemma {:induction false} GroupDroppedIff(groups: seq<LayerGroup>, sel: Selection)
    ensures forall g :: g in FilterLayers(groups, sel) ==>
      exists i :: 0 <= i < |groups| && g == Narrow(groups[i], sel)
    ensures forall i :: 0 <= i < |groups| ==>
      (Narrow(groups[i], sel) in FilterLayers(groups, sel) <==>
       exists p :: p in groups[i].primitives && Accepts(sel, p))
  {
    var narrowed := NarrowAll(groups, sel);
    forall g | g in FilterLayers(groups, sel)
      ensures exists i :: 0 <= i < |groups| && g == Narrow(groups[i], sel)
    {
      var i :| 0 <= i < |narrowed| && narrowed[i] == g;
    }
    forall i | 0 <= i < |groups|
      ensures Narrow(groups[i], sel) in FilterLayers(groups, sel) <==>
        exists p :: p in groups[i].primitives && Accepts(sel, p)
    {
      var h := Narrow(groups[i], sel);
      assert h == narrowed[i];
      if |h.primitives| > 0 {
        assert h.primitives[0] in h.primitives;
      }
    }
  }

  /** With every selection empty the filter gives back a list of non-empty
      groups unchanged. */
  lemma {:induction false} NoSelectionKeepsAll(groups: seq<LayerGroup>)
    requires forall g :: g in groups ==> |g.primitives| > 0
    ensures FilterLayers(groups, NO_SELECTION) == groups
  {
    var narrowed := NarrowAll(groups, NO_SELECTION);
    forall i | 0 <= i < |groups| ensures narrowed[i] == groups[i] {
      FilterKeepsAll(groups[i].primitives, p => Accepts(NO_SELECTION, p));
    }
    assert narrowed == groups;
    FilterKeepsAll(groups, (g: LayerGroup) => |g.primitives| > 0);
  }

  /** The initial and the cleared state show the whole catalog. */
  lemma NoSelectionShowsCatalog()
    ensures FilterLayers(LAYERS, NO_SELECTION) == LAYERS
  {
    CatalogSize();
    NoSelectionKeepsAll(LAYERS);
  }

  /** Two selections with the same members in every facet filter alike: the
      order of the selection lists does not matter. */
  lemma SameMembersSameFilter(groups: seq<LayerGroup>, sel: Selection, sel': Selection)
    requires forall x :: x in sel.pillars <==> x in sel'.pillars
    requires forall x :: x in sel.layers <==> x in sel'.layers
    requires forall x :: x in sel.maturities <==> x in sel'.maturities
    ensures FilterLayers(groups, sel) == FilterLayers(groups, sel')
  {
    assert (sel.pillars == []) == (sel'.pillars == []) by {
      if sel.pillars != [] { assert sel.pillars[0] in sel'.pillars; }
      if sel'.pillars != [] { assert sel'.pillars[0] in sel.pillars; }
    }
    assert (sel.layers == []) == (sel'.layers == []) by {
      if sel.layers != [] { assert sel.layers[0] in sel'.layers; }
      if sel'.layers != [] { assert sel'.layers[0] in sel.layers; }
    }
    assert (sel.maturities == []) == (sel'.maturities == []) by {
      if sel.maturities != [] { assert sel.maturities[0] in sel'.maturities; }
      if sel'.maturities != [] { assert sel'.maturities[0] in sel.maturities; }
    }
    var a, b := NarrowAll(groups, sel), NarrowAll(groups, sel');
    forall i | 0 <= i < |groups| ensures a[i] == b[i] {
      FilterCongruent(groups[i].primitives, p => Accepts(sel, p), p => Accepts(sel', p));
    }
    assert a == b;
  }

  /** Invoking the same toggle handler twice leaves what the page shows
      unchanged. */
  lemma ToggleTwiceSameView(groups: seq<LayerGroup>, sel: Selection, cb: Callback)
    requires !cb.ClearAll?
    ensures FilterLayers(groups, Apply(Apply(sel, cb), cb)) == FilterLayers(groups, sel)
  {
    match cb
    case PillarToggle(p) =>
      if p in sel.pillars { ToggleTwicePresent(sel.pillars, p); } else { ToggleTwiceAbsent(sel.pillars, p); }
      SameMembersSameFilter(groups, Apply(Apply(sel, cb), cb), sel);
    case LayerToggle(l) =>
      if l in sel.layers { ToggleTwicePresent(sel.layers, l); } else { ToggleTwiceAbsent(sel.layers, l); }
      SameMembersSameFilter(groups, Apply(Apply(sel, cb), cb), sel);
    case MaturityToggle(m) =>
      if m in sel.maturities { ToggleTwicePresent(sel.maturities, m); } else { ToggleTwiceAbsent(sel.maturities, m); }
      SameMembersSameFilter(groups, Apply(Apply(sel, cb), cb), sel);
  }

  /** When some layer is selected, a group whose layer is not among the
      selected ones is left empty. */
  lemma UnselectedLayerEmpty(g: LayerGroup, sel: Selection)
    requires forall j :: 0 <= j < |g.primitives| ==> g.primitives[j].layer == g.layer
    requires sel.layers != [] && g.layer !in sel.layers
    ensures Narrow(g, sel).primitives == []
  {
    forall p | p in g.primitives ensures !Accepts(sel, p) {
      var j :| 0 <= j < |g.primitives| && g.primitives[j] == p;
    }
    NarrowEmptyIff(g, sel);
  }

  /** The shown groups keep the catalog's layer order L1 to L8. */
  lemma ShownInLayerOrder(sel: Selection)
    ensures var r := FilterLayers(LAYERS, sel);
      forall i, j :: 0 <= i < j < |r| ==> LayerOrdinal(r[i].layer) < LayerOrdinal(r[j].layer)
  {
    LayersInDeclarationOrder();
    ShownInOrder(LAYERS, sel);
  }

  /** When the groups' layers have the ordinals of their positions, the
      shown groups' layer ordinals strictly increase. */
  lemma ShownInOrder(groups: seq<LayerGroup>, sel: Selection)
    requires forall i :: 0 <= i < |groups| ==> LayerOrdinal(groups[i].layer) == i
    ensures var r := FilterLayers(groups, sel);
      forall i, j :: 0 <= i < j < |r| ==> LayerOrdinal(r[i].layer) < LayerOrdinal(r[j].layer)
  {
    var key := (g: LayerGroup) => LayerOrdinal(g.layer) as int;
    var narrowed := NarrowAll(groups, sel);
    assert forall i :: 0 <= i < |narrowed| ==> key(narrowed[i]) == i;
    SubseqIncreasing(FilterLayers(groups, sel), narrowed, key);
  }

  /** Every primitive of `groups` repeats the layer of the group holding it. */
  ghost predicate HoldOwnLayers(groups: seq<LayerGroup>) {
    forall k, j :: 0 <= k < |groups| && 0 <= j < |groups[k].primitives| ==>
      groups[k].primitives[j].layer == groups[k].layer
  }

  /** A shown group of layer `l` holds an accepted primitive of layer `l`. */
  lemma ShownLayerHasAccepted(groups: seq<LayerGroup>, sel: Selection, g: LayerGroup)
    requires HoldOwnLayers(groups)
    requires g in FilterLayers(groups, sel)
    ensures exists p :: p in Flatten(groups) && p.layer == g.layer && Accepts(sel, p)
  {
    GroupDroppedIff(groups, sel);
    var i :| 0 <= i < |groups| && g == Narrow(groups[i], sel);
    var p := NarrowedHasAccepted(groups[i], sel);
    assert p in Flatten(groups) by {
      assert groups[i] in groups;
    }
  }

  /** A non-empty narrowed group of a group whose primitives repeat its layer
      holds an accepted primitive of that layer. */
  lemma NarrowedHasAccepted(h: LayerGroup, sel: Selection) returns (p: Primitive)
    requires forall j :: 0 <= j < |h.primitives| ==> h.primitives[j].layer == h.layer
    requires Narrow(h, sel).primitives != []
    ensures p in h.primitives && p.layer == h.layer && Accepts(sel, p)
  {
    p := Narrow(h, sel).primitives[0];
    assert p in Narrow(h, sel).primitives;
    var j :| 0 <= j < |h.primitives| && h.primitives[j] == p;
  }

  /** An accepted primitive's layer has a shown group. */
  lemma AcceptedLayerIsShown(groups: seq<LayerGroup>, sel: Selection, p: Primitive)
    requires HoldOwnLayers(groups)
    requires p in Flatten(groups) && Accepts(sel, p)
    ensures exists g :: g in FilterLayers(groups, sel) && g.layer == p.layer
  {
    GroupDroppedIff(groups, sel);
    var g :| g in groups && p in g.primitives;
    var i :| 0 <= i < |groups| && groups[i] == g;
    var j :| 0 <= j < |g.primitives| && g.primitives[j] == p;
    assert Narrow(groups[i], sel) in FilterLayers(groups, sel);
  }

  /** A layer's group is shown iff some catalog primitive of that layer is
      accepted. */
  lemma LayerShownIff(sel: Selection, l: Layer)
    ensures (exists g :: g in FilterLayers(LAYERS, sel) && g.layer == l) <==>
      exists p :: p in ALL_PRIMITIVES && p.layer == l && Accepts(sel, p)
  {
    GroupFieldsAgree();
    forall g | g in FilterLayers(LAYERS, sel) && g.layer == l
      ensures exists p :: p in ALL_PRIMITIVES && p.layer == l && Accepts(sel, p)
    {
      ShownLayerHasAccepted(LAYERS, sel, g);
    }
    forall p | p in ALL_PRIMITIVES && p.layer == l && Accepts(sel, p)
      ensures exists g :: g in FilterLayers(LAYERS, sel) && g.layer == l
    {
      AcceptedLayerIsShown(LAYERS, sel, p);
    }
  }

  // ---------------------------------------------------------------------
  // Counts
  // ---------------------------------------------------------------------

  /** The visible count is the number of accepted catalog primitives, and at
      most the catalog total of 37. */
  lemma TotalVisibleCounts(sel: Selection)
    ensures TotalVisible(sel) == |Filter(ALL_PRIMITIVES, p => Accepts(sel, p))|
    ensures TotalVisible(sel) <= CatalogTotal() == 37
  {
    FlattenFilterLayers(LAYERS, sel);
    CatalogSize();
  }

  /** The "no match" message appears exactly when the visible count is 0,
      that is when the selection accepts no catalog primitive. */
  lemma NoMatchIffNothingAccepted(sel: Selection)
    ensures PageBody(sel) == NoMatch <==> TotalVisible(sel) == 0
    ensures PageBody(sel) == NoMatch <==> forall p :: p in ALL_PRIMITIVES ==> !Accepts(sel, p)
  {
    var r := FilterLayers(LAYERS, sel);
    FlattenFilterLayers(LAYERS, sel);
    if |r| > 0 {
      assert r[0] in r;
      var p := r[0].primitives[0];
      assert p in Flatten(r);
    }
  }

  // ---------------------------------------------------------------------
  // Selection state
  // ---------------------------------------------------------------------

  /** The page's three pieces of selection state and their handlers. Each
      list stays duplicate-free: it starts empty and is changed only by
      toggling and clearing. */
  class FilterState {
    var selectedPillars: seq<Pillar>
    var selectedLayers: seq<Layer>
    var selectedMaturities: seq<Maturity>

    ghost predicate Valid()
      reads this
    {
      NoDup(selectedPillars) && NoDup(selectedLayers) && NoDup(selectedMaturities)
    }

    /** The selections as one value. */
    function Current(): Selection
      reads this
    {
      Selection(selectedPillars, selectedLayers, selectedMaturities)
    }

    constructor ()
      ensures Valid() && Current() == NO_SELECTION
      ensures FilterLayers(LAYERS, Current()) == LAYERS
    {
      selectedPillars, selectedLayers, selectedMaturities := [], [], [];
      new;
      assert Current() == NO_SELECTION;
      NoSelectionShowsCatalog();
    }

    /** `onPillarToggle`. */
    method OnPillarToggle(p: Pillar)
      requires Valid()
      modifies this
      ensures Valid()
      ensures selectedPillars == ToggleItem(old(selectedPillars), p)
      ensures selectedLayers == old(selectedLayers) && selectedMaturities == old(selectedMaturities)
    {
      ToggleKeepsNoDup(selectedPillars, p);
      selectedPillars := ToggleItem(selectedPillars, p);
    }

    /** `onLayerToggle`. */
    method OnLayerToggle(l: Layer)
      requires Valid()
      modifies this
      ensures Valid()
      ensures selectedLayers == ToggleItem(old(selectedLayers), l)
      ensures selectedPillars == old(selectedPillars) && selectedMaturities == old(selectedMaturities)
    {
      ToggleKeepsNoDup(selectedLayers, l);
      selectedLayers := ToggleItem(selectedLayers, l);
    }

    /** `onMaturityToggle`. */
    method OnMaturityToggle(m: Maturity)
      requires Valid()
      modifies this
      ensures Valid()
      ensures selectedMaturities == ToggleItem(old(selectedMaturities), m)
      ensures selectedPillars == old(selectedPillars) && selectedLayers == old(selectedLayers)
    {
      ToggleKeepsNoDup(selectedMaturities, m);
      selectedMaturities := ToggleItem(selectedMaturities, m);
    }

    /** `onClear`: every selection emptied, so the whole catalog is shown. */
    method OnClear()
      modifies this
      ensures Valid() && Current() == NO_SELECTION
      ensures FilterLayers(LAYERS, Current()) == LAYERS
    {
      selectedPillars, selectedLayers, selectedMaturities := [], [], [];
      assert Current() == NO_SELECTION;
      NoSelectionShowsCatalog();
    }

    /** Invoking one of the handlers the page hands to the controls. */
    method Dispatch(cb: Callback)
      requires Valid()
      modifies this
      ensures Valid() && Current() == Apply(old(Current()), cb)
    {
      match cb
      case PillarToggle(p) => OnPillarToggle(p);
      case LayerToggle(l) => OnLayerToggle(l);
      case MaturityToggle(m) => OnMaturityToggle(m);
      case ClearAll => OnClear();
    }
  }
}
