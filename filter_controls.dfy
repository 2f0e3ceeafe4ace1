/** The filter controls (src/components/primitives/FilterControls.tsx): one
    row of chips per facet, each chip highlighted when its value is selected
    and wired to its own facet's toggle handler, and a "Clear filters" button
    offered only while some facet has a selection. */
module FilterControls {
  import opened Seqs
  import opened Catalog
  import opened PrimitivesPage

  const PILLARS: seq<Pillar> := [Language, Money, Pillar.Coordination]

  const LAYER_OPTIONS: seq<Layer> :=
    [Foundation, Context, Intent, Interaction, Trust, Value, Layer.Coordination, Agents]

  const MATURITY_OPTIONS: seq<Maturity> := [Theoretical, Experimental, Emerging, Growing, Established]

  /** One chip: the value it stands for (and shows as its label), whether it
      is highlighted, and the handler its click invokes. */
  datatype Chip<T> = Chip(value: T, active: bool, onClick: Callback)

  /** The "Clear filters" button: absent, or present with the handler its
      click invokes. */
  datatype ClearButton = Hidden | Shown(onClick: Callback)

  /** What the controls put on screen. */
  datatype Controls = Controls(
    pillarChips: seq<Chip<Pillar>>,
    layerChips: seq<Chip<Layer>>,
    maturityChips: seq<Chip<Maturity>>,
    clearButton: ClearButton)

  /** `hasFilters`: some facet has a selection, so the state differs from the
      initial and cleared one. */
  predicate HasFilters(sel: Selection): (r: bool)
    ensures r <==> sel != NO_SELECTION
  {
    |sel.pillars| > 0 || |sel.layers| > 0 || |sel.maturities| > 0
  }

  /** The chips of every facet, in option order, and the clear button. */
  function Render(sel: Selection): (r: Controls)
    ensures |r.pillarChips| == |PILLARS| && |r.layerChips| == |LAYER_OPTIONS| && |r.maturityChips| == |MATURITY_OPTIONS|
    ensures forall i :: 0 <= i < |PILLARS| ==> r.pillarChips[i].value == PILLARS[i]
    ensures forall i :: 0 <= i < |LAYER_OPTIONS| ==> r.layerChips[i].value == LAYER_OPTIONS[i]
    ensures forall i :: 0 <= i < |MATURITY_OPTIONS| ==> r.maturityChips[i].value == MATURITY_OPTIONS[i]
  {
    Controls(
      seq(|PILLARS|, i requires 0 <= i < |PILLARS| =>
        Chip(PILLARS[i], PILLARS[i] in sel.pillars, PillarToggle(PILLARS[i]))),
      seq(|LAYER_OPTIONS|, i requires 0 <= i < |LAYER_OPTIONS| =>
        Chip(LAYER_OPTIONS[i], LAYER_OPTIONS[i] in sel.layers, LayerToggle(LAYER_OPTIONS[i]))),
      seq(|MATURITY_OPTIONS|, i requires 0 <= i < |MATURITY_OPTIONS| =>
        Chip(MATURITY_OPTIONS[i], MATURITY_OPTIONS[i] in sel.maturities, MaturityToggle(MATURITY_OPTIONS[i]))),
      if HasFilters(sel) then Shown(ClearAll) else Hidden)
  }

  /** The values of the highlighted chips, in chip order. */
  function ActiveValues<T>(chips: seq<Chip<T>>): seq<T> {
    if chips == [] then []
    else (if chips[0].active then [chips[0].value] else []) + ActiveValues(chips[1..])
  }

  /** `PILLARS` lists every pillar exactly once. */
  lemma PillarsListedOnce()
    ensures NoDup(PILLARS) && forall p: Pillar :: p in PILLARS
  {
    forall p: Pillar ensures p in PILLARS {
      match p
      case Language => assert PILLARS[0] == p;
      case Money => assert PILLARS[1] == p;
      case Coordination => assert PILLARS[2] == p;
    }
  }

  /** `LAYER_OPTIONS` lists every layer exactly once, in the order of the
      catalog's groups. */
  lemma LayerOptionsMatchGroups()
    ensures NoDup(LAYER_OPTIONS) && forall l: Layer :: l in LAYER_OPTIONS
    ensures |LAYER_OPTIONS| == |LAYERS| && forall i :: 0 <= i < |LAYERS| ==> LAYER_OPTIONS[i] == LAYERS[i].layer
  {
    LayersInDeclarationOrder();
    forall l: Layer ensures l in LAYER_OPTIONS {
      assert LAYER_OPTIONS[LayerOrdinal(l)] == l;
    }
  }

  /** `MATURITY_OPTIONS` lists every maturity exactly once. */
  lemma MaturitiesListedOnce()
    ensures NoDup(MATURITY_OPTIONS) && forall m: Maturity :: m in MATURITY_OPTIONS
  {
    forall m: Maturity ensures m in MATURITY_OPTIONS {
      match m
      case Theoretical => assert MATURITY_OPTIONS[0] == m;
      case Experimental => assert MATURITY_OPTIONS[1] == m;
      case Emerging => assert MATURITY_OPTIONS[2] == m;
      case Growing => assert MATURITY_OPTIONS[3] == m;
      case Established => assert MATURITY_OPTIONS[4] == m;
    }
  }

  /** No facet has a selection exactly in the initial or cleared state, and
      then the whole catalog is shown. */
  lemma NoFiltersIffCleared(sel: Selection)
    ensures !HasFilters(sel) <==> sel == NO_SELECTION
    ensures !HasFilters(sel) ==> FilterLayers(LAYERS, sel) == LAYERS
  {
    if !HasFilters(sel) {
      NoSelectionShowsCatalog();
    }
  }

  /** A chip is highlighted iff its value is selected in its own facet, and
      clicking it invokes that facet's toggle with that value. */
  lemma ChipsFollowSelection(sel: Selection)
    ensures var c := Render(sel);
      && (forall i :: 0 <= i < |c.pillarChips| ==>
            (c.pillarChips[i].active <==> c.pillarChips[i].value in sel.pillars)
            && c.pillarChips[i].onClick == PillarToggle(c.pillarChips[i].value))
      && (forall i :: 0 <= i < |c.layerChips| ==>
            (c.layerChips[i].active <==> c.layerChips[i].value in sel.layers)
            && c.layerChips[i].onClick == LayerToggle(c.layerChips[i].value))
      && (forall i :: 0 <= i < |c.maturityChips| ==>
            (c.maturityChips[i].active <==> c.maturityChips[i].value in sel.maturities)
            && c.maturityChips[i].onClick == MaturityToggle(c.maturityChips[i].value))
  {
  }

  /** "Clear filters" is offered iff at least one chip is highlighted, and its
      click invokes the clear handler. */
  lemma ClearOfferedIffSomeChipActive(sel: Selection)
    ensures Render(sel).clearButton.Shown? ==> Render(sel).clearButton.onClick == ClearAll
    ensures var c := Render(sel);
      c.clearButton.Shown? <==>
        (exists i :: 0 <= i < |c.pillarChips| && c.pillarChips[i].active)
        || (exists i :: 0 <= i < |c.layerChips| && c.layerChips[i].active)
        || (exists i :: 0 <= i < |c.maturityChips| && c.maturityChips[i].active)
  {
    var c := Render(sel);
    if |sel.pillars| > 0 {
      PillarsListedOnce();
      assert sel.pillars[0] in PILLARS;
      var i :| 0 <= i < |PILLARS| && PILLARS[i] == sel.pillars[0];
      assert c.pillarChips[i].active;
    } else if |sel.layers| > 0 {
      LayerOptionsMatchGroups();
      assert sel.layers[0] in LAYER_OPTIONS;
      var i :| 0 <= i < |LAYER_OPTIONS| && LAYER_OPTIONS[i] == sel.layers[0];
      assert c.layerChips[i].active;
    } else if |sel.maturities| > 0 {
      MaturitiesListedOnce();
      assert sel.maturities[0] in MATURITY_OPTIONS;
      var i :| 0 <= i < |MATURITY_OPTIONS| && MATURITY_OPTIONS[i] == sel.maturities[0];
      assert c.maturityChips[i].active;
    }
  }

  /** Clicking a chip flips its own highlight and no other chip's, in its own
      facet and in the other two. */
  lemma ClickFlipsOwnChipOnly(sel: Selection, cb: Callback)
    requires cb in ChipCallbacks(sel)
    ensures var before, after := Render(sel), Render(Apply(sel, cb));
      && (forall k :: 0 <= k < |PILLARS| ==>
            after.pillarChips[k].active == (before.pillarChips[k].active != (cb == PillarToggle(PILLARS[k]))))
      && (forall k :: 0 <= k < |LAYER_OPTIONS| ==>
            after.layerChips[k].active == (before.layerChips[k].active != (cb == LayerToggle(LAYER_OPTIONS[k]))))
      && (forall k :: 0 <= k < |MATURITY_OPTIONS| ==>
            after.maturityChips[k].active == (before.maturityChips[k].active != (cb == MaturityToggle(MATURITY_OPTIONS[k]))))
  {
    match cb
    case PillarToggle(p) =>
      forall k | 0 <= k < |PILLARS| ensures PILLARS[k] in ToggleItem(sel.pillars, p) <==> (PILLARS[k] in sel.pillars) != (p == PILLARS[k]) {
        ToggleFlipsOnly(sel.pillars, p, PILLARS[k]);
      }
    case LayerToggle(l) =>
      forall k | 0 <= k < |LAYER_OPTIONS| ensures LAYER_OPTIONS[k] in ToggleItem(sel.layers, l) <==> (LAYER_OPTIONS[k] in sel.layers) != (l == LAYER_OPTIONS[k]) {
        ToggleFlipsOnly(sel.layers, l, LAYER_OPTIONS[k]);
      }
    case MaturityToggle(m) =>
      forall k | 0 <= k < |MATURITY_OPTIONS| ensures MATURITY_OPTIONS[k] in ToggleItem(sel.maturities, m) <==> (MATURITY_OPTIONS[k] in sel.maturities) != (m == MATURITY_OPTIONS[k]) {
        ToggleFlipsOnly(sel.maturities, m, MATURITY_OPTIONS[k]);
      }
  }

  /** Clicking "Clear filters" turns every chip off, hides the button and
      brings back the whole catalog. */
  lemma ClearResetsControls(sel: Selection)
    requires Render(sel).clearButton.Shown?
    ensures var sel' := Apply(sel, Render(sel).clearButton.onClick);
      var c := Render(sel');
      && (forall i :: 0 <= i < |c.pillarChips| ==> !c.pillarChips[i].active)
      && (forall i :: 0 <= i < |c.layerChips| ==> !c.layerChips[i].active)
      && (forall i :: 0 <= i < |c.maturityChips| ==> !c.maturityChips[i].active)
      && c.clearButton == Hidden
      && FilterLayers(LAYERS, sel') == LAYERS
  {
    ClearOfferedIffSomeChipActive(sel);
    ClearedControls();
  }

  /** The controls of the initial and cleared state: no chip highlighted, no
      clear button. */
  lemma ClearedControls()
    ensures var c := Render(NO_SELECTION);
      && (forall i :: 0 <= i < |c.pillarChips| ==> !c.pillarChips[i].active)
      && (forall i :: 0 <= i < |c.layerChips| ==> !c.layerChips[i].active)
      && (forall i :: 0 <= i < |c.maturityChips| ==> !c.maturityChips[i].active)
      && c.clearButton == Hidden
      && FilterLayers(LAYERS, NO_SELECTION) == LAYERS
  {
    ChipsFollowSelection(NO_SELECTION);
    NoSelectionShowsCatalog();
  }

  /** The highlighted chips of a facet show each selected value exactly once,
      when the selection has no duplicates (the invariant `FilterState.Valid`
      keeps). */
  lemma HighlightedChipsAreSelection(sel: Selection)
    requires NoDup(sel.pillars) && NoDup(sel.layers) && NoDup(sel.maturities)
    ensures var c := Render(sel);
      && multiset(ActiveValues(c.pillarChips)) == multiset(sel.pillars)
      && multiset(ActiveValues(c.layerChips)) == multiset(sel.layers)
      && multiset(ActiveValues(c.maturityChips)) == multiset(sel.maturities)
  {
    var c := Render(sel);
    ChipsFollowSelection(sel);
    PillarsListedOnce();
    ChipsShowChosen(c.pillarChips, PILLARS, sel.pillars);
    LayerOptionsMatchGroups();
    ChipsShowChosen(c.layerChips, LAYER_OPTIONS, sel.layers);
    MaturitiesListedOnce();
    ChipsShowChosen(c.maturityChips, MATURITY_OPTIONS, sel.maturities);
  }

  /** One row of chips over duplicate-free options, highlighted for the
      chosen values, shows each chosen value once. */
  lemma ChipsShowChosen<T(!new)>(chips: seq<Chip<T>>, opts: seq<T>, chosen: seq<T>)
    requires NoDup(opts) && NoDup(chosen) && forall x :: x in chosen ==> x in opts
    requires |chips| == |opts|
    requires forall i :: 0 <= i < |chips| ==> chips[i].value == opts[i]
    requires forall i :: 0 <= i < |chips| ==> (chips[i].active <==> chips[i].value in chosen)
    ensures multiset(ActiveValues(chips)) == multiset(chosen)
  {
    var keep := (x: T) => x in chosen;
    ActiveValuesFilter(chips, opts, keep);
    FilterChosen(opts, chosen, keep);
  }

  /** Chips that carry the options in order, highlighted by `keep`, have as
      highlighted values the options `keep` accepts. */
  lemma {:induction false} ActiveValuesFilter<T(!new)>(chips: seq<Chip<T>>, opts: seq<T>, keep: T -> bool)
    requires |chips| == |opts|
    requires forall i :: 0 <= i < |chips| ==> chips[i].value == opts[i] && chips[i].active == keep(opts[i])
    ensures ActiveValues(chips) == Filter(opts, keep)
  {
    if chips != [] {
      ActiveValuesFilter(chips[1..], opts[1..], keep);
    }
  }

  /** The handlers the chips of `sel`'s controls invoke. */
  function ChipCallbacks(sel: Selection): set<Callback> {
    var c := Render(sel);
    (set i | 0 <= i < |c.pillarChips| :: c.pillarChips[i].onClick)
    + (set i | 0 <= i < |c.layerChips| :: c.layerChips[i].onClick)
    + (set i | 0 <= i < |c.maturityChips| :: c.maturityChips[i].onClick)
  }
}
