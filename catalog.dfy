/** The fixed catalog of primitives (src/data/primitives.ts): the three closed
    tag vocabularies, the primitive and layer-group records, the eight literal
    layer groups, their concatenation and the hand-written summary figures.
    Only the fields the filter reads or the data invariants mention are kept;
    the descriptive strings are not part of this model. */
module Catalog {
  import opened Seqs

  /** Cross-cutting category tags; a primitive carries one or more. */
  datatype Pillar = Language | Money | Coordination

  /** The eight layers, in declaration order L1 to L8. */
  datatype Layer = Foundation | Context | Intent | Interaction | Trust | Value | Coordination | Agents

  /** Adoption stages, in declaration order. */
  datatype Maturity = Theoretical | Experimental | Emerging | Growing | Established

  /** A catalog entry. `layer` and `layerLabel` repeat what the holding group says. */
  datatype Primitive = Primitive(
    name: string,
    pillars: seq<Pillar>,
    layer: Layer,
    layerLabel: string,
    maturity: Maturity)

  /** An ordered bucket of primitives under one layer heading. `heading` is
      the group's display label (`label` is a reserved word in Dafny). */
  datatype LayerGroup = LayerGroup(
    layer: Layer,
    heading: string,
    subtitle: string,
    primitives: seq<Primitive>)

  /** The hand-written figures shown above the catalog. The two strings are
      display text that nothing computes. */
  datatype SummaryStats = SummaryStats(
    totalPrimitives: nat,
    totalLayers: nat,
    avgFormationRate: string,
    totalTAM: string)

  /** Position of a layer in declaration order (L1 is 0). */
  function LayerOrdinal(l: Layer): (r: nat)
    ensures r < 8
  {
    match l
    case Foundation => 0
    case Context => 1
    case Intent => 2
    case Interaction => 3
    case Trust => 4
    case Value => 5
    case Coordination => 6
    case Agents => 7
  }

  // The per-layer primitive lists; the comments give the line of each
  // entry's `name` in src/data/primitives.ts.

  const FOUNDATION_PRIMITIVES: seq<Primitive> := [
    Primitive("Identity", [Language, Pillar.Coordination], Foundation, "L1 — Foundation", Emerging),  // line 56
    Primitive("Credential / Claim", [Language, Pillar.Coordination], Foundation, "L1 — Foundation", Experimental),  // line 75
    Primitive("Attestation", [Language, Pillar.Coordination], Foundation, "L1 — Foundation", Experimental),  // line 94
    Primitive("Consent", [Language, Pillar.Coordination], Foundation, "L1 — Foundation", Experimental)  // line 113
  ]

  const CONTEXT_PRIMITIVES: seq<Primitive> := [
    Primitive("Memory", [Language], Context, "L2 — Context", Emerging),  // line 145
    Primitive("Knowledge", [Language], Context, "L2 — Context", Emerging),  // line 165
    Primitive("Preference", [Language], Context, "L2 — Context", Experimental),  // line 184
    Primitive("Appropriateness", [Language], Context, "L2 — Context", Theoretical)  // line 203
  ]

  const INTENT_PRIMITIVES: seq<Primitive> := [
    Primitive("Intent", [Language], Intent, "L3 — Intent", Emerging),  // line 229
    Primitive("Opportunity", [Language], Intent, "L3 — Intent", Experimental),  // line 248
    Primitive("Offer / Bid", [Money, Language], Intent, "L3 — Intent", Emerging),  // line 267
    Primitive("Priority", [Pillar.Coordination], Intent, "L3 — Intent", Theoretical)  // line 286
  ]

  const INTERACTION_PRIMITIVES: seq<Primitive> := [
    Primitive("Conversation", [Language, Pillar.Coordination], Interaction, "L4 — Interaction", Emerging),  // line 311
    Primitive("Transaction", [Money], Interaction, "L4 — Interaction", Growing),  // line 330
    Primitive("Decision", [Language, Pillar.Coordination], Interaction, "L4 — Interaction", Experimental),  // line 349
    Primitive("Commitment", [Pillar.Coordination], Interaction, "L4 — Interaction", Experimental),  // line 368
    Primitive("Smart Contract", [Money, Pillar.Coordination], Interaction, "L4 — Interaction", Growing),  // line 386
    Primitive("Agreement", [Language, Pillar.Coordination], Interaction, "L4 — Interaction", Emerging)  // line 411
  ]

  const TRUST_PRIMITIVES: seq<Primitive> := [
    Primitive("Reputation", [Language, Pillar.Coordination], Trust, "L5 — Trust", Experimental),  // line 444
    Primitive("Endorsement", [Language, Pillar.Coordination], Trust, "L5 — Trust", Experimental),  // line 470
    Primitive("Vouch", [Pillar.Coordination], Trust, "L5 — Trust", Experimental),  // line 490
    Primitive("Perception", [Language], Trust, "L5 — Trust", Theoretical),  // line 508
    Primitive("Credibility", [Language, Pillar.Coordination], Trust, "L5 — Trust", Theoretical)  // line 531
  ]

  const VALUE_PRIMITIVES: seq<Primitive> := [
    Primitive("Token", [Money], Value, "L6 — Value", Growing),  // line 557
    Primitive("Stream", [Money, Pillar.Coordination], Value, "L6 — Value", Emerging),  // line 583
    Primitive("Escrow", [Money, Pillar.Coordination], Value, "L6 — Value", Emerging),  // line 603
    Primitive("DeFi (Liquidity)", [Money, Pillar.Coordination], Value, "L6 — Value", Growing),  // line 627
    Primitive("Risk", [Money, Language], Value, "L6 — Value", Experimental)  // line 652
  ]

  const COORDINATION_PRIMITIVES: seq<Primitive> := [
    Primitive("Vote", [Pillar.Coordination], Layer.Coordination, "L7 — Coordination", Emerging),  // line 684
    Primitive("Proposal", [Language, Pillar.Coordination], Layer.Coordination, "L7 — Coordination", Emerging),  // line 704
    Primitive("Delegation", [Pillar.Coordination], Layer.Coordination, "L7 — Coordination", Emerging),  // line 723
    Primitive("Arbitration", [Pillar.Coordination], Layer.Coordination, "L7 — Coordination", Experimental),  // line 743
    Primitive("Prediction Market", [Money, Language], Layer.Coordination, "L7 — Coordination", Growing)  // line 762
  ]

  const AGENTS_PRIMITIVES: seq<Primitive> := [
    Primitive("Agent", [Language], Agents, "L8 — Agents", Emerging),  // line 789
    Primitive("Task", [Language, Money], Agents, "L8 — Agents", Experimental),  // line 808
    Primitive("Oracle", [Language, Pillar.Coordination], Agents, "L8 — Agents", Growing),  // line 827
    Primitive("Workflow", [Language, Pillar.Coordination], Agents, "L8 — Agents", Experimental)  // line 853
  ]

  const LAYERS: seq<LayerGroup> := [
    LayerGroup(Foundation, "L1 — Foundation", "Who", FOUNDATION_PRIMITIVES),
    LayerGroup(Context, "L2 — Context", "What You Know", CONTEXT_PRIMITIVES),
    LayerGroup(Intent, "L3 — Intent", "What You Want", INTENT_PRIMITIVES),
    LayerGroup(Interaction, "L4 — Interaction", "What Happens", INTERACTION_PRIMITIVES),
    LayerGroup(Trust, "L5 — Trust", "What You've Earned", TRUST_PRIMITIVES),
    LayerGroup(Value, "L6 — Value", "What Flows", VALUE_PRIMITIVES),
    LayerGroup(Layer.Coordination, "L7 — Coordination", "How You Organize", COORDINATION_PRIMITIVES),
    LayerGroup(Agents, "L8 — Agents", "Who Acts For You", AGENTS_PRIMITIVES)
  ]

  /** The primitives of `groups`, group after group (`flatMap` over the groups). */
  function Flatten(groups: seq<LayerGroup>): (r: seq<Primitive>)
    ensures forall p :: p in r <==> exists g :: g in groups && p in g.primitives
  {
    if groups == [] then [] else groups[0].primitives + Flatten(groups[1..])
  }

  const ALL_PRIMITIVES: seq<Primitive> := Flatten(LAYERS)

  const SUMMARY_STATS := SummaryStats(37, 8, "~1.5%", "~$2.6T+")

  /** `ALL_PRIMITIVES` lists the eight groups' primitives one group after another. */
  lemma AllPrimitivesInGroupOrder()
    ensures ALL_PRIMITIVES == FOUNDATION_PRIMITIVES + CONTEXT_PRIMITIVES + INTENT_PRIMITIVES
      + INTERACTION_PRIMITIVES + TRUST_PRIMITIVES + VALUE_PRIMITIVES
      + COORDINATION_PRIMITIVES + AGENTS_PRIMITIVES
  {
    assert Flatten(LAYERS[7..]) == AGENTS_PRIMITIVES;
    assert Flatten(LAYERS[6..]) == COORDINATION_PRIMITIVES + Flatten(LAYERS[7..]);
    assert Flatten(LAYERS[5..]) == VALUE_PRIMITIVES + Flatten(LAYERS[6..]);
    assert Flatten(LAYERS[4..]) == TRUST_PRIMITIVES + Flatten(LAYERS[5..]);
    assert Flatten(LAYERS[3..]) == INTERACTION_PRIMITIVES + Flatten(LAYERS[4..]);
    assert Flatten(LAYERS[2..]) == INTENT_PRIMITIVES + Flatten(LAYERS[3..]);
    assert Flatten(LAYERS[1..]) == CONTEXT_PRIMITIVES + Flatten(LAYERS[2..]);
    assert Flatten(LAYERS) == FOUNDATION_PRIMITIVES + Flatten(LAYERS[1..]);
  }

  /** The group sizes are 4, 4, 4, 6, 5, 5, 5 and 4, so the catalog holds the
      37 primitives the summary claims. */
  lemma CatalogSize()
    ensures |LAYERS| == 8
    ensures |LAYERS[0].primitives| == 4 && |LAYERS[1].primitives| == 4
    ensures |LAYERS[2].primitives| == 4 && |LAYERS[3].primitives| == 6
    ensures |LAYERS[4].primitives| == 5 && |LAYERS[5].primitives| == 5
    ensures |LAYERS[6].primitives| == 5 && |LAYERS[7].primitives| == 4
    ensures |ALL_PRIMITIVES| == 37 == SUMMARY_STATS.totalPrimitives
  {
    AllPrimitivesInGroupOrder();
  }

  /** Every primitive held by `g` repeats `g`'s layer and label. */
  ghost predicate HoldsOwnLayer(g: LayerGroup) {
    forall j :: 0 <= j < |g.primitives| ==>
      g.primitives[j].layer == g.layer && g.primitives[j].layerLabel == g.heading
  }

  /** The facts the data promises about each group on its own: its primitives
      repeat its layer and label, carry well-formed pillar lists and have
      distinct names. */
  ghost predicate WellFormedGroup(g: LayerGroup) {
    HoldsOwnLayer(g) && PillarsWellFormedIn(g.primitives) && DistinctNames(g.primitives)
  }

  lemma FoundationWellFormed() ensures WellFormedGroup(LAYERS[0]) { }
  lemma ContextWellFormed() ensures WellFormedGroup(LAYERS[1]) { }
  lemma IntentWellFormed() ensures WellFormedGroup(LAYERS[2]) { }
  lemma InteractionWellFormed() ensures WellFormedGroup(LAYERS[3]) { }
  lemma TrustWellFormed() ensures WellFormedGroup(LAYERS[4]) { }
  lemma ValueWellFormed() ensures WellFormedGroup(LAYERS[5]) { }
  lemma CoordinationWellFormed() ensures WellFormedGroup(LAYERS[6]) { }
  lemma AgentsWellFormed() ensures WellFormedGroup(LAYERS[7]) { }

  /** Each of the eight literal groups is well formed. */
  lemma GroupWellFormed(k: nat)
    requires k < |LAYERS|
    ensures WellFormedGroup(LAYERS[k])
  {
    if k == 0 {
      FoundationWellFormed();
    } else if k == 1 {
      ContextWellFormed();
    } else if k == 2 {
      IntentWellFormed();
    } else if k == 3 {
      InteractionWellFormed();
    } else if k == 4 {
      TrustWellFormed();
    } else if k == 5 {
      ValueWellFormed();
    } else if k == 6 {
      CoordinationWellFormed();
    } else {
      AgentsWellFormed();
    }
  }

  /** Every primitive's `layer` and `layerLabel` repeat the `layer` and label
      of the group that holds it. */
  lemma GroupFieldsAgree()
    ensures forall k, j :: 0 <= k < |LAYERS| && 0 <= j < |LAYERS[k].primitives| ==>
      LAYERS[k].primitives[j].layer == LAYERS[k].layer &&
      LAYERS[k].primitives[j].layerLabel == LAYERS[k].heading
  {
    forall k | 0 <= k < |LAYERS| ensures HoldsOwnLayer(LAYERS[k]) {
      GroupWellFormed(k);
    }
  }

  /** The groups are one per layer, in declaration order, and there are as many
      as the summary claims. */
  lemma LayersInDeclarationOrder()
    ensures |LAYERS| == SUMMARY_STATS.totalLayers
    ensures forall i :: 0 <= i < |LAYERS| ==> LayerOrdinal(LAYERS[i].layer) == i
    ensures forall l: Layer :: LAYERS[LayerOrdinal(l)].layer == l
  {
  }

  /** Every primitive in `ps` carries at least one pillar and none twice. */
  ghost predicate PillarsWellFormedIn(ps: seq<Primitive>) {
    forall j :: 0 <= j < |ps| ==> ps[j].pillars != [] && NoDup(ps[j].pillars)
  }

  /** Every primitive carries at least one pillar and none twice. */
  lemma PillarsWellFormed()
    ensures forall p :: p in ALL_PRIMITIVES ==> p.pillars != [] && NoDup(p.pillars)
  {
    forall p | p in ALL_PRIMITIVES ensures p.pillars != [] && NoDup(p.pillars) {
      var g :| g in LAYERS && p in g.primitives;
      var k :| 0 <= k < |LAYERS| && LAYERS[k] == g;
      GroupWellFormed(k);
      var j :| 0 <= j < |g.primitives| && g.primitives[j] == p;
    }
  }

  /** No two primitives of `ps` share a name. */
  ghost predicate DistinctNames(ps: seq<Primitive>) {
    forall i, j :: 0 <= i < j < |ps| ==> ps[i].name != ps[j].name
  }

  /** No primitive of `a` has the name of a primitive of `b`. */
  ghost predicate NamesApart(a: seq<Primitive>, b: seq<Primitive>) {
    forall i, j :: 0 <= i < |a| && 0 <= j < |b| ==> a[i].name != b[j].name
  }

  /** Names distinct inside every group and apart between any two groups are
      distinct across the flattened list. */
  lemma {:induction false} FlattenDistinctNames(groups: seq<LayerGroup>)
    requires forall k :: 0 <= k < |groups| ==> DistinctNames(groups[k].primitives)
    requires forall k, m :: 0 <= k < m < |groups| ==> NamesApart(groups[k].primitives, groups[m].primitives)
    ensures DistinctNames(Flatten(groups))
  {
    if groups != [] {
      var a, rest := groups[0].primitives, Flatten(groups[1..]);
      FlattenDistinctNames(groups[1..]);
      NamesApartFlatten(a, groups[1..]);
      forall i, j | 0 <= i < j < |a + rest| ensures (a + rest)[i].name != (a + rest)[j].name {
        if j < |a| {
        } else if i < |a| {
          assert (a + rest)[j] == rest[j - |a|];
        } else {
          assert (a + rest)[i] == rest[i - |a|] && (a + rest)[j] == rest[j - |a|];
        }
      }
    }
  }

  /** No name of `a` appears in any of `groups` means none appears in their flattening. */
  lemma {:induction false} NamesApartFlatten(a: seq<Primitive>, groups: seq<LayerGroup>)
    requires forall m :: 0 <= m < |groups| ==> NamesApart(a, groups[m].primitives)
    ensures NamesApart(a, Flatten(groups))
  {
    if groups != [] {
      var b, rest := groups[0].primitives, Flatten(groups[1..]);
      NamesApartFlatten(a, groups[1..]);
      assert NamesApart(a, b);
      forall i, j | 0 <= i < |a| && 0 <= j < |b + rest| ensures a[i].name != (b + rest)[j].name {
        if j >= |b| {
          assert (b + rest)[j] == rest[j - |b|];
        }
      }
    }
  }

  lemma FoundationContextNamesApart()
    ensures NamesApart(LAYERS[0].primitives, LAYERS[1].primitives)
  {
  }

  lemma FoundationIntentNamesApart()
    ensures NamesApart(LAYERS[0].primitives, LAYERS[2].primitives)
  {
  }

  lemma FoundationInteractionNamesApart()
    ensures NamesApart(LAYERS[0].primitives, LAYERS[3].primitives)
  {
  }

  lemma FoundationTrustNamesApart()
    ensures NamesApart(LAYERS[0].primitives, LAYERS[4].primitives)
  {
  }

  lemma FoundationValueNamesApart()
    ensures NamesApart(LAYERS[0].primitives, LAYERS[5].primitives)
  {
  }

  lemma FoundationCoordinationNamesApart()
    ensures NamesApart(LAYERS[0].primitives, LAYERS[6].primitives)
  {
  }

  lemma FoundationAgentsNamesApart()
    ensures NamesApart(LAYERS[0].primitives, LAYERS[7].primitives)
  {
  }

  lemma ContextIntentNamesApart()
    ensures NamesApart(LAYERS[1].primitives, LAYERS[2].primitives)
  {
  }

  lemma ContextInteractionNamesApart()
    ensures NamesApart(LAYERS[1].primitives, LAYERS[3].primitives)
  {
  }

  lemma ContextTrustNamesApart()
    ensures NamesApart(LAYERS[1].primitives, LAYERS[4].primitives)
  {
  }

  lemma ContextValueNamesApart()
    ensures NamesApart(LAYERS[1].primitives, LAYERS[5].primitives)
  {
  }

  lemma ContextCoordinationNamesApart()
    ensures NamesApart(LAYERS[1].primitives, LAYERS[6].primitives)
  {
  }

  lemma ContextAgentsNamesApart()
    ensures NamesApart(LAYERS[1].primitives, LAYERS[7].primitives)
  {
  }

  lemma IntentInteractionNamesApart()
    ensures NamesApart(LAYERS[2].primitives, LAYERS[3].primitives)
  {
  }

  lemma IntentTrustNamesApart()
    ensures NamesApart(LAYERS[2].primitives, LAYERS[4].primitives)
  {
  }

  lemma IntentValueNamesApart()
    ensures NamesApart(LAYERS[2].primitives, LAYERS[5].primitives)
  {
  }

  lemma IntentCoordinationNamesApart()
    ensures NamesApart(LAYERS[2].primitives, LAYERS[6].primitives)
  {
  }

  lemma IntentAgentsNamesApart()
    ensures NamesApart(LAYERS[2].primitives, LAYERS[7].primitives)
  {
  }

  lemma InteractionTrustNamesApart()
    ensures NamesApart(LAYERS[3].primitives, LAYERS[4].primitives)
  {
  }

  lemma InteractionValueNamesApart()
    ensures NamesApart(LAYERS[3].primitives, LAYERS[5].primitives)
  {
  }

  lemma InteractionCoordinationNamesApart()
    ensures NamesApart(LAYERS[3].primitives, LAYERS[6].primitives)
  {
  }

  lemma InteractionAgentsNamesApart()
    ensures NamesApart(LAYERS[3].primitives, LAYERS[7].primitives)
  {
  }

  lemma TrustValueNamesApart()
    ensures NamesApart(LAYERS[4].primitives, LAYERS[5].primitives)
  {
  }

  lemma TrustCoordinationNamesApart()
    ensures NamesApart(LAYERS[4].primitives, LAYERS[6].primitives)
  {
  }

  lemma TrustAgentsNamesApart()
    ensures NamesApart(LAYERS[4].primitives, LAYERS[7].primitives)
  {
  }

  lemma ValueCoordinationNamesApart()
    ensures NamesApart(LAYERS[5].primitives, LAYERS[6].primitives)
  {
  }

  lemma ValueAgentsNamesApart()
    ensures NamesApart(LAYERS[5].primitives, LAYERS[7].primitives)
  {
  }

  lemma CoordinationAgentsNamesApart()
    ensures NamesApart(LAYERS[6].primitives, LAYERS[7].primitives)
  {
  }

  /** No name of the foundation group recurs in a later group. */
  lemma FoundationNamesApart()
    ensures NamesApart(LAYERS[0].primitives, LAYERS[1].primitives)
    ensures NamesApart(LAYERS[0].primitives, LAYERS[2].primitives)
    ensures NamesApart(LAYERS[0].primitives, LAYERS[3].primitives)
    ensures NamesApart(LAYERS[0].primitives, LAYERS[4].primitives)
    ensures NamesApart(LAYERS[0].primitives, LAYERS[5].primitives)
    ensures NamesApart(LAYERS[0].primitives, LAYERS[6].primitives)
    ensures NamesApart(LAYERS[0].primitives, LAYERS[7].primitives)
  {
    FoundationContextNamesApart();
    FoundationIntentNamesApart();
    FoundationInteractionNamesApart();
    FoundationTrustNamesApart();
    FoundationValueNamesApart();
    FoundationCoordinationNamesApart();
    FoundationAgentsNamesApart();
  }

  /** No name of the context group recurs in a later group. */
  lemma ContextNamesApart()
    ensures NamesApart(LAYERS[1].primitives, LAYERS[2].primitives)
    ensures NamesApart(LAYERS[1].primitives, LAYERS[3].primitives)
    ensures NamesApart(LAYERS[1].primitives, LAYERS[4].primitives)
    ensures NamesApart(LAYERS[1].primitives, LAYERS[5].primitives)
    ensures NamesApart(LAYERS[1].primitives, LAYERS[6].primitives)
    ensures NamesApart(LAYERS[1].primitives, LAYERS[7].primitives)
  {
    ContextIntentNamesApart();
    ContextInteractionNamesApart();
    ContextTrustNamesApart();
    ContextValueNamesApart();
    ContextCoordinationNamesApart();
    ContextAgentsNamesApart();
  }

  /** No name of the intent group recurs in a later group. */
  lemma IntentNamesApart()
    ensures NamesApart(LAYERS[2].primitives, LAYERS[3].primitives)
    ensures NamesApart(LAYERS[2].primitives, LAYERS[4].primitives)
    ensures NamesApart(LAYERS[2].primitives, LAYERS[5].primitives)
    ensures NamesApart(LAYERS[2].primitives, LAYERS[6].primitives)
    ensures NamesApart(LAYERS[2].primitives, LAYERS[7].primitives)
  {
    IntentInteractionNamesApart();
    IntentTrustNamesApart();
    IntentValueNamesApart();
    IntentCoordinationNamesApart();
    IntentAgentsNamesApart();
  }

  /** No name of the interaction group recurs in a later group. */
  lemma InteractionNamesApart()
    ensures NamesApart(LAYERS[3].primitives, LAYERS[4].primitives)
    ensures NamesApart(LAYERS[3].primitives, LAYERS[5].primitives)
    ensures NamesApart(LAYERS[3].primitives, LAYERS[6].primitives)
    ensures NamesApart(LAYERS[3].primitives, LAYERS[7].primitives)
  {
    InteractionTrustNamesApart();
    InteractionValueNamesApart();
    InteractionCoordinationNamesApart();
    InteractionAgentsNamesApart();
  }

  /** No name of the trust group recurs in a later group. */
  lemma TrustNamesApart()
    ensures NamesApart(LAYERS[4].primitives, LAYERS[5].primitives)
    ensures NamesApart(LAYERS[4].primitives, LAYERS[6].primitives)
    ensures NamesApart(LAYERS[4].primitives, LAYERS[7].primitives)
  {
    TrustValueNamesApart();
    TrustCoordinationNamesApart();
    TrustAgentsNamesApart();
  }

  /** No name of the value group recurs in a later group. */
  lemma ValueNamesApart()
    ensures NamesApart(LAYERS[5].primitives, LAYERS[6].primitives)
    ensures NamesApart(LAYERS[5].primitives, LAYERS[7].primitives)
  {
    ValueCoordinationNamesApart();
    ValueAgentsNamesApart();
  }

  /** No name of the coordination group recurs in a later group. */
  lemma CoordinationNamesApart()
    ensures NamesApart(LAYERS[6].primitives, LAYERS[7].primitives)
  {
    CoordinationAgentsNamesApart();
  }

  /** Primitive names are unique across the catalog (they serve as list keys). */
  lemma NamesUnique()
    ensures forall i, j :: 0 <= i < j < |ALL_PRIMITIVES| ==> ALL_PRIMITIVES[i].name != ALL_PRIMITIVES[j].name
  {
    forall k | 0 <= k < |LAYERS| ensures DistinctNames(LAYERS[k].primitives) {
      GroupWellFormed(k);
    }
    FoundationNamesApart();
    ContextNamesApart();
    IntentNamesApart();
    InteractionNamesApart();
    TrustNamesApart();
    ValueNamesApart();
    CoordinationNamesApart();
    FlattenDistinctNames(LAYERS);
  }
}
