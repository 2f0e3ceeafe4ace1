/** Concrete filter results on the literal catalog of src/data/primitives.ts,
    as the page computes them for particular selections. */
module Scenarios {
  import opened Seqs
  import opened Catalog
  import opened PrimitivesPage

  /** The names of a list of primitives, in order. */
  function NamesOf(ps: seq<Primitive>): seq<string> {
    seq(|ps|, i requires 0 <= i < |ps| => ps[i].name)
  }

  const TRUST_EXPERIMENTAL := Selection([], [Trust], [Experimental])

  const ESTABLISHED_ONLY := Selection([], [], [Established])

  const MONEY_ONLY := Selection([Money], [], [])

  /** The primitive carries the Money pillar. */
  predicate CarriesMoney(p: Primitive) {
    Money in p.pillars
  }

  /** Filtering by the Money pillar alone is the same as asking whether a
      primitive carries Money. */
  lemma MoneyOnlyAccepts(p: Primitive)
    ensures Accepts(MONEY_ONLY, p) <==> CarriesMoney(p)
  {
    if CarriesMoney(p) {
      assert Money in MONEY_ONLY.pillars;
    }
  }

  /** The Foundation primitives that carry the Money pillar. */
  lemma FoundationMoneyCarriers()
    ensures Filter(FOUNDATION_PRIMITIVES, CarriesMoney) == []
  {
    var ps := FOUNDATION_PRIMITIVES;
    assert !CarriesMoney(ps[0]) && !CarriesMoney(ps[1]) && !CarriesMoney(ps[2]) && !CarriesMoney(ps[3]);
    FilterPicks(ps, CarriesMoney, [], []);
  }

  /** The Context primitives that carry the Money pillar. */
  lemma ContextMoneyCarriers()
    ensures Filter(CONTEXT_PRIMITIVES, CarriesMoney) == []
  {
    var ps := CONTEXT_PRIMITIVES;
    assert !CarriesMoney(ps[0]) && !CarriesMoney(ps[1]) && !CarriesMoney(ps[2]) && !CarriesMoney(ps[3]);
    FilterPicks(ps, CarriesMoney, [], []);
  }

  /** The Intent primitives that carry the Money pillar. */
  lemma IntentMoneyCarriers()
    ensures Filter(INTENT_PRIMITIVES, CarriesMoney) == [INTENT_PRIMITIVES[2]]
  {
    var ps := INTENT_PRIMITIVES;
    assert !CarriesMoney(ps[0]) && !CarriesMoney(ps[1]) && CarriesMoney(ps[2]) && !CarriesMoney(ps[3]);
    FilterPicks(ps, CarriesMoney, [2], [ps[2]]);
  }

  /** The Interaction primitives that carry the Money pillar. */
  lemma InteractionMoneyCarriers()
    ensures Filter(INTERACTION_PRIMITIVES, CarriesMoney) == [INTERACTION_PRIMITIVES[1], INTERACTION_PRIMITIVES[4]]
  {
    var ps := INTERACTION_PRIMITIVES;
    assert !CarriesMoney(ps[0]) && CarriesMoney(ps[1]) && !CarriesMoney(ps[2]) && !CarriesMoney(ps[3]) && CarriesMoney(ps[4]) && !CarriesMoney(ps[5]);
    FilterPicks(ps, CarriesMoney, [1, 4], [ps[1], ps[4]]);
  }

  /** The Trust primitives that carry the Money pillar. */
  lemma TrustMoneyCarriers()
    ensures Filter(TRUST_PRIMITIVES, CarriesMoney) == []
  {
    var ps := TRUST_PRIMITIVES;
    assert !CarriesMoney(ps[0]) && !CarriesMoney(ps[1]) && !CarriesMoney(ps[2]) && !CarriesMoney(ps[3]) && !CarriesMoney(ps[4]);
    FilterPicks(ps, CarriesMoney, [], []);
  }

  /** The Value primitives that carry the Money pillar. */
  lemma ValueMoneyCarriers()
    ensures Filter(VALUE_PRIMITIVES, CarriesMoney) == [VALUE_PRIMITIVES[0], VALUE_PRIMITIVES[1], VALUE_PRIMITIVES[2], VALUE_PRIMITIVES[3], VALUE_PRIMITIVES[4]]
  {
    var ps := VALUE_PRIMITIVES;
    assert CarriesMoney(ps[0]) && CarriesMoney(ps[1]) && CarriesMoney(ps[2]) && CarriesMoney(ps[3]) && CarriesMoney(ps[4]);
    FilterPicks(ps, CarriesMoney, [0, 1, 2, 3, 4], [ps[0], ps[1], ps[2], ps[3], ps[4]]);
  }

  /** The Coordination primitives that carry the Money pillar. */
  lemma CoordinationMoneyCarriers()
    ensures Filter(COORDINATION_PRIMITIVES, CarriesMoney) == [COORDINATION_PRIMITIVES[4]]
  {
    var ps := COORDINATION_PRIMITIVES;
    assert !CarriesMoney(ps[0]) && !CarriesMoney(ps[1]) && !CarriesMoney(ps[2]) && !CarriesMoney(ps[3]) && CarriesMoney(ps[4]);
    FilterPicks(ps, CarriesMoney, [4], [ps[4]]);
  }

  /** The Agents primitives that carry the Money pillar. */
  lemma AgentsMoneyCarriers()
    ensures Filter(AGENTS_PRIMITIVES, CarriesMoney) == [AGENTS_PRIMITIVES[1]]
  {
    var ps := AGENTS_PRIMITIVES;
    assert !CarriesMoney(ps[0]) && CarriesMoney(ps[1]) && !CarriesMoney(ps[2]) && !CarriesMoney(ps[3]);
    FilterPicks(ps, CarriesMoney, [1], [ps[1]]);
  }

  /** The groups of `LAYERS` hold the per-layer lists. */
  lemma GroupLists()
    ensures LAYERS[0].primitives == FOUNDATION_PRIMITIVES
      && LAYERS[1].primitives == CONTEXT_PRIMITIVES
      && LAYERS[2].primitives == INTENT_PRIMITIVES
      && LAYERS[3].primitives == INTERACTION_PRIMITIVES
      && LAYERS[4].primitives == TRUST_PRIMITIVES
      && LAYERS[5].primitives == VALUE_PRIMITIVES
      && LAYERS[6].primitives == COORDINATION_PRIMITIVES
      && LAYERS[7].primitives == AGENTS_PRIMITIVES
  {
  }

  /** One group at a time: what a filter keeps from the groups from index
      `k` on is what it keeps from group `k` followed by what it keeps from
      the groups after it. */
  lemma FilterFlattenStep(groups: seq<LayerGroup>, k: nat, keep: Primitive -> bool, own: seq<Primitive>, rest: seq<Primitive>)
    requires k < |groups|
    requires Filter(groups[k].primitives, keep) == own
    requires Filter(Flatten(groups[k + 1..]), keep) == rest
    ensures Filter(Flatten(groups[k..]), keep) == own + rest
  {
    assert groups[k..][1..] == groups[k + 1..];
    FilterConcat(groups[k].primitives, Flatten(groups[k + 1..]), keep);
  }

  /** The Money carriers of the catalog, in catalog order. */
  const MONEY_CARRIERS := [
    INTENT_PRIMITIVES[2], INTERACTION_PRIMITIVES[1], INTERACTION_PRIMITIVES[4],
    VALUE_PRIMITIVES[0], VALUE_PRIMITIVES[1], VALUE_PRIMITIVES[2], VALUE_PRIMITIVES[3], VALUE_PRIMITIVES[4],
    COORDINATION_PRIMITIVES[4], AGENTS_PRIMITIVES[1]]

  /** The Money carriers among the groups from Agents on. */
  lemma MoneyFromAgents()
    ensures Filter(Flatten(LAYERS[7..]), CarriesMoney) == MONEY_CARRIERS[9..]
  {
    assert Flatten(LAYERS[8..]) == [];
    assert [AGENTS_PRIMITIVES[1]] + [] == MONEY_CARRIERS[9..];
    GroupLists();
    AgentsMoneyCarriers();
    FilterFlattenStep(LAYERS, 7, CarriesMoney, [AGENTS_PRIMITIVES[1]], []);
  }

  /** The Money carriers among the groups from Coordination on. */
  lemma MoneyFromCoordination()
    ensures Filter(Flatten(LAYERS[6..]), CarriesMoney) == MONEY_CARRIERS[8..]
  {
    MoneyFromAgents();
    assert [COORDINATION_PRIMITIVES[4]] + MONEY_CARRIERS[9..] == MONEY_CARRIERS[8..];
    GroupLists();
    CoordinationMoneyCarriers();
    FilterFlattenStep(LAYERS, 6, CarriesMoney, [COORDINATION_PRIMITIVES[4]], MONEY_CARRIERS[9..]);
  }

  /** The Money carriers among the groups from Value on. */
  lemma MoneyFromValue()
    ensures Filter(Flatten(LAYERS[5..]), CarriesMoney) == MONEY_CARRIERS[3..]
  {
    MoneyFromCoordination();
    assert [VALUE_PRIMITIVES[0], VALUE_PRIMITIVES[1], VALUE_PRIMITIVES[2], VALUE_PRIMITIVES[3], VALUE_PRIMITIVES[4]] + MONEY_CARRIERS[8..] == MONEY_CARRIERS[3..];
    GroupLists();
    ValueMoneyCarriers();
    FilterFlattenStep(LAYERS, 5, CarriesMoney, [VALUE_PRIMITIVES[0], VALUE_PRIMITIVES[1], VALUE_PRIMITIVES[2], VALUE_PRIMITIVES[3], VALUE_PRIMITIVES[4]], MONEY_CARRIERS[8..]);
  }

  /** The Money carriers among the groups from Trust on. */
  lemma MoneyFromTrust()
    ensures Filter(Flatten(LAYERS[4..]), CarriesMoney) == MONEY_CARRIERS[3..]
  {
    MoneyFromValue();
    GroupLists();
    TrustMoneyCarriers();
    FilterFlattenStep(LAYERS, 4, CarriesMoney, [], MONEY_CARRIERS[3..]);
  }

  /** The Money carriers among the groups from Interaction on. */
  lemma MoneyFromInteraction()
    ensures Filter(Flatten(LAYERS[3..]), CarriesMoney) == MONEY_CARRIERS[1..]
  {
    MoneyFromTrust();
    assert [INTERACTION_PRIMITIVES[1], INTERACTION_PRIMITIVES[4]] + MONEY_CARRIERS[3..] == MONEY_CARRIERS[1..];
    GroupLists();
    InteractionMoneyCarriers();
    FilterFlattenStep(LAYERS, 3, CarriesMoney, [INTERACTION_PRIMITIVES[1], INTERACTION_PRIMITIVES[4]], MONEY_CARRIERS[3..]);
  }

  /** The Money carriers among the groups from Intent on. */
  lemma MoneyFromIntent()
    ensures Filter(Flatten(LAYERS[2..]), CarriesMoney) == MONEY_CARRIERS
  {
    MoneyFromInteraction();
    assert [INTENT_PRIMITIVES[2]] + MONEY_CARRIERS[1..] == MONEY_CARRIERS;
    GroupLists();
    IntentMoneyCarriers();
    FilterFlattenStep(LAYERS, 2, CarriesMoney, [INTENT_PRIMITIVES[2]], MONEY_CARRIERS[1..]);
  }

  /** The Money carriers among the groups from Context on. */
  lemma MoneyFromContext()
    ensures Filter(Flatten(LAYERS[1..]), CarriesMoney) == MONEY_CARRIERS
  {
    MoneyFromIntent();
    GroupLists();
    ContextMoneyCarriers();
    FilterFlattenStep(LAYERS, 1, CarriesMoney, [], MONEY_CARRIERS);
  }

  /** The Money carriers among the groups from Foundation on. */
  lemma MoneyFromFoundation()
    ensures Filter(Flatten(LAYERS[0..]), CarriesMoney) == MONEY_CARRIERS
  {
    MoneyFromContext();
    GroupLists();
    FoundationMoneyCarriers();
    FilterFlattenStep(LAYERS, 0, CarriesMoney, [], MONEY_CARRIERS);
  }

  /** Filters the catalog by the Money pillar group by group. */
  lemma MoneyCarriersInOrder()
    ensures Filter(ALL_PRIMITIVES, CarriesMoney) == MONEY_CARRIERS
  {
    MoneyFromFoundation();
    assert LAYERS[0..] == LAYERS;
  }

  /** Exactly ten primitives carry the Money pillar: Offer / Bid,
      Transaction, Smart Contract, Token, Stream, Escrow, DeFi (Liquidity),
      Risk, Prediction Market and Task, in catalog order. */
  lemma MoneyCarriers()
    ensures NamesOf(Filter(ALL_PRIMITIVES, CarriesMoney)) == [
      "Offer / Bid",
      "Transaction",
      "Smart Contract",
      "Token",
      "Stream",
      "Escrow",
      "DeFi (Liquidity)",
      "Risk",
      "Prediction Market",
      "Task"]
  {
    var r := MONEY_CARRIERS;
    assert NamesOf(r) == ["Offer / Bid", "Transaction", "Smart Contract", "Token", "Stream", "Escrow", "DeFi (Liquidity)", "Risk", "Prediction Market", "Task"] by {
      assert NamesOf(r)[0] == "Offer / Bid";
      assert NamesOf(r)[1] == "Transaction";
      assert NamesOf(r)[2] == "Smart Contract";
      assert NamesOf(r)[3] == "Token";
      assert NamesOf(r)[4] == "Stream";
      assert NamesOf(r)[5] == "Escrow";
      assert NamesOf(r)[6] == "DeFi (Liquidity)";
      assert NamesOf(r)[7] == "Risk";
      assert NamesOf(r)[8] == "Prediction Market";
      assert NamesOf(r)[9] == "Task";
    }
    MoneyCarriersInOrder();
  }

  /** Selecting only the Money pillar shows exactly the ten Money carriers. */
  lemma MoneyOnlyShowsMoneyCarriers()
    ensures Flatten(FilterLayers(LAYERS, MONEY_ONLY)) == Filter(ALL_PRIMITIVES, CarriesMoney)
    ensures TotalVisible(MONEY_ONLY) == 10
  {
    FlattenFilterLayers(LAYERS, MONEY_ONLY);
    forall p | p in ALL_PRIMITIVES ensures Accepts(MONEY_ONLY, p) == CarriesMoney(p) {
      MoneyOnlyAccepts(p);
    }
    FilterCongruent(ALL_PRIMITIVES, (p: Primitive) => Accepts(MONEY_ONLY, p), CarriesMoney);
    MoneyCarriers();
  }

  /** Within the Trust group, the experimental primitives are the first three. */
  lemma TrustExperimentalInTrust()
    ensures Narrow(LAYERS[4], TRUST_EXPERIMENTAL).primitives == TRUST_PRIMITIVES[..3]
  {
    var ps := TRUST_PRIMITIVES;
    assert LAYERS[4].primitives == ps;
    var sel := TRUST_EXPERIMENTAL;
    assert Accepts(sel, ps[0]) && Accepts(sel, ps[1]) && Accepts(sel, ps[2]) && !Accepts(sel, ps[3]) && !Accepts(sel, ps[4]);
    NarrowPicks(LAYERS[4], sel, [0, 1, 2], ps[..3]);
  }

  /** A selection that accepts exactly the listed positions of a group
      narrows it to the primitives at those positions. */
  lemma NarrowPicks(g: LayerGroup, sel: Selection, idx: seq<nat>, picked: seq<Primitive>)
    requires forall j :: 0 <= j < |idx| ==> idx[j] < |g.primitives|
    requires forall j, k :: 0 <= j < k < |idx| ==> idx[j] < idx[k]
    requires forall i :: 0 <= i < |g.primitives| ==> (Accepts(sel, g.primitives[i]) <==> i in idx)
    requires |picked| == |idx| && forall j :: 0 <= j < |idx| ==> picked[j] == g.primitives[idx[j]]
    ensures Narrow(g, sel).primitives == picked
  {
    FilterPicks(g.primitives, p => Accepts(sel, p), idx, picked);
  }

  /** Whatever else is selected, selecting the Trust layer alone leaves
      every group other than Trust empty. */
  lemma OthersEmptyUnderTrust(sel: Selection, k: nat)
    requires sel.layers == [Trust]
    requires k < |LAYERS| && k != 4
    ensures Narrow(LAYERS[k], sel).primitives == []
  {
    GroupFieldsAgree();
    LayersInDeclarationOrder();
    assert LayerOrdinal(LAYERS[k].layer) == k;
    UnselectedLayerEmpty(LAYERS[k], sel);
  }

  /** When a selection leaves exactly one group non-empty, that narrowed
      group is all that is shown. */
  lemma OnlyOneShown(groups: seq<LayerGroup>, sel: Selection, k: nat)
    requires k < |groups| && Narrow(groups[k], sel).primitives != []
    requires forall i :: 0 <= i < |groups| && i != k ==> Narrow(groups[i], sel).primitives == []
    ensures FilterLayers(groups, sel) == [Narrow(groups[k], sel)]
  {
    FilterSingle(NarrowAll(groups, sel), (g: LayerGroup) => |g.primitives| > 0, k);
  }

  /** When a selection leaves every group empty, nothing is shown. */
  lemma NoneShown(groups: seq<LayerGroup>, sel: Selection)
    requires forall i :: 0 <= i < |groups| ==> Narrow(groups[i], sel).primitives == []
    ensures FilterLayers(groups, sel) == []
  {
    FilterNone(NarrowAll(groups, sel), (g: LayerGroup) => |g.primitives| > 0);
  }

  /** The names of the first three Trust primitives. */
  lemma FirstTrustNames()
    ensures NamesOf(TRUST_PRIMITIVES[..3]) == ["Reputation", "Endorsement", "Vouch"]
  {
    var ps := TRUST_PRIMITIVES[..3];
    assert NamesOf(ps)[0] == "Reputation";
    assert NamesOf(ps)[1] == "Endorsement";
    assert NamesOf(ps)[2] == "Vouch";
  }

  /** Layer Trust with maturity Experimental shows just the Trust group with
      Reputation, Endorsement and Vouch; Perception and Credibility are
      Theoretical and are left out. */
  lemma TrustExperimentalShowsThree()
    ensures var r := FilterLayers(LAYERS, TRUST_EXPERIMENTAL);
      && |r| == 1 && r[0].layer == Trust && r[0].heading == "L5 — Trust"
      && NamesOf(r[0].primitives) == ["Reputation", "Endorsement", "Vouch"]
  {
    var g := Narrow(LAYERS[4], TRUST_EXPERIMENTAL);
    TrustHeader();
    assert NamesOf(g.primitives) == ["Reputation", "Endorsement", "Vouch"] by {
      TrustExperimentalInTrust();
      FirstTrustNames();
    }
    TrustGroupOnly();
  }

  /** Under Trust with Experimental the summary line shows 3 of 37. */
  lemma TrustExperimentalCount()
    ensures TotalVisible(TRUST_EXPERIMENTAL) == 3
  {
    var g := Narrow(LAYERS[4], TRUST_EXPERIMENTAL);
    assert |g.primitives| == 3 by {
      TrustExperimentalInTrust();
    }
    assert SumLengths([g]) == |g.primitives| by {
      assert [g][1..] == [];
    }
    TrustGroupOnly();
  }

  /** The group at index 4 is the Trust layer's. */
  lemma TrustHeader()
    ensures LAYERS[4].layer == Trust && LAYERS[4].heading == "L5 — Trust"
  {
  }

  /** Under Trust with Experimental only the narrowed Trust group is shown. */
  lemma TrustGroupOnly()
    ensures FilterLayers(LAYERS, TRUST_EXPERIMENTAL) == [Narrow(LAYERS[4], TRUST_EXPERIMENTAL)]
  {
    forall i | 0 <= i < |LAYERS| && i != 4 ensures Narrow(LAYERS[i], TRUST_EXPERIMENTAL).primitives == [] {
      OthersEmptyUnderTrust(TRUST_EXPERIMENTAL, i);
    }
    TrustExperimentalInTrust();
    OnlyOneShown(LAYERS, TRUST_EXPERIMENTAL, 4);
  }

  /** No Foundation primitive is Established. */
  lemma NothingEstablishedInFoundation()
    ensures forall j :: 0 <= j < |FOUNDATION_PRIMITIVES| ==> FOUNDATION_PRIMITIVES[j].maturity != Established
  {
  }

  /** No Context primitive is Established. */
  lemma NothingEstablishedInContext()
    ensures forall j :: 0 <= j < |CONTEXT_PRIMITIVES| ==> CONTEXT_PRIMITIVES[j].maturity != Established
  {
  }

  /** No Intent primitive is Established. */
  lemma NothingEstablishedInIntent()
    ensures forall j :: 0 <= j < |INTENT_PRIMITIVES| ==> INTENT_PRIMITIVES[j].maturity != Established
  {
  }

  /** No Interaction primitive is Established. */
  lemma NothingEstablishedInInteraction()
    ensures forall j :: 0 <= j < |INTERACTION_PRIMITIVES| ==> INTERACTION_PRIMITIVES[j].maturity != Established
  {
  }

  /** No Trust primitive is Established. */
  lemma NothingEstablishedInTrust()
    ensures forall j :: 0 <= j < |TRUST_PRIMITIVES| ==> TRUST_PRIMITIVES[j].maturity != Established
  {
  }

  /** No Value primitive is Established. */
  lemma NothingEstablishedInValue()
    ensures forall j :: 0 <= j < |VALUE_PRIMITIVES| ==> VALUE_PRIMITIVES[j].maturity != Established
  {
  }

  /** No Coordination primitive is Established. */
  lemma NothingEstablishedInCoordination()
    ensures forall j :: 0 <= j < |COORDINATION_PRIMITIVES| ==> COORDINATION_PRIMITIVES[j].maturity != Established
  {
  }

  /** No Agents primitive is Established. */
  lemma NothingEstablishedInAgents()
    ensures forall j :: 0 <= j < |AGENTS_PRIMITIVES| ==> AGENTS_PRIMITIVES[j].maturity != Established
  {
  }

  /** No primitive of the catalog is Established. */
  lemma NothingEstablished(k: nat)
    requires k < |LAYERS|
    ensures forall j :: 0 <= j < |LAYERS[k].primitives| ==> LAYERS[k].primitives[j].maturity != Established
  {
    GroupLists();
    if k == 0 {
      NothingEstablishedInFoundation();
    } else if k == 1 {
      NothingEstablishedInContext();
    } else if k == 2 {
      NothingEstablishedInIntent();
    } else if k == 3 {
      NothingEstablishedInInteraction();
    } else if k == 4 {
      NothingEstablishedInTrust();
    } else if k == 5 {
      NothingEstablishedInValue();
    } else if k == 6 {
      NothingEstablishedInCoordination();
    } else {
      NothingEstablishedInAgents();
    }
  }

  /** Maturity Established matches no primitive, so the page shows the
      "no match" message and a visible count of 0. */
  lemma EstablishedMatchesNothing()
    ensures FilterLayers(LAYERS, ESTABLISHED_ONLY) == []
    ensures PageBody(ESTABLISHED_ONLY) == NoMatch && TotalVisible(ESTABLISHED_ONLY) == 0
  {
    forall k | 0 <= k < |LAYERS| ensures Narrow(LAYERS[k], ESTABLISHED_ONLY).primitives == [] {
      NothingEstablished(k);
      forall p | p in LAYERS[k].primitives ensures !Accepts(ESTABLISHED_ONLY, p) {
        var j :| 0 <= j < |LAYERS[k].primitives| && LAYERS[k].primitives[j] == p;
      }
      NarrowEmptyIff(LAYERS[k], ESTABLISHED_ONLY);
    }
    NoneShown(LAYERS, ESTABLISHED_ONLY);
  }
}
