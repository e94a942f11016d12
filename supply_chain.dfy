/*
 * Supply-chain tracking: a product's lifecycle is a list of stages whose
 * tiers must follow the fixed order Planting, Cultivation, ..., Consumer
 * without gaps or repeats. Stage ids are the list positions counted from 1.
 * Product records other than their stage lists, and the hashes identifying
 * them, are not part of this model: a product id is an opaque number.
 */
module SupplyChain {
  import opened Common

  datatype StageTier =
    | Planting | Cultivation | Harvesting | Processing | Packaging
    | Storage | Transportation | Distribution | Retail | Consumer

  /** The position of a tier in the lifecycle, Planting being 0. */
  function TierIndex(t: StageTier): (i: nat)
    ensures i < 10
    ensures i == 0 <==> t == Planting
    ensures i == 9 <==> t == Consumer
  {
    match t
    case Planting => 0
    case Cultivation => 1
    case Harvesting => 2
    case Processing => 3
    case Packaging => 4
    case Storage => 5
    case Transportation => 6
    case Distribution => 7
    case Retail => 8
    case Consumer => 9
  }

  /** `StageTier::next`: the following tier, none after Consumer. */
  function Next(t: StageTier): (n: Option<StageTier>)
    ensures n.None? <==> t == Consumer
    ensures n.Some? ==> TierIndex(n.value) == TierIndex(t) + 1
  {
    match t
    case Planting => Some(Cultivation)
    case Cultivation => Some(Harvesting)
    case Harvesting => Some(Processing)
    case Processing => Some(Packaging)
    case Packaging => Some(Storage)
    case Storage => Some(Transportation)
    case Transportation => Some(Distribution)
    case Distribution => Some(Retail)
    case Retail => Some(Consumer)
    case Consumer => None
  }

  datatype Stage = Stage(stageId: nat, tier: StageTier, name: string, timestamp: nat,
                         location: string, dataHash: nat)

  datatype TrackingError =
    | InvalidInput | ProductNotFound | StageNotFound | DuplicateStage
    | DuplicateStageTier | InvalidTierProgression

  /** The shape every stored stage list keeps: the stage at position i has
      id i + 1 and the i-th tier of the lifecycle. */
  ghost predicate WellOrdered(stages: seq<Stage>)
  {
    forall i :: 0 <= i < |stages| ==> stages[i].stageId == i + 1 && TierIndex(stages[i].tier) == i
  }

  predicate HasTier(stages: seq<Stage>, tier: StageTier)
  {
    exists i :: 0 <= i < |stages| && stages[i].tier == tier
  }

  predicate HasStageId(stages: seq<Stage>, id: nat)
  {
    exists i :: 0 <= i < |stages| && stages[i].stageId == id
  }

  /** validate_tier_progression as a specification: a tier already present
      is a duplicate; otherwise the first stage must be Planting and every
      later one the tier after the current (last) one. */
  function TierProgression(stages: seq<Stage>, tier: StageTier): Option<TrackingError>
  {
    if HasTier(stages, tier) then Some(DuplicateStageTier)
    else if |stages| == 0 then (if tier == Planting then None else Some(InvalidTierProgression))
    else if Next(stages[|stages| - 1].tier) == Some(tier) then None
    else Some(InvalidTierProgression)
  }

  /** get_next_expected_tier: Planting for an empty list, else the tier
      after the current one (none once Consumer is reached). */
  function NextExpectedTier(stages: seq<Stage>): (t: Option<StageTier>)
    ensures |stages| == 0 ==> t == Some(Planting)
    ensures |stages| > 0 ==> (t.None? <==> stages[|stages| - 1].tier == Consumer)
  {
    if |stages| == 0 then Some(Planting) else Next(stages[|stages| - 1].tier)
  }

  /** get_current_tier: the tier of the last stage, none for an empty list. */
  function CurrentTier(stages: seq<Stage>): (t: Option<StageTier>)
    ensures t.None? <==> |stages| == 0
    ensures t.Some? ==> HasTier(stages, t.value)
  {
    if |stages| == 0 then None else Some(stages[|stages| - 1].tier)
  }

  /** get_current_stage: the last stage, StageNotFound for an empty list. */
  function CurrentStage(stages: seq<Stage>): (r: Result<Stage, TrackingError>)
    ensures r.Err? <==> |stages| == 0
    ensures r.Err? ==> r.error == StageNotFound
    ensures r.Ok? ==> r.value in stages && r.value.tier == CurrentTier(stages).value
  {
    if |stages| == 0 then Err(StageNotFound) else Ok(stages[|stages| - 1])
  }

  /** validate_stage_transition: false unless `to` directly follows `from`;
      an error when `from` is not a stage id or `to` already is one. */
  function StageTransition(stages: seq<Stage>, from: nat, to: nat): (r: Result<bool, TrackingError>)
    ensures r == Ok(true) ==> to == from + 1 && HasStageId(stages, from) && !HasStageId(stages, to)
    ensures to != from + 1 ==> r == Ok(false)
  {
    if to != from + 1 then Ok(false)
    else if !HasStageId(stages, from) then Err(StageNotFound)
    else if HasStageId(stages, to) then Err(DuplicateStage)
    else Ok(true)
  }

  /** On a well-ordered list the duplicate-tier check never rejects a tier
      the progression check would accept: a tier is accepted exactly when it
      is the next expected one. */
  lemma AcceptedIffNextExpected(stages: seq<Stage>, tier: StageTier)
    requires WellOrdered(stages)
    ensures TierProgression(stages, tier).None? <==> NextExpectedTier(stages) == Some(tier)
  {
    if NextExpectedTier(stages) == Some(tier) {
      if |stages| > 0 {
        assert TierIndex(stages[|stages| - 1].tier) == |stages| - 1;
      }
      assert TierIndex(tier) == |stages|;
      forall i | 0 <= i < |stages| ensures stages[i].tier != tier {
        assert TierIndex(stages[i].tier) == i;
      }
    }
  }

  /** Appending a stage that passes the tier check, with id count + 1, keeps
      a list well ordered. */
  lemma AddStageKeepsOrder(stages: seq<Stage>, s: Stage)
    requires WellOrdered(stages)
    requires TierProgression(stages, s.tier).None? && s.stageId == |stages| + 1
    ensures WellOrdered(stages + [s])
  {
    var n := |stages|;
    if n == 0 {
      assert TierIndex(s.tier) == 0;
    } else {
      assert TierIndex(s.tier) == TierIndex(stages[n - 1].tier) + 1 == n;
    }
  }

  /** A well-ordered list never holds more than the ten tiers, and once no
      further tier is expected it holds exactly all ten ending at Consumer. */
  lemma CompletedLifecycle(stages: seq<Stage>)
    requires WellOrdered(stages)
    ensures |stages| <= 10
    ensures NextExpectedTier(stages).None? ==> |stages| == 10 && stages[9].tier == Consumer
  {
    if |stages| > 0 {
      assert TierIndex(stages[|stages| - 1].tier) == |stages| - 1;
    }
  }

  /** On a well-ordered list of n stages the only valid transition is from
      the last stage n to the not yet recorded n + 1. */
  lemma TransitionOnlyFromLast(stages: seq<Stage>, from: nat, to: nat)
    requires WellOrdered(stages)
    ensures StageTransition(stages, from, to) == Ok(true) <==>
      (|stages| > 0 && from == |stages| && to == from + 1)
  {
    StageByIdIsPosition(stages, from);
    StageByIdIsPosition(stages, to);
  }

  /** The loop of validate_tier_progression: scan for the tier, then check
      the first-stage and successor rules. */
  method ValidateTierProgression(stages: seq<Stage>, tier: StageTier) returns (e: Option<TrackingError>)
    ensures e == TierProgression(stages, tier)
  {
    var i := 0;
    while i < |stages|
      invariant 0 <= i <= |stages|
      invariant forall j :: 0 <= j < i ==> stages[j].tier != tier
    {
      if stages[i].tier == tier {
        return Some(DuplicateStageTier);
      }
      i := i + 1;
    }
    if |stages| == 0 {
      if tier != Planting {
        return Some(InvalidTierProgression);
      }
      return None;
    }
    match Next(stages[|stages| - 1].tier) {
      case Some(expected) =>
        if tier != expected {
          return Some(InvalidTierProgression);
        }
      case None =>
        return Some(InvalidTierProgression);
    }
    return None;
  }

  /** get_stage_by_id: the first stage with that id, StageNotFound if none. */
  method StageById(stages: seq<Stage>, id: nat) returns (r: Result<Stage, TrackingError>)
    ensures r.Err? <==> !HasStageId(stages, id)
    ensures r.Err? ==> r.error == StageNotFound
    ensures r.Ok? ==> (r.value.stageId == id &&
      exists i :: 0 <= i < |stages| && stages[i] == r.value && (forall j :: 0 <= j < i ==> stages[j].stageId != id))
  {
    var i := 0;
    while i < |stages|
      invariant 0 <= i <= |stages|
      invariant forall j :: 0 <= j < i ==> stages[j].stageId != id
    {
      if stages[i].stageId == id {
        return Ok(stages[i]);
      }
      i := i + 1;
    }
    return Err(StageNotFound);
  }

  /** On a well-ordered list, stage id k is found exactly when 1 <= k <= n,
      and it is the stage at position k - 1. */
  lemma StageByIdIsPosition(stages: seq<Stage>, id: nat)
    requires WellOrdered(stages)
    ensures HasStageId(stages, id) <==> 1 <= id <= |stages|
    ensures 1 <= id <= |stages| ==>
      stages[id - 1].stageId == id && (forall j :: 0 <= j < id - 1 ==> stages[j].stageId != id)
  {
    if 1 <= id <= |stages| {
      assert stages[id - 1].stageId == id;
    }
  }

  /** The add_stage check in the source's order: empty name or location,
      unknown product, then the tier rules. */
  function AddStageCheck(products: map<nat, seq<Stage>>, productId: nat, tier: StageTier,
                         name: string, location: string): (e: Option<TrackingError>)
    ensures e.None? <==> name != [] && location != [] && productId in products &&
                         TierProgression(products[productId], tier).None?
    ensures (name == [] || location == []) ==> e == Some(InvalidInput)
    ensures name != [] && location != [] && productId !in products ==> e == Some(ProductNotFound)
  {
    if name == [] || location == [] then Some(InvalidInput)
    else if productId !in products then Some(ProductNotFound)
    else TierProgression(products[productId], tier)
  }

  class Tracking {
    /** Each registered product's stage list. */
    var products: map<nat, seq<Stage>>

    ghost predicate Valid()
      reads this
    {
      forall p :: p in products ==> WellOrdered(products[p])
    }

    constructor ()
      ensures Valid() && products == map[]
    {
      products := map[];
    }

    /** register_product, as far as tracking is concerned: a fresh product
        with no stages. */
    method RegisterProduct(productId: nat)
      requires Valid() && productId !in products
      modifies this
      ensures Valid() && products == old(products)[productId := []]
    {
      products := products[productId := []];
    }

    /** add_stage: appends a stage with id count + 1 when the name and
        location are non-empty and the tier is the next expected one. */
    method AddStage(productId: nat, tier: StageTier, name: string, location: string,
                    dataHash: nat, now: nat) returns (r: Result<nat, TrackingError>)
      requires Valid()
      modifies this
      ensures Valid()
      ensures AddStageCheck(old(products), productId, tier, name, location).Some? ==>
        r == Err(AddStageCheck(old(products), productId, tier, name, location).value) && unchanged(this)
      ensures AddStageCheck(old(products), productId, tier, name, location).None? ==>
        var stages := old(products)[productId];
        && r == Ok(|stages| + 1)
        && NextExpectedTier(stages) == Some(tier)
        && products == old(products)[productId := stages + [Stage(|stages| + 1, tier, name, now, location, dataHash)]]
    {
      if name == [] || location == [] {
        return Err(InvalidInput);
      }
      if productId !in products {
        return Err(ProductNotFound);
      }
      var stages := products[productId];
      var e := ValidateTierProgression(stages, tier);
      if e.Some? {
        return Err(e.value);
      }
      AcceptedIffNextExpected(stages, tier);
      var stage := Stage(|stages| + 1, tier, name, now, location, dataHash);
      AddStageKeepsOrder(stages, stage);
      products := products[productId := stages + [stage]];
      r := Ok(stage.stageId);
    }

    /** get_stage_history: the stored stage list. */
    function StageHistory(productId: nat): (r: Result<seq<Stage>, TrackingError>)
      reads this
      ensures r.Err? <==> productId !in products
      ensures r.Err? ==> r.error == ProductNotFound
      ensures r.Ok? ==> r.value == products[productId]
    {
      if productId in products then Ok(products[productId]) else Err(ProductNotFound)
    }
  }
}
