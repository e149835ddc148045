/**
 * The NFT panel (`components/NFTMinting.tsx`): a rarity tier and a price
 * derived from the latest simulation, the metadata's attribute list, and the
 * wallet-connect / mint flags the panel's handlers flip.
 *
 * The metadata's description and SVG image, and the number formatting of
 * `toFixed`, are not modelled: a formatted attribute keeps its number, the
 * number of decimals it is printed with, and its unit suffix. The three-second
 * minting delay is a separate event, `CompleteMint`.
 */
module NFTMinting {
  import opened Numerics
  import opened Store
  import RiskFactorDisplay

  datatype Rarity = Common | Uncommon | Rare | Epic | Legendary

  function Rank(rarity: Rarity): nat {
    match rarity
    case Common => 0
    case Uncommon => 1
    case Rare => 2
    case Epic => 3
    case Legendary => 4
  }

  /** `getRarityLevel`: thresholds at 0.1, 0.3, 0.6 and 0.8. */
  function GetRarityLevel(riskFactor: real): (rarity: Rarity)
    ensures rarity == Common <==> riskFactor < 0.1
    ensures rarity == Uncommon <==> 0.1 <= riskFactor < 0.3
    ensures rarity == Rare <==> 0.3 <= riskFactor < 0.6
    ensures rarity == Epic <==> 0.6 <= riskFactor < 0.8
    ensures rarity == Legendary <==> 0.8 <= riskFactor
  {
    if riskFactor < 0.1 then Common
    else if riskFactor < 0.3 then Uncommon
    else if riskFactor < 0.6 then Rare
    else if riskFactor < 0.8 then Epic
    else Legendary
  }

  function RarityName(rarity: Rarity): string {
    match rarity
    case Common => "Common"
    case Uncommon => "Uncommon"
    case Rare => "Rare"
    case Epic => "Epic"
    case Legendary => "Legendary"
  }

  function RarityColour(rarity: Rarity): string {
    match rarity
    case Common => "text-gray-400"
    case Uncommon => "text-green-400"
    case Rare => "text-blue-400"
    case Epic => "text-purple-400"
    case Legendary => "text-orange-400"
  }

  function RarityIcon(rarity: Rarity): string {
    match rarity
    case Common => "⭐"
    case Uncommon => "✨"
    case Rare => "💎"
    case Epic => "👑"
    case Legendary => "🔥"
  }

  /** A larger risk factor never gives a lower tier. */
  lemma RarityMonotone(r1: real, r2: real)
    requires r1 <= r2
    ensures Rank(GetRarityLevel(r1)) <= Rank(GetRarityLevel(r2))
  {}

  /**
   * The rarity tiers refine the risk panel's levels at their ends: Legendary
   * exactly when the risk panel says Critical, and Common only at a Low risk.
   */
  lemma RarityAgreesWithRiskLevel(r: real)
    ensures GetRarityLevel(r) == Legendary <==> RiskFactorDisplay.GetRiskLevel(r) == RiskFactorDisplay.Critical
    ensures GetRarityLevel(r) == Common ==> RiskFactorDisplay.GetRiskLevel(r) == RiskFactorDisplay.Low
  {}

  /** The price, in ETH, of a base value of 0.01. */
  const BaseValue: real := 0.01

  /** `getNFTValue`: 0.01 · (1 + 10·risk + log10(energy + 1)). */
  function GetNFTValue(m: MathLib, riskFactor: real, impactEnergy: real): (value: real)
    ensures Log10NonNegativeFromOne(m) && riskFactor >= 0.0 && impactEnergy >= 0.0 ==> value >= BaseValue
  {
    var energyMultiplier := Log10(m, impactEnergy + 1.0);
    BaseValue * (1.0 + riskFactor * 10.0 + energyMultiplier)
  }

  /** Each extra unit of risk adds 0.1 ETH, whatever the energy. */
  lemma {:induction false} NFTValueLinearInRisk(m: MathLib, r: real, d: real, energy: real)
    ensures GetNFTValue(m, r + d, energy) == GetNFTValue(m, r, energy) + 0.1 * d
  {
    var l := Log10(m, energy + 1.0);
    assert GetNFTValue(m, r + d, energy) == 0.01 * (1.0 + (r + d) * 10.0 + l);
    assert GetNFTValue(m, r, energy) == 0.01 * (1.0 + r * 10.0 + l);
  }

  /** More energy never lowers the price. */
  lemma NFTValueMonotoneInEnergy(m: MathLib, r: real, e1: real, e2: real)
    requires Log10Monotone(m)
    requires 0.0 <= e1 <= e2
    ensures GetNFTValue(m, r, e1) <= GetNFTValue(m, r, e2)
  {
    assert Log10(m, e1 + 1.0) <= Log10(m, e2 + 1.0);
  }

  // ---------------------------------------------------------------------------
  // Metadata

  /** An attribute value: plain text, or a number printed with a unit suffix. */
  datatype TraitValue =
    | Text(text: string)
    | Figure(amount: real, decimals: Option<nat>, suffix: string)

  datatype Trait = Trait(traitType: string, value: TraitValue)

  datatype Metadata = Metadata(name: string, attributes: seq<Trait>)

  /** The trait names of the attribute list, in order. */
  const TraitTypes: seq<string> := [
    "Asteroid Name", "Diameter", "Velocity", "Impact Probability", "Impact Energy",
    "Crater Diameter", "Seismic Magnitude", "Tsunami Risk", "Risk Factor", "Rarity"]

  /** `generateNFTMetadata`, without its description and image. */
  function NFTMetadata(asteroid: Asteroid, results: SimulationResults): (md: Metadata)
    ensures md.name == asteroid.name + " Impact Simulation"
    ensures |md.attributes| == |TraitTypes|
    ensures forall i :: 0 <= i < |TraitTypes| ==> md.attributes[i].traitType == TraitTypes[i]
    ensures md.attributes[|TraitTypes| - 1].value == Text(RarityName(GetRarityLevel(results.riskFactor)))
    ensures md.attributes[3].value == Figure(results.impactProbability * 100.0, Some(2), "%")
    ensures md.attributes[8].value == Figure(results.riskFactor * 100.0, Some(1), "%")
  {
    var rarity := GetRarityLevel(results.riskFactor);
    Metadata(asteroid.name + " Impact Simulation", [
      Trait("Asteroid Name", Text(asteroid.name)),
      Trait("Diameter", Figure(asteroid.diameter, None, "m")),
      Trait("Velocity", Figure(asteroid.velocity, None, " km/h")),
      Trait("Impact Probability", Figure(results.impactProbability * 100.0, Some(2), "%")),
      Trait("Impact Energy", Figure(results.impactEnergy, Some(1), " MT")),
      Trait("Crater Diameter", Figure(results.craterDiameter / 1000.0, Some(1), " km")),
      Trait("Seismic Magnitude", Figure(results.seismicMagnitude, Some(1), "")),
      Trait("Tsunami Risk", Figure(results.tsunamiRisk * 100.0, Some(1), "%")),
      Trait("Risk Factor", Figure(results.riskFactor * 100.0, Some(1), "%")),
      Trait("Rarity", Text(RarityName(rarity)))])
  }

  // ---------------------------------------------------------------------------
  // Wallet and minting flags

  /** The panel's three state flags, and the minting timers not yet fired. */
  class MintingPanel {
    var isConnected: bool
    var isMinting: bool
    var mintSuccess: bool
    var pendingTimers: nat

    /** Minting starts only once a wallet is connected, and a minting panel has a timer to end it. */
    ghost predicate Valid()
      reads this
    {
      (isMinting || mintSuccess || pendingTimers > 0 ==> isConnected) &&
      (isMinting ==> pendingTimers > 0)
    }

    /** Nothing connected, minting or minted. */
    constructor ()
      ensures Valid()
      ensures !isConnected && !isMinting && !mintSuccess && pendingTimers == 0
    {
      isConnected := false;
      isMinting := false;
      mintSuccess := false;
      pendingTimers := 0;
    }

    /** `handleConnectWallet`. */
    method ConnectWallet()
      requires Valid()
      modifies this
      ensures Valid()
      ensures isConnected
      ensures isMinting == old(isMinting) && mintSuccess == old(mintSuccess)
      ensures pendingTimers == old(pendingTimers)
    {
      isConnected := true;
    }

    /** `handleMintNFT`: nothing without a wallet; otherwise start minting and set the timer. */
    method MintNFT()
      requires Valid()
      modifies this
      ensures Valid()
      ensures !old(isConnected) ==>
        isConnected == old(isConnected) && isMinting == old(isMinting) &&
        mintSuccess == old(mintSuccess) && pendingTimers == old(pendingTimers)
      ensures old(isConnected) ==>
        isConnected && isMinting && mintSuccess == old(mintSuccess) &&
        pendingTimers == old(pendingTimers) + 1
    {
      if !isConnected {
        return;
      }
      isMinting := true;
      pendingTimers := pendingTimers + 1;
    }

    /** A minting timer fires: minting stops and succeeds. */
    method CompleteMint()
      requires Valid() && pendingTimers > 0
      modifies this
      ensures Valid()
      ensures isConnected == old(isConnected)
      ensures !isMinting && mintSuccess
      ensures pendingTimers == old(pendingTimers) - 1
    {
      isMinting := false;
      mintSuccess := true;
      pendingTimers := pendingTimers - 1;
    }
  }

  /** Connecting, then minting, then the timer firing ends in a successful mint from any start. */
  method ConnectThenMint(panel: MintingPanel)
    requires panel.Valid()
    modifies panel
    ensures panel.Valid()
    ensures panel.isConnected && !panel.isMinting && panel.mintSuccess
  {
    panel.ConnectWallet();
    panel.MintNFT();
    panel.CompleteMint();
  }

  /** What the panel shows before a simulation has finished. */
  function Placeholder(asteroid: Option<Asteroid>, results: Option<SimulationResults>): (message: Option<string>)
    ensures message.Some? <==> asteroid.None? || results.None?
  {
    if asteroid.None? || results.None? then Some("Complete a simulation to mint an NFT") else None
  }
}
