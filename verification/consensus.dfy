/** The Rust consensus core: a Sovereign Verification Transaction (SVT) and
    the weight the engine assigns it. The standard-library hasher and the
    AVX intrinsics are foreign code and enter as function parameters. */
module Consensus {
  import opened Protocol

  newtype u16 = x: int | 0 <= x < 0x1_0000
  newtype u32 = x: int | 0 <= x < 0x1_0000_0000
  newtype u64 = x: int | 0 <= x < 0x1_0000_0000_0000_0000

  /** A submitted vote or action request. */
  datatype Svt = Svt(did: string, energySignatureValue: u16, intent: string, timestampEpoch: u64)

  /** The two 32-bit lanes the engine reads back from the horizontal add. */
  datatype Lanes = Lanes(lane0: u32, lane1: u32)

  /** Bonus granted to an intent spelled exactly "OVERRIDE". */
  const OverrideBonus: u64 := 9_000_000_000
  /** Largest amplified energy: a u16 signature times 16. */
  const MaxAmplifiedEnergy: int := 0xFFFF * 16
  /** Largest AVX contribution: the sum of two u32 lanes. */
  const MaxAvxResult: int := 2 * 0xFFFF_FFFF
  /** Largest hash contribution: a u64 hash halved. */
  const MaxHashComponent: int := 0xFFFF_FFFF_FFFF_FFFF / 2

  /** The signature widened to u32 and multiplied by 16 in u32 arithmetic;
      the multiplication never wraps and the signature can be read back. */
  function AmplifiedEnergy(energy: u16): (a: u32)
    ensures a as int <= MaxAmplifiedEnergy
    ensures a as int % 16 == 0 && a as int / 16 == energy as int
  {
    (energy as u32) * 16
  }

  /** Sum of the first two lanes, widened to u64 before adding. */
  function AvxResult(lanes: Lanes): (r: u64)
    ensures lanes.lane0 as int <= r as int && lanes.lane1 as int <= r as int
    ensures r as int <= MaxAvxResult
  {
    (lanes.lane0 as u64) + (lanes.lane1 as u64)
  }

  /** The intent bonus: granted by exact equality with "OVERRIDE", not by
      containment. */
  function IntentBonus(intent: string): (b: u64)
    ensures b == OverrideBonus <==> intent == OverrideIntent
    ensures b == 0 <==> intent != OverrideIntent
  {
    if intent == OverrideIntent then 9_000_000_000 else 0
  }

  /** The engine's weighting: half the metadata hash, plus the AVX lane sum
      computed from the amplified energy, plus the intent bonus, all in u64
      arithmetic. `hasher` stands for the standard-library hash of the whole
      SVT and `hadd` for loading eight copies of the amplified energy into a
      vector and adding horizontally. The two additions are checked u64
      additions, so verifying the body is the proof that they never overflow;
      the weight is bounded below by the hash part and above by the sum of
      the three parts' maxima, which the last clause shows is below 2^64. */
  function ExecuteWeighting(svt: Svt, hasher: Svt -> u64, hadd: u32 -> Lanes): (w: u64)
    ensures hasher(svt) as int / 2 <= w as int
    ensures w as int <= hasher(svt) as int / 2 + MaxAvxResult + IntentBonus(svt.intent) as int
    ensures w as int <= MaxHashComponent + MaxAvxResult + OverrideBonus as int
    ensures svt.intent == OverrideIntent ==> w >= OverrideBonus
    ensures svt.intent != OverrideIntent ==> w as int <= MaxHashComponent + MaxAvxResult
    ensures MaxHashComponent + MaxAvxResult + OverrideBonus as int < 0x1_0000_0000_0000_0000
  {
    var metadataHash := hasher(svt);
    var amplifiedEnergy := AmplifiedEnergy(svt.energySignatureValue);
    var avxResult := AvxResult(hadd(amplifiedEnergy));
    var intentBonus := IntentBonus(svt.intent);
    (metadataHash / 2) + avxResult + intentBonus
  }

  /** Given the same hash and the same AVX lanes, an "OVERRIDE" SVT outweighs
      any other SVT by exactly the bonus. */
  lemma OverrideOutweighsByBonus(a: Svt, b: Svt, hasher: Svt -> u64, hadd: u32 -> Lanes)
    requires hasher(a) == hasher(b)
    requires a.energySignatureValue == b.energySignatureValue
    requires a.intent == OverrideIntent && b.intent != OverrideIntent
    ensures ExecuteWeighting(a, hasher, hadd) as int
         == ExecuteWeighting(b, hasher, hadd) as int + OverrideBonus as int
  {
  }

  /** With equal hashes, an "OVERRIDE" SVT strictly outweighs every other
      SVT whatever the two energies and lanes: the bonus exceeds the largest
      AVX contribution. */
  lemma OverrideStrictlyOutweighs(a: Svt, b: Svt, hasher: Svt -> u64, hadd: u32 -> Lanes)
    requires hasher(a) == hasher(b)
    requires a.intent == OverrideIntent && b.intent != OverrideIntent
    ensures ExecuteWeighting(a, hasher, hadd) > ExecuteWeighting(b, hasher, hadd)
  {
  }

  /** The weight is a function of the hash value, the energy signature and
      whether the intent is exactly "OVERRIDE"; the DID and timestamp reach
      it only through the hash. */
  lemma WeightDeterminedByHashEnergyIntent(a: Svt, b: Svt, hasher: Svt -> u64, hadd: u32 -> Lanes)
    requires hasher(a) == hasher(b)
    requires a.energySignatureValue == b.energySignatureValue
    requires (a.intent == OverrideIntent) == (b.intent == OverrideIntent)
    ensures ExecuteWeighting(a, hasher, hadd) == ExecuteWeighting(b, hasher, hadd)
  {
  }
}
