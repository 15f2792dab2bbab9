/** The DIDs and intents that both access policies name literally, and the
    facts about these constants that the policies' proofs rely on. */
module Protocol {
  import opened Strings

  /** The one tier-0 identity; also the identity `svt create` acts as. */
  const OverseerDid: string := "did:t0:protocol-overseer"
  /** The one tier-1 identity. */
  const AdminDid: string := "did:t1:rozel-rosel-admin"
  /** Prefix of every tier-0 DID. */
  const T0Prefix: string := "did:t0:"
  /** Prefix of every audit-only (tier-3) DID. */
  const T3Prefix: string := "did:t3:"

  const OverrideIntent: string := "OVERRIDE"
  const GoldBarVote: string := "GOLD_BAR_VOTE_II"
  const ReadLedger: string := "ReadLedger"
  const Monitor: string := "Monitor"

  /** The two intents reserved for tier 0. */
  predicate IsCritical(intent: string) {
    intent == OverrideIntent || intent == GoldBarVote
  }

  /** The named DIDs sit in the tier their prefix announces, and neither
      contains the other. */
  lemma NamedDidFacts()
    ensures StartsWith(OverseerDid, T0Prefix)
    ensures !StartsWith(OverseerDid, T3Prefix)
    ensures !StartsWith(AdminDid, T0Prefix) && !StartsWith(AdminDid, T3Prefix)
    ensures Contains(OverseerDid, OverseerDid)
    ensures !Contains(OverseerDid, AdminDid)
    ensures !Contains(AdminDid, OverseerDid)
  {
  }
}
