/** Where the Python simulator and the Rust registry and engine it claims to
    simulate agree, and where they part: the simulator matches DIDs by
    substring and prefix, tests read-only intents by exact name, pays the
    bonus on containment, and allows what it does not recognise. */
module Divergence {
  import opened Strings
  import opened Protocol
  import Consensus
  import Registry
  import Simulator

  /** On the two named DIDs the two policies give the same answer for
      every intent. */
  lemma AgreeOnNamedDids(svt: Consensus.Svt)
    requires svt.did == OverseerDid || svt.did == AdminDid
    ensures Simulator.CheckAccessAndIntent(svt.did, svt.intent) == Registry.CheckAccessAndIntent(svt).Granted?
  {
    NamedDidFacts();
  }

  /** An unresolved DID with a non-critical intent, such as an unknown DID
      asking to "Write", is allowed by the simulator's fail-open default and
      refused by the registry. */
  lemma UnresolvedFailsOpenOnlyInSimulator(svt: Consensus.Svt)
    requires Registry.ResolveDidToCredential(svt.did).None?
    requires !IsCritical(svt.intent)
    ensures Simulator.CheckAccessAndIntent(svt.did, svt.intent)
    ensures Registry.CheckAccessAndIntent(svt) == Registry.Refused(Registry.Unresolved(svt.did))
  {
  }

  /** The concrete instance: an unregistered DID writing. */
  lemma UnknownWriterDiverges(svt: Consensus.Svt)
    requires svt.did == "did:web:unknown" && svt.intent == "Write"
    ensures Simulator.CheckAccessAndIntent(svt.did, svt.intent)
    ensures Registry.CheckAccessAndIntent(svt).Refused?
  {
    PrefixesExclude(svt.did, "did:w", T3Prefix, 4);
    UnresolvedFailsOpenOnlyInSimulator(svt);
  }

  /** A critical intent from a DID other than the overseer's that contains
      the overseer DID or carries the tier-0 prefix is allowed by the
      simulator and refused by the registry. */
  lemma CriticalLooserInSimulator(svt: Consensus.Svt)
    requires IsCritical(svt.intent) && svt.did != OverseerDid
    requires Contains(svt.did, OverseerDid) || StartsWith(svt.did, T0Prefix)
    ensures Simulator.CheckAccessAndIntent(svt.did, svt.intent)
    ensures Registry.CheckAccessAndIntent(svt).Refused?
  {
    Registry.CriticalOnlyForOverseer(svt);
    if StartsWith(svt.did, T0Prefix) {
      PrefixesExclude(svt.did, T0Prefix, T3Prefix, 5);
    }
  }

  /** For the critical intents the registry is never more permissive than
      the simulator. */
  lemma CriticalRegistryImpliesSimulator(svt: Consensus.Svt)
    requires IsCritical(svt.intent)
    requires Registry.CheckAccessAndIntent(svt).Granted?
    ensures Simulator.CheckAccessAndIntent(svt.did, svt.intent)
  {
    Registry.CriticalOnlyForOverseer(svt);
    Simulator.OverseerAllowedEverything(svt.intent);
  }

  /** An audit DID whose intent only begins with "Read" or "Monitor" (say
      "ReadAll") is granted by the registry and denied by the simulator,
      which accepts only the exact names. */
  lemma ReadPrefixStricterInSimulator(svt: Consensus.Svt)
    requires StartsWith(svt.did, T3Prefix)
    requires Registry.ReadOnlyIntent(svt.intent)
    requires svt.intent != ReadLedger && svt.intent != Monitor
    ensures Registry.CheckAccessAndIntent(svt) == Registry.Granted
    ensures !Simulator.CheckAccessAndIntent(svt.did, svt.intent)
  {
    PrefixesExclude(svt.did, T3Prefix, T0Prefix, 5);
    assert !IsCritical(svt.intent) by {
      if StartsWith(svt.intent, "Read") {
        PrefixesExclude(svt.intent, "Read", OverrideIntent, 0);
        PrefixesExclude(svt.intent, "Read", GoldBarVote, 0);
      } else {
        PrefixesExclude(svt.intent, "Monitor", OverrideIntent, 0);
        PrefixesExclude(svt.intent, "Monitor", GoldBarVote, 0);
      }
    }
  }

  /** Neither policy contains the other: each admits a request the other
      refuses. */
  lemma NeitherPolicyContainsTheOther()
    ensures exists svt: Consensus.Svt ::
      Simulator.CheckAccessAndIntent(svt.did, svt.intent) && !Registry.CheckAccessAndIntent(svt).Granted?
    ensures exists svt: Consensus.Svt ::
      !Simulator.CheckAccessAndIntent(svt.did, svt.intent) && Registry.CheckAccessAndIntent(svt).Granted?
  {
    var writer := Consensus.Svt("did:web:unknown", 900, "Write", 0);
    UnknownWriterDiverges(writer);
    var auditor := Consensus.Svt("did:t3:auditor", 900, "ReadAll", 0);
    assert StartsWith(auditor.did, T3Prefix);
    assert StartsWith(auditor.intent, "Read");
    ReadPrefixStricterInSimulator(auditor);
  }

  /** Whenever the engine pays its bonus, the simulator pays the same
      bonus: an intent equal to "OVERRIDE" also contains it. */
  lemma EngineBonusImpliesSimulatedBonus(intent: string, base: Simulator.BaseWeight)
    requires Consensus.IntentBonus(intent) > 0
    ensures Simulator.ExecuteWeighting(intent, base) == base + Consensus.IntentBonus(intent) as int
  {
  }

  /** The two bonus rules disagree on exactly the intents that contain
      "OVERRIDE" without being equal to it: containment versus equality. */
  lemma BonusesDifferOnProperContainment(intent: string, base: Simulator.BaseWeight)
    ensures (Simulator.ExecuteWeighting(intent, base) - base != Consensus.IntentBonus(intent) as int)
        <==> (Contains(intent, OverrideIntent) && intent != OverrideIntent)
  {
  }
}
