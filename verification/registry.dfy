/** The Rust trust registry: the access tiers, the fixed DID-to-credential
    resolver, and the tier-to-intent policy that answers `Ok` or `Err` with
    no default that lets an unknown DID through. */
module Registry {
  import opened Strings
  import opened Protocol
  import opened Consensus

  /** Access tiers, most privileged first; the derived ordering follows the
      declaration order. */
  datatype AccessTier = T0Override | T1Admin | T2ReadWrite | T3AuditOnly | T4Default

  /** Position of a tier in the declaration. */
  function Rank(t: AccessTier): nat {
    match t
    case T0Override => 0
    case T1Admin => 1
    case T2ReadWrite => 2
    case T3AuditOnly => 3
    case T4Default => 4
  }

  /** The derived `<` on tiers. */
  predicate Less(a: AccessTier, b: AccessTier) {
    Rank(a) < Rank(b)
  }

  /** The derived order is a strict total order, T0 < T1 < T2 < T3 < T4. */
  lemma TierOrderIsStrictTotal()
    ensures forall a: AccessTier :: !Less(a, a)
    ensures forall a: AccessTier, b: AccessTier, c: AccessTier :: Less(a, b) && Less(b, c) ==> Less(a, c)
    ensures forall a: AccessTier, b: AccessTier :: a == b || Less(a, b) || Less(b, a)
    ensures Less(T0Override, T1Admin) && Less(T1Admin, T2ReadWrite)
    ensures Less(T2ReadWrite, T3AuditOnly) && Less(T3AuditOnly, T4Default)
  {
  }

  datatype Option<T> = None | Some(value: T)

  /** A validated identity with its tier and energy-credential hash. */
  datatype ResolvedCredential = ResolvedCredential(resolvedDid: string, accessTier: AccessTier, energyCredentialHash: u64)

  /** The fixed resolver: the two named DIDs by exact match, then any other
      DID with the audit prefix; everything else is unresolved. Only tiers
      0, 1 and 3 are ever produced. */
  function ResolveDidToCredential(did: string): (r: Option<ResolvedCredential>)
    ensures r.Some? ==> r.value.resolvedDid == did
    ensures did == OverseerDid <==> r.Some? && r.value.accessTier == T0Override
    ensures did == AdminDid <==> r.Some? && r.value.accessTier == T1Admin
    ensures StartsWith(did, T3Prefix) <==> r.Some? && r.value.accessTier == T3AuditOnly
    ensures r.None? <==> did != OverseerDid && did != AdminDid && !StartsWith(did, T3Prefix)
    ensures r.Some? ==> r.value.accessTier != T2ReadWrite && r.value.accessTier != T4Default
  {
    NamedDidFacts();
    if did == OverseerDid then
      Some(ResolvedCredential(did, T0Override, 0xDEAD_BEEF_C0DE_C0DE))
    else if did == AdminDid then
      Some(ResolvedCredential(did, T1Admin, 0xAFFE_CAFE_BABE_BABE))
    else if StartsWith(did, T3Prefix) then
      Some(ResolvedCredential(did, T3AuditOnly, 0xFACE_BEEF))
    else
      None
  }

  /** Why a request was refused; each case is one `Err` of the source. */
  datatype Denial =
    | Unresolved(did: string)
    | RestrictedFromT0(intent: string)
    | T2CriticalIntent(intent: string)
    | ReadOnlyTier(intent: string)

  /** The pieces of the refusal texts; each text is "DISALLOW: ", a
      two-character tag that names the refusal, and the rest of the sentence. */
  const Disallow: string := "DISALLOW: "
  const UnresolvedLead: string := Disallow + "UN" + "AUTHORIZED_IP. DID '"
  const UnresolvedTail: string := "' is unresolved."
  const T1Lead: string := Disallow + "T1" + "_ADMIN is restricted from T0-level intent: "
  const T2Lead: string := Disallow + "T2" + "_READ_WRITE cannot perform critical intent: "
  const ReadOnlyLead: string := Disallow + "T3" + "/T4 access cannot execute modification intent: "

  /** The error text the source formats for each refusal. */
  function Message(d: Denial): string {
    match d
    case Unresolved(did) => UnresolvedLead + did + UnresolvedTail
    case RestrictedFromT0(intent) => T1Lead + intent
    case T2CriticalIntent(intent) => T2Lead + intent
    case ReadOnlyTier(intent) => ReadOnlyLead + intent
  }

  /** Distinct refusals give distinct texts, so the text alone tells the
      caller the reason and the DID or intent refused. Every text is
      "DISALLOW: " followed by 'U' for an unresolved DID or by "T1", "T2" or
      "T3" for a tier refusal, and the DID or intent sits at a fixed offset. */
  lemma MessageIdentifiesDenial(d: Denial, e: Denial)
    requires Message(d) == Message(e)
    ensures d == e
  {
    var m := Message(d);
    MessageTag(d);
    MessageTag(e);
    match d
    case Unresolved(did) =>
      assert did == m[|UnresolvedLead|..|m| - |UnresolvedTail|] == e.did;
    case RestrictedFromT0(intent) =>
      assert intent == m[|T1Lead|..] == e.intent;
    case T2CriticalIntent(intent) =>
      assert intent == m[|T2Lead|..] == e.intent;
    case ReadOnlyTier(intent) =>
      assert intent == m[|ReadOnlyLead|..] == e.intent;
  }

  /** Characters 10 and 11 of a refusal text: "UN", "T1", "T2" or "T3". */
  lemma MessageTag(d: Denial)
    ensures |Message(d)| >= 12
    ensures Message(d)[10] == (if d.Unresolved? then 'U' else 'T')
    ensures Message(d)[11] == match d
      case Unresolved(_) => 'N'
      case RestrictedFromT0(_) => '1'
      case T2CriticalIntent(_) => '2'
      case ReadOnlyTier(_) => '3'
  {
  }

  /** `Result<(), String>`: granted, or refused with a reason. */
  datatype Access = Granted | Refused(denial: Denial)

  /** Intents a tier-2 identity may perform. */
  predicate ReadWriteIntent(intent: string) {
    StartsWith(intent, "ACQUISITION") || StartsWith(intent, "Read") || StartsWith(intent, "Write")
  }

  /** Intents a tier-3 or tier-4 identity may perform. */
  predicate ReadOnlyIntent(intent: string) {
    StartsWith(intent, "Read") || StartsWith(intent, "Monitor")
  }

  /** The per-tier policy applied to a resolved credential. */
  function TierPolicy(tier: AccessTier, intent: string): (a: Access)
    ensures tier == T0Override ==> a == Granted
    ensures tier == T1Admin ==> (a.Granted? <==> !IsCritical(intent))
    ensures tier == T2ReadWrite ==> (a.Granted? <==> ReadWriteIntent(intent))
    ensures Less(T2ReadWrite, tier) ==> (a.Granted? <==> ReadOnlyIntent(intent))
    ensures a.Refused? ==> !a.denial.Unresolved? && a.denial.intent == intent
  {
    match tier
    case T0Override => Granted
    case T1Admin =>
      if intent == GoldBarVote || intent == OverrideIntent then Refused(RestrictedFromT0(intent)) else Granted
    case T2ReadWrite =>
      if ReadWriteIntent(intent) then Granted else Refused(T2CriticalIntent(intent))
    case _ =>
      if ReadOnlyIntent(intent) then Granted else Refused(ReadOnlyTier(intent))
  }

  /** The tier order agrees with the policy from T0 down to T2 and from T1
      to the audit tiers: whatever T1 grants T0 grants, and whatever T2, T3
      or T4 grants T1 grants; T3 and T4 grant the same. */
  lemma TierGrantsNested(intent: string)
    ensures TierPolicy(T1Admin, intent).Granted? ==> TierPolicy(T0Override, intent).Granted?
    ensures TierPolicy(T2ReadWrite, intent).Granted? ==> TierPolicy(T1Admin, intent).Granted?
    ensures TierPolicy(T3AuditOnly, intent).Granted? ==> TierPolicy(T1Admin, intent).Granted?
    ensures TierPolicy(T4Default, intent) == TierPolicy(T3AuditOnly, intent)
  {
    if StartsWith(intent, "ACQUISITION") {
      PrefixesExclude(intent, "ACQUISITION", OverrideIntent, 0);
      PrefixesExclude(intent, "ACQUISITION", GoldBarVote, 0);
    }
    if StartsWith(intent, "Read") {
      PrefixesExclude(intent, "Read", OverrideIntent, 0);
      PrefixesExclude(intent, "Read", GoldBarVote, 0);
    }
    if StartsWith(intent, "Write") {
      PrefixesExclude(intent, "Write", OverrideIntent, 0);
      PrefixesExclude(intent, "Write", GoldBarVote, 0);
    }
    if StartsWith(intent, "Monitor") {
      PrefixesExclude(intent, "Monitor", OverrideIntent, 0);
      PrefixesExclude(intent, "Monitor", GoldBarVote, 0);
    }
  }

  /** The nesting breaks between T2 and T3: the audit tier may monitor, the
      more privileged read-write tier may not. No DID resolves to T2, so the
      gap never shows through the registry. */
  lemma ReadWriteTierCannotMonitor()
    ensures TierPolicy(T3AuditOnly, Monitor) == Granted
    ensures TierPolicy(T2ReadWrite, Monitor) == Refused(T2CriticalIntent(Monitor))
    ensures Less(T2ReadWrite, T3AuditOnly)
  {
    assert StartsWith(Monitor, "Monitor");
    PrefixesExclude(Monitor, "Monitor", "ACQUISITION", 0);
    PrefixesExclude(Monitor, "Monitor", "Read", 0);
    PrefixesExclude(Monitor, "Monitor", "Write", 0);
  }

  /** The registry's check: resolve the SVT's DID, refuse it if unresolved,
      otherwise apply its tier's policy. Granted exactly for the overseer,
      for the admin outside the critical intents, and for audit DIDs with a
      read or monitor intent. */
  function CheckAccessAndIntent(svt: Svt): (a: Access)
    ensures a.Granted? <==>
              || svt.did == OverseerDid
              || (svt.did == AdminDid && !IsCritical(svt.intent))
              || (StartsWith(svt.did, T3Prefix) && ReadOnlyIntent(svt.intent))
    ensures ResolveDidToCredential(svt.did).None? ==> a == Refused(Unresolved(svt.did))
  {
    match ResolveDidToCredential(svt.did)
    case None => Refused(Unresolved(svt.did))
    case Some(credential) => TierPolicy(credential.accessTier, svt.intent)
  }

  /** An unresolved DID is refused whatever the intent. */
  lemma UnresolvedAlwaysRefused(svt: Svt)
    requires svt.did != OverseerDid && svt.did != AdminDid && !StartsWith(svt.did, T3Prefix)
    ensures CheckAccessAndIntent(svt) == Refused(Unresolved(svt.did))
  {
  }

  /** The overseer is granted every intent. */
  lemma OverseerGrantedEverything(svt: Svt)
    requires svt.did == OverseerDid
    ensures CheckAccessAndIntent(svt) == Granted
  {
  }

  /** The admin is refused exactly the two critical intents. */
  lemma AdminRefusedOnlyCritical(svt: Svt)
    requires svt.did == AdminDid
    ensures CheckAccessAndIntent(svt).Refused? <==> IsCritical(svt.intent)
    ensures IsCritical(svt.intent) ==> CheckAccessAndIntent(svt) == Refused(RestrictedFromT0(svt.intent))
  {
  }

  /** A critical intent succeeds only for the overseer DID itself. */
  lemma CriticalOnlyForOverseer(svt: Svt)
    requires IsCritical(svt.intent)
    ensures CheckAccessAndIntent(svt).Granted? <==> svt.did == OverseerDid
  {
    assert !StartsWith(svt.intent, "Read") by {
      PrefixesExclude(svt.intent, svt.intent, "Read", 0);
    }
    assert !StartsWith(svt.intent, "Monitor") by {
      PrefixesExclude(svt.intent, svt.intent, "Monitor", 0);
    }
  }

  /** Since no DID resolves to tier 2, its branch is dead: the policy would
      grant a "Write" intent there, yet through the registry only the two
      named DIDs get one. */
  lemma WriteOnlyForNamedDids(svt: Svt)
    requires StartsWith(svt.intent, "Write")
    ensures TierPolicy(T2ReadWrite, svt.intent) == Granted
    ensures CheckAccessAndIntent(svt).Granted? ==> svt.did == OverseerDid || svt.did == AdminDid
  {
    PrefixesExclude(svt.intent, "Write", "Read", 0);
    PrefixesExclude(svt.intent, "Write", "Monitor", 0);
  }
}
