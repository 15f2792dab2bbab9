/** The Python command-line simulator: its own string-based access check
    with a fail-open default, its simulated weighting, and the `svt create`
    command that weighs a vote only after the check passes. The random base
    weight is an input restricted to the range `random.randint` draws from. */
module Simulator {
  import opened Strings
  import opened Protocol

  /** The rule of the decision chain that produced the answer. */
  datatype Rule = T0OverrideRule | T1AdminRule | TierTooLow | ReadOnlyRestricted | Unhandled

  datatype Decision = Decision(allowed: bool, rule: Rule)

  /** First rule: an identity containing the overseer DID asks for a
      critical intent. */
  predicate OverseerCritical(did: string, intent: string) {
    Contains(did, OverseerDid) && IsCritical(intent)
  }

  /** Second rule: an identity containing the admin DID asks to read the
      ledger. */
  predicate AdminReadsLedger(did: string, intent: string) {
    Contains(did, AdminDid) && intent == ReadLedger
  }

  /** Third rule: a critical intent from a DID without the tier-0 prefix. */
  predicate CriticalBelowT0(did: string, intent: string) {
    IsCritical(intent) && !StartsWith(did, T0Prefix)
  }

  /** Fourth rule: an audit DID asks for anything but reading the ledger
      or monitoring. */
  predicate AuditBeyondRead(did: string, intent: string) {
    StartsWith(did, T3Prefix) && intent != ReadLedger && intent != Monitor
  }

  /** The decision chain, first match wins; a request no rule matches is
      allowed. Only the two denying rules deny. */
  function Evaluate(did: string, intent: string): (d: Decision)
    ensures !d.allowed <==> d.rule == TierTooLow || d.rule == ReadOnlyRestricted
    ensures d.rule == Unhandled <==>
              !OverseerCritical(did, intent) && !AdminReadsLedger(did, intent)
              && !CriticalBelowT0(did, intent) && !AuditBeyondRead(did, intent)
  {
    if OverseerCritical(did, intent) then Decision(true, T0OverrideRule)
    else if AdminReadsLedger(did, intent) then Decision(true, T1AdminRule)
    else if CriticalBelowT0(did, intent) then Decision(false, TierTooLow)
    else if AuditBeyondRead(did, intent) then Decision(false, ReadOnlyRestricted)
    else Decision(true, Unhandled)
  }

  /** `check_access_and_intent`: the Boolean answer of the chain. */
  function CheckAccessAndIntent(did: string, intent: string): (allowed: bool)
    ensures !allowed <==>
              !OverseerCritical(did, intent) && !AdminReadsLedger(did, intent)
              && (CriticalBelowT0(did, intent) || AuditBeyondRead(did, intent))
  {
    Evaluate(did, intent).allowed
  }

  /** Rule 1 grants a critical intent to any DID containing the overseer DID. */
  lemma OverseerCriticalGranted(did: string, intent: string)
    requires Contains(did, OverseerDid) && IsCritical(intent)
    ensures Evaluate(did, intent) == Decision(true, T0OverrideRule)
  {
  }

  /** Rule 2 grants "ReadLedger" to a DID containing the admin DID when
      rule 1 does not fire. */
  lemma AdminLedgerReadGranted(did: string, intent: string)
    requires !OverseerCritical(did, intent)
    requires Contains(did, AdminDid) && intent == ReadLedger
    ensures Evaluate(did, intent) == Decision(true, T1AdminRule)
  {
  }

  /** A critical intent is admitted only to a DID that contains the overseer
      DID or carries the tier-0 prefix. */
  lemma CriticalNeedsT0(did: string, intent: string)
    requires IsCritical(intent) && CheckAccessAndIntent(did, intent)
    ensures Contains(did, OverseerDid) || StartsWith(did, T0Prefix)
  {
  }

  /** An audit DID asking for a write-like intent is denied by rule 4 when no
      earlier rule fires. */
  lemma AuditWriteDenied(did: string, intent: string)
    requires !OverseerCritical(did, intent) && !AdminReadsLedger(did, intent) && !CriticalBelowT0(did, intent)
    requires StartsWith(did, T3Prefix) && intent != ReadLedger && intent != Monitor
    ensures Evaluate(did, intent) == Decision(false, ReadOnlyRestricted)
  {
  }

  /** Fail-open: a request that none of the four rules matches is allowed. */
  lemma UnmatchedFailsOpen(did: string, intent: string)
    requires !OverseerCritical(did, intent) && !AdminReadsLedger(did, intent)
    requires !CriticalBelowT0(did, intent) && !AuditBeyondRead(did, intent)
    ensures CheckAccessAndIntent(did, intent)
    ensures Evaluate(did, intent).rule == Unhandled
  {
  }

  /** The fixed overseer DID is allowed every intent: critical ones by
      rule 1, all others by the fail-open default. */
  lemma OverseerAllowedEverything(intent: string)
    ensures CheckAccessAndIntent(OverseerDid, intent)
    ensures Evaluate(OverseerDid, intent).rule == (if IsCritical(intent) then T0OverrideRule else Unhandled)
  {
    NamedDidFacts();
  }

  /** A draw of `random.randint(1000000, 5000000)`. */
  type BaseWeight = b: int | 1_000_000 <= b <= 5_000_000 witness 1_000_000

  /** Bonus added when "OVERRIDE" occurs anywhere in the intent. */
  const SimulatedBonus: int := 9_000_000_000

  /** The simulated weighting: the random base, plus the bonus when the
      intent contains "OVERRIDE". The two outcomes fall in disjoint ranges,
      so the weight alone tells whether the bonus was paid. */
  function ExecuteWeighting(intent: string, base: BaseWeight): (w: int)
    ensures Contains(intent, OverrideIntent) ==> 9_001_000_000 <= w <= 9_005_000_000
    ensures !Contains(intent, OverrideIntent) ==> 1_000_000 <= w <= 5_000_000
    ensures w - base == (if Contains(intent, OverrideIntent) then SimulatedBonus else 0)
  {
    if Contains(intent, OverrideIntent) then base + 9_000_000_000 else base
  }

  /** "GOLD_BAR_VOTE_II" gets no bonus in the simulation. */
  lemma GoldBarVoteUnweighted(base: BaseWeight)
    ensures ExecuteWeighting(GoldBarVote, base) == base
  {
    GoldBarVoteLacksOverride();
  }

  /** "OVERRIDE" occurs nowhere in "GOLD_BAR_VOTE_II". */
  lemma GoldBarVoteLacksOverride()
    ensures !Contains(GoldBarVote, OverrideIntent)
  {
    // "OVERRIDE" begins "OV"; the only 'V' of "GOLD_BAR_VOTE_II" is at index 9,
    // and index 8 holds '_'.
    forall i: nat | i + |OverrideIntent| <= |GoldBarVote| ensures !OccursAt(GoldBarVote, OverrideIntent, i) {
      var g := GoldBarVote;
      assert g[i..i + 8][1] == g[i + 1];
      if      i == 0 { assert g[1] != 'V'; }
      else if i == 1 { assert g[2] != 'V'; }
      else if i == 2 { assert g[3] != 'V'; }
      else if i == 3 { assert g[4] != 'V'; }
      else if i == 4 { assert g[5] != 'V'; }
      else if i == 5 { assert g[6] != 'V'; }
      else if i == 6 { assert g[7] != 'V'; }
      else if i == 7 { assert g[8] != 'V'; }
      else { assert g[i..i + 8][0] == g[8] != 'O'; }
    }
  }

  /** What `svt create` does after building the SVT. */
  datatype SvtOutcome = Rejected | Published(weight: int)

  /** Access-then-weight: the weight is computed exactly when the access
      check allows the pair, and otherwise the command stops. So a critical
      intent is only ever weighted for a DID that contains the overseer DID
      or carries the tier-0 prefix. */
  function SubmitSvt(did: string, intent: string, base: BaseWeight): (o: SvtOutcome)
    ensures o.Published? <==> CheckAccessAndIntent(did, intent)
    ensures o.Published? ==> o.weight == ExecuteWeighting(intent, base)
    ensures o.Published? && IsCritical(intent) ==> Contains(did, OverseerDid) || StartsWith(did, T0Prefix)
  {
    if !CheckAccessAndIntent(did, intent) then Rejected
    else Published(ExecuteWeighting(intent, base))
  }

  /** `svt create` acts as the overseer with the financial unit as intent.
      Its denial branch is unreachable: every financial unit is published,
      with the bonus exactly when it contains "OVERRIDE". */
  function SvtCommand(financialUnit: string, base: BaseWeight): (o: SvtOutcome)
    ensures o == Published(ExecuteWeighting(financialUnit, base))
    ensures o.weight >= SimulatedBonus <==> Contains(financialUnit, OverrideIntent)
  {
    OverseerAllowedEverything(financialUnit);
    SubmitSvt(OverseerDid, financialUnit, base)
  }
}
