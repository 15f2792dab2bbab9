# ACCORD access policy and consensus weighting, modelled in Dafny

The repository describes a protocol manager that checks a decentralized
identifier (DID) and an intent against a tiered trust registry, and then
assigns a consensus weight to the submitted Sovereign Verification
Transaction (SVT). Its decision logic exists twice: as a Rust trust registry
and weighting engine, and as a Python command-line simulator of them. This
project models both, and proves what each admits and weighs and where the two
disagree.

- `strings.dfy` (`Strings`): prefix tests and substring search, with the
  search proved equal to "some position holds a copy".
- `protocol.dfy` (`Protocol`): the DIDs and intents both policies name, and
  which critical intents are reserved for tier 0.
- `consensus.dfy` (`Consensus`): the Rust SVT and `execute_weighting`, with
  u16/u32/u64 as newtypes so every conversion and addition is range-checked.
- `registry.dfy` (`Registry`): the Rust `AccessTier` order, the fixed
  resolver, the tier policy and `check_access_and_intent`.
  The tier order matches the policy from T0 down to T2, and from T1 down to the
  audit tiers. It breaks between T2 and T3: the audit tier may "Monitor" while
  the read-write tier may not. No DID resolves to T2, so the gap is latent.
- `simulator.dfy` (`Simulator`): the Python decision chain with its fail-open
  default, the simulated weighting, and the `svt create` gate.
- `divergence.dfy` (`Divergence`): lemmas that compare the two policies and
  the two bonus rules.

Foreign pieces are parameters. The standard-library hasher is
`hasher: Svt -> u64`. The fictional AVX load and horizontal add are
`hadd: u32 -> Lanes`, which yields the two 32-bit lanes the engine reads. The
Python `random.randint(1000000, 5000000)` draw is an input of subset type
`BaseWeight`.

## Model

| member | source | states |
|---|---|---|
| Strings.Contains | accord-cli.py:29-32 | Python's substring test is true exactly when some position of the DID holds a copy of the searched DID |
| Consensus.AmplifiedEnergy | src/rust/core_consensus_impl.rs:49 | multiplying a u16 signature by 16 in u32 never wraps (at most 1 048 560) and the signature can be recovered from the result |
| Consensus.AvxResult | src/rust/core_consensus_impl.rs:66 | the sum of two u32 lanes widened to u64 is at most 2·(2^32−1) and at least each lane |
| Consensus.ExecuteWeighting | src/rust/core_consensus_impl.rs:39-77 | the two u64 additions are range-checked, so they never overflow; the weight lies between half the hash and half the hash plus the AVX maximum plus the bonus, and the sum of the three maxima is below 2^64; an "OVERRIDE" SVT weighs at least 9 000 000 000 |
| Consensus.OverrideOutweighsByBonus | src/rust/core_consensus_impl.rs:71-73 | with equal hash and energy, an "OVERRIDE" SVT outweighs any other SVT by exactly 9 000 000 000 |
| Consensus.OverrideStrictlyOutweighs | src/rust/core_consensus_impl.rs:71-73 | with equal hashes, an "OVERRIDE" SVT strictly outweighs every other SVT whatever the two energies and lanes, because the bonus exceeds the largest AVX sum |
| Consensus.WeightDeterminedByHashEnergyIntent | src/rust/core_consensus_impl.rs:42-73 | given a fixed hasher, the weight depends only on the hash value, the energy signature and whether the intent is "OVERRIDE" |
| Registry.TierOrderIsStrictTotal | src/rust/DID_RESOLUTION_ROZEL_v1.1.rs:11-23 | the derived tier order is irreflexive, transitive and total, with T0 < T1 < T2 < T3 < T4 |
| Registry.ResolveDidToCredential | src/rust/DID_RESOLUTION_ROZEL_v1.1.rs:40-61 | the overseer DID resolves to T0, the admin DID to T1, any "did:t3:" DID to T3, and nothing else resolves; T2 and T4 are never produced |
| Registry.TierGrantsNested | src/rust/DID_RESOLUTION_ROZEL_v1.1.rs:73-107 | for every intent, whatever T1 grants T0 grants, and whatever T2, T3 or T4 grants T1 grants; T3 and T4 grant the same intents |
| Registry.ReadWriteTierCannotMonitor | src/rust/DID_RESOLUTION_ROZEL_v1.1.rs:89-106 | the nesting breaks one step down: T3 may "Monitor" but the more privileged T2 is refused it |
| Registry.MessageIdentifiesDenial | src/rust/DID_RESOLUTION_ROZEL_v1.1.rs:70-104 | distinct refusals produce distinct error texts, so the text identifies the reason and the refused DID or intent |
| Registry.CheckAccessAndIntent | src/rust/DID_RESOLUTION_ROZEL_v1.1.rs:65-108 | access is granted exactly to the overseer, to the admin for non-critical intents, and to audit DIDs for read or monitor intents; an unresolved DID gets the unresolved error |
| Registry.UnresolvedAlwaysRefused | src/rust/DID_RESOLUTION_ROZEL_v1.1.rs:67-71 | an unresolved DID is refused whatever the intent, with no fail-open default |
| Registry.OverseerGrantedEverything | src/rust/DID_RESOLUTION_ROZEL_v1.1.rs:75-79 | the overseer DID is granted every intent |
| Registry.AdminRefusedOnlyCritical | src/rust/DID_RESOLUTION_ROZEL_v1.1.rs:80-88 | the admin DID is refused exactly "GOLD_BAR_VOTE_II" and "OVERRIDE", with the T1 error |
| Registry.CriticalOnlyForOverseer | src/rust/DID_RESOLUTION_ROZEL_v1.1.rs:41-106 | a critical intent is granted if and only if the DID is exactly the overseer DID |
| Registry.WriteOnlyForNamedDids | src/rust/DID_RESOLUTION_ROZEL_v1.1.rs:89-97 | the T2 branch would grant a "Write" intent, but through the resolver only the two named DIDs get one, so that branch is dead |
| Simulator.Evaluate | accord-cli.py:28-43 | the chain denies only through its two denying rules, and reaches its default exactly when none of the four rules matches |
| Simulator.CheckAccessAndIntent | accord-cli.py:28-43 | a request is denied exactly when neither granting rule fires and the tier-too-low or read-only rule does |
| Simulator.OverseerCriticalGranted | accord-cli.py:29-31 | a DID containing the overseer DID is granted a critical intent by the first rule |
| Simulator.AdminLedgerReadGranted | accord-cli.py:32-34 | when the first rule does not fire, a DID containing the admin DID is granted "ReadLedger" by the second rule |
| Simulator.CriticalNeedsT0 | accord-cli.py:29-43 | a critical intent is admitted only when the DID contains the overseer DID or starts with "did:t0:" |
| Simulator.AuditWriteDenied | accord-cli.py:38-40 | when no earlier rule fires, a "did:t3:" DID asking for anything but "ReadLedger" or "Monitor" is denied |
| Simulator.UnmatchedFailsOpen | accord-cli.py:42-43 | a request matched by none of the four rules is allowed |
| Simulator.OverseerAllowedEverything | accord-cli.py:29-43 | the fixed overseer DID is allowed every intent, the critical ones by the first rule and all others by the default |
| Simulator.ExecuteWeighting | accord-cli.py:18-24 | the weight is the base plus 9 000 000 000 when the intent contains "OVERRIDE", in [9 001 000 000, 9 005 000 000], and otherwise the base, in [1 000 000, 5 000 000] |
| Simulator.GoldBarVoteUnweighted | accord-cli.py:20-24 | "GOLD_BAR_VOTE_II" earns no bonus |
| Simulator.SubmitSvt | accord-cli.py:94-101 | a weight is produced exactly when the access check allows the pair; a critical intent is weighted only for a DID that contains the overseer DID or starts with "did:t0:" |
| Simulator.SvtCommand | accord-cli.py:78-101 | `svt create` acts as the overseer, so its denial branch is unreachable: every financial unit is published, with a weight of at least 9 000 000 000 exactly when it contains "OVERRIDE" |
| Divergence.AgreeOnNamedDids | src/rust/DID_RESOLUTION_ROZEL_v1.1.rs:41-106 | on the overseer and admin DIDs the Python check and the Rust registry give the same answer for every intent |
| Divergence.UnresolvedFailsOpenOnlyInSimulator | accord-cli.py:42-43 | an unresolved DID with a non-critical intent is allowed by the Python default and refused by the Rust registry |
| Divergence.UnknownWriterDiverges | accord-cli.py:42-43 | an unknown DID asking to "Write" is allowed by Python and refused by Rust |
| Divergence.CriticalLooserInSimulator | accord-cli.py:29-37 | a critical intent from a non-overseer DID that contains the overseer DID or has the "did:t0:" prefix passes in Python and fails in Rust |
| Divergence.CriticalRegistryImpliesSimulator | src/rust/DID_RESOLUTION_ROZEL_v1.1.rs:75-88 | for critical intents, whatever Rust grants Python allows too |
| Divergence.ReadPrefixStricterInSimulator | accord-cli.py:38-40 | an audit DID with an intent that only begins with "Read" or "Monitor" is granted by Rust and denied by Python |
| Divergence.NeitherPolicyContainsTheOther | accord-cli.py:28-43 | each policy admits some request the other refuses |
| Divergence.EngineBonusImpliesSimulatedBonus | src/rust/core_consensus_impl.rs:71 | for every intent, when the Rust engine pays its bonus the Python simulation pays the same bonus |
| Divergence.BonusesDifferOnProperContainment | src/rust/core_consensus_impl.rs:71 | the two bonus rules disagree exactly on intents that contain "OVERRIDE" without being equal to it, because Rust compares by equality and Python by containment |

## Left out

- Argument parsing, the `did resolve` command, `sys.exit` and all printed or logged text (accord-cli.py:47-148): glue around the Boolean outcome. The `svt create` gate is kept as `Simulator.SubmitSvt`.
- `p4_command` (accord-cli.py:47-57): it only prints and returns nothing.
- The standard-library hasher (src/rust/core_consensus_impl.rs:42-44): foreign code, taken as the parameter `hasher`.
- The AVX load and horizontal add (src/rust/core_consensus_impl.rs:51-62): their semantics are not visible, taken as the parameter `hadd`.
- The Python random draws for the energy signature, the base weight and the SVT identifier (accord-cli.py:20, 89, 104): the base weight is an input in its drawn range; the other two do not affect any outcome.
- The DID and timestamp reach the Rust weight only through the hasher. The message is a Python-only field that reaches neither weight.
- `src/rust/manifestation_integrator.rs`: file I/O and f32 arithmetic (NaN checks, division by 0.005, floor); floating point is out of scope.
- `ACCORD_EVENT_STREAM_KAFKA_v1.8.cs`: an asynchronous Kafka producer and consumer.
- Rust's `String` and `&str` work on UTF-8 bytes; strings here are sequences of characters. Every literal the policies compare is ASCII, so prefix and equality tests agree.
