/** The resolution record as a value, and the lifecycle states it moves through (lifecycle.py). */
module Records {
  import opened Wrappers
  import opened Models
  import opened Outcomes
  import opened Confirmation

  const MAX_VERIFICATION_CHECKS: int := 4
  const CHECK_INTERVAL: int := 5 * MINUTE
  const PROPOSAL_LIFETIME: int := 5 * MINUTE

  datatype State =
    | REQUESTED
    | AWAITING_CONFIRMATION
    | EXECUTING
    | VERIFYING
    | VERIFIED
    | NOT_COMPLETED
    | AWAITING_PROOF

  predicate IsTerminal(s: State) {
    s == VERIFIED || s == NOT_COMPLETED
  }

  /** The transition graph. */
  predicate CanMove(from: State, to: State) {
    match from
    case REQUESTED => to == AWAITING_CONFIRMATION
    case AWAITING_CONFIRMATION => to == EXECUTING
    case EXECUTING => to == VERIFYING
    case VERIFYING => IsTerminal(to) || to == AWAITING_PROOF || to == VERIFYING
    case AWAITING_PROOF => to == VERIFYING
    case _ => false
  }

  const ALL_STATES: set<State> :=
    {REQUESTED, AWAITING_CONFIRMATION, EXECUTING, VERIFYING, VERIFIED, NOT_COMPLETED, AWAITING_PROOF}

  function AllowedPreviousStates(next: State): set<State> {
    set s | s in ALL_STATES && CanMove(s, next)
  }

  datatype Transition = Transition(
    state: State, at: int, contractVersion: Option<ContractVersion>, attestation: Option<Attestation>)

  datatype Attempt = Attempt(
    checkedAt: int, evidence: Evidence, result: VerificationResult, attemptId: string, checkCount: int,
    eligible: bool, violationId: Option<string>)

  datatype Record = Record(
    resolutionId: string,
    ownerId: string,
    intent: string,
    providerMode: string,
    target: ResourceIdentity,
    state: State,
    createdAt: int,
    updatedAt: int,
    confirmedAt: Option<int>,
    claim: Option<ActionReceipt>,
    claimObservedAt: Option<int>,
    evidence: Option<Evidence>,
    evidenceObservedAt: Option<int>,
    verification: Option<VerificationResult>,
    verifiedAt: Option<int>,
    history: seq<Transition>,
    version: int,
    resolutionType: ResolutionType,
    lastCheckedAt: Option<int>,
    nextCheckAt: Option<int>,
    checkCount: int,
    maxChecks: int,
    attempts: seq<Attempt>,
    resolvedAt: Option<int>,
    resolutionReason: Option<Reason>,
    contract: Option<OutcomeContract>,
    attention: seq<AttentionEvent>,
    recoveries: seq<RecoveryAction>,
    violations: seq<OutcomeViolation>)

  /** What a row is stored under. */
  datatype Key = Key(owner: string, resolution: string)

  function KeyOf(r: Record): Key {
    Key(r.ownerId, r.resolutionId)
  }

  function Last<T>(s: seq<T>): T
    requires s != []
  {
    s[|s| - 1]
  }

  /** The digest a confirmation of this record's cancellation has to carry. */
  function CancelActionDigest(r: Record): Digest {
    CancelDigest(r.ownerId, r.resolutionId, r.intent, r.providerMode, r.target.digest)
  }

  /** When the record entered a state for the last time. */
  function LastEntry(h: seq<Transition>, s: State): Option<int> {
    if h == [] then None
    else if Last(h).state == s then Some(Last(h).at)
    else LastEntry(h[..|h| - 1], s)
  }

  /** The transitions that carry a confirmation attestation, in order. */
  function Attested(h: seq<Transition>): seq<Transition> {
    if h == [] then []
    else Attested(h[..|h| - 1]) + (if Last(h).attestation.Some? then [Last(h)] else [])
  }

  /** How often a state was entered. */
  function Entries(h: seq<Transition>, s: State): nat {
    if h == [] then 0
    else Entries(h[..|h| - 1], s) + (if Last(h).state == s then 1 else 0)
  }

  lemma HistoryPlusOne(h: seq<Transition>, x: Transition)
    ensures Last(h + [x]) == x && (h + [x])[..|h|] == h
    ensures forall s :: LastEntry(h + [x], s) == if x.state == s then Some(x.at) else LastEntry(h, s)
    ensures Attested(h + [x]) == Attested(h) + (if x.attestation.Some? then [x] else [])
    ensures forall s :: Entries(h + [x], s) == Entries(h, s) + if x.state == s then 1 else 0
  {
    assert (h + [x])[..|h|] == h;
  }
}
