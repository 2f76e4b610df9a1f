/**
  Service instances that share one store. Every call is a process that stops at each access to the
  store or to a provider; the processes interleave freely and may crash between any two steps.
 */
module Protocol {
  import opened Wrappers
  import opened Models
  import opened Outcomes
  import Confirmation
  import opened Records
  import opened Lifecycle
  import opened Contract
  import opened Traces
  import Codec

  /** Where a call stands, with its own copy of the record and what it has learned so far. */
  datatype Process =
    // confirm_resolution_action
    | Confirming(key: Key, record: Record)
    | Calling(key: Key, record: Record, token: string)
    | Called(key: Key, record: Record, answer: Reply<ActionReceipt>)
    // recheck_resolution; its read-back is shared with confirm_resolution_action
    | Rechecking(key: Key, record: Record)
    | Claimed(key: Key, record: Record, eligible: bool, checkedAt: Option<int>)
    | Seen(key: Key, record: Record, eligible: bool, at: int, attemptId: string, seen: Reply<Evidence>)
    // confirm_recovery_action
    | Recovering(key: Key, record: Record)
    | RecoveryCalling(key: Key, version: nat, asked: RecoveryAction, isRefund: bool, token: string, at: int)
    | RecoveryCalled(key: Key, asked: RecoveryAction, isRefund: bool, at: int, reply: RecoveryReply)
    | RecoveryReloaded(key: Key, record: Record, asked: RecoveryAction, isRefund: bool, at: int, reply: RecoveryReply)
    // record_outcome_violation
    | Observing(key: Key, record: Record)

  /** The right to one provider call, earned by the save that left this version of this resolution. */
  datatype Permit = Permit(key: Key, version: nat)

  datatype Effect =
    | CancelCall(permit: Permit, token: string)
    | RecoveryCall(permit: Permit, token: string, recoveryId: string)

  /** The rows ever stored, the processes that are alive, and the provider calls made so far. */
  datatype System = System(
    traces: map<Key, Trace>, procs: map<nat, Process>, effects: seq<Effect>, readBacks: seq<Permit>)

  const INITIAL: System := System(map[], map[], [], [])

  /** The row a resolution has now. */
  function Current(tr: Trace): Record
    requires IsShaped(tr)
  {
    tr.rows[|tr.rows| - 1]
  }

  function Appended(tr: Trace, op: Op, row: Record): (after: Trace)
    ensures IsShaped(tr) ==> IsShaped(after)
  {
    Trace(tr.rows + [row], tr.ops + [op])
  }

  // ----- which save a process attempts, and how it goes on after the save

  predicate MayAttempt(p: Process, op: Op) {
    match op
    case Confirm(_, _, _) => p.Confirming?
    case FirstClaim(answer, _, _, _) => p.Called? && answer == p.answer
    case Recheck(_, _, _) => p.Rechecking?
    case RecordCheck(seen, attemptId, eligible, at, _) =>
      p.Seen? && seen == p.seen && attemptId == p.attemptId && eligible == p.eligible && at == p.at
    case Decide(_, _, _, _) => p.Recovering?
    case Finish(asked, isRefund, reply, at) =>
      p.RecoveryReloaded? && asked == p.asked && isRefund == p.isRefund && reply == p.reply && at == p.at
    case Observe(violation, _, _) => p.Observing? && !HasEvidence(p.record, violation.evidenceId)
  }

  function Decision(v: Confirmation.Verifier, a: Record, op: Op): Result<RecoveryDecision, Refusal>
    requires op.Decide?
  {
    DecideRecovery(v, a, a.ownerId, a.resolutionId, op.recoveryId, op.confirmed, op.token, op.at)
  }

  function Continuation(v: Confirmation.Verifier, p: Process, op: Op, stored: Record): Option<Process>
    requires MayAttempt(p, op)
  {
    match op
    case Confirm(token, _, _) => Some(Calling(p.key, stored, token))
    case FirstClaim(_, _, _, _) => Some(Claimed(p.key, stored, false, None))
    case Recheck(at, _, _) => Some(Claimed(p.key, stored, IsTerminalFailureEligible(p.record, at), Some(at)))
    case Decide(_, _, token, at) =>
      var d := Decision(v, p.record, op);
      if d.Ok? && d.value.ToExecute? && stored.version >= 0
      then Some(RecoveryCalling(p.key, stored.version, d.value.action, d.value.isRefund, token, at))
      else None
    case _ => None
  }

  // ----- the steps

  datatype Step =
    | Create(record: Record)
    | Load(pid: nat, started: Process)
    | Save(pid: nat, op: Op)
    | CallProvider(pid: nat, answer: Reply<ActionReceipt>)
    | ReadBack(pid: nat, at: int, attemptId: string, seen: Reply<Evidence>)
    | CallRecovery(pid: nat, reply: RecoveryReply)
    | Reload(pid: nat, record: Record)
    | Stop(pid: nat)

  /** start_resolution stored a new record under an identifier that was not in use. */
  predicate Creates(s: System, t: System, record: Record) {
    && IsNewRecord(record)
    && KeyOf(record) !in s.traces
    && t == s.(traces := s.traces[KeyOf(record) := Trace([record], [])])
  }

  /** The store returned what it decoded from the current row. */
  predicate Reads(s: System, key: Key, record: Record) {
    && key in s.traces && IsShaped(s.traces[key])
    && Codec.Decode(Codec.Encode(Current(s.traces[key]))) == Ok(record)
  }

  predicate Loads(s: System, t: System, pid: nat, p: Process) {
    && pid !in s.procs
    && (p.Confirming? || p.Rechecking? || p.Recovering? || p.Observing?)
    && Reads(s, p.key, p.record)
    && t == s.(procs := s.procs[pid := p])
  }

  predicate HasRecord(p: Process) {
    !p.RecoveryCalling? && !p.RecoveryCalled?
  }

  /** A save that the store accepted; a refused one ends the call and is a Stop. */
  predicate Saves(v: Confirmation.Verifier, s: System, t: System, pid: nat, op: Op) {
    && pid in s.procs && HasRecord(s.procs[pid]) && MayAttempt(s.procs[pid], op)
    && var p := s.procs[pid];
       && p.key in s.traces && IsShaped(s.traces[p.key])
       && Outcome(v, op, p.record).Ok? && HasFreshIds(op, p.record)
       && Accepts(Current(s.traces[p.key]), Outcome(v, op, p.record).value)
       && var row := Stored(Outcome(v, op, p.record).value);
          var next := Continuation(v, p, op, row);
          t == s.(traces := s.traces[p.key := Appended(s.traces[p.key], op, row)],
                  procs := if next.Some? then s.procs[pid := next.value] else s.procs - {pid})
  }

  predicate CallsProvider(s: System, t: System, pid: nat, answer: Reply<ActionReceipt>) {
    && pid in s.procs && s.procs[pid].Calling?
    && var p := s.procs[pid];
       && 0 <= p.record.version
       && t == s.(procs := s.procs[pid := Called(p.key, p.record, answer)],
                  effects := s.effects + [CancelCall(Permit(p.key, p.record.version), p.token)])
  }

  predicate ReadsBack(s: System, t: System, pid: nat, at: int, attemptId: string, seen: Reply<Evidence>) {
    && pid in s.procs && s.procs[pid].Claimed?
    && var p := s.procs[pid];
       && 0 <= p.record.version
       && (p.checkedAt.Some? ==> at == p.checkedAt.value)
       && t == s.(procs := s.procs[pid := Seen(p.key, p.record, p.eligible, at, attemptId, seen)],
                  readBacks := s.readBacks + [Permit(p.key, p.record.version)])
  }

  predicate CallsRecovery(s: System, t: System, pid: nat, reply: RecoveryReply) {
    && pid in s.procs && s.procs[pid].RecoveryCalling?
    && var p := s.procs[pid];
       t == s.(procs := s.procs[pid := RecoveryCalled(p.key, p.asked, p.isRefund, p.at, reply)],
               effects := s.effects + [RecoveryCall(Permit(p.key, p.version), p.token, p.asked.recoveryId)])
  }

  predicate Reloads(s: System, t: System, pid: nat, record: Record) {
    && pid in s.procs && s.procs[pid].RecoveryCalled?
    && var p := s.procs[pid];
       && Reads(s, p.key, record)
       && t == s.(procs := s.procs[pid := RecoveryReloaded(p.key, record, p.asked, p.isRefund, p.at, p.reply)])
  }

  /** The call returned, was refused, failed or crashed; the store keeps what was saved. */
  predicate Stops(s: System, t: System, pid: nat) {
    && pid in s.procs
    && t == s.(procs := s.procs - {pid})
  }

  predicate Next(v: Confirmation.Verifier, s: System, t: System, step: Step) {
    match step
    case Create(record) => Creates(s, t, record)
    case Load(pid, started) => Loads(s, t, pid, started)
    case Save(pid, op) => Saves(v, s, t, pid, op)
    case CallProvider(pid, answer) => CallsProvider(s, t, pid, answer)
    case ReadBack(pid, at, attemptId, seen) => ReadsBack(s, t, pid, at, attemptId, seen)
    case CallRecovery(pid, reply) => CallsRecovery(s, t, pid, reply)
    case Reload(pid, record) => Reloads(s, t, pid, record)
    case Stop(pid) => Stops(s, t, pid)
  }

  /** A run: the states it goes through, and the steps between them. */
  datatype Run = Run(states: seq<System>, steps: seq<Step>)

  ghost predicate IsRun(v: Confirmation.Verifier, run: Run) {
    && |run.states| == |run.steps| + 1
    && run.states[0] == INITIAL
    && forall i :: 0 <= i < |run.steps| ==> Next(v, run.states[i], run.states[i + 1], run.steps[i])
  }
}
