/** The first-party sandbox provider with its injected faults (demo_provider.py). */
module DemoProvider {
  import opened Wrappers
  import opened Models

  const PAID_THROUGH: string := "2026-09-30"
  const HEALTHY: string := "healthy"
  const FALSE_SUCCESS: string := "false_success"
  const EVIDENCE_OUTAGE: string := "evidence_outage"
  const TERMINAL_FAILURE: string := "terminal_failure"

  predicate IsSupported(mode: string) {
    mode == HEALTHY || mode == FALSE_SUCCESS || mode == EVIDENCE_OUTAGE || mode == TERMINAL_FAILURE
  }

  /** In these modes the cancellation really changes the account. */
  predicate Cancels(mode: string) {
    mode == HEALTHY || mode == EVIDENCE_OUTAGE
  }

  class DemoProvider {
    const mode: string
    var autoRenew: bool

    constructor (mode: string)
      requires IsSupported(mode)
      ensures this.mode == mode && autoRenew
    {
      this.mode := mode;
      autoRenew := true;
    }

    /** Reports success in every mode, whether or not the account changes. */
    method CancelSubscription(target: ResourceIdentity, requestId: string) returns (receipt: ActionReceipt)
      modifies this`autoRenew
      ensures receipt.success && receipt.requestId == requestId && receipt.targetDigest == Some(target.digest)
      ensures receipt.message == "Cancellation accepted"
      ensures autoRenew == (old(autoRenew) && !Cancels(mode))
    {
      if mode == HEALTHY {
        autoRenew := false;
        return ActionReceipt(requestId, true, "Cancellation accepted", Some(target.digest));
      }
      if mode == FALSE_SUCCESS || mode == TERMINAL_FAILURE {
        return ActionReceipt(requestId, true, "Cancellation accepted", Some(target.digest));
      }
      if mode == EVIDENCE_OUTAGE {
        autoRenew := false;
      }
      return ActionReceipt(requestId, true, "Cancellation accepted", Some(target.digest));
    }

    /** Shows the account as it is, unless the mode hides it. */
    method ReadCancellationEvidence(target: ResourceIdentity, attemptId: string) returns (seen: Evidence)
      ensures seen.targetDigest == Some(target.digest) && seen.attemptId == Some(attemptId)
      ensures seen.readable <==> mode != EVIDENCE_OUTAGE
      ensures seen.readable ==>
                seen.autoRenew == Some(autoRenew) && seen.endDate == Some(PAID_THROUGH) && seen.freshness == Some(0)
      ensures !seen.readable ==> seen.autoRenew.None? && seen.endDate.None? && seen.freshness.None?
    {
      if mode == EVIDENCE_OUTAGE {
        return Evidence(false, None, None, None, Some(target.digest), Some(attemptId));
      }
      return Evidence(true, Some(autoRenew), Some(PAID_THROUGH), Some(0), Some(target.digest), Some(attemptId));
    }
  }

  function Reading(mode: string, autoRenew: bool, target: ResourceIdentity, attemptId: string): (seen: Evidence)
    ensures seen.readable <==> mode != EVIDENCE_OUTAGE
    ensures seen.targetDigest == Some(target.digest) && seen.attemptId == Some(attemptId)
  {
    if mode == EVIDENCE_OUTAGE
    then Evidence(false, None, None, None, Some(target.digest), Some(attemptId))
    else Evidence(true, Some(autoRenew), Some(PAID_THROUGH), Some(0), Some(target.digest), Some(attemptId))
  }
  /** What the provider of a mode answers to a cancellation; an unknown mode has no provider. */
  function Answer(mode: string, target: ResourceIdentity, requestId: string): Reply<ActionReceipt> {
    if IsSupported(mode)
    then Returned(ActionReceipt(requestId, true, "Cancellation accepted", Some(target.digest)))
    else Unavailable
  }

  /** What it shows in a read-back; `cancelled` tells whether this very provider object was asked to cancel. */
  function Shown(mode: string, cancelled: bool, target: ResourceIdentity, attemptId: string): Reply<Evidence> {
    if IsSupported(mode) then Returned(Reading(mode, !(cancelled && Cancels(mode)), target, attemptId))
    else Unavailable
  }

  /**
    A new provider object, asked to cancel or not, answers and shows just that: the account that a healthy or
    an unreadable provider has changed, and the unchanged account behind a false success.
   */
  method UseProvider(mode: string, cancels: bool, target: ResourceIdentity, requestId: string, attemptId: string)
    returns (answer: Option<ActionReceipt>, seen: Evidence)
    requires IsSupported(mode)
    ensures cancels ==> answer.Some? && Returned(answer.value) == Answer(mode, target, requestId)
    ensures Returned(seen) == Shown(mode, cancels, target, attemptId)
  {
    var p := new DemoProvider(mode);
    answer := None;
    if cancels {
      var receipt := p.CancelSubscription(target, requestId);
      answer := Some(receipt);
    }
    seen := p.ReadCancellationEvidence(target, attemptId);
  }
}
