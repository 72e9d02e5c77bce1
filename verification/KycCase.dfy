/** The verification row of one fan as the views, the task and the decision service change it. */
module KycCase {
  import opened KycProtocol

  class Verification {
    const maxAttempts: nat
    var status: Status
    var attempts: seq<Attempt>
    var retryReason: string
    var rejectionReason: string

    ghost function View(): Case
      reads this
    {
      Case(status, attempts, retryReason, rejectionReason)
    }

    constructor (maxAttempts: nat)
      ensures View() == Opened() && this.maxAttempts == maxAttempts
    {
      this.maxAttempts := maxAttempts;
      status, attempts, retryReason, rejectionReason := NotStarted, [], "", "";
    }

    /** Whether an attempt with a higher number exists. */
    method NewerExists(i: nat) returns (newer: bool)
      requires i < |attempts|
      ensures newer == Superseded(View(), i)
    {
      newer := false;
      for j := 0 to |attempts|
        invariant newer <==> exists k :: 0 <= k < j && attempts[k].number > attempts[i].number
      {
        if attempts[j].number > attempts[i].number {
          newer := true;
        }
      }
    }

    /** `FanKYCSubmitView.post` */
    method Submit() returns (ok: bool)
      modifies this
      ensures ok == Submits(old(View()), maxAttempts)
      ensures View() == Step(old(View()), Action.Submit, maxAttempts)
    {
      var current := |attempts|;
      if current >= maxAttempts {
        return false;
      }
      if status == Verified {
        return false;
      }
      if status != NotStarted && status != RetryRequired {
        return false;
      }
      attempts := attempts + [Attempt(current + 1, Waiting)];
      status := Pending;
      ok := true;
    }

    /** `FanKYCRetryView.post` asks whether another submission is possible and changes nothing. */
    method MayRetry() returns (ok: bool, remaining: int)
      ensures ok <==> status == RetryRequired && CanRetry(View(), maxAttempts)
      ensures ok ==> remaining == maxAttempts - |attempts| && remaining > 0
    {
      ok, remaining := false, 0;
      if status == RetryRequired {
        if |attempts| < maxAttempts {
          ok, remaining := true, maxAttempts - |attempts|;
        }
      }
    }

    method SetAttempt(i: nat, s: AttemptStatus)
      requires i < |attempts|
      modifies this`attempts
      ensures attempts == old(attempts)[i := old(attempts)[i].(status := s)]
    {
      attempts := attempts[i := attempts[i].(status := s)];
    }

    /** The first transaction of `process_kyc_attempt`. */
    method Start(i: nat) returns (ok: bool)
      requires i < |attempts|
      modifies this
      ensures ok == Starts(old(View()), i)
      ensures View() == Step(old(View()), Action.Start(i), maxAttempts)
    {
      var a := attempts[i].status;
      if a == Completed || a == Failed || a == Cancelled {
        return false;
      }
      if status != Pending && status != Processing {
        return false;
      }
      SetAttempt(i, Running);
      status := Processing;
      ok := true;
    }

    /** `_mark_kyc_failed` */
    method MarkFailed(i: nat)
      requires i < |attempts|
      modifies this
      ensures View() == Step(old(View()), Failure(i), maxAttempts)
    {
      if status == Verified || status == RetryRequired || status == Rejected || status == Review || status == Expired {
        return;
      }
      var newer := NewerExists(i);
      if newer {
        return;
      }
      var a := attempts[i].status;
      if !(a == Completed || a == Failed || a == Cancelled) {
        SetAttempt(i, Failed);
      }
      var exhausted := attempts[i].number >= maxAttempts;
      status := if exhausted then Review else RetryRequired;
      retryReason := if exhausted then "" else PROCESSING_FAILURE;
      rejectionReason := if exhausted then PROCESSING_FAILURE else "";
    }

    /** `run_decision_engine` followed by `make_decision`. */
    method Decide(i: nat, e: Evidence)
      requires i < |attempts|
      modifies this
      ensures View() == Step(old(View()), Decision(i, e), maxAttempts)
    {
      hide VerdictOn;
      var verdict := VerdictOn(e, attempts[i].number, maxAttempts);
      var newer := NewerExists(i);
      var a := attempts[i].status;
      if (status != NotStarted && status != Pending && status != Processing)
        || a == Completed || a == Failed || a == Cancelled || newer {
        return;
      }
      SetAttempt(i, if verdict.status == Verified || verdict.status == Review then Completed else Failed);
      status := verdict.status;
      if verdict.status == Verified {
        rejectionReason, retryReason := "", "";
      } else if verdict.status == RetryRequired {
        retryReason := verdict.reason;
      } else if verdict.status == Rejected || verdict.status == Review {
        rejectionReason := verdict.reason;
      }
    }

    /** `AdminKYCReviewActionView.post` */
    method Judge(approve: bool, notes: string) returns (ok: bool)
      modifies this
      ensures ok <==> old(status) == Review
      ensures View() == Step(old(View()), Action.Judge(approve, notes), maxAttempts)
    {
      if status != Review {
        return false;
      }
      if approve {
        status, rejectionReason, retryReason := Verified, "", "";
      } else {
        status := Rejected;
        rejectionReason := if notes == "" then "Manual admin rejection" else "Manual admin rejection: " + notes;
      }
      ok := true;
    }

    /** `FanKYCDevelopmentBypassView.post` */
    method Bypass()
      modifies this
      ensures View() == Step(old(View()), Action.Bypass, maxAttempts)
    {
      status, rejectionReason, retryReason := Verified, "", "";
    }
  }
}
