/** One fan's identity verification and its attempts: submission, the processing task, its failure callback, the
    decision engine and manual review, interleaved in any order. Each action is one database transaction. */
module KycProtocol {

  datatype Status = NotStarted | Pending | Processing | Verified | RetryRequired | Rejected | Review | Expired

  datatype AttemptStatus = Waiting | Running | Completed | Failed | Cancelled

  datatype Attempt = Attempt(number: nat, status: AttemptStatus)

  /** The verification row and its attempts in the order of their creation. */
  datatype Case = Case(status: Status, attempts: seq<Attempt>, retryReason: string, rejectionReason: string)

  const PROCESSING_FAILURE := "processing_failed_after_max_retries"

  predicate Terminal(s: AttemptStatus)
  {
    s == Completed || s == Failed || s == Cancelled
  }

  /** Some attempt of the case has a higher number than attempt `i`. */
  predicate Superseded(c: Case, i: nat)
    requires i < |c.attempts|
  {
    exists j :: 0 <= j < |c.attempts| && c.attempts[j].number > c.attempts[i].number
  }

  function WithAttempt(c: Case, i: nat, s: AttemptStatus): Case
    requires i < |c.attempts|
  {
    c.(attempts := c.attempts[i := c.attempts[i].(status := s)])
  }

  // Submission.

  /** `get_can_retry`: what the fan is told about another submission. */
  predicate CanRetry(c: Case, max: nat)
  {
    (c.status == RetryRequired || c.status == NotStarted) && |c.attempts| < max
  }

  /** The three refusals of the submission view, in its order. */
  predicate Submits(c: Case, max: nat)
  {
    !(|c.attempts| >= max) && c.status != Verified && !(c.status != NotStarted && c.status != RetryRequired)
  }

  function AfterSubmit(c: Case, max: nat): Case
  {
    if Submits(c, max)
    then c.(status := Pending, attempts := c.attempts + [Attempt(|c.attempts| + 1, Waiting)])
    else c
  }

  // The task.

  predicate Starts(c: Case, i: nat)
  {
    i < |c.attempts| && !Terminal(c.attempts[i].status) && (c.status == Pending || c.status == Processing)
  }

  function AfterStart(c: Case, i: nat): Case
  {
    if Starts(c, i) then WithAttempt(c, i, Running).(status := Processing) else c
  }

  /** A decided verification, which a task failure must not touch. */
  predicate Decided(s: Status)
  {
    s == Verified || s == RetryRequired || s == Rejected || s == Review || s == Expired
  }

  predicate Fails(c: Case, i: nat)
  {
    i < |c.attempts| && !Decided(c.status) && !Superseded(c, i)
  }

  /** `_mark_kyc_failed` */
  function AfterFailure(c: Case, i: nat, max: nat): Case
  {
    if Fails(c, i) then
      var d := if Terminal(c.attempts[i].status) then c else WithAttempt(c, i, Failed);
      if c.attempts[i].number >= max
      then d.(status := Review, retryReason := "", rejectionReason := PROCESSING_FAILURE)
      else d.(status := RetryRequired, retryReason := PROCESSING_FAILURE, rejectionReason := "")
    else c
  }

  // The decision engine.

  datatype Check = NotRun | Busy | Passed | Rejects | Uncertain | NotApplicable

  datatype Risk = Low | Medium | High | Critical

  /** What the automated checks of one attempt found; a check type without a row is `Absent`. */
  datatype Finding = Absent | Found(check: Check)

  datatype Evidence = Evidence(
    duplicate: Finding, tampering: Finding, expiry: Finding, liveness: Finding, faceMatch: Finding,
    quality: Finding, faceDetection: Finding, risk: Risk)

  datatype Verdict = Verdict(status: Status, reason: string)

  predicate Bad(f: Finding) { f == Found(Rejects) }

  /** `run_decision_engine`, test by test. */
  function VerdictOn(e: Evidence, number: nat, max: nat): Verdict
  {
    if Bad(e.duplicate) then Verdict(Review, "duplicate_identity_detected")
    else if Bad(e.tampering) then Verdict(Review, "document_tampering_detected")
    else if Bad(e.expiry) then Verdict(Review, "expired_document")
    else if Bad(e.liveness) then Verdict(Review, "liveness_failed")
    else if Bad(e.faceMatch) then Verdict(Review, "face_mismatch")
    else if e.risk == Critical then Verdict(Review, "critical_risk_level")
    else if e.risk == High then Verdict(Review, "high_risk_level_requires_review")
    else if Bad(e.quality) then
      if number >= max then Verdict(Review, "max_attempts_exceeded_quality")
      else Verdict(RetryRequired, "poor_image_quality")
    else if Bad(e.faceDetection) then
      if number >= max then Verdict(Review, "max_attempts_exceeded_face")
      else Verdict(RetryRequired, "selfie_face_not_detected")
    else if e.quality == Found(Passed) && e.faceDetection == Found(Passed) && e.faceMatch == Found(Passed) then
      Verdict(Review, "automated_checks_passed")
    else Verdict(Review, "required_checks_incomplete_or_uncertain")
  }

  predicate Decides(c: Case, i: nat)
  {
    && i < |c.attempts|
    && (c.status == NotStarted || c.status == Pending || c.status == Processing)
    && !Terminal(c.attempts[i].status)
    && !Superseded(c, i)
  }

  /** `make_decision` */
  function Apply(c: Case, i: nat, v: Verdict): Case
    requires i < |c.attempts|
  {
    var d := WithAttempt(c, i, if v.status == Verified || v.status == Review then Completed else Failed)
      .(status := v.status);
    if v.status == Verified then d.(retryReason := "", rejectionReason := "")
    else if v.status == RetryRequired then d.(retryReason := v.reason)
    else if v.status == Rejected || v.status == Review then d.(rejectionReason := v.reason)
    else d
  }

  function AfterDecision(c: Case, i: nat, e: Evidence, max: nat): Case
  {
    if Decides(c, i) then Apply(c, i, VerdictOn(e, c.attempts[i].number, max)) else c
  }

  // Manual review and the development bypass.

  function AfterReview(c: Case, approve: bool, notes: string): Case
  {
    if c.status != Review then c
    else if approve then c.(status := Verified, retryReason := "", rejectionReason := "")
    else c.(status := Rejected,
            rejectionReason := if notes == "" then "Manual admin rejection" else "Manual admin rejection: " + notes)
  }

  function AfterBypass(c: Case): Case
  {
    c.(status := Verified, retryReason := "", rejectionReason := "")
  }

  // Runs.

  datatype Action =
    | Submit
    | Start(attempt: nat)
    | Failure(attempt: nat)
    | Decision(attempt: nat, evidence: Evidence)
    | Judge(approve: bool, notes: string)
    | Bypass

  function Step(c: Case, a: Action, max: nat): Case
  {
    match a
    case Submit => AfterSubmit(c, max)
    case Start(i) => AfterStart(c, i)
    case Failure(i) => AfterFailure(c, i, max)
    case Decision(i, e) => AfterDecision(c, i, e, max)
    case Judge(approve, notes) => AfterReview(c, approve, notes)
    case Bypass => AfterBypass(c)
  }

  function Run(c: Case, actions: seq<Action>, max: nat): Case
  {
    if actions == [] then c else Step(Run(c, actions[..|actions| - 1], max), actions[|actions| - 1], max)
  }

  function Opened(): Case
  {
    Case(NotStarted, [], "", "")
  }

  // The invariant.

  /** The newest attempt, when there is one, has this status. */
  predicate Newest(c: Case, s: AttemptStatus)
  {
    |c.attempts| > 0 && c.attempts[|c.attempts| - 1].status == s
  }

  ghost predicate Numbered(c: Case)
  {
    forall i :: 0 <= i < |c.attempts| ==> c.attempts[i].number == i + 1
  }

  ghost predicate OnlyNewestOpen(c: Case)
  {
    forall i :: 0 <= i < |c.attempts| - 1 ==> c.attempts[i].status != Waiting && c.attempts[i].status != Running
  }

  /** Attempts are numbered 1, 2, ..., at most `max`; only the newest may be open; and the status of the verification
      says where the newest attempt stands. */
  ghost predicate Sound(c: Case, max: nat)
  {
    && |c.attempts| <= max && Numbered(c) && OnlyNewestOpen(c)
    && match c.status
       case NotStarted => c.attempts == []
       case Pending => Newest(c, Waiting)
       case Processing => Newest(c, Running)
       case RetryRequired => Newest(c, Failed) && |c.attempts| < max && c.retryReason != ""
       case Review => (Newest(c, Failed) || Newest(c, Completed)) && c.rejectionReason != ""
       case Rejected => (Newest(c, Failed) || Newest(c, Completed)) && c.rejectionReason != ""
       case Verified => c.retryReason == "" && c.rejectionReason == ""
       case Expired => false
  }

  lemma SupersededIfOlder(c: Case, i: nat)
    requires Numbered(c) && i < |c.attempts|
    ensures Superseded(c, i) <==> i < |c.attempts| - 1
  {
    if i < |c.attempts| - 1 {
      assert c.attempts[i + 1].number > c.attempts[i].number;
    }
  }

  lemma SubmitSound(c: Case, max: nat)
    requires Sound(c, max)
    ensures Sound(AfterSubmit(c, max), max)
  {
  }

  lemma StartSound(c: Case, i: nat, max: nat)
    requires Sound(c, max)
    ensures Sound(AfterStart(c, i), max)
  {
  }

  lemma FailureSound(c: Case, i: nat, max: nat)
    requires Sound(c, max)
    ensures Sound(AfterFailure(c, i, max), max)
  {
    if i < |c.attempts| {
      SupersededIfOlder(c, i);
    }
  }

  /** A verdict on the newest attempt, for review with a reason or for a retake with a reason while one is left. */
  lemma ApplySound(c: Case, v: Verdict, max: nat)
    requires Sound(c, max) && c.attempts != [] && !Terminal(c.attempts[|c.attempts| - 1].status)
    requires v.reason != "" && (v.status == Review || (v.status == RetryRequired && |c.attempts| < max))
    ensures Sound(Apply(c, |c.attempts| - 1, v), max)
  {
  }

  lemma DecisionSound(c: Case, i: nat, e: Evidence, max: nat)
    requires Sound(c, max)
    ensures Sound(AfterDecision(c, i, e, max), max)
  {
    if i < |c.attempts| {
      SupersededIfOlder(c, i);
      if Decides(c, i) {
        VerdictHasReason(e, i + 1, max);
        ApplySound(c, VerdictOn(e, i + 1, max), max);
      }
    }
  }

  lemma VerdictHasReason(e: Evidence, number: nat, max: nat)
    ensures var v := VerdictOn(e, number, max);
      v.reason != "" && (v.status == Review || (v.status == RetryRequired && number < max))
  {
  }

  lemma StepSound(c: Case, a: Action, max: nat)
    requires Sound(c, max)
    ensures Sound(Step(c, a, max), max)
  {
    hide AfterSubmit, AfterStart, AfterFailure, AfterDecision;
    match a
    case Submit => SubmitSound(c, max);
    case Start(i) => StartSound(c, i, max);
    case Failure(i) => FailureSound(c, i, max);
    case Decision(i, e) => DecisionSound(c, i, e, max);
    case Judge(_, _) =>
    case Bypass =>
  }

  lemma {:induction false} RunSound(c: Case, actions: seq<Action>, max: nat)
    requires Sound(c, max)
    ensures Sound(Run(c, actions, max), max)
  {
    if actions != [] {
      var n := |actions| - 1;
      RunSound(c, actions[..n], max);
      StepSound(Run(c, actions[..n], max), actions[n], max);
    }
  }

  // What the task may do to a verification.

  predicate TaskStep(a: Action)
  {
    a.Start? || a.Failure? || a.Decision?
  }

  /** Redelivered, late or duplicate task steps for any attempt leave a decided verification exactly as it is. */
  lemma {:induction false} DecidedStands(c: Case, actions: seq<Action>, max: nat)
    requires c.status != NotStarted && c.status != Pending && c.status != Processing
    requires forall i :: 0 <= i < |actions| ==> TaskStep(actions[i])
    ensures Run(c, actions, max) == c
  {
    if actions != [] {
      var n := |actions| - 1;
      DecidedStands(c, actions[..n], max);
      assert TaskStep(actions[n]);
    }
  }

  /** Only the newest attempt can move a verification: task steps for the others do nothing, in every reachable state. */
  lemma OldAttemptsAreInert(actions: seq<Action>, a: Action, max: nat)
    requires TaskStep(a) && a.attempt + 1 < |Run(Opened(), actions, max).attempts|
    ensures Step(Run(Opened(), actions, max), a, max) == Run(Opened(), actions, max)
  {
    var c := Run(Opened(), actions, max);
    RunSound(Opened(), actions, max);
    SupersededIfOlder(c, a.attempt);
  }

  /** A second delivery of the start of a running attempt changes no status. The times at which the attempt and the
      verification were started, which it writes again, are outside this model. */
  lemma RestartIsIdle(c: Case, i: nat, max: nat)
    requires Sound(c, max)
    ensures Step(Step(c, Start(i), max), Start(i), max) == Step(c, Start(i), max)
  {
    var d := Step(c, Start(i), max);
    if Starts(c, i) {
      assert d.attempts[i := d.attempts[i].(status := Running)] == d.attempts;
    }
  }

  /** The engine asks for a retake exactly when nothing is suspicious, a picture is unusable, and attempts remain. */
  lemma RetryExactly(e: Evidence, number: nat, max: nat)
    ensures VerdictOn(e, number, max).status == RetryRequired <==>
      && e.duplicate != Found(Rejects) && e.tampering != Found(Rejects) && e.expiry != Found(Rejects)
      && e.liveness != Found(Rejects) && e.faceMatch != Found(Rejects)
      && e.risk != Critical && e.risk != High
      && (e.quality == Found(Rejects) || e.faceDetection == Found(Rejects))
      && number < max
    ensures VerdictOn(e, number, max).status == RetryRequired || VerdictOn(e, number, max).status == Review
  {
  }

  /** Nobody is verified or rejected without a person: the run holds a manual decision to that effect, or the bypass. */
  lemma {:induction false} PeopleDecide(actions: seq<Action>, max: nat)
    ensures Run(Opened(), actions, max).status == Verified ==>
      exists i :: 0 <= i < |actions| && (actions[i].Bypass? || (actions[i].Judge? && actions[i].approve))
    ensures Run(Opened(), actions, max).status == Rejected ==>
      exists i :: 0 <= i < |actions| && actions[i].Judge? && !actions[i].approve
  {
    if actions != [] {
      var n := |actions| - 1;
      var c := Run(Opened(), actions[..n], max);
      PeopleDecide(actions[..n], max);
      assert forall i :: 0 <= i < n ==> actions[..n][i] == actions[i];
      if actions[n].Decision? && Decides(c, actions[n].attempt) {
        RetryExactly(actions[n].evidence, c.attempts[actions[n].attempt].number, max);
      }
    }
  }

  // No dead end.

  /** What the fan is told and what the submission view does agree. */
  lemma RetryTold(c: Case, max: nat)
    ensures CanRetry(c, max) <==> Submits(c, max)
    ensures CanRetry(c, max) <==> AfterSubmit(c, max) != c
  {
    if Submits(c, max) {
      assert |AfterSubmit(c, max).attempts| == |c.attempts| + 1;
    }
  }

  /** Whoever is asked to try again can. */
  lemma RetryIsPossible(actions: seq<Action>, max: nat)
    requires Run(Opened(), actions, max).status == RetryRequired
    ensures CanRetry(Run(Opened(), actions, max), max)
    ensures var c := Run(Opened(), actions, max);
      Step(c, Submit, max) ==
        Case(Pending, c.attempts + [Attempt(|c.attempts| + 1, Waiting)], c.retryReason, c.rejectionReason)
  {
    RunSound(Opened(), actions, max);
  }

  /** A failure of the task on an open verification asks for another attempt while one is left and goes to review
      after the last one. */
  lemma FailureExactly(c: Case, max: nat)
    requires Sound(c, max) && (c.status == Pending || c.status == Processing)
    ensures var d := Step(c, Failure(|c.attempts| - 1), max);
      && Newest(d, Failed) && |d.attempts| == |c.attempts|
      && d.status == (if |c.attempts| < max then RetryRequired else Review)
      && (CanRetry(d, max) <==> |c.attempts| < max)
  {
    SupersededIfOlder(c, |c.attempts| - 1);
  }

  /** No action changes the case any more, short of the bypass. */
  ghost predicate Stuck(c: Case, max: nat)
  {
    forall a: Action :: !a.Bypass? ==> Step(c, a, max) == c
  }

  /** The protocol comes to rest at a person's decision and nowhere else, unless no attempt is allowed at all. */
  lemma StuckExactly(c: Case, max: nat)
    requires Sound(c, max)
    ensures Stuck(c, max) <==> c.status == Verified || c.status == Rejected || (c.status == NotStarted && max == 0)
  {
    RetryTold(c, max);
    if Stuck(c, max) {
      assert Step(c, Submit, max) == c && Step(c, Judge(true, ""), max) == c;
      if |c.attempts| > 0 {
        var i := |c.attempts| - 1;
        SupersededIfOlder(c, i);
        assert Step(c, Failure(i), max) == c;
      }
    }
    if c.status == Verified || c.status == Rejected || (c.status == NotStarted && max == 0) {
      forall a: Action | !a.Bypass? ensures Step(c, a, max) == c {
      }
    }
  }

  // Termination.

  function Rank(s: Status): nat
  {
    match s
    case Pending => 4
    case Processing => 3
    case RetryRequired => 2
    case Review => 2
    case NotStarted => 1
    case Rejected => 1
    case Expired => 1
    case Verified => 0
  }

  /** Attempts left, then how far the present one has come. */
  function Measure(c: Case, max: nat): nat
    requires |c.attempts| <= max
  {
    5 * (max - |c.attempts|) + Rank(c.status)
  }

  /** Every action either changes nothing or brings the case closer to its end. */
  lemma StepDescends(c: Case, a: Action, max: nat)
    requires Sound(c, max)
    ensures Sound(Step(c, a, max), max)
    ensures Step(c, a, max) == c || Measure(Step(c, a, max), max) < Measure(c, max)
  {
    StepSound(c, a, max);
    if (a.Failure? || a.Decision?) && a.attempt < |c.attempts| {
      SupersededIfOlder(c, a.attempt);
    }
    if a.Start? && Starts(c, a.attempt) && c.status == Processing {
      assert c.attempts[a.attempt := c.attempts[a.attempt].(status := Running)] == c.attempts;
    }
  }

  /** How many actions of a run changed the case. */
  function Changes(c: Case, actions: seq<Action>, max: nat): nat
  {
    if actions == [] then 0
    else
      var n := |actions| - 1;
      var d := Run(c, actions[..n], max);
      Changes(c, actions[..n], max) + if Step(d, actions[n], max) == d then 0 else 1
  }

  /** However often tasks are redelivered and requests repeated, a case changes at most 5 * max + 1 times. */
  lemma {:induction false} ChangesBounded(c: Case, actions: seq<Action>, max: nat)
    requires Sound(c, max)
    ensures Sound(Run(c, actions, max), max)
    ensures Changes(c, actions, max) + Measure(Run(c, actions, max), max) <= Measure(c, max)
    ensures c == Opened() ==> Changes(c, actions, max) <= 5 * max + 1
  {
    RunSound(c, actions, max);
    if actions != [] {
      var n := |actions| - 1;
      ChangesBounded(c, actions[..n], max);
      StepDescends(Run(c, actions[..n], max), actions[n], max);
    }
  }

  lemma {:induction false} RunFirst(c: Case, a: Action, rest: seq<Action>, max: nat)
    ensures Run(c, [a] + rest, max) == Run(Step(c, a, max), rest, max)
  {
    if rest == [] {
      assert [a] + rest == [a] && [a][..0] == [];
    } else {
      var n := |rest| - 1;
      RunFirst(c, a, rest[..n], max);
      assert ([a] + rest)[..n + 1] == [a] + rest[..n];
    }
  }

  /** From every reachable state short of a rejection, ordinary actions can still lead to a verification. */
  lemma {:induction false} CanBeVerified(c: Case, max: nat) returns (actions: seq<Action>)
    requires Sound(c, max) && c.status != Rejected && (c.status == NotStarted ==> max > 0)
    ensures Run(c, actions, max).status == Verified
    ensures forall i :: 0 <= i < |actions| ==> !actions[i].Bypass?
    decreases Measure(c, max)
  {
    actions := [];
    if c.status != Verified {
      var clean := Evidence(Absent, Absent, Absent, Absent, Found(Passed), Found(Passed), Found(Passed), Low);
      var a := match c.status
        case Pending => Start(|c.attempts| - 1)
        case Processing => Decision(|c.attempts| - 1, clean)
        case Review => Judge(true, "")
        case _ => Submit;
      if c.attempts != [] {
        SupersededIfOlder(c, |c.attempts| - 1);
      }
      StepDescends(c, a, max);
      var rest := CanBeVerified(Step(c, a, max), max);
      actions := [a] + rest;
      RunFirst(c, a, rest, max);
    }
  }
}
