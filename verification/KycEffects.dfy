/** When each action on a verification has an effect and what it writes, said in the columns of the rows. */
module KycEffects {
  import opened KycProtocol

  // The verdict.

  /** The tests of the decision engine, the gravest first. The last two ask for better pictures. */
  ghost predicate Concern(e: Evidence, k: int)
  {
    match k
    case 0 => e.duplicate == Found(Rejects)
    case 1 => e.tampering == Found(Rejects)
    case 2 => e.expiry == Found(Rejects)
    case 3 => e.liveness == Found(Rejects)
    case 4 => e.faceMatch == Found(Rejects)
    case 5 => e.risk == Critical
    case 6 => e.risk == High
    case 7 => e.quality == Found(Rejects)
    case 8 => e.faceDetection == Found(Rejects)
    case _ => false
  }

  function ReasonFor(k: int, exhausted: bool): string
  {
    match k
    case 0 => "duplicate_identity_detected"
    case 1 => "document_tampering_detected"
    case 2 => "expired_document"
    case 3 => "liveness_failed"
    case 4 => "face_mismatch"
    case 5 => "critical_risk_level"
    case 6 => "high_risk_level_requires_review"
    case 7 => if exhausted then "max_attempts_exceeded_quality" else "poor_image_quality"
    case _ => if exhausted then "max_attempts_exceeded_face" else "selfie_face_not_detected"
  }

  /** The first concern decides: unusable pictures are retaken while attempts remain, all else is reviewed. Without any
      concern the three required checks must have passed to be called so. */
  lemma FirstConcernDecides(e: Evidence, number: nat, max: nat, k: int)
    ensures Concern(e, k) && (forall j :: j < k ==> !Concern(e, j)) ==>
      VerdictOn(e, number, max) ==
        Verdict(if k >= 7 && number < max then RetryRequired else Review, ReasonFor(k, number >= max))
    ensures (forall j :: !Concern(e, j)) ==>
      VerdictOn(e, number, max) == Verdict(Review,
        if e.quality == e.faceDetection == e.faceMatch == Found(Passed) then "automated_checks_passed"
        else "required_checks_incomplete_or_uncertain")
  {
    var first := Concern(e, 0) || Concern(e, 1) || Concern(e, 2) || Concern(e, 3) || Concern(e, 4);
    var later := Concern(e, 5) || Concern(e, 6) || Concern(e, 7) || Concern(e, 8);
  }

  // The task.

  /** Attempt `i` waits or runs. */
  ghost predicate StillOpen(c: Case, i: int)
  {
    0 <= i < |c.attempts| && (c.attempts[i].status == Waiting || c.attempts[i].status == Running)
  }

  ghost predicate HighestNumber(c: Case, i: int)
  {
    0 <= i < |c.attempts| && forall j :: 0 <= j < |c.attempts| ==> c.attempts[j].number <= c.attempts[i].number
  }

  /** Only attempt `i` changes, and of it only the status, to `s`. */
  ghost predicate OneMoves(c: Case, d: Case, i: int, s: AttemptStatus)
  {
    && 0 <= i < |c.attempts| == |d.attempts| && d.attempts[i] == Attempt(c.attempts[i].number, s)
    && forall j :: 0 <= j < |c.attempts| && j != i ==> d.attempts[j] == c.attempts[j]
  }

  /** A start takes effect on an open attempt of a case that is pending or processing. */
  lemma StartExactly(c: Case, i: nat, max: nat)
    ensures var d := Step(c, Start(i), max);
      if StillOpen(c, i) && (c.status == Pending || c.status == Processing)
      then d == c.(status := Processing, attempts := d.attempts) && OneMoves(c, d, i, Running)
      else d == c
  {
  }

  /** A failure takes effect on the attempt with the highest number while the case is undecided: it goes to review after
      the last allowed attempt and asks for another one before. */
  lemma FailureWrites(c: Case, i: nat, max: nat)
    ensures var d := Step(c, Failure(i), max);
      if HighestNumber(c, i) && (c.status == NotStarted || c.status == Pending || c.status == Processing) then
        && OneMoves(c, d, i, if StillOpen(c, i) then Failed else c.attempts[i].status)
        && (if c.attempts[i].number < max
            then d.status == RetryRequired && d.retryReason == PROCESSING_FAILURE && d.rejectionReason == ""
            else d.status == Review && d.retryReason == "" && d.rejectionReason == PROCESSING_FAILURE)
      else d == c
  {
  }

  /** A decision takes effect on an open attempt with the highest number of an undecided case: the attempt is closed, and
      the reason stands where the verdict belongs. */
  lemma DecisionWrites(c: Case, i: nat, e: Evidence, max: nat)
    ensures var d := Step(c, Decision(i, e), max);
      if StillOpen(c, i) && HighestNumber(c, i)
        && (c.status == NotStarted || c.status == Pending || c.status == Processing)
      then
        var v := VerdictOn(e, c.attempts[i].number, max);
        && d.status == v.status
        && (v.status == Review ==>
             OneMoves(c, d, i, Completed) && d.rejectionReason == v.reason && d.retryReason == c.retryReason)
        && (v.status == RetryRequired ==>
             OneMoves(c, d, i, Failed) && d.retryReason == v.reason && d.rejectionReason == c.rejectionReason)
      else d == c
  {
    hide VerdictOn;
    if i < |c.attempts| {
      VerdictHasReason(e, c.attempts[i].number, max);
    }
  }

  // People.

  /** A submission takes effect on a new case or one to be retried, while an attempt is left. */
  lemma SubmitWrites(c: Case, max: nat)
    ensures var d := Step(c, Submit, max);
      if (c.status == NotStarted || c.status == RetryRequired) && |c.attempts| < max
      then d == c.(status := Pending, attempts := c.attempts + [Attempt(|c.attempts| + 1, Waiting)])
      else d == c
    ensures CanRetry(c, max) <==> (c.status == NotStarted || c.status == RetryRequired) && |c.attempts| < max
  {
  }

  /** A person's judgement takes effect on a case in review only, and a rejection always carries a reason. */
  lemma JudgeWrites(c: Case, approve: bool, notes: string, max: nat)
    ensures var d := Step(c, Judge(approve, notes), max);
      && d.attempts == c.attempts
      && (c.status != Review ==> d == c)
      && (c.status == Review && approve ==> d.status == Verified && d.retryReason == "" && d.rejectionReason == "")
      && (c.status == Review && !approve ==>
           && d.status == Rejected && d.retryReason == c.retryReason
           && "Manual admin rejection" <= d.rejectionReason
           && (notes != "" ==> notes == d.rejectionReason[|d.rejectionReason| - |notes|..]))
  {
  }
}
