/** When a registration code is sent and when an entry is accepted, said in the columns of the rows. */
module OtpAcceptance {
  import opened Sequences
  import opened OtpLimits

  // Asking for another code.

  /** The codes created at or after `start`. */
  ghost function CreatedFrom(codes: seq<Code>, start: int): set<int>
  {
    set i | 0 <= i < |codes| && codes[i].createdAt >= start
  }

  lemma NoneLive(codes: seq<Code>, start: int)
    ensures Filter(Live(start), codes) == [] <==>
      forall i :: 0 <= i < |codes| && !codes[i].used ==> codes[i].createdAt < start
  {
    if Filter(Live(start), codes) == [] {
      forall i | 0 <= i < |codes| && !codes[i].used ensures codes[i].createdAt < start {
        FilterMembers(Live(start), codes, codes[i]);
      }
    } else {
      var c := Filter(Live(start), codes)[0];
      FilterMembers(Live(start), codes, c);
      var i :| 0 <= i < |codes| && codes[i] == c;
    }
  }

  /** Another code is sent if and only if the account still waits for one, no unused code is younger than the cooldown,
      and the last day holds fewer codes than the daily limit. It is then the only unused one and has its full term. */
  lemma ResendExactly(a: Account, l: Limits, now: int, at: int, expiry: int, delivered: bool)
    ensures Resends(a, l, now) <==>
      && a.registered && !a.verified
      && (forall i :: 0 <= i < |a.codes| && !a.codes[i].used ==> a.codes[i].createdAt < now - l.cooldown)
      && |CreatedFrom(a.codes, now - l.day)| < l.maxDaily
    ensures var b := AfterResend(a, l, now, at, expiry, delivered);
      if Resends(a, l, now) then Supplied(a, b, at, expiry, delivered) else b == a
  {
    NoneLive(a.codes, now - l.cooldown);
    FilterPlaces(Since(now - l.day), a.codes);
    assert Places(Since(now - l.day), a.codes) == CreatedFrom(a.codes, now - l.day);
  }

  /** One more code, and all earlier ones used. */
  ghost predicate Supplied(a: Account, b: Account, at: int, expiry: int, delivered: bool)
  {
    && b == a.(clock := at, codes := b.codes) && |b.codes| == |a.codes| + 1
    && (forall i :: 0 <= i < |a.codes| ==> b.codes[i] == a.codes[i].(used := true))
    && var code := b.codes[|a.codes|];
    code.createdAt == at && code.expiresAt == at + expiry && code.attempts == 0 && (code.used <==> !delivered)
  }

  // Entering a code.

  /** The address has reached the limit with failures that still count. */
  ghost predicate Blocked(a: Account, l: Limits, ip: string, now: int)
  {
    (if ip in a.tallies && now - l.lock <= a.tallies[ip].lastAt then a.tallies[ip].attempts else 0) >= l.maxFailures
  }

  /** Code `i` is the newest unused one. */
  ghost predicate InUse(codes: seq<Code>, i: int)
  {
    0 <= i < |codes| && !codes[i].used && forall j :: i < j < |codes| ==> codes[j].used
  }

  /** The right digits for the newest unused code, in time and before its own limit. */
  ghost predicate InTime(a: Account, l: Limits, now: int, matches: bool, i: int)
  {
    InUse(a.codes, i) && now < a.codes[i].expiresAt && a.codes[i].attempts < l.maxFailures && matches
  }

  lemma NewestIs(codes: seq<Code>, i: int)
    requires InUse(codes, i)
    ensures Newest(codes) == Some(i)
  {
  }

  ghost predicate Enters(a: Account, l: Limits, ip: string, now: int, matches: bool)
  {
    a.registered && !Blocked(a, l, ip, now) && exists i :: InTime(a, l, now, matches, i)
  }

  lemma AcceptedExactly(a: Account, l: Limits, now: int, matches: bool)
    ensures Accepted(a.codes, l, now, matches) <==> exists i :: InTime(a, l, now, matches, i)
  {
    if i :| InTime(a, l, now, matches, i) {
      NewestIs(a.codes, i);
    }
    if Accepted(a.codes, l, now, matches) {
      assert InTime(a, l, now, matches, Newest(a.codes).value);
    }
  }

  lemma BlockedExactly(a: Account, l: Limits, ip: string, now: int)
    ensures LockedOut(TallyOf(a, ip, now), l, now) <==> Blocked(a, l, ip, now)
  {
  }

  /** An entry adds a success to the history and verifies the account if and only if the account is registered, the
      address is not locked, and the digits are right for the newest unused code before it expires and before its own
      limit. A refused entry of an address that is not locked is a failure; any other one is not processed. */
  lemma EntryExactly(a: Account, l: Limits, ip: string, now: int, at: int, matches: bool)
    ensures var b := AfterEntry(a, l, ip, now, at, matches);
      && (b.log == a.log + [Entry(ip, at, true)] <==> Enters(a, l, ip, now, matches))
      && (b.log == a.log + [Entry(ip, at, false)] <==>
           a.registered && !Blocked(a, l, ip, now) && !Enters(a, l, ip, now, matches))
      && (b.log == a.log <==> !a.registered || Blocked(a, l, ip, now))
      && (b.verified <==> a.verified || Enters(a, l, ip, now, matches))
  {
    hide Accepted, LockedOut, TallyOf, Standing, Newest, Blocked, InTime;
    AcceptedExactly(a, l, now, matches);
    BlockedExactly(a, l, ip, now);
    var b := AfterEntry(a, l, ip, now, at, matches);
    assert (a.log + [Entry(ip, at, true)])[|a.log|].success;
    assert !(a.log + [Entry(ip, at, false)])[|a.log|].success;
    assert |a.log + [Entry(ip, at, true)]| == |a.log| + 1;
  }

  /** What an entry leaves: the accepted code used and the address forgiven, or one more failure and no code touched. */
  lemma EntryWrites(a: Account, l: Limits, ip: string, now: int, at: int, matches: bool)
    requires a.registered && !Blocked(a, l, ip, now)
    ensures var b := AfterEntry(a, l, ip, now, at, matches);
      && (forall i :: InTime(a, l, now, matches, i) ==>
           b.codes == a.codes[i := a.codes[i].(used := true)] && b.tallies == a.tallies - {ip})
      && ((forall i :: !InTime(a, l, now, matches, i)) ==>
           && b.codes == a.codes && ip in b.tallies && b.tallies - {ip} == a.tallies - {ip}
           && b.tallies[ip].lastAt == at
           && b.tallies[ip].attempts ==
             (if ip in a.tallies && now - l.lock <= a.tallies[ip].lastAt then a.tallies[ip].attempts + 1 else 1))
  {
    hide Accepted, LockedOut, Newest, InTime;
    AcceptedExactly(a, l, now, matches);
    BlockedExactly(a, l, ip, now);
    forall i | InTime(a, l, now, matches, i) ensures 0 <= i < |a.codes| && Newest(a.codes) == Some(i) {
      TimelyIsNewest(a, l, now, matches, i);
    }
  }

  lemma TimelyIsNewest(a: Account, l: Limits, now: int, matches: bool, i: int)
    requires InTime(a, l, now, matches, i)
    ensures 0 <= i < |a.codes| && Newest(a.codes) == Some(i)
  {
    NewestIs(a.codes, i);
  }

  // Over whole runs.

  /** No unused code is left that has not expired. */
  ghost predicate AllExpired(a: Account)
  {
    forall i :: 0 <= i < |a.codes| && !a.codes[i].used ==> a.codes[i].expiresAt <= a.clock
  }

  /** Once every unused code has expired, no run of entries verifies the account, whatever is typed from wherever. */
  lemma {:induction false} ExpiredCodesAreDead(a: Account, l: Limits, expiry: int, actions: seq<Action>)
    requires AllExpired(a) && forall k :: 0 <= k < |actions| ==> actions[k].Enter?
    ensures var b := Run(a, l, expiry, actions);
      && b.verified == a.verified && b.codes == a.codes && AllExpired(b)
      && |a.log| <= |b.log| && (forall k :: |a.log| <= k < |b.log| ==> !b.log[k].success)
  {
    if actions != [] {
      var n := |actions| - 1;
      ExpiredCodesAreDead(a, l, expiry, actions[..n]);
      ExpiredStep(Run(a, l, expiry, actions[..n]), l, expiry, actions[n]);
    }
  }

  lemma ExpiredStep(a: Account, l: Limits, expiry: int, action: Action)
    requires AllExpired(a) && action.Enter?
    ensures var b := Step(a, l, expiry, action);
      && b.verified == a.verified && b.codes == a.codes && AllExpired(b)
      && |a.log| <= |b.log| <= |a.log| + 1 && b.log[..|a.log|] == a.log
      && (|b.log| > |a.log| ==> !b.log[|a.log|].success)
  {
    hide LockedOut, TallyOf, Standing, Newest;
    AcceptedExactly(a, l, action.now, action.matches);
  }

  /** Code rows keep their times. */
  ghost predicate TimesKept(a: seq<Code>, b: seq<Code>)
  {
    |a| <= |b| && forall i :: 0 <= i < |a| ==> b[i].createdAt == a[i].createdAt && b[i].expiresAt == a[i].expiresAt
  }

  /** Every code was created in the past, for the configured term. */
  ghost predicate Termed(a: Account, expiry: int)
  {
    forall i :: 0 <= i < |a.codes| ==>
      a.codes[i].createdAt <= a.clock && a.codes[i].expiresAt == a.codes[i].createdAt + expiry
  }

  /** Action `k` entered the right digits for code `i` within the code's term. */
  ghost predicate EnteredInTime(actions: seq<Action>, codes: seq<Code>, expiry: int, k: int, i: int)
  {
    && 0 <= k < |actions| && actions[k].Enter? && actions[k].matches
    && 0 <= i < |codes| && codes[i].createdAt <= actions[k].now < codes[i].createdAt + expiry
  }

  lemma StepTimes(a: Account, l: Limits, expiry: int, action: Action)
    requires Termed(a, expiry)
    ensures var b := Step(a, l, expiry, action); Termed(b, expiry) && TimesKept(a.codes, b.codes)
  {
    hide LockedOut, TallyOf, Standing, Newest, Resends;
  }

  lemma StepVerifies(a: Account, l: Limits, expiry: int, action: Action) returns (i: int)
    requires Termed(a, expiry) && !a.verified && Step(a, l, expiry, action).verified
    ensures action.Enter? && action.matches
    ensures 0 <= i < |a.codes| && a.codes[i].createdAt <= action.now < a.codes[i].createdAt + expiry
  {
    hide LockedOut, TallyOf, Standing, Newest;
    AcceptedExactly(a, l, action.now, action.matches);
    i :| InTime(a, l, action.now, action.matches, i);
  }

  lemma {:induction false} RunTimes(clock: int, l: Limits, expiry: int, actions: seq<Action>)
    ensures Termed(Run(Opened(clock), l, expiry, actions), expiry)
  {
    hide Step;
    if actions != [] {
      var n := |actions| - 1;
      RunTimes(clock, l, expiry, actions[..n]);
      StepTimes(Run(Opened(clock), l, expiry, actions[..n]), l, expiry, actions[n]);
    }
  }

  /** Whoever is verified has, at some moment of the run, entered the right digits within the term of one of the codes. */
  lemma {:induction false} VerifiedInTime(clock: int, l: Limits, expiry: int, actions: seq<Action>)
    requires Run(Opened(clock), l, expiry, actions).verified
    ensures exists k, i :: EnteredInTime(actions, Run(Opened(clock), l, expiry, actions).codes, expiry, k, i)
  {
    hide Step;
    var n := |actions| - 1;
    var a := Run(Opened(clock), l, expiry, actions[..n]);
    RunTimes(clock, l, expiry, actions[..n]);
    StepTimes(a, l, expiry, actions[n]);
    var codes := Run(Opened(clock), l, expiry, actions).codes;
    if a.verified {
      VerifiedInTime(clock, l, expiry, actions[..n]);
      var k, i :| EnteredInTime(actions[..n], a.codes, expiry, k, i);
      assert EnteredInTime(actions, codes, expiry, k, i);
    } else {
      var i := StepVerifies(a, l, expiry, actions[n]);
      assert EnteredInTime(actions, codes, expiry, n, i);
    }
  }
}
