/** Registration codes and their limits: registering, asking for another code, and entering a code. */
module OtpLimits {
  import opened Sequences

  /** `maxDaily`, `maxFailures` and the lengths of the windows are settings and may be any integers. */
  datatype Limits = Limits(cooldown: int, day: int, maxDaily: int, lock: int, maxFailures: int)

  /** A registration code. `delivered` is history: whether the mail was accepted. */
  datatype Code = Code(createdAt: int, expiresAt: int, used: bool, attempts: nat, delivered: bool)

  /** The failure counter of one address. */
  datatype Tally = Tally(attempts: nat, lastAt: int)

  /** History the application does not keep: every processed entry of a code. */
  datatype Entry = Entry(ip: string, at: int, success: bool)

  datatype Account = Account(
    clock: int, registered: bool, verified: bool, codes: seq<Code>, tallies: map<string, Tally>, log: seq<Entry>)

  function Opened(clock: int): Account
  {
    Account(clock, false, false, [], map[], [])
  }

  // Creating codes.

  function MarkUsed(codes: seq<Code>): (r: seq<Code>)
    ensures |r| == |codes|
  {
    seq(|codes|, i requires 0 <= i < |codes| => codes[i].(used := true))
  }

  function Since(start: int): Code -> bool
  {
    (c: Code) => c.createdAt >= start
  }

  function Live(start: int): Code -> bool
  {
    (c: Code) => !c.used && c.createdAt >= start
  }

  /** `create_otp_record` and the mail: at most one code is left unused, and none if the mail was refused. */
  function WithCode(a: Account, at: int, expiry: int, delivered: bool): Account
  {
    a.(clock := at, codes := MarkUsed(a.codes) + [Code(at, at + expiry, !delivered, 0, delivered)])
  }

  /** A request is checked at one moment and writes at a later one. */
  predicate Timely(a: Account, now: int, at: int)
  {
    a.clock <= now <= at
  }

  function AfterRegister(a: Account, at: int, expiry: int, delivered: bool): Account
  {
    if a.registered then a else WithCode(a, at, expiry, delivered).(registered := true)
  }

  predicate Resends(a: Account, l: Limits, now: int)
  {
    && a.registered && !a.verified
    && Filter(Live(now - l.cooldown), a.codes) == []
    && |Filter(Since(now - l.day), a.codes)| < l.maxDaily
  }

  function AfterResend(a: Account, l: Limits, now: int, at: int, expiry: int, delivered: bool): Account
  {
    if Resends(a, l, now) then WithCode(a, at, expiry, delivered) else a
  }

  // Entering a code.

  function TallyOf(a: Account, ip: string, now: int): Tally
  {
    if ip in a.tallies then a.tallies[ip] else Tally(0, now)
  }

  /** The failures that still count at `now`. */
  function Standing(t: Tally, l: Limits, now: int): nat
  {
    if t.lastAt < now - l.lock then 0 else t.attempts
  }

  predicate LockedOut(t: Tally, l: Limits, now: int)
  {
    Standing(t, l, now) >= l.maxFailures
  }

  /** The newest unused code. */
  function Newest(codes: seq<Code>): (r: Option<nat>)
    ensures r.Some? ==> r.value < |codes| && !codes[r.value].used
    ensures r.Some? ==> forall i :: r.value < i < |codes| ==> codes[i].used
    ensures r.None? ==> forall i :: 0 <= i < |codes| ==> codes[i].used
  {
    if codes == [] then None
    else
      var n := |codes| - 1;
      if !codes[n].used then Some(n) else Newest(codes[..n])
  }

  /** `verify_otp` accepts the entry; `matches` is the outcome of the hash comparison. */
  predicate Accepted(codes: seq<Code>, l: Limits, now: int, matches: bool)
  {
    var i := Newest(codes);
    i.Some? && now < codes[i.value].expiresAt && codes[i.value].attempts < l.maxFailures && matches
  }

  /** The rows as `verify_otp` leaves them when it returns or raises: an expired code is marked used, a wrong entry is
      counted on the code, the right one uses it up. */
  function Attempted(codes: seq<Code>, l: Limits, now: int, matches: bool): seq<Code>
  {
    var newest := Newest(codes);
    if newest.None? then codes
    else
      var i := newest.value;
      if now >= codes[i].expiresAt then codes[i := codes[i].(used := true)]
      else if codes[i].attempts >= l.maxFailures then codes
      else if matches then codes[i := codes[i].(used := true)]
      else codes[i := codes[i].(attempts := codes[i].attempts + 1)]
  }

  function AfterEntry(a: Account, l: Limits, ip: string, now: int, at: int, matches: bool): Account
  {
    if !a.registered then a
    else
      var t := TallyOf(a, ip, now);
      if LockedOut(t, l, now) then a.(clock := at, tallies := a.tallies[ip := t])
      else if Accepted(a.codes, l, now, matches) then
        var i := Newest(a.codes).value;
        a.(clock := at, verified := true, codes := a.codes[i := a.codes[i].(used := true)],
           tallies := a.tallies - {ip}, log := a.log + [Entry(ip, at, true)])
      else
        a.(clock := at, tallies := a.tallies[ip := Tally(Standing(t, l, now) + 1, at)],
           log := a.log + [Entry(ip, at, false)])
  }

  // Runs.

  datatype Action =
    | Register(now: int, at: int, delivered: bool)
    | Resend(now: int, at: int, delivered: bool)
    | Enter(ip: string, now: int, at: int, matches: bool)

  /** An untimely request cannot occur. */
  function Step(a: Account, l: Limits, expiry: int, action: Action): Account
  {
    if !Timely(a, action.now, action.at) then a
    else match action
      case Register(_, at, delivered) => AfterRegister(a, at, expiry, delivered)
      case Resend(now, at, delivered) => AfterResend(a, l, now, at, expiry, delivered)
      case Enter(ip, now, at, matches) => AfterEntry(a, l, ip, now, at, matches)
  }

  function Run(a: Account, l: Limits, expiry: int, actions: seq<Action>): Account
  {
    if actions == [] then a
    else Step(Run(a, l, expiry, actions[..|actions| - 1]), l, expiry, actions[|actions| - 1])
  }

  // Counting in windows.

  function In(start: int, length: int): Code -> bool
  {
    (c: Code) => start <= c.createdAt <= start + length
  }

  lemma {:induction false} FilterWider<T>(p: T -> bool, q: T -> bool, s: seq<T>)
    requires forall x :: x in s && p(x) ==> q(x)
    ensures |Filter(p, s)| <= |Filter(q, s)|
  {
    if s != [] {
      var n := |s| - 1;
      assert forall x :: x in s[..n] ==> x in s;
      FilterWider(p, q, s[..n]);
    }
  }

  lemma {:induction false} UsedUncounted(start: int, length: int, codes: seq<Code>)
    ensures |Filter(In(start, length), MarkUsed(codes))| == |Filter(In(start, length), codes)|
  {
    if codes != [] {
      var n := |codes| - 1;
      UsedUncounted(start, length, codes[..n]);
      assert MarkUsed(codes)[..n] == MarkUsed(codes[..n]);
    }
  }

  lemma {:induction false} UseOneUncounted(start: int, length: int, codes: seq<Code>, i: nat)
    requires i < |codes|
    ensures |Filter(In(start, length), codes[i := codes[i].(used := true)])| == |Filter(In(start, length), codes)|
  {
    var n := |codes| - 1;
    if i == n {
      assert codes[i := codes[i].(used := true)][..n] == codes[..n];
    } else {
      UseOneUncounted(start, length, codes[..n], i);
      assert codes[i := codes[i].(used := true)][..n] == codes[..n][i := codes[i].(used := true)];
    }
  }

  lemma FilterSnoc<T>(p: T -> bool, s: seq<T>, x: T)
    ensures Filter(p, s + [x]) == Filter(p, s) + if p(x) then [x] else []
  {
    assert (s + [x])[..|s|] == s;
  }

  function AtLeastOne(n: int): nat
  {
    if n < 1 then 1 else n
  }

  /** No window of one day holds more codes than the limit (or than one, if the limit is below that). */
  ghost predicate DailyBounded(codes: seq<Code>, l: Limits)
  {
    forall start :: |Filter(In(start, l.day), codes)| <= AtLeastOne(l.maxDaily)
  }

  lemma CodeAdded(a: Account, l: Limits, now: int, at: int, code: Code)
    requires DailyBounded(a.codes, l) && now <= at && code.createdAt == at
    requires a.codes == [] || |Filter(Since(now - l.day), a.codes)| < l.maxDaily
    ensures DailyBounded(MarkUsed(a.codes) + [code], l)
  {
    forall start ensures |Filter(In(start, l.day), MarkUsed(a.codes) + [code])| <= AtLeastOne(l.maxDaily) {
      FilterSnoc(In(start, l.day), MarkUsed(a.codes), code);
      UsedUncounted(start, l.day, a.codes);
      if In(start, l.day)(code) {
        FilterWider(In(start, l.day), Since(now - l.day), a.codes);
      }
    }
  }

  lemma CodeUsed(a: Account, l: Limits, i: nat)
    requires DailyBounded(a.codes, l) && i < |a.codes|
    ensures DailyBounded(a.codes[i := a.codes[i].(used := true)], l)
  {
    forall start
      ensures |Filter(In(start, l.day), a.codes[i := a.codes[i].(used := true)])| <= AtLeastOne(l.maxDaily)
    {
      UseOneUncounted(start, l.day, a.codes, i);
    }
  }

  // What every reachable account satisfies about its codes.

  /** Codes are in order of time, only the last may be unused, their own counters stand at zero, and a delivered code
      is followed by another one only after the cooldown. */
  ghost predicate CodesSound(a: Account, l: Limits)
  {
    && DailyBounded(a.codes, l)
    && (!a.registered ==> a.codes == [])
    && (forall i :: 0 <= i < |a.codes| ==> a.codes[i].createdAt <= a.clock && a.codes[i].attempts == 0)
    && (forall i :: 0 <= i < |a.codes| - 1 ==> a.codes[i].used)
    && Spaced(a.codes, l)
    && (!a.verified && a.codes != [] && a.codes[|a.codes| - 1].delivered ==> !a.codes[|a.codes| - 1].used)
  }

  ghost predicate Spaced(codes: seq<Code>, l: Limits)
  {
    forall i, j :: 0 <= i < j < |codes| ==>
      && codes[i].createdAt <= codes[j].createdAt
      && (codes[i].delivered ==> codes[j].createdAt > codes[i].createdAt + l.cooldown)
  }

  lemma OpenedSound(clock: int, l: Limits)
    ensures CodesSound(Opened(clock), l)
  {
  }

  lemma RegisterSound(a: Account, l: Limits, now: int, at: int, expiry: int, delivered: bool)
    requires CodesSound(a, l) && Timely(a, now, at)
    ensures CodesSound(AfterRegister(a, at, expiry, delivered), l)
  {
    if !a.registered {
      CodeAdded(a, l, now, at, Code(at, at + expiry, !delivered, 0, delivered));
    }
  }

  /** Another code is created only after the cooldown of every delivered one. */
  lemma CooldownOver(a: Account, l: Limits, now: int, i: nat)
    requires CodesSound(a, l) && Resends(a, l, now) && a.clock <= now && i < |a.codes| && a.codes[i].delivered
    ensures now > a.codes[i].createdAt + l.cooldown
  {
    var n := |a.codes| - 1;
    if i == n {
      FilterMembers(Live(now - l.cooldown), a.codes, a.codes[n]);
    } else {
      assert a.codes[n].createdAt > a.codes[i].createdAt + l.cooldown;
    }
  }

  lemma ResendSound(a: Account, l: Limits, now: int, at: int, expiry: int, delivered: bool)
    requires CodesSound(a, l) && Timely(a, now, at)
    ensures CodesSound(AfterResend(a, l, now, at, expiry, delivered), l)
  {
    if Resends(a, l, now) {
      CodeAdded(a, l, now, at, Code(at, at + expiry, !delivered, 0, delivered));
      forall i | 0 <= i < |a.codes| && a.codes[i].delivered ensures now > a.codes[i].createdAt + l.cooldown {
        CooldownOver(a, l, now, i);
      }
    }
  }

  lemma SameCodesSound(a: Account, b: Account, l: Limits)
    requires CodesSound(a, l) && a.clock <= b.clock
    requires b.codes == a.codes && b.registered == a.registered && b.verified == a.verified
    ensures CodesSound(b, l)
  {
  }

  lemma UsedSound(a: Account, b: Account, l: Limits, i: nat)
    requires CodesSound(a, l) && a.clock <= b.clock && i < |a.codes|
    requires b.codes == a.codes[i := a.codes[i].(used := true)] && b.registered == a.registered && b.verified
    ensures CodesSound(b, l)
  {
    CodeUsed(a, l, i);
  }

  lemma EntrySound(a: Account, l: Limits, ip: string, now: int, at: int, matches: bool)
    requires CodesSound(a, l) && Timely(a, now, at)
    ensures CodesSound(AfterEntry(a, l, ip, now, at, matches), l)
  {
    hide CodesSound, Newest, LockedOut, TallyOf, Standing;
    var b := AfterEntry(a, l, ip, now, at, matches);
    if a.registered && !LockedOut(TallyOf(a, ip, now), l, now) && Accepted(a.codes, l, now, matches) {
      UsedSound(a, b, l, Newest(a.codes).value);
    } else {
      SameCodesSound(a, b, l);
    }
  }

  lemma StepCodesSound(a: Account, l: Limits, expiry: int, action: Action)
    requires CodesSound(a, l)
    ensures CodesSound(Step(a, l, expiry, action), l)
  {
    hide CodesSound, AfterRegister, AfterResend, AfterEntry;
    if Timely(a, action.now, action.at) {
      match action
      case Register(now, at, delivered) => RegisterSound(a, l, now, at, expiry, delivered);
      case Resend(now, at, delivered) => ResendSound(a, l, now, at, expiry, delivered);
      case Enter(ip, now, at, matches) => EntrySound(a, l, ip, now, at, matches);
    }
  }

  lemma {:induction false} RunCodesSound(clock: int, l: Limits, expiry: int, actions: seq<Action>)
    ensures CodesSound(Run(Opened(clock), l, expiry, actions), l)
  {
    hide CodesSound, Step;
    if actions == [] {
      OpenedSound(clock, l);
    } else {
      var n := |actions| - 1;
      RunCodesSound(clock, l, expiry, actions[..n]);
      StepCodesSound(Run(Opened(clock), l, expiry, actions[..n]), l, expiry, actions[n]);
    }
  }

  /** In every run, every closed window of one day holds at most the daily number of registration codes. */
  lemma DailyLimitHolds(clock: int, l: Limits, expiry: int, actions: seq<Action>, start: int)
    ensures var n := |Filter(In(start, l.day), Run(Opened(clock), l, expiry, actions).codes)|;
      n <= AtLeastOne(l.maxDaily) && (l.maxDaily >= 1 ==> n <= l.maxDaily)
  {
    RunCodesSound(clock, l, expiry, actions);
  }

  /** In every run, a code that reached its reader is alone for longer than the cooldown, and only the newest code of
      all can still be entered. */
  lemma CodesAreSpaced(clock: int, l: Limits, expiry: int, actions: seq<Action>, i: nat, j: nat)
    requires i < j < |Run(Opened(clock), l, expiry, actions).codes|
    ensures var codes := Run(Opened(clock), l, expiry, actions).codes;
      codes[i].used && (codes[i].delivered ==> codes[j].createdAt - codes[i].createdAt > l.cooldown)
  {
    RunCodesSound(clock, l, expiry, actions);
  }

  /** The counter on the code itself never moves: the exception that reports a failed entry rolls its increment back. */
  lemma {:induction false} CodeCountersStayZero(clock: int, l: Limits, expiry: int, actions: seq<Action>, i: nat)
    requires i < |Run(Opened(clock), l, expiry, actions).codes|
    ensures Run(Opened(clock), l, expiry, actions).codes[i].attempts == 0
  {
    RunCodesSound(clock, l, expiry, actions);
  }

  // Failures per address.

  /** The times of the failures of address `ip` since its last success. */
  function Streak(log: seq<Entry>, ip: string): seq<int>
  {
    if log == [] then []
    else
      var n := |log| - 1;
      if log[n].ip != ip then Streak(log[..n], ip)
      else if log[n].success then []
      else Streak(log[..n], ip) + [log[n].at]
  }

  function Within(start: int, length: int): int -> bool
  {
    (t: int) => start <= t <= start + length
  }

  function NonNegative(n: int): nat
  {
    if n < 0 then 0 else n
  }

  /** The row of an address knows its latest failure, and no window of the lock length that reaches it holds more
      failures than the row counts. */
  ghost predicate RowSound(row: Tally, streak: seq<int>, l: Limits)
  {
    && (forall i :: 0 <= i < |streak| ==> streak[i] <= row.lastAt)
    && (forall start {:trigger Within(start, l.lock)} :: start <= row.lastAt <= start + l.lock ==>
      |Filter(Within(start, l.lock), streak)| <= row.attempts)
  }

  ghost predicate StreakBounded(streak: seq<int>, l: Limits)
  {
    forall start {:trigger Within(start, l.lock)} ::
      |Filter(Within(start, l.lock), streak)| <= NonNegative(l.maxFailures)
  }

  ghost predicate TalliesSound(a: Account, l: Limits)
  {
    forall ip :: AddressSound(a, l, ip)
  }

  ghost predicate AddressSound(a: Account, l: Limits, ip: string)
  {
    var streak := Streak(a.log, ip);
    && (ip !in a.tallies ==> streak == [])
    && (ip in a.tallies ==> RowSound(a.tallies[ip], streak, l) && a.tallies[ip].lastAt <= a.clock)
    && StreakBounded(streak, l)
  }

  lemma {:induction false} NoneWithin(start: int, length: int, streak: seq<int>)
    requires forall i :: 0 <= i < |streak| ==> !(start <= streak[i] <= start + length)
    ensures Filter(Within(start, length), streak) == []
  {
    if streak != [] {
      NoneWithin(start, length, streak[..|streak| - 1]);
    }
  }

  /** One more processed failure of an address. */
  lemma FailureCounted(row: Tally, streak: seq<int>, l: Limits, now: int, at: int)
    requires RowSound(row, streak, l) && StreakBounded(streak, l) && row.lastAt <= now <= at && !LockedOut(row, l, now)
    ensures RowSound(Tally(Standing(row, l, now) + 1, at), streak + [at], l) && StreakBounded(streak + [at], l)
  {
    var next := Tally(Standing(row, l, now) + 1, at);
    forall start
      ensures start <= at <= start + l.lock ==> |Filter(Within(start, l.lock), streak + [at])| <= next.attempts
      ensures |Filter(Within(start, l.lock), streak + [at])| <= NonNegative(l.maxFailures)
    {
      FilterSnoc(Within(start, l.lock), streak, at);
      if start <= at <= start + l.lock {
        if row.lastAt < start {
          NoneWithin(start, l.lock, streak);
        } else {
          assert |Filter(Within(start, l.lock), streak)| <= row.attempts;
        }
      }
    }
  }

  lemma StreakSnoc(log: seq<Entry>, e: Entry, ip: string)
    ensures Streak(log + [e], ip) ==
      if e.ip != ip then Streak(log, ip) else if e.success then [] else Streak(log, ip) + [e.at]
  {
    assert (log + [e])[..|log|] == log;
  }

  /** The entry of another address, or a refused one, leaves the row and the failures of an address as they are. */
  lemma Untouched(a: Account, b: Account, l: Limits, ip: string)
    requires AddressSound(a, l, ip) && a.clock <= b.clock && Streak(b.log, ip) == Streak(a.log, ip)
    requires ip in a.tallies <==> ip in b.tallies
    requires ip in a.tallies ==> b.tallies[ip] == a.tallies[ip]
    ensures AddressSound(b, l, ip)
  {
    hide RowSound, StreakBounded, Streak;
  }

  lemma OtherUntouched(a: Account, l: Limits, ip: string, now: int, at: int, matches: bool, other: string)
    requires AddressSound(a, l, other) && Timely(a, now, at) && other != ip
    ensures AddressSound(AfterEntry(a, l, ip, now, at, matches), l, other)
  {
    hide AddressSound, Streak, Accepted, Newest, Standing;
    var b := AfterEntry(a, l, ip, now, at, matches);
    if b.log != a.log {
      StreakSnoc(a.log, b.log[|a.log|], other);
    }
    Untouched(a, b, l, other);
  }

  lemma SelfCounted(a: Account, l: Limits, ip: string, now: int, at: int, matches: bool)
    requires AddressSound(a, l, ip) && Timely(a, now, at)
    ensures AddressSound(AfterEntry(a, l, ip, now, at, matches), l, ip)
  {
    hide RowSound, StreakBounded, Streak, Accepted, Newest, Standing, LockedOut;
    var b, t := AfterEntry(a, l, ip, now, at, matches), TallyOf(a, ip, now);
    EmptySound(Tally(0, now), l);
    if b.log != a.log {
      StreakSnoc(a.log, b.log[|a.log|], ip);
      if !b.log[|a.log|].success {
        FailureCounted(t, Streak(a.log, ip), l, now, at);
      }
    }
  }

  lemma EntryCounted(a: Account, l: Limits, ip: string, now: int, at: int, matches: bool)
    requires TalliesSound(a, l) && Timely(a, now, at)
    ensures TalliesSound(AfterEntry(a, l, ip, now, at, matches), l)
  {
    hide AddressSound, AfterEntry;
    forall other ensures AddressSound(AfterEntry(a, l, ip, now, at, matches), l, other) {
      if other == ip {
        SelfCounted(a, l, ip, now, at, matches);
      } else {
        OtherUntouched(a, l, ip, now, at, matches, other);
      }
    }
  }

  lemma EmptySound(row: Tally, l: Limits)
    ensures RowSound(row, [], l) && StreakBounded([], l)
  {
  }

  lemma StepTalliesSound(a: Account, l: Limits, expiry: int, action: Action)
    requires TalliesSound(a, l)
    ensures TalliesSound(Step(a, l, expiry, action), l)
  {
    if action.Enter? && Timely(a, action.now, action.at) {
      EntryCounted(a, l, action.ip, action.now, action.at, action.matches);
    } else {
      var b := Step(a, l, expiry, action);
      assert b.log == a.log && b.tallies == a.tallies && a.clock <= b.clock;
      forall ip ensures AddressSound(b, l, ip) {
        assert AddressSound(a, l, ip);
      }
    }
  }

  /** In every run, for every address, a closed interval of the lock length holds at most the allowed number of
      processed failures since the address's last success. */
  lemma {:induction false} FailureLimitHolds(clock: int, l: Limits, expiry: int, actions: seq<Action>, ip: string,
                                            start: int)
    ensures TalliesSound(Run(Opened(clock), l, expiry, actions), l)
    ensures |Filter(Within(start, l.lock), Streak(Run(Opened(clock), l, expiry, actions).log, ip))|
      <= NonNegative(l.maxFailures)
  {
    hide Step;
    if actions == [] {
      forall other ensures AddressSound(Opened(clock), l, other) {
      }
    } else {
      var n := |actions| - 1;
      FailureLimitHolds(clock, l, expiry, actions[..n], ip, start);
      StepTalliesSound(Run(Opened(clock), l, expiry, actions[..n]), l, expiry, actions[n]);
    }
    assert AddressSound(Run(Opened(clock), l, expiry, actions), l, ip);
  }

  // Any stretch of the history without a success.

  function Failures(log: seq<Entry>, ip: string): seq<int>
  {
    if log == [] then []
    else
      var n := |log| - 1;
      Failures(log[..n], ip) + if log[n].ip == ip && !log[n].success then [log[n].at] else []
  }

  ghost predicate NoSuccess(log: seq<Entry>, ip: string)
  {
    forall k :: 0 <= k < |log| ==> !(log[k].ip == ip && log[k].success)
  }

  lemma {:induction false} StreakExtends(before: seq<Entry>, stretch: seq<Entry>, ip: string)
    requires NoSuccess(stretch, ip)
    ensures Streak(before + stretch, ip) == Streak(before, ip) + Failures(stretch, ip)
  {
    hide Streak;
    if stretch == [] {
      assert before + stretch == before;
      assert Streak(before, ip) + [] == Streak(before, ip);
    } else {
      var n := |stretch| - 1;
      var e := stretch[n];
      assert NoSuccess(stretch[..n], ip) && !(e.ip == ip && e.success);
      StreakExtends(before, stretch[..n], ip);
      StreakSnoc(before + stretch[..n], e, ip);
      assert before + stretch[..n] + [e] == before + stretch;
      var s, f := Streak(before, ip), Failures(stretch[..n], ip);
      assert s + f + [e.at] == s + (f + [e.at]);
      assert f + [] == f;
    }
  }

  lemma {:induction false} CountConcat(start: int, length: int, a: seq<int>, b: seq<int>)
    ensures |Filter(Within(start, length), b)| <= |Filter(Within(start, length), a + b)|
  {
    FilterConcat(Within(start, length), a, b);
  }

  /** The log of a run up to any point is the log of an earlier part of the run. */
  lemma {:induction false} LogPrefix(clock: int, l: Limits, expiry: int, actions: seq<Action>, j: nat) returns (m: nat)
    requires j <= |Run(Opened(clock), l, expiry, actions).log|
    ensures m <= |actions|
    ensures Run(Opened(clock), l, expiry, actions[..m]).log == Run(Opened(clock), l, expiry, actions).log[..j]
  {
    var log := Run(Opened(clock), l, expiry, actions).log;
    m := |actions|;
    if j == |log| {
      assert actions[..m] == actions && log[..j] == log;
    } else {
      var n := |actions| - 1;
      var a := Run(Opened(clock), l, expiry, actions[..n]);
      LogGrows(a, l, expiry, actions[n]);
      m := LogPrefix(clock, l, expiry, actions[..n], j);
      assert actions[..n][..m] == actions[..m] && a.log[..j] == log[..j];
    }
  }

  lemma LogGrows(a: Account, l: Limits, expiry: int, action: Action)
    ensures Step(a, l, expiry, action).log == a.log || exists e :: Step(a, l, expiry, action).log == a.log + [e]
  {
  }

  /** In every run, in every stretch of the history without a success of an address, a closed interval of the lock
      length holds at most the allowed number of its processed failures. */
  lemma StretchLimitHolds(clock: int, l: Limits, expiry: int, actions: seq<Action>, ip: string, i: nat, j: nat, start: int)
    requires i <= j <= |Run(Opened(clock), l, expiry, actions).log|
    requires NoSuccess(Run(Opened(clock), l, expiry, actions).log[i..j], ip)
    ensures |Filter(Within(start, l.lock), Failures(Run(Opened(clock), l, expiry, actions).log[i..j], ip))|
      <= NonNegative(l.maxFailures)
  {
    hide Step;
    var log := Run(Opened(clock), l, expiry, actions).log;
    var m := LogPrefix(clock, l, expiry, actions, j);
    FailureLimitHolds(clock, l, expiry, actions[..m], ip, start);
    assert log[..i] + log[i..j] == log[..j];
    StreakExtends(log[..i], log[i..j], ip);
    CountConcat(start, l.lock, Streak(log[..i], ip), Failures(log[i..j], ip));
  }

  // All addresses together.

  function Addresses(log: seq<Entry>): set<string>
  {
    set k | 0 <= k < |log| :: log[k].ip
  }

  /** The times of the failures of the addresses `ips`. */
  function FailuresOf(log: seq<Entry>, ips: set<string>): seq<int>
  {
    if log == [] then []
    else
      var n := |log| - 1;
      FailuresOf(log[..n], ips) + if log[n].ip in ips && !log[n].success then [log[n].at] else []
  }

  lemma {:induction false} OneAddressLess(log: seq<Entry>, ips: set<string>, ip: string, p: int -> bool)
    requires ip in ips
    ensures |Filter(p, FailuresOf(log, ips))|
      == |Filter(p, FailuresOf(log, ips - {ip}))| + |Filter(p, Failures(log, ip))|
  {
    if log != [] {
      hide Filter;
      var n := |log| - 1;
      var e := log[n];
      OneAddressLess(log[..n], ips, ip, p);
      var all, others, own := FailuresOf(log[..n], ips), FailuresOf(log[..n], ips - {ip}), Failures(log[..n], ip);
      assert all + [] == all && others + [] == others && own + [] == own;
      FilterSnoc(p, all, e.at);
      FilterSnoc(p, others, e.at);
      FilterSnoc(p, own, e.at);
    } else {
      assert |Filter(p, [])| == 0;
    }
  }

  lemma {:induction false} NobodyFails(log: seq<Entry>)
    ensures FailuresOf(log, {}) == []
  {
    if log != [] {
      NobodyFails(log[..|log| - 1]);
    }
  }

  lemma OneMoreTimes(x: nat, n: nat)
    ensures x * (n + 1) == x * n + x
  {
  }

  lemma {:induction false} AddressesAddUp(log: seq<Entry>, ips: set<string>, p: int -> bool, most: nat)
    requires forall ip :: ip in ips ==> |Filter(p, Failures(log, ip))| <= most
    ensures |Filter(p, FailuresOf(log, ips))| <= most * |ips|
    decreases |ips|
  {
    hide FailuresOf, Failures;
    if ips == {} {
      NobodyFails(log);
    } else {
      hide Filter;
      var ip :| ip in ips;
      OneAddressLess(log, ips, ip, p);
      AddressesAddUp(log, ips - {ip}, p, most);
      OneMoreTimes(most, |ips - {ip}|);
      assert |ips| == |ips - {ip}| + 1;
    }
  }

  /** Without a success every entry is a failure of one of its addresses. */
  lemma {:induction false} NothingElse(log: seq<Entry>, ips: set<string>)
    requires Addresses(log) <= ips && forall k :: 0 <= k < |log| ==> !log[k].success
    ensures |FailuresOf(log, ips)| == |log|
  {
    if log != [] {
      var n := |log| - 1;
      assert forall k :: 0 <= k < n ==> log[..n][k] == log[k];
      assert Addresses(log[..n]) <= Addresses(log);
      NothingElse(log[..n], ips);
      assert log[n].ip in Addresses(log);
    }
  }

  /** The bound that does hold for all addresses together: in every run, in a stretch without a success, a closed
      interval of the lock length holds at most the allowed number of processed failures for each address in it. */
  lemma StretchLimitForAll(clock: int, l: Limits, expiry: int, actions: seq<Action>, i: nat, j: nat, start: int)
    requires i <= j <= |Run(Opened(clock), l, expiry, actions).log|
    requires forall k :: i <= k < j ==> !Run(Opened(clock), l, expiry, actions).log[k].success
    ensures var stretch := Run(Opened(clock), l, expiry, actions).log[i..j];
      |Filter(Within(start, l.lock), FailuresOf(stretch, Addresses(stretch)))|
        <= NonNegative(l.maxFailures) * |Addresses(stretch)|
    ensures var stretch := Run(Opened(clock), l, expiry, actions).log[i..j];
      |FailuresOf(stretch, Addresses(stretch))| == j - i
  {
    hide Run, FailuresOf, Failures;
    var stretch := Run(Opened(clock), l, expiry, actions).log[i..j];
    forall ip | ip in Addresses(stretch)
      ensures |Filter(Within(start, l.lock), Failures(stretch, ip))| <= NonNegative(l.maxFailures)
    {
      assert NoSuccess(stretch, ip);
      StretchLimitHolds(clock, l, expiry, actions, ip, i, j, start);
    }
    NothingElse(stretch, Addresses(stretch));
    AddressesAddUp(stretch, Addresses(stretch), Within(start, l.lock), NonNegative(l.maxFailures));
  }

  // There is no limit for one code.

  /** One of infinitely many addresses. */
  function AddressNo(i: nat): (ip: string)
    ensures |ip| == i
  {
    seq(i, k => '1')
  }

  /** `n` wrong entries at one instant, each from another address. */
  function Guesses(n: nat, at: int): (r: seq<Action>)
    ensures |r| == n
  {
    seq(n, i requires 0 <= i < n => Enter(AddressNo(i), at, at, false))
  }

  /** What `n` wrong entries from `n` addresses leave behind. */
  ghost predicate Guessed(a: Account, l: Limits, n: nat, at: int, expiry: int)
  {
    && a.clock == at && a.registered && a.codes == [Code(at, at + expiry, false, 0, true)]
    && |a.log| == n && (forall i :: 0 <= i < n ==> a.log[i] == Entry(AddressNo(i), at, false))
    && forall ip :: ip in a.tallies ==> |ip| < n
  }

  lemma OneMoreGuess(a: Account, l: Limits, n: nat, at: int, expiry: int)
    requires l.maxFailures >= 1 && Guessed(a, l, n, at, expiry)
    ensures Guessed(Step(a, l, expiry, Enter(AddressNo(n), at, at, false)), l, n + 1, at, expiry)
  {
  }

  lemma {:induction false} GuessesRun(l: Limits, n: nat, at: int, expiry: int)
    requires l.maxFailures >= 1
    ensures Guessed(Run(Opened(at), l, expiry, [Register(at, at, true)] + Guesses(n, at)), l, n, at, expiry)
  {
    var actions := [Register(at, at, true)] + Guesses(n, at);
    if n == 0 {
      assert actions == [Register(at, at, true)] && actions[..0] == [];
      assert Run(Opened(at), l, expiry, actions) == Step(Opened(at), l, expiry, actions[0]);
    } else {
      GuessesRun(l, n - 1, at, expiry);
      assert actions[..n] == [Register(at, at, true)] + Guesses(n - 1, at);
      assert actions[n] == Enter(AddressNo(n - 1), at, at, false);
      OneMoreGuess(Run(Opened(at), l, expiry, actions[..n]), l, n - 1, at, expiry);
    }
  }

  /** However small the limit, a code takes any number of wrong entries, even within one instant, and is still
      accepted afterwards: only the counters per address limit the entries. */
  lemma CodeTakesAnyNumber(l: Limits, n: nat, at: int, expiry: int)
    requires l.maxFailures >= 1 && expiry > 0
    ensures var a := Run(Opened(at), l, expiry, [Register(at, at, true)] + Guesses(n, at));
      && |a.codes| == 1 && |a.log| == n
      && (forall i :: 0 <= i < n ==> !a.log[i].success && a.log[i].at == at)
      && Accepted(a.codes, l, at, true)
  {
    hide Run;
    GuessesRun(l, n, at, expiry);
    var codes := Run(Opened(at), l, expiry, [Register(at, at, true)] + Guesses(n, at)).codes;
    assert !codes[0].used;
    assert Newest(codes) == Some(0);
  }
}
