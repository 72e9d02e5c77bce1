/** The rows behind one address book entry: codes and failure counters, as the three views change them. */
module OtpAccount {
  import opened Sequences
  import opened OtpLimits

  class Registration {
    const limits: Limits
    const expiry: int
    var registered: bool
    var verified: bool
    var codes: seq<Code>
    var tallies: map<string, Tally>
    ghost var clock: int
    ghost var log: seq<Entry>

    ghost function View(): Account
      reads this
    {
      Account(clock, registered, verified, codes, tallies, log)
    }

    constructor (limits: Limits, expiry: int, now: int)
      ensures View() == Opened(now) && this.limits == limits && this.expiry == expiry
    {
      this.limits, this.expiry := limits, expiry;
      registered, verified, codes, tallies := false, false, [], map[];
      clock, log := now, [];
    }

    /** `create_otp_record`, then the mail; a mail that cannot be sent marks its code used. */
    method CreateCode(now: int, at: int, mailAccepted: bool)
      requires Timely(View(), now, at)
      modifies this`codes, this`clock
      ensures View() == WithCode(old(View()), at, expiry, mailAccepted)
    {
      var kept := [];
      for i := 0 to |codes|
        invariant codes == old(codes) && clock == old(clock)
        invariant kept == MarkUsed(codes)[..i]
      {
        kept := kept + [codes[i].(used := true)];
      }
      var code := Code(at, at + expiry, false, 0, mailAccepted);
      if !mailAccepted {
        code := code.(used := true);
      }
      codes := kept + [code];
      clock := at;
    }

    /** `RegisterView.post` */
    method Register(now: int, at: int, mailAccepted: bool)
      requires Timely(View(), now, at)
      modifies this
      ensures View() == Step(old(View()), limits, expiry, Action.Register(now, at, mailAccepted))
    {
      if registered {
        return;
      }
      registered := true;
      CreateCode(now, at, mailAccepted);
    }

    /** `ResendOTPView.post` */
    method Resend(now: int, at: int, mailAccepted: bool) returns (sent: bool)
      requires Timely(View(), now, at)
      modifies this
      ensures sent <==> Resends(old(View()), limits, now)
      ensures View() == Step(old(View()), limits, expiry, Action.Resend(now, at, mailAccepted))
    {
      if !registered || verified {
        return false;
      }
      var recent := Filter(Live(now - limits.cooldown), codes);
      if recent != [] {
        return false;
      }
      var daily := |Filter(Since(now - limits.day), codes)|;
      if daily >= limits.maxDaily {
        return false;
      }
      CreateCode(now, at, mailAccepted);
      sent := true;
    }

    /** `verify_otp`. A refused entry raises an exception, here `ok == false`, after its writes. */
    method VerifyCode(now: int, matches: bool) returns (ok: bool)
      modifies this`codes
      ensures ok == Accepted(old(codes), limits, now, matches)
      ensures codes == Attempted(old(codes), limits, now, matches)
    {
      var newest := OtpLimits.Newest(codes);
      if newest.None? {
        return false;
      }
      var i := newest.value;
      if now >= codes[i].expiresAt {
        codes := codes[i := codes[i].(used := true)];
        return false;
      }
      if codes[i].attempts >= limits.maxFailures {
        return false;
      }
      if !matches {
        codes := codes[i := codes[i].(attempts := codes[i].attempts + 1)];
        return false;
      }
      codes := codes[i := codes[i].(used := true)];
      ok := true;
    }

    /** Fetches or creates the counter of an address and sees how many failures still stand. */
    method CountStanding(ip: string, now: int) returns (attempts: nat)
      modifies this`tallies
      ensures attempts == Standing(TallyOf(old(View()), ip, now), limits, now)
      ensures tallies == old(tallies)[ip := TallyOf(old(View()), ip, now)]
    {
      if ip !in tallies {
        tallies := tallies[ip := Tally(0, now)];
      }
      attempts := tallies[ip].attempts;
      if tallies[ip].lastAt < now - limits.lock {
        attempts := 0;
      }
    }

    /** `VerifyOTPView.post`. What `verify_otp` wrote is rolled back when it raises. */
    method Enter(ip: string, now: int, at: int, matches: bool) returns (ok: bool)
      requires Timely(View(), now, at)
      modifies this
      ensures View() == Step(old(View()), limits, expiry, Action.Enter(ip, now, at, matches))
      ensures ok <==> |log| > |old(log)| && log[|old(log)|].success
    {
      hide OtpLimits.Newest, Standing, TallyOf, AfterRegister, AfterResend;
      if !registered {
        return false;
      }
      var attempts := CountStanding(ip, now);
      clock := at;
      if attempts >= limits.maxFailures {
        return false;
      }
      var before := codes;
      ok := VerifyCode(now, matches);
      if ok {
        verified := true;
        tallies := tallies - {ip};
      } else {
        codes := before;
        tallies := tallies[ip := Tally(attempts + 1, at)];
      }
      log := log + [Entry(ip, at, ok)];
    }
  }
}
