/**
 * What a tombstoned device can still come to hold, and exactly when: over every way its
 * run can go on, with no new redemption, or with no new registration, of that device.
 */
module Revocation {
  import opened Stores
  import opened Host
  import opened HostProofs
  import opened HostTheorems

  predicate Revoked(s: State, device: Id) {
    device in s.registry && s.registry[device].revokedAt.Some?
  }

  // ----- going on from a state

  lemma {:induction false} LogGrows(s: State, more: seq<Step>)
    ensures s.log <= Run(s, more).log
    decreases |more|
  {
    hide Emits, Enabled;
    if more != [] {
      LogGrows(Apply(s, more[0]), more[1..]);
    }
  }

  lemma {:induction false} RunAppend(s: State, a: seq<Step>, b: seq<Step>)
    ensures Run(s, a + b) == Run(Run(s, a), b)
    decreases |a|
  {
    hide Apply;
    if a == [] {
      assert a + b == b;
    } else {
      assert (a + b)[1..] == a[1..] + b;
      RunAppend(Apply(s, a[0]), a[1..], b);
    }
  }

  lemma StepGrows(s: State, step: Step)
    ensures s.log <= Apply(s, step).log && |Apply(s, step).log| <= |s.log| + 1
  {
    hide Emits, Enabled;
  }

  lemma RunOne(s: State, a: Step)
    ensures Run(s, [a]) == Apply(s, a)
  {
    hide Apply;
    assert [a][1..] == [];
  }

  lemma RunTwo(s: State, a: Step, b: Step)
    ensures Run(s, [a, b]) == Apply(Apply(s, a), b)
  {
    hide Apply;
    assert [a, b][1..] == [b];
    RunOne(Apply(s, a), b);
  }

  lemma {:induction false} AboveAll(xs: set<nat>) returns (b: nat)
    ensures forall x :: x in xs ==> x < b
  {
    if xs == {} {
      b := 0;
    } else {
      var x :| x in xs;
      b := AboveAll(xs - {x});
      b := if x < b then b else x + 1;
      assert forall y :: y in xs ==> y == x || y in xs - {x};
    }
  }

  lemma {:induction false} LongerThanAll(log: seq<Event>) returns (n: nat)
    ensures forall i :: 0 <= i < |log| && log[i].Challenged? ==> |log[i].key| < n
  {
    if log == [] {
      n := 0;
    } else {
      var last := log[|log| - 1];
      n := LongerThanAll(log[..|log| - 1]);
      n := if last.Challenged? && n <= |last.key| then |last.key| + 1 else n;
    }
  }

  lemma {:induction false} LongerThanPresented(calls: map<Rpc, Call>, some: set<Rpc>) returns (n: nat)
    requires some <= calls.Keys
    ensures forall rpc :: rpc in some && calls[rpc].Answering? ==> |calls[rpc].key| < n
  {
    if some == {} {
      n := 0;
    } else {
      var rpc :| rpc in some;
      n := LongerThanPresented(calls, some - {rpc});
      n := if calls[rpc].Answering? && n <= |calls[rpc].key| then |calls[rpc].key| + 1 else n;
      assert forall r :: r in some ==> r == rpc || r in some - {rpc};
    }
  }

  lemma FreshKey(s: State) returns (key: string)
    ensures !Issued(s.log, key) && !Presented(s.calls, key)
  {
    var m := LongerThanAll(s.log);
    var n := LongerThanPresented(s.calls, s.calls.Keys);
    key := seq(m + n, _ => 'k');
  }

  /** A step that reads the clock reads no earlier time than this. */
  predicate NotBefore(step: Step, now: int) {
    match step
    case OpenWindow(_, at) => now <= at
    case PairRedeem(_, _, at) => now <= at
    case PairAdd(_, at, _) => now <= at
    case Revoke(_, _, at, _) => now <= at
    case ChallengeMint(_, _, at) => now <= at
    case AuthConsume(_, at) => now <= at
    case AuthMint(_, _, at) => now <= at
    case Touch(_, at) => now <= at
    case Resolve(_, _, _, at) => now <= at
    case _ => true
  }

  predicate From(more: seq<Step>, now: int) {
    forall step :: step in more ==> NotBefore(step, now)
  }

  // ----- authorized again, without another redemption

  predicate NoRedemption(more: seq<Step>, device: Id) {
    forall step :: step in more && step.PairRedeem? ==> step.req.id != device
  }

  ghost predicate AuthorizedSince(s: State, e: State, device: Id) {
    exists j :: |s.log| <= j < |e.log| && e.log[j].Authorized? && e.log[j].device == device
  }

  /** The run can go on from that time, with no redemption for the device, until it is authorized. */
  ghost predicate CanReturn(s: State, device: Id, now: int) {
    exists more :: From(more, now) && NoRedemption(more, device) && AuthorizedSince(s, Run(s, more), device)
  }

  predicate Pending(c: Call, device: Id) {
    c.Pairing? && c.req.id == device && Capable(c.req)
  }

  ghost predicate PairingPending(s: State, device: Id) {
    exists rpc :: rpc in s.calls && Pending(s.calls[rpc], device)
  }

  /** A pending pairing is what the log shows as one in flight. */
  lemma PendingIsInFlight(s: State, device: Id)
    requires Inv(s)
    ensures PairingPending(s, device) <==> InFlight(s.log, |s.log|, device)
  {
    hide Capable;
    if PairingPending(s, device) {
      var rpc :| rpc in s.calls && Pending(s.calls[rpc], device);
      assert CallOk(s.log, rpc, s.calls[rpc]);
      var m := s.calls[rpc].redeemed;
      assert s.log[m].Redeemed? && s.log[m].device == device && s.log[m].capable;
    }
    if InFlight(s.log, |s.log|, device) {
      var m :| 0 <= m < |s.log| && s.log[m].Redeemed? && s.log[m].device == device && s.log[m].capable
               && forall n :: 0 <= n < |s.log| && Settles(s.log[n]) ==> s.log[n].rpc != s.log[m].rpc;
      assert !SettledBy(s.log, s.log[m].rpc);
      assert Pending(s.calls[s.log[m].rpc], device);
    }
  }

  lemma QuietStep(s: State, step: Step, device: Id)
    requires Revoked(s, device) && !PairingPending(s, device)
    requires step.PairRedeem? ==> step.req.id != device
    ensures var t := Apply(s, step);
            && Revoked(t, device) && !PairingPending(t, device)
            && (t.log == s.log || !(t.log[|s.log|].Authorized? && t.log[|s.log|].device == device))
  {
    var t := Apply(s, step);
    assert step.PairAdd? && Enabled(s, step) ==> !Pending(s.calls[step.rpc], device);
    forall rpc | rpc in t.calls ensures !Pending(t.calls[rpc], device) {
      assert rpc in s.calls ==> !Pending(s.calls[rpc], device);
    }
  }

  lemma {:induction false} QuietRun(s: State, more: seq<Step>, device: Id)
    requires Revoked(s, device) && !PairingPending(s, device) && NoRedemption(more, device)
    ensures !AuthorizedSince(s, Run(s, more), device)
    decreases |more|
  {
    hide Apply, Revoked, PairingPending;
    if more != [] {
      var t, e := Apply(s, more[0]), Run(s, more);
      QuietStep(s, more[0], device);
      QuietRun(t, more[1..], device);
      LogGrows(t, more[1..]);
      StepGrows(s, more[0]);
      assert forall j :: |t.log| <= j < |e.log| ==> !(e.log[j].Authorized? && e.log[j].device == device);
    }
  }

  // ----- a run that does return

  /** A live device answers a challenge of its own and gets a token. */
  function Login(device: Id, r: nat, key: string, now: int): seq<Step> {
    [ChallengeCheck(r, device), ChallengeMint(r, key, now)]
    + [AuthCheck(r + 1, device, key, true), AuthConsume(r + 1, now)] + [AuthMint(r + 1, key, now)]
  }

  lemma Authenticates(s: State, device: Id, r: nat, key: string, now: int)
    requires Registrable(s.registry, device) && r !in s.calls && r + 1 !in s.calls
    requires !Issued(s.log, key) && !Presented(s.calls, key)
    ensures var t := Run(s, Login(device, r, key, now));
            && t.registry == s.registry && s.log <= t.log && t.calls.Keys == s.calls.Keys + {r, r + 1}
            && key in t.tokens && t.tokens[key].session == Session(device, now + TOKEN_TTL)
  {
    hide Apply, Run, Issued, Presented;
    var a, b := [ChallengeCheck(r, device), ChallengeMint(r, key, now)], [AuthCheck(r + 1, device, key, true), AuthConsume(r + 1, now)];
    RunAppend(s, a + b, [AuthMint(r + 1, key, now)]);
    RunAppend(s, a, b);
    var s2 := GetsChallenge(s, device, r, key, now);
    var s4 := Answers(s2, device, r + 1, key, now);
    var s5 := GetsToken(s4, device, r + 1, key, now);
  }

  lemma GetsChallenge(s: State, device: Id, r: nat, key: string, now: int) returns (t: State)
    requires Registrable(s.registry, device) && r !in s.calls && !Issued(s.log, key) && !Presented(s.calls, key)
    ensures t == Run(s, [ChallengeCheck(r, device), ChallengeMint(r, key, now)])
    ensures t.registry == s.registry && s.log <= t.log && t.calls.Keys == s.calls.Keys + {r}
    ensures key in t.nonces && t.nonces[key] == Nonce(device, now + NONCE_TTL)
  {
    RunTwo(s, ChallengeCheck(r, device), ChallengeMint(r, key, now));
    var s1 := Apply(s, ChallengeCheck(r, device));
    assert !Presented(s1.calls, key);
    t := Apply(s1, ChallengeMint(r, key, now));
  }

  lemma Answers(s: State, device: Id, r: nat, key: string, now: int) returns (t: State)
    requires Registrable(s.registry, device) && r !in s.calls && key in s.nonces && s.nonces[key] == Nonce(device, now + NONCE_TTL)
    ensures t == Run(s, [AuthCheck(r, device, key, true), AuthConsume(r, now)])
    ensures t.registry == s.registry && s.log <= t.log && t.calls.Keys == s.calls.Keys + {r}
    ensures t.calls[r].Minting? && t.calls[r].device == device
  {
    RunTwo(s, AuthCheck(r, device, key, true), AuthConsume(r, now));
    t := Apply(Apply(s, AuthCheck(r, device, key, true)), AuthConsume(r, now));
  }

  lemma GetsToken(s: State, device: Id, r: nat, key: string, now: int) returns (t: State)
    requires r in s.calls && s.calls[r].Minting? && s.calls[r].device == device
    ensures t == Run(s, [AuthMint(r, key, now)])
    ensures t.registry == s.registry && s.log <= t.log && t.calls.Keys == s.calls.Keys
    ensures key in t.tokens && t.tokens[key].session == Session(device, now + TOKEN_TTL)
  {
    RunOne(s, AuthMint(r, key, now));
    t := Apply(s, AuthMint(r, key, now));
  }

  // Every known capability opens some call.
  function PurposeFor(capability: string): (m: Purpose)
    ensures KnownCapability(capability) ==> Needs(m) == capability
  {
    if capability == CAP_STATUS_READ then GetStatus
    else if capability == CAP_AGENT_ANSWER then SubmitAnswer
    else if capability == CAP_AGENT_COMMAND then SubmitCommand
    else GetDigest
  }

  lemma Presents(s: State, device: Id, tok: string, purpose: Purpose, r: nat, now: int)
    requires tok in s.tokens && s.tokens[tok].session == Session(device, now + TOKEN_TTL) && device != ""
    requires Permitted(s.registry, device, Needs(purpose)) && r !in s.calls
    ensures Run(s, [Resolve(r, tok, purpose, now), Allow(r)]).log == s.log + [Authorized(r, device, Needs(purpose), tok, now)]
  {
    hide Needs;
    RunTwo(s, Resolve(r, tok, purpose, now), Allow(r));
  }

  /** From a pending pairing: register, authenticate, be authorized, all at any one time. */
  lemma PendingReturns(s: State, device: Id, rpc: Rpc, now: int)
    requires rpc in s.calls && Pending(s.calls[rpc], device) && device != ""
    ensures CanReturn(s, device, now)
  {
    hide Apply, Run, Issued, Presented, Capable, Recognized, Permitted, Registrable, Needs, Login;
    var add := PairAdd(rpc, now, true);
    var s1 := Apply(s, add);
    var purpose := Registers(s, device, rpc, now);
    var r := AboveAll(s1.calls.Keys);
    var key := FreshKey(s1);
    var login := Login(device, r, key, now);
    Authenticates(s1, device, r, key, now);
    var s2 := Run(s1, login);
    var present := [Resolve(r + 2, key, purpose, now), Allow(r + 2)];
    Presents(s2, device, key, purpose, r + 2, now);
    RunOne(s, add);
    RunAppend(s, [add], login);
    RunAppend(s, [add] + login, present);
    var more := [add] + login + present;
    assert Run(s, more) == Run(s2, present);
    LoginIsTimely(device, r, key, now);
    assert From(more, now) && NoRedemption(more, device);
    assert Run(s, more).log[|s2.log|] == Authorized(r + 2, device, Needs(purpose), key, now);
  }

  lemma LoginIsTimely(device: Id, r: nat, key: string, now: int)
    ensures From(Login(device, r, key, now), now) && NoRedemption(Login(device, r, key, now), device)
  {
  }

  lemma Registers(s: State, device: Id, rpc: Rpc, now: int) returns (purpose: Purpose)
    requires rpc in s.calls && Pending(s.calls[rpc], device)
    ensures var t := Apply(s, PairAdd(rpc, now, true));
            Registrable(t.registry, device) && Permitted(t.registry, device, Needs(purpose)) && s.log <= t.log
  {
    hide Recognized;
    var capability := Recognized(Asked(s.calls[rpc].req))[0];
    purpose := PurposeFor(capability);
  }

  /**
   * Once tombstoned, a device can be authorized again without another redemption of a
   * window exactly when a pairing of it that asks for something recognized is in flight,
   * whatever time it has become.
   */
  lemma ReauthorizedIff(registry: map<Id, Device>, hasSource: bool, steps: seq<Step>, device: Id, now: int)
    requires Revoked(Run(Start(registry, hasSource), steps), device)
    ensures var s := Run(Start(registry, hasSource), steps);
            && (CanReturn(s, device, now) <==> PairingPending(s, device))
            && (PairingPending(s, device) <==> InFlight(s.log, |s.log|, device))
  {
    Reached(registry, hasSource, steps);
    var s := Run(Start(registry, hasSource), steps);
    PendingIsInFlight(s, device);
    ReturnIff(s, device, now);
  }

  lemma ReturnIff(s: State, device: Id, now: int)
    requires Inv(s) && Revoked(s, device)
    ensures CanReturn(s, device, now) <==> PairingPending(s, device)
  {
    hide Run, Capable, From;
    if PairingPending(s, device) {
      var rpc :| rpc in s.calls && Pending(s.calls[rpc], device);
      assert CallOk(s.log, rpc, s.calls[rpc]);
      PendingReturns(s, device, rpc, now);
    } else if CanReturn(s, device, now) {
      var more :| From(more, now) && NoRedemption(more, device) && AuthorizedSince(s, Run(s, more), device);
      QuietRun(s, more, device);
    }
  }

  /** At the moment of any revocation: it can be undone that way iff a pairing was in flight. */
  lemma RevocationUndoneIff(registry: map<Id, Device>, hasSource: bool, steps: seq<Step>,
                            rpc: Rpc, device: Id, now: int, persisted: bool)
    requires Enabled(Run(Start(registry, hasSource), steps), Revoke(rpc, device, now, persisted))
    ensures var s := Run(Start(registry, hasSource), steps);
            CanReturn(Apply(s, Revoke(rpc, device, now, persisted)), device, now) <==> InFlight(s.log, |s.log|, device)
  {
    Reached(registry, hasSource, steps);
    var s := Run(Start(registry, hasSource), steps);
    var t := Apply(s, Revoke(rpc, device, now, persisted));
    StepKeepsInv(s, Revoke(rpc, device, now, persisted));
    PendingIsInFlight(s, device);
    ReturnIff(t, device, now);
    SamePending(s, rpc, device, now, persisted);
  }

  lemma SamePending(s: State, rpc: Rpc, device: Id, now: int, persisted: bool)
    requires Enabled(s, Revoke(rpc, device, now, persisted))
    ensures var t := Apply(s, Revoke(rpc, device, now, persisted));
            Revoked(t, device) && (PairingPending(t, device) <==> PairingPending(s, device))
  {
    hide Capable;
    var t := Apply(s, Revoke(rpc, device, now, persisted));
    assert forall r :: r in s.calls ==> t.calls[r] == s.calls[r];
  }
}
