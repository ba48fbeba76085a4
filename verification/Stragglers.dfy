/**
 * Sessions and streams a device gets hold of after its revocation, through calls that were
 * past their registry check before it: which calls those are, exactly.
 */
module Stragglers {
  import opened Stores
  import opened Host
  import opened HostProofs
  import opened Revocation

  /** Between s and e the device was not registered again. */
  ghost predicate NoReturn(s: State, e: State, device: Id) {
    forall k :: |s.log| <= k < |e.log| && e.log[k].Registered? ==> e.log[k].device != device
  }

  ghost predicate StreamFrom(n: nat, e: State, device: Id) {
    || (exists x :: x in e.status && e.status[x].device == device && n <= e.status[x].since)
    || (exists x :: x in e.panes && e.panes[x].device == device && n <= e.panes[x].since)
  }

  ghost predicate TokenFrom(n: nat, e: State, device: Id) {
    exists t :: t in e.tokens && e.tokens[t].session.deviceID == device && n <= e.tokens[t].minted
  }

  /**
   * The run can go on from that time, the device not registered again, until it holds a new
   * stream, or a new token.
   */
  ghost predicate CanStream(s: State, device: Id, now: int) {
    exists more :: From(more, now) && NoReturn(s, Run(s, more), device) && StreamFrom(|s.log|, Run(s, more), device)
  }

  ghost predicate CanToken(s: State, device: Id, now: int) {
    exists more :: From(more, now) && NoReturn(s, Run(s, more), device) && TokenFrom(|s.log|, Run(s, more), device)
  }

  // ----- the calls that matter

  // Past authorize, in a call that goes on to subscribe.
  predicate IsStreaming(c: Call, device: Id, hasSource: bool) {
    c.Admitted? && c.device == device && Subscribes(c.purpose, hasSource)
  }

  ghost predicate StreamingCall(s: State, device: Id) {
    exists rpc :: rpc in s.calls && IsStreaming(s.calls[rpc], device, s.hasSource)
  }

  // The call can still mint: it has consumed its challenge, or it answers, rightly signed,
  // one that is unspent, unexpired and the device's.
  predicate CallMints(s: State, c: Call, device: Id, now: int) {
    || (c.Minting? && c.device == device)
    || (c.Answering? && c.device == device && c.signed && NonceLive(s.nonces, c.key, device, now))
  }

  ghost predicate MintingCall(s: State, device: Id, now: int) {
    exists rpc :: rpc in s.calls && CallMints(s, s.calls[rpc], device, now)
  }

  // ----- streams

  ghost predicate NoNewStream(n: nat, s: State, device: Id) {
    Revoked(s, device) && !StreamingCall(s, device) && !StreamFrom(n, s, device)
  }

  lemma NoNewStreamStep(n: nat, s: State, step: Step, device: Id)
    requires NoNewStream(n, s, device) && NoReturn(s, Apply(s, step), device)
    ensures NoNewStream(n, Apply(s, step), device)
  {
    hide NextRegistry, NextTokens, NextNonces, NextWindow, NextCalls, Revoked, StreamingCall;
    StaysRevoked(s, step, device);
    NoNewAdmission(s, step, device);
    if step.Watch? && Enabled(s, step) {
      NotStreaming(s, step, device);
    }
    var t := Apply(s, step);
    assert forall x :: x in t.status && t.status[x].device == device ==> x in s.status && t.status[x] == s.status[x];
    assert forall x :: x in t.panes && t.panes[x].device == device ==> x in s.panes && t.panes[x] == s.panes[x];
  }

  lemma NotStreaming(s: State, step: Step, device: Id)
    requires !StreamingCall(s, device) && step.Watch? && Enabled(s, step)
    ensures s.calls[step.rpc].device != device
  {
    assert !IsStreaming(s.calls[step.rpc], device, s.hasSource);
  }

  lemma StaysRevoked(s: State, step: Step, device: Id)
    requires Revoked(s, device) && NoReturn(s, Apply(s, step), device)
    ensures Revoked(Apply(s, step), device)
  {
    var t := Apply(s, step);
    assert step.PairAdd? && Enabled(s, step) && t.log[|s.log|].Registered? ==> t.log[|s.log|].device != device;
  }

  lemma NoNewAdmission(s: State, step: Step, device: Id)
    requires Revoked(s, device) && !StreamingCall(s, device)
    ensures !StreamingCall(Apply(s, step), device)
  {
    var t := Apply(s, step);
    forall rpc | rpc in t.calls ensures !IsStreaming(t.calls[rpc], device, t.hasSource) {
      assert rpc in s.calls ==> !IsStreaming(s.calls[rpc], device, s.hasSource);
    }
  }

  lemma NoReturnSplits(s: State, t: State, e: State, device: Id)
    requires s.log <= t.log <= e.log
    ensures NoReturn(s, e, device) <==> NoReturn(s, t, device) && NoReturn(t, e, device)
  {
    assert forall k :: |s.log| <= k < |t.log| ==> t.log[k] == e.log[k];
    if NoReturn(s, t, device) && NoReturn(t, e, device) {
      forall k | |s.log| <= k < |e.log| && e.log[k].Registered? ensures e.log[k].device != device {
        if k < |t.log| {
          assert t.log[k] == e.log[k];
        }
      }
    }
  }

  lemma {:induction false} NoNewStreamRun(n: nat, s: State, more: seq<Step>, device: Id)
    requires NoNewStream(n, s, device) && NoReturn(s, Run(s, more), device)
    ensures !StreamFrom(n, Run(s, more), device)
    decreases |more|
  {
    hide Apply, NoReturn, StreamFrom, Revoked, StreamingCall;
    if more != [] {
      var t := Apply(s, more[0]);
      StepGrows(s, more[0]);
      LogGrows(t, more[1..]);
      NoReturnSplits(s, t, Run(s, more), device);
      NoNewStreamStep(n, s, more[0], device);
      NoNewStreamRun(n, t, more[1..], device);
    }
  }

  lemma NothingFromTheFuture(s: State, device: Id)
    requires Inv(s)
    ensures !StreamFrom(|s.log|, s, device) && !TokenFrom(|s.log|, s, device)
  {
    assert forall x :: x in s.status ==> LiveOk(s.log, x, s.status[x], CAP_STATUS_READ);
    assert forall x :: x in s.panes ==> LiveOk(s.log, x, s.panes[x], CAP_SESSION_READ);
    assert forall t :: t in s.tokens ==> TokenOk(s.log, t, s.tokens[t]);
  }

  lemma StreamingStreams(s: State, device: Id, now: int)
    requires StreamingCall(s, device)
    ensures CanStream(s, device, now)
  {
    var rpc :| rpc in s.calls && IsStreaming(s.calls[rpc], device, s.hasSource);
    var x := AboveAll(s.status.Keys + s.panes.Keys);
    assert x !in s.status && x !in s.panes;
    var more := [Watch(rpc, x)];
    RunOne(s, Watch(rpc, x));
    var e := Run(s, more);
    if s.calls[rpc].purpose.WatchPane? {
      assert x in e.panes && e.panes[x].device == device && |s.log| <= e.panes[x].since;
    } else {
      assert x in e.status && e.status[x].device == device && |s.log| <= e.status[x].since;
    }
    assert From(more, now) && NoReturn(s, e, device);
  }

  lemma StreamIff(s: State, device: Id, now: int)
    requires Inv(s) && Revoked(s, device)
    ensures CanStream(s, device, now) <==> StreamingCall(s, device)
  {
    hide Run, NoReturn, StreamFrom, From, StreamingCall, Revoked, Inv;
    NothingFromTheFuture(s, device);
    if StreamingCall(s, device) {
      StreamingStreams(s, device, now);
    } else if CanStream(s, device, now) {
      var more :| From(more, now) && NoReturn(s, Run(s, more), device) && StreamFrom(|s.log|, Run(s, more), device);
      NoNewStreamRun(|s.log|, s, more, device);
    }
  }

  // ----- tokens

  ghost predicate NoNewToken(n: nat, s: State, device: Id, now: int) {
    Revoked(s, device) && !MintingCall(s, device, now) && !TokenFrom(n, s, device)
  }

  // No call that answers a challenge finds it newly issued, or gets past its check newly.
  lemma NoNewMinting(s: State, step: Step, device: Id, now: int, rpc: Rpc)
    requires Revoked(s, device) && NotBefore(step, now) && rpc in Apply(s, step).calls
    requires CallMints(Apply(s, step), Apply(s, step).calls[rpc], device, now)
    ensures MintingCall(s, device, now)
  {
    var t := Apply(s, step);
    assert rpc in s.calls;
    assert CallMints(s, s.calls[rpc], device, now) by {
      if step.ChallengeMint? && Enabled(s, step) && t.calls[rpc].Answering? {
        assert s.calls[rpc] == t.calls[rpc];
        assert t.calls[rpc].key != step.key;
      }
    }
  }

  lemma MintingWas(s: State, step: Step, device: Id, now: int)
    requires Revoked(s, device) && NotBefore(step, now) && MintingCall(Apply(s, step), device, now)
    ensures MintingCall(s, device, now)
  {
    hide Apply, CallMints, NotBefore;
    var t := Apply(s, step);
    var rpc :| rpc in t.calls && CallMints(t, t.calls[rpc], device, now);
    NoNewMinting(s, step, device, now, rpc);
  }

  lemma NoTokenMinted(n: nat, s: State, step: Step, device: Id, now: int)
    requires !MintingCall(s, device, now) && !TokenFrom(n, s, device)
    ensures !TokenFrom(n, Apply(s, step), device)
  {
    var t := Apply(s, step);
    assert step.AuthMint? && Enabled(s, step) ==> !CallMints(s, s.calls[step.rpc], device, now);
    assert forall k :: k in t.tokens && t.tokens[k].session.deviceID == device ==> k in s.tokens && t.tokens[k] == s.tokens[k];
  }

  lemma NoNewTokenStep(n: nat, s: State, step: Step, device: Id, now: int)
    requires NoNewToken(n, s, device, now) && NotBefore(step, now) && NoReturn(s, Apply(s, step), device)
    ensures NoNewToken(n, Apply(s, step), device, now)
  {
    hide MintingCall, Apply, NotBefore, TokenFrom, NoReturn;
    StaysRevoked(s, step, device);
    if MintingCall(Apply(s, step), device, now) {
      MintingWas(s, step, device, now);
    }
    NoTokenMinted(n, s, step, device, now);
  }

  lemma {:induction false} NoNewTokenRun(n: nat, s: State, more: seq<Step>, device: Id, now: int)
    requires NoNewToken(n, s, device, now) && From(more, now) && NoReturn(s, Run(s, more), device)
    ensures !TokenFrom(n, Run(s, more), device)
    decreases |more|
  {
    hide Apply, NoReturn, TokenFrom, Revoked, MintingCall, NotBefore;
    if more != [] {
      var t := Apply(s, more[0]);
      StepGrows(s, more[0]);
      LogGrows(t, more[1..]);
      NoReturnSplits(s, t, Run(s, more), device);
      NoNewTokenStep(n, s, more[0], device, now);
      NoNewTokenRun(n, t, more[1..], device, now);
    }
  }

  lemma MintNow(s: State, rpc: Rpc, device: Id, now: int)
    requires rpc in s.calls && s.calls[rpc].Minting? && s.calls[rpc].device == device
    ensures var e := Apply(s, AuthMint(rpc, "t", now));
            TokenFrom(|s.log|, e, device) && NoReturn(s, e, device) && s.log <= e.log
  {
    var e := Apply(s, AuthMint(rpc, "t", now));
    assert "t" in e.tokens && e.tokens["t"].session.deviceID == device && |s.log| <= e.tokens["t"].minted;
  }

  lemma ConsumeNow(s: State, rpc: Rpc, device: Id, now: int)
    requires rpc in s.calls && s.calls[rpc].Answering? && CallMints(s, s.calls[rpc], device, now)
    ensures var t := Apply(s, AuthConsume(rpc, now));
            && rpc in t.calls && t.calls[rpc].Minting? && t.calls[rpc].device == device
            && NoReturn(s, t, device) && s.log <= t.log
  {
  }

  lemma FromLater(s: State, t: State, e: State, device: Id)
    requires s.log <= t.log && TokenFrom(|t.log|, e, device)
    ensures TokenFrom(|s.log|, e, device)
  {
    var k :| k in e.tokens && e.tokens[k].session.deviceID == device && |t.log| <= e.tokens[k].minted;
    assert |s.log| <= e.tokens[k].minted;
  }

  lemma MintingTokens(s: State, rpc: Rpc, device: Id, now: int)
    requires rpc in s.calls && CallMints(s, s.calls[rpc], device, now)
    ensures CanToken(s, device, now)
  {
    hide Apply, NoReturn, TokenFrom;
    var mint := AuthMint(rpc, "t", now);
    if s.calls[rpc].Minting? {
      MintNow(s, rpc, device, now);
      RunOne(s, mint);
      assert From([mint], now);
    } else {
      var consume := AuthConsume(rpc, now);
      ConsumeNow(s, rpc, device, now);
      var t := Apply(s, consume);
      MintNow(t, rpc, device, now);
      RunTwo(s, consume, mint);
      NoReturnSplits(s, t, Apply(t, mint), device);
      FromLater(s, t, Apply(t, mint), device);
      assert From([consume, mint], now);
    }
  }

  lemma TokenIff(s: State, device: Id, now: int)
    requires Inv(s) && Revoked(s, device)
    ensures CanToken(s, device, now) <==> MintingCall(s, device, now)
  {
    hide Run, NoReturn, TokenFrom, CallMints, Inv, Revoked, From;
    NothingFromTheFuture(s, device);
    if MintingCall(s, device, now) {
      var rpc :| rpc in s.calls && CallMints(s, s.calls[rpc], device, now);
      MintingTokens(s, rpc, device, now);
    } else if CanToken(s, device, now) {
      var more :| From(more, now) && NoReturn(s, Run(s, more), device) && TokenFrom(|s.log|, Run(s, more), device);
      NoNewTokenRun(|s.log|, s, more, device, now);
    }
  }

  // ----- at a revocation

  /** A revocation that persisted, with its three drops straight after it. */
  function RevokedAndDropped(s: State, rpc: Rpc, device: Id, now: int): State {
    Run(s, [Revoke(rpc, device, now, true), DropNext(rpc)] + [DropNext(rpc), DropNext(rpc)])
  }

  predicate HoldsNothing(s: State, device: Id) {
    && (forall t :: t in s.tokens ==> s.tokens[t].session.deviceID != device)
    && (forall x :: x in s.status ==> s.status[x].device != device)
    && (forall x :: x in s.panes ==> s.panes[x].device != device)
  }

  lemma TokensGo(s: State, rpc: Rpc, device: Id, now: int)
    requires Enabled(s, Revoke(rpc, device, now, true))
    ensures var t := Run(s, [Revoke(rpc, device, now, true), DropNext(rpc)]);
            && Revoked(t, device) && (forall k :: k in t.tokens ==> t.tokens[k].session.deviceID != device)
            && t.nonces == s.nonces && t.calls == s.calls[rpc := Dropping(device, 1)] && t.hasSource == s.hasSource
  {
    var revoke := Revoke(rpc, device, now, true);
    RunTwo(s, revoke, DropNext(rpc));
    assert Apply(s, revoke).calls == s.calls[rpc := Dropping(device, 0)];
  }

  lemma StreamsGo(s: State, rpc: Rpc, device: Id)
    requires rpc in s.calls && s.calls[rpc] == Dropping(device, 1) && Revoked(s, device)
    requires forall k :: k in s.tokens ==> s.tokens[k].session.deviceID != device
    ensures var t := Run(s, [DropNext(rpc), DropNext(rpc)]);
            && Revoked(t, device) && HoldsNothing(t, device)
            && t.nonces == s.nonces && t.calls == s.calls[rpc := Done] && t.hasSource == s.hasSource
  {
    RunTwo(s, DropNext(rpc), DropNext(rpc));
    assert Apply(s, DropNext(rpc)).calls == s.calls[rpc := Dropping(device, 2)];
  }

  lemma AfterTheDrops(s: State, rpc: Rpc, device: Id, now: int)
    requires Enabled(s, Revoke(rpc, device, now, true))
    ensures var t := RevokedAndDropped(s, rpc, device, now);
            && Revoked(t, device) && HoldsNothing(t, device)
            && t.nonces == s.nonces && t.calls == s.calls[rpc := Done] && t.hasSource == s.hasSource
  {
    hide Apply, Run, Revoked, HoldsNothing;
    RunAppend(s, [Revoke(rpc, device, now, true), DropNext(rpc)], [DropNext(rpc), DropNext(rpc)]);
    TokensGo(s, rpc, device, now);
    StreamsGo(Run(s, [Revoke(rpc, device, now, true), DropNext(rpc)]), rpc, device);
  }

  /**
   * Right after a whole revocation the device holds nothing. It can then come to hold a
   * live stream, tombstoned as it is, exactly when a WatchStatus or WatchPane call of it was
   * past authorize at the revocation, with nothing but the subscription left to do; and a
   * token exactly when a call could still mint it one.
   */
  lemma StragglersIff(registry: map<Id, Device>, hasSource: bool, steps: seq<Step>, rpc: Rpc, device: Id, now: int)
    requires Enabled(Run(Start(registry, hasSource), steps), Revoke(rpc, device, now, true))
    ensures var s := Run(Start(registry, hasSource), steps);
            var t := RevokedAndDropped(s, rpc, device, now);
            && Revoked(t, device) && HoldsNothing(t, device)
            && (CanStream(t, device, now) <==> StreamingCall(s, device))
            && (CanToken(t, device, now) <==> MintingCall(s, device, now))
  {
    hide *;
    Reached(registry, hasSource, steps);
    StragglersAfter(Run(Start(registry, hasSource), steps), rpc, device, now);
  }

  lemma StragglersAfter(s: State, rpc: Rpc, device: Id, now: int)
    requires Inv(s) && Enabled(s, Revoke(rpc, device, now, true))
    ensures var t := RevokedAndDropped(s, rpc, device, now);
            && Revoked(t, device) && HoldsNothing(t, device)
            && (CanStream(t, device, now) <==> StreamingCall(s, device))
            && (CanToken(t, device, now) <==> MintingCall(s, device, now))
  {
    hide Revoked, HoldsNothing, StreamingCall, MintingCall, CanStream, CanToken, Inv, Run;
    var t := RevokedAndDropped(s, rpc, device, now);
    AfterTheDrops(s, rpc, device, now);
    RunKeepsInv(s, [Revoke(rpc, device, now, true), DropNext(rpc)] + [DropNext(rpc), DropNext(rpc)]);
    StreamIff(t, device, now);
    TokenIff(t, device, now);
    SameCalls(s, t, rpc, device, now);
  }

  lemma SameCalls(s: State, t: State, rpc: Rpc, device: Id, now: int)
    requires rpc !in s.calls && t.calls == s.calls[rpc := Done] && t.nonces == s.nonces && t.hasSource == s.hasSource
    ensures StreamingCall(t, device) <==> StreamingCall(s, device)
    ensures MintingCall(t, device, now) <==> MintingCall(s, device, now)
  {
    assert forall r :: r in s.calls ==> t.calls[r] == s.calls[r];
    assert forall r :: r in s.calls ==> (CallMints(t, t.calls[r], device, now) <==> CallMints(s, s.calls[r], device, now));
  }

  // A drop of each kind from the device has run since.
  ghost predicate AllDroppedSince(s: State, e: State, device: Id) {
    exists i, j, k :: |s.log| <= i < |e.log| && |s.log| <= j < |e.log| && |s.log| <= k < |e.log|
      && e.log[i].TokensDropped? && e.log[i].device == device
      && e.log[j].StatusDropped? && e.log[j].device == device
      && e.log[k].PanesDropped? && e.log[k].device == device
  }

  /**
   * The same with anything interleaved: from any moment the device is tombstoned, once
   * each drop has run and until it is registered again, it holds no stream unless such a
   * call was past authorize then, and no token unless a call could then still mint it one.
   */
  lemma RevocationClears(registry: map<Id, Device>, hasSource: bool, steps: seq<Step>, more: seq<Step>, device: Id, now: int)
    requires var s := Run(Start(registry, hasSource), steps);
             Revoked(s, device) && NoReturn(s, Run(s, more), device) && AllDroppedSince(s, Run(s, more), device)
    ensures var s := Run(Start(registry, hasSource), steps);
            var e := Run(s, more);
            && (!StreamingCall(s, device) ==>
                  && (forall x :: x in e.status ==> e.status[x].device != device)
                  && (forall x :: x in e.panes ==> e.panes[x].device != device))
            && (From(more, now) && !MintingCall(s, device, now) ==>
                  forall t :: t in e.tokens ==> e.tokens[t].session.deviceID != device)
  {
    hide Run, Revoked, NoReturn, StreamingCall, MintingCall, Inv, From;
    Reached(registry, hasSource, steps);
    var s := Run(Start(registry, hasSource), steps);
    var e := Run(s, more);
    NothingFromTheFuture(s, device);
    RunKeepsInv(s, more);
    OnlyNewer(s, e, device);
    if !StreamingCall(s, device) {
      NoNewStreamRun(|s.log|, s, more, device);
    }
    if From(more, now) && !MintingCall(s, device, now) {
      NoNewTokenRun(|s.log|, s, more, device, now);
    }
  }

  lemma OnlyNewer(s: State, e: State, device: Id)
    requires Inv(e) && AllDroppedSince(s, e, device)
    ensures forall t :: t in e.tokens && e.tokens[t].session.deviceID == device ==> |s.log| <= e.tokens[t].minted
    ensures forall x :: x in e.status && e.status[x].device == device ==> |s.log| <= e.status[x].since
    ensures forall x :: x in e.panes && e.panes[x].device == device ==> |s.log| <= e.panes[x].since
  {
    InvParts(e);
    hide Inv;
    assert HeldSinceDrop(e);
  }
}
