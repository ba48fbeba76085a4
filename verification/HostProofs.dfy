/** What every interleaving of the host's steps keeps, and what its log therefore shows. */
module HostProofs {
  import opened Stores
  import opened Host

  // ----- positions in the log

  /** What sets a call on its drops: a tombstone or a registration that persisted. */
  predicate Causes(e: Event, rpc: Rpc, device: Id) {
    e == Tombstoned(rpc, device, true) || e == Registered(rpc, device, true)
  }

  ghost predicate CausedBefore(log: seq<Event>, j: nat, rpc: Rpc, device: Id)
    requires j <= |log|
  {
    exists i :: 0 <= i < j && Causes(log[i], rpc, device)
  }

  lemma CausedStays(log: seq<Event>, log': seq<Event>, j: nat, j': nat, rpc: Rpc, device: Id)
    requires log <= log' && j <= |log| && j <= j' <= |log'| && CausedBefore(log, j, rpc, device)
    ensures CausedBefore(log', j', rpc, device)
  {
    var i :| 0 <= i < j && Causes(log[i], rpc, device);
    assert log'[i] == log[i];
  }

  ghost predicate CallOk(log: seq<Event>, rpc: Rpc, c: Call) {
    match c
    case Pairing(req, redeemed) => 
      && redeemed < |log| && log[redeemed].Redeemed? && log[redeemed].rpc == rpc && log[redeemed].req == req
      && log[redeemed].device == req.id && log[redeemed].capable == Capable(req) && req.id != ""
    case Dropping(device, next) => next <= 2 && CausedBefore(log, |log|, rpc, device)
    case Challenging(device) => true
    case Answering(device, key, signed, passed) => 
      passed < |log| && log[passed] == AuthPassed(rpc, device, key, signed)
    case Minting(device, key, passed, consumed) =>
      && passed < consumed < |log| && log[passed] == AuthPassed(rpc, device, key, true)
      && log[consumed].Consumed? && log[consumed].rpc == rpc && log[consumed].key == key
      && log[consumed].device == device && log[consumed].good
    case Resolved(device, purpose, tok, at, minted) =>
      && minted < |log| && log[minted].Minted? && log[minted].tok == tok && log[minted].device == device
      && at < log[minted].at + TOKEN_TTL && device != ""
    case Admitted(device, purpose, authorized) =>
      && authorized < |log| && log[authorized].Authorized? && log[authorized].device == device
      && log[authorized].capability == Needs(purpose)
    case Done => true
  }

  ghost predicate TokenOk(log: seq<Event>, tok: string, t: Token) {
    && t.passed < t.minted < |log|
    && log[t.minted].Minted? && log[t.minted].tok == tok && log[t.minted].device == t.session.deviceID
    && t.session.expires == log[t.minted].at + TOKEN_TTL
    && log[t.passed] == AuthPassed(log[t.minted].rpc, t.session.deviceID, log[t.minted].key, true)
  }

  ghost predicate LiveOk(log: seq<Event>, stream: Stream, x: Live, capability: string) {
    && x.authorized < x.since < |log|
    && log[x.since] == Subscribed(stream, x.device)
    && log[x.authorized].Authorized? && log[x.authorized].device == x.device && log[x.authorized].capability == capability
  }

  ghost predicate CallsOk(s: State) {
    forall rpc :: rpc in s.calls ==> CallOk(s.log, rpc, s.calls[rpc])
  }

  ghost predicate TokensOk(s: State) {
    forall t :: t in s.tokens ==> TokenOk(s.log, t, s.tokens[t])
  }

  ghost predicate StreamsOk(log: seq<Event>, streams: map<Stream, Live>, capability: string) {
    forall x :: x in streams ==> LiveOk(log, x, streams[x], capability)
  }

  lemma CallStays(log: seq<Event>, log': seq<Event>, rpc: Rpc, c: Call)
    requires CallOk(log, rpc, c) && log <= log'
    ensures CallOk(log', rpc, c)
  {
    if c.Dropping? {
      CausedStays(log, log', |log|, |log'|, rpc, c.device);
    }
  }

  lemma OwnCallOk(s: State, step: Step)
    requires CallsOk(s) && TokensOk(s) && Enabled(s, step) && OfACall(step)
    ensures CallOk(s.log + Emits(s, step), step.rpc, NextCall(s, step))
  {
    if step.rpc in s.calls {
      assert CallOk(s.log, step.rpc, s.calls[step.rpc]);
    }
    var log := s.log + Emits(s, step);
    if step.Resolve? {
      assert TokenOk(s.log, step.tok, s.tokens[step.tok]);
    } else if step.DropNext? {
      CausedStays(s.log, log, |s.log|, |log|, step.rpc, s.calls[step.rpc].device);
    } else if NextCall(s, step).Dropping? {
      assert Causes(log[|s.log|], step.rpc, NextCall(s, step).device);
    }
  }

  lemma CallsKept(s: State, step: Step)
    requires CallsOk(s) && TokensOk(s)
    ensures CallsOk(Apply(s, step))
  {
    hide CallOk, NextCall, Emits, Enabled, NextTokens, NextRegistry;
    var t := Apply(s, step);
    forall rpc | rpc in t.calls ensures CallOk(t.log, rpc, t.calls[rpc]) {
      if Enabled(s, step) && OfACall(step) && rpc == step.rpc {
        OwnCallOk(s, step);
      } else {
        CallStays(s.log, t.log, rpc, s.calls[rpc]);
      }
    }
  }

  lemma TokensKept(s: State, step: Step)
    requires CallsOk(s) && TokensOk(s)
    ensures TokensOk(Apply(s, step))
  {
    var t := Apply(s, step);
    forall tok | tok in t.tokens ensures TokenOk(t.log, tok, t.tokens[tok]) {
      if tok in s.tokens && s.tokens[tok] == t.tokens[tok] {
        assert TokenOk(s.log, tok, s.tokens[tok]);
      } else {
        assert step.AuthMint?;
        assert CallOk(s.log, step.rpc, s.calls[step.rpc]);
      }
    }
  }

  lemma LiveStays(log: seq<Event>, log': seq<Event>, stream: Stream, x: Live, capability: string)
    requires LiveOk(log, stream, x, capability) && log <= log'
    ensures LiveOk(log', stream, x, capability)
  {
  }

  lemma NewLiveOk(s: State, rpc: Rpc, stream: Stream)
    requires CallsOk(s) && Enabled(s, Watch(rpc, stream))
    ensures var c := s.calls[rpc];
            LiveOk(Apply(s, Watch(rpc, stream)).log, stream, Live(c.device, |s.log|, c.authorized), Needs(c.purpose))
  {
    assert CallOk(s.log, rpc, s.calls[rpc]);
  }

  lemma StatusStreamsKept(s: State, step: Step)
    requires CallsOk(s) && StreamsOk(s.log, s.status, CAP_STATUS_READ)
    ensures StreamsOk(Apply(s, step).log, Apply(s, step).status, CAP_STATUS_READ)
  {
    hide NextRegistry, NextTokens, NextNonces, NextWindow, NextCalls, NextPanes, LiveOk, CallsOk, Emits;
    var t := Apply(s, step);
    forall x | x in t.status ensures LiveOk(t.log, x, t.status[x], CAP_STATUS_READ) {
      if x in s.status && s.status[x] == t.status[x] {
        LiveStays(s.log, t.log, x, s.status[x], CAP_STATUS_READ);
      } else {
        NewLiveOk(s, step.rpc, x);
      }
    }
  }

  lemma PaneStreamsKept(s: State, step: Step)
    requires CallsOk(s) && StreamsOk(s.log, s.panes, CAP_SESSION_READ)
    ensures StreamsOk(Apply(s, step).log, Apply(s, step).panes, CAP_SESSION_READ)
  {
    hide NextRegistry, NextTokens, NextNonces, NextWindow, NextCalls, NextStatus, LiveOk, CallsOk, Emits;
    var t := Apply(s, step);
    forall x | x in t.panes ensures LiveOk(t.log, x, t.panes[x], CAP_SESSION_READ) {
      if x in s.panes && s.panes[x] == t.panes[x] {
        LiveStays(s.log, t.log, x, s.panes[x], CAP_SESSION_READ);
      } else {
        NewLiveOk(s, step.rpc, x);
      }
    }
  }

  // ----- what each event rests on

  // A redemption by this call, for this device, that can end in a registration.
  predicate RedeemedFor(e: Event, rpc: Rpc, device: Id) {
    e.Redeemed? && e.rpc == rpc && e.device == device && e.capable
  }

  // The window with this secret, opened at i, is the latest and not yet redeemed by j.
  ghost predicate OpenFrom(log: seq<Event>, i: int, j: int, secret: string) {
    && 0 <= i < j <= |log| && log[i].Opened? && log[i].secret == secret
    && forall k :: i < k < j ==> !log[k].Opened? && !log[k].Redeemed?
  }

  ghost predicate WindowBefore(log: seq<Event>, j: nat, secret: string, at: int)
    requires j <= |log|
  {
    exists i :: OpenFrom(log, i, j, secret) && at < log[i].at + WINDOW_TTL
  }

  ghost predicate RedeemedBefore(log: seq<Event>, j: nat, rpc: Rpc, device: Id)
    requires j <= |log|
  {
    exists m :: 0 <= m < j && RedeemedFor(log[m], rpc, device)
  }

  ghost predicate IssuedBefore(log: seq<Event>, j: nat, key: string, device: Id, at: int, good: bool)
    requires j <= |log|
  {
    exists i :: 0 <= i < j && log[i].Challenged? && log[i].key == key
                && (good ==> log[i].device == device && at < log[i].at + NONCE_TTL)
  }

  ghost predicate AnsweredBefore(log: seq<Event>, j: nat, rpc: Rpc, device: Id, key: string)
    requires j <= |log|
  {
    exists p, c :: 0 <= p < c < j && log[p] == AuthPassed(rpc, device, key, true)
                   && log[c].Consumed? && log[c].rpc == rpc && log[c].key == key && log[c].device == device && log[c].good
  }

  ghost predicate MintedBefore(log: seq<Event>, j: nat, tok: string, device: Id, at: int)
    requires j <= |log|
  {
    exists m :: 0 <= m < j && log[m].Minted? && log[m].tok == tok && log[m].device == device && at < log[m].at + TOKEN_TTL
  }

  ghost predicate EventOk(log: seq<Event>, j: nat)
    requires j < |log|
  {
    match log[j]
    case Redeemed(rpc, device, capable, req, at) =>
      && device == req.id && capable == Capable(req) && Wellformed(req) && WindowBefore(log, j, req.secret, at)
    case Registered(rpc, device, _) => RedeemedBefore(log, j, rpc, device)
    case Consumed(rpc, key, device, at, good) => IssuedBefore(log, j, key, device, at, good)
    case Minted(rpc, tok, device, key, at) => AnsweredBefore(log, j, rpc, device, key)
    case Authorized(rpc, device, capability, tok, at) => device != "" && MintedBefore(log, j, tok, device, at)
    case TokensDropped(rpc, device) => CausedBefore(log, j, rpc, device)
    case StatusDropped(rpc, device) => CausedBefore(log, j, rpc, device)
    case PanesDropped(rpc, device) => CausedBefore(log, j, rpc, device)
    case _ => true
  }

  ghost predicate EventsOk(log: seq<Event>) {
    forall j :: 0 <= j < |log| ==> EventOk(log, j)
  }

  lemma EventStays(log: seq<Event>, log': seq<Event>, j: nat)
    requires log <= log' && j < |log| && EventOk(log, j)
    ensures EventOk(log', j)
  {
    match log[j]
    case Redeemed(_, _, _, req, at) =>
      var i :| OpenFrom(log, i, j, req.secret) && at < log[i].at + WINDOW_TTL;
      assert OpenFrom(log', i, j, req.secret);
    case Registered(rpc, device, _) =>
      var m :| 0 <= m < j && RedeemedFor(log[m], rpc, device);
      assert log'[m] == log[m];
    case Consumed(rpc, key, device, at, good) =>
      var i :| 0 <= i < j && log[i].Challenged? && log[i].key == key
               && (good ==> log[i].device == device && at < log[i].at + NONCE_TTL);
      assert log'[i] == log[i];
    case Minted(rpc, tok, device, key, at) =>
      var p, c :| 0 <= p < c < j && log[p] == AuthPassed(rpc, device, key, true)
                  && log[c].Consumed? && log[c].rpc == rpc && log[c].key == key && log[c].device == device && log[c].good;
      assert log'[p] == log[p] && log'[c] == log[c];
    case Authorized(rpc, device, capability, tok, at) =>
      var m :| 0 <= m < j && log[m].Minted? && log[m].tok == tok && log[m].device == device && at < log[m].at + TOKEN_TTL;
      assert log'[m] == log[m];
    case TokensDropped(rpc, device) => CausedStays(log, log', j, j, rpc, device);
    case StatusDropped(rpc, device) => CausedStays(log, log', j, j, rpc, device);
    case PanesDropped(rpc, device) => CausedStays(log, log', j, j, rpc, device);
    case _ =>
  }

  // An unspent challenge was issued to its device a TTL before it expires, and is unspent.
  ghost predicate NoncesIssued(s: State) {
    forall k :: k in s.nonces ==> IssuedAs(s.log, k, s.nonces[k])
  }

  ghost predicate SpentIsGone(s: State) {
    forall j :: 0 <= j < |s.log| && s.log[j].Consumed? ==> s.log[j].key !in s.nonces
  }

  ghost predicate IssuedAs(log: seq<Event>, key: string, n: Nonce) {
    exists i :: 0 <= i < |log| && log[i] == Challenged(key, n.deviceID, n.expires - NONCE_TTL)
  }

  // An open window was opened two minutes before it expires, and is the latest.
  ghost predicate WindowOpened(s: State) {
    s.window.secret != "" ==>
      exists i :: OpenFrom(s.log, i, |s.log|, s.window.secret) && s.window.expires == s.log[i].at + WINDOW_TTL
  }

  lemma WindowOpenedKept(s: State, step: Step)
    requires WindowOpened(s)
    ensures WindowOpened(Apply(s, step))
  {
    hide NextRegistry, NextTokens, NextNonces, NextStatus, NextPanes, NextCalls;
    var t := Apply(s, step);
    if t.window.secret != "" {
      if step.OpenWindow? && Enabled(s, step) {
        assert OpenFrom(t.log, |s.log|, |t.log|, step.secret);
      } else {
        var i :| OpenFrom(s.log, i, |s.log|, s.window.secret) && s.window.expires == s.log[i].at + WINDOW_TTL;
        assert OpenFrom(t.log, i, |t.log|, s.window.secret);
      }
    }
  }

  lemma EventsKept(s: State, step: Step)
    requires EventsOk(s.log) && CallsOk(s) && NoncesIssued(s) && WindowOpened(s)
    ensures EventsOk(Apply(s, step).log)
  {
    hide EventOk, CallsOk, NoncesIssued, WindowOpened, NextRegistry, NextTokens, NextNonces, NextWindow, NextStatus, NextPanes, NextCalls;
    var t := Apply(s, step);
    forall j | 0 <= j < |t.log| ensures EventOk(t.log, j) {
      if j < |s.log| {
        EventStays(s.log, t.log, j);
      } else {
        NewEventOk(s, step);
      }
    }
  }

  lemma NewEventOk(s: State, step: Step)
    requires CallsOk(s) && NoncesIssued(s) && WindowOpened(s) && Enabled(s, step) && Emits(s, step) != []
    ensures EventOk(Apply(s, step).log, |s.log|)
  {
    var log := Apply(s, step).log;
    if step.AuthConsume? {
      ConsumedEventOk(s, step);
    } else if step.PairRedeem? {
      RedeemedEventOk(s, step);
    } else if step.DropNext? {
      assert CallOk(s.log, step.rpc, s.calls[step.rpc]);
      CausedStays(s.log, log, |s.log|, |s.log|, step.rpc, s.calls[step.rpc].device);
    } else {
      assert forall i :: 0 <= i < |s.log| ==> log[i] == s.log[i];
      if step.PairAdd? || step.AuthMint? || step.Allow? {
        assert CallOk(s.log, step.rpc, s.calls[step.rpc]);
      }
    }
  }

  lemma RedeemedEventOk(s: State, step: Step)
    requires WindowOpened(s) && Enabled(s, step) && step.PairRedeem?
    ensures EventOk(Apply(s, step).log, |s.log|)
  {
    var i :| OpenFrom(s.log, i, |s.log|, s.window.secret) && s.window.expires == s.log[i].at + WINDOW_TTL;
    assert OpenFrom(Apply(s, step).log, i, |s.log|, step.req.secret);
  }

  lemma ConsumedEventOk(s: State, step: Step)
    requires NoncesIssued(s) && Enabled(s, step) && step.AuthConsume? && Emits(s, step) != []
    ensures EventOk(Apply(s, step).log, |s.log|)
  {
    var c := s.calls[step.rpc];
    var i :| 0 <= i < |s.log| && s.log[i] == Challenged(c.key, s.nonces[c.key].deviceID, s.nonces[c.key].expires - NONCE_TTL);
    assert Apply(s, step).log[i] == s.log[i];
  }

  lemma IssuedStays(log: seq<Event>, log': seq<Event>, key: string, n: Nonce)
    requires IssuedAs(log, key, n) && log <= log'
    ensures IssuedAs(log', key, n)
  {
    var i :| 0 <= i < |log| && log[i] == Challenged(key, n.deviceID, n.expires - NONCE_TTL);
    assert log'[i] == log[i];
  }

  lemma NoncesIssuedKept(s: State, step: Step)
    requires NoncesIssued(s)
    ensures NoncesIssued(Apply(s, step))
  {
    var t := Apply(s, step);
    if step.ChallengeMint? && Enabled(s, step) {
      assert t.log[|s.log|] == Challenged(step.key, s.calls[step.rpc].device, step.now);
      assert IssuedAs(t.log, step.key, t.nonces[step.key]);
    }
    forall k | k in t.nonces ensures IssuedAs(t.log, k, t.nonces[k]) {
      if !(step.ChallengeMint? && k == step.key) {
        IssuedStays(s.log, t.log, k, s.nonces[k]);
      }
    }
  }

  lemma SpentIsGoneKept(s: State, step: Step)
    requires SpentIsGone(s) && EventsOk(s.log)
    ensures SpentIsGone(Apply(s, step))
  {
    var t := Apply(s, step);
    forall j | 0 <= j < |t.log| && t.log[j].Consumed? ensures t.log[j].key !in t.nonces {
      if j < |s.log| {
        assert EventOk(s.log, j);
        assert s.log[j].key !in s.nonces;
      }
    }
  }

  // ----- things that happen once

  ghost predicate OncePerKey(log: seq<Event>) {
    && (forall i, j :: 0 <= i < j < |log| && log[i].Challenged? && log[j].Challenged? ==> log[i].key != log[j].key)
    && (forall i, j :: 0 <= i < j < |log| && log[i].Consumed? && log[j].Consumed? ==> log[i].key != log[j].key)
  }

  lemma OncePerKeyKept(s: State, step: Step)
    requires OncePerKey(s.log) && SpentIsGone(s)
    ensures OncePerKey(Apply(s, step).log)
  {
  }

  // The event that decides what a pairing or a revocation comes to.
  predicate Settles(e: Event) {
    e.Registered? || e.Refused? || e.Tombstoned?
  }

  // A call mints at most one token, and a pairing or a revocation settles at most once.
  ghost predicate MintsOnce(s: State) {
    && (forall j :: 0 <= j < |s.log| && s.log[j].Minted? ==> s.log[j].rpc in s.calls && s.calls[s.log[j].rpc].Done?)
    && (forall i, j :: 0 <= i < j < |s.log| && s.log[i].Minted? && s.log[j].Minted? ==> s.log[i].rpc != s.log[j].rpc)
  }

  ghost predicate SettlesOnce(s: State) {
    && (forall j :: 0 <= j < |s.log| && Settles(s.log[j]) ==>
          s.log[j].rpc in s.calls && (s.calls[s.log[j].rpc].Done? || s.calls[s.log[j].rpc].Dropping?))
    && (forall i, j :: 0 <= i < j < |s.log| && Settles(s.log[i]) && Settles(s.log[j]) ==> s.log[i].rpc != s.log[j].rpc)
  }

  lemma MintsOnceKept(s: State, step: Step)
    requires MintsOnce(s)
    ensures MintsOnce(Apply(s, step))
  {
  }

  lemma SettlesOnceKept(s: State, step: Step)
    requires SettlesOnce(s)
    ensures SettlesOnce(Apply(s, step))
  {
    hide NextRegistry, NextTokens, NextNonces, NextWindow, NextStatus, NextPanes;
  }

  // A redemption that has not settled is still in flight.
  ghost predicate RedeemedInFlight(s: State) {
    forall m :: 0 <= m < |s.log| && s.log[m].Redeemed? ==>
      var rpc := s.log[m].rpc;
      && rpc in s.calls
      && (s.calls[rpc].Pairing? ==> s.calls[rpc].req.id == s.log[m].device && Capable(s.calls[rpc].req) == s.log[m].capable)
      && (!s.calls[rpc].Pairing? ==> SettledBy(s.log, rpc))
  }

  ghost predicate SettledBy(log: seq<Event>, rpc: Rpc) {
    exists n :: 0 <= n < |log| && Settles(log[n]) && log[n].rpc == rpc
  }

  lemma RedeemedInFlightKept(s: State, step: Step)
    requires RedeemedInFlight(s)
    ensures RedeemedInFlight(Apply(s, step))
  {
    hide Capable, NextRegistry, NextTokens, NextNonces, NextWindow, NextStatus, NextPanes;
    var t := Apply(s, step);
    forall m | 0 <= m < |t.log| && t.log[m].Redeemed? && !t.calls[t.log[m].rpc].Pairing? ensures SettledBy(t.log, t.log[m].rpc) {
      assert t.log[m] == s.log[m];
      if SettledBy(s.log, s.log[m].rpc) {
        var n :| 0 <= n < |s.log| && Settles(s.log[n]) && s.log[n].rpc == s.log[m].rpc;
        assert t.log[n] == s.log[n];
      } else {
        assert Settles(t.log[|s.log|]) && t.log[|s.log|].rpc == s.log[m].rpc;
      }
    }
  }

  // ----- drops

  predicate Drops(e: Event) {
    e.TokensDropped? || e.StatusDropped? || e.PanesDropped?
  }

  // The n-th of a call's drops.
  function DropEvent(rpc: Rpc, device: Id, n: nat): Event {
    if n == 0 then TokensDropped(rpc, device) else if n == 1 then StatusDropped(rpc, device) else PanesDropped(rpc, device)
  }

  ghost predicate DropLogged(log: seq<Event>, i: int, rpc: Rpc, device: Id, n: nat) {
    exists j :: i < j < |log| && 0 <= j && log[j] == DropEvent(rpc, device, n)
  }

  ghost predicate DropsLogged(log: seq<Event>, i: int, rpc: Rpc, device: Id, n: nat) {
    forall m: nat :: m < n ==> DropLogged(log, i, rpc, device, m)
  }

  /** From its cause at i on, a call has made the drops before its next one, all three once done. */
  ghost predicate DropsProceed(s: State, i: nat, rpc: Rpc, device: Id) {
    && rpc in s.calls
    && (s.calls[rpc].Dropping? || s.calls[rpc].Done?)
    && (s.calls[rpc].Dropping? ==> s.calls[rpc].device == device && DropsLogged(s.log, i, rpc, device, s.calls[rpc].next))
    && (s.calls[rpc].Done? ==> DropsLogged(s.log, i, rpc, device, 3))
  }

  ghost predicate DropsFollow(s: State) {
    forall i: nat, rpc, device :: i < |s.log| && Causes(s.log[i], rpc, device) ==> DropsProceed(s, i, rpc, device)
  }

  lemma DropsLoggedStay(log: seq<Event>, log': seq<Event>, i: int, rpc: Rpc, device: Id, n: nat)
    requires log <= log' && DropsLogged(log, i, rpc, device, n)
    ensures DropsLogged(log', i, rpc, device, n)
  {
    forall m: nat | m < n ensures DropLogged(log', i, rpc, device, m) {
      assert DropLogged(log, i, rpc, device, m);
      var j :| i < j < |log| && 0 <= j && log[j] == DropEvent(rpc, device, m);
      assert log'[j] == log[j];
    }
  }

  lemma OneMoreDrop(log: seq<Event>, i: int, rpc: Rpc, device: Id, n: nat)
    requires i < |log| && DropsLogged(log, i, rpc, device, n)
    ensures DropsLogged(log + [DropEvent(rpc, device, n)], i, rpc, device, n + 1)
  {
    var more := log + [DropEvent(rpc, device, n)];
    DropsLoggedStay(log, more, i, rpc, device, n);
    assert more[|log|] == DropEvent(rpc, device, n);
  }

  lemma DropsFollowKept(s: State, step: Step)
    requires DropsFollow(s) && CallsOk(s)
    ensures DropsFollow(Apply(s, step))
  {
    var t := Apply(s, step);
    forall i: nat, rpc, device | i < |t.log| && Causes(t.log[i], rpc, device) ensures DropsProceed(t, i, rpc, device) {
      if i < |s.log| {
        assert Causes(s.log[i], rpc, device) && DropsProceed(s, i, rpc, device);
        DropsGoOn(s, step, i, rpc, device);
      }
    }
  }

  lemma DropsGoOn(s: State, step: Step, i: nat, rpc: Rpc, device: Id)
    requires i < |s.log| && DropsProceed(s, i, rpc, device)
    requires CallOk(s.log, rpc, s.calls[rpc])
    ensures DropsProceed(Apply(s, step), i, rpc, device)
  {
    var t := Apply(s, step);
    if step == DropNext(rpc) && s.calls[rpc].Dropping? {
      OneMoreDrop(s.log, i, rpc, device, s.calls[rpc].next);
    } else {
      assert t.calls[rpc] == s.calls[rpc];
      DropsLoggedStay(s.log, t.log, i, rpc, device, if s.calls[rpc].Done? then 3 else s.calls[rpc].next);
    }
  }

  // ----- revocation

  ghost predicate Readmitted(log: seq<Event>, i: int, j: int, device: Id)
    requires j <= |log|
  {
    exists k :: 0 <= k && i < k < j && log[k].Registered? && log[k].device == device
  }

  // Every tombstone stands until the device is registered again.
  ghost predicate TombstonesStand(s: State) {
    forall i :: 0 <= i < |s.log| && s.log[i].Tombstoned? ==>
      Readmitted(s.log, i, |s.log|, s.log[i].device) || !Registrable(s.registry, s.log[i].device)
  }

  predicate FoundLive(e: Event) {
    e.Authorized? || e.AuthPassed?
  }

  // Whenever a device was found live, every earlier tombstone of it had been lifted.
  ghost predicate LiveWhenPassed(log: seq<Event>) {
    forall i, j | 0 <= i < j < |log| && FoundLive(log[j]) && log[i].Tombstoned? && log[j].device == log[i].device ::
      Readmitted(log, i, j, log[i].device)
  }

  lemma ReadmittedStays(log: seq<Event>, log': seq<Event>, i: int, j: int, device: Id)
    requires log <= log' && j <= |log| && Readmitted(log, i, j, device)
    ensures forall j' :: j <= j' <= |log'| ==> Readmitted(log', i, j', device)
  {
    var k :| 0 <= k && i < k < j && log[k].Registered? && log[k].device == device;
    assert log'[k] == log[k];
  }

  lemma OnlyRegisteringAdmits(s: State, step: Step, id: Id)
    requires Registrable(Apply(s, step).registry, id) && !Registrable(s.registry, id)
    ensures var log := Apply(s, step).log;
            |log| == |s.log| + 1 && log[|s.log|].Registered? && log[|s.log|].device == id
  {
  }

  lemma TombstonesEnd(s: State, step: Step, i: nat)
    requires |s.log| <= i < |Apply(s, step).log| && Apply(s, step).log[i].Tombstoned?
    ensures s.log <= Apply(s, step).log && !Registrable(Apply(s, step).registry, Apply(s, step).log[i].device)
  {
  }

  lemma LogOnlyGrows(s: State, step: Step)
    ensures s.log <= Apply(s, step).log
  {
  }

  lemma TombstonesStandKept(s: State, step: Step)
    requires TombstonesStand(s)
    ensures TombstonesStand(Apply(s, step))
  {
    hide Apply, Registrable;
    LogOnlyGrows(s, step);
    var t := Apply(s, step);
    forall i | 0 <= i < |t.log| && t.log[i].Tombstoned?
      ensures Readmitted(t.log, i, |t.log|, t.log[i].device) || !Registrable(t.registry, t.log[i].device)
    {
      if i < |s.log| {
        assert t.log[i] == s.log[i];
        if Readmitted(s.log, i, |s.log|, s.log[i].device) {
          ReadmittedStays(s.log, t.log, i, |s.log|, s.log[i].device);
        } else if Registrable(t.registry, t.log[i].device) {
          OnlyRegisteringAdmits(s, step, t.log[i].device);
        }
      } else {
        TombstonesEnd(s, step, i);
      }
    }
  }

  lemma LiveWhenPassedKept(s: State, step: Step)
    requires LiveWhenPassed(s.log) && TombstonesStand(s)
    ensures LiveWhenPassed(Apply(s, step).log)
  {
    var t := Apply(s, step);
    forall i, j | 0 <= i < j < |t.log| && FoundLive(t.log[j]) && t.log[i].Tombstoned? && t.log[j].device == t.log[i].device
      ensures Readmitted(t.log, i, j, t.log[i].device)
    {
      assert t.log[i] == s.log[i];
      if j < |s.log| {
        assert t.log[j] == s.log[j];
        ReadmittedStays(s.log, t.log, i, j, s.log[i].device);
      } else {
        ReadmittedStays(s.log, t.log, i, j, s.log[i].device);
      }
    }
  }

  // What a device holds now, it got after its last drop.
  ghost predicate HeldSinceDrop(s: State) {
    forall j :: 0 <= j < |s.log| ==>
      && (s.log[j].TokensDropped? ==>
            forall t :: t in s.tokens && s.tokens[t].session.deviceID == s.log[j].device ==> s.tokens[t].minted > j)
      && (s.log[j].StatusDropped? ==> forall x :: x in s.status && s.status[x].device == s.log[j].device ==> s.status[x].since > j)
      && (s.log[j].PanesDropped? ==> forall x :: x in s.panes && s.panes[x].device == s.log[j].device ==> s.panes[x].since > j)
  }

  lemma HeldSinceDropKept(s: State, step: Step)
    requires HeldSinceDrop(s)
    ensures HeldSinceDrop(Apply(s, step))
  {
    hide NextRegistry, NextNonces, NextWindow, NextCalls;
  }

  // Only a host with a source streams panes.
  ghost predicate PanesHaveSource(s: State) {
    s.panes != map[] ==> s.hasSource
  }

  lemma PanesHaveSourceKept(s: State, step: Step)
    requires PanesHaveSource(s)
    ensures PanesHaveSource(Apply(s, step)) && Apply(s, step).hasSource == s.hasSource
  {
    hide NextRegistry, NextTokens, NextNonces, NextWindow, NextStatus, NextCalls, Emits;
    var t := Apply(s, step);
    if t.panes != map[] && s.panes == map[] {
      assert step.Watch?;
    }
  }

  lemma {:induction false} SameSource(s: State, steps: seq<Step>)
    ensures Run(s, steps).hasSource == s.hasSource
    decreases |steps|
  {
    hide Enabled;
    if steps != [] {
      SameSource(Apply(s, steps[0]), steps[1..]);
    }
  }

  // ----- counting

  predicate IsOpened(e: Event) { e.Opened? }
  predicate IsRedeemed(e: Event) { e.Redeemed? }
  predicate IsRegistered(e: Event) { e.Registered? }

  function Count(log: seq<Event>, kind: Event -> bool): nat {
    if log == [] then 0
    else Count(log[..|log| - 1], kind) + (if kind(log[|log| - 1]) then 1 else 0)
  }

  lemma CountMore(log: seq<Event>, e: seq<Event>, kind: Event -> bool)
    requires |e| <= 1
    ensures Count(log + e, kind) == Count(log, kind) + (if |e| == 1 && kind(e[0]) then 1 else 0)
  {
    if |e| == 1 {
      assert (log + e)[..|log|] == log;
    } else {
      assert log + e == log;
    }
  }

  ghost function PairingCalls(s: State): set<Rpc> {
    set rpc | rpc in s.calls && s.calls[rpc].Pairing?
  }

  ghost predicate Counted(s: State) {
    && Count(s.log, IsRegistered) + |PairingCalls(s)| <= Count(s.log, IsRedeemed)
    && Count(s.log, IsRedeemed) + (if s.window.secret != "" then 1 else 0) <= Count(s.log, IsOpened)
  }

  lemma PairingCallsStep(s: State, step: Step)
    requires Enabled(s, step)
    ensures PairingCalls(Apply(s, step)) ==
            if step.PairRedeem? then PairingCalls(s) + {step.rpc}
            else if step.PairAdd? then PairingCalls(s) - {step.rpc} else PairingCalls(s)
  {
  }

  lemma CountedKept(s: State, step: Step)
    requires Counted(s)
    ensures Counted(Apply(s, step))
  {
    if Enabled(s, step) {
      CountMore(s.log, Emits(s, step), IsOpened);
      CountMore(s.log, Emits(s, step), IsRedeemed);
      CountMore(s.log, Emits(s, step), IsRegistered);
      PairingCallsStep(s, step);
      if step.PairAdd? {
        assert step.rpc in PairingCalls(s);
      }
    }
  }

  // ----- every run

  ghost predicate Inv(s: State) {
    && CallsOk(s) && TokensOk(s) && StreamsOk(s.log, s.status, CAP_STATUS_READ) && StreamsOk(s.log, s.panes, CAP_SESSION_READ)
    && NoncesIssued(s) && SpentIsGone(s) && EventsOk(s.log) && OncePerKey(s.log) && MintsOnce(s) && SettlesOnce(s)
    && TombstonesStand(s) && LiveWhenPassed(s.log) && HeldSinceDrop(s) && Counted(s) && DropsFollow(s) && RedeemedInFlight(s) && PanesHaveSource(s) && WindowOpened(s)
  }

  lemma StepKeepsInv(s: State, step: Step)
    requires Inv(s)
    ensures Inv(Apply(s, step))
  {
    hide *;
    InvParts(s);
    CallsKept(s, step);
    TokensKept(s, step);
    StatusStreamsKept(s, step);
    PaneStreamsKept(s, step);
    NoncesIssuedKept(s, step);
    SpentIsGoneKept(s, step);
    EventsKept(s, step);
    OncePerKeyKept(s, step);
    MintsOnceKept(s, step);
    SettlesOnceKept(s, step);
    TombstonesStandKept(s, step);
    LiveWhenPassedKept(s, step);
    HeldSinceDropKept(s, step);
    CountedKept(s, step);
    DropsFollowKept(s, step);
    RedeemedInFlightKept(s, step);
    PanesHaveSourceKept(s, step);
    WindowOpenedKept(s, step);
    InvWhole(Apply(s, step));
  }

  lemma InvParts(s: State)
    requires Inv(s)
    ensures CallsOk(s) && TokensOk(s) && StreamsOk(s.log, s.status, CAP_STATUS_READ) && StreamsOk(s.log, s.panes, CAP_SESSION_READ)
    ensures NoncesIssued(s) && SpentIsGone(s) && EventsOk(s.log) && OncePerKey(s.log) && MintsOnce(s) && SettlesOnce(s)
    ensures TombstonesStand(s) && LiveWhenPassed(s.log) && HeldSinceDrop(s) && Counted(s) && DropsFollow(s) && RedeemedInFlight(s) && PanesHaveSource(s) && WindowOpened(s)
  {
  }

  lemma InvWhole(s: State)
    requires CallsOk(s) && TokensOk(s) && StreamsOk(s.log, s.status, CAP_STATUS_READ) && StreamsOk(s.log, s.panes, CAP_SESSION_READ)
    requires NoncesIssued(s) && SpentIsGone(s) && EventsOk(s.log) && OncePerKey(s.log) && MintsOnce(s) && SettlesOnce(s)
    requires TombstonesStand(s) && LiveWhenPassed(s.log) && HeldSinceDrop(s) && Counted(s) && DropsFollow(s) && RedeemedInFlight(s) && PanesHaveSource(s) && WindowOpened(s)
    ensures Inv(s)
  {
  }

  lemma {:induction false} RunKeepsInv(s: State, steps: seq<Step>)
    requires Inv(s)
    ensures Inv(Run(s, steps))
    decreases |steps|
  {
    if steps != [] {
      StepKeepsInv(s, steps[0]);
      RunKeepsInv(Apply(s, steps[0]), steps[1..]);
    }
  }

  lemma Reached(registry: map<Id, Device>, hasSource: bool, steps: seq<Step>)
    ensures Inv(Run(Start(registry, hasSource), steps))
  {
    assert PairingCalls(Start(registry, hasSource)) == {};
    RunKeepsInv(Start(registry, hasSource), steps);
  }
}
