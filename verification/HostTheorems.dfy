/** What every run of the host shows, whatever its calls interleave to. */
module HostTheorems {
  import opened Stores
  import opened Host
  import opened HostProofs

  /**
   * The last step of authorize admits exactly when the device is, at that moment,
   * registered, not tombstoned and holding the capability the call is for; and the token
   * presented was minted to that device less than 24 hours before it was presented.
   */
  lemma AuthorizeIsLive(registry: map<Id, Device>, hasSource: bool, steps: seq<Step>, rpc: Rpc)
    requires Enabled(Run(Start(registry, hasSource), steps), Allow(rpc))
    ensures var s := Run(Start(registry, hasSource), steps);
            var t := Apply(s, Allow(rpc));
            var c := s.calls[rpc];
            && (t.log != s.log <==>
                  && c.device in s.registry && s.registry[c.device].revokedAt.None?
                  && match c.purpose
                     case GetStatus => "status.read" in s.registry[c.device].capabilities
                     case WatchStatus => "status.read" in s.registry[c.device].capabilities
                     case GetDigest => "session.read" in s.registry[c.device].capabilities
                     case WatchPane(_) => "session.read" in s.registry[c.device].capabilities
                     case SubmitAnswer => "agent.answer" in s.registry[c.device].capabilities
                     case SubmitCommand => "agent.command" in s.registry[c.device].capabilities)
            && (t.log != s.log ==>
                  && |t.log| == |s.log| + 1 && s.log <= t.log
                  && var e := t.log[|s.log|];
                     && e.Authorized? && e.rpc == rpc && e.device == c.device && e.tok == c.tok && e.at == c.at
                     && exists m :: 0 <= m < |s.log| && s.log[m].Minted? && s.log[m].tok == c.tok
                          && s.log[m].device == c.device && c.at < s.log[m].at + 24 * 60 * 60 * 1_000_000_000)
            && t.registry == s.registry && t.tokens == s.tokens && t.status == s.status && t.panes == s.panes
  {
    hide Inv;
    Reached(registry, hasSource, steps);
    AllowIsLive(Run(Start(registry, hasSource), steps), rpc);
  }

  lemma AllowIsLive(s: State, rpc: Rpc)
    requires Inv(s) && Enabled(s, Allow(rpc))
    ensures var t, c := Apply(s, Allow(rpc)), s.calls[rpc];
            && (t.log != s.log <==> Permitted(s.registry, c.device, Needs(c.purpose)))
            && (t.log != s.log ==> t.log == s.log + [Authorized(rpc, c.device, Needs(c.purpose), c.tok, c.at)])
            && t.registry == s.registry && t.tokens == s.tokens && t.status == s.status && t.panes == s.panes
            && MintedBefore(s.log, |s.log|, c.tok, c.device, c.at)
  {
    hide Needs;
    assert CallOk(s.log, rpc, s.calls[rpc]);
  }

  /** Resolving names the token's own device, while the token lives, for the call it came with. */
  lemma ResolvesForItsCall(s: State, rpc: Rpc, tok: string, purpose: Purpose, now: int)
    requires Enabled(s, Resolve(rpc, tok, purpose, now))
    ensures var t := Apply(s, Resolve(rpc, tok, purpose, now));
            var x := s.tokens[tok].session;
            && rpc in t.calls
            && (t.calls[rpc].Resolved? <==> now < x.expires && x.deviceID != "")
            && (t.calls[rpc].Resolved? ==>
                  t.calls[rpc].device == x.deviceID && t.calls[rpc].purpose == purpose
                  && t.calls[rpc].tok == tok && t.calls[rpc].at == now)
            && t.tokens == (if now < x.expires then s.tokens else s.tokens - {tok})
            && t.registry == s.registry && t.log == s.log
  {
  }

  /**
   * What the last locked step of Pair leaves, over every run: a registration exactly when
   * the request's key has 32 bytes and it asks for something known or for nothing; with
   * the request's own key, clipped names, and just the known capabilities it names (all
   * four for none); and every other device as it was.
   */
  lemma RegistersAsAsked(registry: map<Id, Device>, hasSource: bool, steps: seq<Step>, rpc: Rpc, now: int, persisted: bool)
    requires Enabled(Run(Start(registry, hasSource), steps), PairAdd(rpc, now, persisted))
    ensures var s := Run(Start(registry, hasSource), steps);
            var t := Apply(s, PairAdd(rpc, now, persisted));
            var req := s.calls[rpc].req;
            && (exists m :: 0 <= m < |s.log| && s.log[m].Redeemed? && s.log[m].rpc == rpc && s.log[m].req == req)
            && t.log == s.log + [if Registers(req) then Registered(rpc, req.id, persisted) else Refused(rpc)]
            && (!Registers(req) ==> t.registry == s.registry)
            && (Registers(req) ==>
                  && t.registry.Keys == s.registry.Keys + {req.id} && RegisteredAs(t.registry[req.id], req, now)
                  && forall d :: d in s.registry && d != req.id ==> t.registry[d] == s.registry[d])
  {
    hide Inv, Apply, RegisteredAs, Registers;
    Reached(registry, hasSource, steps);
    var s := Run(Start(registry, hasSource), steps);
    PairingRedeemed(s, rpc, now, persisted);
    AddsAsAsked(s, rpc, now, persisted);
  }

  lemma PairingRedeemed(s: State, rpc: Rpc, now: int, persisted: bool)
    requires Inv(s) && Enabled(s, PairAdd(rpc, now, persisted))
    ensures rpc in s.calls && s.calls[rpc].Pairing?
    ensures exists m :: 0 <= m < |s.log| && s.log[m].Redeemed? && s.log[m].rpc == rpc && s.log[m].req == s.calls[rpc].req
  {
    assert CallOk(s.log, rpc, s.calls[rpc]);
  }

  lemma AddsAsAsked(s: State, rpc: Rpc, now: int, persisted: bool)
    requires rpc in s.calls && s.calls[rpc].Pairing?
    ensures var t, req := Apply(s, PairAdd(rpc, now, persisted)), s.calls[rpc].req;
            && t.log == s.log + [if Registers(req) then Registered(rpc, req.id, persisted) else Refused(rpc)]
            && (!Registers(req) ==> t.registry == s.registry)
            && (Registers(req) ==>
                  && t.registry.Keys == s.registry.Keys + {req.id} && RegisteredAs(t.registry[req.id], req, now)
                  && forall d :: d in s.registry && d != req.id ==> t.registry[d] == s.registry[d])
  {
    hide RegisteredAs, Registers, Recognized;
    RegistrationIsAsked(s.calls[rpc].req, now);
  }

  /**
   * Every redemption, over every run: its request is of this protocol, with a key of 32
   * bytes and a good proof; it presents the secret of the latest window, less than two
   * minutes after that window was opened; and no other redemption came since.
   */
  lemma RedeemedInItsWindow(registry: map<Id, Device>, hasSource: bool, steps: seq<Step>, j: nat)
    requires j < |Run(Start(registry, hasSource), steps).log| && Run(Start(registry, hasSource), steps).log[j].Redeemed?
    ensures var log := Run(Start(registry, hasSource), steps).log;
            var req := log[j].req;
            && req.current && |req.publicKey| == 32 && req.proven && log[j].device == req.id
            && exists i :: 0 <= i < j && log[i].Opened? && log[i].secret == req.secret
                 && log[j].at < log[i].at + 120 * 1_000_000_000
                 && forall k :: i < k < j ==> !log[k].Opened? && !log[k].Redeemed?
  {
    hide Inv;
    Reached(registry, hasSource, steps);
    RedemptionTraces(Run(Start(registry, hasSource), steps), j);
  }

  lemma RedemptionTraces(s: State, j: nat)
    requires Inv(s) && j < |s.log| && s.log[j].Redeemed?
    ensures var req := s.log[j].req;
            && req.current && |req.publicKey| == 32 && req.proven && s.log[j].device == req.id
            && exists i :: 0 <= i < j && s.log[i].Opened? && s.log[i].secret == req.secret
                 && s.log[j].at < s.log[i].at + 120 * 1_000_000_000
                 && forall k :: i < k < j ==> !s.log[k].Opened? && !s.log[k].Redeemed?
  {
    assert EventOk(s.log, j);
    var i :| OpenFrom(s.log, i, j, s.log[j].req.secret) && s.log[j].at < s.log[i].at + WINDOW_TTL;
  }

  /**
   * Every live stream was opened after an authorization of its own device: a status stream
   * for reading the status, a pane stream for reading sessions, on a host with a source.
   */
  lemma StreamsTraceToAuthorize(registry: map<Id, Device>, hasSource: bool, steps: seq<Step>, x: Stream)
    ensures var s := Run(Start(registry, hasSource), steps);
            && (x in s.status ==> OpenedFor(s.log, s.status[x], x, "status.read"))
            && (x in s.panes ==> hasSource && OpenedFor(s.log, s.panes[x], x, "session.read"))
  {
    hide OpenedFor, LiveOk, EventsOk;
    Reached(registry, hasSource, steps);
    var s := Run(Start(registry, hasSource), steps);
    SameSource(Start(registry, hasSource), steps);
    if x in s.status {
      LiveTraces(s.log, x, s.status[x], CAP_STATUS_READ);
    }
    if x in s.panes {
      LiveTraces(s.log, x, s.panes[x], CAP_SESSION_READ);
    }
  }

  lemma LiveTraces(log: seq<Event>, stream: Stream, x: Live, capability: string)
    requires EventsOk(log) && LiveOk(log, stream, x, capability)
    ensures OpenedFor(log, x, stream, capability)
  {
    assert EventOk(log, x.authorized);
  }

  ghost predicate OpenedFor(log: seq<Event>, x: Live, stream: Stream, capability: string) {
    exists a, j :: 0 <= a < j < |log| && log[j] == Subscribed(stream, x.device)
      && log[a].Authorized? && log[a].device == x.device && log[a].capability == capability
      && MintedBefore(log, a, log[a].tok, x.device, log[a].at)
  }

  /**
   * Every token traces to one Authenticate call that found its device live and answered
   * that device's own challenge, rightly signed, less than 60 seconds after it was issued.
   */
  lemma MintedByItsDevice(registry: map<Id, Device>, hasSource: bool, steps: seq<Step>, j: nat)
    requires j < |Run(Start(registry, hasSource), steps).log| && Run(Start(registry, hasSource), steps).log[j].Minted?
    ensures var log := Run(Start(registry, hasSource), steps).log;
            var e := log[j];
            exists i, p, c :: 0 <= i < c < j && 0 <= p < c
              && log[i].Challenged? && log[i].key == e.key && log[i].device == e.device
              && log[p] == AuthPassed(e.rpc, e.device, e.key, true)
              && log[c].Consumed? && log[c] == Consumed(e.rpc, e.key, e.device, log[c].at, true)
              && log[c].at < log[i].at + 60 * 1_000_000_000
  {
    Reached(registry, hasSource, steps);
    MintTraces(Run(Start(registry, hasSource), steps).log, j);
  }

  lemma MintTraces(log: seq<Event>, j: nat)
    requires EventsOk(log) && j < |log| && log[j].Minted?
    ensures var e := log[j];
            exists i, p, c :: 0 <= i < c < j && 0 <= p < c
              && log[i].Challenged? && log[i].key == e.key && log[i].device == e.device
              && log[p] == AuthPassed(e.rpc, e.device, e.key, true)
              && log[c].Consumed? && log[c] == Consumed(e.rpc, e.key, e.device, log[c].at, true)
              && log[c].at < log[i].at + 60 * 1_000_000_000
  {
    var e := log[j];
    assert EventOk(log, j);
    var p, c :| 0 <= p < c < j && log[p] == AuthPassed(e.rpc, e.device, e.key, true)
                && log[c].Consumed? && log[c].rpc == e.rpc && log[c].key == e.key && log[c].device == e.device && log[c].good;
    assert EventOk(log, c);
    var i :| 0 <= i < c && log[i].Challenged? && log[i].key == e.key
             && log[i].device == e.device && log[c].at < log[i].at + 60 * 1_000_000_000;
  }

  /**
   * A challenge yields at most one token, and none once any other attempt has reached
   * consume: the attempt that found it is the one that mints, and it found it live, its
   * own, and rightly signed.
   */
  lemma ChallengeSpentOnce(registry: map<Id, Device>, hasSource: bool, steps: seq<Step>, i: nat, j: nat)
    requires i < |Run(Start(registry, hasSource), steps).log| && j < |Run(Start(registry, hasSource), steps).log|
    requires var log := Run(Start(registry, hasSource), steps).log;
             log[j].Minted? && ((log[i].Minted? && i != j) || log[i].Consumed?)
    ensures var log := Run(Start(registry, hasSource), steps).log;
            && (log[i].Minted? ==> log[i].key != log[j].key)
            && (log[i].Consumed? && log[i].key == log[j].key ==>
                  i < j && log[i].good && log[i].rpc == log[j].rpc && log[i].device == log[j].device)
  {
    Reached(registry, hasSource, steps);
    SpentOnce(Run(Start(registry, hasSource), steps), i, j);
  }

  lemma SpentOnce(s: State, i: nat, j: nat)
    requires EventsOk(s.log) && OncePerKey(s.log) && MintsOnce(s)
    requires i < |s.log| && j < |s.log| && s.log[j].Minted? && ((s.log[i].Minted? && i != j) || s.log[i].Consumed?)
    ensures s.log[i].Minted? ==> s.log[i].key != s.log[j].key
    ensures s.log[i].Consumed? && s.log[i].key == s.log[j].key ==>
              i < j && s.log[i].good && s.log[i].rpc == s.log[j].rpc && s.log[i].device == s.log[j].device
  {
    assert EventOk(s.log, j);
    if s.log[i].Minted? {
      assert EventOk(s.log, i);
    }
  }

  /** No registration without its own redemption, no redemption without its own window. */
  lemma RegistrationsWithinWindows(registry: map<Id, Device>, hasSource: bool, steps: seq<Step>)
    ensures var log := Run(Start(registry, hasSource), steps).log;
            Count(log, IsRegistered) <= Count(log, IsRedeemed) <= Count(log, IsOpened)
  {
    Reached(registry, hasSource, steps);
  }

  // ----- revocation against pairing

  // A pairing of the device that asks for something recognized had redeemed its window by
  // position i and not yet settled.
  ghost predicate InFlight(log: seq<Event>, i: nat, device: Id)
    requires i <= |log|
  {
    exists m :: 0 <= m < i && log[m].Redeemed? && log[m].device == device && log[m].capable
                && forall n :: 0 <= n < i && Settles(log[n]) ==> log[n].rpc != log[m].rpc
  }

  /**
   * After a tombstone the device is authorized again only once it has been registered
   * again by a call that redeemed a window; and unless a pairing of it was in flight when
   * it was tombstoned, that redemption came after the tombstone too.
   */
  lemma RevocationHolds(registry: map<Id, Device>, hasSource: bool, steps: seq<Step>, i: nat, j: nat)
    requires i < j < |Run(Start(registry, hasSource), steps).log|
    requires var log := Run(Start(registry, hasSource), steps).log;
             log[i].Tombstoned? && log[j].Authorized? && log[j].device == log[i].device
    ensures var log := Run(Start(registry, hasSource), steps).log;
            exists m, k :: 0 <= m < k && i < k < j
              && log[k].Registered? && log[k].device == log[i].device && RedeemedFor(log[m], log[k].rpc, log[i].device)
              && (!InFlight(log, i, log[i].device) ==> i < m)
  {
    Reached(registry, hasSource, steps);
    RevocationHoldsIn(Run(Start(registry, hasSource), steps), i, j);
  }

  lemma RevocationHoldsIn(s: State, i: nat, j: nat)
    requires EventsOk(s.log) && LiveWhenPassed(s.log) && SettlesOnce(s)
    requires i < j < |s.log| && s.log[i].Tombstoned? && s.log[j].Authorized? && s.log[j].device == s.log[i].device
    ensures var log := s.log;
            exists m, k :: 0 <= m < k && i < k < j
              && log[k].Registered? && log[k].device == log[i].device && RedeemedFor(log[m], log[k].rpc, log[i].device)
              && (!InFlight(log, i, log[i].device) ==> i < m)
  {
    var log := s.log;
    assert Readmitted(log, i, j, log[i].device);
    var k :| 0 <= k && i < k < j && log[k].Registered? && log[k].device == log[i].device;
    assert EventOk(log, k);
    var m :| 0 <= m < k && RedeemedFor(log[m], log[k].rpc, log[i].device);
    if m < i {
      assert forall n :: 0 <= n < i && Settles(log[n]) ==> log[n].rpc != log[k].rpc by {
        assert Settles(log[k]);
      }
      assert InFlight(log, i, log[i].device);
    }
  }

  // ----- what a revocation or re-pair takes away

  // No registration of the device after position i.
  ghost predicate NotReadmitted(log: seq<Event>, i: nat, device: Id) {
    forall k :: i < k < |log| && log[k].Registered? ==> log[k].device != device
  }

  /**
   * Once a revocation's drop has run, all a device can still hold (until it is registered
   * again) it got afterwards, through a call that was past its registry check before the
   * tombstone: a straggler of that very moment.
   */
  lemma OnlyStragglersSurvive(registry: map<Id, Device>, hasSource: bool, steps: seq<Step>, i: nat, j: nat)
    requires i < j < |Run(Start(registry, hasSource), steps).log|
    requires var log := Run(Start(registry, hasSource), steps).log;
             log[i].Tombstoned? && NotReadmitted(log, i, log[i].device)
    ensures var s := Run(Start(registry, hasSource), steps);
            var device := s.log[i].device;
            && (s.log[j] == TokensDropped(s.log[i].rpc, device) ==>
                  forall t :: t in s.tokens && s.tokens[t].session.deviceID == device ==>
                    s.tokens[t].passed < i && j < s.tokens[t].minted)
            && (s.log[j] == StatusDropped(s.log[i].rpc, device) ==>
                  forall x :: x in s.status && s.status[x].device == device ==>
                    s.status[x].authorized < i && j < s.status[x].since)
            && (s.log[j] == PanesDropped(s.log[i].rpc, device) ==>
                  forall x :: x in s.panes && s.panes[x].device == device ==>
                    s.panes[x].authorized < i && j < s.panes[x].since)
  {
    Reached(registry, hasSource, steps);
    StragglersOnly(Run(Start(registry, hasSource), steps), i);
  }

  lemma StragglersOnly(s: State, i: nat)
    requires TokensOk(s) && StreamsOk(s.log, s.status, CAP_STATUS_READ) && StreamsOk(s.log, s.panes, CAP_SESSION_READ) && LiveWhenPassed(s.log)
    requires i < |s.log| && s.log[i].Tombstoned? && NotReadmitted(s.log, i, s.log[i].device)
    ensures forall t :: t in s.tokens && s.tokens[t].session.deviceID == s.log[i].device ==> s.tokens[t].passed < i
    ensures forall x :: x in s.status && s.status[x].device == s.log[i].device ==> s.status[x].authorized < i
    ensures forall x :: x in s.panes && s.panes[x].device == s.log[i].device ==> s.panes[x].authorized < i
  {
    var device := s.log[i].device;
    NothingLiveAfter(s, i);
    forall t | t in s.tokens && s.tokens[t].session.deviceID == device ensures s.tokens[t].passed < i {
      assert TokenOk(s.log, t, s.tokens[t]) && FoundLive(s.log[s.tokens[t].passed]);
    }
    forall x | x in s.status && s.status[x].device == device ensures s.status[x].authorized < i {
      assert LiveOk(s.log, x, s.status[x], CAP_STATUS_READ) && FoundLive(s.log[s.status[x].authorized]);
    }
    forall x | x in s.panes && s.panes[x].device == device ensures s.panes[x].authorized < i {
      assert LiveOk(s.log, x, s.panes[x], CAP_SESSION_READ) && FoundLive(s.log[s.panes[x].authorized]);
    }
  }

  lemma NothingLiveAfter(s: State, i: nat)
    requires LiveWhenPassed(s.log) && i < |s.log| && s.log[i].Tombstoned? && NotReadmitted(s.log, i, s.log[i].device)
    ensures forall p :: i <= p < |s.log| && FoundLive(s.log[p]) ==> s.log[p].device != s.log[i].device
  {
    assert forall p :: i < p < |s.log| && FoundLive(s.log[p]) && s.log[p].device == s.log[i].device ==>
      Readmitted(s.log, i, p, s.log[i].device);
  }

  /** Each drop takes everything of its kind from its device and nothing from any other. */
  lemma DropsTouchOneDevice(s: State, rpc: Rpc)
    requires rpc in s.calls && s.calls[rpc].Dropping? && s.calls[rpc].next <= 2
    ensures var t, c := Apply(s, DropNext(rpc)), s.calls[rpc];
            && (forall k :: k in s.tokens ==>
                  if s.tokens[k].session.deviceID == c.device && c.next == 0 then k !in t.tokens
                  else k in t.tokens && t.tokens[k] == s.tokens[k])
            && (forall x :: x in s.status ==>
                  if s.status[x].device == c.device && c.next == 1 then x !in t.status
                  else x in t.status && t.status[x] == s.status[x])
            && (forall x :: x in s.panes ==>
                  if s.panes[x].device == c.device && c.next == 2 then x !in t.panes
                  else x in t.panes && t.panes[x] == s.panes[x])
            && t.registry == s.registry && t.tokens.Keys <= s.tokens.Keys
            && t.status.Keys <= s.status.Keys && t.panes.Keys <= s.panes.Keys
  {
  }

  /**
   * Over every run, a revocation is followed by its drops exactly when its tombstone was
   * persisted. After a failed write the call never drops anything; otherwise all it drops
   * is the device's, after the tombstone, and it is done only once all three are made,
   * the next one being enabled until then.
   */
  lemma DropsFollowIffPersisted(registry: map<Id, Device>, hasSource: bool, steps: seq<Step>, i: nat)
    requires i < |Run(Start(registry, hasSource), steps).log| && Run(Start(registry, hasSource), steps).log[i].Tombstoned?
    ensures var s := Run(Start(registry, hasSource), steps);
            var e := s.log[i];
            if e.persisted then
              && e.rpc in s.calls
              && (s.calls[e.rpc].Done? || Enabled(s, DropNext(e.rpc)))
              && (s.calls[e.rpc].Done? ==> forall n: nat :: n < 3 ==> DropLogged(s.log, i, e.rpc, e.device, n))
              && forall j :: 0 <= j < |s.log| && Drops(s.log[j]) && s.log[j].rpc == e.rpc ==> i < j && s.log[j].device == e.device
            else forall j :: 0 <= j < |s.log| && Drops(s.log[j]) ==> s.log[j].rpc != e.rpc
  {
    hide Inv, DropLogged;
    Reached(registry, hasSource, steps);
    DropsAreItsOwn(Run(Start(registry, hasSource), steps), i);
  }

  lemma DropsAreItsOwn(s: State, i: nat)
    requires Inv(s) && i < |s.log| && s.log[i].Tombstoned?
    ensures s.log[i].persisted ==> DropsProceed(s, i, s.log[i].rpc, s.log[i].device)
    ensures forall j :: 0 <= j < |s.log| && Drops(s.log[j]) && s.log[j].rpc == s.log[i].rpc ==>
              s.log[i].persisted && i < j && s.log[j].device == s.log[i].device
  {
    hide *;
    InvParts(s);
    DropsHaveOneCause(s, i);
  }

  lemma DropsHaveOneCause(s: State, i: nat)
    requires EventsOk(s.log) && SettlesOnce(s) && DropsFollow(s) && i < |s.log| && s.log[i].Tombstoned?
    ensures s.log[i].persisted ==> DropsProceed(s, i, s.log[i].rpc, s.log[i].device)
    ensures forall j :: 0 <= j < |s.log| && Drops(s.log[j]) && s.log[j].rpc == s.log[i].rpc ==>
              s.log[i].persisted && i < j && s.log[j].device == s.log[i].device
  {
    hide DropsProceed;
    var e := s.log[i];
    if e.persisted {
      assert Causes(e, e.rpc, e.device);
    }
    forall j | 0 <= j < |s.log| && Drops(s.log[j]) && s.log[j].rpc == e.rpc
      ensures e.persisted && i < j && s.log[j].device == e.device
    {
      assert EventOk(s.log, j);
      var c :| 0 <= c < j && Causes(s.log[c], e.rpc, s.log[j].device);
      assert Settles(s.log[c]) && Settles(e);
    }
  }

  // ----- the steps against the store objects' own functions

  function Sessions(s: State): map<string, Session> {
    map t | t in s.tokens :: s.tokens[t].session
  }

  /**
   * A step of the machine does to the tokens what the locked method it stands for does,
   * and a call resolves a token to the device that method would name.
   */
  lemma TokenStepsAreTheMethods(s: State, step: Step)
    requires Enabled(s, step)
    ensures var before, after := Sessions(s), Sessions(Apply(s, step));
            match step
            case AuthMint(rpc, tok, now) => after == MintToken(before, tok, s.calls[rpc].device, now)
            case Resolve(rpc, tok, _, now) =>
              && after == AfterResolve(before, tok, now)
              && var c := Apply(s, step).calls[rpc];
                 if ResolveToken(before, tok, now) == "" then c.Done?
                 else c.Resolved? && c.device == ResolveToken(before, tok, now)
            case DropNext(rpc) =>
              after == if s.calls[rpc].next == 0 then DropTokens(before, s.calls[rpc].device) else before
            case _ => after == before
  {
    var t := Apply(s, step);
    assert forall k :: k in Sessions(s) <==> k in s.tokens;
    assert forall k :: k in Sessions(t) <==> k in t.tokens;
  }

  /** What each step does to the book: who may do what changes only by these, and only so. */
  lemma BookSteps(s: State, step: Step)
    requires Enabled(s, step) && !step.PairAdd?
    ensures var t := Apply(s, step);
            && t.registry.Keys == s.registry.Keys
            && forall d :: d in s.registry ==>
                 var x, y := s.registry[d], t.registry[d];
                 match step
                 case Revoke(_, device, now, _) =>
                   y == if d == device && x.revokedAt.None? then x.(revokedAt := y.revokedAt) else x
                 case SetCapabilities(device, caps) =>
                   && y.(capabilities := x.capabilities) == x
                   && (d != device ==> y == x)
                   && (d == device ==> forall c :: c in y.capabilities <==> c in caps && c in CAPABILITIES)
                 case Touch(device, now) => y == if d == device then x.(lastSeenAt := y.lastSeenAt) else x
                 case _ => y == x
    ensures step.Revoke? ==> Apply(s, step).registry[step.device].revokedAt.Some?
    ensures step.Revoke? && s.registry[step.device].revokedAt.None? ==> Apply(s, step).registry[step.device].revokedAt.value == step.now
    ensures step.Touch? ==> Apply(s, step).registry[step.device].lastSeenAt.Some?
                            && Apply(s, step).registry[step.device].lastSeenAt.value == step.now
  {
    hide Recognized, NextTokens, NextNonces, NextWindow, NextStatus, NextPanes, NextCalls, Emits;
    assert forall c :: KnownCapability(c) <==> c in CAPABILITIES;
  }

  /** What each step does to the window and the challenges. */
  lemma WindowAndChallengeSteps(s: State, step: Step)
    requires Enabled(s, step)
    ensures var t := Apply(s, step);
            && t.window == (match step
                            case OpenWindow(secret, now) => Window(secret, now + 120 * 1_000_000_000)
                            case CloseWindow => Window("", s.window.expires)
                            case PairRedeem(_, _, _) => Window("", s.window.expires)
                            case _ => s.window)
            && match step
               case ChallengeMint(rpc, key, now) =>
                 && t.nonces.Keys == (set k | k in s.nonces && now < s.nonces[k].expires) + {key}
                 && t.nonces[key] == Nonce(s.calls[rpc].device, now + 60 * 1_000_000_000)
                 && forall k :: k in t.nonces && k != key ==> t.nonces[k] == s.nonces[k]
               case AuthConsume(rpc, _) => t.nonces == s.nonces - {s.calls[rpc].key}
               case _ => t.nonces == s.nonces
  {
    hide NextRegistry, NextTokens, NextStatus, NextPanes, NextCalls, Emits;
  }
}
