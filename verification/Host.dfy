/**
 * Every interleaving of the host's pairing, authentication, authorization and revocation
 * calls. Each store is locked on its own, so a call is a sequence of atomic steps and any
 * other call may run between two of them. A run is any sequence of steps; a step that is
 * not enabled does nothing. `log` records what took effect, and the stamps carried by
 * tokens, streams and calls in flight are positions in it.
 *
 * What is assumed of minted values is that a challenge is never issued twice nor presented
 * before it is issued, and that no window secret and no key's fingerprint is empty.
 */
module Host {
  import opened Options
  import opened Stores

  type Rpc = nat
  type Stream = nat

  /**
   * The calls that authorize. Two of them go on to open a stream; `watchable` says whether
   * the session a pane stream asks for is named, in at most 128 bytes.
   */
  datatype Purpose = GetStatus | GetDigest | SubmitAnswer | SubmitCommand | WatchStatus | WatchPane(watchable: bool)

  function Needs(m: Purpose): string {
    match m
    case GetStatus => CAP_STATUS_READ
    case WatchStatus => CAP_STATUS_READ
    case GetDigest => CAP_SESSION_READ
    case WatchPane(_) => CAP_SESSION_READ
    case SubmitAnswer => CAP_AGENT_ANSWER
    case SubmitCommand => CAP_AGENT_COMMAND
  }

  // A pane stream is refused on a host without a source, or for no usable session.
  predicate Subscribes(m: Purpose, hasSource: bool) {
    m.WatchStatus? || (m.WatchPane? && m.watchable && hasSource)
  }

  datatype Event =
    | Opened(secret: string, at: int)
    | Redeemed(rpc: Rpc, device: Id, capable: bool, req: PairRequest, at: int)
    | Registered(rpc: Rpc, device: Id, persisted: bool)
    | Refused(rpc: Rpc)                       // redeemed, then no recognized capability
    | Tombstoned(rpc: Rpc, device: Id, persisted: bool)
    | TokensDropped(rpc: Rpc, device: Id)
    | StatusDropped(rpc: Rpc, device: Id)
    | PanesDropped(rpc: Rpc, device: Id)
    | Challenged(key: string, device: Id, at: int)
    // Authenticate found the device live; `signed`: the answer verifies under its key
    | AuthPassed(rpc: Rpc, device: Id, key: string, signed: bool)
    | Consumed(rpc: Rpc, key: string, device: Id, at: int, good: bool)
    | Minted(rpc: Rpc, tok: string, device: Id, key: string, at: int)
    | Authorized(rpc: Rpc, device: Id, capability: string, tok: string, at: int)
    | Subscribed(stream: Stream, device: Id)

  // Where a call is between two of its locks.
  datatype Call =
    | Pairing(req: PairRequest, redeemed: nat)
    | Dropping(device: Id, next: nat)
    | Challenging(device: Id)
    | Answering(device: Id, key: string, signed: bool, passed: nat)
    | Minting(device: Id, key: string, passed: nat, consumed: nat)
    | Resolved(device: Id, purpose: Purpose, tok: string, at: int, minted: nat)
    | Admitted(device: Id, purpose: Purpose, authorized: nat)
    | Done

  datatype Token = Token(session: Session, minted: nat, passed: nat)
  datatype Live = Live(device: Id, since: nat, authorized: nat)

  datatype State = State(
    hasSource: bool,
    registry: map<Id, Device>,
    tokens: map<string, Token>,
    nonces: map<string, Nonce>,
    window: Window,
    status: map<Stream, Live>,
    panes: map<Stream, Live>,
    calls: map<Rpc, Call>,
    log: seq<Event>)

  datatype Step =
    | OpenWindow(secret: string, now: int)
    | CloseWindow
    | PairRedeem(rpc: Rpc, req: PairRequest, now: int)
    | PairAdd(rpc: Rpc, now: int, persisted: bool)
    | Revoke(rpc: Rpc, device: Id, now: int, persisted: bool)
    | DropNext(rpc: Rpc)
    | SetCapabilities(device: Id, caps: seq<string>)
    | ChallengeCheck(rpc: Rpc, device: Id)
    | ChallengeMint(rpc: Rpc, key: string, now: int)
    | AuthCheck(rpc: Rpc, device: Id, key: string, signed: bool)
    | AuthConsume(rpc: Rpc, now: int)
    | AuthMint(rpc: Rpc, tok: string, now: int)
    | Touch(device: Id, now: int)
    | Resolve(rpc: Rpc, tok: string, purpose: Purpose, now: int)
    | Allow(rpc: Rpc)
    | Watch(rpc: Rpc, stream: Stream)
    | Leave(stream: Stream)

  predicate Registrable(registry: map<Id, Device>, id: Id) {
    id in registry && registry[id].revokedAt.None?
  }

  predicate Issued(log: seq<Event>, key: string) {
    exists i :: 0 <= i < |log| && log[i].Challenged? && log[i].key == key
  }

  // Some call in flight has presented this challenge.
  predicate Presented(calls: map<Rpc, Call>, key: string) {
    exists rpc :: rpc in calls && calls[rpc].Answering? && calls[rpc].key == key
  }

  function DropToken(tokens: map<string, Token>, device: Id): map<string, Token> {
    map t | t in tokens && tokens[t].session.deviceID != device :: tokens[t]
  }

  function DropStreams(streams: map<Stream, Live>, device: Id): map<Stream, Live> {
    map x | x in streams && streams[x].device != device :: streams[x]
  }

  // ----- one step, store by store

  predicate Enabled(s: State, step: Step) {
    match step
    case OpenWindow(secret, _) => secret != ""  // a minted secret never is
    case CloseWindow => true
    case PairRedeem(rpc, req, now) =>
      rpc !in s.calls && Wellformed(req) && req.id != "" && Redeems(s.window, req.secret, now)  // no fingerprint is empty
    case PairAdd(rpc, _, _) => rpc in s.calls && s.calls[rpc].Pairing?
    case Revoke(rpc, device, _, _) => rpc !in s.calls && device in s.registry
    case DropNext(rpc) => rpc in s.calls && s.calls[rpc].Dropping?
    case SetCapabilities(device, _) => device in s.registry
    case ChallengeCheck(rpc, device) => rpc !in s.calls && Registrable(s.registry, device)
    case ChallengeMint(rpc, key, _) =>
      rpc in s.calls && s.calls[rpc].Challenging? && !Issued(s.log, key) && !Presented(s.calls, key)
    case AuthCheck(rpc, device, _, _) => rpc !in s.calls && Registrable(s.registry, device)
    case AuthConsume(rpc, _) => rpc in s.calls && s.calls[rpc].Answering?
    case AuthMint(rpc, _, _) => rpc in s.calls && s.calls[rpc].Minting?
    case Touch(device, _) => device in s.registry
    case Resolve(rpc, tok, _, _) => rpc !in s.calls && tok in s.tokens
    case Allow(rpc) => rpc in s.calls && s.calls[rpc].Resolved?
    case Watch(rpc, stream) =>
      rpc in s.calls && s.calls[rpc].Admitted? && Subscribes(s.calls[rpc].purpose, s.hasSource)
      && stream !in s.status && stream !in s.panes
    case Leave(_) => true
  }

  function Apply(s: State, step: Step): State {
    if Enabled(s, step) then
      State(s.hasSource, NextRegistry(s, step), NextTokens(s, step), NextNonces(s, step), NextWindow(s, step),
            NextStatus(s, step), NextPanes(s, step), NextCalls(s, step), s.log + Emits(s, step))
    else s
  }

  function NextWindow(s: State, step: Step): Window
    requires Enabled(s, step)
  {
    match step
    case OpenWindow(secret, now) => Window(secret, now + WINDOW_TTL)
    case CloseWindow => s.window.(secret := "")
    case PairRedeem(_, _, _) => s.window.(secret := "")
    case _ => s.window
  }

  // Add replaces any registration, live or tombstoned. Add and Revoke take effect in
  // memory even when they then fail to persist.
  function NextRegistry(s: State, step: Step): map<Id, Device>
    requires Enabled(s, step)
  {
    match step
    case PairAdd(rpc, now, _) =>
      var d := Registration(s.calls[rpc].req, now);
      if Addable(d) then AddDevice(s.registry, d) else s.registry
    case Revoke(_, device, now, _) => Tombstone(s.registry, device, now)
    case SetCapabilities(device, caps) =>
      s.registry[device := s.registry[device].(capabilities := Recognized(caps))]
    case Touch(device, now) => s.registry[device := s.registry[device].(lastSeenAt := Some(now))]
    case _ => s.registry
  }

  function NextNonces(s: State, step: Step): map<string, Nonce>
    requires Enabled(s, step)
  {
    match step
    case ChallengeMint(rpc, key, now) => MintNonce(s.nonces, key, s.calls[rpc].device, now)
    case AuthConsume(rpc, _) => s.nonces - {s.calls[rpc].key}
    case _ => s.nonces
  }

  function NextTokens(s: State, step: Step): map<string, Token>
    requires Enabled(s, step)
  {
    match step
    case AuthMint(rpc, tok, now) =>
      s.tokens[tok := Token(Session(s.calls[rpc].device, now + TOKEN_TTL), |s.log|, s.calls[rpc].passed)]
    case Resolve(_, tok, _, now) => if now < s.tokens[tok].session.expires then s.tokens else s.tokens - {tok}
    case DropNext(rpc) => if s.calls[rpc].next == 0 then DropToken(s.tokens, s.calls[rpc].device) else s.tokens
    case _ => s.tokens
  }

  function NextStatus(s: State, step: Step): map<Stream, Live>
    requires Enabled(s, step)
  {
    match step
    case Watch(rpc, stream) =>
      if s.calls[rpc].purpose.WatchPane? then s.status
      else s.status[stream := Live(s.calls[rpc].device, |s.log|, s.calls[rpc].authorized)]
    case DropNext(rpc) => if s.calls[rpc].next == 1 then DropStreams(s.status, s.calls[rpc].device) else s.status
    case Leave(stream) => s.status - {stream}
    case _ => s.status
  }

  function NextPanes(s: State, step: Step): map<Stream, Live>
    requires Enabled(s, step)
  {
    match step
    case Watch(rpc, stream) =>
      if s.calls[rpc].purpose.WatchPane? then s.panes[stream := Live(s.calls[rpc].device, |s.log|, s.calls[rpc].authorized)]
      else s.panes
    case DropNext(rpc) => if s.calls[rpc].next >= 2 then DropStreams(s.panes, s.calls[rpc].device) else s.panes
    case Leave(stream) => s.panes - {stream}
    case _ => s.panes
  }

  // A challenge that is found is spent whether or not it was live, the device's, or the
  // signature good; only when all three hold does the call go on to mint.
  predicate Answered(s: State, c: Call, now: int)
    requires c.Answering?
  {
    NonceLive(s.nonces, c.key, c.device, now) && c.signed
  }

  /** Where the step leaves its call. */
  function NextCall(s: State, step: Step): Call
    requires Enabled(s, step)
  {
    match step
    case PairRedeem(_, req, _) => Pairing(req, |s.log|)
    case PairAdd(rpc, now, persisted) =>
      if Addable(Registration(s.calls[rpc].req, now)) && persisted then Dropping(s.calls[rpc].req.id, 0) else Done
    case Revoke(_, device, _, persisted) => if persisted then Dropping(device, 0) else Done
    case DropNext(rpc) =>
      if s.calls[rpc].next < 2 then s.calls[rpc].(next := s.calls[rpc].next + 1) else Done
    case ChallengeCheck(_, device) => Challenging(device)
    case AuthCheck(_, device, key, signed) => Answering(device, key, signed, |s.log|)
    case AuthConsume(rpc, now) =>
      var c := s.calls[rpc];
      if Answered(s, c, now) then Minting(c.device, c.key, c.passed, |s.log|) else Done
    case Resolve(_, tok, purpose, now) =>
      var t := s.tokens[tok];
      if now < t.session.expires && t.session.deviceID != ""
      then Resolved(t.session.deviceID, purpose, tok, now, t.minted) else Done
    case Allow(rpc) =>
      var c := s.calls[rpc];
      if Permitted(s.registry, c.device, Needs(c.purpose)) then Admitted(c.device, c.purpose, |s.log|) else Done
    case _ => Done
  }

  predicate OfACall(step: Step) {
    !step.OpenWindow? && !step.CloseWindow? && !step.SetCapabilities? && !step.Touch? && !step.Leave?
  }

  function NextCalls(s: State, step: Step): map<Rpc, Call>
    requires Enabled(s, step)
  {
    if OfACall(step) then s.calls[step.rpc := NextCall(s, step)] else s.calls
  }

  /** What the step records: at most one event. */
  function Emits(s: State, step: Step): (e: seq<Event>)
    requires Enabled(s, step)
    ensures |e| <= 1
  {
    match step
    case OpenWindow(secret, now) => [Opened(secret, now)]
    case PairRedeem(rpc, req, now) => [Redeemed(rpc, req.id, Capable(req), req, now)]
    case PairAdd(rpc, now, persisted) =>
      var d := Registration(s.calls[rpc].req, now);
      if Addable(d) then [Registered(rpc, d.id, persisted)] else [Refused(rpc)]
    case Revoke(rpc, device, _, persisted) => [Tombstoned(rpc, device, persisted)]
    case DropNext(rpc) =>
      var c := s.calls[rpc];
      if c.next == 0 then [TokensDropped(rpc, c.device)]
      else if c.next == 1 then [StatusDropped(rpc, c.device)]
      else [PanesDropped(rpc, c.device)]
    case ChallengeMint(rpc, key, now) => [Challenged(key, s.calls[rpc].device, now)]
    case AuthCheck(rpc, device, key, signed) => [AuthPassed(rpc, device, key, signed)]
    case AuthConsume(rpc, now) =>
      var c := s.calls[rpc];
      if c.key in s.nonces then [Consumed(rpc, c.key, c.device, now, Answered(s, c, now))] else []
    case AuthMint(rpc, tok, now) => [Minted(rpc, tok, s.calls[rpc].device, s.calls[rpc].key, now)]
    case Allow(rpc) =>
      var c := s.calls[rpc];
      if Permitted(s.registry, c.device, Needs(c.purpose))
      then [Authorized(rpc, c.device, Needs(c.purpose), c.tok, c.at)] else []
    case Watch(rpc, stream) => [Subscribed(stream, s.calls[rpc].device)]
    case _ => []
  }

  function Run(s: State, steps: seq<Step>): State
    decreases |steps|
  {
    if steps == [] then s else Run(Apply(s, steps[0]), steps[1..])
  }

  /** A fresh process: whatever registry file it loaded and source it was given, nothing else. */
  function Start(registry: map<Id, Device>, hasSource: bool): State {
    State(hasSource, registry, map[], map[], Window("", 0), map[], map[], map[], [])
  }
}
