/**
 * The host's four small stores as values: session tokens, challenges, the pairing window
 * and the device registry. Times are nanoseconds on whatever clock the server was given.
 */
module Stores {
  import opened Options
  import opened Utf8

  type Id = string

  const SECOND: int := 1_000_000_000
  const TOKEN_TTL: int := 24 * 60 * 60 * SECOND
  const NONCE_TTL: int := 60 * SECOND
  const WINDOW_TTL: int := 2 * 60 * SECOND
  const KEY_SIZE := 32

  // ----- tokens

  datatype Session = Session(deviceID: Id, expires: int)

  function MintToken(sessions: map<string, Session>, tok: string, deviceID: Id, now: int): map<string, Session> {
    sessions[tok := Session(deviceID, now + TOKEN_TTL)]
  }

  // "" stands for unknown or expired.
  function ResolveToken(sessions: map<string, Session>, tok: string, now: int): Id {
    if tok in sessions && now < sessions[tok].expires then sessions[tok].deviceID else ""
  }

  // An expired entry is removed on sight.
  function AfterResolve(sessions: map<string, Session>, tok: string, now: int): map<string, Session> {
    if tok in sessions && now >= sessions[tok].expires then sessions - {tok} else sessions
  }

  function DropTokens(sessions: map<string, Session>, deviceID: Id): map<string, Session> {
    map tok | tok in sessions && sessions[tok].deviceID != deviceID :: sessions[tok]
  }

  // ----- challenges

  datatype Nonce = Nonce(deviceID: Id, expires: int)

  function MintNonce(issued: map<string, Nonce>, key: string, deviceID: Id, now: int): map<string, Nonce> {
    (map k | k in issued && now < issued[k].expires :: issued[k])[key := Nonce(deviceID, now + NONCE_TTL)]
  }

  predicate NonceLive(issued: map<string, Nonce>, key: string, deviceID: Id, now: int) {
    key in issued && now < issued[key].expires && issued[key].deviceID == deviceID
  }

  // ----- the pairing window; "" is no window

  datatype Window = Window(secret: string, expires: int)

  predicate WindowOpen(w: Window, now: int) {
    w.secret != "" && now < w.expires
  }

  predicate Redeems(w: Window, secret: string, now: int) {
    WindowOpen(w, now) && w.secret == secret
  }

  // ----- the registry

  datatype Device = Device(
    id: Id, name: Bytes, model: Bytes, publicKey: Bytes, capabilities: seq<string>,
    pairedAt: int, lastSeenAt: Option<int>, revokedAt: Option<int>)

  const CAP_STATUS_READ := "status.read"
  const CAP_AGENT_ANSWER := "agent.answer"
  const CAP_AGENT_COMMAND := "agent.command"
  const CAP_SESSION_READ := "session.read"
  const DEFAULT_CAPABILITIES := [CAP_STATUS_READ, CAP_AGENT_ANSWER, CAP_AGENT_COMMAND, CAP_SESSION_READ]

  predicate KnownCapability(c: string) {
    c == CAP_STATUS_READ || c == CAP_AGENT_ANSWER || c == CAP_AGENT_COMMAND || c == CAP_SESSION_READ
  }

  /** The known capabilities asked for, each once, in the order first asked. */
  function Recognized(caps: seq<string>): (r: seq<string>)
    ensures forall c :: c in r <==> c in caps && KnownCapability(c)
    ensures forall i, j :: 0 <= i < j < |r| ==> r[i] != r[j]
    ensures |r| <= |caps|
  {
    if caps == [] then []
    else
      var before, c := caps[..|caps| - 1], caps[|caps| - 1];
      var r := Recognized(before);
      if KnownCapability(c) && c !in r then r + [c] else r
  }

  // Where a capability is first asked for.
  function FirstAsked(caps: seq<string>, c: string): (n: nat)
    requires c in caps
    ensures n < |caps| && caps[n] == c && forall i :: 0 <= i < n ==> caps[i] != c
  {
    if caps[0] == c then 0 else 1 + FirstAsked(caps[1..], c)
  }

  /** They are kept in the order first asked. */
  lemma {:induction false} RecognizedInOrder(caps: seq<string>, i: nat, j: nat)
    requires i < j < |Recognized(caps)|
    ensures FirstAsked(caps, Recognized(caps)[i]) < FirstAsked(caps, Recognized(caps)[j])
  {
    hide KnownCapability, FirstAsked;
    var before, c, r := caps[..|caps| - 1], caps[|caps| - 1], Recognized(caps);
    assert caps == before + [c];
    assert r[i] == Recognized(before)[i];
    FirstAskedBefore(before, c, r[i]);
    if j < |Recognized(before)| {
      RecognizedInOrder(before, i, j);
      FirstAskedBefore(before, c, r[j]);
    } else {
      assert r[j] == c && c !in before;
    }
  }

  lemma FirstAskedBefore(before: seq<string>, c: string, x: string)
    requires x in before
    ensures x in before + [c] && FirstAsked(before + [c], x) == FirstAsked(before, x)
  {
    hide FirstAsked;
    var n := FirstAsked(before, x);
    assert (before + [c])[n] == x;
    assert forall i :: 0 <= i < n ==> (before + [c])[i] == before[i];
  }

  /**
   * What a device asks for when it pairs. `id` is the fingerprint of its key; `proven`
   * says whether its proof verifies, which is checked before the secret is spent.
   */
  datatype PairRequest = PairRequest(
    current: bool, proven: bool, secret: string,
    id: Id, name: Bytes, model: Bytes, publicKey: Bytes, capabilities: seq<string>)

  predicate Wellformed(req: PairRequest) {
    req.current && |req.publicKey| == KEY_SIZE && req.proven
  }

  function Asked(req: PairRequest): seq<string> {
    if req.capabilities == [] then DEFAULT_CAPABILITIES else req.capabilities
  }

  function Registration(req: PairRequest, now: int): Device {
    Device(req.id, Clip(req.name, DISPLAY_MAX), Clip(req.model, DISPLAY_MAX), req.publicKey, Asked(req), now, None, None)
  }

  /** A redemption of this request can end in a registration: whenever it is added, Add accepts it. */
  predicate Capable(req: PairRequest) {
    |req.publicKey| == KEY_SIZE && Recognized(Asked(req)) != []
  }

  predicate Permitted(devices: map<Id, Device>, id: Id, capability: string) {
    id in devices && devices[id].revokedAt.None? && capability in devices[id].capabilities
  }

  predicate Addable(d: Device) {
    |d.publicKey| == KEY_SIZE && Recognized(d.capabilities) != []
  }

  const CAPABILITIES := ["status.read", "agent.answer", "agent.command", "session.read"]

  /** What a pairing leaves in the book, said outright. */
  ghost predicate RegisteredAs(d: Device, req: PairRequest, now: int) {
    && d.id == req.id && d.publicKey == req.publicKey
    && ClippedTo(req.name, d.name, 200) && ClippedTo(req.model, d.model, 200)
    && d.pairedAt == now && d.lastSeenAt == None && d.revokedAt == None
    && (forall c :: c in d.capabilities <==> c in CAPABILITIES && (c in req.capabilities || req.capabilities == []))
    && (forall i, j :: 0 <= i < j < |d.capabilities| ==> d.capabilities[i] != d.capabilities[j])
  }

  /** A request of this protocol, with a key of 32 bytes and a good proof, for the open window. */
  ghost predicate Spends(req: PairRequest, w: Window, now: int) {
    && req.current && |req.publicKey| == 32 && req.proven
    && w.secret != "" && req.secret == w.secret && now < w.expires
  }

  /** A key of 32 bytes, and something known asked for, or nothing at all. */
  ghost predicate Registers(req: PairRequest) {
    |req.publicKey| == 32 && (req.capabilities == [] || exists c :: c in req.capabilities && c in CAPABILITIES)
  }

  lemma KnownAreTheFour(c: string)
    ensures KnownCapability(c) <==> c in CAPABILITIES
    ensures c in DEFAULT_CAPABILITIES <==> c in CAPABILITIES
  {
  }

  lemma RegistrationIsAsked(req: PairRequest, now: int)
    ensures Capable(req) <==> Registers(req)
    ensures Addable(Registration(req, now)) <==> Registers(req)
    ensures var d := Registration(req, now); RegisteredAs(d.(capabilities := Recognized(d.capabilities)), req, now)
  {
    hide Recognized, KnownCapability, Clip;
    ClipClips(req.name, 200);
    ClipClips(req.model, 200);
    forall c ensures c in Recognized(Asked(req)) <==> c in CAPABILITIES && (c in req.capabilities || req.capabilities == []) {
      KnownAreTheFour(c);
    }
    if Recognized(Asked(req)) != [] {
      assert Recognized(Asked(req))[0] in Recognized(Asked(req));
    }
    assert "status.read" in CAPABILITIES;
  }

  function AddDevice(devices: map<Id, Device>, d: Device): map<Id, Device> {
    devices[d.id := d.(capabilities := Recognized(d.capabilities))]
  }

  // A second revocation keeps the first one's time.
  function Tombstone(devices: map<Id, Device>, id: Id, at: int): map<Id, Device>
    requires id in devices
  {
    if devices[id].revokedAt.Some? then devices else devices[id := devices[id].(revokedAt := Some(at))]
  }
}
