/**
 * The four signed statements: edge commands and events, and the link rail's pairing proof
 * and challenge answer. SHA-256 and Ed25519 are parameters; what a lemma needs of them it
 * says.
 */
module Envelope {
  import opened Options
  import opened Utf8
  import opened Canonical

  // A protobuf timestamp: seconds and nanoseconds from the Unix epoch.
  datatype Stamp = Stamp(seconds: int, nanos: int)

  datatype Payload = Payload(typeUrl: Bytes, value: Bytes)

  datatype EdgeCommand = EdgeCommand(
    protocolVersion: Bytes, commandId: Bytes, logicalOperationId: Bytes, attempt: U32, deviceId: Bytes,
    taskId: Bytes, workflowRunId: Bytes, resourceType: Bytes, resourceId: Bytes, fencingToken: U64,
    expectedAggregateVersion: U64, expiresAt: Option<Stamp>, idempotencyKey: Bytes, approvalGrantId: Bytes,
    policyContextHash: Bytes, payload: Option<Payload>, payloadDigest: Bytes,
    cloudSignature: Bytes, approvalGrant: Bytes, ledgerPayload: Bytes)

  datatype EdgeEvent = EdgeEvent(
    eventId: Bytes, deviceId: Bytes, deviceSequence: U64, commandId: Bytes, kind: Bytes,
    occurredAt: Option<Stamp>, fencingToken: U64, payload: Option<Payload>, payloadDigest: Bytes,
    deviceSignature: Bytes, traceparent: Bytes)

  datatype Statement =
    | Command(cmd: EdgeCommand)
    | Event(ev: EdgeEvent)
    | PairProof(hostID: Bytes, secret: Bytes, deviceKey: Bytes)
    | AuthAnswer(hostID: Bytes, deviceID: Bytes, nonce: Bytes)

  type U32 = v: int | 0 <= v < 0x1_0000_0000

  type Sha = Bytes -> Bytes

  ghost predicate Digests(sha: Sha) {
    forall m: Bytes :: |sha(m)| == 32
  }

  const COMMAND_DOMAIN := Text("rook-edge-command/v1")
  const EVENT_DOMAIN := Text("rook-edge-event/v1")
  const PAIR_DOMAIN := Text("rook-link-pair/v1")
  const AUTH_DOMAIN := Text("rook-link-auth/v1")

  // ----- what is signed

  function Nanos(t: Option<Stamp>): int {
    if t.None? then 0 else t.value.seconds * 1_000_000_000 + t.value.nanos
  }

  // UnixNano is a signed 64-bit count that wraps, and is signed as its unsigned word.
  function NanoWord(t: Option<Stamp>): U64 {
    Nanos(t) % WORD
  }

  function PayloadType(p: Option<Payload>): Bytes {
    if p.None? then [] else p.value.typeUrl
  }

  function PayloadSum(p: Option<Payload>, sha: Sha): Bytes {
    if p.None? then [] else sha(p.value.value)
  }

  function CommandFields(c: EdgeCommand, sha: Sha): seq<Bytes> {
    [c.protocolVersion, c.commandId, c.logicalOperationId, Word(c.attempt), c.deviceId,
     c.taskId, c.workflowRunId, c.resourceType, c.resourceId, Word(c.fencingToken),
     Word(c.expectedAggregateVersion), Word(NanoWord(c.expiresAt)), c.idempotencyKey, c.approvalGrantId,
     c.policyContextHash, PayloadType(c.payload), PayloadSum(c.payload, sha), c.payloadDigest]
  }

  function EventFields(e: EdgeEvent, sha: Sha): seq<Bytes> {
    [e.eventId, e.deviceId, Word(e.deviceSequence), e.commandId, e.kind, Word(NanoWord(e.occurredAt)),
     Word(e.fencingToken), PayloadType(e.payload), PayloadSum(e.payload, sha), e.payloadDigest]
  }

  function Domain(s: Statement): Bytes {
    match s
    case Command(_) => COMMAND_DOMAIN
    case Event(_) => EVENT_DOMAIN
    case PairProof(_, _, _) => PAIR_DOMAIN
    case AuthAnswer(_, _, _) => AUTH_DOMAIN
  }

  function Fields(s: Statement, sha: Sha): seq<Bytes> {
    match s
    case Command(c) => CommandFields(c, sha)
    case Event(e) => EventFields(e, sha)
    case PairProof(host, secret, key) => [host, secret, key]
    case AuthAnswer(host, device, nonce) => [host, device, nonce]
  }

  function SignedBytes(s: Statement, sha: Sha): Bytes {
    Encode(Domain(s), Fields(s, sha))
  }

  // ----- what a verifier reads back

  // Seconds and nanoseconds as one count, or none as zero, in a 64-bit word that wraps.
  predicate StampWord(f: Bytes, t: Option<Stamp>) {
    f == Word((if t.None? then 0 else t.value.seconds * 1_000_000_000 + t.value.nanos) % 0x1_0000_0000_0000_0000)
  }

  predicate PayloadFields(f: Bytes, g: Bytes, p: Option<Payload>, sha: Sha) {
    match p
    case None => f == [] && g == []
    case Some(any) => f == any.typeUrl && g == sha(any.value)
  }

  predicate CommandRead(f: seq<Bytes>, c: EdgeCommand, sha: Sha) {
    && |f| == 18
    && f[0] == c.protocolVersion && f[1] == c.commandId && f[2] == c.logicalOperationId && f[3] == Word(c.attempt)
    && f[4] == c.deviceId && f[5] == c.taskId && f[6] == c.workflowRunId && f[7] == c.resourceType
    && f[8] == c.resourceId && f[9] == Word(c.fencingToken) && f[10] == Word(c.expectedAggregateVersion)
    && StampWord(f[11], c.expiresAt) && f[12] == c.idempotencyKey && f[13] == c.approvalGrantId
    && f[14] == c.policyContextHash && PayloadFields(f[15], f[16], c.payload, sha) && f[17] == c.payloadDigest
  }

  predicate EventRead(f: seq<Bytes>, e: EdgeEvent, sha: Sha) {
    && |f| == 10
    && f[0] == e.eventId && f[1] == e.deviceId && f[2] == Word(e.deviceSequence) && f[3] == e.commandId
    && f[4] == e.kind && StampWord(f[5], e.occurredAt) && f[6] == Word(e.fencingToken)
    && PayloadFields(f[7], f[8], e.payload, sha) && f[9] == e.payloadDigest
  }

  /** A label of its own for each kind of statement, and the fields in this order. */
  predicate ReadAs(s: Statement, tag: Bytes, f: seq<Bytes>, sha: Sha) {
    match s
    case Command(c) => tag == Text("rook-edge-command/v1") && CommandRead(f, c, sha)
    case Event(e) => tag == Text("rook-edge-event/v1") && EventRead(f, e, sha)
    case PairProof(host, secret, key) => tag == Text("rook-link-pair/v1") && f == [host, secret, key]
    case AuthAnswer(host, device, nonce) => tag == Text("rook-link-auth/v1") && f == [host, device, nonce]
  }

  lemma CommandFieldsRead(c: EdgeCommand, f: seq<Bytes>, sha: Sha)
    ensures CommandRead(f, c, sha) <==> f == CommandFields(c, sha)
  {
    hide Word;
  }

  lemma EventFieldsRead(e: EdgeEvent, f: seq<Bytes>, sha: Sha)
    ensures EventRead(f, e, sha) <==> f == EventFields(e, sha)
  {
    hide Word;
  }

  lemma FieldsRead(s: Statement, f: seq<Bytes>, sha: Sha)
    ensures ReadAs(s, Domain(s), f, sha) <==> f == Fields(s, sha)
  {
    hide CommandFields, EventFields, CommandRead, EventRead;
    match s
    case Command(c) => CommandFieldsRead(c, f, sha);
    case Event(e) => EventFieldsRead(e, f, sha);
    case _ =>
  }

  /** The bytes that are signed decode to the statement's label and fields, and to nothing else. */
  lemma SignedBytesRead(s: Statement, tag: Bytes, f: seq<Bytes>, sha: Sha)
    requires Fits(Fields(s, sha))
    ensures Decode(SignedBytes(s, sha)) == Some((tag, f)) <==> ReadAs(s, tag, f, sha)
  {
    hide Encode, Decode, Fields, CommandRead, EventRead, Text;
    LabelsFit(s);
    DecodeInverts(Domain(s), Fields(s, sha), []);
    FieldsRead(s, f, sha);
  }

  lemma LabelsFit(s: Statement)
    ensures |Domain(s)| <= 20
  {
  }

  // ----- when two statements are the same statement

  predicate SamePayload(p: Option<Payload>, q: Option<Payload>, sha: Sha) {
    if p.None? || q.None? then p == q
    else p.value.typeUrl == q.value.typeUrl && sha(p.value.value) == sha(q.value.value)
  }

  // No timestamp is the epoch's; and so is any a whole number of 2^64 nanoseconds from it.
  predicate SameStamp(t: Option<Stamp>, u: Option<Stamp>) {
    NanoWord(t) == NanoWord(u)
  }

  /** Every field but the signature, the grant document and the ledger's payload bytes. */
  predicate SameCommand(a: EdgeCommand, b: EdgeCommand, sha: Sha) {
    && SameStamp(a.expiresAt, b.expiresAt)
    && SamePayload(a.payload, b.payload, sha)
    && a.(expiresAt := None, payload := None, cloudSignature := [], approvalGrant := [], ledgerPayload := [])
       == b.(expiresAt := None, payload := None, cloudSignature := [], approvalGrant := [], ledgerPayload := [])
  }

  /** Every field but the signature and the trace context. */
  predicate SameEvent(a: EdgeEvent, b: EdgeEvent, sha: Sha) {
    && SameStamp(a.occurredAt, b.occurredAt)
    && SamePayload(a.payload, b.payload, sha)
    && a.(occurredAt := None, payload := None, deviceSignature := [], traceparent := [])
       == b.(occurredAt := None, payload := None, deviceSignature := [], traceparent := [])
  }

  predicate SameStatement(s: Statement, t: Statement, sha: Sha) {
    match (s, t)
    case (Command(a), Command(b)) => SameCommand(a, b, sha)
    case (Event(a), Event(b)) => SameEvent(a, b, sha)
    case _ => s == t && !s.Command? && !s.Event?
  }

  lemma WordsDiffer(v: U64, w: U64)
    ensures Word(v) == Word(w) <==> v == w
  {
    WordBijection(v, Word(w));
    WordBijection(w, Word(w));
  }

  lemma CommandFieldsBind(a: EdgeCommand, b: EdgeCommand, sha: Sha)
    requires Digests(sha)
    ensures CommandFields(a, sha) == CommandFields(b, sha) <==> SameCommand(a, b, sha)
  {
    hide BigEndian, Number, Pow256, Nanos;
    var f, g := CommandFields(a, sha), CommandFields(b, sha);
    WordsDiffer(a.attempt, b.attempt);
    WordsDiffer(a.fencingToken, b.fencingToken);
    WordsDiffer(a.expectedAggregateVersion, b.expectedAggregateVersion);
    WordsDiffer(NanoWord(a.expiresAt), NanoWord(b.expiresAt));
    assert f == g ==> forall i :: 0 <= i < 18 ==> f[i] == g[i];
    assert f == g ==> f[0] == g[0] && f[1] == g[1] && f[2] == g[2] && f[3] == g[3] && f[4] == g[4] && f[5] == g[5]
                      && f[6] == g[6] && f[7] == g[7] && f[8] == g[8] && f[9] == g[9] && f[10] == g[10]
                      && f[11] == g[11] && f[12] == g[12] && f[13] == g[13] && f[14] == g[14] && f[15] == g[15]
                      && f[16] == g[16] && f[17] == g[17];
  }

  lemma EventFieldsBind(a: EdgeEvent, b: EdgeEvent, sha: Sha)
    requires Digests(sha)
    ensures EventFields(a, sha) == EventFields(b, sha) <==> SameEvent(a, b, sha)
  {
    hide BigEndian, Number, Pow256, Nanos;
    var f, g := EventFields(a, sha), EventFields(b, sha);
    WordsDiffer(a.deviceSequence, b.deviceSequence);
    WordsDiffer(a.fencingToken, b.fencingToken);
    WordsDiffer(NanoWord(a.occurredAt), NanoWord(b.occurredAt));
    assert f == g ==> f[0] == g[0] && f[1] == g[1] && f[2] == g[2] && f[3] == g[3] && f[4] == g[4] && f[5] == g[5]
                      && f[6] == g[6] && f[7] == g[7] && f[8] == g[8] && f[9] == g[9];
  }

  lemma DomainsDiffer(s: Statement, t: Statement)
    ensures |Domain(s)| <= 20
    ensures Domain(s) == Domain(t) <==>
              (s.Command? && t.Command?) || (s.Event? && t.Event?)
              || (s.PairProof? && t.PairProof?) || (s.AuthAnswer? && t.AuthAnswer?)
  {
    assert PAIR_DOMAIN[10] == 'p' as int && AUTH_DOMAIN[10] == 'a' as int;
  }

  lemma ThreeFields(a: Bytes, b: Bytes, c: Bytes, d: Bytes, e: Bytes, f: Bytes)
    ensures [a, b, c] == [d, e, f] <==> a == d && b == e && c == f
  {
    assert [a, b, c] == [d, e, f] ==>
        [a, b, c][0] == [d, e, f][0] && [a, b, c][1] == [d, e, f][1] && [a, b, c][2] == [d, e, f][2];
  }

  /**
   * Two statements are signed as the same bytes exactly when they are the same statement:
   * of the same kind, with every bound field equal. So no statement of one kind can pass
   * for one of another, and no bound field can change under a signature.
   */
  lemma SignedBytesBind(s: Statement, t: Statement, sha: Sha)
    requires Digests(sha)
    requires Fits(Fields(s, sha)) && Fits(Fields(t, sha))
    ensures SignedBytes(s, sha) == SignedBytes(t, sha) <==> SameStatement(s, t, sha)
  {
    hide Encode, CommandFields, EventFields, SameCommand, SameEvent, Domain;
    DomainsDiffer(s, t);
    DomainsDiffer(t, s);
    EncodeInjective(Domain(s), Fields(s, sha), Domain(t), Fields(t, sha));
    match (s, t) {
      case (Command(a), Command(b)) => CommandFieldsBind(a, b, sha);
      case (Event(a), Event(b)) => EventFieldsBind(a, b, sha);
      case (PairProof(h, x, k), PairProof(h', x', k')) =>
        ThreeFields(h, x, k, h', x', k');
      case (AuthAnswer(h, x, k), AuthAnswer(h', x', k')) =>
        ThreeFields(h, x, k, h', x', k');
      case _ =>
    }
  }

  // ----- timestamps

  // What a signed 64-bit nanosecond count holds: the years 1678 to 2262.
  predicate Countable(t: Option<Stamp>) {
    -WORD / 2 <= Nanos(t) < WORD / 2
  }

  /** Within range a timestamp is bound exactly, up to absent being the epoch. */
  lemma CountableStampsBind(t: Option<Stamp>, u: Option<Stamp>)
    requires Countable(t) && Countable(u)
    ensures SameStamp(t, u) <==> Nanos(t) == Nanos(u)
  {
    WrapsApart(Nanos(t), Nanos(u));
  }

  lemma WrapsApart(m: int, n: int)
    ensures m % WORD == n % WORD <==> exists k :: m == n + k * WORD
  {
    if m % WORD == n % WORD {
      assert m == n + (m / WORD - n / WORD) * WORD;
    }
    if k :| m == n + k * WORD {
      assert m == (n / WORD + k) * WORD + n % WORD;
      Quotient(m, n / WORD + k, n % WORD);
    }
  }

  lemma Quotient(m: int, q: int, r: nat)
    requires m == q * WORD + r && r < WORD
    ensures m % WORD == r
  {
  }

  /** Out of range it is not: an expiry in the year 2554 is signed as no expiry at all. */
  lemma FarExpirySignsAsNone(c: EdgeCommand, sha: Sha)
    ensures var far := c.(expiresAt := Some(Stamp(18_446_744_073, 709_551_616)));
            SignedBytes(Command(far), sha) == SignedBytes(Command(c.(expiresAt := None)), sha)
  {
    hide Encode, Word;
    assert Nanos(Some(Stamp(18_446_744_073, 709_551_616))) == WORD;
  }

  // ----- signatures

  datatype Scheme = Scheme(
    public: Bytes -> Bytes, sign: (Bytes, Bytes) -> Bytes, verify: (Bytes, Bytes, Bytes) -> bool)

  /** A signature is never empty and verifies for the message it was made for, no other. */
  ghost predicate Ideal(scheme: Scheme) {
    && (forall priv: Bytes, m: Bytes :: scheme.sign(priv, m) != [])
    && forall priv: Bytes, m: Bytes, n: Bytes ::
         scheme.verify(scheme.public(priv), n, scheme.sign(priv, m)) <==> m == n
  }

  /**
   * A signature made for one statement verifies for another exactly when they are the same
   * statement: a pairing proof answers no challenge, and neither serves for another host.
   */
  lemma SignatureHolds(signed: Statement, sent: Statement, priv: Bytes, scheme: Scheme, sha: Sha)
    requires Ideal(scheme) && Digests(sha)
    requires Fits(Fields(signed, sha)) && Fits(Fields(sent, sha))
    ensures scheme.verify(scheme.public(priv), SignedBytes(sent, sha), scheme.sign(priv, SignedBytes(signed, sha)))
            <==> SameStatement(signed, sent, sha)
  {
    hide SignedBytes, Fields, SameStatement;
    SignedBytesBind(signed, sent, sha);
  }

  function SignCommand(c: EdgeCommand, priv: Bytes, scheme: Scheme, sha: Sha): EdgeCommand {
    c.(cloudSignature := scheme.sign(priv, SignedBytes(Command(c), sha)))
  }

  predicate VerifyCommand(c: EdgeCommand, pub: Bytes, scheme: Scheme, sha: Sha) {
    c.cloudSignature != [] && scheme.verify(pub, SignedBytes(Command(c), sha), c.cloudSignature)
  }

  function SignEvent(e: EdgeEvent, priv: Bytes, scheme: Scheme, sha: Sha): EdgeEvent {
    e.(deviceSignature := scheme.sign(priv, SignedBytes(Event(e), sha)))
  }

  predicate VerifyEvent(e: EdgeEvent, pub: Bytes, scheme: Scheme, sha: Sha) {
    e.deviceSignature != [] && scheme.verify(pub, SignedBytes(Event(e), sha), e.deviceSignature)
  }

  /**
   * A command carrying the signature of another verifies exactly when every bound field
   * is still the other's. The grant document and the ledger bytes may be anything.
   */
  lemma SignatureHoldsCommand(signed: EdgeCommand, sent: EdgeCommand, priv: Bytes, scheme: Scheme, sha: Sha)
    requires Ideal(scheme) && Digests(sha)
    requires Fits(CommandFields(signed, sha)) && Fits(CommandFields(sent, sha))
    requires sent.cloudSignature == SignCommand(signed, priv, scheme, sha).cloudSignature
    ensures VerifyCommand(sent, scheme.public(priv), scheme, sha) <==> SameCommand(signed, sent, sha)
  {
    hide SignedBytes, CommandFields, SameCommand;
    SignatureHolds(Command(signed), Command(sent), priv, scheme, sha);
  }

  lemma SignatureHoldsEvent(signed: EdgeEvent, sent: EdgeEvent, priv: Bytes, scheme: Scheme, sha: Sha)
    requires Ideal(scheme) && Digests(sha)
    requires Fits(EventFields(signed, sha)) && Fits(EventFields(sent, sha))
    requires sent.deviceSignature == SignEvent(signed, priv, scheme, sha).deviceSignature
    ensures VerifyEvent(sent, scheme.public(priv), scheme, sha) <==> SameEvent(signed, sent, sha)
  {
    hide SignedBytes, EventFields, SameEvent;
    SignatureHolds(Event(signed), Event(sent), priv, scheme, sha);
  }
}
