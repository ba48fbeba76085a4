/**
 * Approval grants: a human's yes to one exact action, and the checklist a device runs
 * before it executes a command. JSON, base64 and RFC 3339 parsing come from outside.
 */
module Grant {
  import opened Options
  import opened Utf8
  import opened Envelope
  import opened Cuts

  datatype GrantDoc = GrantDoc(
    schema: Bytes, grantID: Bytes, requestID: Bytes, actorID: Bytes, actionType: Bytes, actionDigest: Bytes,
    resourceScope: seq<Bytes>, workflowRunID: Bytes, issuedAt: Bytes, expiresAt: Bytes, singleUse: bool,
    serverSignature: Bytes)

  datatype Env = Env(
    sha: Sha, scheme: Scheme,
    unmarshal: Bytes -> Option<GrantDoc>, marshal: GrantDoc -> Bytes,
    encode64: Bytes -> Bytes, decode64: Bytes -> Option<Bytes>,
    instant: Bytes -> Option<int>)

  datatype Refusal =
    | NoGrantDocument | NoLedgerPayload | PayloadMismatch | NotJson | WrongSchema | WrongGrant
    | BadGrantSignature | BadExpiry | Expired | WrongRun | OutOfScope(scope: Bytes) | WrongAction
    | BadCloudSignature

  const GRANT_SCHEMA := Text("rook.approval_grant.v1")
  const DEVICE_SCOPE := Text("device:")
  const DIGEST_PREFIX := Text("sha256:")
  const PIPE: byte := 124
  const COLON: byte := 58

  // ----- the action and its digest

  datatype Action = Action(device: Bytes, resourceType: Bytes, resourceId: Bytes, payload: Bytes)

  function ActionOf(c: EdgeCommand): Action {
    Action(c.deviceId, c.resourceType, c.resourceId, c.ledgerPayload)
  }

  function ActionText(run: Bytes, a: Action): Bytes {
    run + [PIPE] + a.device + [PIPE] + a.resourceType + [PIPE] + a.resourceId + [PIPE] + a.payload
  }

  function Hex(b: Bytes): (h: Bytes)
    ensures |h| == 2 * |b|
  {
    if b == [] then [] else [HexDigit(b[0] / 16), HexDigit(b[0] % 16)] + Hex(b[1..])
  }

  lemma {:induction false} HexInjective(a: Bytes, b: Bytes)
    ensures Hex(a) == Hex(b) <==> a == b
  {
    if a != [] && b != [] && Hex(a) == Hex(b) {
      assert HexDigit(a[0] / 16) == Hex(a)[0] == Hex(b)[0] && HexDigit(a[0] % 16) == Hex(a)[1] == Hex(b)[1];
      assert Hex(a)[2..] == Hex(a[1..]) && Hex(b)[2..] == Hex(b[1..]);
      HexInjective(a[1..], b[1..]);
      assert a == [a[0]] + a[1..] && b == [b[0]] + b[1..];
    }
  }

  function ActionDigest(run: Bytes, a: Action, sha: Sha): Bytes {
    Hex(sha(ActionText(run, a)))
  }

  // ----- the checklist

  function SignGrant(doc: GrantDoc, priv: Bytes, env: Env): GrantDoc {
    doc.(serverSignature := env.encode64(env.scheme.sign(priv, env.marshal(doc.(serverSignature := [])))))
  }

  predicate VerifyGrantSignature(doc: GrantDoc, pub: Bytes, env: Env) {
    match env.decode64(doc.serverSignature)
    case None => false
    case Some(sig) => sig != [] && env.scheme.verify(pub, env.marshal(doc.(serverSignature := [])), sig)
  }

  function VerifiedLedgerPayload(c: EdgeCommand, sha: Sha): Result<Bytes, Refusal> {
    if c.ledgerPayload == [] then Err(NoLedgerPayload)
    else if sha(c.ledgerPayload) != c.payloadDigest then Err(PayloadMismatch)
    else Ok(c.ledgerPayload)
  }

  function DeviceScope(c: EdgeCommand): Bytes {
    DEVICE_SCOPE + c.deviceId
  }

  function ResourceScope(c: EdgeCommand): Bytes {
    c.resourceType + [COLON] + c.resourceId
  }

  function VerifyCommandGrant(c: EdgeCommand, cloudKey: Option<Bytes>, now: int, env: Env): Result<GrantDoc, Refusal> {
    if c.approvalGrant == [] then Err(NoGrantDocument)
    else if VerifiedLedgerPayload(c, env.sha).Err? then Err(VerifiedLedgerPayload(c, env.sha).error)
    else
      match env.unmarshal(c.approvalGrant)
      case None => Err(NotJson)
      case Some(doc) =>
        if doc.schema != GRANT_SCHEMA then Err(WrongSchema)
        else if doc.grantID != c.approvalGrantId then Err(WrongGrant)
        else if cloudKey.Some? && !VerifyGrantSignature(doc, cloudKey.value, env) then Err(BadGrantSignature)
        else if env.instant(doc.expiresAt).None? then Err(BadExpiry)
        else if now > env.instant(doc.expiresAt).value then Err(Expired)
        else if doc.workflowRunID != c.workflowRunId then Err(WrongRun)
        else if DeviceScope(c) !in doc.resourceScope then Err(OutOfScope(DeviceScope(c)))
        else if ResourceScope(c) !in doc.resourceScope then Err(OutOfScope(ResourceScope(c)))
        else if doc.actionDigest != DIGEST_PREFIX + ActionDigest(c.workflowRunId, ActionOf(c), env.sha) then Err(WrongAction)
        else Ok(doc)
  }

  /** What the device does before executing: None is no objection. */
  function Refuse(c: EdgeCommand, cloudKey: Option<Bytes>, now: int, env: Env): Option<Refusal> {
    if cloudKey.Some? && !VerifyCommand(c, cloudKey.value, env.scheme, env.sha) then Some(BadCloudSignature)
    else if c.ledgerPayload != [] && VerifiedLedgerPayload(c, env.sha).Err? then
      Some(VerifiedLedgerPayload(c, env.sha).error)
    else if c.approvalGrantId != [] && VerifyCommandGrant(c, cloudKey, now, env).Err? then
      Some(VerifyCommandGrant(c, cloudKey, now, env).error)
    else None
  }

  // ----- one grant, one action

  predicate Plain(b: Bytes) {
    PIPE !in b
  }

  function ResourceText(a: Action): Bytes {
    a.resourceType + [PIPE] + (a.resourceId + [PIPE] + a.payload)
  }

  lemma TextParts(run: Bytes, a: Action)
    ensures ActionText(run, a) == (run + [PIPE]) + (a.device + [PIPE] + ResourceText(a))
  {
  }

  /**
   * Without '|' in the device and the resource, an action's text under a run names no
   * other such action, whatever the run and the payloads contain.
   */
  lemma PlainTextsDiffer(run: Bytes, a: Action, b: Action)
    requires Plain(a.device) && Plain(a.resourceType) && Plain(a.resourceId)
    requires Plain(b.device) && Plain(b.resourceType) && Plain(b.resourceId)
    ensures ActionText(run, a) == ActionText(run, b) <==> a == b
  {
    if ActionText(run, a) == ActionText(run, b) {
      TextParts(run, a);
      TextParts(run, b);
      CutFront(run + [PIPE], a.device + [PIPE] + ResourceText(a), b.device + [PIPE] + ResourceText(b));
      CutAt(a.device, ResourceText(a), b.device, ResourceText(b), PIPE);
      CutAt(a.resourceType, a.resourceId + [PIPE] + a.payload, b.resourceType, b.resourceId + [PIPE] + b.payload, PIPE);
      CutAt(a.resourceId, a.payload, b.resourceId, b.payload, PIPE);
    }
  }

  ghost predicate NamesOnly(run: Bytes, a: Action) {
    forall b: Action :: ActionText(run, b) == ActionText(run, a) ==> b == a
  }

  lemma {:induction false} PipeAt(b: Bytes) returns (x: Bytes, y: Bytes)
    requires !Plain(b)
    ensures b == x + [PIPE] + y
  {
    var k :| 0 <= k < |b| && b[k] == PIPE;
    x, y := b[..k], b[k + 1..];
  }

  /** An action's text names that action alone exactly when nothing in it holds a '|'. */
  lemma TextNamesOneIff(run: Bytes, a: Action)
    ensures NamesOnly(run, a) <==>
              Plain(a.device) && Plain(a.resourceType) && Plain(a.resourceId) && Plain(a.payload)
  {
    if !Plain(a.device) {
      var x, y := PipeAt(a.device);
      OtherReading(run, a, Action(x, y, a.resourceType, a.resourceId + [PIPE] + a.payload));
    } else if !Plain(a.resourceType) {
      var x, y := PipeAt(a.resourceType);
      OtherReading(run, a, Action(a.device, x, y, a.resourceId + [PIPE] + a.payload));
    } else if !Plain(a.resourceId) {
      var x, y := PipeAt(a.resourceId);
      OtherReading(run, a, Action(a.device, a.resourceType, x, y + [PIPE] + a.payload));
    } else if !Plain(a.payload) {
      var x, y := PipeAt(a.payload);
      OtherReading(run, a, Action(a.device, a.resourceType, a.resourceId + [PIPE] + x, y));
    } else {
      forall b: Action | ActionText(run, b) == ActionText(run, a) ensures b == a {
        SamePipes(run, a, b);
        PlainTextsDiffer(run, a, b);
      }
    }
  }

  lemma OtherReading(run: Bytes, a: Action, b: Action)
    requires ActionText(run, b) == ActionText(run, a) && b != a
    ensures !NamesOnly(run, a)
  {
  }

  function Pipes(b: Bytes): nat {
    if b == [] then 0 else (if b[0] == PIPE then 1 else 0) + Pipes(b[1..])
  }

  lemma {:induction false} PipesSum(a: Bytes, b: Bytes)
    ensures Pipes(a + b) == Pipes(a) + Pipes(b)
  {
    if a == [] {
      assert a + b == b;
    } else {
      assert (a + b)[1..] == a[1..] + b;
      PipesSum(a[1..], b);
    }
  }

  lemma {:induction false} PlainIffNoPipes(a: Bytes)
    ensures Plain(a) <==> Pipes(a) == 0
  {
    if a != [] {
      assert a == [a[0]] + a[1..];
      PlainIffNoPipes(a[1..]);
    }
  }

  lemma PipesInText(run: Bytes, a: Action)
    ensures Pipes(ActionText(run, a)) == Pipes(run) + 4 + Pipes(a.device) + Pipes(a.resourceType)
                                         + Pipes(a.resourceId) + Pipes(a.payload)
  {
    var t0 := run + [PIPE] + a.device;
    var t1 := t0 + [PIPE] + a.resourceType;
    var t2 := t1 + [PIPE] + a.resourceId;
    PipesSum(run, [PIPE]);
    PipesSum(run + [PIPE], a.device);
    PipesSum(t0, [PIPE]);
    PipesSum(t0 + [PIPE], a.resourceType);
    PipesSum(t1, [PIPE]);
    PipesSum(t1 + [PIPE], a.resourceId);
    PipesSum(t2, [PIPE]);
    PipesSum(t2 + [PIPE], a.payload);
  }

  lemma SamePipes(run: Bytes, a: Action, b: Action)
    requires ActionText(run, b) == ActionText(run, a)
    requires Plain(a.device) && Plain(a.resourceType) && Plain(a.resourceId) && Plain(a.payload)
    ensures Plain(b.device) && Plain(b.resourceType) && Plain(b.resourceId) && Plain(b.payload)
  {
    PipesInText(run, a);
    PipesInText(run, b);
    PlainIffNoPipes(a.device);
    PlainIffNoPipes(a.resourceType);
    PlainIffNoPipes(a.resourceId);
    PlainIffNoPipes(a.payload);
    PlainIffNoPipes(b.device);
    PlainIffNoPipes(b.resourceType);
    PlainIffNoPipes(b.resourceId);
    PlainIffNoPipes(b.payload);
  }

  lemma SplitNotBefore(t1: Bytes, i1: Bytes, r1: Bytes, t2: Bytes, i2: Bytes, r2: Bytes)
    requires t1 + [PIPE] + r1 == t2 + [PIPE] + r2 && t1 + [COLON] + i1 == t2 + [COLON] + i2
    ensures |t2| <= |t1|
  {
    assert (t1 + [PIPE] + r1)[|t1|] == PIPE && (t1 + [COLON] + i1)[|t1|] == COLON;
    assert forall k :: 0 <= k < |t2| ==> (t2 + [PIPE] + r2)[k] == (t2 + [COLON] + i2)[k];
  }

  /** Split once with '|' and once with ':', equal both ways: only one place to split. */
  lemma OneSplit(t1: Bytes, i1: Bytes, p1: Bytes, t2: Bytes, i2: Bytes, p2: Bytes)
    requires t1 + [PIPE] + (i1 + [PIPE] + p1) == t2 + [PIPE] + (i2 + [PIPE] + p2)
    requires t1 + [COLON] + i1 == t2 + [COLON] + i2
    ensures t1 == t2 && i1 == i2 && p1 == p2
  {
    SplitNotBefore(t1, i1, i1 + [PIPE] + p1, t2, i2, i2 + [PIPE] + p2);
    SplitNotBefore(t2, i2, i2 + [PIPE] + p2, t1, i1, i1 + [PIPE] + p1);
    assert (t1 + [COLON] + i1)[..|t1|] == t1 && (t2 + [COLON] + i2)[..|t1|] == t2;
    CutFront(t1 + [COLON], i1, i2);
    CutFront(t1 + [PIPE], i1 + [PIPE] + p1, i2 + [PIPE] + p2);
    CutFront(i1 + [PIPE], p1, p2);
  }

  // SHA-256 does not collide on the two texts at hand.
  predicate NoCollision(c: EdgeCommand, d: EdgeCommand, sha: Sha) {
    var m, n := ActionText(c.workflowRunId, ActionOf(c)), ActionText(d.workflowRunId, ActionOf(d));
    sha(m) == sha(n) ==> m == n
  }

  predicate SpendSameGrant(c: EdgeCommand, d: EdgeCommand, cloudKey: Option<Bytes>, now1: int, now2: int, env: Env) {
    && c.approvalGrant == d.approvalGrant
    && VerifyCommandGrant(c, cloudKey, now1, env).Ok? && VerifyCommandGrant(d, cloudKey, now2, env).Ok?
    && NoCollision(c, d, env.sha)
  }

  lemma SameGrantSameText(c: EdgeCommand, d: EdgeCommand, cloudKey: Option<Bytes>, now1: int, now2: int, env: Env)
    requires SpendSameGrant(c, d, cloudKey, now1, now2, env)
    ensures c.workflowRunId == d.workflowRunId && c.approvalGrantId == d.approvalGrantId
    ensures ActionText(c.workflowRunId, ActionOf(c)) == ActionText(c.workflowRunId, ActionOf(d))
  {
    hide Hex, ActionText;
    var x, y := ActionDigest(c.workflowRunId, ActionOf(c), env.sha), ActionDigest(d.workflowRunId, ActionOf(d), env.sha);
    CutFront(DIGEST_PREFIX, x, y);
    HexInjective(env.sha(ActionText(c.workflowRunId, ActionOf(c))), env.sha(ActionText(d.workflowRunId, ActionOf(d))));
  }

  /**
   * Two commands that pass the checklist under one grant document perform the same action
   * (same run, device, resource and ledger payload) exactly when they claim the same two
   * scopes, whatever characters their fields hold.
   */
  lemma OneGrantOneAction(c: EdgeCommand, d: EdgeCommand, cloudKey: Option<Bytes>, now1: int, now2: int, env: Env)
    requires SpendSameGrant(c, d, cloudKey, now1, now2, env)
    ensures c.workflowRunId == d.workflowRunId && c.approvalGrantId == d.approvalGrantId
    ensures ActionOf(c) == ActionOf(d) <==> DeviceScope(c) == DeviceScope(d) && ResourceScope(c) == ResourceScope(d)
    ensures (&& Plain(c.deviceId) && Plain(c.resourceType) && Plain(c.resourceId)
             && Plain(d.deviceId) && Plain(d.resourceType) && Plain(d.resourceId)) ==> ActionOf(c) == ActionOf(d)
  {
    SameGrantSameText(c, d, cloudKey, now1, now2, env);
    var a, b := ActionOf(c), ActionOf(d);
    if DeviceScope(c) == DeviceScope(d) && ResourceScope(c) == ResourceScope(d) {
      CutFront(DEVICE_SCOPE, c.deviceId, d.deviceId);
      SameDeviceSameRest(c.workflowRunId, a, b);
      OneSplit(a.resourceType, a.resourceId, a.payload, b.resourceType, b.resourceId, b.payload);
    }
    if Plain(a.device) && Plain(a.resourceType) && Plain(a.resourceId)
       && Plain(b.device) && Plain(b.resourceType) && Plain(b.resourceId) {
      PlainTextsDiffer(c.workflowRunId, a, b);
    }
  }

  lemma SameDeviceSameRest(run: Bytes, a: Action, b: Action)
    requires ActionText(run, a) == ActionText(run, b) && a.device == b.device
    ensures ResourceText(a) == ResourceText(b)
  {
    TextParts(run, a);
    TextParts(run, b);
    CutFront(run + [PIPE], a.device + [PIPE] + ResourceText(a), b.device + [PIPE] + ResourceText(b));
    CutFront(a.device + [PIPE], ResourceText(a), ResourceText(b));
  }

  // ----- grants as they are minted: exactly the command's two scopes

  const DEVICE := Text("device")

  predicate MintedFor(doc: GrantDoc, c: EdgeCommand) {
    doc.resourceScope == [DeviceScope(c), ResourceScope(c)]
  }

  lemma DeviceLabel()
    ensures DEVICE == [100, 101, 118, 105, 99, 101] && DEVICE_SCOPE == DEVICE + [COLON]
    ensures PIPE !in DEVICE && COLON !in DEVICE
  {
    assert DEVICE_SCOPE[..6] == DEVICE && DEVICE_SCOPE[6] == COLON;
  }

  lemma LabelStartsField(word: Bytes, t: Bytes, sep: byte, rest: Bytes)
    requires word <= t + [sep] + rest && sep !in word
    ensures word <= t
  {
    assert (t + [sep] + rest)[|t|] == sep;
    assert forall k :: 0 <= k < |word| ==> word[k] == (t + [sep] + rest)[k];
  }

  // The resource type cannot be taken for a device scope's label.
  predicate Unlabelled(resourceType: Bytes) {
    resourceType != DEVICE && !(DEVICE + [COLON] <= resourceType) && !(DEVICE + [PIPE] <= resourceType)
  }

  lemma LabelledBySeparator(t: Bytes, sep: byte, rest: Bytes, next: byte)
    requires DEVICE + [next] <= t + [sep] + rest && (sep == COLON || sep == PIPE) && (next == COLON || next == PIPE)
    ensures t == DEVICE || DEVICE + [next] <= t
  {
    hide DEVICE;
    DeviceLabel();
    var text := t + [sep] + rest;
    LabelStartsField(DEVICE, t, sep, rest);
    if |t| > |DEVICE| {
      assert text[|DEVICE|] == t[|DEVICE|];
      assert DEVICE + [next] == text[..|DEVICE| + 1] == t[..|DEVICE| + 1];
    } else {
      assert t == DEVICE;
    }
  }

  // What the scopes and the text of c leave another reading to be, when c's type is unlabelled.
  lemma UnlabelledFits(c: Action, d: Action)
    requires Unlabelled(c.resourceType)
    requires DEVICE_SCOPE + d.device == DEVICE_SCOPE + c.device || DEVICE_SCOPE + d.device == c.resourceType + [COLON] + c.resourceId
    requires d.resourceType + [COLON] + d.resourceId == DEVICE_SCOPE + c.device
             || d.resourceType + [COLON] + d.resourceId == c.resourceType + [COLON] + c.resourceId
    requires d.device == c.device ==> ResourceText(d) == ResourceText(c)
    ensures d == c
  {
    hide DEVICE, DEVICE_SCOPE;
    DeviceLabel();
    if DEVICE_SCOPE + d.device == c.resourceType + [COLON] + c.resourceId {
      LabelledBySeparator(c.resourceType, COLON, c.resourceId, COLON);
    }
    CutFront(DEVICE_SCOPE, d.device, c.device);
    if d.resourceType + [COLON] + d.resourceId == DEVICE_SCOPE + c.device {
      LabelledBySeparator(d.resourceType, COLON, d.resourceId, COLON);
      var next := if d.resourceType == DEVICE then PIPE else COLON;
      assert DEVICE + [next] <= ResourceText(d);
      LabelledBySeparator(c.resourceType, PIPE, c.resourceId + [PIPE] + c.payload, next);
    }
    OneSplit(c.resourceType, c.resourceId, c.payload, d.resourceType, d.resourceId, d.payload);
  }

  lemma SpendersScopes(c: EdgeCommand, d: EdgeCommand, cloudKey: Option<Bytes>, now1: int, now2: int, env: Env)
    requires SpendSameGrant(c, d, cloudKey, now1, now2, env)
    ensures var scopes := VerifyCommandGrant(c, cloudKey, now1, env).value.resourceScope;
            DeviceScope(d) in scopes && ResourceScope(d) in scopes
  {
    hide ActionDigest, ActionText, DeviceScope, ResourceScope, VerifyGrantSignature;
  }

  /**
   * A grant minted for one command admits no other action when its resource type is not
   * the word a device scope is labelled with, alone or before one of the separators.
   */
  lemma MintedGrantFitsOneAction(c: EdgeCommand, d: EdgeCommand, cloudKey: Option<Bytes>, now1: int, now2: int, env: Env)
    requires SpendSameGrant(c, d, cloudKey, now1, now2, env)
    requires MintedFor(VerifyCommandGrant(c, cloudKey, now1, env).value, c) && Unlabelled(c.resourceType)
    ensures ActionOf(c) == ActionOf(d)
  {
    hide ActionText, Unlabelled, VerifyCommandGrant, DEVICE, DEVICE_SCOPE;
    SpendersScopes(c, d, cloudKey, now1, now2, env);
    SameGrantSameText(c, d, cloudKey, now1, now2, env);
    if d.deviceId == c.deviceId {
      SameDeviceSameRest(c.workflowRunId, ActionOf(c), ActionOf(d));
    }
    UnlabelledFits(ActionOf(c), ActionOf(d));
  }

  // ----- exactly when a grant fits a second action

  // The text of an action up to its payload.
  function Heading(run: Bytes, device: Bytes, resourceType: Bytes, resourceId: Bytes): Bytes {
    run + [PIPE] + device + [PIPE] + resourceType + [PIPE] + resourceId + [PIPE]
  }

  // The device scope e can be read as naming, and the resource s can, split at its k-th byte,
  // are others than c's and head the text of c's action, with something over.
  predicate SecondReadingAt(c: EdgeCommand, e: Bytes, s: Bytes, k: nat) {
    && DEVICE_SCOPE <= e && k < |s| && s[k] == COLON
    && (e[|DEVICE_SCOPE|..], s[..k], s[k + 1..]) != (c.deviceId, c.resourceType, c.resourceId)
    && Heading(c.workflowRunId, e[|DEVICE_SCOPE|..], s[..k], s[k + 1..]) < ActionText(c.workflowRunId, ActionOf(c))
  }

  /**
   * A check on a command and a list of scopes alone: some other device and resource, each
   * spelt by one of them, head its action's text with something left over for a payload.
   */
  predicate SecondReading(c: EdgeCommand, scopes: seq<Bytes>) {
    exists i, j, k :: 0 <= i < |scopes| && 0 <= j < |scopes| && 0 <= k < |scopes[j]|
      && SecondReadingAt(c, scopes[i], scopes[j], k)
  }

  ghost predicate FitsSecondAction(c: EdgeCommand, cloudKey: Option<Bytes>, now: int, env: Env) {
    exists d, now2 :: SpendSameGrant(c, d, cloudKey, now, now2, env) && ActionOf(d) != ActionOf(c)
  }

  /**
   * The grant a command is accepted under, whatever scopes it lists, admits a second action
   * exactly when the command has a second reading in those scopes. Whoever signs the grant
   * can check that beforehand.
   */
  lemma GrantFitsTwoIff(c: EdgeCommand, cloudKey: Option<Bytes>, now: int, env: Env)
    requires VerifyCommandGrant(c, cloudKey, now, env).Ok?
    ensures FitsSecondAction(c, cloudKey, now, env) <==>
              SecondReading(c, VerifyCommandGrant(c, cloudKey, now, env).value.resourceScope)
  {
    hide SpendSameGrant, VerifyCommandGrant, ActionText, SecondReadingAt;
    if FitsSecondAction(c, cloudKey, now, env) {
      var d, now2 :| SpendSameGrant(c, d, cloudKey, now, now2, env) && ActionOf(d) != ActionOf(c);
      SecondActionReads(c, d, cloudKey, now, now2, env);
    }
    var scopes := VerifyCommandGrant(c, cloudKey, now, env).value.resourceScope;
    if SecondReading(c, scopes) {
      var i, j, k :| 0 <= i < |scopes| && 0 <= j < |scopes| && 0 <= k < |scopes[j]|
                     && SecondReadingAt(c, scopes[i], scopes[j], k);
      ReadingIsAction(c, scopes[i], scopes[j], k, cloudKey, now, env);
    }
  }

  /** For a minted grant, in the command's own two scopes. */
  lemma MintedGrantFitsTwoIff(c: EdgeCommand, cloudKey: Option<Bytes>, now: int, env: Env)
    requires VerifyCommandGrant(c, cloudKey, now, env).Ok?
    requires MintedFor(VerifyCommandGrant(c, cloudKey, now, env).value, c)
    ensures FitsSecondAction(c, cloudKey, now, env) <==> SecondReading(c, [DeviceScope(c), ResourceScope(c)])
  {
    hide VerifyCommandGrant, FitsSecondAction, SecondReading;
    GrantFitsTwoIff(c, cloudKey, now, env);
  }

  lemma HeadingStarts(run: Bytes, a: Action)
    ensures ActionText(run, a) == Heading(run, a.device, a.resourceType, a.resourceId) + a.payload
  {
  }

  lemma SecondActionReads(c: EdgeCommand, d: EdgeCommand, cloudKey: Option<Bytes>, now1: int, now2: int, env: Env)
    requires SpendSameGrant(c, d, cloudKey, now1, now2, env) && ActionOf(d) != ActionOf(c)
    ensures SecondReading(c, VerifyCommandGrant(c, cloudKey, now1, env).value.resourceScope)
  {
    hide VerifyCommandGrant, SecondReadingAt, ActionText;
    SpendersScopes(c, d, cloudKey, now1, now2, env);
    SameGrantSameText(c, d, cloudKey, now1, now2, env);
    HasPayload(d, cloudKey, now2, env);
    OtherActionReads(c, d);
    var scopes := VerifyCommandGrant(c, cloudKey, now1, env).value.resourceScope;
    var i :| 0 <= i < |scopes| && scopes[i] == DeviceScope(d);
    var j :| 0 <= j < |scopes| && scopes[j] == ResourceScope(d);
    assert SecondReadingAt(c, scopes[i], scopes[j], |d.resourceType|);
  }

  lemma HasPayload(d: EdgeCommand, cloudKey: Option<Bytes>, now: int, env: Env)
    requires VerifyCommandGrant(d, cloudKey, now, env).Ok?
    ensures d.ledgerPayload != []
  {
    hide VerifyGrantSignature, ActionDigest;
  }

  lemma OtherActionReads(c: EdgeCommand, d: EdgeCommand)
    requires ActionOf(d) != ActionOf(c) && d.ledgerPayload != []
    requires ActionText(c.workflowRunId, ActionOf(c)) == ActionText(c.workflowRunId, ActionOf(d))
    ensures SecondReadingAt(c, DeviceScope(d), ResourceScope(d), |d.resourceType|)
  {
    hide ActionText, Heading;
    var run, e, s, k := c.workflowRunId, DeviceScope(d), ResourceScope(d), |d.resourceType|;
    HeadingStarts(run, ActionOf(c));
    HeadingStarts(run, ActionOf(d));
    assert e[|DEVICE_SCOPE|..] == d.deviceId && s[..k] == d.resourceType && s[k + 1..] == d.resourceId;
    if (d.deviceId, d.resourceType, d.resourceId) == (c.deviceId, c.resourceType, c.resourceId) {
      CutFront(Heading(run, c.deviceId, c.resourceType, c.resourceId), c.ledgerPayload, d.ledgerPayload);
    }
  }

  /** The second command a reading stands for. */
  function ReadAs(c: EdgeCommand, e: Bytes, s: Bytes, k: nat, sha: Sha): EdgeCommand
    requires SecondReadingAt(c, e, s, k)
  {
    var heading := Heading(c.workflowRunId, e[|DEVICE_SCOPE|..], s[..k], s[k + 1..]);
    var payload := ActionText(c.workflowRunId, ActionOf(c))[|heading|..];
    c.(deviceId := e[|DEVICE_SCOPE|..], resourceType := s[..k], resourceId := s[k + 1..],
       ledgerPayload := payload, payloadDigest := sha(payload))
  }

  lemma ReadAsFits(c: EdgeCommand, e: Bytes, s: Bytes, k: nat, sha: Sha)
    requires SecondReadingAt(c, e, s, k)
    ensures var d := ReadAs(c, e, s, k, sha);
            && ActionText(c.workflowRunId, ActionOf(d)) == ActionText(c.workflowRunId, ActionOf(c))
            && DeviceScope(d) == e && ResourceScope(d) == s && d.ledgerPayload != [] && ActionOf(d) != ActionOf(c)
  {
    hide ActionText, Heading;
    var d := ReadAs(c, e, s, k, sha);
    HeadingStarts(c.workflowRunId, ActionOf(d));
  }

  // Same text, its scopes listed, its payload vouched for: accepted under the same grant.
  lemma SameTextAccepted(c: EdgeCommand, d: EdgeCommand, cloudKey: Option<Bytes>, now: int, env: Env)
    requires VerifyCommandGrant(c, cloudKey, now, env).Ok?
    requires d == c.(deviceId := d.deviceId, resourceType := d.resourceType, resourceId := d.resourceId,
                     ledgerPayload := d.ledgerPayload, payloadDigest := d.payloadDigest)
    requires d.ledgerPayload != [] && d.payloadDigest == env.sha(d.ledgerPayload)
    requires var scopes := VerifyCommandGrant(c, cloudKey, now, env).value.resourceScope;
             DeviceScope(d) in scopes && ResourceScope(d) in scopes
    requires ActionText(c.workflowRunId, ActionOf(d)) == ActionText(c.workflowRunId, ActionOf(c))
    ensures VerifyCommandGrant(d, cloudKey, now, env).Ok?
  {
    hide ActionText, VerifyGrantSignature, Hex, DeviceScope, ResourceScope;
  }

  lemma ReadingIsAction(c: EdgeCommand, e: Bytes, s: Bytes, k: nat, cloudKey: Option<Bytes>, now: int, env: Env)
    requires VerifyCommandGrant(c, cloudKey, now, env).Ok? && SecondReadingAt(c, e, s, k)
    requires var scopes := VerifyCommandGrant(c, cloudKey, now, env).value.resourceScope; e in scopes && s in scopes
    ensures FitsSecondAction(c, cloudKey, now, env)
  {
    hide ActionText, Heading, SecondReadingAt, VerifyCommandGrant, DeviceScope, ResourceScope;
    var d := ReadAs(c, e, s, k, env.sha);
    ReadAsFits(c, e, s, k, env.sha);
    SameTextAccepted(c, d, cloudKey, now, env);
    assert SpendSameGrant(c, d, cloudKey, now, now, env);
  }

  /** A command with an unlabelled resource type has no second reading in its own scopes. */
  lemma UnlabelledReadsOnce(c: EdgeCommand)
    requires Unlabelled(c.resourceType)
    ensures !SecondReading(c, [DeviceScope(c), ResourceScope(c)])
  {
    hide ActionText, Heading, Unlabelled, DEVICE_SCOPE;
    var scopes := [DeviceScope(c), ResourceScope(c)];
    if SecondReading(c, scopes) {
      var i, j, k :| 0 <= i < 2 && 0 <= j < 2 && 0 <= k < |scopes[j]| && SecondReadingAt(c, scopes[i], scopes[j], k);
      NoReadingAt(c, scopes[i], scopes[j], k);
    }
  }

  lemma NoReadingAt(c: EdgeCommand, e: Bytes, s: Bytes, k: nat)
    requires Unlabelled(c.resourceType) && e in [DeviceScope(c), ResourceScope(c)] && s in [DeviceScope(c), ResourceScope(c)]
    ensures !SecondReadingAt(c, e, s, k)
  {
    hide ActionText, Heading, Unlabelled, DEVICE_SCOPE;
    if SecondReadingAt(c, e, s, k) {
      var run, a := c.workflowRunId, ActionOf(c);
      var heading := Heading(run, e[|DEVICE_SCOPE|..], s[..k], s[k + 1..]);
      var b := Action(e[|DEVICE_SCOPE|..], s[..k], s[k + 1..], ActionText(run, a)[|heading|..]);
      HeadingStarts(run, b);
      assert ActionText(run, b) == ActionText(run, a);
      assert s == b.resourceType + [COLON] + b.resourceId;
      if b.device == a.device {
        SameDeviceSameRest(run, b, a);
      }
      UnlabelledFits(a, b);
    }
  }

  /**
   * Second readings exist: a grant minted for a resource of type "device|z" on device z is
   * good for a second action too, on the resource "device:z".
   */
  lemma MintedGrantFitsTwoActions(c: EdgeCommand, cloudKey: Option<Bytes>, now: int, env: Env)
    requires VerifyCommandGrant(c, cloudKey, now, env).Ok?
    requires MintedFor(VerifyCommandGrant(c, cloudKey, now, env).value, c)
    requires c.resourceType == DEVICE + [PIPE] + c.deviceId
    ensures var payload := c.resourceId + [PIPE] + c.ledgerPayload;
            var d := c.(resourceType := DEVICE, resourceId := c.deviceId,
                        ledgerPayload := payload, payloadDigest := env.sha(payload));
            VerifyCommandGrant(d, cloudKey, now, env).Ok? && ActionOf(d) != ActionOf(c)
  {
    hide DEVICE, DEVICE_SCOPE, VerifyGrantSignature, Hex;
    DeviceLabel();
    var payload := c.resourceId + [PIPE] + c.ledgerPayload;
    var d := c.(resourceType := DEVICE, resourceId := c.deviceId, ledgerPayload := payload, payloadDigest := env.sha(payload));
    assert |payload| > 0;
    assert ResourceScope(d) == DeviceScope(c) == DeviceScope(d);
    assert |c.resourceType| > |d.resourceType|;
    assert ActionText(c.workflowRunId, ActionOf(d)) == ActionText(c.workflowRunId, ActionOf(c)) by {
      TextParts(c.workflowRunId, ActionOf(c));
      TextParts(c.workflowRunId, ActionOf(d));
      assert ResourceText(ActionOf(d)) == ResourceText(ActionOf(c));
    }
  }

  // ----- the grant's own signature

  /** Marshalling loses nothing, base64 decodes what it encodes. */
  ghost predicate Faithful(env: Env) {
    && (forall b: Bytes :: env.decode64(env.encode64(b)) == Some(b))
    && forall x: GrantDoc, y: GrantDoc :: env.marshal(x) == env.marshal(y) ==> x == y
  }

  /** A document carrying another's signature verifies exactly when nothing else differs. */
  lemma SignatureHoldsGrant(signed: GrantDoc, sent: GrantDoc, priv: Bytes, env: Env)
    requires Ideal(env.scheme) && Faithful(env)
    requires sent.serverSignature == SignGrant(signed, priv, env).serverSignature
    ensures VerifyGrantSignature(sent, env.scheme.public(priv), env) <==>
              sent == SignGrant(signed, priv, env)
  {
    var m, n := env.marshal(signed.(serverSignature := [])), env.marshal(sent.(serverSignature := []));
    assert env.decode64(sent.serverSignature) == Some(env.scheme.sign(priv, m));
    assert env.scheme.verify(env.scheme.public(priv), n, env.scheme.sign(priv, m)) <==> m == n;
  }

  // ----- what executing a command implies

  /**
   * Two commands the device did not refuse, spending one grant document: each carried the
   * cloud's signature if its key is known, each named the grant it spends, and (short of a
   * collision) they are one action if they claim the same scopes or hold no '|'.
   */
  lemma ExecutedUnderOneGrant(c: EdgeCommand, d: EdgeCommand, cloudKey: Option<Bytes>, now1: int, now2: int, env: Env)
    requires Refuse(c, cloudKey, now1, env).None? && Refuse(d, cloudKey, now2, env).None?
    requires c.approvalGrantId != [] && d.approvalGrantId != [] && c.approvalGrant == d.approvalGrant
    requires NoCollision(c, d, env.sha)
    ensures cloudKey.Some? ==> VerifyCommand(c, cloudKey.value, env.scheme, env.sha)
    ensures c.payloadDigest == env.sha(c.ledgerPayload) && c.ledgerPayload != []
    ensures c.approvalGrantId == d.approvalGrantId && c.workflowRunId == d.workflowRunId
    ensures (DeviceScope(c) == DeviceScope(d) && ResourceScope(c) == ResourceScope(d))
            || (&& Plain(c.deviceId) && Plain(c.resourceType) && Plain(c.resourceId)
                && Plain(d.deviceId) && Plain(d.resourceType) && Plain(d.resourceId)) ==>
              ActionOf(c) == ActionOf(d)
  {
    hide ActionText, VerifyGrantSignature, SignedBytes;
    OneGrantOneAction(c, d, cloudKey, now1, now2, env);
  }
}
