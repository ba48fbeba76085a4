/**
 * The checklist a device runs before it executes a command, item by item: what it accepts,
 * which refusal it answers first, and what that says of who signed the grant.
 */
module Checklist {
  import opened Options
  import opened Utf8
  import opened Canonical
  import opened Envelope
  import opened Grant
  import opened Cuts

  const HEX := Text("0123456789abcdef")

  lemma DigitIs(n: nat)
    requires n < 16
    ensures |HEX| == 16 && HexDigit(n) == HEX[n]
  {
    assert HEX == [48, 49, 50, 51, 52, 53, 54, 55, 56, 57, 97, 98, 99, 100, 101, 102];
  }

  /** A digest is spelt in lower-case hexadecimal, high half first. */
  lemma {:induction false} HexSpells(b: Bytes, i: nat)
    requires i < |b|
    ensures |Hex(b)| == 2 * |b| && |HEX| == 16 && Hex(b)[2 * i] == HEX[b[i] / 16] && Hex(b)[2 * i + 1] == HEX[b[i] % 16]
  {
    hide HEX, HexDigit;
    DigitIs(b[i] / 16);
    DigitIs(b[i] % 16);
    if i > 0 {
      HexSpells(b[1..], i - 1);
      assert Hex(b)[2..] == Hex(b[1..]);
      assert Hex(b)[2 * i] == Hex(b)[2..][2 * (i - 1)] && Hex(b)[2 * i + 1] == Hex(b)[2..][2 * (i - 1) + 1];
    }
  }

  // ----- one grant

  // What the action digest is taken of.
  function Spelt(c: EdgeCommand): Bytes {
    c.workflowRunId + Text("|") + c.deviceId + Text("|") + c.resourceType + Text("|") + c.resourceId + Text("|") + c.ledgerPayload
  }

  ghost predicate SignedUnder(doc: GrantDoc, pub: Bytes, env: Env) {
    exists sig :: env.decode64(doc.serverSignature) == Some(sig) && sig != []
      && env.scheme.verify(pub, env.marshal(doc.(serverSignature := [])), sig)
  }

  /** The item of the checklist whose failure is answered with `why`; `doc` is the grant's. */
  ghost predicate Met(why: Refusal, doc: GrantDoc, c: EdgeCommand, cloudKey: Option<Bytes>, now: int, env: Env) {
    match why
    case NoGrantDocument => c.approvalGrant != []
    case NoLedgerPayload => c.ledgerPayload != []
    case PayloadMismatch => env.sha(c.ledgerPayload) == c.payloadDigest
    case NotJson => env.unmarshal(c.approvalGrant) == Some(doc)
    case WrongSchema => doc.schema == Text("rook.approval_grant.v1")
    case WrongGrant => doc.grantID == c.approvalGrantId
    case BadGrantSignature => cloudKey.Some? ==> SignedUnder(doc, cloudKey.value, env)
    case BadExpiry => env.instant(doc.expiresAt).Some?
    case Expired => env.instant(doc.expiresAt).Some? && now <= env.instant(doc.expiresAt).value
    case WrongRun => doc.workflowRunID == c.workflowRunId
    case OutOfScope(scope) => scope in doc.resourceScope
    case WrongAction => doc.actionDigest == Text("sha256:") + Hex(env.sha(Spelt(c)))
    case BadCloudSignature =>
      cloudKey.Some? ==>
        c.cloudSignature != [] && env.scheme.verify(cloudKey.value, SignedBytes(Command(c), env.sha), c.cloudSignature)
  }

  const LAST_ITEM: nat := 12

  /** The order a grant's items are checked in. */
  function Item(c: EdgeCommand, i: nat): Refusal {
    match i
    case 0 => NoGrantDocument
    case 1 => NoLedgerPayload
    case 2 => PayloadMismatch
    case 3 => NotJson
    case 4 => WrongSchema
    case 5 => WrongGrant
    case 6 => BadGrantSignature
    case 7 => BadExpiry
    case 8 => Expired
    case 9 => WrongRun
    case 10 => OutOfScope(Text("device:") + c.deviceId)
    case 11 => OutOfScope(c.resourceType + Text(":") + c.resourceId)
    case _ => WrongAction
  }

  /** Every item of a grant's checklist holds. */
  ghost predicate Admits(doc: GrantDoc, c: EdgeCommand, cloudKey: Option<Bytes>, now: int, env: Env) {
    && c.approvalGrant != [] && env.unmarshal(c.approvalGrant) == Some(doc)
    && c.ledgerPayload != [] && env.sha(c.ledgerPayload) == c.payloadDigest
    && doc.schema == Text("rook.approval_grant.v1")
    && doc.grantID == c.approvalGrantId && doc.workflowRunID == c.workflowRunId
    && (cloudKey.Some? ==> SignedUnder(doc, cloudKey.value, env))
    && env.instant(doc.expiresAt).Some? && now <= env.instant(doc.expiresAt).value
    && Text("device:") + c.deviceId in doc.resourceScope && c.resourceType + Text(":") + c.resourceId in doc.resourceScope
    && doc.actionDigest == Text("sha256:") + Hex(env.sha(Spelt(c)))
  }

  lemma Separators(c: EdgeCommand)
    ensures Text("|") == [PIPE] && Text(":") == [COLON]
    ensures Spelt(c) == ActionText(c.workflowRunId, ActionOf(c))
    ensures DeviceScope(c) == Text("device:") + c.deviceId && ResourceScope(c) == c.resourceType + Text(":") + c.resourceId
  {
  }

  lemma SignatureChecked(doc: GrantDoc, pub: Bytes, env: Env)
    ensures VerifyGrantSignature(doc, pub, env) <==> SignedUnder(doc, pub, env)
  {
  }

  /** A grant is accepted, as the document it holds, exactly when every item holds. */
  lemma AcceptedIff(doc: GrantDoc, c: EdgeCommand, cloudKey: Option<Bytes>, now: int, env: Env)
    ensures VerifyCommandGrant(c, cloudKey, now, env) == Ok(doc) <==> Admits(doc, c, cloudKey, now, env)
  {
    hide Hex, Text, SignedUnder, VerifyGrantSignature, ActionText, DeviceScope, ResourceScope, Spelt;
    Separators(c);
    if cloudKey.Some? {
      SignatureChecked(doc, cloudKey.value, env);
    }
  }

  // The document of a grant that parses; what it is otherwise no item reached asks.
  ghost predicate Holds(doc: GrantDoc, c: EdgeCommand, env: Env) {
    env.unmarshal(c.approvalGrant).Some? ==> env.unmarshal(c.approvalGrant) == Some(doc)
  }

  /** A refused grant is answered with the first item that fails, in the order listed. */
  lemma FirstFailure(k: nat, doc: GrantDoc, c: EdgeCommand, cloudKey: Option<Bytes>, now: int, env: Env)
    requires k <= LAST_ITEM && Holds(doc, c, env)
    requires forall i :: 0 <= i < k ==> Met(Item(c, i), doc, c, cloudKey, now, env)
    requires !Met(Item(c, k), doc, c, cloudKey, now, env)
    ensures VerifyCommandGrant(c, cloudKey, now, env) == Err(Item(c, k))
  {
    hide Hex, Text, SignedUnder, VerifyGrantSignature, ActionText, DeviceScope, ResourceScope, Spelt;
    Separators(c);
    if cloudKey.Some? {
      SignatureChecked(doc, cloudKey.value, env);
    }
    ghost var before := [Item(c, 0), Item(c, 1), Item(c, 2), Item(c, 3), Item(c, 4), Item(c, 5), Item(c, 6),
                         Item(c, 7), Item(c, 8), Item(c, 9), Item(c, 10), Item(c, 11)];
  }

  // ----- one command

  // The command's bound fields carry the cloud's signature, if its key is known.
  ghost predicate Vouched(c: EdgeCommand, cloudKey: Option<Bytes>, env: Env) {
    cloudKey.Some? ==>
      c.cloudSignature != [] && env.scheme.verify(cloudKey.value, SignedBytes(Command(c), env.sha), c.cloudSignature)
  }

  // What rides along of the ledger's payload is what the command was signed over.
  ghost predicate PayloadHolds(c: EdgeCommand, env: Env) {
    c.ledgerPayload != [] ==> env.sha(c.ledgerPayload) == c.payloadDigest
  }

  ghost predicate GrantHolds(c: EdgeCommand, cloudKey: Option<Bytes>, now: int, env: Env) {
    c.approvalGrantId != [] ==> exists doc :: Admits(doc, c, cloudKey, now, env)
  }

  /**
   * The device executes a command exactly when the cloud signed it (if the cloud's key is
   * known), its ledger payload is the one signed over, and the grant it names, if any,
   * admits it. The first of the three to fail gives the reason.
   */
  lemma RefusesIff(c: EdgeCommand, cloudKey: Option<Bytes>, now: int, env: Env)
    ensures Refuse(c, cloudKey, now, env) == None <==>
              Vouched(c, cloudKey, env) && PayloadHolds(c, env) && GrantHolds(c, cloudKey, now, env)
    ensures Refuse(c, cloudKey, now, env) == Some(BadCloudSignature) <==> !Vouched(c, cloudKey, env)
    ensures Vouched(c, cloudKey, env) && !PayloadHolds(c, env) ==>
              Refuse(c, cloudKey, now, env) == Some(PayloadMismatch)
    ensures Vouched(c, cloudKey, env) && PayloadHolds(c, env) && !GrantHolds(c, cloudKey, now, env) ==>
              Refuse(c, cloudKey, now, env) == Some(VerifyCommandGrant(c, cloudKey, now, env).error)
  {
    hide Admits, VerifyCommandGrant, SignedBytes;
    GrantNeverBlamesEnvelope(c, cloudKey, now, env);
    forall doc ensures VerifyCommandGrant(c, cloudKey, now, env) == Ok(doc) <==> Admits(doc, c, cloudKey, now, env) {
      AcceptedIff(doc, c, cloudKey, now, env);
    }
    var r := VerifyCommandGrant(c, cloudKey, now, env);
    if r.Ok? {
      assert Admits(r.value, c, cloudKey, now, env);
    }
  }

  lemma GrantNeverBlamesEnvelope(c: EdgeCommand, cloudKey: Option<Bytes>, now: int, env: Env)
    ensures VerifyCommandGrant(c, cloudKey, now, env) != Err(BadCloudSignature)
  {
  }

  // ----- whose yes it was

  /** Nothing verifies under the key but what was signed with it. */
  ghost predicate OnlySigned(pub: Bytes, signed: iset<Bytes>, env: Env) {
    forall m: Bytes, s: Bytes :: env.scheme.verify(pub, m, s) ==> m in signed
  }

  /** A grant nobody signed with the cloud's key moves no device that knows the key. */
  lemma UnsignedGrantRefused(doc: GrantDoc, c: EdgeCommand, pub: Bytes, signed: iset<Bytes>, now: int, env: Env)
    requires OnlySigned(pub, signed, env)
    requires c.approvalGrantId != [] && env.unmarshal(c.approvalGrant) == Some(doc)
    requires env.marshal(doc.(serverSignature := [])) !in signed
    ensures Refuse(c, Some(pub), now, env).Some?
  {
    hide Refuse, SignedBytes, Vouched, PayloadHolds, Hex, Text, Spelt;
    RefusesIff(c, Some(pub), now, env);
  }

  /** One whose signature was made for another document is refused, whatever differs. */
  lemma AlteredGrantRefused(signed: GrantDoc, sent: GrantDoc, c: EdgeCommand, priv: Bytes, now: int, env: Env)
    requires Ideal(env.scheme) && Faithful(env)
    requires c.approvalGrantId != [] && env.unmarshal(c.approvalGrant) == Some(sent)
    requires sent.serverSignature == SignGrant(signed, priv, env).serverSignature && sent != SignGrant(signed, priv, env)
    ensures Refuse(c, Some(env.scheme.public(priv)), now, env).Some?
  {
    hide Refuse, SignedBytes, Vouched, PayloadHolds, Hex, Text, Spelt, SignGrant;
    RefusesIff(c, Some(env.scheme.public(priv)), now, env);
    SignatureHoldsGrant(signed, sent, priv, env);
    SignatureChecked(sent, env.scheme.public(priv), env);
  }
}
