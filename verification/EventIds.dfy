/**
 * The identities an edge device gives its events, derived from the causing command and
 * the outcome so that a replay repeats them.
 */
module EventIds {
  import opened Utf8
  import opened Cuts

  datatype Key =
    | Receipt(command: Bytes, status: Bytes)
    | Agent(command: Bytes, index: nat, kind: Bytes)

  const BAR: byte := 95
  const DEVEVT := Text("devevt_")
  const AGENT := Text("agent")

  function Id(k: Key): Bytes {
    match k
    case Receipt(command, status) => DEVEVT + (command + [BAR] + status)
    case Agent(command, index, kind) => DEVEVT + (command + [BAR] + AGENT + [BAR] + Decimal(index) + [BAR] + kind)
  }

  /** The ledger's statuses, and the agent kinds the cloud accepts. */
  predicate Status(s: Bytes) {
    s == Text("succeeded") || s == Text("failed") || s == Text("rejected")
  }

  predicate Kind(k: Bytes) {
    || k == Text("started") || k == Text("progress") || k == Text("waiting_input") || k == Text("blocked")
    || k == Text("completion_claimed") || k == Text("disconnected") || k == Text("stopped") || k == Text("failed")
  }

  predicate InVocabulary(k: Key) {
    if k.Receipt? then Status(k.status) else Kind(k.kind)
  }

  function AgentSuffix(index: nat, kind: Bytes): Bytes {
    AGENT + [BAR] + (Decimal(index) + [BAR] + kind)
  }

  lemma AgentId(command: Bytes, index: nat, kind: Bytes)
    ensures Id(Agent(command, index, kind)) == DEVEVT + (command + [BAR] + AgentSuffix(index, kind))
    ensures BAR !in Decimal(index)
  {
    assert command + [BAR] + AGENT + [BAR] + Decimal(index) + [BAR] + kind
        == command + [BAR] + (AGENT + [BAR] + (Decimal(index) + [BAR] + kind));
  }

  /**
   * The identities one command's events can have. Two agent events share one exactly when
   * they have the same position and kind; a receipt shares one with an agent event exactly
   * when its status spells that event out, which no status of the ledger does.
   */
  lemma OneCommandDistinct(command: Bytes, status: Bytes, i: nat, ki: Bytes, j: nat, kj: Bytes)
    ensures Id(Agent(command, i, ki)) == Id(Agent(command, j, kj)) <==> i == j && ki == kj
    ensures Id(Receipt(command, status)) == Id(Agent(command, i, ki)) <==> status == AgentSuffix(i, ki)
    ensures Status(status) ==> Id(Receipt(command, status)) != Id(Agent(command, i, ki))
  {
    hide DEVEVT;
    AgentId(command, i, ki);
    AgentId(command, j, kj);
    var front := DEVEVT + (command + [BAR]);
    assert Id(Receipt(command, status)) == front + status;
    assert Id(Agent(command, i, ki)) == front + AgentSuffix(i, ki);
    assert Id(Agent(command, j, kj)) == front + AgentSuffix(j, kj);
    if Id(Receipt(command, status)) == Id(Agent(command, i, ki)) {
      CutFront(front, status, AgentSuffix(i, ki));
    }
    if Status(status) {
      assert AgentSuffix(i, ki)[0] == AGENT[0] != status[0];
    }
    if Id(Agent(command, i, ki)) == Id(Agent(command, j, kj)) {
      CutFront(front, AgentSuffix(i, ki), AgentSuffix(j, kj));
      CutFront(AGENT + [BAR], Decimal(i) + [BAR] + ki, Decimal(j) + [BAR] + kj);
      CutAt(Decimal(i), ki, Decimal(j), kj, BAR);
      DecimalInjective(i, j);
    }
  }

  // ----- across commands

  /** A command named after another one's agent event that failed, itself failed. */
  predicate Clash(r: Key, a: Key) {
    && r.Receipt? && a.Agent? && r.status == Text("failed") && a.kind == Text("failed")
    && r.command == a.command + [BAR] + AGENT + [BAR] + Decimal(a.index)
  }

  // A kind is what precedes its last bar and what follows it.
  function Front(k: Bytes): Bytes {
    if k == Text("waiting_input") then [BAR] + Text("waiting")
    else if k == Text("completion_claimed") then [BAR] + Text("completion")
    else []
  }

  function Last(k: Bytes): Bytes {
    if k == Text("waiting_input") then Text("input")
    else if k == Text("completion_claimed") then Text("claimed")
    else k
  }

  lemma LastSegment(k: Bytes)
    requires Kind(k)
    ensures [BAR] + k == Front(k) + [BAR] + Last(k)
  {
    if k == Text("waiting_input") {
      assert k == Text("waiting") + [BAR] + Text("input");
      assert Front(k) == [BAR] + Text("waiting");
    } else if k == Text("completion_claimed") {
      assert k == Text("completion") + [BAR] + Text("claimed");
      assert Front(k) == [BAR] + Text("completion");
    }
  }

  lemma LastHasNoBar(k: Bytes)
    requires Kind(k)
    ensures BAR !in Last(k)
  {
  }

  lemma LastIsStatus(k: Bytes)
    requires Kind(k) && Status(Last(k))
    ensures k == Last(k) == Text("failed") && Front(k) == []
  {
    assert Text("progress")[0] != Text("rejected")[0];
  }

  lemma LastNamesKind(k: Bytes, l: Bytes)
    requires Kind(k) && Kind(l) && Last(k) == Last(l)
    ensures k == l
  {
    assert Text("started")[0] == Text("stopped")[0] == 115;
    assert Text("started")[2] != Text("stopped")[2];
    assert Text("blocked")[0] == 98 && Text("claimed")[0] == 99;
  }

  lemma StatusHasNoBar(s: Bytes)
    requires Status(s)
    ensures BAR !in s
  {
  }

  function Stem(a: Key): Bytes
    requires a.Agent?
  {
    a.command + [BAR] + AGENT + [BAR] + Decimal(a.index)
  }

  lemma AgentIdByLast(a: Key)
    requires a.Agent? && Kind(a.kind)
    ensures Id(a) == DEVEVT + ((Stem(a) + Front(a.kind)) + [BAR] + Last(a.kind))
  {
    hide DEVEVT, Front, Last, Kind;
    LastSegment(a.kind);
    assert Id(a) == DEVEVT + (Stem(a) + ([BAR] + a.kind));
    assert Stem(a) + (Front(a.kind) + [BAR] + Last(a.kind)) == (Stem(a) + Front(a.kind)) + [BAR] + Last(a.kind);
  }

  /**
   * Within the vocabularies an event's identity names the event, whatever the command
   * IDs, up to one kind of clash between a receipt and an agent event.
   */
  lemma IdsNameEvents(a: Key, b: Key)
    requires InVocabulary(a) && InVocabulary(b)
    ensures Id(a) == Id(b) <==> a == b || Clash(a, b) || Clash(b, a)
  {
    match (a, b) {
      case (Receipt(c, s), Receipt(d, t)) =>
        StatusHasNoBar(s);
        StatusHasNoBar(t);
        ReceiptsDiffer(c, s, d, t);
      case (Agent(_, _, _), Agent(_, _, _)) => AgentsDiffer(a, b);
      case (Receipt(_, _), Agent(_, _, _)) => ReceiptAgainstAgent(a, b);
      case (Agent(_, _, _), Receipt(_, _)) => ReceiptAgainstAgent(b, a);
    }
  }

  lemma ReceiptsDiffer(c: Bytes, s: Bytes, d: Bytes, t: Bytes)
    requires BAR !in s && BAR !in t
    ensures Id(Receipt(c, s)) == Id(Receipt(d, t)) <==> c == d && s == t
  {
    if Id(Receipt(c, s)) == Id(Receipt(d, t)) {
      CutFront(DEVEVT, c + [BAR] + s, d + [BAR] + t);
      CutLast(c, s, d, t, BAR);
    }
  }

  lemma AgentsDiffer(a: Key, b: Key)
    requires a.Agent? && b.Agent? && Kind(a.kind) && Kind(b.kind)
    ensures Id(a) == Id(b) <==> a == b
  {
    hide DEVEVT, Front, Last, Kind;
    if Id(a) == Id(b) {
      AgentIdByLast(a);
      AgentIdByLast(b);
      LastHasNoBar(a.kind);
      LastHasNoBar(b.kind);
      CutFront(DEVEVT, (Stem(a) + Front(a.kind)) + [BAR] + Last(a.kind), (Stem(b) + Front(b.kind)) + [BAR] + Last(b.kind));
      CutLast(Stem(a) + Front(a.kind), Last(a.kind), Stem(b) + Front(b.kind), Last(b.kind), BAR);
      LastNamesKind(a.kind, b.kind);
      assert Stem(a) == (Stem(a) + Front(a.kind))[..|Stem(a)|];
      assert Stem(b) == (Stem(b) + Front(b.kind))[..|Stem(b)|];
      assert Stem(a) == Stem(b);
      CutLast(a.command + [BAR] + AGENT, Decimal(a.index), b.command + [BAR] + AGENT, Decimal(b.index), BAR);
      DecimalInjective(a.index, b.index);
      assert BAR !in AGENT;
      CutLast(a.command, AGENT, b.command, AGENT, BAR);
    }
  }

  lemma ReceiptAgainstAgent(r: Key, a: Key)
    requires r.Receipt? && a.Agent? && Status(r.status) && Kind(a.kind)
    ensures Id(r) == Id(a) <==> Clash(r, a)
  {
    hide DEVEVT, Front, Last, Kind;
    AgentIdByLast(a);
    LastHasNoBar(a.kind);
    StatusHasNoBar(r.status);
    if Id(r) == Id(a) {
      CutFront(DEVEVT, r.command + [BAR] + r.status, (Stem(a) + Front(a.kind)) + [BAR] + Last(a.kind));
      CutLast(r.command, r.status, Stem(a) + Front(a.kind), Last(a.kind), BAR);
      LastIsStatus(a.kind);
    }
    if Clash(r, a) {
      assert Id(a) == DEVEVT + (Stem(a) + [BAR] + a.kind);
    }
  }
}
