/**
 * One pass of the stateless edge client: pull, acknowledge, execute, report as one batch.
 * Everything outside the client is in `World`: its answers during this one pass.
 */
module Sync {
  import opened Options
  import opened Utf8
  import opened Canonical
  import opened Envelope
  import Grant
  import Checklist
  import opened EventIds

  datatype Outcome = Outcome(status: Bytes, resultJSON: Bytes)

  datatype AgentUpdate = AgentUpdate(sessionID: Bytes, kind: Bytes, summary: Bytes, dataJSON: Bytes)

  datatype Failure =
    | SyncFailed | AckFailed(command: Bytes) | EmptyStatus | IncompleteUpdate | NotMarshalled | SubmitFailed

  // `updates` is empty when the client was given no agent hook; `explain` is the JSON a
  // refusal is reported with; the payload functions marshal into an Any, or fail.
  datatype World = World(
    env: Grant.Env, cloudKey: Option<Bytes>, deviceKey: Option<Bytes>,
    now: EdgeCommand -> int, clock: U64 -> Stamp,
    acked: EdgeCommand -> bool, execute: EdgeCommand -> Outcome,
    updates: (EdgeCommand, Outcome) -> seq<AgentUpdate>, explain: Grant.Refusal -> Bytes,
    resultPayload: (Bytes, Outcome) -> Option<Payload>, updatePayload: AgentUpdate -> Option<Payload>)

  datatype SyncResponse = SyncResponse(commands: seq<EdgeCommand>, acked: U64, pollSeconds: nat)

  datatype Rejection = Rejection(number: U64, reason: Bytes)

  datatype SubmitResponse = SubmitResponse(acked: U64, rejections: seq<Rejection>)

  datatype Report = Report(commands: nat, reported: nat, acked: U64, pollSeconds: nat, rejections: seq<Bytes>)

  const RESULT_TYPE := Text("com.rook.edge.command_result.v1")
  const AGENT_TYPE := Text("com.rook.edge.agent_event.v1")

  function Next(n: U64): U64 {
    (n + 1) % WORD
  }

  // ----- what a command contributes

  function Refused(w: World, c: EdgeCommand): Option<Grant.Refusal> {
    Grant.Refuse(c, w.cloudKey, w.now(c), w.env)
  }

  /** A refused command is not executed; its refusal is its outcome. */
  function OutcomeOf(w: World, c: EdgeCommand): Outcome {
    match Refused(w, c)
    case Some(why) => Outcome(Text("rejected"), w.explain(why))
    case None => w.execute(c)
  }

  function Updates(w: World, c: EdgeCommand): seq<AgentUpdate> {
    w.updates(c, OutcomeOf(w, c))
  }

  function Signed(w: World, e: EdgeEvent): (r: EdgeEvent)
    ensures r.(deviceSignature := e.deviceSignature) == e
  {
    if w.deviceKey.Some? then SignEvent(e, w.deviceKey.value, w.env.scheme, w.env.sha) else e
  }

  function EventFor(w: World, c: EdgeCommand, number: U64, key: Key, kind: Bytes, p: Payload): EdgeEvent {
    EdgeEvent(Id(key), c.deviceId, number, c.commandId, kind, Some(w.clock(number)), 0, Some(p), w.env.sha(p.value), [], [])
  }

  function ResultEvent(w: World, c: EdgeCommand, number: U64, o: Outcome): Result<EdgeEvent, Failure> {
    if o.status == [] then Err(EmptyStatus)
    else
      match w.resultPayload(c.commandId, o)
      case None => Err(NotMarshalled)
      case Some(p) => Ok(EventFor(w, c, number, Receipt(c.commandId, o.status), RESULT_TYPE, p))
  }

  function AgentEvent(w: World, c: EdgeCommand, number: U64, i: nat, u: AgentUpdate): Result<EdgeEvent, Failure> {
    if u.sessionID == [] || u.kind == [] then Err(IncompleteUpdate)
    else
      match w.updatePayload(u)
      case None => Err(NotMarshalled)
      case Some(p) => Ok(EventFor(w, c, number, Agent(c.commandId, i, u.kind), AGENT_TYPE, p))
  }

  function Prepend(front: seq<EdgeEvent>, rest: Result<seq<EdgeEvent>, Failure>): Result<seq<EdgeEvent>, Failure> {
    if rest.Err? then rest else Ok(front + rest.value)
  }

  function AgentEvents(w: World, c: EdgeCommand, us: seq<AgentUpdate>, i: nat, last: U64): Result<seq<EdgeEvent>, Failure>
    requires i <= |us|
    decreases |us| - i
  {
    if i == |us| then Ok([])
    else
      match AgentEvent(w, c, Next(last), i, us[i])
      case Err(e) => Err(e)
      case Ok(ev) => Prepend([Signed(w, ev)], AgentEvents(w, c, us, i + 1, Next(last)))
  }

  function CommandEvents(w: World, c: EdgeCommand, last: U64): Result<seq<EdgeEvent>, Failure> {
    if !w.acked(c) then Err(AckFailed(c.commandId))
    else
      match ResultEvent(w, c, Next(last), OutcomeOf(w, c))
      case Err(e) => Err(e)
      case Ok(ev) => Prepend([Signed(w, ev)], AgentEvents(w, c, Updates(w, c), 0, Next(last)))
  }

  function Batch(w: World, commands: seq<EdgeCommand>, last: U64): Result<seq<EdgeEvent>, Failure> {
    if commands == [] then Ok([])
    else
      match CommandEvents(w, commands[0], last)
      case Err(e) => Err(e)
      case Ok(evs) => Prepend(evs, Batch(w, commands[1..], (last + |evs|) % WORD))
  }

  predicate GoodUpdate(w: World, u: AgentUpdate) {
    u.sessionID != [] && u.kind != [] && w.updatePayload(u).Some?
  }

  predicate GoodCommand(w: World, c: EdgeCommand) {
    && w.acked(c) && OutcomeOf(w, c).status != [] && w.resultPayload(c.commandId, OutcomeOf(w, c)).Some?
    && forall u :: u in Updates(w, c) ==> GoodUpdate(w, u)
  }

  // ----- what a pass executes

  /** The commands among these that the device does not refuse, in order. */
  function Unrefused(w: World, commands: seq<EdgeCommand>): seq<EdgeCommand> {
    if commands == [] then []
    else (if Refused(w, commands[0]).None? then [commands[0]] else []) + Unrefused(w, commands[1..])
  }

  /** How many commands a pass gets as far as acknowledging: all, or up to its first failure. */
  function Reached(w: World, commands: seq<EdgeCommand>): (n: nat)
    ensures n <= |commands|
  {
    if commands == [] || !w.acked(commands[0]) then 0
    else if !GoodCommand(w, commands[0]) then 1
    else 1 + Reached(w, commands[1..])
  }

  function Executed(w: World, commands: seq<EdgeCommand>): seq<EdgeCommand> {
    Unrefused(w, commands[..Reached(w, commands)])
  }

  lemma {:induction false} UnrefusedMore(w: World, commands: seq<EdgeCommand>, c: EdgeCommand)
    ensures Unrefused(w, commands + [c]) == Unrefused(w, commands) + (if Refused(w, c).None? then [c] else [])
  {
    hide Refused;
    if commands == [] {
      assert [] + [c] == [c] && [c][1..] == [];
    } else {
      assert (commands + [c])[1..] == commands[1..] + [c];
      UnrefusedMore(w, commands[1..], c);
    }
  }

  lemma {:induction false} ReachedAre(w: World, commands: seq<EdgeCommand>, k: nat)
    requires k <= |commands| && forall i :: 0 <= i < k ==> GoodCommand(w, commands[i])
    ensures k == |commands| ==> Reached(w, commands) == k
    ensures k < |commands| && !w.acked(commands[k]) ==> Reached(w, commands) == k
    ensures k < |commands| && w.acked(commands[k]) && !GoodCommand(w, commands[k]) ==> Reached(w, commands) == k + 1
  {
    if k > 0 {
      assert forall i :: 0 <= i < k - 1 ==> commands[1..][i] == commands[i + 1];
      ReachedAre(w, commands[1..], k - 1);
    }
  }

  function RejectionLines(rs: seq<Rejection>): seq<Bytes> {
    seq(|rs|, i requires 0 <= i < |rs| => Text("seq ") + Cuts.Decimal(rs[i].number) + Text(": ") + rs[i].reason)
  }

  // ----- the pass

  method Lines(rs: seq<Rejection>) returns (lines: seq<Bytes>)
    ensures lines == RejectionLines(rs)
  {
    lines := [];
    for i := 0 to |rs|
      invariant lines == RejectionLines(rs[..i])
    {
      lines := lines + [Text("seq ") + Cuts.Decimal(rs[i].number) + Text(": ") + rs[i].reason];
    }
    assert rs[..|rs|] == rs;
  }

  lemma PrependNothing(r: Result<seq<EdgeEvent>, Failure>)
    ensures Prepend([], r) == r
  {
    if r.Ok? {
      assert [] + r.value == r.value;
    }
  }

  lemma PrependTwice(a: seq<EdgeEvent>, b: seq<EdgeEvent>, r: Result<seq<EdgeEvent>, Failure>)
    ensures Prepend(a, Prepend(b, r)) == Prepend(a + b, r)
  {
    if r.Ok? {
      assert a + (b + r.value) == a + b + r.value;
    }
  }

  /** One turn of SyncOnce's loop: acknowledge, execute or refuse, receipt, agent events. */
  method ComposeOne(w: World, c: EdgeCommand, since: U64) returns (r: Result<seq<EdgeEvent>, Failure>, ghost ran: bool)
    ensures r == CommandEvents(w, c, since)
    ensures ran <==> w.acked(c) && Grant.Refuse(c, w.cloudKey, w.now(c), w.env).None?
    ensures r.Ok? ==> TellsOf(w, c, r.value, 0, since)
  {
    hide Grant.Refuse, Signed, EventFor, Text, ResultEvent, AgentEvent;
    ran := false;
    if !w.acked(c) {
      return Err(AckFailed(c.commandId)), ran;
    }
    var outcome: Outcome;
    var why := Grant.Refuse(c, w.cloudKey, w.now(c), w.env);
    if why.Some? {
      outcome := Outcome(Text("rejected"), w.explain(why.value));
    } else {
      outcome := w.execute(c);
      ran := true;
    }
    var last := Next(since);
    var ev := ResultEvent(w, c, last, outcome);
    if ev.Err? {
      return Err(ev.error), ran;
    }
    var events := [Signed(w, ev.value)];
    var updates := w.updates(c, outcome);
    for i := 0 to |updates|
      invariant CommandEvents(w, c, since) == Prepend(events, AgentEvents(w, c, updates, i, last))
    {
      last := Next(last);
      var aev := AgentEvent(w, c, last, i, updates[i]);
      if aev.Err? {
        return Err(aev.error), ran;
      }
      PrependTwice(events, [Signed(w, aev.value)], AgentEvents(w, c, updates, i + 1, last));
      events := events + [Signed(w, aev.value)];
    }
    assert events + [] == events;
    r := Ok(events);
    CommandTells(w, c, since);
  }

  /** The loop of SyncOnce, up to the submission. */
  method Compose(w: World, commands: seq<EdgeCommand>, cursor: U64)
    returns (r: Result<seq<EdgeEvent>, Failure>, ghost executed: seq<EdgeCommand>)
    ensures r == Batch(w, commands, cursor)
    ensures executed == Executed(w, commands)
  {
    hide Grant.Refuse, CommandEvents, GoodCommand, Reached, Unrefused, TellsOf;
    executed := [];
    var last: U64 := cursor;
    var events: seq<EdgeEvent> := [];
    assert commands[0..] == commands;
    PrependNothing(Batch(w, commands, last));
    NothingUnrefused(w);
    for k := 0 to |commands|
      invariant Batch(w, commands, cursor) == Prepend(events, Batch(w, commands[k..], last))
      invariant executed == Unrefused(w, commands[..k])
      invariant forall i :: 0 <= i < k ==> GoodCommand(w, commands[i])
    {
      assert commands[k..][0] == commands[k] && commands[k..][1..] == commands[k + 1..];
      assert commands[..k + 1] == commands[..k] + [commands[k]];
      UnrefusedMore(w, commands[..k], commands[k]);
      CommandEventsAre(w, commands[k], last);
      GoodIsAcked(w, commands[k]);
      ReachedAre(w, commands, k);
      var mine, ran := ComposeOne(w, commands[k], last);
      if ran {
        executed := executed + [commands[k]];
      }
      if mine.Err? {
        return mine, executed;
      }
      last := (last + |mine.value|) % WORD;
      PrependTwice(events, mine.value, Batch(w, commands[k + 1..], last));
      events := events + mine.value;
    }
    ReachedAre(w, commands, |commands|);
    assert events + [] == events;
    r := Ok(events);
  }

  lemma NothingUnrefused(w: World)
    ensures Unrefused(w, []) == []
  {
  }

  lemma GoodIsAcked(w: World, c: EdgeCommand)
    ensures GoodCommand(w, c) ==> w.acked(c)
  {
  }

  /**
   * Nothing is submitted unless the whole batch was built, and then all of it at once.
   * What is executed is, in order and once each, the commands not refused: all of them, or
   * those reached by the first failure.
   */
  method SyncOnce(w: World, sync: Option<SyncResponse>, submit: seq<EdgeEvent> -> Option<SubmitResponse>)
    returns (report: Report, failure: Option<Failure>, submitted: Option<seq<EdgeEvent>>, ghost executed: seq<EdgeCommand>)
    ensures sync.None? ==>
              report == Report(0, 0, 0, 0, []) && failure == Some(SyncFailed) && submitted == None && executed == []
    ensures sync.Some? ==>
              var r := sync.value;
              var unsent := Report(|r.commands|, 0, r.acked, r.pollSeconds, []);
              match Batch(w, r.commands, r.acked)
              case Err(e) => report == unsent && failure == Some(e) && submitted == None
              case Ok(evs) =>
                if evs == [] then report == unsent && failure == None && submitted == None
                else
                  submitted == Some(evs) &&
                  match submit(evs)
                  case None => report == unsent && failure == Some(SubmitFailed)
                  case Some(res) =>
                    && failure == None
                    && report == Report(|r.commands|, |evs|, res.acked, r.pollSeconds, RejectionLines(res.rejections))
    ensures executed == if sync.Some? then Executed(w, sync.value.commands) else []
    ensures sync.Some? && submitted.Some? ==> TellsAll(w, sync.value.commands, submitted.value, sync.value.acked)
    ensures forall c :: c in executed ==> c in sync.value.commands && MayRun(w, c)
    ensures forall ev :: submitted.Some? && ev in submitted.value ==> Sealed(w, ev)
    ensures submitted.Some? && submit(submitted.value).Some? ==>
              var rs := submit(submitted.value).value.rejections;
              && |report.rejections| == |rs|
              && forall i :: 0 <= i < |rs| ==>
                   report.rejections[i] == Text("seq ") + Cuts.Decimal(rs[i].number) + Text(": ") + rs[i].reason
  {
    hide Grant.Refuse, Batch, Text, Executed, TellsAll, MayRun, Sealed;
    report, failure, submitted, executed := Report(0, 0, 0, 0, []), Some(SyncFailed), None, [];
    if sync.None? {
      return;
    }
    var r := sync.value;
    report, failure := Report(|r.commands|, 0, r.acked, r.pollSeconds, []), None;
    var built;
    built, executed := Compose(w, r.commands, r.acked);
    BatchTells(w, r.commands, r.acked);
    BatchSealed(w, r.commands, r.acked);
    ExecutedMayRun(w, r.commands);
    if built.Err? {
      failure := Some(built.error);
      return;
    }
    var events := built.value;
    if |events| == 0 {
      return;
    }
    submitted := Some(events);
    var res := submit(events);
    if res.None? {
      failure := Some(SubmitFailed);
      return;
    }
    var lines := Lines(res.value.rejections);
    report := Report(|r.commands|, |events|, res.value.acked, r.pollSeconds, lines);
  }

  // ----- what a batch is

  /** The events one command stands for: its receipt, then its agent updates in order. */
  function AgentKeys(command: Bytes, us: seq<AgentUpdate>): (ks: seq<Key>)
    ensures |ks| == |us| && forall i :: 0 <= i < |ks| ==> ks[i].Agent?
  {
    seq(|us|, i requires 0 <= i < |us| => Agent(command, i, us[i].kind))
  }

  function CommandKeys(w: World, c: EdgeCommand): seq<Key> {
    [Receipt(c.commandId, OutcomeOf(w, c).status)] + AgentKeys(c.commandId, Updates(w, c))
  }

  function Keys(w: World, commands: seq<EdgeCommand>): seq<Key> {
    if commands == [] then [] else CommandKeys(w, commands[0]) + Keys(w, commands[1..])
  }

  // Event `e` reports `k` as number `n`.
  predicate Reports(e: EdgeEvent, k: Key, n: U64) {
    && e.eventId == Id(k) && e.commandId == k.command && e.deviceSequence == n
    && e.kind == (if k.Receipt? then RESULT_TYPE else AGENT_TYPE)
  }

  /** The number of the i-th event after `last`. */
  function Nth(last: U64, i: nat): U64 {
    (last + 1 + i) % WORD
  }

  lemma NthAfter(last: U64, n: nat, i: nat)
    ensures Nth((last + n) % WORD, i) == Nth(last, n + i)
    ensures Next(last) == (last + 1) % WORD == Nth(last, 0)
  {
  }

  ghost predicate ReportsAll(evs: seq<EdgeEvent>, ks: seq<Key>, last: U64) {
    && |evs| == |ks|
    && forall i :: 0 <= i < |evs| ==> Reports(evs[i], ks[i], Nth(last, i))
  }

  lemma {:induction false} AgentEventsAre(w: World, c: EdgeCommand, us: seq<AgentUpdate>, i: nat, last: U64)
    requires i <= |us|
    ensures var r := AgentEvents(w, c, us, i, last);
            && (r.Ok? <==> forall j :: i <= j < |us| ==> GoodUpdate(w, us[j]))
            && (r.Ok? ==> ReportsAll(r.value, AgentKeys(c.commandId, us)[i..], last))
    decreases |us| - i
  {
    hide Id, Text, Signed;
    if i < |us| {
      AgentEventsAre(w, c, us, i + 1, Next(last));
      var r := AgentEvents(w, c, us, i, last);
      if r.Ok? {
        var ks := AgentKeys(c.commandId, us);
        var rest := AgentEvents(w, c, us, i + 1, Next(last)).value;
        assert ks[i..] == [ks[i]] + ks[i + 1..];
        Shift(r.value[0], rest, ks[i], ks[i + 1..], last);
      }
    }
  }

  lemma Shift(e: EdgeEvent, evs: seq<EdgeEvent>, k: Key, ks: seq<Key>, last: U64)
    requires Reports(e, k, Next(last)) && ReportsAll(evs, ks, Next(last))
    ensures ReportsAll([e] + evs, [k] + ks, last)
  {
    hide Reports, Nth, Next;
    NthAfter(last, 0, 0);
    forall i | 0 <= i < 1 + |evs| ensures Reports(([e] + evs)[i], ([k] + ks)[i], Nth(last, i)) {
      if i > 0 {
        NthAfter(last, 1, i - 1);
      }
    }
  }

  lemma CommandEventsAre(w: World, c: EdgeCommand, last: U64)
    ensures var r := CommandEvents(w, c, last);
            && (r.Ok? <==> GoodCommand(w, c))
            && (r.Ok? ==> ReportsAll(r.value, CommandKeys(w, c), last))
  {
    hide Id, Text, Signed, OutcomeOf;
    AgentEventsAre(w, c, Updates(w, c), 0, Next(last));
    var r := CommandEvents(w, c, last);
    if r.Ok? {
      var ks := AgentKeys(c.commandId, Updates(w, c));
      assert ks[0..] == ks;
      Shift(r.value[0], AgentEvents(w, c, Updates(w, c), 0, Next(last)).value, CommandKeys(w, c)[0], ks, last);
    }
  }

  lemma Concatenate(e1: seq<EdgeEvent>, k1: seq<Key>, e2: seq<EdgeEvent>, k2: seq<Key>, last: U64)
    requires ReportsAll(e1, k1, last) && ReportsAll(e2, k2, (last + |e1|) % WORD)
    ensures ReportsAll(e1 + e2, k1 + k2, last)
  {
    hide Reports, Nth, Next;
    forall i | 0 <= i < |e1| + |e2| ensures Reports((e1 + e2)[i], (k1 + k2)[i], Nth(last, i)) {
      if i >= |e1| {
        NthAfter(last, |e1|, i - |e1|);
      }
    }
  }

  /**
   * A batch is built exactly when every command was acknowledged, every outcome names a
   * status and every update a session and a kind (and all of them marshal). It then holds
   * one event per key, numbered from the cursor on without a gap: each command's receipt,
   * then its agent events in order.
   */
  lemma {:induction false} BatchIs(w: World, commands: seq<EdgeCommand>, last: U64)
    ensures var r := Batch(w, commands, last);
            && (r.Ok? <==> forall c :: c in commands ==> GoodCommand(w, c))
            && (r.Ok? ==> ReportsAll(r.value, Keys(w, commands), last))
  {
    hide Id, Text, OutcomeOf, CommandEvents, GoodCommand, Reports;
    if commands != [] {
      var c := commands[0];
      CommandEventsAre(w, c, last);
      var mine := CommandEvents(w, c, last);
      if mine.Ok? {
        BatchIs(w, commands[1..], (last + |mine.value|) % WORD);
        var rest := Batch(w, commands[1..], (last + |mine.value|) % WORD);
        if rest.Ok? {
          Concatenate(mine.value, CommandKeys(w, c), rest.value, Keys(w, commands[1..]), last);
        }
      }
    }
  }

  lemma {:induction false} UnrefusedConcat(w: World, a: seq<EdgeCommand>, b: seq<EdgeCommand>)
    ensures Unrefused(w, a + b) == Unrefused(w, a) + Unrefused(w, b)
  {
    hide Refused;
    if a == [] {
      assert a + b == b;
    } else {
      assert (a + b)[1..] == a[1..] + b;
      UnrefusedConcat(w, a[1..], b);
    }
  }

  lemma {:induction false} UnrefusedAre(w: World, commands: seq<EdgeCommand>)
    ensures forall c :: c in Unrefused(w, commands) <==> c in commands && Refused(w, c).None?
  {
    hide Refused;
    if commands != [] {
      UnrefusedAre(w, commands[1..]);
      assert forall c :: c in commands <==> c == commands[0] || c in commands[1..];
    }
  }

  lemma {:induction false} ReachedAcked(w: World, commands: seq<EdgeCommand>)
    ensures forall c :: c in commands[..Reached(w, commands)] ==> w.acked(c)
  {
    hide GoodCommand;
    if commands != [] && w.acked(commands[0]) {
      var n := Reached(w, commands);
      ReachedAcked(w, commands[1..]);
      assert commands[..n] == [commands[0]] + commands[1..][..n - 1];
    }
  }

  /**
   * What a pass executes is a prefix of the unrefused commands, each of them acknowledged,
   * and all of them when the batch is built.
   */
  lemma ExecutedIsPrefix(w: World, commands: seq<EdgeCommand>, last: U64)
    ensures Executed(w, commands) <= Unrefused(w, commands)
    ensures forall c :: c in Executed(w, commands) ==> c in commands && w.acked(c) && Refused(w, c).None?
    ensures Batch(w, commands, last).Ok? ==> Executed(w, commands) == Unrefused(w, commands)
  {
    hide Refused, Batch, GoodCommand, Reached, Unrefused;
    var n := Reached(w, commands);
    assert commands == commands[..n] + commands[n..];
    UnrefusedConcat(w, commands[..n], commands[n..]);
    UnrefusedAre(w, commands[..n]);
    ReachedAcked(w, commands);
    BatchIs(w, commands, last);
    if Batch(w, commands, last).Ok? {
      ReachedAre(w, commands, |commands|);
      assert commands[..|commands|] == commands;
    }
  }

  // ----- what a batch says, field by field

  // Addressed as number n for command c, under the client's own signature if it has a key.
  ghost predicate Addressed(w: World, c: EdgeCommand, n: U64, e: EdgeEvent) {
    && e.commandId == c.commandId && e.deviceId == c.deviceId && e.deviceSequence == n
    && e.occurredAt == Some(w.clock(n)) && e.fencingToken == 0 && e.traceparent == []
  }

  ghost predicate ReceiptFor(w: World, c: EdgeCommand, o: Outcome, n: U64, e: EdgeEvent) {
    && Addressed(w, c, n, e)
    && e.eventId == Text("devevt_") + c.commandId + Text("_") + o.status && o.status != []
    && e.kind == Text("com.rook.edge.command_result.v1")
    && e.payload.Some? && e.payload == w.resultPayload(c.commandId, o)
  }

  ghost predicate AgentEventFor(w: World, c: EdgeCommand, i: nat, u: AgentUpdate, n: U64, e: EdgeEvent) {
    && Addressed(w, c, n, e)
    && e.eventId == Text("devevt_") + c.commandId + Text("_agent_") + Cuts.Decimal(i) + Text("_") + u.kind
    && e.kind == Text("com.rook.edge.agent_event.v1")
    && u.sessionID != [] && u.kind != [] && e.payload.Some? && e.payload == w.updatePayload(u)
  }

  /** From place p on, the events report outcome o of c: one receipt, then the agent's updates in order. */
  ghost predicate Tells(w: World, c: EdgeCommand, o: Outcome, evs: seq<EdgeEvent>, p: nat, last: U64) {
    && p + |w.updates(c, o)| < |evs|
    && ReceiptFor(w, c, o, (last + 1 + p) % 0x1_0000_0000_0000_0000, evs[p])
    && forall i :: 0 <= i < |w.updates(c, o)| ==>
         AgentEventFor(w, c, i, w.updates(c, o)[i], (last + 2 + p + i) % 0x1_0000_0000_0000_0000, evs[p + 1 + i])
  }

  /** A refused command is told of as rejected, with the reason; any other by its execution. */
  ghost predicate TellsOf(w: World, c: EdgeCommand, evs: seq<EdgeEvent>, p: nat, last: U64) {
    match Grant.Refuse(c, w.cloudKey, w.now(c), w.env)
    case Some(why) => Tells(w, c, Outcome(Text("rejected"), w.explain(why)), evs, p, last)
    case None => Tells(w, c, w.execute(c), evs, p, last)
  }

  /** Where the j-th command's receipt stands in the batch. */
  function Position(w: World, commands: seq<EdgeCommand>, j: nat): nat
    requires j <= |commands|
  {
    if j == 0 then 0 else |CommandKeys(w, commands[0])| + Position(w, commands[1..], j - 1)
  }

  /** Every command is told of at its place, and nothing else is in the batch. */
  ghost predicate TellsAll(w: World, commands: seq<EdgeCommand>, evs: seq<EdgeEvent>, last: U64) {
    && |evs| == Position(w, commands, |commands|)
    && forall j :: 0 <= j < |commands| ==> TellsOf(w, commands[j], evs, Position(w, commands, j), last)
  }

  /** Its payload's digest is right; with a key it carries the client's signature of itself. */
  ghost predicate Sealed(w: World, e: EdgeEvent) {
    && e.payload.Some? && e.payloadDigest == w.env.sha(e.payload.value.value)
    && (w.deviceKey.None? ==> e.deviceSignature == [])
    && (w.deviceKey.Some? ==>
          e.deviceSignature == w.env.scheme.sign(w.deviceKey.value, SignedBytes(Event(e.(deviceSignature := [])), w.env.sha)))
  }

  /** The checklist of an executed command. */
  ghost predicate MayRun(w: World, c: EdgeCommand) {
    && w.acked(c)
    && Checklist.Vouched(c, w.cloudKey, w.env)
    && Checklist.PayloadHolds(c, w.env)
    && Checklist.GrantHolds(c, w.cloudKey, w.now(c), w.env)
  }

  /** The next command's place: past this one's receipt and updates. */
  lemma {:induction false} PositionNext(w: World, commands: seq<EdgeCommand>, j: nat)
    requires j < |commands|
    ensures Position(w, commands, 0) == 0
    ensures var c := commands[j];
            Position(w, commands, j + 1) == Position(w, commands, j) + 1 +
              match Grant.Refuse(c, w.cloudKey, w.now(c), w.env)
              case Some(why) => |w.updates(c, Outcome(Text("rejected"), w.explain(why)))|
              case None => |w.updates(c, w.execute(c))|
  {
    if j > 0 {
      PositionNext(w, commands[1..], j - 1);
    }
  }

  lemma IdSpells(command: Bytes, status: Bytes, i: nat, kind: Bytes)
    ensures Id(Receipt(command, status)) == Text("devevt_") + command + Text("_") + status
    ensures Id(Agent(command, i, kind)) == Text("devevt_") + command + Text("_agent_") + Cuts.Decimal(i) + Text("_") + kind
  {
    var d := Cuts.Decimal(i);
    assert Text("_") == [BAR] && Text("_agent_") == [BAR] + AGENT + [BAR] && DEVEVT == Text("devevt_");
    assert DEVEVT + (command + [BAR] + status) == DEVEVT + command + [BAR] + status;
    assert DEVEVT + (command + [BAR] + AGENT + [BAR] + d + [BAR] + kind)
        == DEVEVT + command + ([BAR] + AGENT + [BAR]) + d + [BAR] + kind;
  }

  lemma AgentEventTells(w: World, c: EdgeCommand, n: U64, i: nat, u: AgentUpdate)
    requires AgentEvent(w, c, n, i, u).Ok?
    ensures AgentEventFor(w, c, i, u, n, Signed(w, AgentEvent(w, c, n, i, u).value))
  {
    hide Id, Text, Cuts.Decimal, SignedBytes;
    IdSpells(c.commandId, [], i, u.kind);
  }

  lemma {:induction false} AgentEventsTell(w: World, c: EdgeCommand, us: seq<AgentUpdate>, i: nat, last: U64)
    requires i <= |us| && AgentEvents(w, c, us, i, last).Ok?
    ensures var evs := AgentEvents(w, c, us, i, last).value;
            && |evs| == |us| - i
            && forall k :: 0 <= k < |evs| ==> AgentEventFor(w, c, i + k, us[i + k], (last + 1 + k) % WORD, evs[k])
    decreases |us| - i
  {
    hide AgentEventFor, AgentEvent, Signed;
    if i < |us| {
      AgentEventsTell(w, c, us, i + 1, Next(last));
      AgentEventTells(w, c, Next(last), i, us[i]);
      var evs, rest := AgentEvents(w, c, us, i, last).value, AgentEvents(w, c, us, i + 1, Next(last)).value;
      forall k | 0 <= k < |evs| ensures AgentEventFor(w, c, i + k, us[i + k], (last + 1 + k) % WORD, evs[k]) {
        if k > 0 {
          NumberAfter(last, 1, k);
          assert evs[k] == rest[k - 1];
        }
      }
    }
  }

  lemma ReceiptTells(w: World, c: EdgeCommand, n: U64, o: Outcome)
    requires ResultEvent(w, c, n, o).Ok?
    ensures ReceiptFor(w, c, o, n, Signed(w, ResultEvent(w, c, n, o).value))
  {
    hide Id, Text, SignedBytes;
    IdSpells(c.commandId, o.status, 0, []);
  }

  lemma CommandTells(w: World, c: EdgeCommand, last: U64)
    ensures CommandEvents(w, c, last).Ok? ==>
              TellsOf(w, c, CommandEvents(w, c, last).value, 0, last)
              && |CommandEvents(w, c, last).value| == |CommandKeys(w, c)|
  {
    hide Signed, ResultEvent, Grant.Refuse, ReceiptFor, AgentEventFor, Text;
    if CommandEvents(w, c, last).Ok? {
      var evs, us := CommandEvents(w, c, last).value, Updates(w, c);
      AgentEventsTell(w, c, us, 0, Next(last));
      ReceiptTells(w, c, Next(last), OutcomeOf(w, c));
      forall i | 0 <= i < |us| ensures AgentEventFor(w, c, i, us[i], (last + 2 + 0 + i) % WORD, evs[0 + 1 + i]) {
        NumberAfter(last, 1, 1 + i);
      }
    }
  }

  lemma NumberAfter(last: U64, n: nat, i: nat)
    ensures ((last + n) % WORD + i) % WORD == (last + n + i) % WORD
  {
  }

  lemma TellsShift(w: World, c: EdgeCommand, o: Outcome, front: seq<EdgeEvent>, evs: seq<EdgeEvent>, back: seq<EdgeEvent>,
                   p: nat, last: U64)
    requires Tells(w, c, o, evs, p, (last + |front|) % WORD)
    ensures Tells(w, c, o, front + evs + back, |front| + p, last)
  {
    hide ReceiptFor, AgentEventFor;
    var all, since, us := front + evs + back, (last + |front|) % WORD, w.updates(c, o);
    NumberAfter(last, |front|, 1 + p);
    assert all[|front| + p] == evs[p];
    forall i | 0 <= i < |us|
      ensures AgentEventFor(w, c, i, us[i], (last + 2 + (|front| + p) + i) % WORD, all[(|front| + p) + 1 + i])
    {
      NumberAfter(last, |front|, 2 + p + i);
      assert all[|front| + p + 1 + i] == evs[p + 1 + i];
    }
  }

  lemma TellsOfShift(w: World, c: EdgeCommand, front: seq<EdgeEvent>, evs: seq<EdgeEvent>, back: seq<EdgeEvent>,
                     p: nat, last: U64)
    requires TellsOf(w, c, evs, p, (last + |front|) % WORD)
    ensures TellsOf(w, c, front + evs + back, |front| + p, last)
  {
    hide Tells, Grant.Refuse, Text;
    match Grant.Refuse(c, w.cloudKey, w.now(c), w.env)
    case Some(why) => TellsShift(w, c, Outcome(Text("rejected"), w.explain(why)), front, evs, back, p, last);
    case None => TellsShift(w, c, w.execute(c), front, evs, back, p, last);
  }

  /**
   * A built batch is, in the order offered, one receipt a command followed by its agent
   * events: "rejected" with the reason for a command the checklist refuses, and what the
   * execution gave for any other.
   */
  lemma {:induction false} BatchTells(w: World, commands: seq<EdgeCommand>, last: U64)
    ensures Batch(w, commands, last).Ok? ==> TellsAll(w, commands, Batch(w, commands, last).value, last)
  {
    hide TellsOf, CommandEvents, CommandKeys;
    if commands != [] && Batch(w, commands, last).Ok? {
      var c, evs := commands[0], Batch(w, commands, last).value;
      var mine := CommandEvents(w, c, last).value;
      var mid := (last + |mine|) % WORD;
      var rest := Batch(w, commands[1..], mid).value;
      CommandTells(w, c, last);
      BatchTells(w, commands[1..], mid);
      forall j | 0 <= j < |commands| ensures TellsOf(w, commands[j], evs, Position(w, commands, j), last) {
        if j == 0 {
          TellsOfShift(w, c, [], mine, rest, 0, last);
          assert [] + mine + rest == evs;
        } else {
          TellsOfShift(w, commands[j], mine, rest, [], Position(w, commands[1..], j - 1), last);
          assert mine + rest + [] == evs;
        }
      }
    }
  }

  ghost predicate SealedAll(w: World, evs: seq<EdgeEvent>) {
    forall e :: e in evs ==> Sealed(w, e)
  }

  lemma EventIsSealed(w: World, c: EdgeCommand, n: U64, k: Key, kind: Bytes, p: Payload)
    ensures Sealed(w, Signed(w, EventFor(w, c, n, k, kind, p)))
  {
    hide Id, SignedBytes;
    var e := EventFor(w, c, n, k, kind, p);
    assert Signed(w, e).(deviceSignature := []) == e;
  }

  lemma {:induction false} AgentEventsSealed(w: World, c: EdgeCommand, us: seq<AgentUpdate>, i: nat, last: U64)
    requires i <= |us|
    ensures AgentEvents(w, c, us, i, last).Ok? ==> SealedAll(w, AgentEvents(w, c, us, i, last).value)
    decreases |us| - i
  {
    hide Sealed, EventFor, Signed, Text;
    if i < |us| {
      AgentEventsSealed(w, c, us, i + 1, Next(last));
      if w.updatePayload(us[i]).Some? {
        EventIsSealed(w, c, Next(last), Agent(c.commandId, i, us[i].kind), AGENT_TYPE, w.updatePayload(us[i]).value);
      }
    }
  }

  lemma CommandSealed(w: World, c: EdgeCommand, last: U64)
    ensures CommandEvents(w, c, last).Ok? ==> SealedAll(w, CommandEvents(w, c, last).value)
  {
    hide Sealed, EventFor, Signed, Text, OutcomeOf;
    var o := OutcomeOf(w, c);
    AgentEventsSealed(w, c, Updates(w, c), 0, Next(last));
    if w.resultPayload(c.commandId, o).Some? {
      EventIsSealed(w, c, Next(last), Receipt(c.commandId, o.status), RESULT_TYPE, w.resultPayload(c.commandId, o).value);
    }
  }

  lemma {:induction false} BatchSealed(w: World, commands: seq<EdgeCommand>, last: U64)
    ensures Batch(w, commands, last).Ok? ==> SealedAll(w, Batch(w, commands, last).value)
  {
    hide Sealed, CommandEvents;
    if commands != [] {
      CommandSealed(w, commands[0], last);
      var mine := CommandEvents(w, commands[0], last);
      if mine.Ok? {
        BatchSealed(w, commands[1..], (last + |mine.value|) % WORD);
      }
    }
  }

  /** Each event a keyed client submits verifies under its public key; an unkeyed one's never do. */
  lemma SubmittedVerify(w: World, commands: seq<EdgeCommand>, last: U64, e: EdgeEvent)
    requires Batch(w, commands, last).Ok? && e in Batch(w, commands, last).value
    requires Ideal(w.env.scheme)
    ensures e.payload.Some? && e.payloadDigest == w.env.sha(e.payload.value.value)
    ensures w.deviceKey.Some? ==>
              && e.deviceSignature != []
              && w.env.scheme.verify(w.env.scheme.public(w.deviceKey.value), SignedBytes(Event(e), w.env.sha), e.deviceSignature)
    ensures w.deviceKey.None? ==> forall pub :: !VerifyEvent(e, pub, w.env.scheme, w.env.sha)
  {
    hide Batch;
    BatchSealed(w, commands, last);
    assert Fields(Event(e), w.env.sha) == Fields(Event(e.(deviceSignature := [])), w.env.sha);
  }

  lemma ExecutedMayRun(w: World, commands: seq<EdgeCommand>)
    ensures forall c :: c in Executed(w, commands) ==> c in commands && MayRun(w, c)
  {
    hide Executed, Grant.Refuse, Checklist.Vouched, Checklist.PayloadHolds, Checklist.GrantHolds;
    ExecutedIsPrefix(w, commands, 0);
    forall c | c in Executed(w, commands) ensures MayRun(w, c) {
      Checklist.RefusesIff(c, w.cloudKey, w.now(c), w.env);
    }
  }

  // ----- what ends a pass early

  // Why composing a command's events fails, for the outcome o.
  ghost predicate FailsFor(w: World, c: EdgeCommand, o: Outcome, f: Failure) {
    var us, p := w.updates(c, o), w.resultPayload(c.commandId, o);
    match f
    case EmptyStatus => o.status == []
    case IncompleteUpdate => o.status != [] && p.Some?
      && exists i :: 0 <= i < |us| && (forall k :: 0 <= k < i ==> GoodUpdate(w, us[k]))
                     && (us[i].sessionID == [] || us[i].kind == [])
    case NotMarshalled => o.status != [] && (p.None?
      || exists i :: 0 <= i < |us| && (forall k :: 0 <= k < i ==> GoodUpdate(w, us[k]))
                     && us[i].sessionID != [] && us[i].kind != [] && w.updatePayload(us[i]).None?)
    case _ => false
  }

  ghost predicate FailsOf(w: World, c: EdgeCommand, f: Failure) {
    if !w.acked(c) then f == AckFailed(c.commandId)
    else
      match Grant.Refuse(c, w.cloudKey, w.now(c), w.env)
      case Some(why) => FailsFor(w, c, Outcome(Text("rejected"), w.explain(why)), f)
      case None => FailsFor(w, c, w.execute(c), f)
  }

  lemma {:induction false} AgentEventsFail(w: World, c: EdgeCommand, us: seq<AgentUpdate>, i: nat, last: U64)
    requires i <= |us| && AgentEvents(w, c, us, i, last).Err?
    ensures exists n :: i <= n < |us| && (forall k :: i <= k < n ==> GoodUpdate(w, us[k]))
                        && (if us[n].sessionID == [] || us[n].kind == [] then
                              AgentEvents(w, c, us, i, last).error == IncompleteUpdate
                            else w.updatePayload(us[n]).None? && AgentEvents(w, c, us, i, last).error == NotMarshalled)
    decreases |us| - i
  {
    hide EventFor, Signed, Text;
    if GoodUpdate(w, us[i]) {
      AgentEventsFail(w, c, us, i + 1, Next(last));
    }
  }

  lemma CommandFails(w: World, c: EdgeCommand, last: U64)
    requires CommandEvents(w, c, last).Err?
    ensures FailsOf(w, c, CommandEvents(w, c, last).error)
  {
    hide EventFor, Signed, Text, Grant.Refuse;
    var r := CommandEvents(w, c, last);
    if w.acked(c) && ResultEvent(w, c, Next(last), OutcomeOf(w, c)).Ok? {
      AgentEventsFail(w, c, Updates(w, c), 0, Next(last));
    }
  }

  /** A batch is not built because of the first command in it that fails, and for its reason. */
  lemma {:induction false} BatchFails(w: World, commands: seq<EdgeCommand>, last: U64) returns (k: nat)
    requires Batch(w, commands, last).Err?
    ensures k < |commands| && FailsOf(w, commands[k], Batch(w, commands, last).error)
    ensures forall i :: 0 <= i < k ==> GoodCommand(w, commands[i])
  {
    hide CommandEvents, FailsOf, GoodCommand;
    CommandEventsAre(w, commands[0], last);
    var mine := CommandEvents(w, commands[0], last);
    if mine.Err? {
      CommandFails(w, commands[0], last);
      k := 0;
    } else {
      k := BatchFails(w, commands[1..], (last + |mine.value|) % WORD);
      k := k + 1;
    }
  }

  // ----- identities over a batch and over replays

  /** One command's events all have their own identity, if its status is one of the ledger's. */
  lemma CommandIdsDistinct(w: World, c: EdgeCommand, last: U64, i: nat, j: nat)
    requires CommandEvents(w, c, last).Ok? && Status(OutcomeOf(w, c).status)
    requires i < j < |CommandEvents(w, c, last).value|
    ensures CommandEvents(w, c, last).value[i].eventId != CommandEvents(w, c, last).value[j].eventId
  {
    hide Id, Text, CommandEvents, OutcomeOf, Status;
    CommandEventsAre(w, c, last);
    var ks := CommandKeys(w, c);
    var a, b := ks[i], ks[j];
    assert b == AgentKeys(c.commandId, Updates(w, c))[j - 1];
    if i == 0 {
      OneCommandDistinct(c.commandId, OutcomeOf(w, c).status, b.index, b.kind, b.index, b.kind);
    } else {
      assert a == AgentKeys(c.commandId, Updates(w, c))[i - 1];
      OneCommandDistinct(c.commandId, [], a.index, a.kind, b.index, b.kind);
    }
  }

  /** A replay with the same outcomes and kinds repeats every identity, from any cursor. */
  lemma ReplayRepeatsIds(w1: World, w2: World, commands: seq<EdgeCommand>, n1: U64, n2: U64)
    requires Batch(w1, commands, n1).Ok? && Batch(w2, commands, n2).Ok?
    requires forall c :: c in commands ==> SameStory(w1, w2, c)
    ensures var e1, e2 := Batch(w1, commands, n1).value, Batch(w2, commands, n2).value;
            |e1| == |e2| && forall i :: 0 <= i < |e1| ==> e1[i].eventId == e2[i].eventId
  {
    hide Batch, Id, SameStory;
    BatchIs(w1, commands, n1);
    BatchIs(w2, commands, n2);
    SameKeys(w1, w2, commands);
  }

  predicate SameStory(w1: World, w2: World, c: EdgeCommand) {
    && OutcomeOf(w1, c).status == OutcomeOf(w2, c).status
    && |Updates(w1, c)| == |Updates(w2, c)|
    && forall i :: 0 <= i < |Updates(w1, c)| ==> Updates(w1, c)[i].kind == Updates(w2, c)[i].kind
  }

  lemma {:induction false} SameKeys(w1: World, w2: World, commands: seq<EdgeCommand>)
    requires forall c :: c in commands ==> SameStory(w1, w2, c)
    ensures Keys(w1, commands) == Keys(w2, commands)
  {
    if commands != [] {
      assert SameStory(w1, w2, commands[0]);
      SameKeys(w1, w2, commands[1..]);
    }
  }

  predicate DistinctCommands(commands: seq<EdgeCommand>) {
    forall i, j :: 0 <= i < j < |commands| ==> commands[i].commandId != commands[j].commandId
  }

  predicate Speaks(w: World, c: EdgeCommand) {
    forall k :: k in CommandKeys(w, c) ==> InVocabulary(k)
  }

  lemma {:induction false} KeysDistinct(w: World, commands: seq<EdgeCommand>, i: nat, j: nat)
    requires DistinctCommands(commands) && i < j < |Keys(w, commands)|
    ensures Keys(w, commands)[i] != Keys(w, commands)[j]
  {
    hide OutcomeOf, Updates;
    var c := commands[0];
    var mine, rest := CommandKeys(w, c), Keys(w, commands[1..]);
    if i >= |mine| {
      KeysDistinct(w, commands[1..], i - |mine|, j - |mine|);
    } else if j >= |mine| {
      KeysName(w, commands[1..], j - |mine|);
    }
  }

  lemma {:induction false} KeysName(w: World, commands: seq<EdgeCommand>, i: nat)
    requires i < |Keys(w, commands)|
    ensures exists c :: c in commands && Keys(w, commands)[i] in CommandKeys(w, c)
                        && Keys(w, commands)[i].command == c.commandId
  {
    hide OutcomeOf, Updates;
    var c := commands[0];
    var mine := CommandKeys(w, c);
    if i < |mine| {
      assert c in commands && Keys(w, commands)[i] == mine[i] && mine[i].command == c.commandId;
    } else {
      KeysName(w, commands[1..], i - |mine|);
    }
  }

  /**
   * Over a whole batch of differently named commands that keep to the vocabularies, two
   * events share an identity only when one is the failed receipt of a command named after
   * the other, a failed agent event.
   */
  lemma BatchIdsClash(w: World, commands: seq<EdgeCommand>, last: U64, i: nat, j: nat)
    requires Batch(w, commands, last).Ok? && DistinctCommands(commands)
    requires forall c :: c in commands ==> Speaks(w, c)
    requires i < j < |Batch(w, commands, last).value|
    ensures var evs, ks := Batch(w, commands, last).value, Keys(w, commands);
            && |ks| == |evs|
            && (evs[i].eventId == evs[j].eventId <==> Clash(ks[i], ks[j]) || Clash(ks[j], ks[i]))
  {
    hide Batch, Id, Clash, InVocabulary;
    BatchIs(w, commands, last);
    KeysDistinct(w, commands, i, j);
    KeysName(w, commands, i);
    KeysName(w, commands, j);
    var ks := Keys(w, commands);
    IdsNameEvents(ks[i], ks[j]);
  }

  /** Such names exist: "a" reporting a failed agent, beside "a_agent_0" itself failed. */
  lemma IdsDoClash()
    ensures var a := Agent(Text("a"), 0, Text("failed"));
            var r := Receipt(Text("a_agent_0"), Text("failed"));
            InVocabulary(a) && InVocabulary(r) && a != r && Id(a) == Id(r)
  {
    var a, r := Agent(Text("a"), 0, Text("failed")), Receipt(Text("a_agent_0"), Text("failed"));
    assert Text("a_agent_0") == Text("a") + [BAR] + AGENT + [BAR] + Cuts.Decimal(0);
    IdsNameEvents(r, a);
  }

  /**
   * Two grant-carrying commands one pass executed under one grant document passed the
   * whole checklist, and claiming the same scopes they are the same action.
   */
  lemma ExecutedActionsMatch(w: World, c: EdgeCommand, d: EdgeCommand)
    requires Refused(w, c).None? && Refused(w, d).None?
    requires c.approvalGrantId != [] && d.approvalGrantId != [] && c.approvalGrant == d.approvalGrant
    requires Grant.NoCollision(c, d, w.env.sha)
    ensures Grant.VerifyCommandGrant(c, w.cloudKey, w.now(c), w.env).Ok?
    ensures Grant.DeviceScope(c) == Grant.DeviceScope(d) && Grant.ResourceScope(c) == Grant.ResourceScope(d) ==>
              Grant.ActionOf(c) == Grant.ActionOf(d)
  {
    hide Grant.VerifyCommandGrant, Grant.NoCollision;
    Grant.ExecutedUnderOneGrant(c, d, w.cloudKey, w.now(c), w.now(d), w.env);
  }
}
