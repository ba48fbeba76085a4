/**
 * Whether the stateless client gets its commands resolved. The cloud is an environment:
 * it keeps the first event recorded under each sequence number, drops a reused number
 * unread, reports the highest contiguous number as its cursor, and stops offering a
 * command once a receipt for it was recorded.
 */
module Convergence {
  import opened Utf8
  import opened Canonical
  import opened Envelope
  import opened EventIds
  import opened Sync

  datatype Cloud = Cloud(pending: map<Bytes, EdgeCommand>, recorded: map<nat, EdgeEvent>)

  /** The end of the contiguous run of numbers after `n`. */
  function RunEnd(numbers: set<nat>, n: nat): (k: nat)
    ensures n <= k && k + 1 !in numbers
    ensures forall i :: n < i <= k ==> i in numbers
    decreases numbers
  {
    if n + 1 in numbers then RunEnd(numbers - {n + 1}, n + 1) else n
  }

  function Cursor(cloud: Cloud): nat {
    RunEnd(cloud.recorded.Keys, 0)
  }

  function Record(cloud: Cloud, ev: EdgeEvent, rejects: EdgeEvent -> bool): Cloud {
    if ev.deviceSequence in cloud.recorded || rejects(ev) then cloud
    else
      Cloud(if ev.kind == RESULT_TYPE then cloud.pending - {ev.commandId} else cloud.pending,
            cloud.recorded[ev.deviceSequence := ev])
  }

  function Submit(cloud: Cloud, evs: seq<EdgeEvent>, rejects: EdgeEvent -> bool): Cloud
    decreases |evs|
  {
    if evs == [] then cloud else Submit(Record(cloud, evs[0], rejects), evs[1..], rejects)
  }

  // A bounded batch of distinct pending commands, empty only when none is pending.
  predicate Offers(cloud: Cloud, commands: seq<EdgeCommand>) {
    && DistinctCommands(commands)
    && (commands == [] ==> cloud.pending == map[])
    && forall c :: c in commands ==> c.commandId in cloud.pending && cloud.pending[c.commandId] == c
  }

  // ----- runs

  datatype Move =
    // A pass that got as far as its response; each may meet another world.
    | Pass(world: World, commands: seq<EdgeCommand>, rejects: EdgeEvent -> bool)
    // Whatever reached the cloud of a pass that did not: a crash or a lost response.
    | Interrupted(landed: seq<EdgeEvent>, rejects: EdgeEvent -> bool)
    | Arrive(command: EdgeCommand)

  predicate Runs(cloud: Cloud, m: Move) {
    && m.Pass? && Offers(cloud, m.commands)
    && Cursor(cloud) + |Keys(m.world, m.commands)| < WORD
    && Batch(m.world, m.commands, Cursor(cloud)).Ok?
  }

  ghost predicate Clean(cloud: Cloud, m: Move) {
    Runs(cloud, m) && forall ev :: ev in Batch(m.world, m.commands, Cursor(cloud)).value ==> !m.rejects(ev)
  }

  function Apply(cloud: Cloud, m: Move): Cloud {
    match m
    case Pass(w, commands, rejects) =>
      if Runs(cloud, m) then Submit(cloud, Batch(w, commands, Cursor(cloud)).value, rejects) else cloud
    case Interrupted(landed, rejects) => Submit(cloud, landed, rejects)
    case Arrive(c) => cloud.(pending := cloud.pending[c.commandId := c])
  }

  function Run(cloud: Cloud, moves: seq<Move>): Cloud
    decreases |moves|
  {
    if moves == [] then cloud else Run(Apply(cloud, moves[0]), moves[1..])
  }

  // ----- one clean pass

  lemma {:induction false} ReceiptsStand(w: World, commands: seq<EdgeCommand>, j: nat)
    requires j < |commands|
    ensures var p := Position(w, commands, j);
            && p < |Keys(w, commands)| && Keys(w, commands)[p].Receipt?
            && Keys(w, commands)[p].command == commands[j].commandId
  {
    hide OutcomeOf, Updates;
    if j > 0 {
      ReceiptsStand(w, commands[1..], j - 1);
    }
  }

  lemma {:induction false} OnlyReceiptsStand(w: World, commands: seq<EdgeCommand>, i: nat) returns (j: nat)
    requires i < |Keys(w, commands)| && Keys(w, commands)[i].Receipt?
    ensures j < |commands| && i == Position(w, commands, j)
  {
    hide OutcomeOf, Updates;
    var mine := CommandKeys(w, commands[0]);
    if i < |mine| {
      j := 0;
    } else {
      j := OnlyReceiptsStand(w, commands[1..], i - |mine|);
      j := j + 1;
    }
  }

  predicate Numbered(evs: seq<EdgeEvent>, last: nat) {
    forall i :: 0 <= i < |evs| ==> evs[i].deviceSequence == last + 1 + i
  }

  /** Commands whose receipt is in the batch, not rejected, under a number not yet recorded. */
  function Fresh(cloud: Cloud, evs: seq<EdgeEvent>, rejects: EdgeEvent -> bool): set<Bytes> {
    set i | 0 <= i < |evs| && evs[i].kind == RESULT_TYPE && evs[i].deviceSequence !in cloud.recorded && !rejects(evs[i])
      :: evs[i].commandId
  }

  lemma {:induction false} SubmitEffect(cloud: Cloud, evs: seq<EdgeEvent>, rejects: EdgeEvent -> bool, last: nat)
    requires Numbered(evs, last)
    ensures var after := Submit(cloud, evs, rejects);
            && after.pending == cloud.pending - Fresh(cloud, evs, rejects)
            && (forall n :: n in cloud.recorded ==> n in after.recorded && after.recorded[n] == cloud.recorded[n])
            && (forall i :: 0 <= i < |evs| && !rejects(evs[i]) ==> evs[i].deviceSequence in after.recorded)
    decreases |evs|
  {
    if evs != [] {
      var mid, rest := Record(cloud, evs[0], rejects), evs[1..];
      assert Numbered(rest, last + 1);
      SubmitEffect(mid, rest, rejects, last + 1);
      FreshStep(cloud, evs, rejects, last);
      assert cloud.pending - Fresh(cloud, evs, rejects) == mid.pending - Fresh(mid, rest, rejects);
      assert forall i :: 1 <= i < |evs| ==> evs[i] == rest[i - 1];
    }
  }

  lemma FreshStep(cloud: Cloud, evs: seq<EdgeEvent>, rejects: EdgeEvent -> bool, last: nat)
    requires evs != [] && Numbered(evs, last)
    ensures var mid, e := Record(cloud, evs[0], rejects), evs[0];
            Fresh(cloud, evs, rejects) == Fresh(mid, evs[1..], rejects) +
              (if e.kind == RESULT_TYPE && e.deviceSequence !in cloud.recorded && !rejects(e) then {e.commandId} else {})
  {
    var mid, rest, e := Record(cloud, evs[0], rejects), evs[1..], evs[0];
    forall id | id in Fresh(cloud, evs, rejects)
      ensures id in Fresh(mid, rest, rejects)
              || (e.kind == RESULT_TYPE && e.deviceSequence !in cloud.recorded && !rejects(e) && id == e.commandId)
    {
      var i :| 0 <= i < |evs| && evs[i].kind == RESULT_TYPE && evs[i].deviceSequence !in cloud.recorded
               && !rejects(evs[i]) && evs[i].commandId == id;
      if i > 0 {
        assert rest[i - 1] == evs[i];
        assert rest[i - 1].deviceSequence !in mid.recorded;
      }
    }
    forall id | id in Fresh(mid, rest, rejects) ensures id in Fresh(cloud, evs, rejects) {
      var i :| 0 <= i < |rest| && rest[i].kind == RESULT_TYPE && rest[i].deviceSequence !in mid.recorded
               && !rejects(rest[i]) && rest[i].commandId == id;
      assert evs[i + 1] == rest[i];
    }
  }

  lemma TypesDiffer()
    ensures RESULT_TYPE != AGENT_TYPE
  {
    assert RESULT_TYPE[14] == 'c' as int && AGENT_TYPE[14] == 'a' as int;
  }

  // The j-th command's receipt lands: its number is not taken and the cloud accepts it.
  predicate Lands(cloud: Cloud, m: Move, j: nat)
    requires Runs(cloud, m) && j < |m.commands|
  {
    var evs, p := Batch(m.world, m.commands, Cursor(cloud)).value, Position(m.world, m.commands, j);
    Cursor(cloud) + 1 + p !in cloud.recorded && p < |evs| && !m.rejects(evs[p])
  }

  function Landing(cloud: Cloud, m: Move): set<Bytes>
    requires Runs(cloud, m)
  {
    set j | 0 <= j < |m.commands| && Lands(cloud, m, j) :: m.commands[j].commandId
  }

  lemma PassNumbers(cloud: Cloud, m: Move)
    requires Runs(cloud, m)
    ensures var evs := Batch(m.world, m.commands, Cursor(cloud)).value;
            ReportsAll(evs, Keys(m.world, m.commands), Cursor(cloud)) && Numbered(evs, Cursor(cloud))
  {
    hide Batch, CommandKeys, Id, RunEnd, Keys, Cursor;
    var last := Cursor(cloud);
    var evs, ks := Batch(m.world, m.commands, last).value, Keys(m.world, m.commands);
    BatchIs(m.world, m.commands, last);
    forall i | 0 <= i < |evs| ensures evs[i].deviceSequence == last + 1 + i {
      assert Reports(evs[i], ks[i], Nth(last, i));
    }
  }

  /**
   * A pass that ran to its response resolves exactly the commands whose receipt landed.
   * If nothing in it was rejected, the first command offered is one of them, because the
   * number after the cursor is never taken, and the cursor passes the whole batch.
   */
  lemma PassResolves(cloud: Cloud, m: Move)
    requires Runs(cloud, m)
    ensures var after := Apply(cloud, m);
            && after.pending == cloud.pending - Landing(cloud, m)
            && (Clean(cloud, m) && m.commands != [] ==> Lands(cloud, m, 0))
            && (Clean(cloud, m) ==> Cursor(after) >= Cursor(cloud) + |Keys(m.world, m.commands)|)
            && (forall n :: n in cloud.recorded ==> n in after.recorded && after.recorded[n] == cloud.recorded[n])
  {
    hide Batch, Keys, Submit, Landing, Fresh, Lands, Clean, Cursor, Numbered, ReportsAll;
    PassNumbers(cloud, m);
    SubmitEffect(cloud, Batch(m.world, m.commands, Cursor(cloud)).value, m.rejects, Cursor(cloud));
    FreshIsLanding(cloud, m);
    LandingIsFresh(cloud, m);
    if Clean(cloud, m) {
      CleanPassAdvances(cloud, m);
      if m.commands != [] {
        HeadLands(cloud, m);
      }
    }
  }

  lemma HeadLands(cloud: Cloud, m: Move)
    requires Clean(cloud, m) && m.commands != []
    ensures Lands(cloud, m, 0)
  {
    hide Batch, CommandKeys, Keys, Numbered, Reports;
    PassNumbers(cloud, m);
    ReceiptsStand(m.world, m.commands, 0);
    var evs := Batch(m.world, m.commands, Cursor(cloud)).value;
    assert evs[0] in evs;
  }

  lemma CleanPassAdvances(cloud: Cloud, m: Move)
    requires Clean(cloud, m)
    ensures Cursor(Apply(cloud, m)) >= Cursor(cloud) + |Keys(m.world, m.commands)|
  {
    hide Batch, Keys, Submit, RunEnd, Fresh, Reports;
    var last, after := Cursor(cloud), Apply(cloud, m);
    var evs := Batch(m.world, m.commands, last).value;
    PassNumbers(cloud, m);
    SubmitEffect(cloud, evs, m.rejects, last);
    assert forall n :: last < n <= last + |evs| ==> evs[n - last - 1].deviceSequence == n && n in after.recorded;
    assert forall n :: 0 < n <= last ==> n in cloud.recorded;
  }

  lemma FreshIsLanding(cloud: Cloud, m: Move)
    requires Runs(cloud, m)
    ensures Fresh(cloud, Batch(m.world, m.commands, Cursor(cloud)).value, m.rejects) <= Landing(cloud, m)
  {
    hide Batch, CommandKeys, Id, Keys, Position, Cursor, Text;
    TypesDiffer();
    PassNumbers(cloud, m);
    var evs, ks, last := Batch(m.world, m.commands, Cursor(cloud)).value, Keys(m.world, m.commands), Cursor(cloud);
    forall id | id in Fresh(cloud, evs, m.rejects) ensures id in Landing(cloud, m) {
      var i :| 0 <= i < |evs| && evs[i].kind == RESULT_TYPE && evs[i].deviceSequence !in cloud.recorded
               && !m.rejects(evs[i]) && evs[i].commandId == id;
      assert Reports(evs[i], ks[i], Nth(last, i));
      var j := OnlyReceiptsStand(m.world, m.commands, i);
      ReceiptsStand(m.world, m.commands, j);
      assert Lands(cloud, m, j);
    }
  }

  lemma LandingIsFresh(cloud: Cloud, m: Move)
    requires Runs(cloud, m)
    ensures Landing(cloud, m) <= Fresh(cloud, Batch(m.world, m.commands, Cursor(cloud)).value, m.rejects)
  {
    hide Batch, CommandKeys, Keys, Position, Cursor, Lands;
    forall id | id in Landing(cloud, m) ensures id in Fresh(cloud, Batch(m.world, m.commands, Cursor(cloud)).value, m.rejects) {
      var j :| 0 <= j < |m.commands| && Lands(cloud, m, j) && m.commands[j].commandId == id;
      var p := LandedEvent(cloud, m, j);
    }
  }

  lemma LandedEvent(cloud: Cloud, m: Move, j: nat) returns (p: nat)
    requires Runs(cloud, m) && j < |m.commands| && Lands(cloud, m, j)
    ensures var evs := Batch(m.world, m.commands, Cursor(cloud)).value;
            && p < |evs| && evs[p].kind == RESULT_TYPE && evs[p].commandId == m.commands[j].commandId
            && evs[p].deviceSequence !in cloud.recorded && !m.rejects(evs[p])
  {
    hide Batch, CommandKeys, Id, Keys, Position, Cursor, Text, Nth;
    PassNumbers(cloud, m);
    ReceiptsStand(m.world, m.commands, j);
    p := Position(m.world, m.commands, j);
    assert Reports(Batch(m.world, m.commands, Cursor(cloud)).value[p], Keys(m.world, m.commands)[p], Nth(Cursor(cloud), p));
  }

  // ----- convergence

  function Arrivals(moves: seq<Move>): nat {
    if moves == [] then 0 else (if moves[0].Arrive? then 1 else 0) + Arrivals(moves[1..])
  }

  /** Clean passes of the run, and those among them that had something to resolve. */
  ghost function CleanPasses(cloud: Cloud, moves: seq<Move>): nat
    decreases |moves|
  {
    if moves == [] then 0
    else (if Clean(cloud, moves[0]) then 1 else 0) + CleanPasses(Apply(cloud, moves[0]), moves[1..])
  }

  ghost function Productive(cloud: Cloud, moves: seq<Move>): nat
    decreases |moves|
  {
    if moves == [] then 0
    else (if Clean(cloud, moves[0]) && cloud.pending != map[] then 1 else 0) + Productive(Apply(cloud, moves[0]), moves[1..])
  }

  lemma {:induction false} SubmitOnlyResolves(cloud: Cloud, evs: seq<EdgeEvent>, rejects: EdgeEvent -> bool)
    ensures Submit(cloud, evs, rejects).pending.Keys <= cloud.pending.Keys
    decreases |evs|
  {
    if evs != [] {
      SubmitOnlyResolves(Record(cloud, evs[0], rejects), evs[1..], rejects);
    }
  }

  lemma SizeOfSubset(a: set<Bytes>, b: set<Bytes>)
    requires a <= b
    ensures |a| <= |b| && (a != b ==> |a| < |b|)
  {
    assert b == a + (b - a);
    if a != b {
      assert b - a != {};
    }
  }

  lemma MoveBalance(cloud: Cloud, m: Move)
    ensures var after := Apply(cloud, m);
            && (!m.Arrive? ==> after.pending.Keys <= cloud.pending.Keys)
            && |after.pending| + (if Clean(cloud, m) && cloud.pending != map[] then 1 else 0)
               <= |cloud.pending| + (if m.Arrive? then 1 else 0)
  {
    hide Batch, Lands, Submit, Cursor, Keys;
    var after := Apply(cloud, m);
    assert |cloud.pending| == |cloud.pending.Keys| && |after.pending| == |after.pending.Keys|;
    match m {
      case Arrive(c) =>
        assert after.pending.Keys == cloud.pending.Keys + {c.commandId};
      case Interrupted(landed, rejects) =>
        SubmitOnlyResolves(cloud, landed, rejects);
        SizeOfSubset(after.pending.Keys, cloud.pending.Keys);
      case Pass(w, commands, rejects) =>
        PassBalance(cloud, m);
    }
  }

  lemma PassBalance(cloud: Cloud, m: Move)
    requires m.Pass?
    ensures var after := Apply(cloud, m);
            && after.pending.Keys <= cloud.pending.Keys
            && |after.pending.Keys| + (if Clean(cloud, m) && cloud.pending != map[] then 1 else 0) <= |cloud.pending.Keys|
  {
    hide Batch, Lands, Submit, Cursor, Keys, CleanPasses;
    var after := Apply(cloud, m);
    if Runs(cloud, m) {
      SubmitOnlyResolves(cloud, Batch(m.world, m.commands, Cursor(cloud)).value, m.rejects);
    }
    SizeOfSubset(after.pending.Keys, cloud.pending.Keys);
    if Clean(cloud, m) && cloud.pending != map[] {
      PassResolves(cloud, m);
      var first := m.commands[0].commandId;
      assert first in Landing(cloud, m);
      assert m.commands[0] in m.commands;
      assert first in cloud.pending.Keys && first !in after.pending.Keys;
    }
  }

  /**
   * Over any run, however passes are interrupted, whatever is rejected in others and
   * however new commands arrive: each clean pass that had anything to resolve resolves at
   * least one, so there are never more of those than commands to account for.
   */
  lemma {:induction false} Accounting(cloud: Cloud, moves: seq<Move>)
    ensures |Run(cloud, moves).pending| + Productive(cloud, moves) <= |cloud.pending| + Arrivals(moves)
    decreases |moves|
  {
    hide Clean, Apply;
    if moves != [] {
      MoveBalance(cloud, moves[0]);
      Accounting(Apply(cloud, moves[0]), moves[1..]);
    }
  }

  lemma {:induction false} CleanIsProductive(cloud: Cloud, moves: seq<Move>)
    requires Arrivals(moves) == 0
    ensures Run(cloud, moves).pending.Keys <= cloud.pending.Keys
    ensures Run(cloud, moves).pending != map[] ==> Productive(cloud, moves) == CleanPasses(cloud, moves)
    decreases |moves|
  {
    hide Clean, Apply;
    if moves != [] {
      MoveBalance(cloud, moves[0]);
      CleanIsProductive(Apply(cloud, moves[0]), moves[1..]);
      if cloud.pending == map[] {
        assert Run(cloud, moves).pending.Keys == {};
      }
    }
  }

  /** With nothing new arriving, n pending commands are all resolved within n clean passes. */
  lemma Converges(cloud: Cloud, moves: seq<Move>)
    requires Arrivals(moves) == 0 && CleanPasses(cloud, moves) >= |cloud.pending|
    ensures Run(cloud, moves).pending == map[]
  {
    Accounting(cloud, moves);
    CleanIsProductive(cloud, moves);
  }

  // ----- why the passes must be clean

  // Acknowledged, resolved by one receipt, with nothing else to say.
  predicate Silent(w: World, c: EdgeCommand) {
    GoodCommand(w, c) && Updates(w, c) == []
  }

  lemma PairBatch(w: World, a: EdgeCommand, b: EdgeCommand, last: nat)
    requires Silent(w, a) && Silent(w, b) && last + 2 < WORD
    ensures |Keys(w, [a, b])| == 2
    ensures var r := Batch(w, [a, b], last);
            && r.Ok? && |r.value| == 2
            && r.value[0].commandId == a.commandId && r.value[0].deviceSequence == last + 1
            && r.value[1].commandId == b.commandId && r.value[1].deviceSequence == last + 2
            && r.value[1].kind == RESULT_TYPE
  {
    hide Batch, Id, Text, GoodCommand, OutcomeOf;
    BatchIs(w, [a, b], last);
    assert [a, b][1..] == [b] && [b][1..] == [];
    assert CommandKeys(w, a) == [Receipt(a.commandId, OutcomeOf(w, a).status)];
    assert CommandKeys(w, b) == [Receipt(b.commandId, OutcomeOf(w, b).status)];
    assert Keys(w, [b]) == CommandKeys(w, b) + Keys(w, []);
    var ks := Keys(w, [a, b]);
    assert ks == [Receipt(a.commandId, OutcomeOf(w, a).status), Receipt(b.commandId, OutcomeOf(w, b).status)];
    var evs := Batch(w, [a, b], last).value;
    assert Reports(evs[0], ks[0], Nth(last, 0)) && Reports(evs[1], ks[1], Nth(last, 1));
  }

  lemma SubmitPair(cloud: Cloud, evs: seq<EdgeEvent>, rejects: EdgeEvent -> bool)
    requires |evs| == 2
    ensures Submit(cloud, evs, rejects) == Record(Record(cloud, evs[0], rejects), evs[1], rejects)
  {
    var c1 := Record(cloud, evs[0], rejects);
    assert evs[1..] == [evs[1]] && [evs[1]][1..] == [];
    assert Submit(c1, [evs[1]], rejects) == Submit(Record(c1, evs[1], rejects), [], rejects);
  }

  /** While the head is rejected and the next number taken, a pass changes nothing. */
  lemma StuckPass(cloud: Cloud, w: World, a: EdgeCommand, c: EdgeCommand, rejects: EdgeEvent -> bool)
    requires Silent(w, a) && Silent(w, c) && Offers(cloud, [a, c])
    requires Cursor(cloud) + 2 in cloud.recorded && Cursor(cloud) + 2 < WORD
    requires forall ev: EdgeEvent :: ev.commandId == a.commandId ==> rejects(ev)
    ensures Runs(cloud, Pass(w, [a, c], rejects)) && Apply(cloud, Pass(w, [a, c], rejects)) == cloud
  {
    hide Batch, Keys, Silent;
    PairBatch(w, a, c, Cursor(cloud));
    SubmitPair(cloud, Batch(w, [a, c], Cursor(cloud)).value, rejects);
  }

  function Repeat(m: Move, n: nat): seq<Move> {
    if n == 0 then [] else [m] + Repeat(m, n - 1)
  }

  lemma {:induction false} StuckForever(cloud: Cloud, m: Move, n: nat)
    requires Apply(cloud, m) == cloud
    ensures Run(cloud, Repeat(m, n)) == cloud
  {
    if n > 0 {
      assert Repeat(m, n)[1..] == Repeat(m, n - 1);
      StuckForever(cloud, m, n - 1);
    }
  }

  /**
   * One command whose receipt is always refused starves another one for ever. It is
   * offered with `b`, whose receipt is recorded one number above the gap; `c` arrives, and
   * from then on its receipt always reuses b's number and is dropped, pass after pass.
   */
  lemma RejectedHeadStarves(w: World, a: EdgeCommand, b: EdgeCommand, c: EdgeCommand, rejects: EdgeEvent -> bool, n: nat)
    requires a.commandId != b.commandId && a.commandId != c.commandId && b.commandId != c.commandId
    requires Silent(w, a) && Silent(w, b) && Silent(w, c)
    requires forall ev: EdgeEvent :: rejects(ev) <==> ev.commandId == a.commandId
    ensures var start := Cloud(map[a.commandId := a, b.commandId := b], map[]);
            var stuck := Run(start, [Pass(w, [a, b], rejects), Arrive(c)]);
            && b.commandId !in stuck.pending && c.commandId in stuck.pending && Cursor(stuck) == 0
            && Runs(stuck, Pass(w, [a, c], rejects))
            && Run(stuck, Repeat(Pass(w, [a, c], rejects), n)) == stuck
  {
    hide Batch, Keys, Silent;
    var start := Cloud(map[a.commandId := a, b.commandId := b], map[]);
    var first := Pass(w, [a, b], rejects);
    assert Cursor(start) == 0;
    PairBatch(w, a, b, 0);
    var evs := Batch(w, [a, b], 0).value;
    SubmitPair(start, evs, rejects);
    assert Runs(start, first);
    var mid := Apply(start, first);
    assert mid.recorded.Keys == {2} && mid.pending.Keys == {a.commandId};
    var stuck := Apply(mid, Arrive(c));
    assert [first, Arrive(c)][1..] == [Arrive(c)] && [Arrive(c)][1..] == [];
    assert Run(mid, [Arrive(c)]) == Run(stuck, []);
    assert Cursor(stuck) == 0;
    StuckPass(stuck, w, a, c, rejects);
    StuckForever(stuck, Pass(w, [a, c], rejects), n);
  }
}
