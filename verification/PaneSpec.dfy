/**
 * What the pane hub's lock-protected methods do to its sessions, as functions, and what
 * every run of them keeps. The channel operations inside one publish are the Fanout
 * model's business; here a publish is one step.
 */
module PaneSpec {
  import opened Options
  import opened Fanout

  // What a session's source was told, and how it answered.
  datatype Call = Opened(ok: bool) | Closed

  datatype Sub<T> = Sub(device: Id, updates: Option<Frame<T>>)

  datatype Session<W, T> = Session(
    current: Option<Frame<T>>, seqNo: nat, subs: map<W, Sub<T>>, open: bool,
    calls: seq<Call>)   // history

  datatype Panes<W, T> = Panes(hasSource: bool, sessions: map<Id, Session<W, T>>)

  datatype Op<W, T> =
    | Watch(w: W, device: Id, id: Id, openOk: bool)
    | Unwatch(id: Id, w: W)
    | Show(id: Id, body: T)
    | Drop(device: Id)
    | Take(id: Id, w: W)      // a stream handler receives

  function NewSession<W, T>(): Session<W, T> {
    Session(None, 0, map[], false, [])
  }

  /** The last-watcher edge. */
  function CloseIfUnwatched<W, T>(hasSource: bool, s: Session<W, T>): Session<W, T> {
    if s.subs != map[] || !s.open then s
    else s.(current := None, open := false, calls := if hasSource then s.calls + [Closed] else s.calls)
  }

  function AddSub<W, T>(hasSource: bool, s: Session<W, T>, w: W, device: Id, openOk: bool): Session<W, T> {
    var opening := !s.open && hasSource;
    if opening && !openOk then s.(calls := s.calls + [Opened(false)])
    else
      var s1 := if opening then s.(open := true, calls := s.calls + [Opened(true)]) else s;
      s1.(subs := s1.subs[w := Sub(device, None)])
  }

  function RemoveSub<W, T>(hasSource: bool, s: Session<W, T>, w: W): Session<W, T> {
    CloseIfUnwatched(hasSource, s.(subs := s.subs - {w}))
  }

  function ShowTo<W, T>(s: Session<W, T>, body: T): Session<W, T> {
    if s.subs == map[] then s
    else
      var f := Frame(body, s.seqNo + 1);
      s.(seqNo := f.seqNo, current := Some(f), subs := map w | w in s.subs :: s.subs[w].(updates := Some(f)))
  }

  function DropFrom<W, T>(hasSource: bool, s: Session<W, T>, device: Id): Session<W, T> {
    CloseIfUnwatched(hasSource, s.(subs := map w | w in s.subs && s.subs[w].device != device :: s.subs[w]))
  }

  function Step<W, T>(p: Panes<W, T>, op: Op<W, T>): Panes<W, T> {
    match op
    case Watch(w, device, id, openOk) =>
      var s := if id in p.sessions then p.sessions[id] else NewSession();
      p.(sessions := p.sessions[id := AddSub(p.hasSource, s, w, device, openOk)])
    case Unwatch(id, w) =>
      if id in p.sessions then p.(sessions := p.sessions[id := RemoveSub(p.hasSource, p.sessions[id], w)]) else p
    case Show(id, body) =>
      if id in p.sessions then p.(sessions := p.sessions[id := ShowTo(p.sessions[id], body)]) else p
    case Drop(device) =>
      p.(sessions := map id | id in p.sessions :: DropFrom(p.hasSource, p.sessions[id], device))
    case Take(id, w) =>
      if id in p.sessions && w in p.sessions[id].subs then
        var s := p.sessions[id];
        p.(sessions := p.sessions[id := s.(subs := s.subs[w := s.subs[w].(updates := None)])])
      else p
  }

  function WithEntry<W, T>(p: Panes<W, T>, id: Id): Panes<W, T> {
    p.(sessions := if id in p.sessions then p.sessions else p.sessions[id := NewSession()])
  }

  /** Making the entry first changes nothing about the watch. */
  lemma WatchNewSession<W, T>(p: Panes<W, T>, w: W, device: Id, id: Id, ok: bool)
    ensures Step(WithEntry(p, id), Watch(w, device, id, ok)) == Step(p, Watch(w, device, id, ok))
  {
  }

  // A revocation, session by session, in whatever order.

  function DropOne<W, T>(p: Panes<W, T>, device: Id, id: Id): Panes<W, T>
    requires id in p.sessions
  {
    p.(sessions := p.sessions[id := DropFrom(p.hasSource, p.sessions[id], device)])
  }

  function DropSome<W, T>(p: Panes<W, T>, device: Id, done: set<Id>): Panes<W, T> {
    p.(sessions := map id | id in p.sessions ::
      if id in done then DropFrom(p.hasSource, p.sessions[id], device) else p.sessions[id])
  }

  lemma DropNone<W, T>(p: Panes<W, T>, device: Id)
    ensures DropSome(p, device, {}) == p
  {
  }

  lemma DropOneMore<W, T>(p: Panes<W, T>, device: Id, done: set<Id>, id: Id)
    requires id in p.sessions && id !in done
    ensures id in DropSome(p, device, done).sessions
    ensures DropOne(DropSome(p, device, done), device, id) == DropSome(p, device, done + {id})
  {
  }

  lemma DropAll<W, T>(p: Panes<W, T>, device: Id)
    ensures DropSome(p, device, p.sessions.Keys) == Step(p, Drop(device))
  {
  }

  /** A watcher a revocation has ended, or that was never there, leaves without a trace. */
  lemma UnwatchAfterDrop<W, T>(p: Panes<W, T>, device: Id, id: Id, w: W)
    requires id in p.sessions && w in p.sessions[id].subs ==> p.sessions[id].subs[w].device == device
    ensures Step(Step(p, Op<W, T>.Drop(device)), Op<W, T>.Unwatch(id, w)) == Step(p, Op<W, T>.Drop(device))
  {
    var q := Step(p, Op<W, T>.Drop(device));
    if id in q.sessions {
      assert q.sessions[id].subs - {w} == q.sessions[id].subs;
      assert q.sessions[id := q.sessions[id]] == q.sessions;
    }
  }

  function RunOps<W, T>(p: Panes<W, T>, ops: seq<Op<W, T>>): Panes<W, T>
    decreases |ops|
  {
    if ops == [] then p else RunOps(Step(p, ops[0]), ops[1..])
  }

  // ----- driving the source

  /** The calls that took effect: a refused Open changes nothing. */
  function Effective(calls: seq<Call>): seq<Call> {
    if calls == [] then []
    else
      var last := calls[|calls| - 1];
      Effective(calls[..|calls| - 1]) + (if last == Opened(false) then [] else [last])
  }

  // Each call is made on the side of the edge it belongs to.
  predicate OnEdges(calls: seq<Call>) {
    forall i :: 0 <= i < |calls| ==> calls[i].Closed? == (|Effective(calls[..i])| % 2 == 1)
  }

  predicate OpenCloseOpen(calls: seq<Call>) {
    forall i :: 0 <= i < |calls| ==> calls[i] == if i % 2 == 0 then Opened(true) else Closed
  }

  predicate Alternates(calls: seq<Call>) {
    OnEdges(calls) && OpenCloseOpen(Effective(calls))
  }

  lemma EffectiveOfAppend(calls: seq<Call>, c: Call)
    ensures Effective(calls + [c]) == Effective(calls) + (if c == Opened(false) then [] else [c])
  {
    assert (calls + [c])[..|calls + [c]| - 1] == calls;
  }

  lemma AppendCall(calls: seq<Call>, c: Call)
    requires Alternates(calls) && c.Closed? == (|Effective(calls)| % 2 == 1)
    ensures Alternates(calls + [c])
    ensures Effective(calls + [c]) == Effective(calls) + (if c == Opened(false) then [] else [c])
  {
    hide Effective;
    EffectiveOfAppend(calls, c);
    var more := calls + [c];
    forall i | 0 <= i < |more| ensures more[i].Closed? == (|Effective(more[..i])| % 2 == 1) {
      if i == |calls| {
        assert more[..i] == calls;
      } else {
        assert more[..i] == calls[..i] && more[i] == calls[i];
      }
    }
  }

  ghost predicate SessionInv<W, T>(hasSource: bool, s: Session<W, T>) {
    && Alternates(s.calls)
    && (s.open <==> |Effective(s.calls)| % 2 == 1)
    && (hasSource ==> (s.open <==> s.subs != map[]))
    && (!hasSource ==> !s.open && s.calls == [])
    && (hasSource && s.current.Some? ==> s.subs != map[])
    && (s.current.Some? ==> s.current.value.seqNo == s.seqNo)
    && (forall w :: w in s.subs && s.subs[w].updates.Some? ==> s.subs[w].updates == s.current)
  }

  ghost predicate PanesInv<W, T>(p: Panes<W, T>) {
    forall id :: id in p.sessions ==> SessionInv(p.hasSource, p.sessions[id])
  }

  lemma CloseKeeps<W, T>(hasSource: bool, s: Session<W, T>)
    requires Alternates(s.calls) && (s.open <==> |Effective(s.calls)| % 2 == 1)
    requires hasSource ==> (s.subs != map[] ==> s.open)
    requires !hasSource ==> !s.open && s.calls == []
    requires hasSource && s.current.Some? ==> s.open
    requires s.current.Some? ==> s.current.value.seqNo == s.seqNo
    requires forall w :: w in s.subs && s.subs[w].updates.Some? ==> s.subs[w].updates == s.current
    ensures SessionInv(hasSource, CloseIfUnwatched(hasSource, s))
  {
    hide Effective, Alternates;
    var c := CloseIfUnwatched(hasSource, s);
    if s.subs == map[] && s.open {
      AppendCall(s.calls, Closed);
      assert |Effective(c.calls)| == if hasSource then |Effective(s.calls)| + 1 else |Effective(s.calls)|;
    }
  }

  lemma AddKeeps<W, T>(hasSource: bool, s: Session<W, T>, w: W, device: Id, openOk: bool)
    requires SessionInv(hasSource, s)
    ensures SessionInv(hasSource, AddSub(hasSource, s, w, device, openOk))
  {
    hide Effective, Alternates;
    if !s.open && hasSource {
      AppendCall(s.calls, Opened(openOk));
    }
    assert w in s.subs[w := Sub(device, None)];
  }

  lemma ShowKeeps<W, T>(hasSource: bool, s: Session<W, T>, body: T)
    requires SessionInv(hasSource, s)
    ensures SessionInv(hasSource, ShowTo(s, body))
  {
    if s.subs != map[] {
      var w :| w in s.subs;
      assert w in ShowTo(s, body).subs;
    }
  }

  lemma StepKeeps<W, T>(p: Panes<W, T>, op: Op<W, T>)
    requires PanesInv(p)
    ensures PanesInv(Step(p, op))
  {
    match op
    case Watch(w, device, id, openOk) =>
      AddKeeps(p.hasSource, if id in p.sessions then p.sessions[id] else NewSession(), w, device, openOk);
    case Unwatch(id, w) =>
      if id in p.sessions {
        CloseKeeps(p.hasSource, p.sessions[id].(subs := p.sessions[id].subs - {w}));
      }
    case Show(id, body) =>
      if id in p.sessions {
        ShowKeeps(p.hasSource, p.sessions[id], body);
      }
    case Drop(device) =>
      forall id | id in p.sessions ensures SessionInv(p.hasSource, DropFrom(p.hasSource, p.sessions[id], device)) {
        var s := p.sessions[id];
        CloseKeeps(p.hasSource, s.(subs := map w | w in s.subs && s.subs[w].device != device :: s.subs[w]));
      }
    case Take(id, w) =>
      if id in p.sessions && w in p.sessions[id].subs {
        assert w in Step(p, op).sessions[id].subs;
      }
  }

  lemma {:induction false} RunKeeps<W, T>(p: Panes<W, T>, ops: seq<Op<W, T>>)
    requires PanesInv(p)
    ensures PanesInv(RunOps(p, ops)) && RunOps(p, ops).hasSource == p.hasSource
    decreases |ops|
  {
    if ops != [] {
      StepKeeps(p, ops[0]);
      RunKeeps(Step(p, ops[0]), ops[1..]);
    }
  }

  // ----- what every run shows

  /**
   * Over every run of watching (refused opens included), unwatching, publishing and
   * revocation: what took effect on a session's source is Open, Close, Open, Close, ...,
   * an Open is only tried on a closed source and a Close only on an open one, and the
   * source is open exactly while somebody watches.
   */
  lemma SourceDrivenOnEdges<W, T>(ops: seq<Op<W, T>>, id: Id)
    requires id in RunOps(Panes<W, T>.Panes(true, map[]), ops).sessions
    ensures var s := RunOps(Panes<W, T>.Panes(true, map[]), ops).sessions[id];
            && Alternates(s.calls)
            && (|Effective(s.calls)| % 2 == 1 <==> s.subs != map[])
  {
    RunKeeps(Panes<W, T>.Panes(true, map[]), ops);
  }

  /** A watcher's channel is empty or holds exactly the session's newest frame. */
  lemma PendingIsNewest<W, T>(hasSource: bool, ops: seq<Op<W, T>>, id: Id, w: W)
    requires id in RunOps(Panes<W, T>.Panes(hasSource, map[]), ops).sessions
    requires w in RunOps(Panes<W, T>.Panes(hasSource, map[]), ops).sessions[id].subs
    ensures var s := RunOps(Panes<W, T>.Panes(hasSource, map[]), ops).sessions[id];
            s.subs[w].updates == None || (s.subs[w].updates == s.current && s.current.value.seqNo == s.seqNo)
  {
    RunKeeps(Panes<W, T>.Panes(hasSource, map[]), ops);
  }

  /**
   * Retained frames do not outlive their watchers, exactly when there is a source: the
   * edge is taken only from an open session. No request reaches the other case, since the
   * pane stream's handler refuses before it subscribes when there is no source.
   */
  lemma LastWatcherDropsFrameIffSource<W, T>(hasSource: bool, ops: seq<Op<W, T>>, id: Id, w: W)
    requires id in RunOps(Panes<W, T>.Panes(hasSource, map[]), ops).sessions
    requires var s := RunOps(Panes<W, T>.Panes(hasSource, map[]), ops).sessions[id];
             s.subs.Keys == {w} && s.current.Some?
    ensures var p := Step(RunOps(Panes<W, T>.Panes(hasSource, map[]), ops), Unwatch(id, w));
            id in p.sessions && (p.sessions[id].current == None <==> hasSource)
  {
    RunKeeps(Panes<W, T>.Panes(hasSource, map[]), ops);
    var s := RunOps(Panes<W, T>.Panes(hasSource, map[]), ops).sessions[id];
    assert (s.subs - {w}).Keys == {};
    assert s.subs - {w} == map[];
    assert w in s.subs;
  }

  /** A session's seq never restarts, whoever comes and goes. */
  lemma {:induction false} SeqNeverRestarts<W, T>(p: Panes<W, T>, ops: seq<Op<W, T>>, id: Id)
    requires id in p.sessions
    ensures id in RunOps(p, ops).sessions
    ensures p.sessions[id].seqNo <= RunOps(p, ops).sessions[id].seqNo
    decreases |ops|
  {
    if ops != [] {
      SeqNeverRestarts(Step(p, ops[0]), ops[1..], id);
    }
  }

  /**
   * A revocation ends the device's pane streams and no other, closes the source of
   * exactly the sessions it leaves unwatched, and a later teardown of a stream it ended
   * (the handler's deferred unsubscribe) changes nothing more.
   */
  lemma DropClosesExactlyUnwatched<W, T>(ops: seq<Op<W, T>>, device: Id, id: Id)
    requires id in RunOps(Panes<W, T>.Panes(true, map[]), ops).sessions
    ensures var p := RunOps(Panes<W, T>.Panes(true, map[]), ops);
            id in Step(p, Drop(device)).sessions
    ensures var p := RunOps(Panes<W, T>.Panes(true, map[]), ops);
            var s, d := p.sessions[id], Step(p, Drop(device)).sessions[id];
            && (forall w :: w in s.subs ==>
                  if s.subs[w].device == device then w !in d.subs else w in d.subs && d.subs[w] == s.subs[w])
            && d.subs.Keys <= s.subs.Keys
            && d.calls == (if s.subs != map[] && d.subs == map[] then s.calls + [Closed] else s.calls)
            && d.seqNo == s.seqNo
            && d.current == (if d.subs == map[] then None else s.current)
    ensures var p := Step(RunOps(Panes<W, T>.Panes(true, map[]), ops), Drop(device));
            forall w :: w !in p.sessions[id].subs ==> Step(p, Op<W, T>.Unwatch(id, w)) == p
  {
    var p := RunOps(Panes<W, T>.Panes(true, map[]), ops);
    RunKeeps(Panes<W, T>.Panes(true, map[]), ops);
    StepKeeps(p, Drop(device));
    var q := Step(p, Drop(device));
    forall w | w !in q.sessions[id].subs ensures Step(q, Op<W, T>.Unwatch(id, w)) == q {
      assert q.sessions[id].subs - {w} == q.sessions[id].subs;
      assert q.sessions[id := q.sessions[id]] == q.sessions;
    }
  }

  // ----- what one operation does, over every run

  /**
   * A frame shown to a watched session takes the next number, is retained, and is what
   * every watcher's channel then holds; shown to an unwatched one it is dropped.
   */
  lemma ShowSays<W, T>(p: Panes<W, T>, id: Id, body: T)
    ensures var q := Step(p, Op<W, T>.Show(id, body));
            if id in p.sessions && p.sessions[id].subs != map[] then
              && q.hasSource == p.hasSource && q.sessions.Keys == p.sessions.Keys
              && (forall other :: other in p.sessions && other != id ==> q.sessions[other] == p.sessions[other])
              && var s, t := p.sessions[id], q.sessions[id];
                 && t.seqNo == s.seqNo + 1 && t.current == Some(Frame(body, s.seqNo + 1))
                 && t.open == s.open && t.calls == s.calls && t.subs.Keys == s.subs.Keys
                 && forall w :: w in s.subs ==> t.subs[w] == Sub(s.subs[w].device, Some(Frame(body, s.seqNo + 1)))
            else q == p
  {
    if id in p.sessions && p.sessions[id].subs == map[] {
      assert p.sessions[id := p.sessions[id]] == p.sessions;
    }
  }

  /**
   * The first watcher of a session opens its source, once, and is refused with it; a later
   * one joins without a call. It starts with an empty channel beside the retained frame.
   */
  lemma WatchSays<W, T>(ops: seq<Op<W, T>>, w: W, device: Id, id: Id, ok: bool)
    ensures var p := RunOps(Panes<W, T>.Panes(true, map[]), ops);
            var q := Step(p, Watch(w, device, id, ok));
            var s := if id in p.sessions then p.sessions[id] else Session(None, 0, map[], false, []);
            && q.sessions.Keys == p.sessions.Keys + {id}
            && (forall other :: other in p.sessions && other != id ==> q.sessions[other] == p.sessions[other])
            && var t := q.sessions[id];
               && t.current == s.current && t.seqNo == s.seqNo
               && t.calls == (if s.subs == map[] then s.calls + [Opened(ok)] else s.calls)
               && t.subs == (if s.subs == map[] && !ok then map[] else s.subs[w := Sub(device, None)])
  {
    RunKeeps(Panes<W, T>.Panes(true, map[]), ops);
  }

  /** A watcher leaves; the last one closes the source and takes the retained frame along. */
  lemma UnwatchSays<W, T>(ops: seq<Op<W, T>>, id: Id, w: W)
    requires id in RunOps(Panes<W, T>.Panes(true, map[]), ops).sessions
    ensures var p := RunOps(Panes<W, T>.Panes(true, map[]), ops);
            var q := Step(p, Op<W, T>.Unwatch(id, w));
            var s := p.sessions[id];
            && q.sessions.Keys == p.sessions.Keys
            && (forall other :: other in p.sessions && other != id ==> q.sessions[other] == p.sessions[other])
            && var t := q.sessions[id];
               && t.subs == s.subs - {w} && t.seqNo == s.seqNo
               && t.calls == (if s.subs.Keys == {w} then s.calls + [Closed] else s.calls)
               && t.current == (if s.subs.Keys == {w} then None else s.current)
  {
    hide RemoveSub, SessionInv;
    RunKeeps(Panes<W, T>.Panes(true, map[]), ops);
    RemoveSays(RunOps(Panes<W, T>.Panes(true, map[]), ops).sessions[id], w);
  }

  lemma RemoveSays<W, T>(s: Session<W, T>, w: W)
    requires SessionInv(true, s)
    ensures var t := RemoveSub(true, s, w);
            && t.subs == s.subs - {w} && t.seqNo == s.seqNo
            && t.calls == (if s.subs.Keys == {w} then s.calls + [Closed] else s.calls)
            && t.current == (if s.subs.Keys == {w} then None else s.current)
  {
    hide Alternates, Effective;
    if s.subs != map[] {
      var x :| x in s.subs;
      if s.subs - {w} == map[] {
        assert forall y :: y in s.subs ==> y == w || y in s.subs - {w};
        assert s.subs.Keys == {w};
      } else {
        var y :| y in s.subs - {w};
        assert y in s.subs.Keys && y != w;
      }
    }
  }
}
