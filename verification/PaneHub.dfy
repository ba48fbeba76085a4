/**
 * The pane hub's objects and its lock-protected methods, each proved to do to the
 * sessions what its PaneSpec function says. The clamp of a published frame and the
 * signalling of dropped subscribers are here too.
 */
module PaneHub {
  import opened Options
  import opened Fanout
  import opened Projection
  import S = PaneSpec

  /** The machine side: `log` records what it was told, session by session. */
  class PaneSource {
    ghost var log: map<Id, seq<S.Call>>

    ghost function LogOf(id: Id): seq<S.Call>
      reads `log
    {
      if id in log then log[id] else []
    }

    method Open(id: Id) returns (ok: bool)
      modifies `log
      ensures log == old(log)[id := old(LogOf(id)) + [S.Opened(ok)]]
    {
      ok := *;
      log := log[id := LogOf(id) + [S.Opened(ok)]];
    }

    method Close(id: Id)
      modifies `log
      ensures log == old(log)[id := old(LogOf(id)) + [S.Closed]]
    {
      log := log[id := LogOf(id) + [S.Closed]];
    }
  }

  class PaneSub {
    const deviceID: Id
    var updates: Option<Frame<PaneFrame>>
    var gone: bool
    var once: bool

    constructor (deviceID: Id)
      ensures this.deviceID == deviceID && updates == None && !gone && !once
    {
      this.deviceID, updates, gone, once := deviceID, None, false, false;
    }

    method TrySend(f: Frame<PaneFrame>) returns (sent: bool)
      modifies `updates
      ensures sent <==> old(updates).None?
      ensures updates == if sent then Some(f) else old(updates)
    {
      sent := updates.None?;
      if sent {
        updates := Some(f);
      }
    }

    method TryReceive() returns (got: Option<Frame<PaneFrame>>)
      modifies `updates
      ensures got == old(updates) && updates == None
    {
      got, updates := updates, None;
    }

    // Closing a channel a second time would panic.
    method CloseGone()
      requires !gone
      modifies `gone
      ensures gone
    {
      gone := true;
    }

    /** Signals the stream's end, unless it has been signalled already. */
    method Close()
      requires once == gone
      modifies `gone, `once
      ensures gone && once
    {
      if !once {
        once := true;
        CloseGone();
      }
    }
  }

  class PaneSession {
    var current: Option<Frame<PaneFrame>>
    var seqNo: nat
    var subs: set<PaneSub>
    var open: bool

    constructor ()
      ensures subs == {} && View([]) == S.NewSession()
    {
      current, seqNo, subs, open := None, 0, {}, false;
    }

    ghost function View(calls: seq<S.Call>): S.Session<PaneSub, PaneFrame>
      reads `current, `seqNo, `subs, `open, subs`updates
    {
      S.Session(current, seqNo, map w | w in subs :: S.Sub(w.deviceID, w.updates), open, calls)
    }

    lemma WatchedIff(calls: seq<S.Call>)
      ensures View(calls).subs == map[] <==> subs == {}
    {
      assert View(calls).subs.Keys == subs;
    }

    /** Retains the frame and offers it to every watcher of this session. */
    method Show(frame: PaneFrame, ghost calls: seq<S.Call>)
      modifies this, subs`updates
      ensures View(calls) == S.ShowTo(old(View(calls)), frame)
      ensures subs == old(subs)
    {
      WatchedIff(calls);
      if subs == {} {
        return;
      }
      seqNo := seqNo + 1;
      var msg := Frame(frame, seqNo);
      current := Some(msg);
      var todo := subs;
      while todo != {}
        modifies subs`updates
        invariant todo <= subs
        invariant forall w :: w in subs - todo ==> w.updates == Some(msg)
        decreases |todo|
      {
        var sub :| sub in todo;
        todo := todo - {sub};
        var sent := sub.TrySend(msg);
        if !sent {
          var _ := sub.TryReceive();
          var landed := sub.TrySend(msg);
          assert landed;
        }
      }
    }
  }

  class PaneHub {
    const hasSource: bool     // false stands for the nil source, which nothing calls
    const source: PaneSource
    var sessions: map<Id, PaneSession>

    ghost function Subs(): set<PaneSub>
      reads `sessions, sessions.Values`subs
    {
      set id, w | id in sessions && w in sessions[id].subs :: w
    }

    ghost function Log(id: Id): seq<S.Call>
      reads source`log
    {
      if hasSource then source.LogOf(id) else []
    }

    ghost function View(): S.Panes<PaneSub, PaneFrame>
      reads `sessions, sessions.Values`current, sessions.Values`seqNo, sessions.Values`subs, sessions.Values`open
      reads Subs()`updates, source`log
    {
      S.Panes(hasSource, map id | id in sessions :: sessions[id].View(Log(id)))
    }

    // Sessions are separate objects with separate subscribers, and a source that was
    // never told of a session has nothing recorded for it.
    ghost predicate Separate()
      reads `sessions, sessions.Values`subs, source`log
    {
      && (forall a, b :: a in sessions && b in sessions && a != b ==>
            sessions[a] != sessions[b] && sessions[a].subs !! sessions[b].subs)
      && (forall id :: id !in sessions ==> Log(id) == [])
    }

    ghost predicate Valid()
      reads `sessions, sessions.Values`subs, Subs()`once, Subs()`gone, source`log
    {
      Separate() && forall w :: w in Subs() ==> w.once == w.gone
    }

    constructor (hasSource: bool, source: PaneSource)
      requires source.log == map[]
      ensures Valid() && View() == S.Panes(hasSource, map[])
    {
      this.hasSource, this.source := hasSource, source;
      sessions := map[];
    }

    method CloseIfUnwatched(id: Id, sess: PaneSession)
      modifies sess`current, sess`open, source`log
      ensures sess.View(Log(id)) == S.CloseIfUnwatched(hasSource, old(sess.View(Log(id))))
      ensures forall other :: other != id ==> Log(other) == old(Log(other))
    {
      sess.WatchedIff(Log(id));
      if sess.subs != {} || !sess.open {
        return;
      }
      sess.current := None;
      sess.open := false;
      if hasSource {
        source.Close(id);
      }
    }

    lemma SubOf(id: Id)
      requires id in sessions
      ensures sessions[id].subs <= Subs()
    {
    }

    // When one session is all that changed, that is all the view shows.
    twostate lemma OneSessionChanged(id: Id)
      requires id in sessions && sessions == old(sessions)[id := sessions[id]]
      requires forall other :: other in old(sessions) && other != id ==>
        sessions[other].View(Log(other)) == old(sessions[other].View(Log(other)))
      ensures View() == old(View()).(sessions := old(View()).sessions[id := sessions[id].View(Log(id))])
    {
    }

    method Publish(id: Id, f: PaneFrame)
      requires Valid()
      modifies sessions.Values, Subs()`updates
      ensures Valid() && View() == S.Step(old(View()), S.Show(id, ClampPane(f)))
    {
      hide S.ShowTo, PaneHub.View, PaneHub.Separate, ClampPane;
      var clamping := new PaneFrameRef(f);
      clamping.Clamp();
      var frame := clamping.Value();
      KeysOfView();
      if id in sessions {
        SubOf(id);
        ShowIn(id, frame);
      }
    }

    method ShowIn(id: Id, frame: PaneFrame)
      requires Valid() && id in sessions
      modifies sessions[id], sessions[id].subs`updates
      ensures Valid() && View() == S.Step(old(View()), S.Show(id, frame))
    {
      hide S.ShowTo;
      sessions[id].Show(frame, Log(id));
      OneSessionChanged(id);
    }

    /**
     * Registers a watcher, opening the source on the first one. A refused open leaves the
     * (possibly new) session without it.
     */
    method Subscribe(deviceID: Id, id: Id) returns (sub: PaneSub, opening: Option<Frame<PaneFrame>>, ok: bool)
      requires Valid()
      modifies `sessions, sessions.Values, source`log
      ensures Valid() && fresh(sub)
      ensures View() == S.Step(old(View()), S.Watch(sub, deviceID, id, ok))
      ensures !hasSource ==> ok
      ensures ok ==> id in sessions && sub in sessions[id].subs && opening == sessions[id].current
    {
      hide S.Step, S.WithEntry, PaneHub.View;
      ghost var before := View();
      Ensure(id);
      sub := new PaneSub(deviceID);
      opening, ok := AddTo(id, sub);
      S.WatchNewSession(before, sub, deviceID, id, ok);
    }

    // The session's entry, made if need be; an empty one is as good as none.
    method Ensure(id: Id)
      requires Valid()
      modifies `sessions
      ensures Valid() && id in sessions
      ensures if id in old(sessions) then sessions == old(sessions)
              else fresh(sessions[id]) && sessions == old(sessions)[id := sessions[id]]
      ensures Subs() == old(Subs())
      ensures View() == S.WithEntry(old(View()), id)
    {
      hide S.NewSession, PaneHub.Subs;
      ghost var all := Subs();
      SubsAreAllocated();
      if id !in sessions {
        var sess := new PaneSession();
        sessions := sessions[id := sess];
        EmptyEntryAdded(id);
        OneSessionChanged(id);
        assert forall w :: w in all ==> w.once == w.gone;
      }
    }

    lemma SubsAreAllocated()
      ensures forall w :: w in Subs() ==> allocated(w)
    {
    }

    twostate lemma EmptyEntryAdded(id: Id)
      requires id !in old(sessions) && id in sessions && sessions == old(sessions)[id := sessions[id]]
      requires sessions[id].subs == {}
      requires forall other :: other in old(sessions) ==> sessions[other].subs == old(sessions[other].subs)
      ensures Subs() == old(Subs())
    {
    }

    method AddTo(id: Id, sub: PaneSub) returns (opening: Option<Frame<PaneFrame>>, ok: bool)
      requires Valid() && id in sessions && sub !in Subs() && sub.once == sub.gone && sub.updates == None
      modifies sessions[id], source`log
      ensures Valid() && View() == S.Step(old(View()), S.Watch(sub, sub.deviceID, id, ok))
      ensures !hasSource ==> ok
      ensures ok ==> id in sessions && sub in sessions[id].subs && opening == sessions[id].current
    {
      hide S.AddSub;
      opening, ok := Register(id, sessions[id], sub);
      OneSessionChanged(id);
    }

    method Register(id: Id, sess: PaneSession, sub: PaneSub) returns (opening: Option<Frame<PaneFrame>>, ok: bool)
      requires sub.updates == None
      modifies sess, source`log
      ensures sess.View(Log(id)) == S.AddSub(hasSource, old(sess.View(Log(id))), sub, sub.deviceID, ok)
      ensures sess.subs == if ok then old(sess.subs) + {sub} else old(sess.subs)
      ensures forall other :: other != id ==> Log(other) == old(Log(other))
      ensures !hasSource ==> ok
      ensures ok ==> opening == sess.current
    {
      opening, ok := None, true;
      if !sess.open && hasSource {
        ok := source.Open(id);
        if ok {
          sess.open := true;
        }
      }
      if ok {
        sess.subs := sess.subs + {sub};
        opening := sess.current;
      }
    }

    method Unsubscribe(id: Id, sub: PaneSub)
      requires Valid() && sub.once == sub.gone
      modifies sessions.Values, sub`gone, sub`once, source`log
      ensures Valid() && View() == S.Step(old(View()), S.Unwatch(id, sub))
      ensures sub.gone && sub.once
    {
      hide PaneHub.View;
      Leave(id, sub);
      sub.Close();
    }

    method Leave(id: Id, sub: PaneSub)
      requires Valid()
      modifies sessions.Values, source`log
      ensures Valid() && View() == S.Step(old(View()), S.Unwatch(id, sub))
    {
      hide S.RemoveSub;
      if id in sessions {
        Withdraw(id, sessions[id], sub);
        OneSessionChanged(id);
      }
    }

    method Withdraw(id: Id, sess: PaneSession, sub: PaneSub)
      modifies sess, source`log
      ensures sess.View(Log(id)) == S.RemoveSub(hasSource, old(sess.View(Log(id))), sub)
      ensures sess.subs == old(sess.subs) - {sub}
      ensures forall other :: other != id ==> Log(other) == old(Log(other))
    {
      sess.subs := sess.subs - {sub};
      assert sess.View(Log(id)).subs == old(sess.View(Log(id))).subs - {sub};
      CloseIfUnwatched(id, sess);
    }

    method Sweep(sess: PaneSession, deviceID: Id) returns (doomed: set<PaneSub>)
      modifies sess`subs
      ensures doomed == set w | w in old(sess.subs) && w.deviceID == deviceID
      ensures sess.subs == old(sess.subs) - doomed
    {
      doomed := {};
      var todo := sess.subs;
      while todo != {}
        invariant todo <= old(sess.subs)
        invariant doomed == set w | w in old(sess.subs) - todo && w.deviceID == deviceID
        invariant sess.subs == old(sess.subs) - doomed
        decreases |todo|
      {
        var sub :| sub in todo;
        todo := todo - {sub};
        if sub.deviceID == deviceID {
          doomed := doomed + {sub};
          sess.subs := sess.subs - {sub};
        }
      }
    }

    // One session's part of a revocation, under the lock.
    method Evict(id: Id, sess: PaneSession, deviceID: Id) returns (doomed: set<PaneSub>)
      modifies sess`current, sess`subs, sess`open, source`log
      ensures sess.View(Log(id)) == S.DropFrom(hasSource, old(sess.View(Log(id))), deviceID)
      ensures doomed == set w | w in old(sess.subs) && w.deviceID == deviceID
      ensures sess.subs == old(sess.subs) - doomed
      ensures forall other :: other != id ==> Log(other) == old(Log(other))
    {
      ghost var v := sess.View(Log(id));
      doomed := Sweep(sess, deviceID);
      assert sess.View(Log(id)).subs == map w | w in v.subs && v.subs[w].device != deviceID :: v.subs[w];
      CloseIfUnwatched(id, sess);
    }

    /** Ends every pane stream the device holds; signals each of them and no other. */
    method DropDevice(deviceID: Id)
      requires Valid()
      modifies sessions.Values`current, sessions.Values`subs, sessions.Values`open, source`log
      modifies Subs()`gone, Subs()`once
      ensures Valid() && View() == S.Step(old(View()), S.Drop(deviceID))
      ensures forall w :: w in old(Subs()) ==> w.once == w.gone == (old(w.gone) || w.deviceID == deviceID)
    {
      hide PaneHub.View, PaneHub.Subs;
      ghost var before := Subs();
      var doomed := EvictAll(deviceID, before);
      SignalAll(doomed, before);
    }

    /**
     * The race the source's comments are about: a revocation ends a watcher's stream, and
     * then the stream's handler runs its deferred unsubscribe. Nothing is left for it to do:
     * the source is not told again, no frame is dropped, nobody is signalled again.
     */
    method DropThenUnsubscribe(deviceID: Id, id: Id, sub: PaneSub)
      requires Valid() && sub in Subs() && sub.deviceID == deviceID
      modifies sessions.Values, source`log, Subs()`gone, Subs()`once
      ensures Valid() && View() == S.Step(old(View()), S.Drop(deviceID))
      ensures forall w :: w in old(Subs()) ==> w.once == w.gone == (old(w.gone) || w.deviceID == deviceID)
    {
      hide PaneHub.View, PaneHub.Separate, S.Step;
      ghost var v := View();
      DeviceInView(id, sub);
      DropDevice(deviceID);
      Unsubscribe(id, sub);
      S.UnwatchAfterDrop(v, deviceID, id, sub);
    }

    lemma DeviceInView(id: Id, sub: PaneSub)
      ensures id in View().sessions && sub in View().sessions[id].subs ==>
                View().sessions[id].subs[sub].device == sub.deviceID
    {
    }

    method SignalAll(doomed: set<PaneSub>, ghost all: set<PaneSub>)
      requires Separate() && Subs() <= all
      requires doomed <= all && forall w :: w in all ==> w.once == w.gone
      modifies doomed`gone, doomed`once
      ensures Valid() && View() == old(View())
      ensures forall w :: w in all ==> w.once == w.gone == (old(w.gone) || w in doomed)
    {
      hide PaneHub.View, PaneHub.Subs;
      var todo := doomed;
      while todo != {}
        invariant todo <= doomed
        invariant Separate() && View() == old(View()) && Subs() <= all
        invariant forall w :: w in all ==> w.once == w.gone == (old(w.gone) || w in doomed - todo)
        decreases |todo|
      {
        var sub :| sub in todo;
        todo := todo - {sub};
        sub.Close();
      }
    }

    method EvictAll(deviceID: Id, ghost all: set<PaneSub>) returns (doomed: set<PaneSub>)
      requires Valid() && all == Subs()
      modifies sessions.Values`current, sessions.Values`subs, sessions.Values`open, source`log
      ensures Valid() && View() == S.Step(old(View()), S.Drop(deviceID))
      ensures doomed == (set w | w in all && w.deviceID == deviceID) && Subs() <= all
      ensures forall w :: w in all ==> w.once == old(w.once) && w.gone == old(w.gone)
    {
      hide PaneHub.View, PaneHub.Subs, PaneHub.Valid, PaneHub.NoneOf, PaneHub.OnlyOf, S.DropSome;
      ghost var v0 := View();
      S.DropNone(v0, deviceID);
      KeysOfView();
      NoneOfNothing(deviceID);
      doomed := EvictEach(deviceID, v0, all, sessions.Values);
      S.DropAll(v0, deviceID);
      NoneLeft(deviceID);
      DoomedAreTheDevices(all, doomed, deviceID);
    }

    method EvictEach(deviceID: Id, ghost v0: S.Panes<PaneSub, PaneFrame>, ghost all: set<PaneSub>,
                     ghost entries: set<PaneSession>) returns (doomed: set<PaneSub>)
      requires entries == sessions.Values
      requires Valid() && v0.sessions.Keys == sessions.Keys && Subs() == all
      requires View() == S.DropSome(v0, deviceID, {}) && NoneOf({}, deviceID)
      modifies entries`current, entries`subs, entries`open, source`log
      ensures Valid() && View() == S.DropSome(v0, deviceID, sessions.Keys)
      ensures doomed <= all && Subs() == all - doomed && OnlyOf(doomed, deviceID)
      ensures NoneOf(sessions.Keys, deviceID)
    {
      hide *;
      doomed := {};
      var todo := sessions.Keys;
      ghost var done: set<Id> := {};
      OnlyMore({}, {}, deviceID);
      while todo != {}
        invariant todo + done == sessions.Keys && todo !! done
        invariant Valid() && View() == S.DropSome(v0, deviceID, done)
        invariant doomed <= all && Subs() == all - doomed && OnlyOf(doomed, deviceID)
        invariant NoneOf(done, deviceID)
        decreases |todo|
      {
        var id :| id in todo;
        doomed := EvictNext(id, deviceID, doomed, v0, all, done, entries);
        todo, done := todo - {id}, done + {id};
      }
      assert done == sessions.Keys;
    }

    method EvictNext(id: Id, deviceID: Id, soFar: set<PaneSub>, ghost v0: S.Panes<PaneSub, PaneFrame>, ghost all: set<PaneSub>,
                     ghost done: set<Id>, ghost entries: set<PaneSession>) returns (doomed: set<PaneSub>)
      requires entries == sessions.Values && v0.sessions.Keys == sessions.Keys
      requires Valid() && id in sessions && id !in done && NoneOf(done, deviceID)
      requires View() == S.DropSome(v0, deviceID, done)
      requires soFar <= all && Subs() == all - soFar && OnlyOf(soFar, deviceID)
      modifies entries`current, entries`subs, entries`open, source`log
      ensures Valid() && View() == S.DropSome(v0, deviceID, done + {id})
      ensures doomed <= all && Subs() == all - doomed && OnlyOf(doomed, deviceID)
      ensures NoneOf(done + {id}, deviceID)
    {
      hide PaneHub.View, PaneHub.Subs, PaneHub.Valid, PaneHub.NoneOf, PaneHub.OnlyOf, S.DropOne, S.DropSome;
      var more := EvictOne(id, deviceID, done, entries);
      S.DropOneMore(v0, deviceID, done, id);
      OnlyMore(soFar, more, deviceID);
      doomed := soFar + more;
    }

    lemma OnlyMore(a: set<PaneSub>, b: set<PaneSub>, deviceID: Id)
      requires a != {} ==> OnlyOf(a, deviceID)
      requires b != {} ==> OnlyOf(b, deviceID)
      ensures OnlyOf(a + b, deviceID)
    {
    }

    lemma DoomedAreTheDevices(all: set<PaneSub>, doomed: set<PaneSub>, deviceID: Id)
      requires doomed <= all && OnlyOf(doomed, deviceID)
      requires forall w :: w in all - doomed ==> w.deviceID != deviceID
      ensures doomed == set w | w in all && w.deviceID == deviceID
    {
    }

    ghost predicate OnlyOf(subs: set<PaneSub>, deviceID: Id) {
      forall w :: w in subs ==> w.deviceID == deviceID
    }

    ghost predicate NoneOf(ids: set<Id>, deviceID: Id)
      reads `sessions, sessions.Values`subs
    {
      forall id, w :: id in ids && id in sessions && w in sessions[id].subs ==> w.deviceID != deviceID
    }

    lemma NoneOfNothing(deviceID: Id)
      ensures NoneOf({}, deviceID)
    {
    }

    lemma NoneLeft(deviceID: Id)
      requires NoneOf(sessions.Keys, deviceID)
      ensures forall w :: w in Subs() ==> w.deviceID != deviceID
    {
    }

    lemma KeysOfView()
      ensures View().sessions.Keys == sessions.Keys
    {
    }

    method EvictOne(id: Id, deviceID: Id, ghost done: set<Id>, ghost entries: set<PaneSession>) returns (doomed: set<PaneSub>)
      requires entries == sessions.Values
      requires Valid() && id in sessions && id !in done && NoneOf(done, deviceID)
      modifies entries`current, entries`subs, entries`open, source`log
      ensures Valid() && View() == S.DropOne(old(View()), deviceID, id)
      ensures doomed <= old(Subs()) && Subs() == old(Subs()) - doomed
      ensures OnlyOf(doomed, deviceID)
      ensures NoneOf(done + {id}, deviceID)
    {
      hide S.DropFrom;
      doomed := Evict(id, sessions[id], deviceID);
      OneSessionChanged(id);
      forall w | w in old(Subs()) && w !in doomed ensures w in Subs() {
        var at :| at in sessions && w in old(sessions[at].subs);
        assert w in sessions[at].subs;
      }
    }
  }
}
