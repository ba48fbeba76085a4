/**
 * The status hub as the source writes it: objects under a lock, capacity-1 channels, and
 * stream handlers that may receive between any two channel operations of a publish
 * (`OthersReceive`). Each statement that the Fanout model calls a step also moves the
 * ghost `model` by that step, so every run of these methods is a run of the model.
 */
module StatusHub {
  import opened Options
  import opened Projection
  import F = Fanout

  datatype Snapshot = Snapshot(status: Status, at: Time)

  type Frame = F.Frame<Snapshot>

  class Subscriber {
    const deviceID: F.Id
    var updates: Option<Frame>  // a channel of capacity 1
    var gone: bool              // true once the channel is closed
    var once: bool

    constructor (deviceID: F.Id)
      ensures this.deviceID == deviceID && updates == None && !gone && !once
    {
      this.deviceID, updates, gone, once := deviceID, None, false, false;
    }

    method TrySend(f: Frame) returns (sent: bool)
      modifies `updates
      ensures sent <==> old(updates).None?
      ensures updates == if sent then Some(f) else old(updates)
    {
      sent := updates.None?;
      if sent {
        updates := Some(f);
      }
    }

    method TryReceive() returns (got: Option<Frame>)
      modifies `updates
      ensures got == old(updates) && updates == None
    {
      got, updates := updates, None;
    }

    // Closing a closed channel panics; the Once is what prevents it.
    // Closing a channel a second time would panic.
    method CloseGone()
      requires !gone
      modifies `gone
      ensures gone
    {
      gone := true;
    }

    /** Signals the stream's end, unless it has been signalled already. */
    method Close()
      requires once == gone
      modifies `gone, `once
      ensures gone && once
    {
      if !once {
        once := true;
        CloseGone();
      }
    }
  }

  /** Between `h` and `h'` only the channels of `who` moved. */
  ghost predicate ChannelsMoved(h: F.Hub<Subscriber, Snapshot>, h': F.Hub<Subscriber, Snapshot>, who: set<Subscriber>) {
    && h' == h.(phase := h'.phase, watchers := h'.watchers)
    && h'.watchers.Keys == h.watchers.Keys
    && forall w :: w in h.watchers ==>
         && (w !in who ==> h'.watchers[w] == h.watchers[w])
         && h'.watchers[w] == h.watchers[w].(updates := h'.watchers[w].updates, seen := h'.watchers[w].seen)
  }

  lemma MovedNone(h: F.Hub<Subscriber, Snapshot>, who: set<Subscriber>)
    ensures ChannelsMoved(h, h, who)
  {
  }

  lemma MovedTwice(h: F.Hub<Subscriber, Snapshot>, m: F.Hub<Subscriber, Snapshot>, h': F.Hub<Subscriber, Snapshot>,
                   who: set<Subscriber>, who': set<Subscriber>)
    requires ChannelsMoved(h, m, who) && ChannelsMoved(m, h', who') && who' <= who
    ensures ChannelsMoved(h, h', who) && h'.watchers.Keys == m.watchers.Keys && h'.published == m.published
  {
  }

  class Hub {
    var current: Status
    var at: Time
    var seqNo: nat
    var subs: set<Subscriber>
    ghost var model: F.Hub<Subscriber, Snapshot>

    ghost predicate Channels()
      reads `model, model.watchers.Keys`updates
    {
      forall w :: w in model.watchers ==> w.updates == model.watchers[w].updates
    }

    ghost predicate Signals()
      reads `model, model.watchers.Keys
    {
      forall w :: w in model.watchers ==>
        && w.gone == w.once == model.watchers[w].gone
        && w.deviceID == model.watchers[w].device
    }

    ghost predicate Linked()
      reads this, model.watchers.Keys
    {
      && F.Inv(model) && model.retain && model.phase.Unlocked?
      && model.seqNo == seqNo && model.subs == subs
      && model.current == Some(F.Frame(Snapshot(current, at), seqNo))
      && Channels() && Signals()
    }

    // Between calls nobody owes a close().
    ghost predicate Valid()
      reads this, model.watchers.Keys
    {
      Linked() && forall w :: w in model.watchers ==> model.watchers[w].owed == 0
    }

    constructor (zero: Status)
      ensures Valid() && F.Init(model)
      ensures current == zero && at == ZERO_TIME && seqNo == 0 && subs == {}
    {
      current, at, seqNo, subs := zero, ZERO_TIME, 0, {};
      model := F.Hub(true, 0, Some(F.Frame(Snapshot(zero, ZERO_TIME), 0)), {}, F.Unlocked, map[], [], 0);
    }

    ghost method Do(step: F.Step<Subscriber, Snapshot>)
      requires F.Inv(model) && F.Enabled(model, step)
      modifies `model
      ensures F.Inv(model) && model == F.Apply(old(model), step)
    {
      F.StepKeepsInv(model, step);
      model := F.Apply(model, step);
    }

    /** A stream handler takes the pending frame off its channel. */
    method Receive(w: Subscriber) returns (f: Frame)
      requires F.Inv(model) && Channels() && w in model.watchers && w.updates.Some?
      modifies `model, w`updates
      ensures F.Inv(model) && Channels()
      ensures old(w.updates) == Some(f)
      ensures ChannelsMoved(old(model), model, {w}) && model.phase == old(model.phase)
      ensures model.watchers[w].seen == old(model).watchers[w].seen + [f]
    {
      hide F.Inv;
      var got := w.TryReceive();
      f := got.value;
      Do(F.Receive(w));
    }

    /** Any of these subscribers' stream handlers, or none, receive what their channels hold. */
    method OthersReceive(handlers: set<Subscriber>)
      requires F.Inv(model) && Channels() && handlers <= model.watchers.Keys
      modifies `model, handlers`updates
      ensures F.Inv(model) && Channels()
      ensures ChannelsMoved(old(model), model, handlers) && model.phase == old(model.phase)
    {
      hide F.Inv, ChannelsMoved;
      MovedNone(model, handlers);
      var todo := handlers;
      while todo != {}
        invariant todo <= handlers <= model.watchers.Keys
        invariant F.Inv(model) && Channels()
        invariant ChannelsMoved(old(model), model, handlers) && model.phase == old(model.phase)
        decreases |todo|
      {
        var w :| w in todo;
        todo := todo - {w};
        var scheduled: bool := *;
        if scheduled && w.updates.Some? {
          ghost var before := model;
          var _ := Receive(w);
          MovedTwice(old(model), before, model, handlers, {w});
        }
      }
    }

    // The three channel operations of a publish, one step each.

    method SendFirst(w: Subscriber, f: Frame) returns (sent: bool)
      requires F.Inv(model) && Channels() && model.phase.Offering? && w in model.phase.todo && w in model.watchers
      requires model.published != [] && model.published[|model.published| - 1] == f
      modifies `model, w`updates
      ensures F.Inv(model) && Channels()
      ensures ChannelsMoved(old(model), model, {w})
      ensures var todo := old(model.phase.todo) - {w};
              model.phase == if sent then F.Offering(todo) else F.Draining(todo, w)
    {
      hide F.Inv;
      sent := w.TrySend(f);
      Do(F.Offer(w));
    }

    method DrainStale(w: Subscriber)
      requires F.Inv(model) && Channels() && model.phase.Draining? && w == model.phase.to && w in model.watchers
      modifies `model, w`updates
      ensures F.Inv(model) && Channels()
      ensures ChannelsMoved(old(model), model, {w})
      ensures model.phase == F.Resending(old(model.phase.todo), w)
    {
      hide F.Inv;
      var _ := w.TryReceive();
      Do(F.Drain);
    }

    method SendAgain(w: Subscriber, f: Frame) returns (landed: bool)
      requires F.Inv(model) && Channels() && model.phase.Resending? && w == model.phase.to && w in model.watchers
      requires model.published != [] && model.published[|model.published| - 1] == f
      modifies `model, w`updates
      ensures landed
      ensures F.Inv(model) && Channels()
      ensures ChannelsMoved(old(model), model, {w})
      ensures model.phase == F.Offering(old(model.phase.todo))
    {
      hide F.Inv;
      F.DrainedIsEmpty(model);
      landed := w.TrySend(f);
      Do(F.Resend);
    }

    /** Send; if the channel is full, drain it and send again. Never blocks, never fails. */
    method OfferTo(w: Subscriber, f: Frame)
      requires F.Inv(model) && Channels() && model.phase.Offering? && w in model.phase.todo && w in model.watchers
      requires model.published != [] && model.published[|model.published| - 1] == f
      modifies `model, w`updates
      ensures F.Inv(model) && Channels()
      ensures ChannelsMoved(old(model), model, {w})
      ensures model.phase == F.Offering(old(model.phase.todo) - {w})
    {
      hide F.Inv, ChannelsMoved;
      ghost var m0 := model;
      var sent := SendFirst(w, f);
      MovedNone(m0, {w});
      MovedTwice(m0, m0, model, {w}, {w});
      if !sent {
        ghost var m1 := model;
        ReplacePending(w, f);
        MovedTwice(m0, m1, model, {w}, {w});
      }
    }

    method ReplacePending(w: Subscriber, f: Frame)
      requires F.Inv(model) && Channels() && model.phase.Draining? && w == model.phase.to && w in model.watchers
      requires model.published != [] && model.published[|model.published| - 1] == f
      modifies `model, w`updates
      ensures F.Inv(model) && Channels()
      ensures ChannelsMoved(old(model), model, {w})
      ensures model.phase == F.Offering(old(model.phase.todo))
    {
      hide F.Inv, ChannelsMoved;
      ghost var m0 := model;
      MovedNone(m0, {w});
      DrainAmidReceives(w);
      MovedTwice(m0, m0, model, {w}, {w});
      ghost var m1 := model;
      OthersReceive({w});
      MovedTwice(m0, m1, model, {w}, {w});
      ghost var m2 := model;
      var _ := SendAgain(w, f);
      MovedTwice(m0, m2, model, {w}, {w});
    }

    method DrainAmidReceives(w: Subscriber)
      requires F.Inv(model) && Channels() && model.phase.Draining? && w == model.phase.to && w in model.watchers
      modifies `model, w`updates
      ensures F.Inv(model) && Channels()
      ensures ChannelsMoved(old(model), model, {w})
      ensures model.phase == F.Resending(old(model.phase.todo), w)
    {
      hide F.Inv, ChannelsMoved;
      ghost var m0 := model;
      MovedNone(m0, {w});
      OthersReceive({w});
      MovedTwice(m0, m0, model, {w}, {w});
      ghost var m1 := model;
      DrainStale(w);
      MovedTwice(m0, m1, model, {w}, {w});
    }

    /** Clamps the snapshot, makes it current, and offers it to every subscriber. */
    method Publish(s: Status, at: Time) returns (n: nat)
      requires Valid()
      modifies `current, `at, `seqNo, `model, subs`updates
      ensures Valid()
      ensures n == seqNo == old(seqNo) + 1
      ensures current == ClampStatus(s) && this.at == at
      ensures model.published == old(model.published) + [F.Frame(Snapshot(current, at), n)]
      ensures model.watchers.Keys == old(model.watchers.Keys)
      ensures forall w :: w in model.watchers && w !in subs ==> model.watchers[w] == old(model.watchers)[w]
      ensures forall w :: w in subs ==>
        if model.watchers[w].LastSeq() == n then w.updates == None
        else w.updates == Some(F.Frame(Snapshot(current, at), n))
    {
      hide F.Inv, ClampStatus, StatusClamped;
      var clamping := new StatusRef(s);
      clamping.Clamp();
      var status := clamping.Value();
      seqNo := seqNo + 1;
      current, this.at := status, at;
      var f := F.Frame(Snapshot(status, at), seqNo);
      Broadcast(f);
      n := seqNo;
      forall w | w in subs {
        F.AtRest(model, w);
      }
    }

    method Broadcast(f: Frame)
      requires F.Inv(model) && Channels() && Signals() && model.phase.Unlocked? && model.retain && model.subs == subs
      requires f.seqNo == model.seqNo + 1
      modifies `model, subs`updates
      ensures F.Inv(model) && Channels() && Signals() && model.phase.Unlocked? && model.subs == subs
      ensures model.retain && model.seqNo == f.seqNo && model.current == Some(f)
      ensures model.published == old(model.published) + [f]
      ensures model.watchers.Keys == old(model.watchers.Keys)
      ensures forall w :: w in model.watchers ==> model.watchers[w].owed == old(model.watchers)[w].owed
      ensures forall w :: w in model.watchers && w !in subs ==> model.watchers[w] == old(model.watchers)[w]
    {
      hide F.Inv;
      Do(F.BeginPublish(f.body));
      F.SubsAreKnown(model);
      OfferToAll(f);
      Do(F.EndPublish);
    }

    method OfferToAll(f: Frame)
      requires F.Inv(model) && Channels() && model.subs == subs <= model.watchers.Keys
      requires model.phase == F.Offering(subs)
      requires model.published != [] && model.published[|model.published| - 1] == f
      modifies `model, subs`updates
      ensures F.Inv(model) && Channels()
      ensures ChannelsMoved(old(model), model, subs)
      ensures model.phase == F.Offering({})
    {
      hide F.Inv, ChannelsMoved;
      MovedNone(model, subs);
      var todo := subs;
      while todo != {}
        invariant todo <= subs <= model.watchers.Keys
        invariant F.Inv(model) && Channels()
        invariant model.published == old(model.published)
        invariant ChannelsMoved(old(model), model, subs)
        invariant model.phase == F.Offering(todo)
        decreases |todo|
      {
        ghost var before := model;
        var w := OfferToOne(todo, f);
        MovedTwice(old(model), before, model, subs, subs);
        todo := todo - {w};
      }
      ghost var before := model;
      OthersReceive(subs);
      MovedTwice(old(model), before, model, subs, subs);
    }

    method OfferToOne(todo: set<Subscriber>, f: Frame) returns (w: Subscriber)
      requires F.Inv(model) && Channels() && model.phase == F.Offering(todo)
      requires {} != todo <= subs <= model.watchers.Keys
      requires model.published != [] && model.published[|model.published| - 1] == f
      modifies `model, subs`updates
      ensures F.Inv(model) && Channels()
      ensures ChannelsMoved(old(model), model, subs)
      ensures w in todo && model.phase == F.Offering(todo - {w})
    {
      hide F.Inv, ChannelsMoved;
      ghost var m0 := model;
      MovedNone(m0, subs);
      OthersReceive(subs);
      MovedTwice(m0, m0, model, subs, subs);
      ghost var m1 := model;
      w :| w in todo;
      OfferTo(w, f);
      MovedTwice(m0, m1, model, subs, {w});
    }

    method Snap() returns (status: Status, at: Time, n: nat)
      requires Valid()
      ensures F.Frame(Snapshot(status, at), n) == model.current.value && n == |model.published|
    {
      status, at, n := current, this.at, seqNo;
    }

    /** The subscriber and the opening snapshot, taken under one lock. */
    method Subscribe(deviceID: F.Id) returns (sub: Subscriber, opening: Frame)
      requires Valid()
      modifies `subs, `model
      ensures Valid() && fresh(sub) && sub.deviceID == deviceID
      ensures subs == old(subs) + {sub}
      ensures Some(opening) == model.current == old(model.current)
      ensures model == F.Apply(old(model), F.Subscribe(sub, deviceID))
    {
      hide F.Inv, F.Apply, F.Enabled;
      sub := new Subscriber(deviceID);
      opening := Attach(sub, deviceID);
    }

    method Attach(sub: Subscriber, deviceID: F.Id) returns (opening: Frame)
      requires Valid() && sub !in model.watchers
      requires sub.updates == None && !sub.gone && !sub.once && sub.deviceID == deviceID
      modifies `subs, `model
      ensures Valid() && subs == old(subs) + {sub}
      ensures Some(opening) == model.current == old(model.current)
      ensures model == F.Apply(old(model), F.Subscribe(sub, deviceID))
    {
      hide F.Inv;
      subs := subs + {sub};
      opening := F.Frame(Snapshot(current, at), seqNo);
      Do(F.Subscribe(sub, deviceID));
    }

    /** A caller past the lock runs the subscriber's close. */
    method Settle(sub: Subscriber)
      requires Linked() && sub in model.watchers && model.watchers[sub].owed == 1
      modifies `model, sub`gone, sub`once
      ensures Linked() && sub.gone
      ensures model == old(model).(watchers := model.watchers) && model.watchers.Keys == old(model.watchers.Keys)
      ensures forall w :: w in model.watchers && w != sub ==> model.watchers[w] == old(model.watchers)[w]
      ensures model.watchers[sub].owed == 0 && model.watchers[sub].signals == 1
    {
      hide F.Inv;
      sub.Close();
      Do(F.Close(sub));
      F.GoneOnce(model, sub);
    }

    method Unsubscribe(sub: Subscriber)
      requires Valid() && sub in model.watchers
      modifies `subs, `model, sub`gone, sub`once
      ensures Valid() && subs == old(subs) - {sub}
      ensures sub.gone && sub in model.watchers && model.watchers[sub].signals == 1
      ensures model.watchers.Keys == old(model.watchers.Keys)
      ensures forall w :: w in model.watchers && w != sub ==> model.watchers[w] == old(model.watchers)[w]
    {
      hide F.Inv;
      subs := subs - {sub};
      Detach(sub);
      Settle(sub);
    }

    ghost method Detach(sub: Subscriber)
      requires F.Inv(model) && model.retain && model.phase.Unlocked? && Channels() && Signals() && sub in model.watchers
      modifies `model
      ensures F.Inv(model) && Channels() && Signals()
      ensures model == F.Apply(old(model), F.Unsubscribe(sub))
    {
      hide F.Inv;
      Do(F.Unsubscribe(sub));
    }

    /** Ends every stream the device holds and no other. */
    method DropDevice(deviceID: F.Id)
      requires Valid()
      modifies `subs, `model, subs`gone, subs`once
      ensures Valid()
      ensures subs == set w | w in old(subs) && w.deviceID != deviceID
      ensures forall w :: w in old(subs) && w.deviceID == deviceID ==>
        w.gone && w in model.watchers && model.watchers[w].signals == 1
      ensures forall w :: w in old(model.watchers) && !(w in old(subs) && w.deviceID == deviceID) ==>
        w in model.watchers && model.watchers[w] == old(model.watchers)[w]
    {
      hide F.Inv;
      var doomed := Evict(deviceID);
      SettleAll(doomed);
    }

    method SettleAll(doomed: set<Subscriber>)
      requires Linked() && doomed <= model.watchers.Keys
      requires forall w :: w in model.watchers ==> model.watchers[w].owed == if w in doomed then 1 else 0
      modifies `model, doomed`gone, doomed`once
      ensures Valid() && model.watchers.Keys == old(model.watchers.Keys)
      ensures forall w :: w in doomed ==> w.gone && model.watchers[w].signals == 1
      ensures forall w :: w in model.watchers && w !in doomed ==> model.watchers[w] == old(model.watchers)[w]
    {
      hide F.Inv;
      ghost var before := model.watchers;
      var todo := doomed;
      while todo != {}
        invariant Linked() && todo <= doomed <= before.Keys
        invariant Settling(before, model.watchers, doomed, todo)
        decreases |todo|
      {
        var w :| w in todo;
        todo := todo - {w};
        Settle(w);
      }
    }

    // Where a round of closes stands: `todo` of the doomed are still owed theirs.
    static ghost predicate Settling(before: map<Subscriber, F.Watcher<Snapshot>>, now: map<Subscriber, F.Watcher<Snapshot>>,
                                    doomed: set<Subscriber>, todo: set<Subscriber>)
    {
      && now.Keys == before.Keys
      && forall w :: w in now ==>
           if w in todo then now[w].owed == 1
           else if w in doomed then now[w].owed == 0 && now[w].signals == 1 && now[w].gone
           else now[w] == before[w] && now[w].owed == 0
    }

    method Sweep(deviceID: F.Id) returns (doomed: set<Subscriber>)
      modifies `subs
      ensures doomed == set w | w in old(subs) && w.deviceID == deviceID
      ensures subs == old(subs) - doomed
    {
      doomed := {};
      var todo := subs;
      while todo != {}
        invariant todo <= old(subs)
        invariant doomed == set w | w in old(subs) - todo && w.deviceID == deviceID
        invariant subs == old(subs) - doomed
        decreases |todo|
      {
        var w :| w in todo;
        todo := todo - {w};
        if w.deviceID == deviceID {
          doomed := doomed + {w};
          subs := subs - {w};
        }
      }
    }

    // The part of dropDevice that runs under the lock.
    method Evict(deviceID: F.Id) returns (doomed: set<Subscriber>)
      requires Linked()
      modifies `subs, `model
      ensures Linked()
      ensures doomed == set w | w in old(subs) && w.deviceID == deviceID
      ensures subs == old(subs) - doomed
      ensures doomed <= model.watchers.Keys == old(model.watchers.Keys)
      ensures forall w :: w in model.watchers ==>
        model.watchers[w] == if w in doomed then old(model.watchers)[w].(owed := old(model.watchers)[w].owed + 1)
                             else old(model.watchers)[w]
    {
      hide F.Inv;
      doomed := Sweep(deviceID);
      F.SubsAreKnown(model);
      assert doomed == F.Doomed(model, deviceID);
      Do(F.DropDevice(deviceID));
    }
  }
}
