/**
 * The latest-wins fan-out both hubs run, one level finer than a lock.
 *
 * A publisher holds the hub's lock while it walks the subscribers, but the stream
 * handlers receive from their capacity-1 channels without it. So `publish` is split
 * into the channel operations it performs (send / drain / send again) and every
 * receive may fall between any two of them. Everything that takes the lock is one
 * step; `close` runs after the lock is released and is a step of its own.
 *
 * `retain` tells the two hubs apart: the status hub always has a current snapshot,
 * a pane session drops its frame with the last watcher and ignores frames nobody
 * watches.
 */
module Fanout {
  import opened Options

  type Id = string

  datatype Frame<T> = Frame(body: T, seqNo: nat)

  datatype Watcher<T> = Watcher(
    device: Id,
    updates: Option<Frame<T>>,   // the capacity-1 channel
    gone: bool,                  // the channel `close` closes
    horizon: nat,                // history: the hub's seq when it subscribed
    opening: Option<Frame<T>>,   // history: the frame it was handed at that moment
    seen: seq<Frame<T>>,         // history: what it received since, in order
    owed: nat,                   // close() calls still to run, by callers past the lock
    signals: nat                 // history: how often `gone` was closed
  ) {
    function LastSeq(): nat {
      if seen == [] then horizon else seen[|seen| - 1].seqNo
    }
  }

  // Where the publisher is inside its critical section.
  datatype Phase<W> =
    | Unlocked
    | Offering(todo: set<W>)               // about to offer to the next subscriber
    | Draining(todo: set<W>, to: W)        // the first send found the buffer full
    | Resending(todo: set<W>, to: W)       // drained, about to send again

  datatype Hub<W, T> = Hub(
    retain: bool,
    seqNo: nat,
    current: Option<Frame<T>>,
    subs: set<W>,
    phase: Phase<W>,
    watchers: map<W, Watcher<T>>,  // history: everyone who ever subscribed
    published: seq<Frame<T>>,      // history
    missed: nat                    // history: second sends that fell to `default`
  )

  datatype Step<W, T> =
    | BeginPublish(body: T) | Offer(w: W) | Drain | Resend | EndPublish
    | Receive(w: W)
    | Subscribe(w: W, device: Id) | Unsubscribe(w: W) | DropDevice(device: Id)
    | Close(w: W)

  ghost predicate Enabled<W, T>(h: Hub<W, T>, step: Step<W, T>) {
    match step
    case BeginPublish(_) => h.phase.Unlocked?
    case Offer(w) => h.phase.Offering? && w in h.phase.todo && w in h.watchers
    case Drain => h.phase.Draining? && h.phase.to in h.watchers
    case Resend => h.phase.Resending? && h.phase.to in h.watchers && h.published != []
    case EndPublish => h.phase.Offering? && h.phase.todo == {}
    case Receive(w) => w in h.watchers && h.watchers[w].updates.Some?
    case Subscribe(w, _) => h.phase.Unlocked? && w !in h.watchers
    case Unsubscribe(w) => h.phase.Unlocked? && w in h.watchers
    case DropDevice(_) => h.phase.Unlocked?
    case Close(w) => w in h.watchers && h.watchers[w].owed > 0
  }

  ghost function Doomed<W, T>(h: Hub<W, T>, device: Id): set<W> {
    set w | w in h.subs && w in h.watchers && h.watchers[w].device == device
  }

  ghost function Remove<W, T>(h: Hub<W, T>, leaving: set<W>, closing: set<W>): Hub<W, T> {
    var left := h.subs - leaving;
    h.(subs := left,
       current := if !h.retain && left == {} then None else h.current,
       watchers := map w | w in h.watchers ::
         if w in closing then h.watchers[w].(owed := h.watchers[w].owed + 1) else h.watchers[w])
  }

  ghost function Apply<W, T>(h: Hub<W, T>, step: Step<W, T>): Hub<W, T>
    requires Enabled(h, step)
  {
    match step
    case BeginPublish(body) =>
      if !h.retain && h.subs == {} then h else
        var f := Frame(body, h.seqNo + 1);
        h.(seqNo := f.seqNo, current := Some(f), published := h.published + [f], phase := Offering(h.subs))
    case Offer(w) =>
      var todo := h.phase.todo - {w};
      if h.watchers[w].updates.Some? || h.published == [] then
        h.(phase := Draining(todo, w))
      else
        h.(phase := Offering(todo), watchers := h.watchers[w := h.watchers[w].(updates := Some(h.published[|h.published| - 1]))])
    case Drain =>
      var w := h.phase.to;
      h.(phase := Resending(h.phase.todo, w), watchers := h.watchers[w := h.watchers[w].(updates := None)])
    case Resend =>
      var w := h.phase.to;
      if h.watchers[w].updates.Some? then
        h.(phase := Offering(h.phase.todo), missed := h.missed + 1)
      else
        h.(phase := Offering(h.phase.todo), watchers := h.watchers[w := h.watchers[w].(updates := Some(h.published[|h.published| - 1]))])
    case EndPublish =>
      h.(phase := Unlocked)
    case Receive(w) =>
      var x := h.watchers[w];
      h.(watchers := h.watchers[w := x.(updates := None, seen := x.seen + [x.updates.value])])
    case Subscribe(w, device) =>
      h.(subs := h.subs + {w},
         watchers := h.watchers[w := Watcher(device, None, false, h.seqNo, h.current, [], 0, 0)])
    case Unsubscribe(w) =>
      Remove(h, {w}, {w})
    case DropDevice(device) =>
      Remove(h, Doomed(h, device), Doomed(h, device))
    case Close(w) =>
      var x := h.watchers[w];
      h.(watchers := h.watchers[w := x.(owed := x.owed - 1, gone := true,
                                        signals := if x.gone then x.signals else x.signals + 1)])
  }

  ghost predicate Schedule<W, T>(h: Hub<W, T>, steps: seq<Step<W, T>>)
    decreases |steps|
  {
    steps == [] || (Enabled(h, steps[0]) && Schedule(Apply(h, steps[0]), steps[1..]))
  }

  ghost function Run<W, T>(h: Hub<W, T>, steps: seq<Step<W, T>>): Hub<W, T>
    requires Schedule(h, steps)
    decreases |steps|
  {
    if steps == [] then h else Run(Apply(h, steps[0]), steps[1..])
  }

  /** A new status hub holds the zero snapshot; a new pane session holds nothing. */
  ghost predicate Init<W, T>(h: Hub<W, T>) {
    && h.seqNo == 0 && h.subs == {} && h.phase.Unlocked? && h.watchers == map[] && h.published == [] && h.missed == 0
    && (h.retain <==> h.current.Some?)
    && (h.retain ==> h.current.value.seqNo == 0)
  }

  // ----- the invariant

  ghost predicate Published<T>(published: seq<Frame<T>>, f: Frame<T>) {
    0 < f.seqNo <= |published| && published[f.seqNo - 1] == f
  }

  /** What holds of one watcher's history at every moment, mid-publish included. */
  ghost predicate History<T>(published: seq<Frame<T>>, x: Watcher<T>) {
    && x.horizon <= |published|
    && (forall i :: 0 <= i < |x.seen| ==> x.horizon < x.seen[i].seqNo && Published(published, x.seen[i]))
    && (forall i, j :: 0 <= i < j < |x.seen| ==> x.seen[i].seqNo < x.seen[j].seqNo)
    && (x.updates.Some? ==> x.LastSeq() < x.updates.value.seqNo && Published(published, x.updates.value))
    && (x.opening.Some? ==> x.opening.value.seqNo == x.horizon && (x.horizon > 0 ==> Published(published, x.opening.value)))
  }

  ghost predicate Signalled<T>(x: Watcher<T>, subscribed: bool) {
    && x.signals == (if x.gone then 1 else 0)
    && (subscribed ==> !x.gone && x.owed == 0)
    && (!subscribed ==> x.gone || x.owed > 0)
  }

  /** The watcher has seen frame n or is about to. */
  ghost predicate UpTo<T>(x: Watcher<T>, n: int) {
    if x.updates.Some? then x.updates.value.seqNo == n else x.LastSeq() == n
  }

  // How far behind the publisher's frame a subscriber may still be, and who has just
  // been drained.
  ghost function Lag<W>(phase: Phase<W>, w: W): nat {
    match phase
    case Unlocked => 0
    case Offering(todo) => if w in todo then 1 else 0
    case Draining(todo, to) => if w in todo || w == to then 1 else 0
    case Resending(todo, to) => if w in todo || w == to then 1 else 0
  }

  ghost predicate Fresh<W, T>(phase: Phase<W>, seqNo: nat, w: W, x: Watcher<T>) {
    if phase.Resending? && w == phase.to then x.updates.None? && x.LastSeq() < seqNo
    else UpTo(x, seqNo - Lag(phase, w))
  }

  ghost predicate PhaseOk<W, T>(h: Hub<W, T>) {
    match h.phase
    case Unlocked => true
    case Offering(todo) => h.seqNo > 0 && todo <= h.subs
    case Draining(todo, to) => h.seqNo > 0 && todo <= h.subs && to in h.subs && to !in todo
    case Resending(todo, to) => h.seqNo > 0 && todo <= h.subs && to in h.subs && to !in todo
  }

  ghost predicate CurrentOk<W, T>(h: Hub<W, T>) {
    && (h.retain ==> h.current.Some?)
    && (!h.retain && h.subs == {} ==> h.current.None?)
    && (h.current.Some? ==> h.current.value.seqNo == h.seqNo && (h.seqNo > 0 ==> Published(h.published, h.current.value)))
  }

  ghost predicate Inv<W, T>(h: Hub<W, T>) {
    && h.missed == 0
    && h.subs <= h.watchers.Keys
    && |h.published| == h.seqNo
    && (forall i :: 0 <= i < |h.published| ==> h.published[i].seqNo == i + 1)
    && CurrentOk(h) && PhaseOk(h)
    && (forall w :: w in h.watchers ==> History(h.published, h.watchers[w]) && Signalled(h.watchers[w], w in h.subs))
    && (h.retain ==> forall w :: w in h.watchers ==> h.watchers[w].opening.Some?)
    && (forall w :: w in h.subs ==> Fresh(h.phase, h.seqNo, w, h.watchers[w]))
  }

  // ----- one step keeps it

  lemma MorePublished<T>(published: seq<Frame<T>>, f: Frame<T>, x: Watcher<T>)
    requires History(published, x)
    ensures History(published + [f], x)
  {
  }

  lemma BeginKeeps<W, T>(h: Hub<W, T>, body: T)
    requires Inv(h) && h.phase.Unlocked?
    ensures Inv(Apply(h, BeginPublish(body)))
  {
    var h' := Apply(h, BeginPublish(body));
    if h.retain || h.subs != {} {
      forall w | w in h.watchers ensures History(h'.published, h'.watchers[w]) {
        MorePublished(h.published, Frame(body, h.seqNo + 1), h.watchers[w]);
      }
    }
  }

  /** A change to one watcher alone: nobody else's obligations move with the phase. */
  lemma OneWatcherKeeps<W, T>(h: Hub<W, T>, w: W, x: Watcher<T>, phase: Phase<W>)
    requires Inv(h) && w in h.watchers
    requires PhaseOk(h.(phase := phase))
    requires forall v :: v in h.subs && v != w ==> Lag(phase, v) == Lag(h.phase, v)
    requires h.phase.Resending? ==> phase == h.phase || h.phase.to == w
    requires phase.Resending? ==> phase == h.phase || phase.to == w
    requires History(h.published, x) && Signalled(x, w in h.subs) && x.opening == h.watchers[w].opening
    requires w in h.subs ==> Fresh(phase, h.seqNo, w, x)
    ensures Inv(h.(phase := phase, watchers := h.watchers[w := x]))
  {
    var h' := h.(phase := phase, watchers := h.watchers[w := x]);
    forall v | v in h'.watchers
      ensures History(h'.published, h'.watchers[v]) && Signalled(h'.watchers[v], v in h'.subs)
    {
      assert v == w || h'.watchers[v] == h.watchers[v];
    }
    forall v | v in h'.subs ensures Fresh(h'.phase, h'.seqNo, v, h'.watchers[v]) {
      assert v == w || h'.watchers[v] == h.watchers[v];
    }
  }

  lemma RefillKeeps<T>(published: seq<Frame<T>>, x: Watcher<T>)
    requires History(published, x) && x.updates.None?
    requires published != [] && published[|published| - 1].seqNo == |published| && x.LastSeq() < |published|
    ensures History(published, x.(updates := Some(published[|published| - 1])))
  {
  }

  lemma OfferFullKeeps<W, T>(h: Hub<W, T>, w: W)
    requires Inv(h) && Enabled(h, Step<W, T>.Offer(w)) && h.watchers[w].updates.Some?
    ensures Inv(h.(phase := Draining(h.phase.todo - {w}, w)))
  {
    assert h.watchers[w := h.watchers[w]] == h.watchers;
    OneWatcherKeeps(h, w, h.watchers[w], Draining(h.phase.todo - {w}, w));
  }

  lemma OfferEmptyKeeps<W, T>(h: Hub<W, T>, w: W)
    requires Inv(h) && Enabled(h, Step<W, T>.Offer(w)) && h.watchers[w].updates.None?
    ensures h.published != []
    ensures Inv(h.(phase := Offering(h.phase.todo - {w}),
                   watchers := h.watchers[w := h.watchers[w].(updates := Some(h.published[|h.published| - 1]))]))
  {
    assert Fresh(h.phase, h.seqNo, w, h.watchers[w]);
    RefillKeeps(h.published, h.watchers[w]);
    OneWatcherKeeps(h, w, h.watchers[w].(updates := Some(h.published[|h.published| - 1])), Offering(h.phase.todo - {w}));
  }

  lemma OfferKeeps<W, T>(h: Hub<W, T>, w: W)
    requires Inv(h) && Enabled(h, Step<W, T>.Offer(w))
    ensures Inv(Apply(h, Step<W, T>.Offer(w)))
  {
    if h.watchers[w].updates.Some? {
      OfferFullKeeps(h, w);
    } else {
      OfferEmptyKeeps(h, w);
    }
  }

  lemma DrainKeeps<W, T>(h: Hub<W, T>)
    requires Inv(h) && Enabled(h, Step<W, T>.Drain)
    ensures Inv(Apply(h, Step<W, T>.Drain))
  {
    var w := h.phase.to;
    OneWatcherKeeps(h, w, h.watchers[w].(updates := None), Resending(h.phase.todo, w));
  }

  lemma ResendLandsKeeps<W, T>(h: Hub<W, T>, w: W)
    requires Inv(h) && h.phase.Resending? && w == h.phase.to
    ensures w in h.watchers && h.watchers[w].updates.None? && h.published != []
    ensures Inv(h.(phase := Offering(h.phase.todo),
                   watchers := h.watchers[w := h.watchers[w].(updates := Some(h.published[|h.published| - 1]))]))
  {
    assert Fresh(h.phase, h.seqNo, w, h.watchers[w]);
    RefillKeeps(h.published, h.watchers[w]);
    OneWatcherKeeps(h, w, h.watchers[w].(updates := Some(h.published[|h.published| - 1])), Offering(h.phase.todo));
  }

  lemma ResendKeeps<W, T>(h: Hub<W, T>)
    requires Inv(h) && Enabled(h, Step<W, T>.Resend)
    ensures Inv(Apply(h, Step<W, T>.Resend))
  {
    ResendLandsKeeps(h, h.phase.to);
  }

  lemma ReceiveHistory<T>(published: seq<Frame<T>>, x: Watcher<T>)
    requires History(published, x) && x.updates.Some?
    ensures History(published, x.(updates := None, seen := x.seen + [x.updates.value]))
  {
    var x' := x.(updates := None, seen := x.seen + [x.updates.value]);
    forall i, j | 0 <= i < j < |x'.seen| ensures x'.seen[i].seqNo < x'.seen[j].seqNo {
      if j == |x.seen| { assert i < |x.seen| - 1 ==> x.seen[i].seqNo < x.seen[|x.seen| - 1].seqNo; }
    }
  }

  lemma ReceiveKeeps<W, T>(h: Hub<W, T>, w: W)
    requires Inv(h) && Enabled(h, Step<W, T>.Receive(w))
    ensures Inv(Apply(h, Step<W, T>.Receive(w)))
  {
    var x := h.watchers[w];
    var x' := x.(updates := None, seen := x.seen + [x.updates.value]);
    ReceiveHistory(h.published, x);
    assert x'.LastSeq() == x.updates.value.seqNo;
    OneWatcherKeeps(h, w, x', h.phase);
  }

  lemma CloseKeeps<W, T>(h: Hub<W, T>, w: W)
    requires Inv(h) && Enabled(h, Step<W, T>.Close(w))
    ensures Inv(Apply(h, Step<W, T>.Close(w)))
  {
    OneWatcherKeeps(h, w, Apply(h, Step<W, T>.Close(w)).watchers[w], h.phase);
  }

  lemma SubscribeKeeps<W, T>(h: Hub<W, T>, w: W, device: Id)
    requires Inv(h) && Enabled(h, Step<W, T>.Subscribe(w, device))
    ensures Inv(Apply(h, Step<W, T>.Subscribe(w, device)))
  {
    var h' := Apply(h, Step<W, T>.Subscribe(w, device));
    forall v | v in h'.watchers
      ensures History(h'.published, h'.watchers[v]) && Signalled(h'.watchers[v], v in h'.subs)
      ensures v in h'.subs ==> Fresh(h'.phase, h'.seqNo, v, h'.watchers[v])
    {
      assert v == w || h'.watchers[v] == h.watchers[v];
    }
  }

  lemma RemoveKeeps<W, T>(h: Hub<W, T>, leaving: set<W>)
    requires Inv(h) && h.phase.Unlocked? && leaving <= h.watchers.Keys
    ensures Inv(Remove(h, leaving, leaving))
  {
    var h' := Remove(h, leaving, leaving);
    forall v | v in h'.watchers
      ensures History(h'.published, h'.watchers[v]) && Signalled(h'.watchers[v], v in h'.subs)
      ensures v in h'.subs ==> Fresh(h'.phase, h'.seqNo, v, h'.watchers[v])
    {
      assert h'.watchers[v] == if v in leaving then h.watchers[v].(owed := h.watchers[v].owed + 1) else h.watchers[v];
    }
  }

  lemma StepKeepsInv<W, T>(h: Hub<W, T>, step: Step<W, T>)
    requires Inv(h) && Enabled(h, step)
    ensures Inv(Apply(h, step))
  {
    match step
    case BeginPublish(body) => BeginKeeps(h, body);
    case Offer(w) => OfferKeeps(h, w);
    case Drain => DrainKeeps(h);
    case Resend => ResendKeeps(h);
    case EndPublish =>
    case Receive(w) => ReceiveKeeps(h, w);
    case Subscribe(w, device) => SubscribeKeeps(h, w, device);
    case Unsubscribe(w) => RemoveKeeps(h, {w});
    case DropDevice(device) => RemoveKeeps(h, Doomed(h, device));
    case Close(w) => CloseKeeps(h, w);
  }

  lemma {:induction false} RunKeepsInv<W, T>(h: Hub<W, T>, steps: seq<Step<W, T>>)
    requires Inv(h) && Schedule(h, steps)
    ensures Inv(Run(h, steps))
    decreases |steps|
  {
    if steps != [] {
      StepKeepsInv(h, steps[0]);
      RunKeepsInv(Apply(h, steps[0]), steps[1..]);
    }
  }

  // ----- what every run shows

  /** The innermost `default` of publish is dead code: no frame is ever dropped there. */
  lemma FinalSendAlwaysLands<W, T>(h: Hub<W, T>, steps: seq<Step<W, T>>)
    requires Init(h) && Schedule(h, steps)
    ensures Run(h, steps).missed == 0
  {
    RunKeepsInv(h, steps);
  }

  lemma DrainedIsEmpty<W, T>(h: Hub<W, T>)
    requires Inv(h) && h.phase.Resending?
    ensures h.phase.to in h.watchers && h.watchers[h.phase.to].updates == None
  {
    assert Fresh(h.phase, h.seqNo, h.phase.to, h.watchers[h.phase.to]);
  }

  lemma GoneOnce<W, T>(h: Hub<W, T>, w: W)
    requires Inv(h) && w in h.watchers
    ensures h.watchers[w].signals == if h.watchers[w].gone then 1 else 0
  {
  }

  lemma SubsAreKnown<W, T>(h: Hub<W, T>)
    requires Inv(h)
    ensures h.subs <= h.watchers.Keys
  {
  }

  lemma AtRest<W, T>(h: Hub<W, T>, w: W)
    requires Inv(h) && h.phase.Unlocked? && w in h.subs
    ensures w in h.watchers && |h.published| == h.seqNo
    ensures var x := h.watchers[w];
            if x.LastSeq() == h.seqNo then x.updates == None
            else x.LastSeq() < h.seqNo && x.updates == Some(h.published[h.seqNo - 1])
  {
    assert Fresh(h.phase, h.seqNo, w, h.watchers[w]);
  }

  /**
   * Between publishes a subscriber has either seen the newest frame or holds exactly it
   * in its channel, so a watcher behind the hub always has something to receive.
   */
  lemma NewestSeenOrPending<W, T>(h: Hub<W, T>, steps: seq<Step<W, T>>, w: W)
    requires Init(h) && Schedule(h, steps)
    requires Run(h, steps).phase.Unlocked? && w in Run(h, steps).subs
    ensures var e := Run(h, steps);
            w in e.watchers && |e.published| == e.seqNo
    ensures var e := Run(h, steps);
            var x := e.watchers[w];
            if x.LastSeq() == e.seqNo then x.updates == None
            else x.LastSeq() < e.seqNo && x.updates == Some(e.published[e.seqNo - 1])
  {
    RunKeepsInv(h, steps);
    AtRest(Run(h, steps), w);
  }

  /**
   * At every moment, dropped watchers and half-done publishes included: what a watcher
   * was handed and then received are published frames, in strictly increasing seq, and
   * the status hub always hands it one. The opening frame is the newest of its moment.
   */
  lemma WatcherSeesIncreasing<W, T>(h: Hub<W, T>, steps: seq<Step<W, T>>, w: W)
    requires Init(h) && Schedule(h, steps) && w in Run(h, steps).watchers
    ensures var e := Run(h, steps);
            var x := e.watchers[w];
            && (forall i, j :: 0 <= i < j < |x.seen| ==> x.seen[i].seqNo < x.seen[j].seqNo)
            && (forall i :: 0 <= i < |x.seen| ==> Published(e.published, x.seen[i]) && x.horizon < x.seen[i].seqNo)
            && (e.retain ==> x.opening.Some?)
            && (x.opening.Some? ==> x.opening.value.seqNo == x.horizon
                                    && (x.horizon > 0 ==> Published(e.published, x.opening.value)))
  {
    RunKeepsInv(h, steps);
  }

  /**
   * `gone` is closed at most once, never while subscribed, and once every caller that
   * removed the watcher has run its close(), exactly once.
   */
  lemma SignalledExactlyOnce<W, T>(h: Hub<W, T>, steps: seq<Step<W, T>>, w: W)
    requires Init(h) && Schedule(h, steps) && w in Run(h, steps).watchers
    ensures var e := Run(h, steps);
            var x := e.watchers[w];
            && x.signals <= 1
            && (x.gone <==> x.signals == 1)
            && (w in e.subs ==> x.signals == 0)
            && (w !in e.subs && x.owed == 0 ==> x.signals == 1)
  {
    RunKeepsInv(h, steps);
  }

  /**
   * What dropDevice does to every reachable hub: the device keeps no subscriber, each one
   * it had is owed its signal, and no other watcher's record changes.
   */
  lemma DropEndsOneDevice<W, T>(h: Hub<W, T>, steps: seq<Step<W, T>>, device: Id, w: W)
    requires Init(h) && Schedule(h, steps) && Run(h, steps).phase.Unlocked?
    requires w in Run(h, steps).watchers
    ensures var e := Run(h, steps);
            var d := Apply(e, DropDevice(device));
            w in d.watchers
    ensures var e := Run(h, steps);
            var d := Apply(e, DropDevice(device));
            if e.watchers[w].device == device then
              w !in d.subs && (w in e.subs ==> d.watchers[w].owed == 1 && d.watchers[w].signals == 0)
            else
              d.watchers[w] == e.watchers[w] && (w in d.subs <==> w in e.subs)
  {
    RunKeepsInv(h, steps);
  }
}
