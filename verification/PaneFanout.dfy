/**
 * The pane sessions' one-step operations against the fine-grained fan-out. A session of a
 * hub with a source is a Fanout hub that does not retain; whatever receives fall between
 * the channel operations of a publish, it comes to the one-step publish followed by
 * receives, and every other operation is one step on both sides.
 */
module PaneFanout {
  import opened Options
  import opened Fanout
  import S = PaneSpec

  function Channels<W, T>(h: Hub<W, T>): map<W, S.Sub<T>> {
    map w | w in h.subs && w in h.watchers :: S.Sub(h.watchers[w].device, h.watchers[w].updates)
  }

  /** Between publishes, the hub is the session. */
  ghost predicate Matches<W, T>(h: Hub<W, T>, s: S.Session<W, T>) {
    && Inv(h) && !h.retain && h.phase.Unlocked?
    && s.current == h.current && s.seqNo == h.seqNo && s.subs == Channels(h)
  }

  lemma NewMatches<W, T>(h: Hub<W, T>)
    requires Init(h) && !h.retain
    ensures Matches(h, S.NewSession())
  {
    assert Channels(h) == map[];
  }

  // ----- one publish

  // What can happen while a publisher holds the lock: its own steps, and those that take none.
  predicate DuringPublish<W, T>(step: Step<W, T>) {
    step.Offer? || step.Drain? || step.Resend? || step.EndPublish? || step.Receive? || step.Close?
  }

  ghost predicate AllDuring<W, T>(steps: seq<Step<W, T>>) {
    forall i :: 0 <= i < |steps| ==> DuringPublish(steps[i])
  }

  // All such steps leave alone.
  ghost predicate SameBut<W, T>(h: Hub<W, T>, e: Hub<W, T>) {
    && e.retain == h.retain && e.seqNo == h.seqNo && e.current == h.current && e.subs == h.subs && e.published == h.published
    && e.watchers.Keys == h.watchers.Keys
    && forall w :: w in h.watchers ==> e.watchers[w].device == h.watchers[w].device
  }

  lemma DuringStep<W, T>(h: Hub<W, T>, step: Step<W, T>)
    requires Enabled(h, step) && DuringPublish(step)
    ensures SameBut(h, Apply(h, step))
  {
  }

  lemma {:induction false} DuringRun<W, T>(h: Hub<W, T>, steps: seq<Step<W, T>>)
    requires Schedule(h, steps) && AllDuring(steps)
    ensures SameBut(h, Run(h, steps))
    decreases |steps|
  {
    hide Apply, Enabled, DuringPublish;
    if steps != [] {
      assert DuringPublish(steps[0]);
      DuringStep(h, steps[0]);
      assert forall i :: 0 <= i < |steps[1..]| ==> steps[1..][i] == steps[i + 1];
      DuringRun(Apply(h, steps[0]), steps[1..]);
    }
  }

  function Received<W, T>(subs: map<W, S.Sub<T>>, who: set<W>): map<W, S.Sub<T>> {
    map w | w in subs :: if w in who then subs[w].(updates := None) else subs[w]
  }

  /** The subscribers a publish leaves with nothing pending: they received during it. */
  function CaughtUp<W, T>(e: Hub<W, T>): set<W> {
    set w | w in e.subs && w in e.watchers && e.watchers[w].updates == None
  }

  /**
   * A publish, its channel operations interleaved with any receives, is the one-step
   * publish to every channel, followed by the receives of those that came after the frame.
   */
  lemma PublishIsOneStep<W, T>(h: Hub<W, T>, s: S.Session<W, T>, body: T, steps: seq<Step<W, T>>)
    requires Matches(h, s)
    requires Schedule(Apply(h, Step<W, T>.BeginPublish(body)), steps) && AllDuring(steps)
    requires Run(Apply(h, Step<W, T>.BeginPublish(body)), steps).phase.Unlocked?
    ensures var e := Run(Apply(h, Step<W, T>.BeginPublish(body)), steps);
            var shown := S.ShowTo(s, body);
            Matches(e, shown.(subs := Received(shown.subs, CaughtUp(e))))
  {
    hide Inv;
    var begun := Apply(h, Step<W, T>.BeginPublish(body));
    StepKeepsInv(h, Step<W, T>.BeginPublish(body));
    RunKeepsInv(begun, steps);
    DuringRun(begun, steps);
    SubsAreKnown(h);
    var e := Run(begun, steps);
    NothingShown(h, s);
    forall w | w in e.subs ensures w in e.watchers && e.watchers[w].device == h.watchers[w].device
      ensures e.watchers[w].updates == None || e.watchers[w].updates == begun.current
    {
      AtRest(e, w);
      NewestIsCurrent(e);
    }
    var shown := S.ShowTo(s, body);
    assert Channels(e) == Received(shown.subs, CaughtUp(e));
  }

  lemma NothingShown<W, T>(h: Hub<W, T>, s: S.Session<W, T>)
    requires Matches(h, s)
    ensures s.subs == map[] <==> h.subs == {}
    ensures s.subs.Keys == h.subs
  {
    assert s.subs.Keys == h.subs;
  }

  lemma NewestIsCurrent<W, T>(h: Hub<W, T>)
    requires Inv(h) && h.current.Some? && h.seqNo > 0
    ensures |h.published| == h.seqNo && h.current == Some(h.published[h.seqNo - 1])
  {
  }

  // ----- the other operations

  lemma WatchIsOneStep<W, T>(h: Hub<W, T>, s: S.Session<W, T>, w: W, device: Id)
    requires Matches(h, s) && w !in h.watchers
    ensures Matches(Apply(h, Step<W, T>.Subscribe(w, device)), S.AddSub(true, s, w, device, true))
  {
    hide Inv;
    StepKeepsInv(h, Step<W, T>.Subscribe(w, device));
    SubsAreKnown(h);
    var t := Apply(h, Step<W, T>.Subscribe(w, device));
    assert Channels(t) == s.subs[w := S.Sub(device, None)];
  }

  lemma ReceiveIsOneStep<W, T>(h: Hub<W, T>, s: S.Session<W, T>, w: W)
    requires Matches(h, s) && w in h.subs && w in h.watchers && h.watchers[w].updates.Some?
    ensures Matches(Apply(h, Step<W, T>.Receive(w)), s.(subs := Received(s.subs, {w})))
  {
    hide Inv;
    StepKeepsInv(h, Step<W, T>.Receive(w));
    SubsAreKnown(h);
    assert Channels(Apply(h, Step<W, T>.Receive(w))) == Received(s.subs, {w});
  }

  lemma UnwatchIsOneStep<W, T>(h: Hub<W, T>, s: S.Session<W, T>, w: W)
    requires Matches(h, s) && S.SessionInv(true, s) && w in h.watchers
    ensures Matches(Apply(h, Step<W, T>.Unsubscribe(w)), S.RemoveSub(true, s, w))
  {
    hide Inv, S.Alternates;
    StepKeepsInv(h, Step<W, T>.Unsubscribe(w));
    SubsAreKnown(h);
    NothingShown(h, s);
    var t := Apply(h, Step<W, T>.Unsubscribe(w));
    assert Channels(t) == s.subs - {w};
    assert Channels(t) == map[] <==> t.subs == {} by { assert Channels(t).Keys == t.subs; }
  }

  lemma DropIsOneStep<W, T>(h: Hub<W, T>, s: S.Session<W, T>, device: Id)
    requires Matches(h, s) && S.SessionInv(true, s)
    ensures Matches(Apply(h, Step<W, T>.DropDevice(device)), S.DropFrom(true, s, device))
  {
    hide Inv, S.Alternates;
    StepKeepsInv(h, Step<W, T>.DropDevice(device));
    SubsAreKnown(h);
    NothingShown(h, s);
    var t := Apply(h, Step<W, T>.DropDevice(device));
    assert Channels(t) == map w | w in s.subs && s.subs[w].device != device :: s.subs[w];
    assert Channels(t) == map[] <==> t.subs == {} by { assert Channels(t).Keys == t.subs; }
  }
}
