/**
 * The edge client's two goroutines: Follow, which syncs and then waits, and watch, which
 * holds the wake stream and nudges Follow through a channel of capacity one. A run is any
 * interleaving of their steps with any answers from the network; `log` records it.
 */
module Wake {

  datatype Message = Listening | WakeUp | Heartbeat | Other

  datatype Code = Unimplemented | Unauthenticated | Transport

  datatype Event =
    | SyncBegan | Woken | TimedOut | Refused | Received(m: Message) | Failed(code: Code) | Backoff(seconds: nat)

  // Follow: at the top of its loop, inside SyncOnce, in its select, or returned.
  datatype Follow = Top | Syncing | Waiting | Returned

  // watch: opening a stream, reading it, holding a message it will nudge for, sleeping
  // after a failure, or returned.
  datatype Watch = Opening | Reading | Nudging | Sleeping | Retired

  datatype State = State(follow: Follow, watch: Watch, full: bool, backoff: nat, cancelled: bool, log: seq<Event>)

  datatype Step =
    | BeginSync
    | EndSync(refused: bool)        // refused: the token was not accepted
    | TakeWake
    | PollTimer
    | FollowCancelled
    | Open
    | OpenFails(code: Code)
    | Receive(m: Message)
    | Nudge
    | StreamEnds(code: Code)
    | SleepEnds
    | WatchCancelled
    | Cancel

  const START := State(Top, Opening, false, 1, false, [])
  const MAX_BACKOFF := 30

  predicate Nudges(m: Message) {
    m.Listening? || m.WakeUp?
  }

  function Min(a: nat, b: nat): nat {
    if a < b then a else b
  }

  // A failure the watcher survives puts it to sleep for the current backoff.
  function Fail(s: State, code: Code): State {
    if !code.Transport? || s.cancelled then s.(watch := Retired, log := s.log + [Failed(code)])
    else s.(watch := Sleeping, log := s.log + [Failed(code)] + [Backoff(s.backoff)])
  }

  function Apply(s: State, step: Step): State {
    match step
    case BeginSync => if s.follow.Top? then s.(follow := Syncing, log := s.log + [SyncBegan]) else s
    case EndSync(refused) =>
      if !s.follow.Syncing? then s
      else if refused then s.(follow := Returned, log := s.log + [Refused])
      else s.(follow := Waiting)
    case TakeWake => if s.follow.Waiting? && s.full then s.(follow := Top, full := false, log := s.log + [Woken]) else s
    case PollTimer => if s.follow.Waiting? then s.(follow := Top, log := s.log + [TimedOut]) else s
    case FollowCancelled => if s.cancelled && (s.follow.Waiting? || s.follow.Syncing?) then s.(follow := Returned) else s
    case Open => if s.watch.Opening? then s.(watch := if s.cancelled then Retired else Reading) else s
    case OpenFails(code) => if s.watch.Opening? then Fail(s, code) else s
    case Receive(m) =>
      if s.watch.Reading? then
        s.(backoff := 1, watch := if Nudges(m) then Nudging else Reading, log := s.log + [Received(m)])
      else s
    case Nudge => if s.watch.Nudging? then s.(watch := Reading, full := true) else s
    case StreamEnds(code) => if s.watch.Reading? then Fail(s, code) else s
    case SleepEnds =>
      if s.watch.Sleeping? then s.(watch := Opening, backoff := Min(s.backoff * 2, MAX_BACKOFF)) else s
    case WatchCancelled => if s.cancelled && s.watch.Sleeping? then s.(watch := Retired) else s
    case Cancel => s.(cancelled := true)
  }

  function Run(s: State, steps: seq<Step>): State
    decreases |steps|
  {
    if steps == [] then s else Run(Apply(s, steps[0]), steps[1..])
  }

  // ----- what the log says

  predicate NudgeAt(log: seq<Event>, i: nat) {
    i < |log| && (log[i] == Received(Listening) || log[i] == Received(WakeUp))
  }

  /** A message that calls for a sync came after the latest sync began. */
  ghost predicate Unserved(log: seq<Event>) {
    exists i: nat :: NudgeAt(log, i) && forall j :: i < j < |log| ==> !log[j].SyncBegan?
  }

  /** Sleeps begun since the last message of any kind. */
  function Failures(log: seq<Event>): nat {
    if log == [] || log[|log| - 1].Received? then 0
    else Failures(log[..|log| - 1]) + (if log[|log| - 1].Backoff? then 1 else 0)
  }

  function Wakings(log: seq<Event>): nat {
    if log == [] then 0 else Wakings(log[..|log| - 1]) + (if log[|log| - 1].Woken? then 1 else 0)
  }

  function Nudgings(log: seq<Event>): nat {
    if log == [] then 0 else Nudgings(log[..|log| - 1]) + (if NudgeAt(log, |log| - 1) then 1 else 0)
  }

  function Doubled(k: nat): nat {
    if k == 0 then 1 else 2 * Doubled(k - 1)
  }

  function BackoffAfter(k: nat): nat {
    Min(Doubled(k), MAX_BACKOFF)
  }

  // Every sleep lasted what the failures before it call for.
  ghost predicate SleepsRight(log: seq<Event>) {
    forall i :: 0 <= i < |log| && log[i].Backoff? ==> log[i].seconds == BackoffAfter(Failures(log[..i]))
  }

  ghost predicate StopsRight(s: State) {
    && (Refused in s.log ==> s.follow.Returned?)
    && (s.follow.Returned? ==> s.cancelled || Refused in s.log)
    && (Failed(Unimplemented) in s.log || Failed(Unauthenticated) in s.log ==> s.watch.Retired?)
    && (s.watch.Retired? ==> s.cancelled || Failed(Unimplemented) in s.log || Failed(Unauthenticated) in s.log)
  }

  ghost predicate Inv(s: State) {
    && (Unserved(s.log) ==> s.watch.Nudging? || s.full || s.follow.Top? || s.follow.Returned?)
    && StopsRight(s)
    && (s.watch.Sleeping? ==> Failures(s.log) > 0 && s.backoff == BackoffAfter(Failures(s.log) - 1))
    && (!s.watch.Sleeping? && !s.watch.Retired? ==> s.backoff == BackoffAfter(Failures(s.log)))
    && SleepsRight(s.log)
    && Wakings(s.log) + (if s.full then 1 else 0) + (if s.watch.Nudging? then 1 else 0) <= Nudgings(s.log)
  }

  lemma Logged(log: seq<Event>, e: Event)
    ensures Failures(log + [e]) == if e.Received? then 0 else Failures(log) + if e.Backoff? then 1 else 0
    ensures Wakings(log + [e]) == Wakings(log) + if e.Woken? then 1 else 0
    ensures Nudgings(log + [e]) == Nudgings(log) + if e.Received? && Nudges(e.m) then 1 else 0
    ensures Unserved(log + [e]) ==> !e.SyncBegan? && (Unserved(log) || (e.Received? && Nudges(e.m)))
    ensures SleepsRight(log) && (e.Backoff? ==> e.seconds == BackoffAfter(Failures(log))) ==> SleepsRight(log + [e])
  {
    hide BackoffAfter;
    var after := log + [e];
    assert after[..|log|] == log;
    if Unserved(after) {
      var i: nat :| NudgeAt(after, i) && forall j :: i < j < |after| ==> !after[j].SyncBegan?;
      assert after[|log|] == e;
      if i < |log| {
        assert NudgeAt(log, i);
        assert forall j :: i < j < |log| ==> log[j] == after[j];
      }
    }
    assert forall i :: 0 <= i < |log| ==> after[i] == log[i] && after[..i] == log[..i];
  }

  lemma StepStopsRight(s: State, step: Step)
    requires StopsRight(s)
    ensures StopsRight(Apply(s, step))
  {
    hide Nudges, Min;
  }

  lemma StepKeepsInv(s: State, step: Step)
    requires Inv(s)
    ensures Inv(Apply(s, step))
  {
    hide StopsRight, Unserved, SleepsRight, Failures, Wakings, Nudgings, BackoffAfter;
    var t := Apply(s, step);
    StepStopsRight(s, step);
    if t.watch.Sleeping? && !s.watch.Sleeping? {
      Logged(s.log, Failed(step.code));
      Logged(s.log + [Failed(step.code)], Backoff(s.backoff));
    } else if t.log != s.log {
      Logged(s.log, t.log[|t.log| - 1]);
    }
    BackoffSteps(Failures(s.log));
  }

  lemma BackoffSteps(k: nat)
    ensures BackoffAfter(0) == 1
    ensures k > 0 ==> BackoffAfter(k) == Min(BackoffAfter(k - 1) * 2, MAX_BACKOFF)
  {
  }

  lemma {:induction false} RunKeepsInv(s: State, steps: seq<Step>)
    requires Inv(s)
    ensures Inv(Run(s, steps))
    decreases |steps|
  {
    hide Inv;
    if steps != [] {
      StepKeepsInv(s, steps[0]);
      RunKeepsInv(Apply(s, steps[0]), steps[1..]);
    }
  }

  lemma Reached(steps: seq<Step>)
    ensures Inv(Run(START, steps))
  {
    assert Doubled(0) == 1;
    RunKeepsInv(START, steps);
  }

  /**
   * A wake or a greeting received since the latest sync began is never lost: the watcher
   * still holds it, or the channel is full, or Follow is about to sync, unless it was
   * cancelled or a sync refused. Then Follow's next select need not wait for the poll.
   */
  lemma NoLostWake(steps: seq<Step>)
    ensures var s := Run(START, steps);
            && (Unserved(s.log) ==> s.watch.Nudging? || s.full || s.follow.Top? || s.cancelled || Refused in s.log)
            && (Unserved(s.log) && s.follow.Waiting? && !s.watch.Nudging? ==> Apply(s, TakeWake).follow.Top?)
  {
    Reached(steps);
  }

  /** A message calls for a sync exactly when it is a greeting or a wake: only it sets the watcher nudging. */
  lemma NudgesWhenCalledFor(s: State, m: Message)
    requires s.watch.Reading?
    ensures var t := Apply(s, Receive(m));
            && (t.watch == if m == Listening || m == WakeUp then Nudging else Reading)
            && (t.watch.Nudging? ==> Apply(t, Nudge) == t.(watch := Reading, full := true))
            && t.backoff == 1
  {
  }

  /** Neither goroutine gives up by itself: Follow returns on a refused token, and the watcher
      retires on an answer that will not change, or else because of the cancellation. */
  lemma StopsOnlyWhenTold(steps: seq<Step>)
    ensures var s := Run(START, steps);
            && (Refused in s.log ==> s.follow.Returned?)
            && (s.follow.Returned? ==> s.cancelled || Refused in s.log)
            && (Failed(Unimplemented) in s.log || Failed(Unauthenticated) in s.log ==> s.watch.Retired?)
            && (s.watch.Retired? ==> s.cancelled || Failed(Unimplemented) in s.log || Failed(Unauthenticated) in s.log)
  {
    Reached(steps);
  }

  /** Any other failure is slept on and the stream opened again, however often it happens. */
  lemma FailureIsRetried(s: State)
    ensures s.watch.Opening? && !s.cancelled ==>
              Apply(s, OpenFails(Transport)).watch.Sleeping? && Apply(s, Open).watch.Reading?
    ensures s.watch.Reading? && !s.cancelled ==> Apply(s, StreamEnds(Transport)).watch.Sleeping?
    ensures s.watch.Sleeping? ==> Apply(s, SleepEnds) == s.(watch := Opening, backoff := Min(2 * s.backoff, 30))
    ensures s.follow.Syncing? ==> Apply(s, EndSync(false)).follow.Waiting?
    ensures s.follow.Waiting? ==> Apply(s, PollTimer).follow.Top?
  {
  }

  /** Messages coalesce but are never invented: no more wakings than messages for them. */
  lemma NoInventedWake(steps: seq<Step>)
    ensures Wakings(Run(START, steps).log) <= Nudgings(Run(START, steps).log)
  {
    Reached(steps);
  }

  /** The sleep after k failures without a message lasts min(2^k, 30) seconds. */
  lemma BackoffDoubles(steps: seq<Step>, i: nat)
    requires i < |Run(START, steps).log| && Run(START, steps).log[i].Backoff?
    ensures var log := Run(START, steps).log;
            log[i].seconds == Min(Doubled(Failures(log[..i])), 30)
  {
    Reached(steps);
    assert SleepsRight(Run(START, steps).log);
  }
}
