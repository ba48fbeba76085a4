/**
 * The converters between the bounded snapshot types and their wire messages. Go's `int` is
 * 64 bits wide and is narrowed to the wire's 32; nil and empty lists are one value here.
 */
module Convert {
  import opened Options
  import opened Utf8
  import opened Projection
  import E = Envelope

  type Stamp = E.Stamp

  datatype WireState = Unspecified | Working | NeedsInput | Quiet | Unlearned(code: int)

  datatype WireDigestNote = WireDigestNote(headline: Bytes, bullets: seq<Bytes>, at: Option<Stamp>)

  datatype WireAgent = WireAgent(
    id: Bytes, state: WireState, title: Bytes, ask: Bytes, askId: Bytes, model: Bytes, costUsd: real,
    ctxPct: int, digest: Option<WireDigestNote>, lastEvent: Option<Stamp>, now: Bytes, nowAt: Option<Stamp>, attached: bool)

  datatype WireWorkspace = WireWorkspace(name: Bytes, branch: Bytes, attention: int, agents: seq<WireAgent>)

  datatype WireUsage = WireUsage(
    mode: Bytes, sessionPct: int, sessionResets: Bytes, weekAllPct: int, weekAllResets: Bytes,
    weekModelName: Bytes, weekModelPct: int, weekModelResets: Bytes, at: Option<Stamp>,
    agentTodayUsd: real, agentWeekUsd: real)

  datatype WireStatus = WireStatus(
    hostname: Bytes, rookVersion: Bytes, workspaces: seq<WireWorkspace>, at: Option<Stamp>, hostId: Bytes,
    usage: Option<WireUsage>)

  datatype WireFrame = WireFrame(
    cols: E.U32, rows: E.U32, cursorX: E.U32, cursorY: E.U32, cursorVisible: bool, lines: seq<PaneRow>)

  datatype WireDigest = WireDigest(
    id: Bytes, sessionId: Bytes, headline: Bytes, bullets: seq<Bytes>, fullText: Bytes, prompt: Bytes,
    reply: Bytes, replyState: Bytes, at: Option<Stamp>, model: Bytes, costUsd: real)

  const TWO_32 := 0x1_0000_0000
  const NANO := 1_000_000_000

  // ----- numbers and times

  function Narrow(n: int): (r: int)
    ensures -TWO_32 / 2 <= r < TWO_32 / 2
  {
    (n + TWO_32 / 2) % TWO_32 - TWO_32 / 2
  }

  predicate InInt32(n: int) {
    -TWO_32 / 2 <= n < TWO_32 / 2
  }

  function ToStamp(t: Time): Option<Stamp> {
    if t.IsZero() then None else Some(E.Stamp(t.sec, Narrow(t.nsec)))
  }

  function FromStamp(p: Option<Stamp>): Time {
    match p
    case None => ZERO_TIME
    case Some(s) => Time(s.seconds + s.nanos / NANO, s.nanos % NANO, true)
  }

  predicate PlainTime(t: Time) {
    t.utc && t.nsec < NANO
  }

  lemma TimeRound(t: Time)
    ensures FromStamp(ToStamp(t)) == t <==> PlainTime(t)
    ensures PlainTime(FromStamp(ToStamp(t)))
  {
  }

  lemma NarrowKeeps(n: int)
    ensures Narrow(n) == n <==> InInt32(n)
  {
  }

  // ----- states

  const WORKING := Text("working")
  const NEEDS_INPUT := Text("needs_input")
  const QUIET := Text("quiet")

  function StateToWire(s: Bytes): WireState {
    if s == WORKING then Working
    else if s == NEEDS_INPUT then NeedsInput
    else if s == QUIET then Quiet
    else Unspecified
  }

  function StateFromWire(s: WireState): Bytes {
    match s
    case Working => WORKING
    case NeedsInput => NEEDS_INPUT
    case Quiet => QUIET
    case _ => []
  }

  predicate KnownState(s: Bytes) {
    s == WORKING || s == NEEDS_INPUT || s == QUIET || s == []
  }

  lemma StateRound(s: Bytes)
    ensures StateFromWire(StateToWire(s)) == s <==> KnownState(s)
    ensures KnownState(StateFromWire(StateToWire(s)))
  {
    assert |WORKING| == 7 && |NEEDS_INPUT| == 11 && |QUIET| == 5;
  }

  // ----- the messages

  function NoteToWire(d: AgentDigest): WireDigestNote {
    WireDigestNote(d.headline, d.bullets, ToStamp(d.at))
  }

  function NoteFromWire(p: WireDigestNote): AgentDigest {
    AgentDigest(p.headline, p.bullets, FromStamp(p.at))
  }

  function AgentToWire(a: Agent): WireAgent {
    WireAgent(a.id, StateToWire(a.state), a.title, a.ask, a.askID, a.model, a.costUSD, Narrow(a.ctxPct),
              if a.digest.Some? then Some(NoteToWire(a.digest.value)) else None,
              ToStamp(a.lastEvent), a.now, ToStamp(a.nowAt), a.attached)
  }

  function AgentFromWire(p: WireAgent): Agent {
    Agent(p.id, StateFromWire(p.state), p.title, p.ask, p.askId, p.model, p.costUsd, p.ctxPct,
          if p.digest.Some? then Some(NoteFromWire(p.digest.value)) else None,
          p.attached, p.now, FromStamp(p.nowAt), FromStamp(p.lastEvent))
  }

  function WorkspaceToWire(w: Workspace): WireWorkspace {
    WireWorkspace(w.name, w.branch, Narrow(w.attention), seq(|w.agents|, i requires 0 <= i < |w.agents| => AgentToWire(w.agents[i])))
  }

  function WorkspaceFromWire(p: WireWorkspace): Workspace {
    Workspace(p.name, p.branch, p.attention, seq(|p.agents|, i requires 0 <= i < |p.agents| => AgentFromWire(p.agents[i])))
  }

  function UsageToWire(u: Usage): WireUsage {
    WireUsage(u.mode, Narrow(u.sessionPct), u.sessionResets, Narrow(u.weekAllPct), u.weekAllResets,
              u.weekModelName, Narrow(u.weekModelPct), u.weekModelResets, ToStamp(u.at), u.agentTodayUSD, u.agentWeekUSD)
  }

  function UsageFromWire(p: WireUsage): Usage {
    Usage(p.mode, p.sessionPct, p.sessionResets, p.weekAllPct, p.weekAllResets, p.weekModelName, p.weekModelPct,
          p.weekModelResets, FromStamp(p.at), p.agentTodayUsd, p.agentWeekUsd)
  }

  function StatusToWire(s: Status, at: Time): WireStatus {
    WireStatus(s.hostname, s.rookVersion,
               seq(|s.workspaces|, i requires 0 <= i < |s.workspaces| => WorkspaceToWire(s.workspaces[i])),
               ToStamp(at), s.hostID, if s.usage.Some? then Some(UsageToWire(s.usage.value)) else None)
  }

  function StatusFromWire(p: WireStatus): Status {
    Status(p.hostname, p.rookVersion, p.hostId,
           seq(|p.workspaces|, i requires 0 <= i < |p.workspaces| => WorkspaceFromWire(p.workspaces[i])),
           if p.usage.Some? then Some(UsageFromWire(p.usage.value)) else None)
  }

  // Style runs are 32-bit unsigned on both sides and rows carry over as they are.
  function PaneToWire(f: PaneFrame): WireFrame {
    WireFrame(f.cols % TWO_32, f.rows % TWO_32, f.cursorX % TWO_32, f.cursorY % TWO_32, f.cursorVisible, f.lines)
  }

  function PaneFromWire(p: WireFrame): PaneFrame {
    PaneFrame(p.cols, p.rows, p.cursorX, p.cursorY, p.cursorVisible, p.lines)
  }

  function DigestToWire(d: Digest): WireDigest {
    WireDigest(d.id, d.sessionID, d.headline, d.bullets, d.fullText, d.prompt, d.reply, d.replyState,
               ToStamp(d.at), d.model, d.costUSD)
  }

  function DigestFromWire(p: WireDigest): Digest {
    Digest(p.id, p.sessionId, p.headline, p.bullets, p.fullText, p.prompt, p.reply, p.replyState,
           FromStamp(p.at), p.model, p.costUsd)
  }

  // ----- the append loops

  method EncodeStatus(s: Status, at: Time) returns (out: WireStatus)
    ensures out == StatusToWire(s, at)
  {
    var usage: Option<WireUsage> := None;
    if s.usage.Some? {
      usage := Some(UsageToWire(s.usage.value));
    }
    out := WireStatus(s.hostname, s.rookVersion, [], None, s.hostID, usage);
    if !at.IsZero() {
      out := out.(at := Some(E.Stamp(at.sec, Narrow(at.nsec))));
    }
    for i := 0 to |s.workspaces|
      invariant out == StatusToWire(s, at).(workspaces := out.workspaces) && |out.workspaces| == i
      invariant forall k :: 0 <= k < i ==> out.workspaces[k] == WorkspaceToWire(s.workspaces[k])
    {
      var w := s.workspaces[i];
      var pw := WireWorkspace(w.name, w.branch, Narrow(w.attention), []);
      for j := 0 to |w.agents|
        invariant pw == WorkspaceToWire(w).(agents := pw.agents) && |pw.agents| == j
        invariant forall k :: 0 <= k < j ==> pw.agents[k] == AgentToWire(w.agents[k])
      {
        var a := w.agents[j];
        var pa := WireAgent(a.id, StateToWire(a.state), a.title, a.ask, a.askID, a.model, a.costUSD, Narrow(a.ctxPct),
                            None, None, [], None, false);
        if a.digest.Some? {
          var note := WireDigestNote(a.digest.value.headline, a.digest.value.bullets, None);
          if !a.digest.value.at.IsZero() {
            note := note.(at := Some(E.Stamp(a.digest.value.at.sec, Narrow(a.digest.value.at.nsec))));
          }
          pa := pa.(digest := Some(note));
        }
        pa := pa.(attached := a.attached, now := a.now);
        if !a.nowAt.IsZero() {
          pa := pa.(nowAt := Some(E.Stamp(a.nowAt.sec, Narrow(a.nowAt.nsec))));
        }
        if !a.lastEvent.IsZero() {
          pa := pa.(lastEvent := Some(E.Stamp(a.lastEvent.sec, Narrow(a.lastEvent.nsec))));
        }
        pw := pw.(agents := pw.agents + [pa]);
      }
      assert pw.agents == WorkspaceToWire(w).agents;
      out := out.(workspaces := out.workspaces + [pw]);
    }
    assert out.workspaces == StatusToWire(s, at).workspaces;
  }

  method DecodeStatus(p: WireStatus) returns (s: Status)
    ensures s == StatusFromWire(p)
  {
    var usage: Option<Usage> := None;
    if p.usage.Some? {
      usage := Some(UsageFromWire(p.usage.value));
    }
    s := Status(p.hostname, p.rookVersion, p.hostId, [], usage);
    for i := 0 to |p.workspaces|
      invariant s == StatusFromWire(p).(workspaces := s.workspaces) && |s.workspaces| == i
      invariant forall k :: 0 <= k < i ==> s.workspaces[k] == WorkspaceFromWire(p.workspaces[k])
    {
      var pw := p.workspaces[i];
      var w := Workspace(pw.name, pw.branch, pw.attention, []);
      for j := 0 to |pw.agents|
        invariant w == WorkspaceFromWire(pw).(agents := w.agents) && |w.agents| == j
        invariant forall k :: 0 <= k < j ==> w.agents[k] == AgentFromWire(pw.agents[k])
      {
        w := w.(agents := w.agents + [AgentFromWire(pw.agents[j])]);
      }
      assert w.agents == WorkspaceFromWire(pw).agents;
      s := s.(workspaces := s.workspaces + [w]);
    }
    assert s.workspaces == StatusFromWire(p).workspaces;
  }

  method EncodePane(f: PaneFrame) returns (out: WireFrame)
    ensures out == PaneToWire(f)
  {
    out := WireFrame(f.cols % TWO_32, f.rows % TWO_32, f.cursorX % TWO_32, f.cursorY % TWO_32, f.cursorVisible, []);
    for i := 0 to |f.lines|
      invariant out == PaneToWire(f).(lines := f.lines[..i])
    {
      var r := f.lines[i];
      var pr := PaneRow(r.text, []);
      for j := 0 to |r.runs|
        invariant pr == PaneRow(r.text, r.runs[..j])
      {
        var run := r.runs[j];
        pr := pr.(runs := pr.runs + [StyleRun(run.start, run.length, run.fg, run.bg, run.attrs)]);
      }
      assert pr.runs == r.runs;
      out := out.(lines := out.lines + [pr]);
    }
  }

  method DecodePane(p: WireFrame) returns (f: PaneFrame)
    ensures f == PaneFromWire(p)
  {
    f := PaneFrame(p.cols, p.rows, p.cursorX, p.cursorY, p.cursorVisible, []);
    for i := 0 to |p.lines|
      invariant f == PaneFromWire(p).(lines := p.lines[..i])
    {
      var pr := p.lines[i];
      var r := PaneRow(pr.text, []);
      for j := 0 to |pr.runs|
        invariant r == PaneRow(pr.text, pr.runs[..j])
      {
        var run := pr.runs[j];
        r := r.(runs := r.runs + [StyleRun(run.start, run.length, run.fg, run.bg, run.attrs)]);
      }
      assert r.runs == pr.runs;
      f := f.(lines := f.lines + [r]);
    }
  }

  // ----- round trips

  predicate PlainAgent(a: Agent) {
    && KnownState(a.state) && InInt32(a.ctxPct) && PlainTime(a.nowAt) && PlainTime(a.lastEvent)
    && (a.digest.Some? ==> PlainTime(a.digest.value.at))
  }

  predicate PlainWorkspace(w: Workspace) {
    InInt32(w.attention) && forall a :: a in w.agents ==> PlainAgent(a)
  }

  predicate PlainUsage(u: Usage) {
    InInt32(u.sessionPct) && InInt32(u.weekAllPct) && InInt32(u.weekModelPct) && PlainTime(u.at)
  }

  /** States the wire knows (or none), counters of 32 bits, times in UTC. */
  predicate PlainStatus(s: Status) {
    (s.usage.Some? ==> PlainUsage(s.usage.value)) && forall w :: w in s.workspaces ==> PlainWorkspace(w)
  }

  function AgentTrip(a: Agent): Agent {
    AgentFromWire(AgentToWire(a))
  }

  function WorkspaceTrip(w: Workspace): Workspace {
    WorkspaceFromWire(WorkspaceToWire(w))
  }

  function UsageTrip(u: Usage): Usage {
    UsageFromWire(UsageToWire(u))
  }

  function StatusTrip(s: Status, at: Time): Status {
    StatusFromWire(StatusToWire(s, at))
  }

  lemma AgentRound(a: Agent)
    ensures AgentTrip(a) == a <==> PlainAgent(a)
    ensures PlainAgent(AgentTrip(a))
  {
    hide Narrow, ToStamp, FromStamp, PlainTime, StateToWire, StateFromWire, KnownState;
    StateRound(a.state);
    NarrowKeeps(a.ctxPct);
    TimeRound(a.nowAt);
    TimeRound(a.lastEvent);
    if a.digest.Some? {
      TimeRound(a.digest.value.at);
    }
  }

  lemma WorkspaceRound(w: Workspace)
    ensures WorkspaceTrip(w) == w <==> PlainWorkspace(w)
    ensures PlainWorkspace(WorkspaceTrip(w))
  {
    hide Narrow, AgentToWire, AgentFromWire, PlainAgent;
    NarrowKeeps(w.attention);
    var t := WorkspaceTrip(w);
    forall i | 0 <= i < |w.agents|
      ensures t.agents[i] == AgentTrip(w.agents[i]) && PlainAgent(t.agents[i])
      ensures t.agents[i] == w.agents[i] <==> PlainAgent(w.agents[i])
    {
      AgentRound(w.agents[i]);
    }
    assert t.agents == w.agents <==> forall i :: 0 <= i < |w.agents| ==> t.agents[i] == w.agents[i];
  }

  lemma UsageRound(u: Usage)
    ensures UsageTrip(u) == u <==> PlainUsage(u)
    ensures PlainUsage(UsageTrip(u))
  {
    hide Narrow, ToStamp, FromStamp, PlainTime;
    NarrowKeeps(u.sessionPct);
    NarrowKeeps(u.weekAllPct);
    NarrowKeeps(u.weekModelPct);
    TimeRound(u.at);
  }

  /**
   * A status survives the wire unchanged exactly when it is plain; any other is brought to
   * a plain one, by the one trip. So a second trip changes nothing more.
   */
  lemma StatusRound(s: Status, at: Time, at2: Time)
    ensures StatusTrip(s, at) == s <==> PlainStatus(s)
    ensures PlainStatus(StatusTrip(s, at))
    ensures StatusTrip(StatusTrip(s, at), at2) == StatusTrip(s, at)
  {
    StatusRoundOnce(s, at);
    StatusRoundOnce(StatusTrip(s, at), at2);
  }

  lemma StatusRoundOnce(s: Status, at: Time)
    ensures StatusTrip(s, at) == s <==> PlainStatus(s)
    ensures PlainStatus(StatusTrip(s, at))
  {
    hide WorkspaceToWire, WorkspaceFromWire, UsageToWire, UsageFromWire, PlainWorkspace, PlainUsage, ToStamp;
    if s.usage.Some? {
      UsageRound(s.usage.value);
    }
    var t := StatusTrip(s, at);
    forall i | 0 <= i < |s.workspaces|
      ensures t.workspaces[i] == WorkspaceTrip(s.workspaces[i]) && PlainWorkspace(t.workspaces[i])
      ensures t.workspaces[i] == s.workspaces[i] <==> PlainWorkspace(s.workspaces[i])
    {
      WorkspaceRound(s.workspaces[i]);
    }
    assert t.workspaces == s.workspaces <==> forall i :: 0 <= i < |s.workspaces| ==> t.workspaces[i] == s.workspaces[i];
  }

  lemma WorkspaceStaysBounded(w: Workspace)
    requires WorkspaceBounded(w)
    ensures WorkspaceBounded(WorkspaceTrip(w))
  {
    hide ToStamp, FromStamp;
    var t := WorkspaceTrip(w);
    forall a | a in t.agents ensures AgentBounded(a) {
      var i :| 0 <= i < |t.agents| && t.agents[i] == a;
      assert w.agents[i] in w.agents && AgentBounded(w.agents[i]);
      assert a == AgentTrip(w.agents[i]);
      NarrowKeeps(w.agents[i].ctxPct);
    }
  }

  /** The wire never undoes a clamp: a bounded status is bounded on the other side. */
  lemma StatusStaysBounded(s: Status, at: Time)
    requires StatusBounded(s)
    ensures StatusBounded(StatusTrip(s, at))
  {
    hide WorkspaceToWire, WorkspaceFromWire, ToStamp, FromStamp, WorkspaceBounded;
    var t := StatusTrip(s, at);
    forall w | w in t.workspaces ensures WorkspaceBounded(w) {
      var i :| 0 <= i < |t.workspaces| && t.workspaces[i] == w;
      assert s.workspaces[i] in s.workspaces;
      assert w == WorkspaceTrip(s.workspaces[i]);
      WorkspaceStaysBounded(s.workspaces[i]);
    }
  }

  predicate PlainFrame(f: PaneFrame) {
    0 <= f.cols < TWO_32 && 0 <= f.rows < TWO_32 && 0 <= f.cursorX < TWO_32 && 0 <= f.cursorY < TWO_32
  }

  /** Frames with unsigned 32-bit measures and wire frames are in one-to-one correspondence. */
  lemma PaneRound(f: PaneFrame, p: WireFrame)
    ensures PaneFromWire(PaneToWire(f)) == f <==> PlainFrame(f)
    ensures PaneToWire(PaneFromWire(p)) == p && PlainFrame(PaneFromWire(p))
  {
  }

  /** A clamped frame is plain unless its cursor, which no clamp bounds above, is far out. */
  lemma ClampedPaneIsPlain(f: PaneFrame)
    ensures PlainFrame(ClampPane(f)) <==> f.cursorX < TWO_32 && f.cursorY < TWO_32
  {
  }

  lemma DigestRound(d: Digest)
    ensures DigestFromWire(DigestToWire(d)) == d <==> PlainTime(d.at)
    ensures var t := DigestFromWire(DigestToWire(d)); DigestFromWire(DigestToWire(t)) == t
  {
    hide ToStamp, FromStamp, PlainTime;
    TimeRound(d.at);
    TimeRound(FromStamp(ToStamp(d.at)));
  }
}
