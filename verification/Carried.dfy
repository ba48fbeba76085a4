/**
 * What the converters carry, field by field: the one wire message a value becomes and the
 * one value a message becomes.
 */
module Carried {
  import opened Options
  import opened Utf8
  import opened Projection
  import opened Convert

  // ----- numbers, times, states

  // The 32-bit integer congruent to n.
  predicate Int32Of(n: int, r: int) {
    -0x8000_0000 <= r < 0x8000_0000 && (r - n) % 0x1_0000_0000 == 0
  }

  predicate Uint32Of(n: int, r: int) {
    0 <= r < 0x1_0000_0000 && (r - n) % 0x1_0000_0000 == 0
  }

  // Go's zero time is left out; any other instant is its seconds and nanoseconds.
  predicate StampOf(t: Time, p: Option<Stamp>) {
    if t.sec == -62135596800 && t.nsec == 0 then p.None?
    else p.Some? && p.value.seconds == t.sec && Int32Of(t.nsec, p.value.nanos)
  }

  // The same instant in UTC, or Go's zero time for none.
  predicate TimeOf(p: Option<Stamp>, t: Time) {
    && t.utc && t.nsec < 1_000_000_000
    && match p
       case None => t.sec == -62135596800 && t.nsec == 0
       case Some(s) => t.sec * 1_000_000_000 + t.nsec == s.seconds * 1_000_000_000 + s.nanos
  }

  // A state the wire has no word for crosses as unspecified.
  predicate StateOf(s: Bytes, w: WireState) {
    match w
    case Working => s == Text("working")
    case NeedsInput => s == Text("needs_input")
    case Quiet => s == Text("quiet")
    case Unspecified => s != Text("working") && s != Text("needs_input") && s != Text("quiet")
    case Unlearned(_) => false
  }

  // And one this build has not learned comes back as none.
  predicate StateFor(w: WireState, s: Bytes) {
    match w
    case Working => s == Text("working")
    case NeedsInput => s == Text("needs_input")
    case Quiet => s == Text("quiet")
    case Unspecified => s == []
    case Unlearned(_) => s == []
  }

  lemma Congruent(n: int, r: int)
    ensures Int32Of(n, r) <==> r == Narrow(n)
    ensures Uint32Of(n, r) <==> r == n % TWO_32
  {
  }

  lemma StampIs(t: Time, p: Option<Stamp>)
    ensures StampOf(t, p) <==> p == ToStamp(t)
  {
    if p.Some? {
      Congruent(t.nsec, p.value.nanos);
    }
  }

  lemma TimeIs(p: Option<Stamp>, t: Time)
    ensures TimeOf(p, t) <==> t == FromStamp(p)
  {
  }

  lemma StateIs(s: Bytes, w: WireState)
    ensures StateOf(s, w) <==> w == StateToWire(s)
    ensures StateFor(w, s) <==> s == StateFromWire(w)
  {
    StateRound(s);
  }

  // ----- onto the wire

  predicate AgentOnWire(a: Agent, p: WireAgent) {
    && p.id == a.id && StateOf(a.state, p.state) && p.title == a.title && p.ask == a.ask && p.askId == a.askID
    && p.model == a.model && p.costUsd == a.costUSD && Int32Of(a.ctxPct, p.ctxPct) && p.attached == a.attached
    && p.now == a.now && StampOf(a.nowAt, p.nowAt) && StampOf(a.lastEvent, p.lastEvent)
    && (a.digest.Some? <==> p.digest.Some?)
    && (a.digest.Some? && p.digest.Some? ==>
          var d, note := a.digest.value, p.digest.value;
          note.headline == d.headline && note.bullets == d.bullets && StampOf(d.at, note.at))
  }

  predicate WorkspaceOnWire(w: Workspace, p: WireWorkspace) {
    && p.name == w.name && p.branch == w.branch && Int32Of(w.attention, p.attention) && |p.agents| == |w.agents|
    && forall i :: 0 <= i < |w.agents| ==> AgentOnWire(w.agents[i], p.agents[i])
  }

  predicate UsageOnWire(u: Usage, p: WireUsage) {
    && p.mode == u.mode && Int32Of(u.sessionPct, p.sessionPct) && p.sessionResets == u.sessionResets
    && Int32Of(u.weekAllPct, p.weekAllPct) && p.weekAllResets == u.weekAllResets
    && p.weekModelName == u.weekModelName && Int32Of(u.weekModelPct, p.weekModelPct)
    && p.weekModelResets == u.weekModelResets && StampOf(u.at, p.at)
    && p.agentTodayUsd == u.agentTodayUSD && p.agentWeekUsd == u.agentWeekUSD
  }

  /** The message is the status, with the time it is of. */
  predicate StatusOnWire(s: Status, at: Time, p: WireStatus) {
    && p.hostname == s.hostname && p.rookVersion == s.rookVersion && p.hostId == s.hostID && StampOf(at, p.at)
    && (s.usage.Some? <==> p.usage.Some?) && (s.usage.Some? && p.usage.Some? ==> UsageOnWire(s.usage.value, p.usage.value))
    && |p.workspaces| == |s.workspaces|
    && forall i :: 0 <= i < |s.workspaces| ==> WorkspaceOnWire(s.workspaces[i], p.workspaces[i])
  }

  lemma AgentOnWireIs(a: Agent, p: WireAgent)
    ensures AgentOnWire(a, p) <==> p == AgentToWire(a)
  {
    hide StampOf, ToStamp, StateOf, StateToWire, Int32Of, Narrow, Text;
    StateIs(a.state, p.state);
    Congruent(a.ctxPct, p.ctxPct);
    StampIs(a.nowAt, p.nowAt);
    StampIs(a.lastEvent, p.lastEvent);
    if a.digest.Some? && p.digest.Some? {
      StampIs(a.digest.value.at, p.digest.value.at);
    }
  }

  lemma WorkspaceOnWireIs(w: Workspace, p: WireWorkspace)
    ensures WorkspaceOnWire(w, p) <==> p == WorkspaceToWire(w)
  {
    hide AgentOnWire, AgentToWire, Int32Of, Narrow;
    Congruent(w.attention, p.attention);
    var all := WorkspaceToWire(w).agents;
    if |p.agents| == |all| {
      forall i | 0 <= i < |all| ensures AgentOnWire(w.agents[i], p.agents[i]) <==> p.agents[i] == all[i] {
        AgentOnWireIs(w.agents[i], p.agents[i]);
      }
    }
  }

  lemma UsageOnWireIs(u: Usage, p: WireUsage)
    ensures UsageOnWire(u, p) <==> p == UsageToWire(u)
  {
    hide StampOf, ToStamp, Int32Of, Narrow;
    Congruent(u.sessionPct, p.sessionPct);
    Congruent(u.weekAllPct, p.weekAllPct);
    Congruent(u.weekModelPct, p.weekModelPct);
    StampIs(u.at, p.at);
  }

  /** The encoder's message is the one that carries every field, and no other is. */
  lemma StatusOnWireIs(s: Status, at: Time, p: WireStatus)
    ensures StatusOnWire(s, at, p) <==> p == StatusToWire(s, at)
  {
    hide WorkspaceOnWire, WorkspaceToWire, UsageOnWire, UsageToWire, StampOf, ToStamp;
    StampIs(at, p.at);
    if s.usage.Some? && p.usage.Some? {
      UsageOnWireIs(s.usage.value, p.usage.value);
    }
    var all := StatusToWire(s, at).workspaces;
    if |p.workspaces| == |all| {
      forall i | 0 <= i < |all| ensures WorkspaceOnWire(s.workspaces[i], p.workspaces[i]) <==> p.workspaces[i] == all[i] {
        WorkspaceOnWireIs(s.workspaces[i], p.workspaces[i]);
      }
    }
  }

  // ----- off the wire

  predicate AgentOffWire(p: WireAgent, a: Agent) {
    && a.id == p.id && StateFor(p.state, a.state) && a.title == p.title && a.ask == p.ask && a.askID == p.askId
    && a.model == p.model && a.costUSD == p.costUsd && a.ctxPct == p.ctxPct && a.attached == p.attached
    && a.now == p.now && TimeOf(p.nowAt, a.nowAt) && TimeOf(p.lastEvent, a.lastEvent)
    && (a.digest.Some? <==> p.digest.Some?)
    && (a.digest.Some? && p.digest.Some? ==>
          var d, note := a.digest.value, p.digest.value;
          d.headline == note.headline && d.bullets == note.bullets && TimeOf(note.at, d.at))
  }

  predicate WorkspaceOffWire(p: WireWorkspace, w: Workspace) {
    && w.name == p.name && w.branch == p.branch && w.attention == p.attention && |w.agents| == |p.agents|
    && forall i :: 0 <= i < |p.agents| ==> AgentOffWire(p.agents[i], w.agents[i])
  }

  predicate UsageOffWire(p: WireUsage, u: Usage) {
    && u.mode == p.mode && u.sessionPct == p.sessionPct && u.sessionResets == p.sessionResets
    && u.weekAllPct == p.weekAllPct && u.weekAllResets == p.weekAllResets
    && u.weekModelName == p.weekModelName && u.weekModelPct == p.weekModelPct
    && u.weekModelResets == p.weekModelResets && TimeOf(p.at, u.at)
    && u.agentTodayUSD == p.agentTodayUsd && u.agentWeekUSD == p.agentWeekUsd
  }

  predicate StatusOffWire(p: WireStatus, s: Status) {
    && s.hostname == p.hostname && s.rookVersion == p.rookVersion && s.hostID == p.hostId
    && (s.usage.Some? <==> p.usage.Some?) && (s.usage.Some? && p.usage.Some? ==> UsageOffWire(p.usage.value, s.usage.value))
    && |s.workspaces| == |p.workspaces|
    && forall i :: 0 <= i < |p.workspaces| ==> WorkspaceOffWire(p.workspaces[i], s.workspaces[i])
  }

  lemma AgentOffWireIs(p: WireAgent, a: Agent)
    ensures AgentOffWire(p, a) <==> a == AgentFromWire(p)
  {
    hide TimeOf, FromStamp, StateFor, StateFromWire, Text;
    StateIs(a.state, p.state);
    TimeIs(p.nowAt, a.nowAt);
    TimeIs(p.lastEvent, a.lastEvent);
    if a.digest.Some? && p.digest.Some? {
      TimeIs(p.digest.value.at, a.digest.value.at);
    }
  }

  lemma WorkspaceOffWireIs(p: WireWorkspace, w: Workspace)
    ensures WorkspaceOffWire(p, w) <==> w == WorkspaceFromWire(p)
  {
    hide AgentOffWire, AgentFromWire;
    var all := WorkspaceFromWire(p).agents;
    if |w.agents| == |all| {
      forall i | 0 <= i < |all| ensures AgentOffWire(p.agents[i], w.agents[i]) <==> w.agents[i] == all[i] {
        AgentOffWireIs(p.agents[i], w.agents[i]);
      }
    }
  }

  /** The decoder's status is the one that carries every field back, and no other is. */
  lemma StatusOffWireIs(p: WireStatus, s: Status)
    ensures StatusOffWire(p, s) <==> s == StatusFromWire(p)
  {
    hide WorkspaceOffWire, WorkspaceFromWire, TimeOf, FromStamp;
    if s.usage.Some? && p.usage.Some? {
      TimeIs(p.usage.value.at, s.usage.value.at);
    }
    var all := StatusFromWire(p).workspaces;
    if |s.workspaces| == |all| {
      forall i | 0 <= i < |all| ensures WorkspaceOffWire(p.workspaces[i], s.workspaces[i]) <==> s.workspaces[i] == all[i] {
        WorkspaceOffWireIs(p.workspaces[i], s.workspaces[i]);
      }
    }
  }

  // ----- frames and digests

  /** A frame's measures cross as 32-bit numbers, everything else as it is, both ways. */
  lemma PaneCarried(f: PaneFrame, p: WireFrame)
    ensures p == PaneToWire(f) <==>
              && Uint32Of(f.cols, p.cols) && Uint32Of(f.rows, p.rows)
              && Uint32Of(f.cursorX, p.cursorX) && Uint32Of(f.cursorY, p.cursorY)
              && p.cursorVisible == f.cursorVisible && p.lines == f.lines
    ensures f == PaneFromWire(p) <==>
              && f.cols == p.cols && f.rows == p.rows && f.cursorX == p.cursorX && f.cursorY == p.cursorY
              && f.cursorVisible == p.cursorVisible && f.lines == p.lines
  {
    hide Uint32Of;
    Congruent(f.cols, p.cols);
    Congruent(f.rows, p.rows);
    Congruent(f.cursorX, p.cursorX);
    Congruent(f.cursorY, p.cursorY);
  }

  /** A digest crosses as it is but for its time, which comes back in UTC. */
  lemma DigestCarried(d: Digest, p: WireDigest)
    ensures var same := && p.id == d.id && p.sessionId == d.sessionID && p.headline == d.headline && p.bullets == d.bullets
                        && p.fullText == d.fullText && p.prompt == d.prompt && p.reply == d.reply
                        && p.replyState == d.replyState && p.model == d.model && p.costUsd == d.costUSD;
            && (p == DigestToWire(d) <==> same && StampOf(d.at, p.at))
            && (d == DigestFromWire(p) <==> same && TimeOf(p.at, d.at))
  {
    hide StampOf, ToStamp, TimeOf, FromStamp;
    StampIs(d.at, p.at);
    TimeIs(p.at, d.at);
  }
}
