/**
 * The bounded snapshot a machine publishes, its pane frames and its digests, with the
 * in-place clamps that bound them. The structs are values; the `*Ref` classes stand for
 * the struct a method updates in place, which is what Clamp does.
 */
module Projection {
  import opened Options
  import opened Utf8

  // An instant as seconds and nanoseconds from the Unix epoch, and whether its location
  // is UTC. `ZERO_TIME` is Go's zero time, 1 January of year 1.
  datatype Time = Time(sec: int, nsec: nat, utc: bool) {
    predicate IsZero() { sec == ZERO_TIME.sec && nsec == 0 }
  }

  const ZERO_TIME := Time(-62135596800, 0, true)

  datatype AgentDigest = AgentDigest(headline: Bytes, bullets: seq<Bytes>, at: Time)

  datatype Agent = Agent(
    id: Bytes, state: Bytes, title: Bytes, ask: Bytes, askID: Bytes, model: Bytes, costUSD: real,
    ctxPct: int, digest: Option<AgentDigest>, attached: bool, now: Bytes, nowAt: Time, lastEvent: Time)

  datatype Workspace = Workspace(name: Bytes, branch: Bytes, attention: int, agents: seq<Agent>)

  datatype Usage = Usage(
    mode: Bytes, sessionPct: int, sessionResets: Bytes, weekAllPct: int, weekAllResets: Bytes,
    weekModelName: Bytes, weekModelPct: int, weekModelResets: Bytes, at: Time,
    agentTodayUSD: real, agentWeekUSD: real)

  datatype Status = Status(
    hostname: Bytes, rookVersion: Bytes, hostID: Bytes, workspaces: seq<Workspace>, usage: Option<Usage>)

  datatype StyleRun = StyleRun(start: nat, length: nat, fg: nat, bg: nat, attrs: nat)

  datatype PaneRow = PaneRow(text: Bytes, runs: seq<StyleRun>)

  datatype PaneFrame = PaneFrame(
    cols: int, rows: int, cursorX: int, cursorY: int, cursorVisible: bool, lines: seq<PaneRow>)

  datatype Digest = Digest(
    id: Bytes, sessionID: Bytes, headline: Bytes, bullets: seq<Bytes>, fullText: Bytes, prompt: Bytes,
    reply: Bytes, replyState: Bytes, at: Time, model: Bytes, costUSD: real)

  const MAX_ASK_ID := 128
  const MAX_WORKSPACES := 100
  const MAX_AGENTS := 50
  const MAX_SHORT := 200
  const MAX_ASK := 2000
  const MAX_HEADLINE := 400
  const MAX_BULLETS := 6
  const MAX_BULLET := 400
  const MAX_COLS := 500
  const MAX_ROWS := 200
  const MAX_ROW_TEXT := MAX_COLS * 4
  const MAX_DIGEST_BULLETS := 8
  const MAX_FULL_TEXT := 128 * 1024
  const MAX_SMALL := 8 * 1024

  // ----- what a clamp leaves

  function Truncate<T>(xs: seq<T>, n: nat): seq<T> {
    if |xs| > n then xs[..n] else xs
  }

  function ClipEach(xs: seq<Bytes>, n: nat): seq<Bytes> {
    seq(|xs|, i requires 0 <= i < |xs| => Clip(xs[i], n))
  }

  function ClampUsage(u: Usage): Usage {
    u.(mode := Clip(u.mode, 32), sessionResets := Clip(u.sessionResets, 100),
       weekAllResets := Clip(u.weekAllResets, 100), weekModelName := Clip(u.weekModelName, 64),
       weekModelResets := Clip(u.weekModelResets, 100))
  }

  // A digest left without a headline is dropped.
  function ClampAgentDigest(d: AgentDigest): Option<AgentDigest> {
    var headline := Clip(d.headline, MAX_HEADLINE);
    if headline == [] then None
    else Some(d.(headline := headline, bullets := ClipEach(Truncate(d.bullets, MAX_BULLETS), MAX_BULLET)))
  }

  function ClampAgent(a: Agent): Agent {
    a.(id := Clip(a.id, MAX_ASK_ID), state := Clip(a.state, MAX_SHORT), title := Clip(a.title, MAX_SHORT),
       ask := Clip(a.ask, MAX_ASK), askID := Clip(a.askID, MAX_ASK_ID), model := Clip(a.model, MAX_SHORT),
       now := Clip(a.now, MAX_SHORT), ctxPct := if a.ctxPct < 0 || a.ctxPct > 999 then 0 else a.ctxPct,
       digest := if a.digest.Some? then ClampAgentDigest(a.digest.value) else None)
  }

  function ClampAgents(xs: seq<Agent>): seq<Agent> {
    seq(|xs|, i requires 0 <= i < |xs| => ClampAgent(xs[i]))
  }

  function ClampWorkspace(w: Workspace): Workspace {
    w.(name := Clip(w.name, MAX_SHORT), branch := Clip(w.branch, MAX_SHORT),
       agents := ClampAgents(Truncate(w.agents, MAX_AGENTS)))
  }

  function ClampWorkspaces(xs: seq<Workspace>): seq<Workspace> {
    seq(|xs|, i requires 0 <= i < |xs| => ClampWorkspace(xs[i]))
  }

  function ClampStatus(s: Status): Status {
    Status(Clip(s.hostname, MAX_SHORT), Clip(s.rookVersion, MAX_SHORT), Clip(s.hostID, MAX_ASK_ID),
           ClampWorkspaces(Truncate(s.workspaces, MAX_WORKSPACES)),
           if s.usage.Some? then Some(ClampUsage(s.usage.value)) else None)
  }

  function ClampRow(r: PaneRow): PaneRow {
    PaneRow(Clip(r.text, MAX_ROW_TEXT), Truncate(r.runs, MAX_COLS))
  }

  function ClampRows(xs: seq<PaneRow>): seq<PaneRow> {
    seq(|xs|, i requires 0 <= i < |xs| => ClampRow(xs[i]))
  }

  function ClampPane(f: PaneFrame): PaneFrame {
    f.(cols := if f.cols < 0 || f.cols > MAX_COLS then MAX_COLS else f.cols,
       rows := if f.rows < 0 || f.rows > MAX_ROWS then MAX_ROWS else f.rows,
       cursorX := if f.cursorX < 0 then 0 else f.cursorX,
       cursorY := if f.cursorY < 0 then 0 else f.cursorY,
       lines := ClampRows(Truncate(f.lines, MAX_ROWS)))
  }

  function ClampDigest(d: Digest): Digest {
    d.(id := Clip(d.id, MAX_ASK_ID), sessionID := Clip(d.sessionID, MAX_ASK_ID),
       headline := Clip(d.headline, MAX_HEADLINE),
       bullets := ClipEach(Truncate(d.bullets, MAX_DIGEST_BULLETS), MAX_BULLET),
       fullText := Clip(d.fullText, MAX_FULL_TEXT), prompt := Clip(d.prompt, MAX_SMALL),
       reply := Clip(d.reply, MAX_SMALL), replyState := Clip(d.replyState, 64), model := Clip(d.model, 128))
  }

  // ----- a clamp, said outright

  // The first `most` of a list, each clipped to n bytes.
  ghost predicate TextsClamped(xs: seq<Bytes>, ys: seq<Bytes>, most: nat, n: nat) {
    && |ys| == (if |xs| < most then |xs| else most)
    && forall i :: 0 <= i < |ys| ==> ClippedTo(xs[i], ys[i], n)
  }

  ghost predicate UsageClamped(u: Usage, v: Usage) {
    && ClippedTo(u.mode, v.mode, 32) && ClippedTo(u.weekModelName, v.weekModelName, 64)
    && ClippedTo(u.sessionResets, v.sessionResets, 100) && ClippedTo(u.weekAllResets, v.weekAllResets, 100)
    && ClippedTo(u.weekModelResets, v.weekModelResets, 100)
    && v.sessionPct == u.sessionPct && v.weekAllPct == u.weekAllPct && v.weekModelPct == u.weekModelPct
    && v.at == u.at && v.agentTodayUSD == u.agentTodayUSD && v.agentWeekUSD == u.agentWeekUSD
  }

  // Dropped exactly when its headline is clipped to nothing.
  ghost predicate AgentDigestClamped(d: AgentDigest, e: Option<AgentDigest>) {
    match e
    case None => ClippedTo(d.headline, [], 400)
    case Some(kept) =>
      && kept.headline != [] && ClippedTo(d.headline, kept.headline, 400)
      && TextsClamped(d.bullets, kept.bullets, 6, 400) && kept.at == d.at
  }

  ghost predicate AgentClamped(a: Agent, b: Agent) {
    && ClippedTo(a.id, b.id, 128) && ClippedTo(a.askID, b.askID, 128) && ClippedTo(a.ask, b.ask, 2000)
    && ClippedTo(a.state, b.state, 200) && ClippedTo(a.title, b.title, 200)
    && ClippedTo(a.model, b.model, 200) && ClippedTo(a.now, b.now, 200)
    && b.ctxPct == (if 0 <= a.ctxPct <= 999 then a.ctxPct else 0)
    && (if a.digest.None? then b.digest.None? else AgentDigestClamped(a.digest.value, b.digest))
    && b.costUSD == a.costUSD && b.attached == a.attached && b.nowAt == a.nowAt && b.lastEvent == a.lastEvent
  }

  ghost predicate WorkspaceClamped(w: Workspace, x: Workspace) {
    && ClippedTo(w.name, x.name, 200) && ClippedTo(w.branch, x.branch, 200) && x.attention == w.attention
    && |x.agents| == (if |w.agents| < 50 then |w.agents| else 50)
    && forall i :: 0 <= i < |x.agents| ==> AgentClamped(w.agents[i], x.agents[i])
  }

  ghost predicate StatusClamped(s: Status, t: Status) {
    && ClippedTo(s.hostname, t.hostname, 200) && ClippedTo(s.rookVersion, t.rookVersion, 200)
    && ClippedTo(s.hostID, t.hostID, 128)
    && (s.usage.None? <==> t.usage.None?) && (s.usage.Some? && t.usage.Some? ==> UsageClamped(s.usage.value, t.usage.value))
    && |t.workspaces| == (if |s.workspaces| < 100 then |s.workspaces| else 100)
    && forall i :: 0 <= i < |t.workspaces| ==> WorkspaceClamped(s.workspaces[i], t.workspaces[i])
  }

  ghost predicate RowClamped(r: PaneRow, q: PaneRow) {
    && ClippedTo(r.text, q.text, 2000)
    && q.runs <= r.runs && |q.runs| == (if |r.runs| < 500 then |r.runs| else 500)
  }

  ghost predicate PaneClamped(f: PaneFrame, g: PaneFrame) {
    && g.cols == (if 0 <= f.cols <= 500 then f.cols else 500) && g.rows == (if 0 <= f.rows <= 200 then f.rows else 200)
    && g.cursorX == (if f.cursorX < 0 then 0 else f.cursorX) && g.cursorY == (if f.cursorY < 0 then 0 else f.cursorY)
    && g.cursorVisible == f.cursorVisible
    && |g.lines| == (if |f.lines| < 200 then |f.lines| else 200)
    && forall i :: 0 <= i < |g.lines| ==> RowClamped(f.lines[i], g.lines[i])
  }

  ghost predicate DigestClamped(d: Digest, e: Digest) {
    && ClippedTo(d.id, e.id, 128) && ClippedTo(d.sessionID, e.sessionID, 128) && ClippedTo(d.headline, e.headline, 400)
    && TextsClamped(d.bullets, e.bullets, 8, 400) && ClippedTo(d.fullText, e.fullText, 131072)
    && ClippedTo(d.prompt, e.prompt, 8192) && ClippedTo(d.reply, e.reply, 8192)
    && ClippedTo(d.replyState, e.replyState, 64) && ClippedTo(d.model, e.model, 128)
    && e.at == d.at && e.costUSD == d.costUSD
  }

  lemma ClippedIs(s: Bytes, c: Bytes, n: nat)
    ensures ClippedTo(s, c, n) <==> c == Clip(s, n)
  {
    ClipClips(s, n);
    if ClippedTo(s, c, n) {
      ClippedToOne(s, c, Clip(s, n), n);
    }
  }

  lemma TextsClampedIs(xs: seq<Bytes>, ys: seq<Bytes>, most: nat, n: nat)
    ensures TextsClamped(xs, ys, most, n) <==> ys == ClipEach(Truncate(xs, most), n)
  {
    hide ClippedTo, Clip;
    var all := ClipEach(Truncate(xs, most), n);
    if |ys| == |all| {
      forall i | 0 <= i < |ys| ensures ClippedTo(xs[i], ys[i], n) <==> ys[i] == all[i] {
        ClippedIs(xs[i], ys[i], n);
      }
    }
  }

  lemma UsageClampedIs(u: Usage, v: Usage)
    ensures UsageClamped(u, v) <==> v == ClampUsage(u)
  {
    hide ClippedTo, Clip;
    ClippedIs(u.mode, v.mode, 32);
    ClippedIs(u.weekModelName, v.weekModelName, 64);
    ClippedIs(u.sessionResets, v.sessionResets, 100);
    ClippedIs(u.weekAllResets, v.weekAllResets, 100);
    ClippedIs(u.weekModelResets, v.weekModelResets, 100);
  }

  lemma AgentDigestClampedIs(d: AgentDigest, e: Option<AgentDigest>)
    ensures AgentDigestClamped(d, e) <==> e == ClampAgentDigest(d)
  {
    hide ClippedTo, Clip, TextsClamped, ClipEach, Truncate;
    ClippedIs(d.headline, [], 400);
    if e.Some? {
      ClippedIs(d.headline, e.value.headline, 400);
      TextsClampedIs(d.bullets, e.value.bullets, 6, 400);
    }
  }

  lemma AgentClampedIs(a: Agent, b: Agent)
    ensures AgentClamped(a, b) <==> b == ClampAgent(a)
  {
    hide ClippedTo, Clip, AgentDigestClamped, ClampAgentDigest;
    ClippedIs(a.id, b.id, 128);
    ClippedIs(a.askID, b.askID, 128);
    ClippedIs(a.ask, b.ask, 2000);
    ClippedIs(a.state, b.state, 200);
    ClippedIs(a.title, b.title, 200);
    ClippedIs(a.model, b.model, 200);
    ClippedIs(a.now, b.now, 200);
    if a.digest.Some? {
      AgentDigestClampedIs(a.digest.value, b.digest);
    }
  }

  lemma WorkspaceClampedIs(w: Workspace, x: Workspace)
    ensures WorkspaceClamped(w, x) <==> x == ClampWorkspace(w)
  {
    hide ClippedTo, Clip, AgentClamped, ClampAgent;
    ClippedIs(w.name, x.name, 200);
    ClippedIs(w.branch, x.branch, 200);
    var all := ClampWorkspace(w).agents;
    if |x.agents| == |all| {
      forall i | 0 <= i < |all| ensures AgentClamped(w.agents[i], x.agents[i]) <==> x.agents[i] == all[i] {
        AgentClampedIs(w.agents[i], x.agents[i]);
      }
    }
  }

  /**
   * The clamp of a status and nothing else: every text the part of the old one that fits,
   * every list the first of the old one, everything without a bound as it was.
   */
  lemma StatusClampedIs(s: Status, t: Status)
    ensures StatusClamped(s, t) <==> t == ClampStatus(s)
  {
    hide ClippedTo, Clip, WorkspaceClamped, ClampWorkspace, UsageClamped, ClampUsage;
    ClippedIs(s.hostname, t.hostname, 200);
    ClippedIs(s.rookVersion, t.rookVersion, 200);
    ClippedIs(s.hostID, t.hostID, 128);
    if s.usage.Some? && t.usage.Some? {
      UsageClampedIs(s.usage.value, t.usage.value);
    }
    var all := ClampStatus(s).workspaces;
    if |t.workspaces| == |all| {
      forall i | 0 <= i < |all| ensures WorkspaceClamped(s.workspaces[i], t.workspaces[i]) <==> t.workspaces[i] == all[i] {
        WorkspaceClampedIs(s.workspaces[i], t.workspaces[i]);
      }
    }
  }

  lemma RowClampedIs(r: PaneRow, q: PaneRow)
    ensures RowClamped(r, q) <==> q == ClampRow(r)
  {
    hide ClippedTo, Clip;
    ClippedIs(r.text, q.text, 2000);
  }

  /** The clamp of a frame and nothing else. */
  lemma PaneClampedIs(f: PaneFrame, g: PaneFrame)
    ensures PaneClamped(f, g) <==> g == ClampPane(f)
  {
    hide RowClamped, ClampRow;
    var all := ClampPane(f).lines;
    if |g.lines| == |all| {
      forall i | 0 <= i < |all| ensures RowClamped(f.lines[i], g.lines[i]) <==> g.lines[i] == all[i] {
        RowClampedIs(f.lines[i], g.lines[i]);
      }
    }
  }

  /** The clamp of a digest and nothing else. */
  lemma DigestClampedIs(d: Digest, e: Digest)
    ensures DigestClamped(d, e) <==> e == ClampDigest(d)
  {
    hide ClippedTo, Clip, TextsClamped, ClipEach, Truncate;
    ClippedIs(d.id, e.id, 128);
    ClippedIs(d.sessionID, e.sessionID, 128);
    ClippedIs(d.headline, e.headline, 400);
    TextsClampedIs(d.bullets, e.bullets, 8, 400);
    ClippedIs(d.fullText, e.fullText, 131072);
    ClippedIs(d.prompt, e.prompt, 8192);
    ClippedIs(d.reply, e.reply, 8192);
    ClippedIs(d.replyState, e.replyState, 64);
    ClippedIs(d.model, e.model, 128);
  }

  // ----- the in-place loops

  method ClipBullets(bullets: seq<Bytes>, most: nat, n: nat) returns (r: seq<Bytes>)
    ensures r == ClipEach(Truncate(bullets, most), n)
  {
    r := bullets;
    if |r| > most {
      r := r[..most];
    }
    ghost var cut := r;
    for k := 0 to |r|
      invariant |r| == |cut|
      invariant forall i :: 0 <= i < k ==> r[i] == Clip(cut[i], n)
      invariant forall i :: k <= i < |r| ==> r[i] == cut[i]
    {
      var c := ClipAt(r[k], n);
      r := r[k := c];
    }
  }

  method ClampOneAgent(a: Agent) returns (r: Agent)
    ensures r == ClampAgent(a)
  {
    var id := ClipAt(a.id, MAX_ASK_ID);
    var state := ClipAt(a.state, MAX_SHORT);
    var title := ClipAt(a.title, MAX_SHORT);
    var ask := ClipAt(a.ask, MAX_ASK);
    var askID := ClipAt(a.askID, MAX_ASK_ID);
    var model := ClipAt(a.model, MAX_SHORT);
    var now := ClipAt(a.now, MAX_SHORT);
    r := a.(id := id, state := state, title := title, ask := ask, askID := askID, model := model, now := now);
    if r.ctxPct < 0 || r.ctxPct > 999 {
      r := r.(ctxPct := 0);
    }
    if r.digest.Some? {
      var headline := ClipAt(r.digest.value.headline, MAX_HEADLINE);
      var bullets := ClipBullets(r.digest.value.bullets, MAX_BULLETS, MAX_BULLET);
      r := r.(digest := Some(r.digest.value.(headline := headline, bullets := bullets)));
      if headline == [] {
        r := r.(digest := None);
      }
    }
  }

  method ClampOneWorkspace(w: Workspace) returns (r: Workspace)
    ensures r == ClampWorkspace(w)
  {
    var name := ClipAt(w.name, MAX_SHORT);
    var branch := ClipAt(w.branch, MAX_SHORT);
    var agents := w.agents;
    if |agents| > MAX_AGENTS {
      agents := agents[..MAX_AGENTS];
    }
    ghost var cut := agents;
    for j := 0 to |agents|
      invariant |agents| == |cut|
      invariant forall i :: 0 <= i < j ==> agents[i] == ClampAgent(cut[i])
      invariant forall i :: j <= i < |agents| ==> agents[i] == cut[i]
    {
      var a := ClampOneAgent(agents[j]);
      agents := agents[j := a];
    }
    assert agents == ClampAgents(Truncate(w.agents, MAX_AGENTS));
    r := w.(name := name, branch := branch, agents := agents);
  }

  method ClampOneRow(r: PaneRow) returns (q: PaneRow)
    ensures q == ClampRow(r)
  {
    var text := ClipAt(r.text, MAX_ROW_TEXT);
    var runs := r.runs;
    if |runs| > MAX_COLS {
      runs := runs[..MAX_COLS];
    }
    q := PaneRow(text, runs);
  }

  class StatusRef {
    var hostname: Bytes
    var rookVersion: Bytes
    var hostID: Bytes
    var workspaces: seq<Workspace>
    var usage: Option<Usage>

    function Value(): Status
      reads this
    {
      Status(hostname, rookVersion, hostID, workspaces, usage)
    }

    constructor (s: Status)
      ensures Value() == s
    {
      hostname, rookVersion, hostID, workspaces, usage := s.hostname, s.rookVersion, s.hostID, s.workspaces, s.usage;
    }

    method Clamp()
      modifies this
      ensures Value() == ClampStatus(old(Value())) && StatusClamped(old(Value()), Value())
    {
      hide StatusClamped, ClippedTo, Clip, ClampWorkspace, CutPoint;
      StatusClampedIs(Value(), ClampStatus(Value()));
      hostname := ClipAt(hostname, MAX_SHORT);
      rookVersion := ClipAt(rookVersion, MAX_SHORT);
      hostID := ClipAt(hostID, MAX_ASK_ID);
      if usage.Some? {
        var u := usage.value;
        var mode := ClipAt(u.mode, 32);
        var session := ClipAt(u.sessionResets, 100);
        var week := ClipAt(u.weekAllResets, 100);
        var name := ClipAt(u.weekModelName, 64);
        var resets := ClipAt(u.weekModelResets, 100);
        usage := Some(u.(mode := mode, sessionResets := session, weekAllResets := week,
                         weekModelName := name, weekModelResets := resets));
      }
      if |workspaces| > MAX_WORKSPACES {
        workspaces := workspaces[..MAX_WORKSPACES];
      }
      ghost var cut := workspaces;
      for i := 0 to |workspaces|
        modifies `workspaces
        invariant |workspaces| == |cut|
        invariant forall k :: 0 <= k < i ==> workspaces[k] == ClampWorkspace(cut[k])
        invariant forall k :: i <= k < |workspaces| ==> workspaces[k] == cut[k]
      {
        var w := ClampOneWorkspace(workspaces[i]);
        workspaces := workspaces[i := w];
      }
      assert workspaces == ClampWorkspaces(cut);
    }
  }

  class PaneFrameRef {
    var cols: int
    var rows: int
    var cursorX: int
    var cursorY: int
    var cursorVisible: bool
    var lines: seq<PaneRow>

    function Value(): PaneFrame
      reads this
    {
      PaneFrame(cols, rows, cursorX, cursorY, cursorVisible, lines)
    }

    constructor (f: PaneFrame)
      ensures Value() == f
    {
      cols, rows, cursorX, cursorY := f.cols, f.rows, f.cursorX, f.cursorY;
      cursorVisible, lines := f.cursorVisible, f.lines;
    }

    method Clamp()
      modifies this
      ensures Value() == ClampPane(old(Value())) && PaneClamped(old(Value()), Value())
    {
      hide PaneClamped, ClampRow;
      PaneClampedIs(Value(), ClampPane(Value()));
      if cols < 0 || cols > MAX_COLS {
        cols := MAX_COLS;
      }
      if rows < 0 || rows > MAX_ROWS {
        rows := MAX_ROWS;
      }
      if cursorX < 0 {
        cursorX := 0;
      }
      if cursorY < 0 {
        cursorY := 0;
      }
      if |lines| > MAX_ROWS {
        lines := lines[..MAX_ROWS];
      }
      ghost var cut := lines;
      for i := 0 to |lines|
        modifies `lines
        invariant |lines| == |cut|
        invariant forall k :: 0 <= k < i ==> lines[k] == ClampRow(cut[k])
        invariant forall k :: i <= k < |lines| ==> lines[k] == cut[k]
      {
        var r := ClampOneRow(lines[i]);
        lines := lines[i := r];
      }
      assert lines == ClampRows(cut);
    }
  }

  class DigestRef {
    var value: Digest

    constructor (d: Digest)
      ensures value == d
    {
      value := d;
    }

    method Clamp()
      modifies this
      ensures value == ClampDigest(old(value)) && DigestClamped(old(value), value)
    {
      DigestClampedIs(value, ClampDigest(value));
      var id := ClipAt(value.id, MAX_ASK_ID);
      var sessionID := ClipAt(value.sessionID, MAX_ASK_ID);
      var headline := ClipAt(value.headline, MAX_HEADLINE);
      var bullets := ClipBullets(value.bullets, MAX_DIGEST_BULLETS, MAX_BULLET);
      var fullText := ClipAt(value.fullText, MAX_FULL_TEXT);
      var prompt := ClipAt(value.prompt, MAX_SMALL);
      var reply := ClipAt(value.reply, MAX_SMALL);
      var replyState := ClipAt(value.replyState, 64);
      var model := ClipAt(value.model, 128);
      value := value.(id := id, sessionID := sessionID, headline := headline, bullets := bullets,
                      fullText := fullText, prompt := prompt, reply := reply, replyState := replyState, model := model);
    }
  }

  // ----- the stated bounds

  predicate BulletsBounded(bullets: seq<Bytes>, most: nat, n: nat) {
    |bullets| <= most && forall b :: b in bullets ==> |b| <= n
  }

  predicate UsageBounded(u: Usage) {
    |u.mode| <= 32 && |u.sessionResets| <= 100 && |u.weekAllResets| <= 100
    && |u.weekModelName| <= 64 && |u.weekModelResets| <= 100
  }

  predicate AgentBounded(a: Agent) {
    && |a.id| <= MAX_ASK_ID && |a.state| <= MAX_SHORT && |a.title| <= MAX_SHORT && |a.ask| <= MAX_ASK
    && |a.askID| <= MAX_ASK_ID && |a.model| <= MAX_SHORT && |a.now| <= MAX_SHORT
    && 0 <= a.ctxPct <= 999
    && (a.digest.Some? ==> 0 < |a.digest.value.headline| <= MAX_HEADLINE
                           && BulletsBounded(a.digest.value.bullets, MAX_BULLETS, MAX_BULLET))
  }

  predicate WorkspaceBounded(w: Workspace) {
    && |w.name| <= MAX_SHORT && |w.branch| <= MAX_SHORT && |w.agents| <= MAX_AGENTS
    && forall a :: a in w.agents ==> AgentBounded(a)
  }

  predicate StatusBounded(s: Status) {
    && |s.hostname| <= MAX_SHORT && |s.rookVersion| <= MAX_SHORT && |s.hostID| <= MAX_ASK_ID
    && (s.usage.Some? ==> UsageBounded(s.usage.value))
    && |s.workspaces| <= MAX_WORKSPACES
    && forall w :: w in s.workspaces ==> WorkspaceBounded(w)
  }

  predicate PaneBounded(f: PaneFrame) {
    && 0 <= f.cols <= MAX_COLS && 0 <= f.rows <= MAX_ROWS && 0 <= f.cursorX && 0 <= f.cursorY
    && |f.lines| <= MAX_ROWS
    && forall r :: r in f.lines ==> |r.text| <= MAX_ROW_TEXT && |r.runs| <= MAX_COLS
  }

  predicate DigestBounded(d: Digest) {
    && |d.id| <= MAX_ASK_ID && |d.sessionID| <= MAX_ASK_ID && |d.headline| <= MAX_HEADLINE
    && BulletsBounded(d.bullets, MAX_DIGEST_BULLETS, MAX_BULLET) && |d.fullText| <= MAX_FULL_TEXT
    && |d.prompt| <= MAX_SMALL && |d.reply| <= MAX_SMALL && |d.replyState| <= 64 && |d.model| <= 128
  }

  lemma BulletsFixed(bullets: seq<Bytes>, most: nat, n: nat)
    ensures BulletsBounded(ClipEach(Truncate(bullets, most), n), most, n)
    ensures ClipEach(Truncate(bullets, most), n) == bullets <==> BulletsBounded(bullets, most, n)
  {
    var r := ClipEach(Truncate(bullets, most), n);
    if r == bullets {
      assert forall i :: 0 <= i < |bullets| ==> |bullets[i]| <= n by {
        assert forall i :: 0 <= i < |r| ==> |r[i]| <= n;
      }
    }
    if BulletsBounded(bullets, most, n) {
      assert forall i :: 0 <= i < |bullets| ==> r[i] == bullets[i];
    }
  }

  lemma AgentFixed(a: Agent)
    ensures AgentBounded(ClampAgent(a))
    ensures ClampAgent(a) == a <==> AgentBounded(a)
  {
    if a.digest.Some? {
      BulletsFixed(a.digest.value.bullets, MAX_BULLETS, MAX_BULLET);
    }
  }

  lemma WorkspaceFixed(w: Workspace)
    ensures WorkspaceBounded(ClampWorkspace(w))
    ensures ClampWorkspace(w) == w <==> WorkspaceBounded(w)
  {
    ghost var cut := Truncate(w.agents, MAX_AGENTS);
    var r := ClampAgents(cut);
    forall i | 0 <= i < |cut| ensures AgentBounded(r[i]) && (r[i] == cut[i] <==> AgentBounded(cut[i])) {
      AgentFixed(cut[i]);
    }
    assert forall a :: a in r ==> AgentBounded(a);
    if WorkspaceBounded(w) {
      assert r == w.agents;
    }
  }

  /** What Clamp leaves is within every bound, and a status within every bound is left alone. */
  lemma ClampStatusFixed(s: Status)
    ensures StatusBounded(ClampStatus(s))
    ensures ClampStatus(s) == s <==> StatusBounded(s)
    ensures ClampStatus(ClampStatus(s)) == ClampStatus(s)
  {
    StatusFixed(s);
    StatusFixed(ClampStatus(s));
  }

  lemma StatusFixed(s: Status)
    ensures StatusBounded(ClampStatus(s))
    ensures ClampStatus(s) == s <==> StatusBounded(s)
  {
    ghost var cut := Truncate(s.workspaces, MAX_WORKSPACES);
    var r := ClampWorkspaces(cut);
    forall i | 0 <= i < |cut| ensures WorkspaceBounded(r[i]) && (r[i] == cut[i] <==> WorkspaceBounded(cut[i])) {
      WorkspaceFixed(cut[i]);
    }
    assert forall w :: w in r ==> WorkspaceBounded(w);
    if StatusBounded(s) {
      assert r == s.workspaces;
    }
  }

  lemma PaneFixed(f: PaneFrame)
    ensures PaneBounded(ClampPane(f))
    ensures ClampPane(f) == f <==> PaneBounded(f)
  {
    ghost var cut := Truncate(f.lines, MAX_ROWS);
    var r := ClampRows(cut);
    assert forall i :: 0 <= i < |cut| ==> |r[i].text| <= MAX_ROW_TEXT && |r[i].runs| <= MAX_COLS;
    if PaneBounded(f) {
      assert forall i :: 0 <= i < |cut| ==> cut[i] in f.lines && r[i] == cut[i];
      assert r == f.lines;
    }
  }

  lemma ClampPaneFixed(f: PaneFrame)
    ensures PaneBounded(ClampPane(f))
    ensures ClampPane(f) == f <==> PaneBounded(f)
    ensures ClampPane(ClampPane(f)) == ClampPane(f)
  {
    PaneFixed(f);
    PaneFixed(ClampPane(f));
  }

  lemma ClampDigestFixed(d: Digest)
    ensures DigestBounded(ClampDigest(d))
    ensures ClampDigest(d) == d <==> DigestBounded(d)
    ensures ClampDigest(ClampDigest(d)) == ClampDigest(d)
  {
    BulletsFixed(d.bullets, MAX_DIGEST_BULLETS, MAX_BULLET);
    BulletsFixed(ClampDigest(d).bullets, MAX_DIGEST_BULLETS, MAX_BULLET);
  }

  // ----- how much text a snapshot can carry

  function SumOf<T>(xs: seq<T>, size: T -> nat): nat {
    if xs == [] then 0 else size(xs[0]) + SumOf(xs[1..], size)
  }

  function AgentText(a: Agent): nat {
    |a.id| + |a.state| + |a.title| + |a.ask| + |a.askID| + |a.model| + |a.now|
    + (if a.digest.Some? then |a.digest.value.headline| + SumOf(a.digest.value.bullets, (b: Bytes) => |b|) else 0)
  }

  function WorkspaceText(w: Workspace): nat {
    |w.name| + |w.branch| + SumOf(w.agents, AgentText)
  }

  function StatusText(s: Status): nat {
    |s.hostname| + |s.rookVersion| + |s.hostID|
    + (if s.usage.Some? then
         var u := s.usage.value;
         |u.mode| + |u.sessionResets| + |u.weekAllResets| + |u.weekModelName| + |u.weekModelResets|
       else 0)
    + SumOf(s.workspaces, WorkspaceText)
  }

  const MAX_AGENT_TEXT: nat := 2 * MAX_ASK_ID + 4 * MAX_SHORT + MAX_ASK + MAX_HEADLINE + MAX_BULLETS * MAX_BULLET
  const MAX_WORKSPACE_TEXT: nat := 2 * MAX_SHORT + MAX_AGENTS * MAX_AGENT_TEXT

  lemma {:induction false} SumAtMost<T>(xs: seq<T>, size: T -> nat, most: nat, each: nat)
    requires |xs| <= most && forall x :: x in xs ==> size(x) <= each
    ensures SumOf(xs, size) <= most * each
    decreases |xs|
  {
    if xs != [] {
      SumAtMost(xs[1..], size, most - 1, each);
    }
  }

  /** However large the input, a clamped snapshot's strings are 29,320,924 bytes at most. */
  lemma ClampedStatusText(s: Status)
    ensures StatusText(ClampStatus(s)) <= 29_320_924
  {
    var c := ClampStatus(s);
    ClampStatusFixed(s);
    forall w | w in c.workspaces ensures WorkspaceText(w) <= MAX_WORKSPACE_TEXT {
      forall a | a in w.agents ensures AgentText(a) <= MAX_AGENT_TEXT {
        if a.digest.Some? {
          SumAtMost(a.digest.value.bullets, (b: Bytes) => |b|, MAX_BULLETS, MAX_BULLET);
        }
      }
      SumAtMost(w.agents, AgentText, MAX_AGENTS, MAX_AGENT_TEXT);
    }
    SumAtMost(c.workspaces, WorkspaceText, MAX_WORKSPACES, MAX_WORKSPACE_TEXT);
  }
}
