# Verification of the host's rails

A Dafny model of the protocol logic of this repository, and proofs about it. Run
`dafny verify dfyconfig.toml` to check all of it.

## What is modelled

**The host-side link.** `Fanout` is the latest-wins fan-out of both hubs, one level finer
than a lock: a publish is its separate send / drain / send operations, and a watcher's
receive may fall between any two of them. `StatusHub` is the status hub's objects, each
method proved to take steps of that machine, with receives interfering inside every publish.
`PaneSpec` says what each lock-protected method of the pane hub does to its sessions and to
the source, and what every run of them keeps; `PaneHub` is the objects, each method proved
to do exactly that; `PaneFanout` proves that a publish whose channel operations interleave
with receives comes to the one-step publish of the specification. `Stores` and `StoreObjects`
are the token, challenge, pairing-window and registry stores, as values and as objects. `Server` is revocation and pairing over the real
objects. `Host` cuts every call (`Pair`, `Challenge`, `Authenticate`, `authorize`,
`RevokeDevice`, the opening of a stream) at its locks and lets any other step run in
between; `HostProofs` has the invariants of all such runs and `HostTheorems` what follows.
`Revocation` and `Stragglers` say exactly what a tombstoned device can still come to: an
authorization, a stream, a token.

**The edge client.** `Sync` is one pass of `SyncOnce` with everything outside the client as
a parameter, `EventIds` the identities of its events, `Convergence` the pass against a cloud
that keeps the first record of a sequence number and reports its highest contiguous one, with
passes interrupted anywhere and commands arriving at any time. `Wake` is the interleaving of
`Follow` and `watch`.

**Signed bytes and grants.** `Canonical` is the length-prefixed encoding with a decoder as
its inverse, `Envelope` the four signed statements, `Grant` the approval grant's checklist
and the pre-execution checks, `Checklist` what they accept, item by item.

**The projection.** `Utf8` is validity and clipping, `Projection` the nested in-place clamps,
`Commands` the natural keys, `Convert` the wire converters and `Carried` what they carry, field
by field. `Options` and `Cuts` are helpers.

Everything the program gets from outside is a parameter: clocks, signature and hash
functions, JSON, base64 and RFC 3339 parsing, protobuf marshalling, the executor, the cloud,
whether a registry write reached the disk. What a lemma needs of them is in its `requires`:
that SHA-256 gives 32 bytes (`Envelope.Digests`), that two particular texts do not collide
(`Grant.NoCollision`), that a signature verifies for its own message only (`Envelope.Ideal`),
that nothing verifies under a key but what was signed with it (`Checklist.OnlySigned`).
Built into a machine are guards of `Host.Enabled` on what is random or hashed: a challenge is
never issued twice nor presented before it is issued, a minted window secret is not empty,
and neither is a key's fingerprint. Go strings are byte sequences. Times are
nanosecond counts, and in `Projection` seconds, nanoseconds and a UTC flag.

## What the code does, where one might expect otherwise

- `docs/PAIRING.md:140-142` says that a pane's `seq` restarts when its last watcher leaves.
  The code keeps it (`link/panehub.go:35-38`; no session entry is ever deleted), and the
  model follows the code: `PaneSpec.SeqNeverRestarts`.
- A device can be authorized again after its revocation without another redemption of a
  window, exactly when a pairing of it that asks for something recognized had already
  redeemed its window and not yet registered: `Revocation.ReauthorizedIff`,
  `Revocation.RevocationUndoneIff`.
- The comment at `link/server.go:139-141` says that a revoked device's current calls fail. A
  `WatchStatus` or `WatchPane` call that was past `authorize` subscribes all the same after
  the drops, and its stream then lives on, tombstoned device or not; a call that was past its
  registry check in `Authenticate` with a challenge still live can mint a token, though
  `authorize` refuses it. Which calls those are is exact: `Stragglers.StragglersIff`,
  `Stragglers.RevocationClears`.
- A revocation that fails to persist tombstones the device in memory and returns before
  dropping anything: its open streams go on. `HostTheorems.DropsFollowIffPersisted`.
- Timestamps are signed as wrapping 64-bit nanoseconds, so an expiry in the year 2554 is
  signed as the same bytes as none: `Envelope.FarExpirySignsAsNone`. Within the years the
  count can hold they are bound exactly.
- The action digest separates its fields with `|`, so its text names one action exactly when
  nothing in it holds a `|`. The scope check makes up for most of it: commands that claim the
  same two scopes under one grant are the same action whatever they contain. A grant
  fits a second action exactly when the scopes it lists can be read as another device and
  resource that head the same text (`Grant.GrantFitsTwoIff`), a check on the command and the
  scopes alone. For a grant minted with its command's two scopes, none is there unless the resource type is `device` or begins
  with `device:` or `device|` (`Grant.MintedGrantFitsOneAction`).
- A command whose first receipt is refused for ever holds the cursor, and a later command
  then reuses a recorded number on every pass and is never resolved:
  `Convergence.RejectedHeadStarves`.
- An event of one command can share its identity with an event of another in one way, which
  takes a command named `<other>_agent_<n>`: `EventIds.IdsNameEvents`.

## Model

| member | source | states |
|---|---|---|
| Fanout.StepKeepsInv | link/hub.go:44-120 | every fine-grained step, mid-publish receives included, keeps: history in order, frames as published, channel fresh up to the publisher's position, signal owed or given |
| Fanout.FinalSendAlwaysLands | link/hub.go:58-67 | in every interleaving the second send's `default` branch is never taken |
| Fanout.NewestSeenOrPending | link/hub.go:46-70 | between publishes a live subscriber has seen the newest frame and its channel is empty, or has not and the channel holds exactly it |
| Fanout.WatcherSeesIncreasing | link/hub.go:79-92 | opening frame, then published frames in strictly increasing seq, at every moment of every run |
| Fanout.SignalledExactlyOnce | link/hub.go:94-120 | `gone` is closed never while subscribed, at most once ever, and exactly once when nobody owes a close any more, however revocation and unsubscribe race |
| Fanout.DropEndsOneDevice | link/hub.go:103-116 | in every reachable hub dropDevice unsubscribes and owes one signal to all of the device's watchers, and changes nobody else's |
| StatusHub.Hub.Publish | link/hub.go:46-70 | clamped snapshot becomes current under the next seq; with receives interfering throughout, each subscriber ends up having seen it or with exactly it pending |
| StatusHub.Hub.SendAgain | link/hub.go:63-66 | the send after the drain always finds room |
| StatusHub.Hub.OfferTo | link/hub.go:55-67 | send, else drain and send again, as steps of the machine amid receives |
| StatusHub.Hub.Receive | link/server.go:322-329 | a handler gets exactly the pending frame, and nothing else moves |
| StatusHub.Hub.Snap | link/hub.go:72-77 | the current snapshot, its time and its seq |
| StatusHub.Hub.Subscribe | link/hub.go:82-92 | a fresh subscriber and the current frame, taken in one step |
| StatusHub.Hub.Unsubscribe | link/hub.go:94-99 | leaves the hub, signalled once even if revocation did it before; nobody else changes |
| StatusHub.Hub.DropDevice | link/hub.go:103-116 | exactly the device's subscribers leave, each signalled exactly once |
| PaneSpec.StepKeeps | link/panehub.go:68-169 | each pane operation keeps alternation, open-iff-watched, newest-or-empty channels |
| PaneSpec.ShowSays | link/panehub.go:72-98 | a frame for a watched session takes the next seq, is retained and pending for every watcher; for an unwatched one nothing changes; no other session does |
| PaneSpec.WatchSays | link/panehub.go:104-125 | over every run with a source: the first watcher opens it, once, and is refused with it; a later one joins without a call; the channel starts empty |
| PaneSpec.UnwatchSays | link/panehub.go:127-169 | over every run with a source: the watcher leaves, the last one closing the source and taking the retained frame along; the seq stays |
| PaneSpec.SourceDrivenOnEdges | link/panehub.go:104-169 | with a source, over every run with refused opens: effective calls alternate Open, Close; no call is made on the wrong side of the edge; open iff watched |
| PaneSpec.PendingIsNewest | link/panehub.go:72-98 | a pane watcher's channel is empty or holds the session's newest frame |
| PaneSpec.LastWatcherDropsFrameIffSource | link/panehub.go:157-169 | the retained frame goes with the last watcher if and only if there is a source; a property of the hub alone, no request subscribing without one (`link/server.go:369-371`) |
| PaneSpec.SeqNeverRestarts | link/panehub.go:35-38 | a session and its seq survive everything, seq never decreasing |
| PaneSpec.DropClosesExactlyUnwatched | link/panehub.go:139-155 | revocation removes the device's streams only, closes exactly the sessions left unwatched, and the handler's later unsubscribe changes nothing |
| PaneSpec.WatchNewSession | link/panehub.go:112-116 | making the session entry first is part of the same watch |
| PaneSpec.UnwatchAfterDrop | link/panehub.go:127-169 | unwatching a stream a revocation ended, or that never was, changes nothing |
| PaneFanout.PublishIsOneStep | link/panehub.go:72-98 | a publish with receives anywhere between its sends and drains comes to the one-step publish, then the receives of those that saw the new frame |
| PaneFanout.WatchIsOneStep | link/panehub.go:104-125 | a subscription of the fan-out is the specification's watch |
| PaneFanout.ReceiveIsOneStep | link/server.go:406-413 | a receive takes the one pending frame of one watcher |
| PaneFanout.UnwatchIsOneStep | link/panehub.go:127-135 | an unsubscription is the specification's unwatch, retained frame included |
| PaneFanout.DropIsOneStep | link/panehub.go:139-155 | a revocation's drop is the specification's, retained frame included |
| PaneHub.PaneHub.Publish | link/panehub.go:72-98 | clamps, then does to all sessions what the specification's publish does |
| PaneHub.PaneHub.Subscribe | link/panehub.go:104-125 | the specification's watch, with the retained frame and the source's refusal as results |
| PaneHub.PaneHub.Unsubscribe | link/panehub.go:127-135 | the specification's unwatch; the subscriber is signalled, its channel never closed twice |
| PaneHub.PaneHub.DropDevice | link/panehub.go:139-155 | the specification's drop over all sessions; exactly the device's subscribers signalled, and marked so |
| PaneHub.PaneHub.DropThenUnsubscribe | link/panehub.go:127-173 | a revocation and then the handler's deferred unsubscribe come to the revocation alone: no second Close, no second signal |
| PaneHub.PaneHub.CloseIfUnwatched | link/panehub.go:160-169 | closes source and frame exactly on the last-watcher edge; other sessions' source untouched |
| StoreObjects.Tokens.Mint | link/tokens.go:45-56 | the token resolves to the device at every time before 24 hours are over and to nothing after; all others as before |
| StoreObjects.Tokens.Resolve | link/tokens.go:61-73 | the device of a live token, else nothing; an expired entry is removed, all others stay |
| StoreObjects.Tokens.DropDevice | link/tokens.go:77-85 | removes exactly the device's tokens |
| StoreObjects.Nonces.Mint | link/tokens.go:87-103 | sweeps exactly the expired challenges, then adds one, live for its device alone and for 60 seconds; the others stay as live as they were |
| StoreObjects.Nonces.Consume | link/tokens.go:108-118 | true iff live and the device's; gone either way, all others stay |
| StoreObjects.Manager.Redeem | pairing/pairing.go:68-79 | true iff the open window has that secret and was opened less than 120 seconds ago, and then the window is shut; otherwise nothing changes |
| StoreObjects.Manager.OpenNow | pairing/pairing.go:57-62 | true iff some secret would redeem at that moment |
| StoreObjects.Filter | registry/registry.go:131-136 | the known capabilities asked for, without repetition, in order |
| Stores.Recognized | registry/registry.go:131-136 | holds exactly the known capabilities asked for, each once |
| Stores.RecognizedInOrder | registry/registry.go:131-136 | two recognized capabilities stand in the order they were first asked for |
| Stores.RegistrationIsAsked | link/server.go:185-200 | a pairing registers iff its key has 32 bytes and it asks for something known or for nothing; the device holds the key, the names clipped to 200 bytes, and just the known capabilities named, all four for none named |
| StoreObjects.Registry.Add | registry/registry.go:127-146 | refuses a wrong key or nothing recognized, else replaces the registration in memory whether or not it persists |
| StoreObjects.Registry.Allowed | registry/registry.go:174-188 | allowed iff registered, not revoked and holding the capability |
| StoreObjects.Registry.SetCapabilities | registry/registry.go:191-206 | replaces one device's capabilities by the recognized ones |
| StoreObjects.Registry.Touch | registry/registry.go:210-217 | records the time on a registered device; every device's other fields and everyone's permissions stay |
| StoreObjects.Registry.Revoke | registry/registry.go:222-234 | tombstones once, keeping the first revocation's time |
| Server.Server.DropEverything | link/server.go:146-148 | every token and stream of the device ends, each stream signalled; nobody else's does |
| Server.Server.RevokeDevice | link/server.go:142-150 | tombstone always; the drops exactly when it succeeds; otherwise all sessions and streams as before |
| Server.Server.Register | link/server.go:166-200 | window spent iff the request is of this protocol, carries a 32-byte key and a good proof and redeems it; registered iff moreover it asks for something known or for nothing, with exactly what it asked |
| Server.Server.Pair | link/server.go:166-216 | as above, the device's old sessions and streams ended exactly on success; granted are the four known capabilities the request names, or all four if it names none |
| HostProofs.StepKeepsInv | link/server.go:142-281 | every atomic step of every call keeps all of the run's invariants |
| HostTheorems.AuthorizeIsLive | link/server.go:264-281 | authorize admits iff the device is then registered, not tombstoned and holds the one capability its call is for (status.read, session.read, agent.answer, agent.command), on a token minted to it less than 24 hours before |
| HostTheorems.ResolvesForItsCall | link/tokens.go:61-73 | a token resolves to its own device, while unexpired, for the call it came with |
| HostTheorems.RegistersAsAsked | link/server.go:185-207 | over every run, what a pairing registers is its redeeming request's key, clipped names and known capabilities (all four for none); every other device stays |
| HostTheorems.RedeemedInItsWindow | pairing/pairing.go:64-79 | over every run, a redemption presents the latest window's secret less than 120 seconds after it was opened, and is the first to |
| HostTheorems.BookSteps | registry/registry.go:127-234 | pairings aside, a step changes at most one field of one device: its revocation (the first one's time stays), its capabilities (the recognized of the new ones) or its last-seen time |
| HostTheorems.WindowAndChallengeSteps | pairing/pairing.go:42-79 | a window stands for 120 seconds from its opening and is shut by a close or a redemption; a challenge stands for 60, is swept when expired and gone once presented; no other step touches either |
| HostTheorems.StreamsTraceToAuthorize | link/server.go:294-376 | every live status stream was opened after an authorization of its device for status.read, every pane stream after one for session.read on a host with a source |
| HostTheorems.MintedByItsDevice | link/server.go:234-259 | every token traces to one call that found the device live and spent, less than 60 seconds after it was issued, a challenge issued to it, signed under the registered key |
| HostTheorems.ChallengeSpentOnce | link/tokens.go:105-118 | a challenge mints at most one token, and none once another attempt reached consume |
| HostTheorems.RegistrationsWithinWindows | pairing/pairing.go:64-79 | registrations never outnumber redemptions, nor those the windows opened |
| HostTheorems.RevocationHolds | link/server.go:139-150 | in the log of every run: after a tombstone, authorized again only after a new registration that redeemed a window, and after the tombstone too unless a pairing that could register was in flight |
| Revocation.ReauthorizedIff | link/server.go:139-207 | from every reachable state with the device tombstoned, at any later time some continuation without a redemption for it authorizes it iff a pairing of it with recognized capabilities is in flight, which the log shows |
| Revocation.RevocationUndoneIff | link/server.go:142-150 | the same at the moment of any revocation |
| Stragglers.StragglersIff | link/server.go:139-150 | right after a revocation and its drops the device holds nothing; from then on until registered again it can come to hold a stream iff a WatchStatus or WatchPane call of it was past authorize and able to subscribe, a token iff a call had consumed its challenge or answers a live one |
| Stragglers.RevocationClears | link/server.go:139-150 | with anything interleaved: once each drop has run, no stream without such a call at the tombstone, and no token without such a call |
| HostTheorems.OnlyStragglersSurvive | link/server.go:142-150 | once a drop has run, what the device still holds it got afterwards, through a call past its check before the tombstone |
| HostTheorems.DropsTouchOneDevice | link/server.go:201-207 | each drop takes all of its kind from its device and leaves every other device's as it was |
| HostTheorems.DropsFollowIffPersisted | link/server.go:142-150 | over every run: a revocation that failed to persist never drops anything; one that persisted drops only from its device, after its tombstone, and is done only after all three drops |
| HostTheorems.TokenStepsAreTheMethods | link/tokens.go:45-85 | the machine's token steps do what the locked methods do |
| Utf8.ClipAt | projection/projection.go:427-436 | the loop computes the clip function |
| Utf8.ClipDisplay | link/server.go:463-474 | on every byte string the same as clip at 200 |
| Utf8.MaskIsContinuation | projection/projection.go:432 | the mask test picks out exactly the continuation bytes |
| Utf8.CutValidIff | projection/projection.go:431-434 | cutting a valid string keeps it valid iff the cut is before a lead byte |
| Utf8.ClipLongestValidPrefix | projection/projection.go:427-436 | of a valid string, the longest valid prefix that fits, at most three bytes short |
| Utf8.ClipClips | projection/projection.go:427-436 | the clip is all of a string that fits; else what precedes its last byte, at the bound or earlier, that is not 10xxxxxx; of a valid string the longest valid prefix |
| Utf8.ClippedToOne | projection/projection.go:427-436 | and only one string is that |
| Utf8.ValidIffRunes | projection/projection.go:431-434 | a string is valid iff it is the encoding of a sequence of characters |
| Projection.StatusRef.Clamp | projection/projection.go:248-307 | the nested loops leave every text, list and number of the old value clamped as the next row says |
| Projection.StatusClampedIs | projection/projection.go:248-307 | the one clamped status: each text its old one clipped (200 bytes, asks 2000, ids 128, headlines and bullets 400), each list the first 100, 50 or 6 of the old, an out-of-range context percentage 0, a digest dropped iff its headline is clipped to nothing, all else unchanged |
| Projection.PaneClampedIs | projection/projection.go:348-376 | the one clamped frame: 500 columns, 200 rows of 2000 bytes and 500 runs, cursor not negative, all else unchanged |
| Projection.DigestClampedIs | projection/projection.go:403-425 | the one clamped digest: ids 128, headline 400, 8 bullets of 400, full text 131072, prompt and reply 8192, state 64, model 128, all else unchanged |
| Projection.PaneFrameRef.Clamp | projection/projection.go:348-376 | likewise for a frame, as `PaneClampedIs` says |
| Projection.DigestRef.Clamp | projection/projection.go:403-425 | likewise for a digest, as `DigestClampedIs` says |
| Projection.ClampStatusFixed | projection/projection.go:248-307 | the clamp meets every bound, changes nothing iff the bounds held, and is idempotent |
| Projection.ClampPaneFixed | projection/projection.go:348-376 | likewise for a frame |
| Projection.ClampDigestFixed | projection/projection.go:403-425 | likewise for a digest |
| Projection.ClampedStatusText | projection/projection.go:248-307 | a clamped status holds at most 29320924 bytes of text |
| Canonical.Build | edgesign/edgesign.go:149-158 | the loop computes the encoding |
| Canonical.WordBijection | edgesign/edgesign.go:160-164 | eight bytes and 64-bit words correspond one to one |
| Canonical.WordSpells | edgesign/edgesign.go:160-164 | the most significant byte first |
| Canonical.EncodeGrows | edgesign/edgesign.go:149-158 | the domain behind its length, and each further field appended behind its own |
| Canonical.DecodeInverts | edgesign/edgesign.go:146-158 | the decoder gives back domain and fields, and only encodings decode |
| Canonical.EncodeInjective | identity/sign.go:51-63 | equal bytes iff equal domain and equal field lists, of any number |
| Envelope.SignedBytesBind | edgesign/edgesign.go:86-144 | two statements of any of the four kinds have equal signed bytes iff they are of one kind with every bound field equal |
| Envelope.SignedBytesRead | edgesign/edgesign.go:86-144 | the signed bytes decode to the kind's own label and its fields in their order, and to nothing else |
| Envelope.CommandFieldsBind | edgesign/edgesign.go:86-117 | a command's eighteen fields are equal iff all but signature, grant and ledger bytes are bound equal |
| Envelope.EventFieldsBind | edgesign/edgesign.go:121-144 | likewise an event's ten fields |
| Envelope.DomainsDiffer | identity/sign.go:16-19 | the four domain labels are distinct |
| Envelope.CountableStampsBind | edgesign/edgesign.go:93-96 | in the range of a nanosecond count a timestamp is bound exactly, absent being the epoch |
| Envelope.FarExpirySignsAsNone | edgesign/edgesign.go:93-96 | out of that range it is not |
| Envelope.SignatureHolds | identity/sign.go:21-49 | a signature made for one statement verifies for another iff they are the same statement, pairing proofs and challenge answers included |
| Envelope.SignatureHoldsCommand | edgesign/edgesign.go:63-70 | under a command's signature another verifies iff every bound field is the same, whatever its grant and ledger bytes |
| Envelope.SignatureHoldsEvent | edgesign/edgesign.go:73-80 | likewise for an event, whatever its trace context |
| Grant.TextNamesOneIff | edgesign/grant.go:55-59 | an action's text names it alone iff it holds no separator |
| Grant.PlainTextsDiffer | edgesign/grant.go:55-59 | without separators in device and resource, texts differ whenever actions do |
| Grant.HexInjective | edgesign/grant.go:58 | the hex digest loses nothing |
| Checklist.HexSpells | edgesign/grant.go:55-59 | each byte as two lower-case hexadecimal digits, high half first |
| Grant.OneGrantOneAction | edgesign/grant.go:99-140 | two commands accepted under one grant document are one action iff they claim the same scopes, and always when no device or resource holds a separator |
| Grant.MintedGrantFitsOneAction | edgesign/grant.go:130-138 | a grant with exactly its command's two scopes admits no other action unless the resource type is `device`, alone or followed by one of the two separators |
| Grant.GrantFitsTwoIff | edgesign/grant.go:99-140 | the grant a command is accepted under, whatever its scopes, admits a second action iff the command has a second reading in them: another device and resource, spelt by two of them, heading its action text |
| Grant.MintedGrantFitsTwoIff | edgesign/grant.go:130-138 | for a grant with exactly its command's two scopes |
| Grant.UnlabelledReadsOnce | edgesign/grant.go:55-59 | with such a resource type there is no second reading |
| Grant.MintedGrantFitsTwoActions | edgesign/grant.go:130-138 | a family of commands that do have one, with the second command |
| Grant.SignatureHoldsGrant | edgesign/grant.go:61-86 | a document under another's signature verifies iff nothing differs |
| Grant.ExecutedUnderOneGrant | edgeclient/client.go:245-260 | what two unrefused commands under one grant document have in common |
| Checklist.AcceptedIff | edgesign/grant.go:99-140 | a grant is accepted as a document iff it parses to it, ledger payload present and of the signed digest, schema known, id and run the command's, signature good if the cloud's key is known, expiry a time not before now, both scopes listed, digest that of this action |
| Checklist.FirstFailure | edgesign/grant.go:99-140 | otherwise the answer is the first item that fails, in this order |
| Checklist.RefusesIff | edgeclient/client.go:245-260 | a command is not refused iff the cloud's signature on it is good (if its key is known), its ledger payload if any has the signed digest, and the grant it names if any is accepted; the first of the three to fail gives the reason |
| Checklist.UnsignedGrantRefused | edgesign/grant.go:88-119 | a command under a grant nobody signed with the cloud's key is refused |
| Checklist.AlteredGrantRefused | edgesign/grant.go:75-119 | so is one under a grant whose signature was made for another document |
| EventIds.OneCommandDistinct | edgeclient/client.go:363-393 | when two events of one command share an identity, and that under the ledger's statuses they never do |
| EventIds.IdsNameEvents | edgeclient/client.go:363-393 | within the vocabularies an identity names its event, up to one kind of clash |
| Sync.ComposeOne | edgeclient/client.go:178-221 | one command's events or failure; executed iff acknowledged and not refused, and told of as rejected with the reason iff refused |
| Sync.Compose | edgeclient/client.go:176-222 | the batch, or the first failure; executed are the unrefused commands up to it, in order |
| Sync.SyncOnce | edgeclient/client.go:163-238 | submits the whole batch once or, on any failure, nothing; every command told of at its place, each event sealed; executes in order, once each, the unrefused commands it reaches, all of which pass the checklist; the report |
| Sync.BatchIs | edgeclient/client.go:176-222 | a batch is built iff every command is acknowledged with a status and complete updates; one event per key, numbered from the cursor without a gap, receipt before its agent events |
| Sync.BatchTells | edgeclient/client.go:176-222 | each command's receipt, with its status, identity, payload, device and number, says rejected with the reason if it was refused and what the execution gave if not; its agent events follow in order, and nothing else is in the batch |
| Sync.PositionNext | edgeclient/client.go:199-221 | a command's receipt stands one past the agent events of the one before |
| Sync.SubmittedVerify | edgeclient/client.go:204-206 | under an ideal scheme each submitted event verifies under the client's public key if it has one and never if not; its digest is that of its payload |
| Sync.BatchFails | edgeclient/client.go:179-220 | no batch is built because of the first command that fails, and for its reason |
| Sync.ExecutedMayRun | edgeclient/client.go:188-198 | every executed command was acknowledged and passes the checklist, item by item |
| Sync.ExecutedIsPrefix | edgeclient/client.go:178-198 | what is executed is a prefix of the unrefused commands, each acknowledged, and all of them when the batch is built |
| Sync.CommandIdsDistinct | edgeclient/client.go:344-393 | all of one command's events differ in identity |
| Sync.ReplayRepeatsIds | edgeclient/client.go:344-348 | a replay with the same outcomes repeats every identity, from any cursor |
| Sync.BatchIdsClash | edgeclient/client.go:374-393 | over a whole batch two events share an identity iff they are the one kind of clash |
| Sync.IdsDoClash | edgeclient/client.go:363-393 | such a clash exists |
| Sync.ExecutedActionsMatch | edgeclient/client.go:188-198 | commands a pass executed under one grant were accepted under it and, scopes equal, are one action |
| Convergence.PassResolves | proto/rook/edge/v1/edge.proto:48-52 | a pass resolves exactly the commands whose receipt falls on an unrecorded number and is accepted; a clean one its first command at least, and moves the cursor past the batch; first records stay |
| Convergence.Accounting | edgeclient/client.go:7-15 | over any run of passes, interruptions, rejections and arrivals, clean passes with work plus what is left never exceed what was there plus what arrived |
| Convergence.Converges | edgeclient/client.go:159-162 | n pending commands and nothing new: all resolved within n clean passes, whatever else happens between |
| Convergence.RejectedHeadStarves | proto/rook/edge/v1/edge.proto:191-199 | a head rejected for ever starves another command for ever, from a fresh cloud |
| Wake.NoLostWake | edgeclient/client.go:269-321 | a wake or greeting since the latest sync began is in hand, in the channel, or Follow is about to sync, unless cancelled or refused |
| Wake.StopsOnlyWhenTold | edgeclient/client.go:269-341 | over every run Follow returns only on a refused token or a cancellation, the watcher retires only on an unimplemented or unauthenticated answer or a cancellation |
| Wake.FailureIsRetried | edgeclient/client.go:322-341 | any other failure is slept on and the stream opened again; a failed sync waits for the next poll |
| Wake.NudgesWhenCalledFor | edgeclient/client.go:309-321 | exactly a greeting or a wake nudges, and any message resets the backoff |
| Wake.NoInventedWake | edgeclient/client.go:313-319 | Follow is woken at most once per such message |
| Wake.BackoffDoubles | edgeclient/client.go:306-341 | the sleep after k failures without a message is min(2^k, 30) seconds |
| Commands.TrimTrims | projection/projection.go:96-99 | trimming leaves no space at either end, is idempotent and keeps a trimmed string |
| Commands.TrimTakesBlanks | projection/projection.go:96-99 | what it takes from the two ends is white space only |
| Commands.SpaceIffWhite | projection/projection.go:96-99 | a space is exactly the encoding of a white space character |
| Commands.AcceptedIff | projection/projection.go:95-132 | the trimmed fields that are accepted, kind by kind with their bounds of 128, 200 and 4096 bytes, and the command and identity each gives; the rest are refused |
| Commands.MinuteIs | projection/projection.go:119-128 | a say's bucket is the whole minutes of 60 seconds, towards zero |
| Commands.Fnv8 | projection/projection.go:136-143 | the loop computes the eight-digit hash |
| Commands.FnvIs | projection/projection.go:136-143 | FNV-1a over 64 bits from its offset, byte after byte |
| Commands.HashSpells | projection/projection.go:142 | eight hexadecimal digits of the folded halves, most significant first |
| Commands.IdsNameTargets | projection/projection.go:95-132 | accepted commands share an identity iff kind, target and (spawn, say) hash agree |
| Commands.StampsDiffer | projection/projection.go:119-128 | what a say hashes determines its prompt and minute |
| Commands.Revalidates | projection/projection.go:95-132 | a command's own fields are accepted again as the same command, under the same identity unless it is a say in another minute with another hash |
| Convert.EncodeStatus | link/convert.go:17-66 | the nested append loops compute the wire status |
| Convert.DecodeStatus | link/convert.go:112-161 | likewise back |
| Convert.EncodePane | link/convert.go:163-185 | likewise for a frame |
| Convert.DecodePane | link/convert.go:187-212 | likewise back |
| Carried.StatusOnWireIs | link/convert.go:17-87 | the wire status is the one message that carries every field, the time it is of included; a state the wire has no word for is unspecified, counters are their 32-bit residues |
| Carried.StatusOffWireIs | link/convert.go:89-161 | the status read back is the one that carries every field of the message; an unlearned state is none |
| Carried.PaneCarried | link/convert.go:163-212 | likewise for a frame, both ways |
| Carried.DigestCarried | link/convert.go:272-311 | likewise for a digest, both ways |
| Convert.StateRound | link/convert.go:214-242 | a state survives iff it is known or empty |
| Convert.TimeRound | link/convert.go:24-26 | a time survives iff it is in UTC, the zero time included |
| Convert.AgentRound | link/convert.go:33-60 | an agent survives iff plain, and is plain afterwards |
| Convert.UsageRound | link/convert.go:68-110 | likewise usage |
| Convert.StatusRound | link/convert.go:17-161 | a status survives iff states are known, counters fit 32 bits and times are UTC; otherwise one trip makes it so, and a second changes nothing |
| Convert.StatusStaysBounded | link/convert.go:112-161 | a clamped status is still within its bounds after the trip |
| Convert.PaneRound | link/convert.go:163-212 | frames with 32-bit measures and wire frames correspond one to one |
| Convert.ClampedPaneIsPlain | projection/projection.go:348-376 | a clamped frame survives iff its cursor fits 32 bits |
| Convert.DigestRound | link/convert.go:272-311 | a digest survives iff its time is in UTC, and the trip is idempotent |

## Left out

- 64-bit wrap-around of the hubs' `seq` and of the cloud's cursor: sequence numbers of hubs and clouds are unbounded; `Sync` wraps the client's own, and `Convergence` asks that a pass stay below 2^64.
- PaneHub.PaneHub.Publish: no receives run between its channel operations; that any do is `PaneFanout`, over the sessions as values.
- Server.Server.Pair: runs without interference over the objects; its interleavings with every other call are in `Host`, over values.
- `WatchStatus` and `WatchPane`: their receive, subscribe and unsubscribe steps are modelled, their loops, heartbeats and send errors are not.
- Follow and watch as loops: `Wake` has them as two interleaved state machines, which is what their property is about.
- The registry's file: loading, the temporary file and rename. A write is an outcome, persisted or not. `Registry.List` and `GetHostInfo` only read.
- `Answer` validation, `SubmitAnswer`, `SubmitCommand`, `GetDigest`: single checks around calls into code that is not part of this model.
- Pointers and slices: a registration in the registry is a value, nil and empty slices are one, and the aliasing of a digest's bullets with its wire message is not captured.
- Costs are reals: floating point is only carried, never computed with.
- Command kinds and dispositions on the wire (`link/convert.go:244-270`): closed switches, one line each.
- The pairing QR's URL, the bonjour record, TLS, identity files, HTTP headers, error codes and wording, logging.
- Registration of a device with the cloud, leases and artifact upload: no logic of their own here.
