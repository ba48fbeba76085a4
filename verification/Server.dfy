/**
 * The two calls that end a device's sessions, over the real objects: revocation, and the
 * pairing that replaces a registration. Run without interference here; every interleaving
 * of the same steps is the Host module's.
 */
module Server {
  import opened Options
  import opened Stores
  import opened Utf8
  import opened StoreObjects
  import opened StatusHub
  import P = PaneHub
  import S = PaneSpec

  // `signalled` are the pane streams already told they are gone.
  datatype Holdings = Holdings(
    sessions: map<string, Session>, subs: set<Subscriber>,
    panes: S.Panes<P.PaneSub, Projection.PaneFrame>, paneSubs: set<P.PaneSub>, signalled: set<P.PaneSub>)

  class Server {
    const registry: Registry
    const pairs: Manager
    const tokens: Tokens
    const hub: Hub
    const paneHub: P.PaneHub

    ghost predicate Valid()
      reads hub, hub.model.watchers.Keys
      reads paneHub, paneHub.sessions.Values`subs, paneHub.Subs()`once, paneHub.Subs()`gone, paneHub.source
    {
      hub.Valid() && paneHub.Valid()
    }

    constructor (registry: Registry, pairs: Manager, tokens: Tokens, hub: Hub, paneHub: P.PaneHub)
      requires hub.Valid() && paneHub.Valid()
      ensures Valid()
    {
      this.registry, this.pairs, this.tokens, this.hub, this.paneHub := registry, pairs, tokens, hub, paneHub;
    }

    /** What the device and everyone else holds: the part of the host a drop may touch. */
    ghost function Held(): Holdings
      reads tokens`sessions, hub`subs, paneHub.Subs()`gone
      reads paneHub`sessions, paneHub.sessions.Values`current, paneHub.sessions.Values`seqNo
      reads paneHub.sessions.Values`subs, paneHub.sessions.Values`open, paneHub.Subs()`updates, paneHub.source`log
    {
      Holdings(tokens.sessions, hub.subs, paneHub.View(), paneHub.Subs(), set w | w in paneHub.Subs() && w.gone)
    }

    /** From `was`, every session and stream of the device has ended, and no other. */
    ghost predicate Ended(deviceID: Id, was: Holdings)
      reads tokens`sessions, hub`subs, hub`model, was.subs`gone, was.paneSubs`gone, was.paneSubs`once
      reads paneHub`sessions, paneHub.sessions.Values`current, paneHub.sessions.Values`seqNo
      reads paneHub.sessions.Values`subs, paneHub.sessions.Values`open, paneHub.Subs()`updates, paneHub.source`log
    {
      && tokens.sessions == DropTokens(was.sessions, deviceID)
      && hub.subs == (set w | w in was.subs && w.deviceID != deviceID)
      && (forall w :: w in was.subs && w.deviceID == deviceID ==>
            w.gone && w in hub.model.watchers && hub.model.watchers[w].signals == 1)
      && paneHub.View() == S.Step(was.panes, S.Drop(deviceID))
      && forall w :: w in was.paneSubs ==> w.once == w.gone == (w in was.signalled || w.deviceID == deviceID)
    }

    method DropStreams(deviceID: Id)
      requires Valid()
      modifies hub`subs, hub`model, hub.subs`gone, hub.subs`once
      modifies paneHub.sessions.Values`current, paneHub.sessions.Values`subs, paneHub.sessions.Values`open
      modifies paneHub.Subs()`gone, paneHub.Subs()`once, paneHub.source`log
      ensures Valid()
      ensures hub.subs == set w | w in old(hub.subs) && w.deviceID != deviceID
      ensures forall w :: w in old(hub.subs) && w.deviceID == deviceID ==>
        w.gone && w in hub.model.watchers && hub.model.watchers[w].signals == 1
      ensures paneHub.View() == S.Step(old(paneHub.View()), S.Drop(deviceID))
      ensures forall w :: w in old(paneHub.Subs()) ==> w.once == w.gone == (old(w.gone) || w.deviceID == deviceID)
    {
      hide S.Step, P.PaneHub.View, P.PaneHub.Separate, StatusHub.F.Inv;
      hub.DropDevice(deviceID);
      paneHub.DropDevice(deviceID);
    }

    method DropEverything(deviceID: Id)
      requires Valid()
      modifies tokens`sessions, hub`subs, hub`model, hub.subs`gone, hub.subs`once
      modifies paneHub.sessions.Values`current, paneHub.sessions.Values`subs, paneHub.sessions.Values`open
      modifies paneHub.Subs()`gone, paneHub.Subs()`once, paneHub.source`log
      ensures Valid()
      ensures Ended(deviceID, old(Held()))
    {
      hide S.Step, P.PaneHub.View, P.PaneHub.Separate, StatusHub.F.Inv;
      tokens.DropDevice(deviceID);
      DropStreams(deviceID);
    }

    /**
     * Tombstone, then drop. The tombstone stands even when writing it to disk fails, but
     * then the call returns early: sessions and streams are as they were.
     */
    method RevokeDevice(deviceID: Id, now: int) returns (ok: bool)
      requires Valid()
      modifies registry`devices
      modifies tokens`sessions, hub`subs, hub`model, hub.subs`gone, hub.subs`once
      modifies paneHub.sessions.Values`current, paneHub.sessions.Values`subs, paneHub.sessions.Values`open
      modifies paneHub.Subs()`gone, paneHub.Subs()`once, paneHub.source`log
      ensures Valid()
      ensures ok ==> deviceID in old(registry.devices)
      ensures registry.devices == if deviceID in old(registry.devices)
                                  then Tombstone(old(registry.devices), deviceID, now) else old(registry.devices)
      ensures if ok then Ended(deviceID, old(Held())) else Held() == old(Held())
    {
      hide Held, Ended, StatusHub.F.Inv;
      var found, persisted := registry.Revoke(deviceID, now);
      if !found || !persisted {
        return false;
      }
      DropEverything(deviceID);
      ok := true;
    }

    /**
     * What a pairing has done to the window and the book: the window is shut exactly when
     * the request spends it, and the device then registered as it asked if it can be;
     * nothing else in the book changes.
     */
    ghost predicate Booked(req: PairRequest, now: int, window: Window, devices: map<Id, Device>)
      reads registry`devices, pairs`window
    {
      && pairs.window == (if Spends(req, window, now) then window.(secret := "") else window)
      && if Spends(req, window, now) && Registers(req) then
           && registry.devices.Keys == devices.Keys + {req.id} && RegisteredAs(registry.devices[req.id], req, now)
           && forall d :: d in devices && d != req.id ==> registry.devices[d] == devices[d]
         else registry.devices == devices
    }

    /** Pair up to its drops: refuse, spend the window, register. */
    method Register(req: PairRequest, now: int) returns (ok: bool)
      modifies registry`devices, pairs`window
      ensures ok ==> Spends(req, old(pairs.window), now) && Registers(req)
      ensures Booked(req, now, old(pairs.window), old(registry.devices))
    {
      if !req.current || |req.publicKey| != KEY_SIZE || !req.proven {
        return false;
      }
      var redeemed := pairs.Redeem(req.secret, now);
      if !redeemed {
        return false;
      }
      var name := ClipDisplay(req.name);
      var model := ClipDisplay(req.model);
      var caps := if |req.capabilities| == 0 then DEFAULT_CAPABILITIES else req.capabilities;
      var d := Device(req.id, name, model, req.publicKey, caps, now, None, None);
      var _, persisted := registry.Add(d);
      ok := persisted;
      RegistrationIsAsked(req, now);
    }

    /**
     * The part of Pair that changes state. Nothing changes unless the request is well
     * formed and redeems the open window; a redemption that cannot be registered spends
     * the window and nothing else; and a registration that fails to persist stands in
     * memory, with the sessions and streams it replaced still alive.
     */
    method Pair(req: PairRequest, now: int) returns (ok: bool, granted: seq<string>)
      requires Valid()
      modifies registry`devices, pairs`window
      modifies tokens`sessions, hub`subs, hub`model, hub.subs`gone, hub.subs`once
      modifies paneHub.sessions.Values`current, paneHub.sessions.Values`subs, paneHub.sessions.Values`open
      modifies paneHub.Subs()`gone, paneHub.Subs()`once, paneHub.source`log
      ensures Valid()
      ensures ok ==> Spends(req, old(pairs.window), now) && Registers(req)
      ensures Booked(req, now, old(pairs.window), old(registry.devices))
      ensures forall c :: c in granted <==>
        ok && c in ["status.read", "agent.answer", "agent.command", "session.read"]
        && (c in req.capabilities || req.capabilities == [])
      ensures if ok then Ended(req.id, old(Held())) else Held() == old(Held())
    {
      hide Held, Ended, StatusHub.F.Inv, Spends, Registers;
      granted := [];
      ok := Register(req, now);
      if !ok {
        return;
      }
      DropEverything(req.id);
      granted := registry.Get(req.id).value.capabilities;
    }
  }
}
