/** The four stores as the source writes them: maps and fields updated in place. */
module StoreObjects {
  import opened Options
  import opened Stores

  class Tokens {
    var sessions: map<string, Session>

    constructor ()
      ensures sessions == map[]
    {
      sessions := map[];
    }

    method Mint(deviceID: Id, tok: string, now: int)
      modifies `sessions
      ensures sessions == MintToken(old(sessions), tok, deviceID, now)
      ensures forall t :: ResolveToken(sessions, tok, t) == if t < now + 24 * 60 * 60 * 1_000_000_000 then deviceID else ""
      ensures forall other, t :: other != tok ==> ResolveToken(sessions, other, t) == ResolveToken(old(sessions), other, t)
    {
      sessions := sessions[tok := Session(deviceID, now + TOKEN_TTL)];
    }

    method Resolve(tok: string, now: int) returns (deviceID: Id)
      modifies `sessions
      ensures deviceID == ResolveToken(old(sessions), tok, now)
      ensures deviceID == if tok in old(sessions) && now < old(sessions)[tok].expires then old(sessions)[tok].deviceID else ""
      ensures sessions == AfterResolve(old(sessions), tok, now)
      ensures forall t :: t in sessions <==> t in old(sessions) && !(t == tok && old(sessions)[t].expires <= now)
      ensures forall t :: t in sessions ==> sessions[t] == old(sessions)[t]
    {
      if tok !in sessions {
        return "";
      }
      var s := sessions[tok];
      if now >= s.expires {
        sessions := sessions - {tok};
        return "";
      }
      return s.deviceID;
    }

    method DropDevice(deviceID: Id)
      modifies `sessions
      ensures sessions == DropTokens(old(sessions), deviceID)
      ensures forall t :: t in sessions <==> t in old(sessions) && old(sessions)[t].deviceID != deviceID
      ensures forall t :: t in sessions ==> sessions[t] == old(sessions)[t]
    {
      var todo := sessions.Keys;
      while todo != {}
        invariant todo <= sessions.Keys <= old(sessions).Keys
        invariant forall t :: t in sessions ==> sessions[t] == old(sessions)[t]
        invariant forall t :: t in old(sessions) && t !in todo ==>
          (t in sessions <==> old(sessions)[t].deviceID != deviceID)
        decreases |todo|
      {
        var tok :| tok in todo;
        todo := todo - {tok};
        if sessions[tok].deviceID == deviceID {
          sessions := sessions - {tok};
        }
      }
    }
  }

  class Nonces {
    var issued: map<string, Nonce>

    constructor ()
      ensures issued == map[]
    {
      issued := map[];
    }

    method Mint(deviceID: Id, key: string, now: int)
      modifies `issued
      ensures issued == MintNonce(old(issued), key, deviceID, now)
      ensures forall d, t :: NonceLive(issued, key, d, t) <==> d == deviceID && t < now + 60 * 1_000_000_000
      ensures forall other, d, t :: other != key && now <= t ==>
        (NonceLive(issued, other, d, t) <==> NonceLive(old(issued), other, d, t))
    {
      // sweep the expired
      var todo := issued.Keys;
      while todo != {}
        invariant todo <= issued.Keys <= old(issued).Keys
        invariant forall k :: k in issued ==> issued[k] == old(issued)[k]
        invariant forall k :: k in old(issued) && k !in todo ==> (k in issued <==> now < old(issued)[k].expires)
        decreases |todo|
      {
        var k :| k in todo;
        todo := todo - {k};
        if now >= issued[k].expires {
          issued := issued - {k};
        }
      }
      issued := issued[key := Nonce(deviceID, now + NONCE_TTL)];
    }

    method Consume(key: string, deviceID: Id, now: int) returns (ok: bool)
      modifies `issued
      ensures ok <==> key in old(issued) && now < old(issued)[key].expires && old(issued)[key].deviceID == deviceID
      ensures issued == old(issued) - {key}
    {
      if key !in issued {
        return false;
      }
      var n := issued[key];
      issued := issued - {key};
      return now < n.expires && n.deviceID == deviceID;
    }
  }

  class Manager {
    var window: Window

    constructor ()
      ensures window.secret == ""
    {
      window := Window("", 0);
    }

    method Open(secret: string, now: int)
      modifies `window
      ensures forall s, t :: Redeems(window, s, t) <==> s != "" && s == secret && t < now + 120 * 1_000_000_000
    {
      window := Window(secret, now + WINDOW_TTL);
    }

    method Close()
      modifies `window
      ensures window == old(window).(secret := "")
      ensures forall s, t :: !Redeems(window, s, t)
    {
      window := window.(secret := "");
    }

    /** What a host advertises: whether some secret would redeem right now. */
    method OpenNow(now: int) returns (open: bool)
      ensures open <==> exists secret :: Redeems(window, secret, now)
    {
      assert WindowOpen(window, now) ==> Redeems(window, window.secret, now);
      return window.secret != "" && now < window.expires;
    }

    /** A match burns the window; anything else leaves it standing. */
    method Redeem(secret: string, now: int) returns (ok: bool)
      modifies `window
      ensures ok <==> old(window).secret != "" && now < old(window).expires && secret == old(window).secret
      ensures ok ==> forall s, t :: !Redeems(window, s, t)
      ensures window == if ok then old(window).(secret := "") else old(window)
    {
      if window.secret == "" || now >= window.expires {
        return false;
      }
      ok := window.secret == secret;
      if ok {
        window := window.(secret := "");
      }
    }
  }

  /** The append loop Add and SetCapabilities share. */
  method Filter(caps: seq<string>) returns (kept: seq<string>)
    ensures kept == Recognized(caps)
  {
    kept := [];
    for i := 0 to |caps|
      invariant kept == Recognized(caps[..i])
    {
      assert caps[..i + 1][..i] == caps[..i];
      if KnownCapability(caps[i]) && caps[i] !in kept {
        kept := kept + [caps[i]];
      }
    }
    assert caps[..|caps|] == caps;
  }

  class Registry {
    var devices: map<Id, Device>

    constructor (loaded: map<Id, Device>)
      ensures devices == loaded
    {
      devices := loaded;
    }

    // The write to disk may fail; the in-memory book has changed by then.
    method Persist() returns (ok: bool) {
      ok := *;
    }

    method Add(d: Device) returns (addable: bool, persisted: bool)
      modifies `devices
      ensures addable == Addable(d) && (persisted ==> addable)
      ensures addable <==> |d.publicKey| == 32 && exists c :: c in d.capabilities && c in CAPABILITIES
      ensures devices == if addable then AddDevice(old(devices), d) else old(devices)
      ensures addable ==>
        && devices.Keys == old(devices).Keys + {d.id} && devices[d.id].(capabilities := d.capabilities) == d
        && (forall c :: c in devices[d.id].capabilities <==> c in d.capabilities && c in CAPABILITIES)
        && forall i :: i in old(devices) && i != d.id ==> devices[i] == old(devices)[i]
    {
      assert forall c :: KnownCapability(c) <==> c in CAPABILITIES;
      addable, persisted := false, false;
      if |d.publicKey| != KEY_SIZE {
        return;
      }
      var caps := Filter(d.capabilities);
      if |caps| == 0 {
        return;
      }
      assert caps[0] in caps;
      addable := true;
      devices := devices[d.id := d.(capabilities := caps)];
      persisted := Persist();
    }

    function Get(id: Id): Option<Device>
      reads `devices
    {
      if id in devices then Some(devices[id]) else None
    }

    method Allowed(id: Id, capability: string) returns (ok: bool)
      ensures ok <==> Permitted(devices, id, capability)
      ensures ok <==> id in devices && devices[id].revokedAt == None && capability in devices[id].capabilities
    {
      if id !in devices {
        return false;
      }
      if devices[id].revokedAt.Some? {
        return false;
      }
      return capability in devices[id].capabilities;
    }

    method SetCapabilities(id: Id, caps: seq<string>) returns (ok: bool)
      modifies `devices
      ensures id !in old(devices) ==> !ok && devices == old(devices)
      ensures id in old(devices) ==>
        && devices == old(devices)[id := old(devices)[id].(capabilities := Recognized(caps))]
        && forall c :: c in devices[id].capabilities <==> c in caps && c in CAPABILITIES
    {
      if id !in devices {
        return false;
      }
      assert forall c :: KnownCapability(c) <==> c in CAPABILITIES;
      var kept := Filter(caps);
      devices := devices[id := devices[id].(capabilities := kept)];
      ok := Persist();
    }

    /** Nobody's standing changes: only when the device was last heard from. */
    method Touch(id: Id, at: int)
      modifies `devices
      ensures devices.Keys == old(devices.Keys)
      ensures id in devices ==> devices[id].lastSeenAt == Some(at)
      ensures forall d :: d in devices ==>
        && devices[d].(lastSeenAt := None) == old(devices)[d].(lastSeenAt := None)
        && (d != id ==> devices[d] == old(devices)[d])
      ensures forall d, capability :: Permitted(devices, d, capability) <==> Permitted(old(devices), d, capability)
    {
      if id in devices {
        devices := devices[id := devices[id].(lastSeenAt := Some(at))];
        var _ := Persist();
      }
    }

    method Revoke(id: Id, at: int) returns (found: bool, persisted: bool)
      modifies `devices
      ensures found == (id in old(devices)) && (persisted ==> found)
      ensures devices == if found then Tombstone(old(devices), id, at) else old(devices)
      ensures found ==>
        && devices.Keys == old(devices).Keys && devices[id].(revokedAt := None) == old(devices)[id].(revokedAt := None)
        && devices[id].revokedAt == (if old(devices)[id].revokedAt == None then Some(at) else old(devices)[id].revokedAt)
        && forall i :: i in devices && i != id ==> devices[i] == old(devices)[i]
    {
      if id !in devices {
        return false, false;
      }
      if devices[id].revokedAt.None? {
        devices := devices[id := devices[id].(revokedAt := Some(at))];
      }
      found := true;
      persisted := Persist();
    }
  }
}
