/** The registry's methods, row by row, as the specification says. */
module DeviceStore {
  import opened Prelude
  import opened Devices
  import opened DeviceHalves

  /** `Lapse` for some of the overdue claims. */
  function LapseSome(s: Registry, lapsed: set<string>, now: int): Registry {
    Registry(
      map d | d in s.devices ::
        if s.devices[d].state == Pending && exists p :: p in lapsed && p in s.claims && s.claims[p].device == d
        then s.devices[d].(state := Expired, revokedAt := Some(now)) else s.devices[d],
      map p | p in s.claims ::
        if p in lapsed
        then s.claims[p].(state := Expired, answered := false, retainUntil := now + RETENTION,
                          cleaned := !(s.claims[p].device in s.devices && s.devices[s.claims[p].device].draft.relaySecret))
        else s.claims[p])
  }

  function Overdue(s: Registry, now: int): set<string> {
    set p | p in s.claims && Lapsed(s.claims[p], now)
  }

  lemma LapseAll(s: Registry, now: int)
    ensures LapseSome(s, Overdue(s, now), now) == Lapse(s, now)
    ensures LapseSome(s, {}, now) == s
  {
    var all := Overdue(s, now);
    assert LapseSome(s, all, now).devices == Lapse(s, now).devices;
    assert LapseSome(s, all, now).claims == Lapse(s, now).claims;
    assert LapseSome(s, {}, now).devices == s.devices && LapseSome(s, {}, now).claims == s.claims;
  }

  class DeviceRegistry {
    var devices: map<string, Device>
    var claims: map<string, Claim>
    const mac: Mac

    constructor (mac: Mac)
      ensures Contents() == EMPTY && this.mac == mac
    {
      devices, claims := map[], map[];
      this.mac := mac;
    }

    ghost function Contents(): Registry
      reads this
    {
      Registry(devices, claims)
    }

    /** Revokes the given rows, if they are still there, in favour of a new holder. */
    method SupersedeAll(ids: set<string>, heir: string, now: int)
      modifies this`devices
      ensures devices == Supersede(old(devices), ids, heir, now)
    {
      ghost var was := devices;
      var left := ids;
      assert Supersede(was, {}, heir, now) == was;
      while left != {}
        invariant left <= ids
        invariant devices == Supersede(was, ids - left, heir, now)
        decreases |left|
      {
        var d :| d in left;
        left := left - {d};
        if d in devices {
          devices := devices[d := devices[d].(revokedAt := Some(now), supersededBy := Some(heir))];
        }
        assert devices == Supersede(was, ids - left, heir, now);
      }
      assert ids - left == ids;
    }

    /** The transaction of a create, after the holders were looked up. */
    method SaveDevice(id: string, draft: Draft, now: int, seen: set<string>)
      modifies this`devices
      ensures Contents() == CreateWrite(old(Contents()), id, draft, now, seen)
    {
      if id in devices {
        return;
      }
      SupersedeAll(seen, id, now);
      devices := devices[id := Device(draft, now, None, Active, None, None)];
    }

    /** Both halves of a create, with nobody in between. */
    method CreateDevice(id: string, draft: Draft, now: int)
      modifies this`devices
      ensures Contents() == Create(old(Contents()), id, draft, now)
    {
      CreateWhole(Contents(), id, draft, now);
      SaveDevice(id, draft, now, Holders(Registry(devices, claims), draft.relay, id));
    }

    /**
     One claim per pairing request: a second one, same or other, is refused. The new device is
     not live, so who holds the relay identity does not change before it is activated.
     */
    method CreatePendingDevice(id: string, draft: Draft, pair: string, request: string, expiresAt: int, now: int)
        returns (error: Option<string>)
      modifies this
      ensures error.None? <==> pair !in old(claims) && id !in old(devices)
      ensures error == Some("pair_claim_conflict") <==> pair in old(claims) && old(claims)[pair].request != request
      ensures error.Some? ==> Contents() == old(Contents())
      ensures error.None? ==>
                && devices - {id} == old(devices) && claims - {pair} == old(claims)
                && id in devices && devices[id].state == Pending && pair in claims && claims[pair].device == id
                && (Lapsed(claims[pair], now) <==> expiresAt <= now)
      ensures forall relay, except {:trigger Holders(Contents(), relay, except)} ::
                Holders(Contents(), relay, except) == Holders(old(Contents()), relay, except)
      ensures error.None? ==>
                forall other, again, at {:trigger CreatePending(Contents(), other, again, pair, request, at, now)} ::
                  CreatePending(Contents(), other, again, pair, request, at, now) == Err("pair_claim_already_saved")
      ensures match CreatePending(old(Contents()), id, draft, pair, request, expiresAt, now)
              case Ok(t) => error.None? && Contents() == t
              case Err(e) => error == Some(e) && Contents() == old(Contents())
    {
      if pair in claims {
        var c := claims[pair];
        if c.request != request {
          return Some("pair_claim_conflict");
        }
        if c.state in {Pending, Active} && c.answered {
          return Some("pair_claim_already_saved");
        }
        return Some("pair_claim_expired");
      }
      if id in devices {
        return Some("integrity");
      }
      devices := devices[id := Device(draft, now, None, Pending, None, Some(pair))];
      claims := claims[pair := Claim(id, request, Pending, true, expiresAt, expiresAt + RETENTION, false)];
      return None;
    }

    /** The newest of some rows. */
    method Newest(ids: set<string>) returns (n: string)
      requires ids != {} && ids <= devices.Keys
      ensures n in ids && forall m | m in ids :: devices[m].createdAt <= devices[n].createdAt
    {
      n :| n in ids;
      var left := ids - {n};
      while left != {}
        invariant left <= ids && n in ids
        invariant forall m | m in ids - left :: devices[m].createdAt <= devices[n].createdAt
        decreases |left|
      {
        var m :| m in left;
        left := left - {m};
        if devices[m].createdAt > devices[n].createdAt {
          n := m;
        }
      }
    }

    method ActivatePendingClaim(q: Activation, callbackFails: bool, now: int) returns (r: Result<bool, string>)
      modifies this
      ensures Activates(mac, old(Contents()), q, callbackFails, now, Activated(Contents(), r))
    {
      ghost var was := Contents();
      var bad := CheckActivation(mac, Registry(devices, claims), q, now);
      if bad.Some? {
        return Err(bad.value);
      }
      if devices[q.device].state == Active && (q.pair in claims ==> claims[q.pair].state == Active) {
        return if callbackFails then Err("callback") else Ok(true);
      }
      var newer := Newer(Registry(devices, claims), q.device);
      if newer != {} {
        var n := Newest(newer);
        devices := devices[q.device := devices[q.device].(state := Superseded, revokedAt := Some(now),
                                                          supersededBy := Some(n))];
        if q.pair in claims {
          claims := claims[q.pair := claims[q.pair].(state := Superseded, answered := false,
                                                     retainUntil := now + RETENTION)];
        }
        assert Contents() == LoseTo(was, q.device, n, q.pair, now);
        return Err("pair_activation_superseded");
      }
      if callbackFails {
        return Err("callback");
      }
      var d := devices[q.device];
      SupersedeAll(Holders(Registry(devices, claims), d.draft.relay, q.device), q.device, now);
      devices := devices[q.device := d.(state := Active)];
      if q.pair in claims {
        claims := claims[q.pair := claims[q.pair].(state := Active, retainUntil := now + ACTIVE_RETENTION)];
      }
      assert Contents() == Win(was, q.device, q.pair, now);
      return Ok(false);
    }

    /** Expires one claim and the pending device behind it. */
    method LapseClaim(p: string, now: int)
      requires p in claims
      modifies this
      ensures Contents() == LapsedOne(old(Contents()), p, now)
    {
      var c := claims[p];
      if c.device in devices && devices[c.device].state == Pending {
        devices := devices[c.device := devices[c.device].(state := Expired, revokedAt := Some(now))];
      }
      claims := claims[p := c.(state := Expired, answered := false, retainUntil := now + RETENTION,
                               cleaned := !(c.device in devices && devices[c.device].draft.relaySecret))];
    }

    /** Deletes what has been kept long enough. */
    method ForgetFinished(now: int)
      modifies this
      ensures Contents() == Forget(old(Contents()), now)
    {
      devices, claims := map d | d in devices
          && !(devices[d].state in {Expired, Superseded}
               && exists p :: p in claims && claims[p].device == d && claims[p].state in {Expired, Superseded}
                              && Finished(claims[p], now))
          :: devices[d],
        map p | p in claims && !Finished(claims[p], now) :: claims[p];
    }

    /** Expires one more of the claims that were overdue at the start. */
    method LapseNext(p: string, now: int, ghost was: Registry, ghost done: set<string>)
      requires p in was.claims && p !in done && Contents() == LapseSome(was, done, now)
      modifies this
      ensures Contents() == LapseSome(was, done + {p}, now)
    {
      LapseOneMore(was, done, p, now);
      LapseClaim(p, now);
    }

    /** Expires overdue claims one by one. */
    method LapseOverdue(now: int)
      modifies this
      ensures Contents() == Lapse(old(Contents()), now)
    {
      ghost var was := Contents();
      var left := Overdue(Registry(devices, claims), now);
      ghost var done: set<string> := {};
      LapseAll(was, now);
      while left != {}
        invariant left !! done && left + done == Overdue(was, now)
        invariant Contents() == LapseSome(was, done, now)
        decreases |left|
      {
        var p :| p in left;
        LapseNext(p, now, was, done);
        left := left - {p};
        done := done + {p};
      }
    }

    /** Expires what is overdue, then forgets. */
    method PrunePendingClaims(now: int)
      modifies this
      ensures Contents() == Prune(old(Contents()), now)
    {
      LapseOverdue(now);
      ForgetFinished(now);
    }

    method RevokeDevice(id: string, now: int) returns (changed: bool)
      modifies this`devices
      ensures Contents() == Revoke(old(Contents()), id, now)
      ensures changed <==> id in old(devices) && old(devices)[id].revokedAt.None?
    {
      changed := id in devices && devices[id].revokedAt.None?;
      if changed {
        devices := devices[id := devices[id].(revokedAt := Some(now))];
      }
    }

    /** The live row that superseded this one, else the newest other unrevoked row of its identity. */
    method FindSuccessor(id: string) returns (successor: Option<string>)
      requires id in devices
      ensures successor.Some? <==> HasSuccessor(Contents(), id)
      ensures successor.Some? ==> IsSuccessor(Contents(), id, successor.value)
    {
      successor := devices[id].supersededBy;
      if successor.Some? && successor.value in devices && devices[successor.value].revokedAt.None? {
        return;
      }
      var relay := devices[id].draft.relay;
      var others := set m | m in devices && m != id && devices[m].revokedAt.None? && Shares(devices[m], relay);
      if others == {} {
        assert forall m | m in devices && m != id && devices[m].revokedAt.None? && Shares(devices[m], relay) :: m in others;
        return None;
      }
      var n := Newest(others);
      assert forall m | m in devices && m != id && devices[m].revokedAt.None? && Shares(devices[m], relay) :: m in others;
      return Some(n);
    }

    /** The transaction of a rollback, after the failed row and its successor were looked up. */
    method ReleaseDevice(id: string, createdAt: int, successor: Option<string>)
      modifies this
      ensures Contents() == RollbackWrite(old(Contents()), id, createdAt, successor)
    {
      devices := map d | d in devices && d != id :: Released(devices[d], id, createdAt, successor);
      claims := map p | p in claims && claims[p].device != id :: claims[p];
    }

    /** Removes one failed row and gives its identity to a live successor or back. */
    method RollbackCreatedDevice(id: string) returns (found: bool)
      modifies this
      ensures RollsBack(old(Contents()), id, Contents())
      ensures found <==> id in old(devices)
    {
      if id !in devices {
        return false;
      }
      var failed := devices[id];
      var successor := FindSuccessor(id);
      RollbackWhole(Contents(), id, successor);
      ReleaseDevice(id, failed.createdAt, successor);
      return true;
    }
  }

  /** One more overdue claim and the device behind it. */
  function LapsedOne(s: Registry, p: string, now: int): Registry
    requires p in s.claims
  {
    var c := s.claims[p];
    Registry(if c.device in s.devices && s.devices[c.device].state == Pending
             then s.devices[c.device := s.devices[c.device].(state := Expired, revokedAt := Some(now))] else s.devices,
             s.claims[p := c.(state := Expired, answered := false, retainUntil := now + RETENTION,
                              cleaned := !(c.device in s.devices && s.devices[c.device].draft.relaySecret))])
  }

  lemma LapseOneMore(s: Registry, done: set<string>, p: string, now: int)
    requires p in s.claims && p !in done
    ensures LapsedOne(LapseSome(s, done, now), p, now) == LapseSome(s, done + {p}, now)
  {
    var t, v := LapsedOne(LapseSome(s, done, now), p, now), LapseSome(s, done + {p}, now);
    forall d | d in s.devices ensures t.devices[d] == v.devices[d] {
      LapsedDevice(s, done, p, now, d);
    }
    assert t.devices == v.devices;
    LapsedClaims(s, done, p, now);
  }

  lemma LapsedClaims(s: Registry, done: set<string>, p: string, now: int)
    requires p in s.claims && p !in done
    ensures LapsedOne(LapseSome(s, done, now), p, now).claims == LapseSome(s, done + {p}, now).claims
  {
  }

  lemma LapsedDevice(s: Registry, done: set<string>, p: string, now: int, d: string)
    requires p in s.claims && p !in done && d in s.devices
    ensures d in LapsedOne(LapseSome(s, done, now), p, now).devices
    ensures LapsedOne(LapseSome(s, done, now), p, now).devices[d] == LapseSome(s, done + {p}, now).devices[d]
  {
    if s.claims[p].device == d {
      assert p in done + {p};
    }
  }
}
