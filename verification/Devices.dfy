/**
 The device registry: devices and the pairing claims behind pending ones. A device that
 shares a relay identity with an older active one supersedes it; a failed pairing is rolled
 back and gives the identity to its predecessor again. Each call is one step.
 */
module Devices {
  import opened Prelude

  datatype DeviceState = Active | Pending | Expired | Superseded

  /** What a device is created with. */
  datatype Draft = Draft(
    relay: Option<string>, token: string, secret: string, install: string, nonce: string,
    lease: Option<int>, relaySecret: bool)

  datatype Device = Device(
    draft: Draft, createdAt: int, revokedAt: Option<int>, state: DeviceState,
    supersededBy: Option<string>, pair: Option<string>)

  datatype Claim = Claim(
    device: string, request: string, state: DeviceState, answered: bool,
    expiresAt: int, retainUntil: int, cleaned: bool)

  datatype Registry = Registry(devices: map<string, Device>, claims: map<string, Claim>)

  /** HMAC over the activation fields, keyed by the device's proof secret. */
  type Mac = (string, seq<string>) -> string

  const RETENTION: int := 600
  const ACTIVE_RETENTION: int := 86400

  // ------------------------------------------------------------------ queries

  predicate Live(d: Device) {
    d.state == Active && d.revokedAt.None?
  }

  predicate Shares(d: Device, relay: Option<string>) {
    relay.Some? && d.draft.relay == relay
  }

  /** The active, unrevoked devices of one relay identity, other than `except`. */
  function Holders(s: Registry, relay: Option<string>, except: string): set<string> {
    set d | d in s.devices && d != except && Shares(s.devices[d], relay) && Live(s.devices[d])
  }

  function Supersede(devices: map<string, Device>, ids: set<string>, heir: string, now: int): map<string, Device> {
    map d | d in devices ::
      if d in ids then devices[d].(revokedAt := Some(now), supersededBy := Some(heir)) else devices[d]
  }

  // ----------------------------------------------------------------- creation

  /** `id` is fresh: an insert of a known id would fail and change nothing. */
  function Create(s: Registry, id: string, draft: Draft, now: int): Registry {
    if id in s.devices then s
    else s.(devices := Supersede(s.devices, Holders(s, draft.relay, id), id, now)[
              id := Device(draft, now, None, Active, None, None)])
  }

  function CreatePending(s: Registry, id: string, draft: Draft, pair: string, request: string, expiresAt: int,
                         now: int)
      : Result<Registry, string> {
    if pair in s.claims then
      if s.claims[pair].request != request then Err("pair_claim_conflict")
      else if s.claims[pair].state in {Pending, Active} && s.claims[pair].answered then Err("pair_claim_already_saved")
      else Err("pair_claim_expired")
    else if id in s.devices then Err("integrity")
    else
      Ok(Registry(s.devices[id := Device(draft, now, None, Pending, None, Some(pair))],
                  s.claims[pair := Claim(id, request, Pending, true, expiresAt, expiresAt + RETENTION, false)]))
  }

  // --------------------------------------------------------------- activation

  datatype Activation = Activation(pair: string, device: string, install: string, nonce: string, token: string, proof: string)

  datatype Activated = Activated(registry: Registry, outcome: Result<bool, string>)

  /** The checks before the relay identity is looked at. */
  function CheckActivation(mac: Mac, s: Registry, q: Activation, now: int): Option<string> {
    if q.device !in s.devices then Some("pair_activation_invalid")
    else
      var d := s.devices[q.device];
      if q.install == "" || d.draft.install == "" || d.draft.install != q.install then Some("pair_install_id_mismatch")
      else if q.pair in s.claims && s.claims[q.pair].state == Superseded then Some("pair_activation_superseded")
      else if q.pair in s.claims && s.claims[q.pair].state == Expired then Some("pair_activation_expired")
      else if q.pair !in s.claims && (d.state != Active || d.pair != Some(q.pair)) then Some("pair_activation_invalid")
      else if q.pair in s.claims && s.claims[q.pair].device != q.device then Some("pair_activation_invalid")
      else if d.revokedAt.Some? then Some("pair_activation_expired")
      else if d.draft.lease.Some? && now >= d.draft.lease.value then Some("pair_activation_expired")
      else if q.pair in s.claims && s.claims[q.pair].state == Pending && now > s.claims[q.pair].expiresAt then
        Some("pair_activation_expired")
      else if d.draft.nonce == "" || d.draft.nonce != q.nonce || d.draft.token != q.token then
        Some("pair_activation_invalid")
      else if q.proof == ""
              || mac(d.draft.secret, [q.pair, q.device, q.nonce, q.token, d.draft.install]) != q.proof then
        Some("pair_activation_invalid")
      else None
  }

  /** Holders of the identity that are strictly newer than the pending device. */
  function Newer(s: Registry, id: string): set<string>
    requires id in s.devices
  {
    set d | d in Holders(s, s.devices[id].draft.relay, id) && s.devices[d].createdAt > s.devices[id].createdAt
  }

  /** The pending device lost the race: it and its claim become tombstones. */
  function LoseTo(s: Registry, id: string, newer: string, pair: string, now: int): Registry
    requires id in s.devices
  {
    Registry(s.devices[id := s.devices[id].(state := Superseded, revokedAt := Some(now), supersededBy := Some(newer))],
             if pair in s.claims
             then s.claims[pair := s.claims[pair].(state := Superseded, answered := false, retainUntil := now + RETENTION)]
             else s.claims)
  }

  function Win(s: Registry, id: string, pair: string, now: int): Registry
    requires id in s.devices
  {
    var devices := Supersede(s.devices, Holders(s, s.devices[id].draft.relay, id), id, now);
    Registry(devices[id := s.devices[id].(state := Active)],
             if pair in s.claims
             then s.claims[pair := s.claims[pair].(state := Active, retainUntil := now + ACTIVE_RETENTION)]
             else s.claims)
  }

  /** Of the newer holders the newest is named; `Ok(true)` means it was active already. */
  ghost predicate Activates(mac: Mac, s: Registry, q: Activation, callbackFails: bool, now: int, a: Activated) {
    var bad := CheckActivation(mac, s, q, now);
    if bad.Some? then a == Activated(s, Err(bad.value))
    else if s.devices[q.device].state == Active && (q.pair in s.claims ==> s.claims[q.pair].state == Active) then
      a == Activated(s, if callbackFails then Err("callback") else Ok(true))
    else if Newer(s, q.device) != {} then
      exists n :: n in Newer(s, q.device)
                  && (forall m | m in Newer(s, q.device) :: s.devices[m].createdAt <= s.devices[n].createdAt)
                  && a == Activated(LoseTo(s, q.device, n, q.pair, now), Err("pair_activation_superseded"))
    else if callbackFails then a == Activated(s, Err("callback"))
    else a == Activated(Win(s, q.device, q.pair, now), Ok(false))
  }

  // ------------------------------------------------------------------ pruning

  predicate Lapsed(c: Claim, now: int) {
    c.state == Pending && c.expiresAt <= now
  }

  /** Expires overdue claims and the pending devices behind them. */
  function Lapse(s: Registry, now: int): Registry {
    Registry(
      map d | d in s.devices ::
        if s.devices[d].state == Pending && exists p :: p in s.claims && s.claims[p].device == d && Lapsed(s.claims[p], now)
        then s.devices[d].(state := Expired, revokedAt := Some(now)) else s.devices[d],
      map p | p in s.claims ::
        if Lapsed(s.claims[p], now)
        then s.claims[p].(state := Expired, answered := false, retainUntil := now + RETENTION,
                          cleaned := !(s.claims[p].device in s.devices && s.devices[s.claims[p].device].draft.relaySecret))
        else s.claims[p])
  }

  predicate Finished(c: Claim, now: int) {
    c.retainUntil <= now && (c.state == Active || (c.state in {Expired, Superseded} && c.cleaned))
  }

  /** Forgets claims whose retention is over, and the dead devices behind them. */
  function Forget(s: Registry, now: int): Registry {
    Registry(
      map d | d in s.devices
        && !(s.devices[d].state in {Expired, Superseded}
             && exists p :: p in s.claims && s.claims[p].device == d && s.claims[p].state in {Expired, Superseded}
                            && Finished(s.claims[p], now))
        :: s.devices[d],
      map p | p in s.claims && !Finished(s.claims[p], now) :: s.claims[p])
  }

  function Prune(s: Registry, now: int): Registry {
    Forget(Lapse(s, now), now)
  }

  function MarkCleaned(s: Registry, pair: string, device: string): Registry {
    if pair in s.claims && s.claims[pair].device == device
    then s.(claims := s.claims[pair := s.claims[pair].(cleaned := true)]) else s
  }

  function Revoke(s: Registry, id: string, now: int): Registry {
    if id in s.devices && s.devices[id].revokedAt.None?
    then s.(devices := s.devices[id := s.devices[id].(revokedAt := Some(now))]) else s
  }

  // ----------------------------------------------------------------- rollback

  /** A live row that took the identity after the failed one, if there is any. */
  ghost predicate IsSuccessor(s: Registry, id: string, n: string)
    requires id in s.devices
  {
    && n in s.devices && s.devices[n].revokedAt.None?
    && (|| s.devices[id].supersededBy == Some(n)
        || (&& !LiveSuccessor(s, id)
            && n != id && Shares(s.devices[n], s.devices[id].draft.relay)
            && forall m | m in s.devices && m != id && s.devices[m].revokedAt.None?
                           && Shares(s.devices[m], s.devices[id].draft.relay) ::
                 s.devices[m].createdAt <= s.devices[n].createdAt))
  }

  predicate LiveSuccessor(s: Registry, id: string)
    requires id in s.devices
  {
    var n := s.devices[id].supersededBy;
    n.Some? && n.value in s.devices && s.devices[n.value].revokedAt.None?
  }

  predicate HasSuccessor(s: Registry, id: string)
    requires id in s.devices
  {
    || LiveSuccessor(s, id)
    || exists m :: m in s.devices && m != id && s.devices[m].revokedAt.None?
                   && Shares(s.devices[m], s.devices[id].draft.relay)
  }

  /** The device as its predecessors see it once the failed row is gone. */
  function Released(d: Device, id: string, createdAt: int, successor: Option<string>): Device {
    if d.supersededBy != Some(id) then d
    else if successor.Some? then d.(supersededBy := successor)
    else if d.revokedAt == Some(createdAt) then d.(revokedAt := None, supersededBy := None)
    else d.(supersededBy := None)
  }

  function Remove(s: Registry, id: string, successor: Option<string>): Registry
    requires id in s.devices
  {
    Registry(map d | d in s.devices && d != id :: Released(s.devices[d], id, s.devices[id].createdAt, successor),
             map p | p in s.claims && s.claims[p].device != id :: s.claims[p])
  }

  ghost predicate RollsBack(s: Registry, id: string, t: Registry) {
    if id !in s.devices then t == s
    else if HasSuccessor(s, id) then exists n :: IsSuccessor(s, id, n) && t == Remove(s, id, Some(n))
    else t == Remove(s, id, None)
  }

  // --------------------------------------------------------------- the machine

  datatype Step =
    | DoCreate(id: string, draft: Draft)
    | DoPending(id: string, draft: Draft, pair: string, request: string, expiresAt: int)
    | DoActivate(activation: Activation, callbackFails: bool)
    | DoPrune
    | DoCleaned(pair: string, device: string)
    | DoRevoke(id: string)
    | DoRollback(id: string)

  /** One call at one time; ties between equally new rows are broken either way. */
  ghost predicate Next(mac: Mac, s: Registry, step: Step, now: int, t: Registry) {
    match step
    case DoCreate(id, draft) => t == Create(s, id, draft, now)
    case DoPending(id, draft, pair, request, expiresAt) =>
      (match CreatePending(s, id, draft, pair, request, expiresAt, now)
       case Ok(u) => t == u
       case Err(_) => t == s)
    case DoActivate(q, callbackFails) => exists a :: Activates(mac, s, q, callbackFails, now, a) && t == a.registry
    case DoPrune => t == Prune(s, now)
    case DoCleaned(pair, device) => t == MarkCleaned(s, pair, device)
    case DoRevoke(id) => t == Revoke(s, id, now)
    case DoRollback(id) => RollsBack(s, id, t)
  }

  datatype Timed = Timed(step: Step, now: int)

  /** Calls made one after the other; states[i] is the registry before call i. */
  ghost predicate IsRun(mac: Mac, states: seq<Registry>, calls: seq<Timed>) {
    && |states| == |calls| + 1
    && forall i | 0 <= i < |calls| :: Next(mac, states[i], calls[i].step, calls[i].now, states[i + 1])
  }

  /** No two calls read the same clock value. */
  predicate StrictClock(calls: seq<Timed>, start: int) {
    && (forall i | 0 <= i < |calls| :: start < calls[i].now)
    && (forall i, j | 0 <= i < j < |calls| :: calls[i].now < calls[j].now)
  }

  const EMPTY := Registry(map[], map[])
}
