/** Supersession and rollback: at most one live device per relay identity. */
module DeviceTheorems {
  import opened Prelude
  import opened Devices

  // --------------------------------------------------------------- invariant

  predicate SameIdentity(s: Registry, d: string, e: string) {
    d in s.devices && e in s.devices && d != e && Shares(s.devices[d], s.devices[e].draft.relay)
  }

  /** At most one active, unrevoked device per relay identity. */
  ghost predicate OneHolder(s: Registry) {
    forall d, e {:trigger SameIdentity(s, d, e)} | SameIdentity(s, d, e) ::
      !(Live(s.devices[d]) && Live(s.devices[e]))
  }

  /** Whoever was revoked at the very moment another row was created was superseded by it. */
  predicate RevokedAtBirthOf(s: Registry, d: string, x: string) {
    d in s.devices && x in s.devices && s.devices[d].revokedAt == Some(s.devices[x].createdAt)
  }

  ghost predicate Supersessions(s: Registry) {
    && (forall d | d in s.devices && s.devices[d].revokedAt.None? :: s.devices[d].supersededBy.None?)
    && (forall d | d in s.devices && s.devices[d].supersededBy.Some? && s.devices[d].supersededBy.value in s.devices ::
          s.devices[d].supersededBy.value != d
          && Shares(s.devices[d], s.devices[s.devices[d].supersededBy.value].draft.relay))
    && (forall d, x {:trigger RevokedAtBirthOf(s, d, x)} | RevokedAtBirthOf(s, d, x) ::
          s.devices[d].supersededBy == Some(x) && s.devices[d].state == Active)
    && (forall d, e, x {:trigger RevokedAtBirthOf(s, d, x), RevokedAtBirthOf(s, e, x)} |
          RevokedAtBirthOf(s, d, x) && RevokedAtBirthOf(s, e, x) :: d == e)
  }

  /** Nothing in the registry is from the future. */
  ghost predicate Dated(s: Registry, last: int) {
    && (forall d | d in s.devices :: s.devices[d].createdAt <= last)
    && (forall d | d in s.devices && s.devices[d].revokedAt.Some? :: s.devices[d].revokedAt.value <= last)
  }

  /** Claims and pending devices belong together; the dead stay revoked. */
  ghost predicate ClaimsOk(s: Registry) {
    && (forall p | p in s.claims ::
          s.claims[p].device in s.devices && s.devices[s.claims[p].device].pair == Some(p))
    && (forall d | d in s.devices && s.devices[d].state in {Expired, Superseded} :: s.devices[d].revokedAt.Some?)
    && (forall p | p in s.claims :: s.devices[s.claims[p].device].state == s.claims[p].state)
  }

  ghost predicate Inv(s: Registry, last: int) {
    OneHolder(s) && Supersessions(s) && Dated(s, last) && ClaimsOk(s)
  }

  lemma EmptyInv(last: int)
    ensures Inv(EMPTY, last)
  {
  }

  /** Device ids are random: a new one is neither in the registry nor referred to by it. */
  ghost predicate FreshId(s: Registry, id: string) {
    && id !in s.devices
    && (forall d | d in s.devices :: s.devices[d].supersededBy != Some(id))
    && (forall p | p in s.claims :: s.claims[p].device != id)
  }

  // ---------------------------------------------------------------- each call

  lemma SupersedeKeeps(s: Registry, ids: set<string>, heir: string, now: int, d: string)
    requires d in s.devices
    ensures var e := Supersede(s.devices, ids, heir, now)[d];
            && e.draft == s.devices[d].draft && e.createdAt == s.devices[d].createdAt
            && e.state == s.devices[d].state && e.pair == s.devices[d].pair
            && (if d in ids then e.revokedAt == Some(now) && e.supersededBy == Some(heir) else e == s.devices[d])
  {
  }

  lemma CreateOneHolder(s: Registry, id: string, draft: Draft, now: int)
    requires OneHolder(s) && id !in s.devices
    ensures OneHolder(Create(s, id, draft, now))
  {
    var t := Create(s, id, draft, now);
    forall d, e | SameIdentity(t, d, e) ensures !(Live(t.devices[d]) && Live(t.devices[e])) {
      if d != id && e != id {
        assert SameIdentity(s, d, e);
      }
    }
  }

  lemma CreateSupersessions(s: Registry, id: string, draft: Draft, now: int, last: int)
    requires Inv(s, last) && last < now && FreshId(s, id)
    ensures Supersessions(Create(s, id, draft, now))
  {
    var t := Create(s, id, draft, now);
    var ids := Holders(s, draft.relay, id);
    forall d, x | RevokedAtBirthOf(t, d, x) ensures t.devices[d].supersededBy == Some(x) && t.devices[d].state == Active {
      if d !in ids && d != id && x != id {
        assert RevokedAtBirthOf(s, d, x);
      }
    }
    forall d, e, x | RevokedAtBirthOf(t, d, x) && RevokedAtBirthOf(t, e, x) ensures d == e {
      if x == id {
        assert SameIdentity(s, d, e) || d == e;
      } else {
        assert RevokedAtBirthOf(s, d, x) && RevokedAtBirthOf(s, e, x);
      }
    }
  }

  lemma CreateInv(s: Registry, id: string, draft: Draft, now: int, last: int)
    requires Inv(s, last) && last < now && FreshId(s, id)
    ensures Inv(Create(s, id, draft, now), now)
  {
    CreateOneHolder(s, id, draft, now);
    CreateSupersessions(s, id, draft, now, last);
  }

  lemma PendingInv(s: Registry, id: string, draft: Draft, pair: string, request: string, expiresAt: int, now: int,
                   last: int)
    requires Inv(s, last) && last < now && FreshId(s, id)
    requires CreatePending(s, id, draft, pair, request, expiresAt, now).Ok?
    ensures Inv(CreatePending(s, id, draft, pair, request, expiresAt, now).value, now)
  {
    var t := CreatePending(s, id, draft, pair, request, expiresAt, now).value;
    forall d, e | SameIdentity(t, d, e) ensures !(Live(t.devices[d]) && Live(t.devices[e])) {
      if d != id && e != id {
        assert SameIdentity(s, d, e);
      }
    }
    forall d, x | RevokedAtBirthOf(t, d, x) ensures t.devices[d].supersededBy == Some(x) && t.devices[d].state == Active {
      assert RevokedAtBirthOf(s, d, x);
    }
    forall d, e, x | RevokedAtBirthOf(t, d, x) && RevokedAtBirthOf(t, e, x) ensures d == e {
      assert RevokedAtBirthOf(s, d, x) && RevokedAtBirthOf(s, e, x);
    }
  }

  /** Calls that revoke some devices, forget others, and restore none. */
  predicate Fades(d: Device, e: Device, now: int) {
    && e.draft == d.draft && e.createdAt == d.createdAt && e.pair == d.pair
    && (e.state == d.state || d.state == Pending)
    && (e.supersededBy == d.supersededBy || (d.supersededBy.None? && e.revokedAt == Some(now)))
    && (e.revokedAt == d.revokedAt || e.revokedAt == Some(now))
  }

  ghost predicate OnlyFade(s: Registry, t: Registry, now: int) {
    forall d | d in t.devices :: d in s.devices && Fades(s.devices[d], t.devices[d], now)
  }

  /** The references of a fading step stay inside one relay identity. */
  ghost predicate GoodHeirs(t: Registry) {
    && (forall d | d in t.devices && t.devices[d].revokedAt.None? :: t.devices[d].supersededBy.None?)
    && (forall d | d in t.devices && t.devices[d].supersededBy.Some? && t.devices[d].supersededBy.value in t.devices ::
          t.devices[d].supersededBy.value != d
          && Shares(t.devices[d], t.devices[t.devices[d].supersededBy.value].draft.relay))
  }

  lemma FadeInv(s: Registry, t: Registry, now: int, last: int)
    requires Inv(s, last) && last < now && OnlyFade(s, t, now) && OneHolder(t) && GoodHeirs(t) && ClaimsOk(t)
    ensures Inv(t, now)
  {
    forall d, x | RevokedAtBirthOf(t, d, x) ensures t.devices[d].supersededBy == Some(x) && t.devices[d].state == Active {
      assert t.devices[x].createdAt <= last;
      assert RevokedAtBirthOf(s, d, x);
    }
    forall d, e, x | RevokedAtBirthOf(t, d, x) && RevokedAtBirthOf(t, e, x) ensures d == e {
      assert t.devices[x].createdAt <= last;
      assert RevokedAtBirthOf(s, d, x) && RevokedAtBirthOf(s, e, x);
    }
  }

  /** If nobody becomes active, uniqueness is inherited. */
  lemma FadeOneHolder(s: Registry, t: Registry, now: int)
    requires OneHolder(s) && OnlyFade(s, t, now)
    requires forall d | d in t.devices && t.devices[d].state == Active :: s.devices[d].state == Active
    ensures OneHolder(t)
  {
    forall d, e | SameIdentity(t, d, e) ensures !(Live(t.devices[d]) && Live(t.devices[e])) {
      assert SameIdentity(s, d, e);
    }
  }

  lemma RevokeFades(s: Registry, id: string, now: int)
    requires Supersessions(s) && ClaimsOk(s)
    ensures OnlyFade(s, Revoke(s, id, now), now) && GoodHeirs(Revoke(s, id, now)) && ClaimsOk(Revoke(s, id, now))
  {
  }

  lemma RevokeInv(s: Registry, id: string, now: int, last: int)
    requires Inv(s, last) && last < now
    ensures Inv(Revoke(s, id, now), now)
  {
    RevokeFades(s, id, now);
    FadeOneHolder(s, Revoke(s, id, now), now);
    FadeInv(s, Revoke(s, id, now), now, last);
  }

  lemma CleanedInv(s: Registry, pair: string, device: string, now: int, last: int)
    requires Inv(s, last) && last < now
    ensures Inv(MarkCleaned(s, pair, device), now)
  {
    FadeOneHolder(s, MarkCleaned(s, pair, device), now);
    FadeInv(s, MarkCleaned(s, pair, device), now, last);
  }

  lemma LapseFades(s: Registry, now: int)
    requires Supersessions(s)
    ensures OnlyFade(s, Lapse(s, now), now) && GoodHeirs(Lapse(s, now))
    ensures forall d | d in s.devices && Lapse(s, now).devices[d].state == Active :: s.devices[d].state == Active
  {
  }

  lemma LapseClaims(s: Registry, now: int)
    requires ClaimsOk(s)
    ensures ClaimsOk(Lapse(s, now))
  {
  }

  lemma LapseInv(s: Registry, now: int, last: int)
    requires Inv(s, last) && last < now
    ensures Inv(Lapse(s, now), now)
  {
    LapseFades(s, now);
    LapseClaims(s, now);
    FadeOneHolder(s, Lapse(s, now), now);
    FadeInv(s, Lapse(s, now), now, last);
  }

  lemma ForgetClaims(s: Registry, now: int)
    requires ClaimsOk(s)
    ensures ClaimsOk(Forget(s, now))
  {
    var t := Forget(s, now);
    forall p | p in t.claims ensures t.claims[p].device in t.devices {
      var d := t.claims[p].device;
      assert s.devices[d].pair == Some(p);
    }
  }

  lemma ForgetInv(s: Registry, now: int)
    requires Inv(s, now)
    ensures Inv(Forget(s, now), now)
  {
    var t := Forget(s, now);
    ForgetClaims(s, now);
    forall d, e | SameIdentity(t, d, e) ensures !(Live(t.devices[d]) && Live(t.devices[e])) {
      assert SameIdentity(s, d, e);
    }
    forall d, x | RevokedAtBirthOf(t, d, x) ensures t.devices[d].supersededBy == Some(x) && t.devices[d].state == Active {
      assert RevokedAtBirthOf(s, d, x);
    }
    forall d, e, x | RevokedAtBirthOf(t, d, x) && RevokedAtBirthOf(t, e, x) ensures d == e {
      assert RevokedAtBirthOf(s, d, x) && RevokedAtBirthOf(s, e, x);
    }
  }

  /** What a passed activation check means: a pending, unrevoked device with its own live claim. */
  lemma CheckedPending(mac: Mac, s: Registry, q: Activation, now: int, last: int)
    requires Inv(s, last) && CheckActivation(mac, s, q, now).None?
    requires !(s.devices[q.device].state == Active && (q.pair in s.claims ==> s.claims[q.pair].state == Active))
    ensures s.devices[q.device].revokedAt.None? && s.devices[q.device].supersededBy.None?
    ensures q.pair in s.claims && s.claims[q.pair].device == q.device && s.claims[q.pair].state in {Pending, Active}
    ensures forall p | p in s.claims && p != q.pair :: s.claims[p].device != q.device
  {
  }

  lemma LoseFades(s: Registry, id: string, newer: string, pair: string, now: int)
    requires Supersessions(s) && ClaimsOk(s) && id in s.devices && newer in Newer(s, id)
    requires s.devices[id].revokedAt.None? && s.devices[id].supersededBy.None? && s.devices[id].state == Pending
    requires pair in s.claims && s.claims[pair].device == id
    ensures var t := LoseTo(s, id, newer, pair, now); OnlyFade(s, t, now) && GoodHeirs(t) && ClaimsOk(t)
  {
  }

  lemma LoseInv(s: Registry, id: string, newer: string, pair: string, now: int, last: int)
    requires Inv(s, last) && last < now && id in s.devices && newer in Newer(s, id)
    requires s.devices[id].revokedAt.None? && s.devices[id].supersededBy.None? && s.devices[id].state == Pending
    requires pair in s.claims && s.claims[pair].device == id
    ensures Inv(LoseTo(s, id, newer, pair, now), now)
  {
    var t := LoseTo(s, id, newer, pair, now);
    LoseFades(s, id, newer, pair, now);
    FadeOneHolder(s, t, now);
    FadeInv(s, t, now, last);
  }

  lemma WinOneHolder(s: Registry, id: string, pair: string, now: int)
    requires OneHolder(s) && id in s.devices
    ensures OneHolder(Win(s, id, pair, now))
  {
    var t := Win(s, id, pair, now);
    forall d, e | SameIdentity(t, d, e) ensures !(Live(t.devices[d]) && Live(t.devices[e])) {
      if d != id && e != id {
        assert SameIdentity(s, d, e);
      }
    }
  }

  lemma WinClaims(s: Registry, id: string, pair: string, now: int)
    requires ClaimsOk(s) && id in s.devices && s.devices[id].state == Pending
    requires pair in s.claims && s.claims[pair].device == id
    requires forall p | p in s.claims && p != pair :: s.claims[p].device != id
    ensures ClaimsOk(Win(s, id, pair, now))
  {
  }

  lemma WinFades(s: Registry, id: string, pair: string, now: int)
    requires Supersessions(s) && id in s.devices && s.devices[id].state == Pending
    requires s.devices[id].revokedAt.None? && s.devices[id].supersededBy.None?
    ensures OnlyFade(s, Win(s, id, pair, now), now) && GoodHeirs(Win(s, id, pair, now))
  {
  }

  lemma WinInv(s: Registry, id: string, pair: string, now: int, last: int)
    requires Inv(s, last) && last < now && id in s.devices
    requires s.devices[id].revokedAt.None? && s.devices[id].supersededBy.None? && s.devices[id].state == Pending
    requires pair in s.claims && s.claims[pair].device == id
    requires forall p | p in s.claims && p != pair :: s.claims[p].device != id
    ensures Inv(Win(s, id, pair, now), now)
  {
    WinOneHolder(s, id, pair, now);
    WinClaims(s, id, pair, now);
    WinFades(s, id, pair, now);
    FadeInv(s, Win(s, id, pair, now), now, last);
  }

  lemma RollbackInv(s: Registry, id: string, t: Registry, now: int, last: int)
    requires Inv(s, last) && last < now && RollsBack(s, id, t)
    ensures Inv(t, now)
  {
    if id in s.devices {
      if HasSuccessor(s, id) {
        var n :| IsSuccessor(s, id, n) && t == Remove(s, id, Some(n));
        HandOverInv(s, id, n, now, last);
      } else {
        RestoreInv(s, id, now, last);
      }
    }
  }

  lemma RemoveBirths(s: Registry, id: string, successor: Option<string>, last: int)
    requires Inv(s, last) && id in s.devices
    ensures var t := Remove(s, id, successor);
            && (forall d, x {:trigger RevokedAtBirthOf(t, d, x)} | RevokedAtBirthOf(t, d, x) ::
                  t.devices[d].supersededBy == Some(x) && t.devices[d].state == Active)
            && (forall d, e, x {:trigger RevokedAtBirthOf(t, d, x), RevokedAtBirthOf(t, e, x)} |
                  RevokedAtBirthOf(t, d, x) && RevokedAtBirthOf(t, e, x) :: d == e)
  {
    var t := Remove(s, id, successor);
    forall d, x | RevokedAtBirthOf(t, d, x) ensures t.devices[d].supersededBy == Some(x) && t.devices[d].state == Active {
      assert RevokedAtBirthOf(s, d, x);
    }
    forall d, e, x | RevokedAtBirthOf(t, d, x) && RevokedAtBirthOf(t, e, x) ensures d == e {
      assert RevokedAtBirthOf(s, d, x) && RevokedAtBirthOf(s, e, x);
    }
  }

  lemma RemoveDated(s: Registry, id: string, successor: Option<string>, now: int, last: int)
    requires Dated(s, last) && last < now && id in s.devices
    ensures Dated(Remove(s, id, successor), now)
  {
  }

  lemma RemoveClaims(s: Registry, id: string, successor: Option<string>)
    requires ClaimsOk(s) && id in s.devices
    requires forall d | d in s.devices && d != id && Remove(s, id, successor).devices[d].revokedAt.None? ::
               s.devices[d].state !in {Expired, Superseded}
    ensures ClaimsOk(Remove(s, id, successor))
  {
  }

  /** Whatever a rollback hands on or back, dates stay in the past and claims with their devices. */
  lemma RemoveRest(s: Registry, id: string, successor: Option<string>, now: int, last: int)
    requires Inv(s, last) && last < now && id in s.devices
    requires forall d | d in s.devices && d != id && Remove(s, id, successor).devices[d].revokedAt.None? ::
               s.devices[d].state !in {Expired, Superseded}
    ensures Dated(Remove(s, id, successor), now) && ClaimsOk(Remove(s, id, successor))
  {
    RemoveDated(s, id, successor, now, last);
    RemoveClaims(s, id, successor);
  }

  lemma HandOverSupersessions(s: Registry, id: string, n: string, last: int)
    requires Inv(s, last) && id in s.devices && IsSuccessor(s, id, n)
    ensures Supersessions(Remove(s, id, Some(n))) && OneHolder(Remove(s, id, Some(n)))
  {
    var t := Remove(s, id, Some(n));
    RemoveBirths(s, id, Some(n), last);
    forall d, e | SameIdentity(t, d, e) ensures !(Live(t.devices[d]) && Live(t.devices[e])) {
      assert SameIdentity(s, d, e);
    }
  }

  lemma HandOverInv(s: Registry, id: string, n: string, now: int, last: int)
    requires Inv(s, last) && last < now && id in s.devices && IsSuccessor(s, id, n)
    ensures Inv(Remove(s, id, Some(n)), now)
  {
    HandOverSupersessions(s, id, n, last);
    RemoveRest(s, id, Some(n), now, last);
  }

  lemma RestoreOneHolder(s: Registry, id: string, last: int)
    requires Inv(s, last) && id in s.devices && !HasSuccessor(s, id)
    ensures OneHolder(Remove(s, id, None))
  {
    var t := Remove(s, id, None);
    forall d, e | SameIdentity(t, d, e) ensures !(Live(t.devices[d]) && Live(t.devices[e])) {
      assert SameIdentity(s, d, e);
      assert Live(t.devices[d]) && s.devices[d].supersededBy == Some(id) ==> RevokedAtBirthOf(s, d, id);
      assert Live(t.devices[e]) && s.devices[e].supersededBy == Some(id) ==> RevokedAtBirthOf(s, e, id);
    }
  }

  lemma RestoreSupersessions(s: Registry, id: string, last: int)
    requires Inv(s, last) && id in s.devices && !HasSuccessor(s, id)
    ensures Supersessions(Remove(s, id, None))
  {
    RemoveBirths(s, id, None, last);
  }

  lemma RestoreInv(s: Registry, id: string, now: int, last: int)
    requires Inv(s, last) && last < now && id in s.devices && !HasSuccessor(s, id)
    ensures Inv(Remove(s, id, None), now)
  {
    RestoreOneHolder(s, id, last);
    RestoreSupersessions(s, id, last);
    forall d | d in s.devices && d != id && Remove(s, id, None).devices[d].revokedAt.None?
      ensures s.devices[d].state !in {Expired, Superseded}
    {
      if s.devices[d].supersededBy == Some(id) {
        assert RevokedAtBirthOf(s, d, id);
      }
    }
    RemoveRest(s, id, None, now, last);
  }

  // -------------------------------------------------------------------- runs

  /** New ids are fresh when they are used. */
  ghost predicate FreshStep(s: Registry, step: Step) {
    (step.DoCreate? ==> FreshId(s, step.id)) && (step.DoPending? ==> FreshId(s, step.id))
  }

  lemma ActivateInv(mac: Mac, s: Registry, q: Activation, callbackFails: bool, now: int, a: Activated, last: int)
    requires Inv(s, last) && last < now && Activates(mac, s, q, callbackFails, now, a)
    ensures Inv(a.registry, now)
  {
    if a.registry != s {
      CheckedPending(mac, s, q, now, last);
      assert s.devices[q.device].state == Pending;
      if a.outcome.Err? {
        var n :| n in Newer(s, q.device) && a == Activated(LoseTo(s, q.device, n, q.pair, now), a.outcome);
        LoseInv(s, q.device, n, q.pair, now, last);
      } else {
        WinInv(s, q.device, q.pair, now, last);
      }
    } else {
      InvLater(s, last, now);
    }
  }

  lemma InvLater(s: Registry, last: int, now: int)
    requires Inv(s, last) && last <= now
    ensures Inv(s, now)
  {
  }

  lemma StepInv(mac: Mac, s: Registry, step: Step, now: int, t: Registry, last: int)
    requires Inv(s, last) && last < now && Next(mac, s, step, now, t) && FreshStep(s, step)
    ensures Inv(t, now)
  {
    InvLater(s, last, now);
    match step
    case DoCreate(id, draft) => CreateInv(s, id, draft, now, last);
    case DoPending(id, draft, pair, request, expiresAt) =>
      if CreatePending(s, id, draft, pair, request, expiresAt, now).Ok? {
        PendingInv(s, id, draft, pair, request, expiresAt, now, last);
      }
    case DoActivate(q, callbackFails) =>
      var a :| Activates(mac, s, q, callbackFails, now, a) && t == a.registry;
      ActivateInv(mac, s, q, callbackFails, now, a, last);
    case DoPrune =>
      LapseInv(s, now, last);
      ForgetInv(Lapse(s, now), now);
    case DoCleaned(pair, device) => CleanedInv(s, pair, device, now, last);
    case DoRevoke(id) => RevokeInv(s, id, now, last);
    case DoRollback(id) => RollbackInv(s, id, t, now, last);
  }

  ghost predicate FreshRun(states: seq<Registry>, calls: seq<Timed>) {
    |states| == |calls| + 1 && forall i | 0 <= i < |calls| :: FreshStep(states[i], calls[i].step)
  }

  lemma {:induction false} RunInv(mac: Mac, states: seq<Registry>, calls: seq<Timed>, start: int, i: nat)
    requires IsRun(mac, states, calls) && StrictClock(calls, start) && FreshRun(states, calls)
    requires Inv(states[0], start) && i <= |calls|
    ensures Inv(states[i], Before(calls, start, i))
    decreases i
  {
    if i > 0 {
      RunInv(mac, states, calls, start, i - 1);
      StepInv(mac, states[i - 1], calls[i - 1].step, calls[i - 1].now, states[i], Before(calls, start, i - 1));
    }
  }

  /** With a strictly increasing clock no run ever shows two live devices of one identity. */
  lemma OneLiveDevicePerIdentity(mac: Mac, states: seq<Registry>, calls: seq<Timed>, i: nat, d: string, e: string)
    requires IsRun(mac, states, calls) && StrictClock(calls, 0) && FreshRun(states, calls)
    requires states[0] == EMPTY && i <= |calls|
    requires d in states[i].devices && e in states[i].devices
    requires Live(states[i].devices[d]) && Live(states[i].devices[e])
    requires Shares(states[i].devices[d], states[i].devices[e].draft.relay)
    ensures d == e
  {
    EmptyInv(0);
    RunInv(mac, states, calls, 0, i);
    var s := states[i];
    assert SameIdentity(s, d, e) || d == e;
  }

  // ------------------------------------------------------------ dead claims

  /** A claim that has expired or was superseded is refused, whatever proof comes with it. */
  lemma DeadClaimsAreRefused(mac: Mac, s: Registry, q: Activation, callbackFails: bool, now: int, a: Activated)
    requires q.pair in s.claims && s.claims[q.pair].state in {Expired, Superseded}
    requires Activates(mac, s, q, callbackFails, now, a)
    ensures a.registry == s && a.outcome.Err?
  {
  }

  predicate Dead(s: Registry, d: string) {
    d in s.devices ==> s.devices[d].state in {Expired, Superseded} && s.devices[d].revokedAt.Some?
  }

  lemma DeadStays(mac: Mac, s: Registry, step: Step, now: int, t: Registry, d: string, last: int)
    requires Inv(s, last) && last < now && Next(mac, s, step, now, t) && Dead(s, d)
    requires !Recreates(step, d)
    ensures Dead(t, d)
  {
    match step
    case DoActivate(q, callbackFails) =>
      var a :| Activates(mac, s, q, callbackFails, now, a) && t == a.registry;
      DeadNotActivated(mac, s, q, callbackFails, now, a, d);
    case DoRollback(id) =>
      if id in s.devices && d in s.devices && s.devices[d].supersededBy == Some(id) {
        assert !RevokedAtBirthOf(s, d, id);
      }
    case _ =>
  }

  lemma DeadNotActivated(mac: Mac, s: Registry, q: Activation, callbackFails: bool, now: int, a: Activated, d: string)
    requires Activates(mac, s, q, callbackFails, now, a) && Dead(s, d)
    ensures Dead(a.registry, d)
  {
    if d in s.devices && q.device == d {
      assert CheckActivation(mac, s, q, now).Some?;
    }
  }

  /** The time of the call before call i. */
  function Before(calls: seq<Timed>, start: int, i: nat): int
    requires i <= |calls|
  {
    if i == 0 then start else calls[i - 1].now
  }

  predicate Recreates(step: Step, d: string) {
    (step.DoCreate? || step.DoPending?) && step.id == d
  }

  lemma DeadStep(mac: Mac, states: seq<Registry>, calls: seq<Timed>, start: int, i: nat, d: string)
    requires IsRun(mac, states, calls) && StrictClock(calls, start) && FreshRun(states, calls)
    requires Inv(states[0], start) && i < |calls| && Dead(states[i], d) && !Recreates(calls[i].step, d)
    ensures Dead(states[i + 1], d)
  {
    RunInv(mac, states, calls, start, i);
    DeadStays(mac, states[i], calls[i].step, calls[i].now, states[i + 1], d, Before(calls, start, i));
  }

  lemma {:induction false} DeadCarries(states: seq<Registry>, i: nat, j: nat, d: string)
    requires i <= j < |states| && Dead(states[i], d)
    requires forall k | i <= k < j && Dead(states[k], d) :: Dead(states[k + 1], d)
    ensures Dead(states[j], d)
    decreases j
  {
    if i < j {
      DeadCarries(states, i, j - 1, d);
    }
  }

  /** Once expired or superseded, a pending device is never active again. */
  lemma DeadForever(mac: Mac, states: seq<Registry>, calls: seq<Timed>, start: int, i: nat, j: nat, d: string)
    requires IsRun(mac, states, calls) && StrictClock(calls, start) && FreshRun(states, calls)
    requires Inv(states[0], start) && i <= j <= |calls| && Dead(states[i], d)
    requires forall k | i <= k < j :: !Recreates(calls[k].step, d)
    ensures Dead(states[j], d)
  {
    forall k | i <= k < j && Dead(states[k], d) ensures Dead(states[k + 1], d) {
      DeadStep(mac, states, calls, start, k, d);
    }
    DeadCarries(states, i, j, d);
  }

  // --------------------------------------------------------------- revocation

  /** Revoked, and not in favour of a successor. */
  predicate Barred(s: Registry, d: string) {
    d in s.devices ==> s.devices[d].revokedAt.Some? && s.devices[d].supersededBy.None?
  }

  lemma BarredNotActivated(mac: Mac, s: Registry, q: Activation, callbackFails: bool, now: int, a: Activated,
                           d: string)
    requires Activates(mac, s, q, callbackFails, now, a) && Barred(s, d)
    ensures Barred(a.registry, d)
  {
    if d in s.devices && q.device == d {
      assert CheckActivation(mac, s, q, now).Some?;
    }
  }

  lemma BarredStays(mac: Mac, s: Registry, step: Step, now: int, t: Registry, d: string)
    requires Next(mac, s, step, now, t) && Barred(s, d) && !Recreates(step, d)
    ensures Barred(t, d)
  {
    match step
    case DoActivate(q, callbackFails) =>
      var a :| Activates(mac, s, q, callbackFails, now, a) && t == a.registry;
      BarredNotActivated(mac, s, q, callbackFails, now, a, d);
    case _ =>
  }

  lemma {:induction false} BarredForever(mac: Mac, states: seq<Registry>, calls: seq<Timed>, i: nat, j: nat,
                                         d: string)
    requires IsRun(mac, states, calls) && i <= j <= |calls| && Barred(states[i], d)
    requires forall k | i <= k < j :: !Recreates(calls[k].step, d)
    ensures Barred(states[j], d)
    decreases j
  {
    if i < j {
      BarredForever(mac, states, calls, i, j - 1, d);
      BarredStays(mac, states[j - 1], calls[j - 1].step, calls[j - 1].now, states[j], d);
    }
  }

  /**
   A device revoked by hand is never live again, whatever is created, activated, pruned or
   rolled back afterwards: rollbacks only bring back what a failed creation had superseded.
   */
  lemma RevokedForGood(mac: Mac, states: seq<Registry>, calls: seq<Timed>, start: int, i: nat, j: nat, d: string)
    requires IsRun(mac, states, calls) && StrictClock(calls, start) && FreshRun(states, calls)
    requires Inv(states[0], start) && i < j <= |calls| && calls[i].step == DoRevoke(d)
    requires d in states[i].devices && states[i].devices[d].revokedAt.None?
    requires forall k | i < k < j :: !Recreates(calls[k].step, d)
    ensures d in states[j].devices ==> !Live(states[j].devices[d])
  {
    RunInv(mac, states, calls, start, i);
    assert states[i + 1] == Revoke(states[i], d, calls[i].now);
    BarredForever(mac, states, calls, i + 1, j, d);
  }

  // ------------------------------------------------------------------ pruning

  lemma LapsedIsKept(s: Registry, p: string, now: int)
    requires ClaimsOk(s) && p in s.claims && Lapsed(s.claims[p], now)
    ensures var t, d := Prune(s, now), s.claims[p].device;
            && p in t.claims && t.claims[p].state == Expired
            && d in t.devices && t.devices[d].state == Expired && t.devices[d].revokedAt == Some(now)
  {
    var l, d := Lapse(s, now), s.claims[p].device;
    assert l.devices[d].state == Expired && l.claims[p].retainUntil > now;
    forall k | k in l.claims && l.claims[k].device == d ensures k == p {
      assert s.devices[d].pair == Some(k) && s.devices[d].pair == Some(p);
    }
  }

  /**
   Pruning leaves no overdue claim pending, turns exactly those and their devices into expired
   tombstones that are kept for the retention time, and touches no active or unexpired device.
   */
  lemma PruneIsExact(s: Registry, now: int)
    requires ClaimsOk(s)
    ensures var t := Prune(s, now);
            && (forall p | p in t.claims :: !Lapsed(t.claims[p], now))
            && (forall p | p in s.claims && Lapsed(s.claims[p], now) ::
                  p in t.claims && t.claims[p].state == Expired
                  && s.claims[p].device in t.devices && t.devices[s.claims[p].device].state == Expired)
            && (forall d | d in s.devices && s.devices[d].state == Active :: d in t.devices && t.devices[d] == s.devices[d])
            && (forall p | p in s.claims && s.claims[p].state == Pending && now < s.claims[p].expiresAt ::
                  p in t.claims && t.claims[p] == s.claims[p]
                  && s.claims[p].device in t.devices
                  && t.devices[s.claims[p].device] == s.devices[s.claims[p].device])
  {
    var t := Prune(s, now);
    forall p | p in s.claims && Lapsed(s.claims[p], now)
      ensures p in t.claims && t.claims[p].state == Expired
              && s.claims[p].device in t.devices && t.devices[s.claims[p].device].state == Expired
    {
      LapsedIsKept(s, p, now);
    }
    forall p | p in s.claims && s.claims[p].state == Pending && now < s.claims[p].expiresAt
      ensures p in t.claims && t.claims[p] == s.claims[p]
              && s.claims[p].device in t.devices && t.devices[s.claims[p].device] == s.devices[s.claims[p].device]
    {
      OpenIsKept(s, p, now);
    }
  }

  lemma OpenIsKept(s: Registry, p: string, now: int)
    requires ClaimsOk(s) && p in s.claims && s.claims[p].state == Pending && now < s.claims[p].expiresAt
    ensures var t, d := Prune(s, now), s.claims[p].device;
            p in t.claims && t.claims[p] == s.claims[p] && d in t.devices && t.devices[d] == s.devices[d]
  {
    var l, d := Lapse(s, now), s.claims[p].device;
    forall k | k in s.claims && s.claims[k].device == d ensures k == p {
      assert s.devices[d].pair == Some(k) && s.devices[d].pair == Some(p);
    }
    assert l.devices[d] == s.devices[d] && l.claims[p] == s.claims[p];
  }

  // ----------------------------------------------------------------- rollback

  /** Another unrevoked row, a pending one, shares the identity with the active device. */
  predicate Contended(s: Registry, relay: Option<string>) {
    exists d, m :: d in s.devices && m in s.devices && d != m
                   && Live(s.devices[d]) && Shares(s.devices[d], relay)
                   && s.devices[m].revokedAt.None? && Shares(s.devices[m], relay)
  }

  /** A rollback with a successor hands the identity on instead of giving it back. */
  lemma PassedOn(s: Registry, id: string, draft: Draft, now: int, n: string)
    requires FreshId(s, id)
    requires (Holders(s, draft.relay, id) != {}) <==> Contended(s, draft.relay)
    ensures Remove(Create(s, id, draft, now), id, Some(n)) == s <==> !Contended(s, draft.relay)
  {
    var ids := Holders(s, draft.relay, id);
    if ids == {} {
      RemoveUntouched(s, id, draft, now, Some(n));
    } else {
      var d :| d in ids;
      SupersedeKeeps(s, ids, id, now, d);
      assert Remove(Create(s, id, draft, now), id, Some(n)).devices[d].revokedAt == Some(now);
    }
  }

  /**
   Rolling a device back right after creating it restores the registry exactly, unless the
   identity had both an active device and another unrevoked row: then that row inherits.
   */
  lemma RollbackUndoesCreate(s: Registry, id: string, draft: Draft, now: int, last: int, t: Registry)
    requires Inv(s, last) && last < now && FreshId(s, id)
    requires RollsBack(Create(s, id, draft, now), id, t)
    ensures t == s <==> !Contended(s, draft.relay)
  {
    var c := Create(s, id, draft, now);
    if HasSuccessor(c, id) {
      var n :| IsSuccessor(c, id, n) && t == Remove(c, id, Some(n));
      SuccessorIsOther(s, id, draft, now, n);
      PassedOn(s, id, draft, now, n);
    } else {
      UncontendedRestores(s, id, draft, now, last);
    }
  }

  /** Right after a creation only another unrevoked row of the identity can be a successor. */
  lemma SuccessorIsOther(s: Registry, id: string, draft: Draft, now: int, n: string)
    requires id !in s.devices && IsSuccessor(Create(s, id, draft, now), id, n)
    ensures var ids := Holders(s, draft.relay, id);
            && n in s.devices && n !in ids && s.devices[n].revokedAt.None? && Shares(s.devices[n], draft.relay)
            && (ids != {} <==> Contended(s, draft.relay))
  {
    var ids := Holders(s, draft.relay, id);
    SupersedeKeeps(s, ids, id, now, n);
    if d :| d in ids {
      assert d != n && Contended(s, draft.relay);
    }
    if Contended(s, draft.relay) {
      var d :| d in s.devices && Live(s.devices[d]) && Shares(s.devices[d], draft.relay);
      assert d in ids;
    }
  }

  lemma RemoveUntouched(s: Registry, id: string, draft: Draft, now: int, successor: Option<string>)
    requires FreshId(s, id) && Holders(s, draft.relay, id) == {}
    ensures Remove(Create(s, id, draft, now), id, successor) == s
  {
    assert Supersede(s.devices, {}, id, now) == s.devices;
    assert Remove(Create(s, id, draft, now), id, successor).devices == s.devices;
    assert Remove(Create(s, id, draft, now), id, successor).claims == s.claims;
  }

  lemma UncontendedRestores(s: Registry, id: string, draft: Draft, now: int, last: int)
    requires Inv(s, last) && last < now && FreshId(s, id) && !HasSuccessor(Create(s, id, draft, now), id)
    ensures Remove(Create(s, id, draft, now), id, None) == s && !Contended(s, draft.relay)
  {
    var c := Create(s, id, draft, now);
    var ids := Holders(s, draft.relay, id);
    var t := Remove(c, id, None);
    forall d | d in s.devices ensures t.devices[d] == s.devices[d] {
      SupersedeKeeps(s, ids, id, now, d);
    }
    assert t.devices == s.devices && t.claims == s.claims;
    forall m | m in s.devices && s.devices[m].revokedAt.None? && Shares(s.devices[m], draft.relay) ensures m in ids {
      assert m != id;
      SupersedeKeeps(s, ids, id, now, m);
    }
    forall d, m | d in ids && m in ids ensures d == m {
      assert SameIdentity(s, d, m) || d == m;
    }
  }

  // ------------------------------------------------------- why strictness matters

  const TIED := Draft(Some("r"), "t", "s", "i", "n", None, false)

  function TiedActive(createdAt: int): Device {
    Device(TIED, createdAt, None, Active, None, None)
  }

  function TiedPending(): Device {
    Device(TIED, 5, None, Pending, None, Some("p"))
  }

  function Beaten(createdAt: int, heir: string): Device {
    TiedActive(createdAt).(revokedAt := Some(5), supersededBy := Some(heir))
  }

  const OPEN_CLAIM := map["p" := Claim("x", "q", Pending, true, 100, 700, false)]

  lemma TiedBirths()
    ensures Create(EMPTY, "y", TIED, 1) == Registry(map["y" := TiedActive(1)], map[])
    ensures Create(Registry(map["y" := TiedActive(1)], map[]), "z", TIED, 5)
              == Registry(map["y" := Beaten(1, "z"), "z" := TiedActive(5)], map[])
    ensures CreatePending(Registry(map["y" := Beaten(1, "z"), "z" := TiedActive(5)], map[]), "x", TIED, "p", "q", 100, 5)
              == Ok(Registry(map["y" := Beaten(1, "z"), "z" := TiedActive(5), "x" := TiedPending()], OPEN_CLAIM))
  {
    assert Holders(Registry(map["y" := TiedActive(1)], map[]), Some("r"), "z") == {"y"};
  }

  /** The failed row's predecessor is handed to the pending device of the same instant. */
  lemma TiedHandOver()
    ensures RollsBack(Registry(map["y" := Beaten(1, "z"), "z" := TiedActive(5), "x" := TiedPending()], OPEN_CLAIM), "z",
                      Registry(map["y" := Beaten(1, "x"), "x" := TiedPending()], OPEN_CLAIM))
  {
    var s := Registry(map["y" := Beaten(1, "z"), "z" := TiedActive(5), "x" := TiedPending()], OPEN_CLAIM);
    assert HasSuccessor(s, "z") by { assert "x" in s.devices; }
    assert IsSuccessor(s, "z", "x");
    var t := Remove(s, "z", Some("x"));
    assert t.devices == map["y" := Beaten(1, "x"), "x" := TiedPending()];
    assert t.claims == OPEN_CLAIM;
  }

  lemma TiedSecondBirth()
    ensures Create(Registry(map["y" := Beaten(1, "x"), "x" := TiedPending()], OPEN_CLAIM), "w", TIED, 5)
              == Registry(map["y" := Beaten(1, "x"), "x" := TiedPending(), "w" := TiedActive(5)], OPEN_CLAIM)
  {
    var s := Registry(map["y" := Beaten(1, "x"), "x" := TiedPending()], OPEN_CLAIM);
    assert Holders(s, Some("r"), "w") == {};
    assert Supersede(s.devices, {}, "w", 5) == s.devices;
  }

  /** The pending device does not see the row of its own instant as newer, and supersedes it. */
  lemma TiedActivation(mac: Mac, proof: string)
    requires proof == mac("s", ["p", "x", "n", "t", "i"]) && proof != ""
    ensures var s := Registry(map["y" := Beaten(1, "x"), "x" := TiedPending(), "w" := TiedActive(5)], OPEN_CLAIM);
            var q := Activation("p", "x", "i", "n", "t", proof);
            var t := Win(s, "x", "p", 5);
            && Activates(mac, s, q, false, 5, Activated(t, Ok(false)))
            && t.devices == map["y" := Beaten(1, "x"), "x" := TiedPending().(state := Active), "w" := Beaten(5, "x")]
  {
    var s := Registry(map["y" := Beaten(1, "x"), "x" := TiedPending(), "w" := TiedActive(5)], OPEN_CLAIM);
    assert CheckActivation(mac, s, Activation("p", "x", "i", "n", "t", proof), 5).None?;
    assert Holders(s, Some("r"), "x") == {"w"};
    assert Newer(s, "x") == {};
  }

  /** Rolling the pending device back then restores both rows it had superseded. */
  lemma TiedRollback(claims: map<string, Claim>)
    ensures var s := Registry(map["y" := Beaten(1, "x"), "x" := TiedPending().(state := Active), "w" := Beaten(5, "x")], claims);
            !HasSuccessor(s, "x") && Remove(s, "x", None).devices == map["y" := TiedActive(1), "w" := TiedActive(5)]
  {
  }

  /**
   Uniqueness needs a clock that never reads the same twice: seven calls, six of them at one
   instant, end with two live devices of one identity.
   */
  lemma EqualTimesBreakUniqueness(mac: Mac) returns (states: seq<Registry>, calls: seq<Timed>)
    requires mac("s", ["p", "x", "n", "t", "i"]) != ""
    ensures IsRun(mac, states, calls) && states[0] == EMPTY
    ensures forall i, j | 0 <= i < j < |calls| :: calls[i].now <= calls[j].now
    ensures !OneHolder(states[|calls|])
  {
    var proof := mac("s", ["p", "x", "n", "t", "i"]);
    var s1 := Registry(map["y" := TiedActive(1)], map[]);
    var s2 := Registry(map["y" := Beaten(1, "z"), "z" := TiedActive(5)], map[]);
    var s3 := Registry(map["y" := Beaten(1, "z"), "z" := TiedActive(5), "x" := TiedPending()], OPEN_CLAIM);
    var s4 := Registry(map["y" := Beaten(1, "x"), "x" := TiedPending()], OPEN_CLAIM);
    var s5 := Registry(map["y" := Beaten(1, "x"), "x" := TiedPending(), "w" := TiedActive(5)], OPEN_CLAIM);
    var s6 := Win(s5, "x", "p", 5);
    var s7 := Remove(s6, "x", None);
    TiedBirths();
    TiedHandOver();
    TiedSecondBirth();
    TiedActivation(mac, proof);
    TiedRollback(s6.claims);
    states, calls := [EMPTY], [];
    states, calls := Then(mac, states, calls, Timed(DoCreate("y", TIED), 1), s1);
    states, calls := Then(mac, states, calls, Timed(DoCreate("z", TIED), 5), s2);
    states, calls := Then(mac, states, calls, Timed(DoPending("x", TIED, "p", "q", 100), 5), s3);
    states, calls := Then(mac, states, calls, Timed(DoRollback("z"), 5), s4);
    states, calls := Then(mac, states, calls, Timed(DoCreate("w", TIED), 5), s5);
    states, calls := Then(mac, states, calls, Timed(DoActivate(Activation("p", "x", "i", "n", "t", proof), false), 5), s6);
    states, calls := Then(mac, states, calls, Timed(DoRollback("x"), 5), s7);
    TiedTogether(s7);
  }

  lemma TiedTogether(s: Registry)
    requires s.devices == map["y" := TiedActive(1), "w" := TiedActive(5)]
    ensures !OneHolder(s)
  {
    assert SameIdentity(s, "y", "w");
  }

  /** A run, its clock not running back, made one call longer. */
  lemma Then(mac: Mac, states: seq<Registry>, calls: seq<Timed>, c: Timed, t: Registry)
      returns (longer: seq<Registry>, more: seq<Timed>)
    requires IsRun(mac, states, calls) && Next(mac, states[|calls|], c.step, c.now, t)
    requires forall i | 0 <= i < |calls| :: calls[i].now <= c.now
    requires forall i, j | 0 <= i < j < |calls| :: calls[i].now <= calls[j].now
    ensures IsRun(mac, longer, more) && longer[|more|] == t && longer[0] == states[0]
    ensures forall i | 0 <= i < |more| :: more[i].now <= c.now
    ensures forall i, j | 0 <= i < j < |more| :: more[i].now <= more[j].now
  {
    longer, more := states + [t], calls + [c];
  }
}
