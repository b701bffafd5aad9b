/** Creating and rolling back read before their transaction begins, and write in it. */
module DeviceHalves {
  import opened Prelude
  import opened Devices
  import opened DeviceTheorems

  // --------------------------------------------------------------- the writes

  /** Supersedes the holders that were seen, whoever holds the identity by now. */
  function CreateWrite(s: Registry, id: string, draft: Draft, now: int, seen: set<string>): Registry {
    if id in s.devices then s
    else s.(devices := Supersede(s.devices, seen, id, now)[id := Device(draft, now, None, Active, None, None)])
  }

  /** Hands on or back as decided when the successor was looked for. */
  function RollbackWrite(s: Registry, id: string, createdAt: int, successor: Option<string>): Registry {
    Registry(map d | d in s.devices && d != id :: Released(s.devices[d], id, createdAt, successor),
             map p | p in s.claims && s.claims[p].device != id :: s.claims[p])
  }

  /** A create that finds what it saw is the whole call. */
  lemma CreateWhole(s: Registry, id: string, draft: Draft, now: int)
    ensures CreateWrite(s, id, draft, now, Holders(s, draft.relay, id)) == Create(s, id, draft, now)
  {
  }

  lemma RollbackWhole(s: Registry, id: string, successor: Option<string>)
    requires id in s.devices
    ensures RollbackWrite(s, id, s.devices[id].createdAt, successor) == Remove(s, id, successor)
  {
  }

  /** A create leaves one live device per identity exactly if it saw everyone who holds its own. */
  lemma CreateUnique(s: Registry, id: string, draft: Draft, now: int, seen: set<string>)
    requires OneHolder(s) && id !in s.devices
    ensures OneHolder(CreateWrite(s, id, draft, now, seen)) <==> Holders(s, draft.relay, id) <= seen
  {
    var t := CreateWrite(s, id, draft, now, seen);
    if Holders(s, draft.relay, id) <= seen {
      forall d, e | SameIdentity(t, d, e) ensures !(Live(t.devices[d]) && Live(t.devices[e])) {
        if d != id && e != id {
          assert SameIdentity(s, d, e);
        }
      }
    } else {
      var d :| d in Holders(s, draft.relay, id) && d !in seen;
      assert SameIdentity(t, d, id);
    }
  }

  /** The devices that a rollback without a successor makes live again. */
  function Restored(s: Registry, id: string, createdAt: int): set<string> {
    set d | d in s.devices && d != id && s.devices[d].supersededBy == Some(id)
            && s.devices[d].revokedAt == Some(createdAt) && s.devices[d].state == Active
  }

  /** Nobody else is live, or made live as well, under the identity of a restored device. */
  predicate Uncontended(s: Registry, id: string, createdAt: int) {
    forall d, e | d in Restored(s, id, createdAt) && e in s.devices && e != d && e != id
                  && (Live(s.devices[e]) || e in Restored(s, id, createdAt)) ::
      !Shares(s.devices[e], s.devices[d].draft.relay)
  }

  /** A rollback keeps uniqueness exactly if it hands on, or nobody took the identity meanwhile. */
  lemma RollbackUnique(s: Registry, id: string, createdAt: int, successor: Option<string>)
    requires OneHolder(s)
    ensures OneHolder(RollbackWrite(s, id, createdAt, successor)) <==>
              successor.Some? || Uncontended(s, id, createdAt)
  {
    var t := RollbackWrite(s, id, createdAt, successor);
    if successor.Some? || Uncontended(s, id, createdAt) {
      forall d, e | SameIdentity(t, d, e) ensures !(Live(t.devices[d]) && Live(t.devices[e])) {
        assert SameIdentity(s, d, e);
      }
    } else {
      var d, e :| d in Restored(s, id, createdAt) && e in s.devices && e != d && e != id
                  && (Live(s.devices[e]) || e in Restored(s, id, createdAt))
                  && Shares(s.devices[e], s.devices[d].draft.relay);
      assert SameIdentity(t, e, d);
    }
  }

  // -------------------------------------------------------------- the machine

  /** What a call holds between its halves: the registry it read and what it made of it. */
  datatype Read =
    | ForCreate(registry: Registry, now: int, id: string, draft: Draft)
    | ForRollback(registry: Registry, now: int, id: string, createdAt: int, successor: Option<string>)

  datatype Shared = Shared(registry: Registry, pending: map<nat, Read>)

  /** `Whole` is any call that locks the database before it reads. */
  datatype Half =
    | Whole(step: Step)
    | CreateReads(call: nat, id: string, draft: Draft)
    | RollbackReads(call: nat, id: string, successor: Option<string>)
    | Writes(call: nat)

  function Written(s: Registry, r: Read): Registry {
    match r
    case ForCreate(read, now, id, draft) => CreateWrite(s, id, draft, now, Holders(read, draft.relay, id))
    case ForRollback(_, _, id, createdAt, successor) => RollbackWrite(s, id, createdAt, successor)
  }

  ghost predicate Moves(mac: Mac, s: Shared, half: Half, now: int, t: Shared) {
    match half
    case Whole(step) =>
      !step.DoCreate? && !step.DoRollback? && Next(mac, s.registry, step, now, t.registry) && t.pending == s.pending
    case CreateReads(call, id, draft) =>
      t == s.(pending := s.pending[call := ForCreate(s.registry, now, id, draft)])
    case RollbackReads(call, id, successor) =>
      && id in s.registry.devices
      && (if HasSuccessor(s.registry, id) then successor.Some? && IsSuccessor(s.registry, id, successor.value)
          else successor.None?)
      && t == s.(pending := s.pending[call := ForRollback(s.registry, now, id, s.registry.devices[id].createdAt, successor)])
    case Writes(call) =>
      call in s.pending && t == Shared(Written(s.registry, s.pending[call]), s.pending - {call})
  }

  datatype TimedHalf = At(half: Half, now: int)

  ghost predicate IsInterleaving(mac: Mac, states: seq<Shared>, halves: seq<TimedHalf>) {
    && |states| == |halves| + 1
    && forall i | 0 <= i < |halves| :: Moves(mac, states[i], halves[i].half, halves[i].now, states[i + 1])
  }

  predicate Ticks(halves: seq<TimedHalf>, start: int) {
    && (forall i | 0 <= i < |halves| :: start < halves[i].now)
    && (forall i, j | 0 <= i < j < |halves| :: halves[i].now < halves[j].now)
  }

  /** Nobody changed the registry since the writing call read it. */
  predicate Undisturbed(s: Shared, half: Half) {
    half.Writes? && half.call in s.pending ==> s.pending[half.call].registry == s.registry
  }

  ghost predicate FreshHalf(s: Shared, half: Half) {
    && (half.Whole? ==> FreshStep(s.registry, half.step))
    && (half.Writes? && half.call in s.pending && s.pending[half.call].ForCreate? ==>
          FreshId(s.registry, s.pending[half.call].id))
  }

  ghost predicate AllFresh(states: seq<Shared>, halves: seq<TimedHalf>) {
    |states| == |halves| + 1 && forall i | 0 <= i < |halves| :: FreshHalf(states[i], halves[i].half)
  }

  ghost predicate Calm(states: seq<Shared>, halves: seq<TimedHalf>) {
    AllFresh(states, halves) && forall i | 0 <= i < |halves| :: Undisturbed(states[i], halves[i].half)
  }

  // ------------------------------------------------------------ what is kept

  /** A pending read was of a registry older than its clock reading; so is what it will write. */
  ghost predicate ReadOk(r: Read) {
    && Inv(r.registry, r.now - 1)
    && (r.ForRollback? ==>
          && r.id in r.registry.devices && r.createdAt == r.registry.devices[r.id].createdAt
          && (if HasSuccessor(r.registry, r.id)
              then r.successor.Some? && IsSuccessor(r.registry, r.id, r.successor.value)
              else r.successor.None?))
  }

  ghost predicate SharedInv(s: Shared, last: int) {
    Inv(s.registry, last) && forall c | c in s.pending :: ReadOk(s.pending[c]) && s.pending[c].now <= last
  }

  lemma WriteInv(r: Read)
    requires ReadOk(r) && (r.ForCreate? ==> FreshId(r.registry, r.id))
    ensures Inv(Written(r.registry, r), r.now)
  {
    match r
    case ForCreate(read, now, id, draft) =>
      CreateWhole(read, id, draft, now);
      CreateInv(read, id, draft, now, now - 1);
    case ForRollback(read, now, id, createdAt, successor) =>
      RollbackWhole(read, id, successor);
      if HasSuccessor(read, id) {
        HandOverInv(read, id, successor.value, now, now - 1);
      } else {
        RestoreInv(read, id, now, now - 1);
      }
  }

  lemma MoveInv(mac: Mac, s: Shared, half: Half, now: int, t: Shared, last: int)
    requires SharedInv(s, last) && last < now && Moves(mac, s, half, now, t)
    requires Undisturbed(s, half) && FreshHalf(s, half)
    ensures SharedInv(t, now)
  {
    InvLater(s.registry, last, now);
    InvLater(s.registry, last, now - 1);
    if half.Whole? {
      StepInv(mac, s.registry, half.step, now, t.registry, last);
    } else if half.Writes? {
      var r := s.pending[half.call];
      WriteInv(r);
      InvLater(Written(r.registry, r), r.now, now);
    }
  }

  function Time(halves: seq<TimedHalf>, start: int, i: nat): int
    requires i <= |halves|
  {
    if i == 0 then start else halves[i - 1].now
  }

  lemma {:induction false} InterleavingInv(mac: Mac, states: seq<Shared>, halves: seq<TimedHalf>, i: nat)
    requires IsInterleaving(mac, states, halves) && Ticks(halves, 0) && Calm(states, halves)
    requires states[0] == Shared(EMPTY, map[]) && i <= |halves|
    ensures SharedInv(states[i], Time(halves, 0, i))
    decreases i
  {
    if i == 0 {
      EmptyInv(0);
    } else {
      InterleavingInv(mac, states, halves, i - 1);
      MoveInv(mac, states[i - 1], halves[i - 1].half, halves[i - 1].now, states[i], Time(halves, 0, i - 1));
    }
  }

  /**
   With a strictly increasing clock, and as long as nobody changes the registry between the
   halves of a create or rollback, no interleaving shows two live devices of one identity.
   */
  lemma UniqueIfUndisturbed(mac: Mac, states: seq<Shared>, halves: seq<TimedHalf>, i: nat, d: string, e: string)
    requires IsInterleaving(mac, states, halves) && Ticks(halves, 0) && Calm(states, halves)
    requires states[0] == Shared(EMPTY, map[]) && i <= |halves|
    requires var s := states[i].registry;
             && d in s.devices && e in s.devices && Live(s.devices[d]) && Live(s.devices[e])
             && Shares(s.devices[d], s.devices[e].draft.relay)
    ensures d == e
  {
    InterleavingInv(mac, states, halves, i);
    assert SameIdentity(states[i].registry, d, e) || d == e;
  }

  // --------------------------------------------------------------- revocation

  /** The device is revoked by hand, and no create that is still to write has seen it live. */
  predicate Unseen(s: Shared, d: string) {
    && Barred(s.registry, d)
    && forall c | c in s.pending && s.pending[c].ForCreate? ::
         d !in Holders(s.pending[c].registry, s.pending[c].draft.relay, s.pending[c].id)
  }

  /** A create leaves a revocation by hand as it is exactly if it had not seen the device live. */
  lemma BarredUnlessSeen(s: Registry, id: string, draft: Draft, now: int, seen: set<string>, d: string)
    requires d in s.devices && d != id && id !in s.devices && Barred(s, d)
    ensures Barred(CreateWrite(s, id, draft, now, seen), d) <==> d !in seen
  {
  }

  /** The half brings an unknown device into the registry under this id. */
  predicate Brings(s: Shared, half: Half, d: string) {
    || (half.Whole? && Recreates(half.step, d))
    || (half.Writes? && half.call in s.pending && s.pending[half.call].ForCreate? && s.pending[half.call].id == d)
  }

  lemma UnseenStays(mac: Mac, s: Shared, half: Half, now: int, t: Shared, d: string)
    requires Moves(mac, s, half, now, t) && Unseen(s, d) && !Brings(s, half, d)
    ensures Unseen(t, d)
  {
    if half.Whole? {
      BarredStays(mac, s.registry, half.step, now, t.registry, d);
    }
  }

  /** So a revocation stands over any interleaving unless a create had seen the device before it. */
  lemma {:induction false} RevocationStands(mac: Mac, states: seq<Shared>, halves: seq<TimedHalf>, i: nat, j: nat,
                                            d: string)
    requires IsInterleaving(mac, states, halves) && i <= j <= |halves| && Unseen(states[i], d)
    requires forall k | i <= k < j :: !Brings(states[k], halves[k].half, d)
    ensures Unseen(states[j], d)
    ensures d in states[j].registry.devices ==> !Live(states[j].registry.devices[d])
    decreases j
  {
    if i < j {
      RevocationStands(mac, states, halves, i, j - 1, d);
      UnseenStays(mac, states[j - 1], halves[j - 1].half, halves[j - 1].now, states[j], d);
    }
  }

  // ----------------------------------------------------------------- the races

  const PHONE := Draft(Some("phone"), "token", "secret", "install", "nonce", None, false)

  function Born(now: int): Device {
    Device(PHONE, now, None, Active, None, None)
  }

  /** Two creates of one identity read before either writes: both devices stay live. */
  lemma CreatesRace(mac: Mac) returns (states: seq<Shared>, halves: seq<TimedHalf>)
    ensures IsInterleaving(mac, states, halves) && Ticks(halves, 0) && |halves| == 4
    ensures states[0] == Shared(EMPTY, map[])
    ensures AllFresh(states, halves)
    ensures var s := states[4].registry;
            && "a" in s.devices && "b" in s.devices && Live(s.devices["a"]) && Live(s.devices["b"])
            && Shares(s.devices["a"], s.devices["b"].draft.relay)
  {
    halves := [At(CreateReads(0, "a", PHONE), 1), At(CreateReads(1, "b", PHONE), 2), At(Writes(0), 3), At(Writes(1), 4)];
    var ra, rb := ForCreate(EMPTY, 1, "a", PHONE), ForCreate(EMPTY, 2, "b", PHONE);
    var one := Registry(map["a" := Born(1)], map[]);
    var two := Registry(map["a" := Born(1), "b" := Born(2)], map[]);
    assert Written(EMPTY, ra) == one;
    assert Written(one, rb) == two;
    assert map[0 := ra, 1 := rb] - {0} == map[1 := rb];
    assert map[1 := rb] - {1} == map[];
    states := [Shared(EMPTY, map[]), Shared(EMPTY, map[0 := ra]), Shared(EMPTY, map[0 := ra, 1 := rb]),
               Shared(one, map[1 := rb]), Shared(two, map[])];
  }

  function SupersededBy(d: Device, heir: string, now: int): Device {
    d.(revokedAt := Some(now), supersededBy := Some(heir))
  }

  const FIRST := Registry(map["a" := Born(1)], map[])
  const SECOND := Registry(map["a" := SupersededBy(Born(1), "b", 3), "b" := Born(3)], map[])
  const THIRD :=
    Registry(map["a" := SupersededBy(Born(1), "b", 3), "b" := SupersededBy(Born(3), "c", 6), "c" := Born(6)], map[])
  const LAST := Registry(map["a" := Born(1), "c" := Born(6)], map[])

  lemma RaceWrites()
    ensures Written(EMPTY, ForCreate(EMPTY, 1, "a", PHONE)) == FIRST
    ensures Written(FIRST, ForCreate(FIRST, 3, "b", PHONE)) == SECOND
    ensures Written(SECOND, ForCreate(SECOND, 6, "c", PHONE)) == THIRD
    ensures "b" in SECOND.devices && SECOND.devices["b"].createdAt == 3 && !HasSuccessor(SECOND, "b")
    ensures FreshId(EMPTY, "a") && FreshId(FIRST, "b") && FreshId(SECOND, "c")
  {
    assert Holders(FIRST, PHONE.relay, "b") == {"a"};
    assert Holders(SECOND, PHONE.relay, "c") == {"b"};
  }

  lemma RaceUndone()
    ensures Written(THIRD, ForRollback(SECOND, 5, "b", 3, None)) == LAST
    ensures Live(LAST.devices["a"]) && Live(LAST.devices["c"])
  {
  }

  lemma TicksOn(halves: seq<TimedHalf>, half: Half, now: int)
    requires Ticks(halves, 0) && Time(halves, 0, |halves|) < now
    ensures Ticks(halves + [At(half, now)], 0)
  {
    if halves != [] {
      assert forall i | 0 <= i < |halves| :: halves[i].now <= halves[|halves| - 1].now;
    }
  }

  /** A run goes on with one more half, and calmly if that is undisturbed. */
  lemma GoesOn(mac: Mac, states: seq<Shared>, halves: seq<TimedHalf>, half: Half, now: int, t: Shared)
      returns (longer: seq<Shared>, more: seq<TimedHalf>)
    requires IsInterleaving(mac, states, halves) && Ticks(halves, 0) && AllFresh(states, halves)
    requires Time(halves, 0, |halves|) < now && Moves(mac, states[|halves|], half, now, t)
    requires FreshHalf(states[|halves|], half)
    ensures longer == states + [t] && more == halves + [At(half, now)]
    ensures IsInterleaving(mac, longer, more) && Ticks(more, 0) && AllFresh(longer, more)
    ensures Calm(states, halves) && Undisturbed(states[|halves|], half) ==> Calm(longer, more)
    ensures longer[0] == states[0] && longer[|more|] == t && Time(more, 0, |more|) == now
  {
    longer, more := states + [t], halves + [At(half, now)];
    forall i | 0 <= i < |more| ensures Moves(mac, longer[i], more[i].half, more[i].now, longer[i + 1]) {
      if i < |halves| {
        assert longer[i] == states[i] && longer[i + 1] == states[i + 1];
      }
    }
    TicksOn(halves, half, now);
  }

  /** A run goes on with both halves of a create, one right after the other. */
  lemma CreateGoesOn(mac: Mac, states: seq<Shared>, halves: seq<TimedHalf>, call: nat, id: string, now: int)
      returns (longer: seq<Shared>, more: seq<TimedHalf>)
    requires IsInterleaving(mac, states, halves) && Ticks(halves, 0) && Calm(states, halves)
    requires Time(halves, 0, |halves|) < now && call !in states[|halves|].pending
    requires FreshId(states[|halves|].registry, id)
    ensures IsInterleaving(mac, longer, more) && Ticks(more, 0) && Calm(longer, more)
    ensures longer[0] == states[0] && Time(more, 0, |more|) == now + 1 && |more| == |halves| + 2
    ensures var s := states[|halves|];
            longer[|more|] == Shared(Written(s.registry, ForCreate(s.registry, now, id, PHONE)), s.pending)
  {
    var s := states[|halves|];
    var r := ForCreate(s.registry, now, id, PHONE);
    var between := s.(pending := s.pending[call := r]);
    longer, more := GoesOn(mac, states, halves, CreateReads(call, id, PHONE), now, between);
    assert between.pending - {call} == s.pending;
    longer, more := GoesOn(mac, longer, more, Writes(call), now + 1, Shared(Written(s.registry, r), s.pending));
  }

  /** Three undisturbed creates, the last of them between the halves of a rollback of the second. */
  lemma Overtaken(mac: Mac, r1: Registry, r2: Registry, r3: Registry)
      returns (states: seq<Shared>, halves: seq<TimedHalf>)
    requires Written(EMPTY, ForCreate(EMPTY, 1, "a", PHONE)) == r1 && FreshId(EMPTY, "a")
    requires Written(r1, ForCreate(r1, 3, "b", PHONE)) == r2 && FreshId(r1, "b")
    requires Written(r2, ForCreate(r2, 6, "c", PHONE)) == r3 && FreshId(r2, "c")
    requires "b" in r2.devices && r2.devices["b"].createdAt == 3 && !HasSuccessor(r2, "b")
    ensures IsInterleaving(mac, states, halves) && Ticks(halves, 0) && Calm(states, halves)
    ensures states[0] == Shared(EMPTY, map[]) && Time(halves, 0, |halves|) == 7
    ensures states[|halves|] == Shared(r3, map[2 := ForRollback(r2, 5, "b", 3, None)])
  {
    states, halves := [Shared(EMPTY, map[])], [];
    states, halves := CreateGoesOn(mac, states, halves, 0, "a", 1);
    states, halves := CreateGoesOn(mac, states, halves, 1, "b", 3);
    states, halves := GoesOn(mac, states, halves, RollbackReads(2, "b", None), 5,
                             Shared(r2, map[2 := ForRollback(r2, 5, "b", 3, None)]));
    states, halves := CreateGoesOn(mac, states, halves, 3, "c", 6);
  }

  /**
   A rollback that found no successor is overtaken by a create that runs undisturbed: it gives
   the identity back to the first device although the third has it.
   */
  lemma RollbackRaces(mac: Mac) returns (states: seq<Shared>, halves: seq<TimedHalf>, last: TimedHalf, after: Shared)
    ensures IsInterleaving(mac, states, halves) && Calm(states, halves) && states[0] == Shared(EMPTY, map[])
    ensures Ticks(halves, 0) && Time(halves, 0, |halves|) < last.now
    ensures Moves(mac, states[|halves|], last.half, last.now, after) && FreshHalf(states[|halves|], last.half)
    ensures var s := after.registry;
            && "a" in s.devices && "c" in s.devices && Live(s.devices["a"]) && Live(s.devices["c"])
            && Shares(s.devices["a"], s.devices["c"].draft.relay)
  {
    RaceWrites();
    RaceUndone();
    states, halves := Overtaken(mac, FIRST, SECOND, THIRD);
    var undo := ForRollback(SECOND, 5, "b", 3, None);
    assert map[2 := undo] - {2} == map[];
    last, after := At(Writes(2), 8), Shared(LAST, map[]);
  }

  const REVOKED := Registry(map["a" := Born(1).(revokedAt := Some(4))], map[])

  lemma RevocationSteps()
    ensures Written(EMPTY, ForCreate(EMPTY, 1, "a", PHONE)) == FIRST && Revoke(FIRST, "a", 4) == REVOKED
    ensures Written(REVOKED, ForCreate(FIRST, 3, "b", PHONE)) == SECOND && FreshId(EMPTY, "a") && FreshId(REVOKED, "b")
    ensures "b" in SECOND.devices && SECOND.devices["b"].createdAt == 3 && !HasSuccessor(SECOND, "b")
    ensures Written(SECOND, ForRollback(SECOND, 6, "b", 3, None)) == FIRST && Live(FIRST.devices["a"])
  {
    assert Holders(FIRST, PHONE.relay, "b") == {"a"};
  }

  /** The same run with the registries left open: a create, and the lookup of another. */
  lemma SeenBefore(mac: Mac, r1: Registry) returns (states: seq<Shared>, halves: seq<TimedHalf>)
    requires Written(EMPTY, ForCreate(EMPTY, 1, "a", PHONE)) == r1 && FreshId(EMPTY, "a")
    ensures IsInterleaving(mac, states, halves) && Ticks(halves, 0) && AllFresh(states, halves)
    ensures states[0] == Shared(EMPTY, map[]) && |halves| == 3 && Time(halves, 0, 3) == 3
    ensures states[3] == Shared(r1, map[1 := ForCreate(r1, 3, "b", PHONE)])
  {
    states, halves := [Shared(EMPTY, map[])], [];
    states, halves := CreateGoesOn(mac, states, halves, 0, "a", 1);
    states, halves := GoesOn(mac, states, halves, CreateReads(1, "b", PHONE), 3,
                             Shared(r1, map[1 := ForCreate(r1, 3, "b", PHONE)]));
  }

  /** Then the revocation, the other create's transaction, and the lookup of its rollback. */
  lemma RevokedBetween(mac: Mac, r1: Registry, gone: Registry, r2: Registry)
      returns (states: seq<Shared>, halves: seq<TimedHalf>)
    requires Written(EMPTY, ForCreate(EMPTY, 1, "a", PHONE)) == r1 && FreshId(EMPTY, "a")
    requires Revoke(r1, "a", 4) == gone && FreshId(gone, "b") && Written(gone, ForCreate(r1, 3, "b", PHONE)) == r2
    requires "b" in r2.devices && r2.devices["b"].createdAt == 3 && !HasSuccessor(r2, "b")
    ensures IsInterleaving(mac, states, halves) && Ticks(halves, 0) && AllFresh(states, halves)
    ensures states[0] == Shared(EMPTY, map[]) && |halves| == 6 && Time(halves, 0, 6) == 6
    ensures halves[3] == At(Whole(DoRevoke("a")), 4)
    ensures states[6] == Shared(r2, map[2 := ForRollback(r2, 6, "b", 3, None)])
  {
    var r := ForCreate(r1, 3, "b", PHONE);
    states, halves := SeenBefore(mac, r1);
    states, halves := GoesOn(mac, states, halves, Whole(DoRevoke("a")), 4, Shared(gone, map[1 := r]));
    assert map[1 := r] - {1} == map[];
    states, halves := GoesOn(mac, states, halves, Writes(1), 5, Shared(r2, map[]));
    states, halves := GoesOn(mac, states, halves, RollbackReads(2, "b", None), 6,
                             Shared(r2, map[2 := ForRollback(r2, 6, "b", 3, None)]));
  }

  /**
   A revocation by hand that falls between the halves of a create is overwritten by it, and
   undone when the create is rolled back, undisturbed, after that.
   */
  lemma RevocationIsUndone(mac: Mac) returns (states: seq<Shared>, halves: seq<TimedHalf>)
    ensures IsInterleaving(mac, states, halves) && Ticks(halves, 0) && AllFresh(states, halves)
    ensures states[0] == Shared(EMPTY, map[]) && |halves| == 7 && halves[3] == At(Whole(DoRevoke("a")), 4)
    ensures "a" in states[7].registry.devices && Live(states[7].registry.devices["a"])
  {
    RevocationSteps();
    states, halves := RevokedBetween(mac, FIRST, REVOKED, SECOND);
    var undo := ForRollback(SECOND, 6, "b", 3, None);
    assert map[2 := undo] - {2} == map[];
    states, halves := GoesOn(mac, states, halves, Writes(2), 7, Shared(FIRST, map[]));
  }
}
