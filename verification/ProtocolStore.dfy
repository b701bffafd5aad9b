/**
 The store's methods: each runs one transaction statement by statement. A contract says first
 what an answer means for the caller, what changed and what did not, and last that the tables
 move as one step of the request machine, so that its theorems over runs speak of the store.
 */
module ProtocolStore {
  import opened Prelude
  import opened ProtocolModel
  import opened ProtocolTheorems
  import opened ProtocolReplays

  /** A method did what its specification says, or refused and changed nothing. */
  predicate Answers(spec: Outcome, before: Tables, after: Tables, r: Result<bool, string>) {
    match spec
    case Ok(done) => r == Ok(done.replayed) && after == done.tables
    case Err(e) => r == Err(e) && after == before
  }

  /** The principal's negotiation is known to the store and neither revoked nor run out. */
  predicate Negotiated(t: Tables, context: string, principal: string, now: int) {
    && context in t.negotiations && t.negotiations[context].principal == principal
    && !t.negotiations[context].revoked && now < t.negotiations[context].expiresAt
  }

  /** What an action may be reserved on: a live negotiation, a live snapshot, an open session. */
  predicate MayAct(t: Tables, i: Identity, now: int) {
    && Negotiated(t, i.context, i.principal, now)
    && SnapshotCovers(t, i) && now < t.snapshots[i.snapshot].expiresAt
    && i.session in t.sessions && !t.sessions[i.session].closed && t.sessions[i.session].generation == i.generation
  }

  /**
   One event more in a log that had not ended; the other sessions are as before, actions move
   only by a completion, and a terminal event leaves no lease of the session unrevoked.
   */
  predicate Appended(t: Tables, u: Tables, q: Submission) {
    && q.session in t.sessions && !t.sessions[q.session].terminal
    && q.session in u.sessions && u.sessions[q.session].log == t.sessions[q.session].log + [q.event]
    && u.sessions - {q.session} == t.sessions - {q.session}
    && (q.event.terminal ==> forall k | k in u.leases && u.leases[k].session == q.session :: u.leases[k].revokedAt.Some?)
    && (!q.event.terminal ==> u.leases == t.leases && u.confirmations == t.confirmations)
    && (q.completion.None? ==> u.actions == t.actions)
  }

  lemma AppendMeans(t: Tables, q: Submission, now: int)
    ensures var r := AppendEvent(t, q, now);
            r.Ok? ==> SameStored(r.value.tables, q) && ReplaysForever(r.value.tables, q)
                      && (!r.value.replayed ==> Appended(t, r.value.tables, q))
  {
    if AppendEvent(t, q, now).Ok? {
      AppendedIsStored(t, q, now);
      AcceptedReplaysForever(t, q, now);
    }
  }

  class Store {
    var sessions: map<string, Session>
    var negotiations: map<string, Negotiation>
    var snapshots: map<string, Snapshot>
    var actions: map<string, Action>
    var leases: map<string, Lease>
    var confirmations: map<string, Confirmation>
    ghost var history: seq<Timed>

    constructor ()
      ensures Valid() && history == []
    {
      sessions, negotiations, snapshots, actions, leases, confirmations := map[], map[], map[], map[], map[], map[];
      history := [];
    }

    /** The tables are those that the requests served so far lead to. */
    ghost predicate Valid()
      reads this
    {
      Contents() == Reached(history)
    }

    /** The history goes on with a request whose writes are still to come. */
    ghost method Enter(r: Request, now: int)
      requires Valid()
      modifies this`history
      ensures history == old(history) + [Timed(r, now)] && Reached(history) == Served(Contents(), r, now)
    {
      ServedMore(EMPTY, history, r, now);
      history := history + [Timed(r, now)];
    }

    /** So whatever the methods were called with, chains, leases and consumption are in order. */
    lemma ValidIsSound()
      requires Valid()
      ensures Sound(Contents())
    {
      ReachedSound(history);
    }

    ghost function Contents(): Tables
      reads this
    {
      Tables(sessions, negotiations, snapshots, actions, leases, confirmations)
    }

    // What other calls write: sessions, negotiations, and the snapshots of known sessions.

    method OpenSession(session: string, generation: int, now: int)
      requires Valid()
      modifies this`history, this`sessions
      ensures Valid() && history == old(history) + [Timed(Open(session, generation), now)]
    {
      Enter(Open(session, generation), now);
      if session !in sessions {
        sessions := sessions[session := NewSession(generation)];
      }
    }

    method CloseSession(session: string, now: int)
      requires Valid()
      modifies this`history, this`sessions
      ensures Valid() && history == old(history) + [Timed(Close(session), now)]
    {
      Enter(Close(session), now);
      if session in sessions {
        sessions := sessions[session := sessions[session].(closed := true)];
      }
    }

    method RefreshCapabilityGeneration(session: string, expected: int, generation: int, now: int)
      requires Valid()
      modifies this`history, this`sessions
      ensures Valid() && history == old(history) + [Timed(Refresh(session, expected, generation), now)]
    {
      Enter(Refresh(session, expected, generation), now);
      if generation >= 0 && session in sessions && sessions[session].generation == expected {
        sessions := sessions[session := sessions[session].(generation := generation)];
      }
    }

    method PutNegotiation(context: string, n: Negotiation, now: int)
      requires Valid()
      modifies this`history, this`negotiations
      ensures Valid() && history == old(history) + [Timed(Negotiate(context, n), now)]
    {
      Enter(Negotiate(context, n), now);
      negotiations := negotiations[context := n];
    }

    method PutSnapshot(id: string, s: Snapshot, now: int)
      requires Valid()
      modifies this`history, this`snapshots
      ensures Valid() && history == old(history) + [Timed(Capture(id, s), now)]
    {
      Enter(Capture(id, s), now);
      if s.session in sessions {
        snapshots := snapshots[id := s];
      }
    }

    /** The negotiation must be known, the principal's own, and alive. */
    method ActiveNegotiation(context: string, principal: string, now: int) returns (error: Option<string>)
      ensures error.None? <==> Negotiated(Contents(), context, principal, now)
      ensures error == NegotiationError(Contents(), context, principal, now)
    {
      if context !in negotiations {
        return Some("protocol negotiation context is unknown");
      }
      var n := negotiations[context];
      if n.principal != principal {
        return Some("protocol negotiation principal is mismatched");
      }
      if n.revoked || now >= n.expiresAt {
        return Some("protocol negotiation context is expired or revoked");
      }
      return None;
    }

    /** The snapshot is there and was taken for the same session, caller, generation and binding. */
    method CoveredBySnapshot(i: Identity) returns (covered: bool)
      ensures covered <==> SnapshotCovers(Contents(), i)
    {
      if i.snapshot !in snapshots {
        return false;
      }
      var s := snapshots[i.snapshot];
      return s.session == i.session && s.context == i.context && s.principal == i.principal
             && s.generation == i.generation && s.binding == i.binding;
    }

    method ActionAuthority(i: Identity, now: int) returns (error: Option<string>)
      ensures error.None? <==> i.generation >= 1 && MayAct(Contents(), i, now)
      ensures error == ActionError(Contents(), i, now)
    {
      if i.generation < 1 {
        return Some("protocol action generation or mutation class is invalid");
      }
      var stale := ActiveNegotiation(i.context, i.principal, now);
      if stale.Some? {
        return stale;
      }
      var covered := CoveredBySnapshot(i);
      if !covered || now >= snapshots[i.snapshot].expiresAt {
        return Some("protocol action snapshot authority is stale");
      }
      if i.session !in sessions || sessions[i.session].closed || sessions[i.session].generation != i.generation {
        return Some("protocol action session authority is stale");
      }
      return None;
    }

    method ReserveProtocolAction(id: string, i: Identity, mutation: bool, request: string, now: int)
        returns (r: Result<bool, string>)
      requires Valid()
      modifies this`history, this`actions
      ensures Valid() && history == old(history) + [Timed(Reserve(id, i, mutation, request), now)]
      ensures r.Ok? <==> i.generation >= 1 && MayAct(old(Contents()), i, now)
                         && (id in old(actions) ==> old(actions[id].identity == i && actions[id].mutation == mutation
                                                        && actions[id].request == request))
      ensures r == Ok(false) ==> id !in old(actions) && actions - {id} == old(actions)
                                 && id in actions && actions[id].state == Reserved && actions[id].identity == i
                                 && actions[id].reservedAt == now
      ensures r != Ok(false) ==> actions == old(actions)
      ensures Answers(ReserveAction(old(Contents()), id, i, mutation, request, now), old(Contents()), Contents(), r)
    {
      Enter(Reserve(id, i, mutation, request), now);
      var bad := ActionAuthority(i, now);
      if bad.Some? {
        return Err(bad.value);
      }
      if id in actions {
        var a := actions[id];
        if a.identity != i || a.mutation != mutation || a.request != request {
          return Err("protocol action identity is already bound");
        }
        return Ok(true);
      }
      actions := actions[id := Action(i, mutation, request, Reserved, None, None, None, now, None, None)];
      return Ok(false);
    }

    method MarkDispatchStarted(id: string, operation: Option<string>, cursor: Option<string>, now: int)
        returns (r: Result<bool, string>)
      requires Valid()
      modifies this`history, this`actions
      ensures Valid() && history == old(history) + [Timed(Dispatch(id, operation, cursor), now)]
      ensures r == Ok(false) ==> id in old(actions) && old(actions[id].state) == Reserved
      ensures r.Ok? ==> && id in actions && actions[id].state == DispatchStarted
                        && actions[id].providerOperation == operation && actions[id].providerCursor == cursor
                        && actions - {id} == old(actions) - {id}
      ensures r.Ok? ==> DispatchedFor(Contents(), id, operation, cursor)
                        && forall at :: MarkDispatched(Contents(), id, operation, cursor, at) == Ok(Done(Contents(), true))
      ensures r != Ok(false) ==> actions == old(actions)
      ensures Answers(MarkDispatched(old(Contents()), id, operation, cursor, now), old(Contents()), Contents(), r)
    {
      Enter(Dispatch(id, operation, cursor), now);
      if id !in actions {
        return Err("protocol action identity is unknown");
      }
      var a := actions[id];
      if a.state == DispatchStarted {
        if a.providerOperation != operation || a.providerCursor != cursor {
          return Err("protocol dispatch identity is already bound");
        }
        DispatchedOnce(Contents(), id, operation, cursor);
        return Ok(true);
      }
      if a.state != Reserved {
        return Err("protocol action is not reservable for dispatch");
      }
      actions := actions[id := a.(state := DispatchStarted, providerOperation := operation,
                                  providerCursor := cursor, dispatchedAt := Some(now))];
      DispatchedOnce(Contents(), id, operation, cursor);
      return Ok(false);
    }

    method CompleteProtocolAction(id: string, target: ActionState, digest: string, now: int)
        returns (r: Result<bool, string>)
      requires Valid()
      modifies this`history, this`actions
      ensures Valid() && history == old(history) + [Timed(Complete(id, target, digest), now)]
      ensures r.Ok? <==> id in old(actions) && target in RESULT_STATES && target in Next(old(actions[id].state))
      ensures r.Ok? ==> && id in actions && actions[id].state == target && actions[id].result == Some(digest)
                        && actions[id].identity == old(actions[id].identity)
                        && actions - {id} == old(actions) - {id}
      ensures r == Ok(false) ==> (actions[id].completedAt == if Finished(target) then Some(now) else None)
      ensures r != Ok(false) ==> actions == old(actions)
      ensures Answers(CompleteAction(old(Contents()), id, target, digest, now), old(Contents()), Contents(), r)
    {
      Enter(Complete(id, target, digest), now);
      if target == Reserved || target == DispatchStarted {
        return Err("protocol action result state is invalid");
      }
      if id !in actions {
        return Err("protocol action identity is unknown");
      }
      var a := actions[id];
      if a.state == target && a.result == Some(digest) {
        return Ok(true);
      }
      if target !in Next(a.state) {
        return Err("protocol action state transition is invalid");
      }
      var finished := if target in {Applied, Rejected} then Some(now) else None;
      actions := actions[id := a.(state := target, result := Some(digest), completedAt := finished)];
      return Ok(false);
    }

    /** The lease as asked is well formed, within its negotiation, and of the session's present owner. */
    method LeaseAuthority(asked: Lease, now: int) returns (error: Option<string>)
      ensures error.None? ==> && Negotiated(Contents(), asked.context, asked.principal, now)
                              && now < asked.expiresAt <= negotiations[asked.context].expiresAt
                              && asked.session in sessions && !sessions[asked.session].terminal
                              && sessions[asked.session].epoch == asked.epoch
      ensures error == LeaseError(Contents(), asked, now)
    {
      if asked.scope !in {"input", "mutation", "approval"} {
        return Some("protocol lease scope is invalid");
      }
      if asked.generation < 1 || asked.epoch < 1 {
        return Some("protocol lease generation or epoch is invalid");
      }
      if asked.issuedAt > now || asked.expiresAt <= now {
        return Some("protocol lease is not currently valid");
      }
      var stale := ActiveNegotiation(asked.context, asked.principal, now);
      if stale.Some? {
        return stale;
      }
      if asked.expiresAt > negotiations[asked.context].expiresAt {
        return Some("protocol lease outlives its negotiation context");
      }
      if asked.session !in sessions {
        return Some("protocol lease session authority is stale");
      }
      var owner := sessions[asked.session];
      if owner.generation != asked.generation || owner.epoch != asked.epoch || owner.terminal {
        return Some("protocol lease session authority is stale");
      }
      return None;
    }

    method IssueProtocolLease(id: string, asked: Lease, now: int) returns (r: Result<bool, string>)
      requires Valid()
      modifies this`history, this`leases
      ensures Valid() && history == old(history) + [Timed(Grant(id, asked), now)]
      ensures r.Ok? ==> && Negotiated(Contents(), asked.context, asked.principal, now)
                        && asked.expiresAt <= negotiations[asked.context].expiresAt
                        && asked.session in sessions && !sessions[asked.session].terminal
                        && sessions[asked.session].epoch == asked.epoch
      ensures r == Ok(false) ==>
                && id !in old(leases) && leases - {id} == old(leases)
                && id in leases && HoldsScope(leases[id], asked.session, asked.scope, now)
                && (forall at :: Live(leases[id], at) <==> at < asked.expiresAt)
                && (forall k | k in leases && HoldsScope(leases[k], asked.session, asked.scope, now) :: k == id)
      ensures r == Ok(true) ==> id in old(leases)
                                && old(leases[id]) == asked.(revokedAt := old(leases[id].revokedAt),
                                                             createdAt := old(leases[id].createdAt))
      ensures r != Ok(false) ==> leases == old(leases)
      ensures Answers(IssueLease(old(Contents()), id, asked, now), old(Contents()), Contents(), r)
    {
      Enter(Grant(id, asked), now);
      var bad := LeaseAuthority(asked, now);
      if bad.Some? {
        return Err(bad.value);
      }
      if id in leases {
        var l := leases[id];
        if asked.(revokedAt := l.revokedAt, createdAt := l.createdAt) != l {
          return Err("protocol lease identity is already bound");
        }
        return Ok(true);
      }
      if exists k :: k in leases && HoldsScope(leases[k], asked.session, asked.scope, now) {
        return Err("protocol lease scope already has an active holder");
      }
      leases := leases[id := asked.(revokedAt := None, createdAt := now)];
      return Ok(false);
    }

    method RevokeProtocolLease(id: string, principal: string, now: int) returns (r: Result<bool, string>)
      requires Valid()
      modifies this`history, this`leases
      ensures Valid() && history == old(history) + [Timed(Revoke(id, principal), now)]
      ensures r.Ok? <==> id in old(leases) && old(leases[id].principal) == principal
      ensures r.Ok? ==> id in leases && leases - {id} == old(leases) - {id} && (forall at :: !Live(leases[id], at))
      ensures r == Ok(false) ==> old(leases[id].revokedAt).None? && leases[id].revokedAt == Some(now)
      ensures r != Ok(false) ==> leases == old(leases)
      ensures Answers(RevokeLease(old(Contents()), id, principal, now), old(Contents()), Contents(), r)
    {
      Enter(Revoke(id, principal), now);
      if id !in leases || leases[id].principal != principal {
        return Err("protocol lease identity is unknown");
      }
      if leases[id].revokedAt.Some? {
        return Ok(true);
      }
      leases := leases[id := leases[id].(revokedAt := Some(now))];
      return Ok(false);
    }

    method IssueProtocolConfirmation(id: string, i: Identity, digest: string, issuedAt: int, expiresAt: int, now: int)
        returns (r: Result<bool, string>)
      requires Valid()
      modifies this`history, this`confirmations
      ensures Valid() && history == old(history) + [Timed(Confirm(id, i, digest, issuedAt, expiresAt), now)]
      ensures r.Ok? ==> && Negotiated(Contents(), i.context, i.principal, now) && SnapshotCovers(Contents(), i)
                        && now < expiresAt <= negotiations[i.context].expiresAt
                        && expiresAt <= snapshots[i.snapshot].expiresAt
                        && id in confirmations && confirmations[id].identity == i && confirmations[id].digest == digest
                        && confirmations[id].expiresAt == expiresAt
                        && confirmations - {id} == old(confirmations) - {id}
      ensures r == Ok(false) ==> id !in old(confirmations) && i.session in sessions
                                 && confirmations[id].consumedBy.None? && confirmations[id].revokedAt.None?
      ensures r != Ok(false) ==> confirmations == old(confirmations)
      ensures Answers(IssueConfirmation(old(Contents()), id, i, digest, issuedAt, expiresAt, now),
                      old(Contents()), Contents(), r)
    {
      Enter(Confirm(id, i, digest, issuedAt, expiresAt), now);
      if i.generation < 1 {
        return Err("protocol confirmation generation is invalid");
      }
      if issuedAt > now || expiresAt <= now {
        return Err("protocol confirmation is not currently valid");
      }
      var stale := ActiveNegotiation(i.context, i.principal, now);
      if stale.Some? {
        return Err(stale.value);
      }
      var covered := CoveredBySnapshot(i);
      if !covered || expiresAt > snapshots[i.snapshot].expiresAt
         || expiresAt > negotiations[i.context].expiresAt {
        return Err("protocol confirmation snapshot authority is stale");
      }
      if id in confirmations {
        var c := confirmations[id];
        if c.identity != i || c.digest != digest || c.issuedAt != issuedAt || c.expiresAt != expiresAt {
          return Err("protocol confirmation identity is already bound");
        }
        return Ok(true);
      }
      if i.session !in sessions {
        return Err("integrity");
      }
      confirmations := confirmations[id := Confirmation(i, digest, issuedAt, expiresAt, None, None, None)];
      return Ok(false);
    }

    method ConsumeProtocolConfirmation(id: string, action: string, principal: string, now: int)
        returns (r: Result<bool, string>)
      requires Valid()
      modifies this`history, this`confirmations
      ensures Valid() && history == old(history) + [Timed(Consume(id, action, principal), now)]
      ensures r.Ok? ==> && id in confirmations && confirmations[id].consumedBy == Some(action)
                        && confirmations[id].identity.principal == principal
                        && confirmations[id].revokedAt.None? && now < confirmations[id].expiresAt
                        && action in actions && actions[action].state == Reserved
                        && actions[action].identity == confirmations[id].identity
                        && confirmations - {id} == old(confirmations) - {id}
      ensures r.Ok? ==> ConsumedFor(Contents(), id, action)
      ensures r == Ok(false) ==> (forall k :: k in old(confirmations) ==> old(confirmations)[k].consumedBy != Some(action))
      ensures r != Ok(false) ==> confirmations == old(confirmations)
      ensures Answers(ConsumeConfirmation(old(Contents()), id, action, principal, now), old(Contents()), Contents(), r)
    {
      Enter(Consume(id, action, principal), now);
      if id !in confirmations || action !in actions {
        return Err("protocol confirmation or action is unknown");
      }
      var c := confirmations[id];
      if principal != c.identity.principal || c.revokedAt.Some? || now >= c.expiresAt
         || actions[action].state != Reserved || c.identity != actions[action].identity {
        return Err("protocol confirmation does not authorize this action");
      }
      if c.consumedBy.Some? {
        if c.consumedBy.value != action {
          return Err("protocol confirmation was already consumed");
        }
        ConsumedForGood(Contents(), id, action);
        return Ok(true);
      }
      if exists k :: k in confirmations && confirmations[k].consumedBy == Some(action) {
        return Err("integrity");
      }
      confirmations := confirmations[id := c.(consumedBy := Some(action), consumedAt := Some(now))];
      ConsumedForGood(Contents(), id, action);
      return Ok(false);
    }

    /** The event's action belongs to the session and may take the result that comes with it. */
    method Correlate(q: Submission) returns (error: Option<string>)
      ensures error == CheckAction(Contents(), q)
    {
      if q.event.action.Some? {
        var id := q.event.action.value;
        if id !in actions || actions[id].identity.session != q.session {
          return Some("protocol event action correlation is invalid");
        }
        if q.completion.Some? && q.completion.value.0 !in Next(actions[id].state) {
          return Some("protocol event action state transition is invalid");
        }
      }
      return None;
    }

    /** Owner and epoch after the event: an acquisition raises the epoch, a loss keeps it. */
    method Own(q: Submission) returns (error: Option<string>, owner: Option<string>, epoch: int)
      requires q.session in sessions
      ensures error == CheckOwnership(sessions[q.session], q)
      ensures error.None? ==> && owner == AfterEvent(sessions[q.session], q).owner
                              && epoch == AfterEvent(sessions[q.session], q).epoch
                              && epoch >= sessions[q.session].epoch
      ensures error.None? && q.event.kind == "ownership.acquired" ==> epoch > sessions[q.session].epoch
    {
      owner, epoch := sessions[q.session].owner, sessions[q.session].epoch;
      if q.event.kind == "ownership.acquired" {
        if q.owner.None? || q.epoch.None? || q.epoch.value <= epoch {
          return Some("protocol ownership acquisition is invalid"), owner, epoch;
        }
        return None, q.owner, q.epoch.value;
      }
      if q.event.kind == "ownership.lost" {
        if q.owner.Some? || q.epoch != Some(epoch) {
          return Some("protocol ownership loss is invalid"), owner, epoch;
        }
        return None, None, epoch;
      }
      if q.owner.Some? || q.epoch.Some? {
        return Some("protocol ownership fields are unexpected"), owner, epoch;
      }
      return None, owner, epoch;
    }

    /** Reads what an append must find: Ok(true) if the event is stored, Ok(false) if it may be. */
    method Admit(q: Submission, now: int) returns (verdict: Result<bool, string>, owner: Option<string>, epoch: int)
      ensures verdict.Err? ==> AppendEvent(Contents(), q, now) == Err(verdict.error)
      ensures verdict.Ok? && verdict.value ==> AppendEvent(Contents(), q, now) == Ok(Done(Contents(), true))
      ensures verdict.Ok? && !verdict.value ==>
                && q.session in sessions
                && owner == AfterEvent(sessions[q.session], q).owner && epoch == AfterEvent(sessions[q.session], q).epoch
                && AppendEvent(Contents(), q, now) == Ok(Done(Recorded(Contents(), q, now), false))
    {
      owner, epoch := None, 0;
      var e := q.event;
      var bad := CheckSubmission(q);
      if bad.Some? {
        return Err(bad.value), owner, epoch;
      }
      if KnownEvent(Tables(sessions, negotiations, snapshots, actions, leases, confirmations), e.id) {
        if SameStored(Tables(sessions, negotiations, snapshots, actions, leases, confirmations), q) {
          return Ok(true), owner, epoch;
        }
        return Err("protocol event identity is already bound"), owner, epoch;
      }
      if q.session !in sessions {
        return Err("protocol event session authority is stale or terminal"), owner, epoch;
      }
      var x := sessions[q.session];
      bad := CheckChain(x, e);
      if bad.Some? {
        return Err(bad.value), owner, epoch;
      }
      bad := Correlate(q);
      if bad.Some? {
        return Err(bad.value), owner, epoch;
      }
      bad, owner, epoch := Own(q);
      if bad.Some? {
        return Err(bad.value), owner, epoch;
      }
      if exists i :: 0 <= i < |x.log| && x.log[i].generation == e.generation && x.log[i].digest == e.digest {
        return Err("integrity"), owner, epoch;
      }
      return Ok(false), owner, epoch;
    }

    /** Appends one event, moves the typestate, finishes the action and, at the end, revokes. */
    method AppendProtocolEvent(q: Submission, now: int) returns (r: Result<bool, string>)
      requires Valid()
      modifies this`history, this`sessions, this`actions, this`leases, this`confirmations
      ensures Valid() && history == old(history) + [Timed(Append(q), now)]
      ensures r.Ok? ==> SameStored(Contents(), q) && ReplaysForever(Contents(), q)
      ensures r == Ok(false) ==> Appended(old(Contents()), Contents(), q)
      ensures r != Ok(false) ==> Contents() == old(Contents())
      ensures Answers(AppendEvent(old(Contents()), q, now), old(Contents()), Contents(), r)
    {
      Enter(Append(q), now);
      AppendMeans(Contents(), q, now);
      var owner, epoch;
      r, owner, epoch := Admit(q, now);
      if r.Ok? && !r.value {
        Record(q, owner, epoch, now);
      }
    }

    /** The writes of an append, once every check has passed. */
    method Record(q: Submission, owner: Option<string>, epoch: int, now: int)
      requires q.session in sessions
      requires owner == AfterEvent(sessions[q.session], q).owner && epoch == AfterEvent(sessions[q.session], q).epoch
      modifies this`sessions, this`actions, this`leases, this`confirmations
      ensures Contents() == Recorded(old(Contents()), q, now)
    {
      var e, x := q.event, sessions[q.session];
      sessions := sessions[q.session := Session(x.generation, x.closed, owner, epoch, Some(e.afterState),
                                                e.afterVersion, Some(e.stream), e.sequence, Some(e.digest),
                                                e.terminal, x.log + [e])];
      if q.completion.Some? && e.action.Some? && e.action.value in actions {
        var (target, digest) := q.completion.value;
        actions := actions[e.action.value := WithResult(actions[e.action.value], target, digest, now)];
      }
      if e.terminal {
        leases := RevokeAll(leases, q.session, now);
        confirmations := RevokeUnconsumed(confirmations, q.session, now);
      }
    }
  }
}
