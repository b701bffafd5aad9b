/**
 The session control tables: sessions with their event chain, actions, leases and one-use
 confirmations. Every operation is one database transaction: it returns either the new
 tables or an error that leaves them alone.
 */
module ProtocolModel {
  import opened Prelude

  // ---------------------------------------------------------------- the rows

  datatype ActionState = Reserved | DispatchStarted | InProgress | OutcomeUnknown | Applied | Rejected

  /** What an action or a confirmation is about, field for field. */
  datatype Identity = Identity(
    session: string, context: string, principal: string, snapshot: string, generation: int,
    binding: string, operation: string, implementation: string, semantic: string, arguments: string)

  datatype Action = Action(
    identity: Identity,
    mutation: bool,
    request: string,
    state: ActionState,
    providerOperation: Option<string>,
    providerCursor: Option<string>,
    result: Option<string>,
    reservedAt: int,
    dispatchedAt: Option<int>,
    completedAt: Option<int>)

  datatype Lease = Lease(
    session: string, context: string, principal: string, scope: string, generation: int,
    binding: string, epoch: int, digest: string, issuedAt: int, expiresAt: int,
    revokedAt: Option<int>, createdAt: int)

  datatype Confirmation = Confirmation(
    identity: Identity, digest: string, issuedAt: int, expiresAt: int,
    revokedAt: Option<int>, consumedBy: Option<string>, consumedAt: Option<int>)

  datatype Event = Event(
    id: string, action: Option<string>, generation: int, stream: string, sequence: int,
    previous: Option<string>, digest: string, kind: string, binding: string,
    beforeState: Option<string>, beforeVersion: Option<int>,
    afterState: string, afterVersion: int, terminal: bool)

  /** A session row with the rows of the event table that belong to it, in insertion order. */
  datatype Session = Session(
    generation: int, closed: bool, owner: Option<string>, epoch: int,
    state: Option<string>, version: int, stream: Option<string>,
    lastSequence: int, lastDigest: Option<string>, terminal: bool,
    log: seq<Event>)

  datatype Negotiation = Negotiation(principal: string, expiresAt: int, revoked: bool)

  datatype Snapshot = Snapshot(
    session: string, context: string, principal: string, generation: int, binding: string, expiresAt: int)

  datatype Tables = Tables(
    sessions: map<string, Session>,
    negotiations: map<string, Negotiation>,
    snapshots: map<string, Snapshot>,
    actions: map<string, Action>,
    leases: map<string, Lease>,
    confirmations: map<string, Confirmation>)

  /** The tables after a transaction; `replayed` if the row was there already. */
  datatype Done = Done(tables: Tables, replayed: bool)

  type Outcome = Result<Done, string>

  function NewSession(generation: int): Session {
    Session(generation, false, None, 0, None, 0, None, -1, None, false, [])
  }

  // ----------------------------------------------------------------- helpers

  function NegotiationError(t: Tables, context: string, principal: string, now: int): Option<string> {
    if context !in t.negotiations then Some("protocol negotiation context is unknown")
    else if t.negotiations[context].principal != principal then Some("protocol negotiation principal is mismatched")
    else if t.negotiations[context].revoked || now >= t.negotiations[context].expiresAt then
      Some("protocol negotiation context is expired or revoked")
    else None
  }

  predicate SnapshotCovers(t: Tables, i: Identity) {
    && i.snapshot in t.snapshots
    && var s := t.snapshots[i.snapshot];
       s.session == i.session && s.context == i.context && s.principal == i.principal
       && s.generation == i.generation && s.binding == i.binding
  }

  /** The edges of the action state graph. */
  function Next(s: ActionState): set<ActionState> {
    match s
    case Reserved => {Rejected, DispatchStarted}
    case DispatchStarted => {Applied, Rejected, InProgress, OutcomeUnknown}
    case InProgress => {Applied, Rejected, InProgress, OutcomeUnknown}
    case OutcomeUnknown => {Applied, Rejected, OutcomeUnknown}
    case Applied => {Applied}
    case Rejected => {Rejected}
  }

  const RESULT_STATES := {Applied, Rejected, InProgress, OutcomeUnknown}

  predicate Finished(s: ActionState) {
    s in {Applied, Rejected}
  }

  // ----------------------------------------------------------------- actions

  /** An action needs a live negotiation, a live snapshot that covers it, and its session open. */
  function ActionError(t: Tables, i: Identity, now: int): Option<string> {
    if i.generation < 1 then Some("protocol action generation or mutation class is invalid")
    else if NegotiationError(t, i.context, i.principal, now).Some? then NegotiationError(t, i.context, i.principal, now)
    else if !SnapshotCovers(t, i) || now >= t.snapshots[i.snapshot].expiresAt then
      Some("protocol action snapshot authority is stale")
    else if i.session !in t.sessions || t.sessions[i.session].closed
            || t.sessions[i.session].generation != i.generation then
      Some("protocol action session authority is stale")
    else None
  }

  function ReserveAction(t: Tables, id: string, i: Identity, mutation: bool, request: string, now: int): Outcome {
    if ActionError(t, i, now).Some? then Err(ActionError(t, i, now).value)
    else if id in t.actions then
      var a := t.actions[id];
      if a.identity == i && a.mutation == mutation && a.request == request then Ok(Done(t, true))
      else Err("protocol action identity is already bound")
    else
      Ok(Done(t.(actions := t.actions[id := Action(i, mutation, request, Reserved, None, None, None, now, None, None)]),
              false))
  }

  function MarkDispatched(t: Tables, id: string, operation: Option<string>, cursor: Option<string>,
                          now: int): Outcome {
    if id !in t.actions then Err("protocol action identity is unknown")
    else
      var a := t.actions[id];
      if a.state == DispatchStarted then
        if a.providerOperation == operation && a.providerCursor == cursor then Ok(Done(t, true))
        else Err("protocol dispatch identity is already bound")
      else if a.state != Reserved then Err("protocol action is not reservable for dispatch")
      else
        Ok(Done(t.(actions := t.actions[id := a.(state := DispatchStarted, providerOperation := operation,
                                                 providerCursor := cursor, dispatchedAt := Some(now))]), false))
  }

  function WithResult(a: Action, target: ActionState, digest: string, now: int): Action {
    a.(state := target, result := Some(digest), completedAt := if Finished(target) then Some(now) else None)
  }

  function CompleteAction(t: Tables, id: string, target: ActionState, digest: string, now: int): Outcome {
    if target !in RESULT_STATES then Err("protocol action result state is invalid")
    else if id !in t.actions then Err("protocol action identity is unknown")
    else
      var a := t.actions[id];
      if a.state == target && a.result == Some(digest) then Ok(Done(t, true))
      else if target !in Next(a.state) then Err("protocol action state transition is invalid")
      else Ok(Done(t.(actions := t.actions[id := WithResult(a, target, digest, now)]), false))
  }

  // ------------------------------------------------------------------ leases

  predicate HoldsScope(l: Lease, session: string, scope: string, now: int) {
    l.session == session && l.scope == scope && l.revokedAt.None? && l.expiresAt > now
  }

  /** What is asked must hold by itself, within its negotiation, and of the session as it is. */
  function LeaseError(t: Tables, asked: Lease, now: int): Option<string> {
    if asked.scope !in {"input", "mutation", "approval"} then Some("protocol lease scope is invalid")
    else if asked.generation < 1 || asked.epoch < 1 then Some("protocol lease generation or epoch is invalid")
    else if asked.issuedAt > now || asked.expiresAt <= now then Some("protocol lease is not currently valid")
    else if NegotiationError(t, asked.context, asked.principal, now).Some? then
      NegotiationError(t, asked.context, asked.principal, now)
    else if asked.expiresAt > t.negotiations[asked.context].expiresAt then
      Some("protocol lease outlives its negotiation context")
    else if asked.session !in t.sessions || t.sessions[asked.session].generation != asked.generation
            || t.sessions[asked.session].epoch != asked.epoch || t.sessions[asked.session].terminal then
      Some("protocol lease session authority is stale")
    else None
  }

  /** `asked` is the lease as requested, before it is revoked or dated. */
  function IssueLease(t: Tables, id: string, asked: Lease, now: int): Outcome {
    if LeaseError(t, asked, now).Some? then Err(LeaseError(t, asked, now).value)
    else if id in t.leases then
      var l := t.leases[id];
      if asked.(revokedAt := l.revokedAt, createdAt := l.createdAt) == l then Ok(Done(t, true))
      else Err("protocol lease identity is already bound")
    else if exists k :: k in t.leases && HoldsScope(t.leases[k], asked.session, asked.scope, now) then
      Err("protocol lease scope already has an active holder")
    else Ok(Done(t.(leases := t.leases[id := asked.(revokedAt := None, createdAt := now)]), false))
  }

  function RevokeLease(t: Tables, id: string, principal: string, now: int): Outcome {
    if id !in t.leases || t.leases[id].principal != principal then Err("protocol lease identity is unknown")
    else if t.leases[id].revokedAt.Some? then Ok(Done(t, true))
    else Ok(Done(t.(leases := t.leases[id := t.leases[id].(revokedAt := Some(now))]), false))
  }

  // ----------------------------------------------------------- confirmations

  /** Of the session only its row matters, which a foreign key asks for. */
  function IssueConfirmation(t: Tables, id: string, i: Identity, digest: string, issuedAt: int, expiresAt: int,
                             now: int): Outcome {
    if i.generation < 1 then Err("protocol confirmation generation is invalid")
    else if issuedAt > now || expiresAt <= now then Err("protocol confirmation is not currently valid")
    else if NegotiationError(t, i.context, i.principal, now).Some? then
      Err(NegotiationError(t, i.context, i.principal, now).value)
    else if !SnapshotCovers(t, i) || expiresAt > t.snapshots[i.snapshot].expiresAt
            || expiresAt > t.negotiations[i.context].expiresAt then
      Err("protocol confirmation snapshot authority is stale")
    else if id in t.confirmations then
      var c := t.confirmations[id];
      if c.identity == i && c.digest == digest && c.issuedAt == issuedAt && c.expiresAt == expiresAt
      then Ok(Done(t, true)) else Err("protocol confirmation identity is already bound")
    else if i.session !in t.sessions then Err("integrity")
    else
      Ok(Done(t.(confirmations := t.confirmations[id := Confirmation(i, digest, issuedAt, expiresAt, None, None, None)]),
              false))
  }

  /** The unique column keeps two confirmations from naming one action. */
  function ConsumeConfirmation(t: Tables, id: string, action: string, principal: string, now: int): Outcome {
    if id !in t.confirmations || action !in t.actions then Err("protocol confirmation or action is unknown")
    else
      var c := t.confirmations[id];
      if principal != c.identity.principal || c.revokedAt.Some? || now >= c.expiresAt
         || t.actions[action].state != Reserved || c.identity != t.actions[action].identity then
        Err("protocol confirmation does not authorize this action")
      else if c.consumedBy.Some? then
        if c.consumedBy == Some(action) then Ok(Done(t, true))
        else Err("protocol confirmation was already consumed")
      else if exists k :: k in t.confirmations && t.confirmations[k].consumedBy == Some(action) then Err("integrity")
      else
        Ok(Done(t.(confirmations := t.confirmations[id := c.(consumedBy := Some(action), consumedAt := Some(now))]),
                false))
  }

  // ------------------------------------------------------------------ events

  /** An event as submitted; `completion` carries a result for the correlated action. */
  datatype Submission = Submission(
    session: string, event: Event, owner: Option<string>, epoch: Option<int>,
    completion: Option<(ActionState, string)>)

  predicate KnownEvent(t: Tables, id: string) {
    exists s :: s in t.sessions && exists i :: 0 <= i < |t.sessions[s].log| && t.sessions[s].log[i].id == id
  }

  /** The stored event is the submitted one, as far as a replay is checked. */
  predicate SameStored(t: Tables, q: Submission) {
    q.session in t.sessions
    && exists i :: 0 <= i < |t.sessions[q.session].log|
         && t.sessions[q.session].log[i].id == q.event.id
         && t.sessions[q.session].log[i].generation == q.event.generation
         && t.sessions[q.session].log[i].sequence == q.event.sequence
         && t.sessions[q.session].log[i].digest == q.event.digest
  }

  function CheckSubmission(q: Submission): Option<string> {
    var e := q.event;
    if e.generation < 1 || e.sequence < 0 then Some("protocol event generation or sequence is invalid")
    else if e.afterVersion < 1 || e.terminal != (e.afterState == "terminated") then
      Some("protocol event resulting typestate is invalid")
    else if q.completion.Some? && (e.action.None? || q.completion.value.0 !in RESULT_STATES) then
      Some("protocol event action completion is invalid")
    else None
  }

  /** The event continues the chain of its session. */
  function CheckChain(x: Session, e: Event): Option<string> {
    if x.generation != e.generation || x.terminal then
      Some("protocol event session authority is stale or terminal")
    else if e.sequence != x.lastSequence + 1 || e.previous != x.lastDigest
            || (x.stream.Some? && x.stream != Some(e.stream)) then
      Some("protocol event cursor has a gap or wrong predecessor")
    else if x.state.None? && (e.beforeState.Some? || e.beforeVersion.Some?) then
      Some("first protocol event has a nonempty prior state")
    else if x.state.Some? && (e.beforeState != x.state || e.beforeVersion != Some(x.version)) then
      Some("protocol event prior typestate is stale")
    else if e.afterVersion != x.version + 1 then Some("protocol event state version is not contiguous")
    else None
  }

  function CheckAction(t: Tables, q: Submission): Option<string> {
    if q.event.action.None? then None
    else if q.event.action.value !in t.actions || t.actions[q.event.action.value].identity.session != q.session then
      Some("protocol event action correlation is invalid")
    else if q.completion.Some? && q.completion.value.0 !in Next(t.actions[q.event.action.value].state) then
      Some("protocol event action state transition is invalid")
    else None
  }

  function CheckOwnership(x: Session, q: Submission): Option<string> {
    if q.event.kind == "ownership.acquired" then
      if q.owner.None? || q.epoch.None? || q.epoch.value <= x.epoch then
        Some("protocol ownership acquisition is invalid") else None
    else if q.event.kind == "ownership.lost" then
      if q.owner.Some? || q.epoch != Some(x.epoch) then Some("protocol ownership loss is invalid") else None
    else if q.owner.Some? || q.epoch.Some? then Some("protocol ownership fields are unexpected")
    else None
  }

  function AfterEvent(x: Session, q: Submission): Session {
    var e := q.event;
    var acquired := e.kind == "ownership.acquired" && q.epoch.Some?;
    x.(owner := if acquired then q.owner else if e.kind == "ownership.lost" then None else x.owner,
       epoch := if acquired then q.epoch.value else x.epoch,
       state := Some(e.afterState),
       version := e.afterVersion,
       stream := Some(e.stream),
       lastSequence := e.sequence,
       lastDigest := Some(e.digest),
       terminal := e.terminal,
       log := x.log + [e])
  }

  function RevokeAll(leases: map<string, Lease>, session: string, now: int): map<string, Lease> {
    map k | k in leases ::
      if leases[k].session == session && leases[k].revokedAt.None? then leases[k].(revokedAt := Some(now))
      else leases[k]
  }

  function RevokeUnconsumed(confirmations: map<string, Confirmation>, session: string, now: int)
      : map<string, Confirmation> {
    map k | k in confirmations ::
      if confirmations[k].identity.session == session && confirmations[k].revokedAt.None?
         && confirmations[k].consumedBy.None?
      then confirmations[k].(revokedAt := Some(now)) else confirmations[k]
  }

  function Recorded(t: Tables, q: Submission, now: int): Tables
    requires q.session in t.sessions
  {
    var e := q.event;
    t.(sessions := t.sessions[q.session := AfterEvent(t.sessions[q.session], q)],
       actions :=
         if q.completion.Some? && e.action.Some? && e.action.value in t.actions
         then t.actions[e.action.value :=
                WithResult(t.actions[e.action.value], q.completion.value.0, q.completion.value.1, now)]
         else t.actions,
       leases := if e.terminal then RevokeAll(t.leases, q.session, now) else t.leases,
       confirmations :=
         if e.terminal then RevokeUnconsumed(t.confirmations, q.session, now) else t.confirmations)
  }

  function AppendEvent(t: Tables, q: Submission, now: int): Outcome {
    if CheckSubmission(q).Some? then Err(CheckSubmission(q).value)
    else if KnownEvent(t, q.event.id) then
      if SameStored(t, q) then Ok(Done(t, true)) else Err("protocol event identity is already bound")
    else if q.session !in t.sessions then Err("protocol event session authority is stale or terminal")
    else
      var x := t.sessions[q.session];
      var chain, action, ownership := CheckChain(x, q.event), CheckAction(t, q), CheckOwnership(x, q);
      if chain.Some? then Err(chain.value)
      else if action.Some? then Err(action.value)
      else if ownership.Some? then Err(ownership.value)
      else if exists i :: 0 <= i < |x.log| && x.log[i].generation == q.event.generation
                          && x.log[i].digest == q.event.digest then Err("integrity")
      else Ok(Done(Recorded(t, q, now), false))
  }

  // ------------------------------------------------------- everything at once

  datatype Request =
    | Reserve(id: string, identity: Identity, mutation: bool, request: string)
    | Dispatch(id: string, operation: Option<string>, cursor: Option<string>)
    | Complete(id: string, target: ActionState, digest: string)
    | Grant(id: string, asked: Lease)
    | Revoke(id: string, principal: string)
    | Confirm(id: string, identity: Identity, digest: string, issuedAt: int, expiresAt: int)
    | Consume(id: string, action: string, principal: string)
    | Append(submission: Submission)
    | Refresh(session: string, expected: int, generation: int)
    | Open(session: string, generation: int)
    | Close(session: string)
    | Negotiate(context: string, negotiation: Negotiation)
    | Capture(id: string, snapshot: Snapshot)

  /** Moves a session to another capability generation, up or down. */
  function RefreshGeneration(t: Tables, session: string, expected: int, generation: int): Outcome {
    if generation < 0 then Err("capability_generation must be non-negative")
    else if session !in t.sessions || t.sessions[session].generation != expected then Ok(Done(t, true))
    else Ok(Done(t.(sessions := t.sessions[session := t.sessions[session].(generation := generation)]), false))
  }

  function Handle(t: Tables, r: Request, now: int): Outcome {
    match r
    case Reserve(id, i, mutation, request) => ReserveAction(t, id, i, mutation, request, now)
    case Dispatch(id, operation, cursor) => MarkDispatched(t, id, operation, cursor, now)
    case Complete(id, target, digest) => CompleteAction(t, id, target, digest, now)
    case Grant(id, asked) => IssueLease(t, id, asked, now)
    case Revoke(id, principal) => RevokeLease(t, id, principal, now)
    case Confirm(id, i, digest, issuedAt, expiresAt) => IssueConfirmation(t, id, i, digest, issuedAt, expiresAt, now)
    case Consume(id, action, principal) => ConsumeConfirmation(t, id, action, principal, now)
    case Append(q) => AppendEvent(t, q, now)
    case Refresh(s, expected, generation) => RefreshGeneration(t, s, expected, generation)
    case Open(s, generation) =>
      if s in t.sessions then Err("exists")
      else Ok(Done(t.(sessions := t.sessions[s := NewSession(generation)]), false))
    case Close(s) =>
      if s !in t.sessions then Err("unknown")
      else Ok(Done(t.(sessions := t.sessions[s := t.sessions[s].(closed := true)]), false))
    case Negotiate(context, n) => Ok(Done(t.(negotiations := t.negotiations[context := n]), false))
    case Capture(id, s) =>
      if s.session !in t.sessions then Err("integrity") else Ok(Done(t.(snapshots := t.snapshots[id := s]), false))
  }

  /** The tables after a request, answered or refused. */
  function Served(t: Tables, r: Request, now: int): Tables {
    match Handle(t, r, now)
    case Ok(done) => done.tables
    case Err(_) => t
  }

  datatype Timed = Timed(request: Request, now: int)

  function ServedAll(t: Tables, requests: seq<Timed>): Tables
    decreases |requests|
  {
    if requests == [] then t else ServedAll(Served(t, requests[0].request, requests[0].now), requests[1..])
  }

  const EMPTY := Tables(map[], map[], map[], map[], map[], map[])
}
