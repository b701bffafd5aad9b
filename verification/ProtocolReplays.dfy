/** What repeating a protocol request does, and what revoking ends for good. */
module ProtocolReplays {
  import opened Prelude
  import opened ProtocolModel
  import opened ProtocolTheorems

  /** A request that arrives twice: the second time nothing changes, and the answer is the same. */
  predicate Repeats(t: Tables, r: Request, now: int) {
    var once := Handle(t, r, now);
    once.Ok? ==> Handle(once.value.tables, r, now) == Ok(Done(once.value.tables, true))
  }

  lemma ReserveRepeats(t: Tables, id: string, i: Identity, mutation: bool, request: string, now: int)
    requires ReserveAction(t, id, i, mutation, request, now).Ok?
    ensures var u := ReserveAction(t, id, i, mutation, request, now).value.tables;
            ReserveAction(u, id, i, mutation, request, now) == Ok(Done(u, true))
  {
  }

  lemma DispatchRepeats(t: Tables, id: string, operation: Option<string>, cursor: Option<string>, now: int)
    requires MarkDispatched(t, id, operation, cursor, now).Ok?
    ensures var u := MarkDispatched(t, id, operation, cursor, now).value.tables;
            MarkDispatched(u, id, operation, cursor, now) == Ok(Done(u, true))
  {
  }

  lemma CompleteRepeats(t: Tables, id: string, target: ActionState, digest: string, now: int)
    requires CompleteAction(t, id, target, digest, now).Ok?
    ensures var u := CompleteAction(t, id, target, digest, now).value.tables;
            CompleteAction(u, id, target, digest, now) == Ok(Done(u, true))
  {
  }

  lemma GrantRepeats(t: Tables, id: string, asked: Lease, now: int)
    requires IssueLease(t, id, asked, now).Ok?
    ensures var u := IssueLease(t, id, asked, now).value.tables; IssueLease(u, id, asked, now) == Ok(Done(u, true))
  {
  }

  lemma RevokeRepeats(t: Tables, id: string, principal: string, now: int)
    requires RevokeLease(t, id, principal, now).Ok?
    ensures var u := RevokeLease(t, id, principal, now).value.tables;
            RevokeLease(u, id, principal, now) == Ok(Done(u, true))
  {
  }

  lemma ConfirmRepeats(t: Tables, id: string, i: Identity, digest: string, issuedAt: int, expiresAt: int, now: int)
    requires IssueConfirmation(t, id, i, digest, issuedAt, expiresAt, now).Ok?
    ensures var u := IssueConfirmation(t, id, i, digest, issuedAt, expiresAt, now).value.tables;
            IssueConfirmation(u, id, i, digest, issuedAt, expiresAt, now) == Ok(Done(u, true))
  {
  }

  lemma ConsumeRepeats(t: Tables, id: string, action: string, principal: string, now: int)
    requires ConsumeConfirmation(t, id, action, principal, now).Ok?
    ensures var u := ConsumeConfirmation(t, id, action, principal, now).value.tables;
            ConsumeConfirmation(u, id, action, principal, now) == Ok(Done(u, true))
  {
  }

  lemma KnownReplays(t: Tables, q: Submission, now: int)
    requires CheckSubmission(q).None? && SameStored(t, q)
    ensures AppendEvent(t, q, now) == Ok(Done(t, true))
  {
    var log := t.sessions[q.session].log;
    var i :| 0 <= i < |log| && log[i].id == q.event.id
             && log[i].generation == q.event.generation && log[i].sequence == q.event.sequence
             && log[i].digest == q.event.digest;
    assert KnownEvent(t, q.event.id);
  }

  lemma AppendedIsStored(t: Tables, q: Submission, now: int)
    requires AppendEvent(t, q, now).Ok?
    ensures CheckSubmission(q).None? && SameStored(AppendEvent(t, q, now).value.tables, q)
  {
    var u := AppendEvent(t, q, now).value.tables;
    if !KnownEvent(t, q.event.id) {
      var log := u.sessions[q.session].log;
      assert log[|log| - 1] == q.event;
    }
  }

  /** Any of the eight protocol requests may be sent again when its reply was lost. */
  lemma LostRepliesAreRepaired(t: Tables, r: Request, now: int)
    requires r.Reserve? || r.Dispatch? || r.Complete? || r.Grant? || r.Revoke? || r.Confirm? || r.Consume? || r.Append?
    ensures Repeats(t, r, now)
  {
    if Handle(t, r, now).Ok? {
      match r
      case Reserve(id, i, mutation, request) => ReserveRepeats(t, id, i, mutation, request, now);
      case Dispatch(id, operation, cursor) => DispatchRepeats(t, id, operation, cursor, now);
      case Complete(id, target, digest) => CompleteRepeats(t, id, target, digest, now);
      case Grant(id, asked) => GrantRepeats(t, id, asked, now);
      case Revoke(id, principal) => RevokeRepeats(t, id, principal, now);
      case Confirm(id, i, digest, issuedAt, expiresAt) => ConfirmRepeats(t, id, i, digest, issuedAt, expiresAt, now);
      case Consume(id, action, principal) => ConsumeRepeats(t, id, action, principal, now);
      case Append(q) =>
        AppendedIsStored(t, q, now);
        KnownReplays(AppendEvent(t, q, now).value.tables, q, now);
    }
  }

  /** An accepted event is answered as a replay for ever, even after the session's end. */
  lemma EventsReplayForever(t: Tables, q: Submission, now: int, later: seq<Timed>, at: int)
    requires AppendEvent(t, q, now).Ok?
    ensures var u := ServedAll(AppendEvent(t, q, now).value.tables, later);
            AppendEvent(u, q, at) == Ok(Done(u, true))
  {
    var s := AppendEvent(t, q, now).value.tables;
    var u := ServedAll(s, later);
    AppendedIsStored(t, q, now);
    RunOnwards(s, later, q.session);
    StoredStays(s, u, q);
    KnownReplays(u, q, at);
  }

  lemma StoredStays(s: Tables, u: Tables, q: Submission)
    requires SameStored(s, q) && q.session in u.sessions && Onwards(s.sessions[q.session], u.sessions[q.session])
    ensures SameStored(u, q)
  {
    var log, more := s.sessions[q.session].log, u.sessions[q.session].log;
    var i :| 0 <= i < |log| && log[i].id == q.event.id
             && log[i].generation == q.event.generation && log[i].sequence == q.event.sequence
             && log[i].digest == q.event.digest;
    assert log <= more && more[i] == log[i];
  }

  /** After any later requests the event is answered as a replay. */
  ghost predicate ReplaysForever(t: Tables, q: Submission) {
    forall later, at {:trigger AppendEvent(ServedAll(t, later), q, at)} ::
      AppendEvent(ServedAll(t, later), q, at) == Ok(Done(ServedAll(t, later), true))
  }

  lemma AcceptedReplaysForever(t: Tables, q: Submission, now: int)
    requires AppendEvent(t, q, now).Ok?
    ensures ReplaysForever(AppendEvent(t, q, now).value.tables, q)
  {
    var u := AppendEvent(t, q, now).value.tables;
    forall later, at ensures AppendEvent(ServedAll(u, later), q, at) == Ok(Done(ServedAll(u, later), true)) {
      EventsReplayForever(t, q, now, later, at);
    }
  }

  // -------------------------------------------------- dispatch and consumption

  /** The action has left `reserved` under this operation and cursor. */
  predicate LeftFor(t: Tables, id: string, operation: Option<string>, cursor: Option<string>) {
    && id in t.actions && t.actions[id].state != Reserved
    && t.actions[id].providerOperation == operation && t.actions[id].providerCursor == cursor
  }

  lemma AppendedKeepsDispatch(t: Tables, q: Submission, now: int, id: string, operation: Option<string>,
                              cursor: Option<string>)
    requires LeftFor(t, id, operation, cursor) && AppendEvent(t, q, now).Ok?
    ensures LeftFor(AppendEvent(t, q, now).value.tables, id, operation, cursor)
  {
  }

  lemma ServedKeepsDispatch(t: Tables, r: Request, now: int, id: string, operation: Option<string>,
                            cursor: Option<string>)
    requires LeftFor(t, id, operation, cursor)
    ensures LeftFor(Served(t, r, now), id, operation, cursor)
  {
    if r.Append? {
      if AppendEvent(t, r.submission, now).Ok? {
        AppendedKeepsDispatch(t, r.submission, now, id, operation, cursor);
      }
    } else if !r.Reserve? && !r.Dispatch? && !r.Complete? {
      ActionsKept(t, r, now);
    }
  }

  lemma {:induction false} RunKeepsDispatch(t: Tables, requests: seq<Timed>, id: string, operation: Option<string>,
                                            cursor: Option<string>)
    requires LeftFor(t, id, operation, cursor)
    ensures LeftFor(ServedAll(t, requests), id, operation, cursor)
    decreases |requests|
  {
    if requests != [] {
      ServedKeepsDispatch(t, requests[0].request, requests[0].now, id, operation, cursor);
      RunKeepsDispatch(Served(t, requests[0].request, requests[0].now), requests[1..], id, operation, cursor);
    }
  }

  /** After any later requests no dispatch of the action is accepted but the same one again. */
  ghost predicate DispatchedFor(t: Tables, id: string, operation: Option<string>, cursor: Option<string>) {
    forall later, other, place, at {:trigger MarkDispatched(ServedAll(t, later), id, other, place, at)} ::
      MarkDispatched(ServedAll(t, later), id, other, place, at).Ok? ==> other == operation && place == cursor
  }

  /** An action is dispatched once, to one operation of the provider. */
  lemma DispatchedOnce(t: Tables, id: string, operation: Option<string>, cursor: Option<string>)
    requires LeftFor(t, id, operation, cursor)
    ensures DispatchedFor(t, id, operation, cursor)
  {
    forall later, other, place, at | MarkDispatched(ServedAll(t, later), id, other, place, at).Ok?
      ensures other == operation && place == cursor
    {
      RunKeepsDispatch(t, later, id, operation, cursor);
    }
  }

  /** After any later requests the confirmation is refused to every other action. */
  ghost predicate ConsumedFor(t: Tables, id: string, action: string) {
    forall later, other, who, at {:trigger ConsumeConfirmation(ServedAll(t, later), id, other, who, at)} ::
      other != action ==> ConsumeConfirmation(ServedAll(t, later), id, other, who, at).Err?
  }

  lemma ConsumedForGood(t: Tables, id: string, action: string)
    requires id in t.confirmations && t.confirmations[id].consumedBy == Some(action)
    ensures ConsumedFor(t, id, action)
  {
    forall later, other, who, at | other != action
      ensures ConsumeConfirmation(ServedAll(t, later), id, other, who, at).Err?
    {
      ConsumedOnce(t, later, id);
    }
  }

  // -------------------------------------------------------------- leases

  /** A granted lease is live from the grant until it expires, and no other lease is touched. */
  lemma GrantIsLive(t: Tables, id: string, asked: Lease, now: int, at: int)
    requires IssueLease(t, id, asked, now).Ok? && !IssueLease(t, id, asked, now).value.replayed
    ensures var u := IssueLease(t, id, asked, now).value.tables;
            && id in u.leases && (Live(u.leases[id], at) <==> at < asked.expiresAt) && asked.expiresAt > now
            && u.leases - {id} == t.leases - {id}
  {
    var u := IssueLease(t, id, asked, now).value.tables;
    assert u.leases - {id} == t.leases - {id};
  }

  lemma RevokedStays(t: Tables, r: Request, now: int, k: string)
    requires k in t.leases && t.leases[k].revokedAt.Some?
    ensures var u := Served(t, r, now); k in u.leases && u.leases[k] == t.leases[k]
  {
    if r.Append? {
      if AppendEvent(t, r.submission, now).Ok? {
        AppendedLeases(t, r.submission, now);
      }
    } else if !r.Grant? && !r.Revoke? {
      LeasesKept(t, r, now);
    }
  }

  /** A lease that was revoked, by its holder or by the end of its session, is never live again. */
  lemma {:induction false} RevokedForGood(t: Tables, requests: seq<Timed>, k: string, at: int)
    requires k in t.leases && t.leases[k].revokedAt.Some?
    ensures var u := ServedAll(t, requests); k in u.leases && u.leases[k] == t.leases[k] && !Live(u.leases[k], at)
    decreases |requests|
  {
    if requests != [] {
      RevokedStays(t, requests[0].request, requests[0].now, k);
      RevokedForGood(Served(t, requests[0].request, requests[0].now), requests[1..], k, at);
    }
  }

  /** Revoking works for the holder alone, ends that lease and no other, and ends it for good. */
  lemma RevokingEnds(t: Tables, id: string, principal: string, now: int, later: seq<Timed>, at: int)
    ensures var r := RevokeLease(t, id, principal, now);
            && (r.Ok? <==> id in t.leases && t.leases[id].principal == principal)
            && (r.Ok? ==>
                  && r.value.tables.leases - {id} == t.leases - {id}
                  && id in ServedAll(r.value.tables, later).leases
                  && !Live(ServedAll(r.value.tables, later).leases[id], at))
  {
    var r := RevokeLease(t, id, principal, now);
    if r.Ok? {
      assert r.value.tables.leases - {id} == t.leases - {id};
      RevokedForGood(r.value.tables, later, id, at);
    }
  }
}
