/** What the session control tables keep over every sequence of requests. */
module ProtocolTheorems {
  import opened Prelude
  import opened ProtocolModel

  // -------------------------------------------------------------- event chain

  /** Event i of a log follows from the one before it. */
  predicate Linked(log: seq<Event>, i: nat)
    requires i < |log|
  {
    var e := log[i];
    && e.sequence == i
    && e.afterVersion == i + 1
    && e.stream == log[0].stream
    && (e.terminal <==> e.afterState == "terminated")
    && e.generation >= 1
    && if i == 0 then e.previous.None? && e.beforeState.None? && e.beforeVersion.None?
       else
         && e.previous == Some(log[i - 1].digest)
         && e.beforeState == Some(log[i - 1].afterState)
         && e.beforeVersion == Some(log[i - 1].afterVersion)
         && !log[i - 1].terminal
  }

  /** The log is one unbroken chain and the session row is its summary. */
  ghost predicate Chain(x: Session) {
    && (forall i | 0 <= i < |x.log| :: Linked(x.log, i))
    && x.lastSequence == |x.log| - 1
    && x.version == |x.log|
    && x.epoch >= 0
    && (if x.log == [] then
          x.lastDigest.None? && x.state.None? && x.stream.None? && !x.terminal
        else
          var last := x.log[|x.log| - 1];
          x.lastDigest == Some(last.digest) && x.state == Some(last.afterState)
          && x.stream == Some(last.stream) && x.terminal == last.terminal)
  }

  lemma ExtendChain(x: Session, q: Submission)
    requires Chain(x) && CheckSubmission(q).None? && CheckChain(x, q.event).None? && CheckOwnership(x, q).None?
    ensures Chain(AfterEvent(x, q)) && AfterEvent(x, q).epoch >= x.epoch
  {
    var y := AfterEvent(x, q);
    forall i | 0 <= i < |y.log| ensures Linked(y.log, i) {
      if i < |x.log| {
        assert Linked(x.log, i);
      } else if i > 0 {
        assert Linked(x.log, i - 1);
      }
    }
  }

  // ------------------------------------------------------ actions and the rest

  /** Applied, in progress and unknown outcomes were dispatched first; only results complete. */
  predicate ActionOk(a: Action) {
    && (a.state in {DispatchStarted, InProgress, OutcomeUnknown, Applied} ==> a.dispatchedAt.Some?)
    && (a.state == Reserved ==> a.dispatchedAt.None? && a.result.None?)
    && (a.completedAt.Some? <==> Finished(a.state))
  }

  /** A consumed confirmation names an action that agrees with it on all ten fields. */
  predicate ConsumptionOk(t: Tables, c: Confirmation) {
    && (c.consumedBy.Some? <==> c.consumedAt.Some?)
    && (c.consumedBy.Some? ==>
          c.consumedBy.value in t.actions && t.actions[c.consumedBy.value].identity == c.identity)
  }

  predicate SameAction(t: Tables, k: string, l: string) {
    && k in t.confirmations && l in t.confirmations
    && t.confirmations[k].consumedBy.Some? && t.confirmations[k].consumedBy == t.confirmations[l].consumedBy
  }

  /** Of two unrevoked leases on one scope, one had run out when the other was issued. */
  predicate TakeTurns(l: Lease, m: Lease) {
    l.session == m.session && l.scope == m.scope && l.revokedAt.None? && m.revokedAt.None? ==>
      l.expiresAt <= m.createdAt || m.expiresAt <= l.createdAt
  }

  ghost predicate LeasesOk(t: Tables) {
    && (forall k, l {:trigger t.leases[k], t.leases[l]} | k in t.leases && l in t.leases && k != l ::
          TakeTurns(t.leases[k], t.leases[l]))
    && (forall k | k in t.leases :: t.leases[k].session in t.sessions)
    && (forall k | k in t.leases && t.sessions[t.leases[k].session].terminal :: t.leases[k].revokedAt.Some?)
  }

  ghost predicate Sound(t: Tables) {
    && (forall s | s in t.sessions :: Chain(t.sessions[s]))
    && (forall a | a in t.actions :: ActionOk(t.actions[a]))
    && (forall c | c in t.confirmations :: ConsumptionOk(t, t.confirmations[c]))
    && (forall k, l {:trigger SameAction(t, k, l)} | SameAction(t, k, l) :: k == l)
    && LeasesOk(t)
  }

  lemma EmptySound()
    ensures Sound(EMPTY)
  {
  }

  /** Actions may change, as long as they stay in order and keep their identity. */
  ghost predicate ActionsAdvance(t: Tables, u: Tables) {
    && (forall a | a in t.actions :: a in u.actions && u.actions[a].identity == t.actions[a].identity)
    && (forall a | a in u.actions :: ActionOk(u.actions[a]))
  }

  lemma ActionStep(t: Tables, u: Tables)
    requires Sound(t) && ActionsAdvance(t, u)
    requires u.sessions == t.sessions && u.leases == t.leases && u.confirmations == t.confirmations
    ensures Sound(u)
  {
    assert forall k, l :: SameAction(u, k, l) <==> SameAction(t, k, l);
    forall c | c in u.confirmations ensures ConsumptionOk(u, u.confirmations[c]) {
      assert ConsumptionOk(t, t.confirmations[c]);
    }
  }

  /** Writing one action that is in order and, if it was there, keeps its identity. */
  lemma PutAction(t: Tables, id: string, a: Action)
    requires Sound(t) && ActionOk(a) && (id in t.actions ==> t.actions[id].identity == a.identity)
    ensures Sound(t.(actions := t.actions[id := a]))
  {
    ActionStep(t, t.(actions := t.actions[id := a]));
  }

  lemma ReserveSound(t: Tables, id: string, i: Identity, mutation: bool, request: string, now: int)
    requires Sound(t)
    ensures ReserveAction(t, id, i, mutation, request, now).Ok? ==>
              Sound(ReserveAction(t, id, i, mutation, request, now).value.tables)
  {
    if id !in t.actions {
      PutAction(t, id, Action(i, mutation, request, Reserved, None, None, None, now, None, None));
    }
  }

  lemma DispatchSound(t: Tables, id: string, operation: Option<string>, cursor: Option<string>, now: int)
    requires Sound(t)
    ensures MarkDispatched(t, id, operation, cursor, now).Ok? ==>
              Sound(MarkDispatched(t, id, operation, cursor, now).value.tables)
  {
    if id in t.actions && t.actions[id].state == Reserved {
      PutAction(t, id, t.actions[id].(state := DispatchStarted, providerOperation := operation,
                                      providerCursor := cursor, dispatchedAt := Some(now)));
    }
  }

  lemma ResultOk(a: Action, target: ActionState, digest: string, now: int)
    requires ActionOk(a) && target in Next(a.state) && target in RESULT_STATES
    ensures ActionOk(WithResult(a, target, digest, now))
  {
  }

  lemma CompleteSound(t: Tables, id: string, target: ActionState, digest: string, now: int)
    requires Sound(t)
    ensures CompleteAction(t, id, target, digest, now).Ok? ==>
              Sound(CompleteAction(t, id, target, digest, now).value.tables)
  {
    if id in t.actions && target in Next(t.actions[id].state) && target in RESULT_STATES {
      ResultOk(t.actions[id], target, digest, now);
      PutAction(t, id, WithResult(t.actions[id], target, digest, now));
    }
  }

  /** Steps that touch only the lease table. */
  lemma LeaseStep(t: Tables, u: Tables)
    requires Sound(t) && LeasesOk(u)
    requires u.sessions == t.sessions && u.actions == t.actions && u.confirmations == t.confirmations
    ensures Sound(u)
  {
    assert forall k, l :: SameAction(u, k, l) <==> SameAction(t, k, l);
    forall c | c in u.confirmations ensures ConsumptionOk(u, u.confirmations[c]) {
      assert ConsumptionOk(t, t.confirmations[c]);
    }
  }

  /** The new lease found nobody in its scope, so all others there are revoked or have run out. */
  lemma GrantedLeases(t: Tables, id: string, asked: Lease, now: int)
    requires LeasesOk(t) && IssueLease(t, id, asked, now).Ok?
    ensures LeasesOk(IssueLease(t, id, asked, now).value.tables)
  {
    var u := IssueLease(t, id, asked, now).value.tables;
    assert asked.session in t.sessions && !t.sessions[asked.session].terminal;
    if u != t {
      forall k, l | k in u.leases && l in u.leases && k != l ensures TakeTurns(u.leases[k], u.leases[l]) {
        if k == id {
          assert !HoldsScope(t.leases[l], asked.session, asked.scope, now);
        } else if l == id {
          assert !HoldsScope(t.leases[k], asked.session, asked.scope, now);
        }
      }
    }
  }

  lemma GrantSound(t: Tables, id: string, asked: Lease, now: int)
    requires Sound(t)
    ensures IssueLease(t, id, asked, now).Ok? ==> Sound(IssueLease(t, id, asked, now).value.tables)
  {
    var r := IssueLease(t, id, asked, now);
    if r.Ok? && r.value.tables != t {
      GrantedLeases(t, id, asked, now);
      LeaseStep(t, r.value.tables);
    }
  }

  lemma RevokeSound(t: Tables, id: string, principal: string, now: int)
    requires Sound(t)
    ensures RevokeLease(t, id, principal, now).Ok? ==> Sound(RevokeLease(t, id, principal, now).value.tables)
  {
    var r := RevokeLease(t, id, principal, now);
    if r.Ok? && r.value.tables != t {
      var u := r.value.tables;
      forall k, l | k in u.leases && l in u.leases && k != l ensures TakeTurns(u.leases[k], u.leases[l]) {
        assert TakeTurns(t.leases[k], t.leases[l]);
      }
      LeaseStep(t, u);
    }
  }

  /** Steps that touch only the confirmation table. */
  lemma ConfirmationStep(t: Tables, u: Tables)
    requires Sound(t) && u.sessions == t.sessions && u.actions == t.actions && u.leases == t.leases
    requires forall c | c in u.confirmations :: ConsumptionOk(u, u.confirmations[c])
    requires forall k, l {:trigger SameAction(u, k, l)} | SameAction(u, k, l) :: k == l
    ensures Sound(u)
  {
  }

  lemma ConfirmSound(t: Tables, id: string, i: Identity, digest: string, issuedAt: int, expiresAt: int, now: int)
    requires Sound(t)
    ensures IssueConfirmation(t, id, i, digest, issuedAt, expiresAt, now).Ok? ==>
              Sound(IssueConfirmation(t, id, i, digest, issuedAt, expiresAt, now).value.tables)
  {
    var r := IssueConfirmation(t, id, i, digest, issuedAt, expiresAt, now);
    if r.Ok? && r.value.tables != t {
      var u := r.value.tables;
      forall c | c in u.confirmations ensures ConsumptionOk(u, u.confirmations[c]) {
        if c != id {
          assert ConsumptionOk(t, t.confirmations[c]);
        }
      }
      forall k, l | SameAction(u, k, l) ensures k == l {
        assert k != id && l != id;
        assert SameAction(t, k, l);
      }
      ConfirmationStep(t, u);
    }
  }

  lemma ConsumeSound(t: Tables, id: string, action: string, principal: string, now: int)
    requires Sound(t)
    ensures ConsumeConfirmation(t, id, action, principal, now).Ok? ==>
              Sound(ConsumeConfirmation(t, id, action, principal, now).value.tables)
  {
    var r := ConsumeConfirmation(t, id, action, principal, now);
    if r.Ok? && r.value.tables != t {
      var u := r.value.tables;
      assert forall k | k in t.confirmations :: t.confirmations[k].consumedBy != Some(action);
      forall c | c in u.confirmations ensures ConsumptionOk(u, u.confirmations[c]) {
        assert ConsumptionOk(t, t.confirmations[c]);
      }
      forall k, l | SameAction(u, k, l) ensures k == l {
        if k != id && l != id {
          assert SameAction(t, k, l);
        }
      }
      ConfirmationStep(t, u);
    }
  }

  lemma RecordedLeases(t: Tables, q: Submission, now: int)
    requires LeasesOk(t) && q.session in t.sessions && !t.sessions[q.session].terminal
    ensures LeasesOk(Recorded(t, q, now))
  {
    var u := Recorded(t, q, now);
    forall k, l | k in u.leases && l in u.leases && k != l ensures TakeTurns(u.leases[k], u.leases[l]) {
      assert TakeTurns(t.leases[k], t.leases[l]);
    }
  }

  lemma RecordedConfirmations(t: Tables, q: Submission, now: int)
    requires Sound(t) && q.session in t.sessions
    requires q.completion.Some? ==> q.event.action.Some?
    ensures var u := Recorded(t, q, now);
            && (forall c | c in u.confirmations :: ConsumptionOk(u, u.confirmations[c]))
            && (forall k, l {:trigger SameAction(u, k, l)} | SameAction(u, k, l) :: k == l)
  {
    var u := Recorded(t, q, now);
    forall c | c in u.confirmations ensures ConsumptionOk(u, u.confirmations[c]) {
      assert ConsumptionOk(t, t.confirmations[c]);
    }
    forall k, l | SameAction(u, k, l) ensures k == l {
      assert SameAction(t, k, l);
    }
  }

  lemma RecordedChains(t: Tables, q: Submission, now: int)
    requires Sound(t) && q.session in t.sessions && CheckSubmission(q).None?
    requires CheckChain(t.sessions[q.session], q.event).None? && CheckOwnership(t.sessions[q.session], q).None?
    ensures forall s | s in Recorded(t, q, now).sessions :: Chain(Recorded(t, q, now).sessions[s])
  {
    ExtendChain(t.sessions[q.session], q);
  }

  lemma RecordedActions(t: Tables, q: Submission, now: int)
    requires Sound(t) && q.session in t.sessions && CheckSubmission(q).None? && CheckAction(t, q).None?
    ensures forall a | a in Recorded(t, q, now).actions :: ActionOk(Recorded(t, q, now).actions[a])
  {
    var u := Recorded(t, q, now);
    if q.completion.Some? {
      ResultOk(t.actions[q.event.action.value], q.completion.value.0, q.completion.value.1, now);
    }
    forall a | a in u.actions ensures ActionOk(u.actions[a]) {
      assert a in t.actions && ActionOk(t.actions[a]);
    }
  }

  lemma AppendSound(t: Tables, q: Submission, now: int)
    requires Sound(t)
    ensures AppendEvent(t, q, now).Ok? ==> Sound(AppendEvent(t, q, now).value.tables)
  {
    var r := AppendEvent(t, q, now);
    if r.Ok? && !r.value.replayed {
      RecordedChains(t, q, now);
      RecordedActions(t, q, now);
      RecordedLeases(t, q, now);
      RecordedConfirmations(t, q, now);
    }
  }

  /** Requests that change nothing a chain or a lease depends on. */
  lemma SessionStep(t: Tables, u: Tables)
    requires Sound(t) && u.actions == t.actions && u.leases == t.leases && u.confirmations == t.confirmations
    requires forall s | s in u.sessions :: Chain(u.sessions[s])
    requires forall s | s in t.sessions :: s in u.sessions && u.sessions[s].terminal == t.sessions[s].terminal
    ensures Sound(u)
  {
    assert forall k, l :: SameAction(u, k, l) <==> SameAction(t, k, l);
    forall c | c in u.confirmations ensures ConsumptionOk(u, u.confirmations[c]) {
      assert ConsumptionOk(t, t.confirmations[c]);
    }
  }

  /** Opening a session, or changing what the chain does not depend on. */
  lemma PutSession(t: Tables, s: string, x: Session)
    requires Sound(t)
    requires if s in t.sessions then x == t.sessions[s].(generation := x.generation, closed := x.closed)
             else x == NewSession(x.generation)
    ensures Sound(t.(sessions := t.sessions[s := x]))
  {
    assert Chain(x) by {
      if s in t.sessions { assert Chain(t.sessions[s]); }
    }
    SessionStep(t, t.(sessions := t.sessions[s := x]));
  }

  lemma AuthorityWrites(t: Tables, r: Request, now: int)
    requires r.Negotiate? || r.Capture?
    ensures var u := Served(t, r, now);
            u == t.(negotiations := u.negotiations, snapshots := u.snapshots)
  {
  }

  lemma AdminSound(t: Tables, r: Request, now: int)
    requires Sound(t) && (r.Refresh? || r.Open? || r.Close? || r.Negotiate? || r.Capture?)
    ensures Sound(Served(t, r, now))
  {
    match r
    case Refresh(s, expected, generation) =>
      if s in t.sessions {
        PutSession(t, s, t.sessions[s].(generation := generation));
      }
    case Open(s, generation) =>
      if s !in t.sessions {
        PutSession(t, s, NewSession(generation));
      }
    case Close(s) =>
      if s in t.sessions {
        PutSession(t, s, t.sessions[s].(closed := true));
      }
    case _ =>
      AuthorityWrites(t, r, now);
      SessionStep(t, Served(t, r, now));
  }

  lemma ServedSound(t: Tables, r: Request, now: int)
    requires Sound(t)
    ensures Sound(Served(t, r, now))
  {
    match r
    case Reserve(id, i, mutation, request) => ReserveSound(t, id, i, mutation, request, now);
    case Dispatch(id, operation, cursor) => DispatchSound(t, id, operation, cursor, now);
    case Complete(id, target, digest) => CompleteSound(t, id, target, digest, now);
    case Grant(id, asked) => GrantSound(t, id, asked, now);
    case Revoke(id, principal) => RevokeSound(t, id, principal, now);
    case Confirm(id, i, digest, issuedAt, expiresAt) => ConfirmSound(t, id, i, digest, issuedAt, expiresAt, now);
    case Consume(id, action, principal) => ConsumeSound(t, id, action, principal, now);
    case Append(q) => AppendSound(t, q, now);
    case _ => AdminSound(t, r, now);
  }

  /** Every table reached by any requests at any times is sound. */
  lemma {:induction false} RunSound(t: Tables, requests: seq<Timed>)
    requires Sound(t)
    ensures Sound(ServedAll(t, requests))
    decreases |requests|
  {
    if requests != [] {
      ServedSound(t, requests[0].request, requests[0].now);
      RunSound(Served(t, requests[0].request, requests[0].now), requests[1..]);
    }
  }

  lemma {:induction false} ServedMore(t: Tables, earlier: seq<Timed>, r: Request, now: int)
    ensures ServedAll(t, earlier + [Timed(r, now)]) == Served(ServedAll(t, earlier), r, now)
    decreases |earlier|
  {
    var all := earlier + [Timed(r, now)];
    if earlier != [] {
      assert all[0] == earlier[0] && all[1..] == earlier[1..] + [Timed(r, now)];
      ServedMore(Served(t, earlier[0].request, earlier[0].now), earlier[1..], r, now);
    } else {
      assert all[1..] == [] && ServedAll(Served(t, r, now), []) == Served(t, r, now);
    }
  }

  // ------------------------------------------------------- what follows from it

  ghost function Reached(requests: seq<Timed>): Tables {
    ServedAll(EMPTY, requests)
  }

  lemma ReachedSound(requests: seq<Timed>)
    ensures Sound(Reached(requests))
  {
    EmptySound();
    RunSound(EMPTY, requests);
  }

  /** Sequences 0..n without gap, digests, states and versions linked, one stream, one end. */
  lemma EventsFormAChain(requests: seq<Timed>, s: string, i: nat)
    requires s in Reached(requests).sessions && i < |Reached(requests).sessions[s].log|
    ensures var log := Reached(requests).sessions[s].log;
            && log[i].sequence == i && log[i].afterVersion == i + 1 && log[i].stream == log[0].stream
            && (log[i].terminal ==> i == |log| - 1 && Reached(requests).sessions[s].terminal)
            && (i > 0 ==>
                  && log[i].previous == Some(log[i - 1].digest)
                  && log[i].beforeState == Some(log[i - 1].afterState)
                  && log[i].beforeVersion == Some(log[i - 1].afterVersion))
  {
    ReachedSound(requests);
    var x := Reached(requests).sessions[s];
    assert Chain(x) && Linked(x.log, i);
    if i + 1 < |x.log| {
      assert Linked(x.log, i + 1);
    }
  }

  /** A log only grows, the ownership epoch never falls, and after the end nothing is added. */
  predicate Onwards(x: Session, y: Session) {
    x.log <= y.log && x.epoch <= y.epoch && (x.terminal ==> y.terminal && y.log == x.log && y.epoch == x.epoch)
  }

  lemma AppendOnwards(t: Tables, q: Submission, now: int, s: string)
    requires s in t.sessions && AppendEvent(t, q, now).Ok?
    ensures var u := AppendEvent(t, q, now).value.tables;
            s in u.sessions && Onwards(t.sessions[s], u.sessions[s])
  {
    if !AppendEvent(t, q, now).value.replayed && s == q.session {
      assert CheckOwnership(t.sessions[s], q).None? && !t.sessions[s].terminal;
      assert AppendEvent(t, q, now).value.tables.sessions[s] == AfterEvent(t.sessions[s], q);
    }
  }

  /** Which tables a request can write to at all. */
  lemma SessionsKept(t: Tables, r: Request, now: int)
    requires !r.Append? && !r.Refresh? && !r.Open? && !r.Close?
    ensures Served(t, r, now).sessions == t.sessions
  {
  }

  lemma LeasesKept(t: Tables, r: Request, now: int)
    requires !r.Append? && !r.Grant? && !r.Revoke?
    ensures Served(t, r, now).leases == t.leases
  {
  }

  lemma ActionsKept(t: Tables, r: Request, now: int)
    requires !r.Append? && !r.Reserve? && !r.Dispatch? && !r.Complete?
    ensures Served(t, r, now).actions == t.actions
  {
  }

  lemma ConfirmationsKept(t: Tables, r: Request, now: int)
    requires !r.Append? && !r.Confirm? && !r.Consume?
    ensures Served(t, r, now).confirmations == t.confirmations
  {
  }

  /** Requests about a session change neither its log nor its epoch nor its end. */
  lemma AdminWrites(t: Tables, r: Request, now: int)
    requires r.Refresh? || r.Open? || r.Close?
    ensures var u := Served(t, r, now);
            || u.sessions == t.sessions
            || (r.session !in t.sessions && u.sessions == t.sessions[r.session := NewSession(if r.Open? then r.generation else 0)])
            || (r.session in t.sessions
                && exists closed, generation ::
                     u.sessions == t.sessions[r.session := t.sessions[r.session].(closed := closed, generation := generation)])
  {
    if (r.Close? || r.Refresh?) && r.session in t.sessions {
      var x := t.sessions[r.session];
      if r.Close? {
        assert Served(t, r, now).sessions == t.sessions[r.session := x.(closed := true, generation := x.generation)];
      } else if Served(t, r, now).sessions != t.sessions {
        assert Served(t, r, now).sessions == t.sessions[r.session := x.(closed := x.closed, generation := r.generation)];
      }
    }
  }

  lemma AdminOnwards(t: Tables, r: Request, now: int, s: string)
    requires s in t.sessions && (r.Refresh? || r.Open? || r.Close?)
    ensures s in Served(t, r, now).sessions && Onwards(t.sessions[s], Served(t, r, now).sessions[s])
  {
    AdminWrites(t, r, now);
  }

  lemma ServedOnwards(t: Tables, r: Request, now: int, s: string)
    requires s in t.sessions
    ensures s in Served(t, r, now).sessions && Onwards(t.sessions[s], Served(t, r, now).sessions[s])
  {
    if r.Append? {
      if AppendEvent(t, r.submission, now).Ok? {
        AppendOnwards(t, r.submission, now, s);
      }
    } else if r.Refresh? || r.Open? || r.Close? {
      AdminOnwards(t, r, now, s);
    } else {
      SessionsKept(t, r, now);
    }
  }

  lemma {:induction false} RunOnwards(t: Tables, requests: seq<Timed>, s: string)
    requires s in t.sessions
    ensures s in ServedAll(t, requests).sessions && Onwards(t.sessions[s], ServedAll(t, requests).sessions[s])
    decreases |requests|
  {
    if requests != [] {
      ServedOnwards(t, requests[0].request, requests[0].now, s);
      RunOnwards(Served(t, requests[0].request, requests[0].now), requests[1..], s);
    }
  }

  // -------------------------------------------------------------------- leases

  predicate Live(l: Lease, at: int) {
    l.revokedAt.None? && l.expiresAt > at
  }

  /**
   Whatever the clock does, two leases on one scope are live at one instant only if the later
   one was issued after that instant. So with a clock that does not run back there is at most
   one, at every instant of every run.
   */
  lemma OneHolderPerScope(requests: seq<Timed>, k: string, l: string, at: int)
    requires var t := Reached(requests);
             && k in t.leases && l in t.leases && Live(t.leases[k], at) && Live(t.leases[l], at)
             && t.leases[k].session == t.leases[l].session && t.leases[k].scope == t.leases[l].scope
    ensures var t := Reached(requests);
            k == l || at < t.leases[k].createdAt || at < t.leases[l].createdAt
  {
    ReachedSound(requests);
    var t := Reached(requests);
    if k != l {
      assert TakeTurns(t.leases[k], t.leases[l]);
    }
  }

  predicate ClockMonotone(requests: seq<Timed>) {
    forall i, j | 0 <= i < j < |requests| :: requests[i].now <= requests[j].now
  }

  lemma {:induction false} LeasesDated(t: Tables, requests: seq<Timed>, end: int)
    requires forall k | k in t.leases :: t.leases[k].createdAt <= end
    requires forall i | 0 <= i < |requests| :: requests[i].now <= end
    ensures forall k | k in ServedAll(t, requests).leases :: ServedAll(t, requests).leases[k].createdAt <= end
    decreases |requests|
  {
    if requests != [] {
      LeaseDates(t, requests[0].request, requests[0].now, end);
      LeasesDated(Served(t, requests[0].request, requests[0].now), requests[1..], end);
    }
  }

  lemma LeaseDates(t: Tables, r: Request, now: int, end: int)
    requires (forall k | k in t.leases :: t.leases[k].createdAt <= end) && now <= end
    ensures forall k | k in Served(t, r, now).leases :: Served(t, r, now).leases[k].createdAt <= end
  {
    if r.Append? {
      if AppendEvent(t, r.submission, now).Ok? {
        AppendedLeases(t, r.submission, now);
      }
    } else if !r.Grant? && !r.Revoke? {
      LeasesKept(t, r, now);
    }
  }

  lemma AppendedLeases(t: Tables, q: Submission, now: int)
    requires AppendEvent(t, q, now).Ok?
    ensures var u := AppendEvent(t, q, now).value.tables;
            u.leases == t.leases || u.leases == RevokeAll(t.leases, q.session, now)
  {
  }

  /** With a monotone clock, at the time of the last request and from then on. */
  lemma OneHolderNow(requests: seq<Timed>, k: string, l: string, at: int)
    requires requests != [] && ClockMonotone(requests) && at >= requests[|requests| - 1].now
    requires var t := Reached(requests);
             && k in t.leases && l in t.leases && Live(t.leases[k], at) && Live(t.leases[l], at)
             && t.leases[k].session == t.leases[l].session && t.leases[k].scope == t.leases[l].scope
    ensures k == l
  {
    LeasesDated(EMPTY, requests, at);
    OneHolderPerScope(requests, k, l, at);
  }

  /** After a session's terminal event none of its leases is live, then or ever again. */
  lemma NoLeaseAfterTheEnd(requests: seq<Timed>, later: seq<Timed>, s: string, k: string, at: int)
    requires s in Reached(requests).sessions && Reached(requests).sessions[s].terminal
    requires var t := ServedAll(Reached(requests), later); k in t.leases && t.leases[k].session == s
    ensures !Live(ServedAll(Reached(requests), later).leases[k], at)
  {
    ReachedSound(requests);
    RunSound(Reached(requests), later);
    RunOnwards(Reached(requests), later, s);
  }

  // ------------------------------------------------------------------- actions

  /** Everything a state can still lead to. */
  function Ahead(s: ActionState): set<ActionState> {
    match s
    case Reserved => {Reserved, DispatchStarted, InProgress, OutcomeUnknown, Applied, Rejected}
    case DispatchStarted => {DispatchStarted, InProgress, OutcomeUnknown, Applied, Rejected}
    case InProgress => {InProgress, OutcomeUnknown, Applied, Rejected}
    case OutcomeUnknown => {OutcomeUnknown, Applied, Rejected}
    case Applied => {Applied}
    case Rejected => {Rejected}
  }

  lemma AppendedActions(t: Tables, q: Submission, now: int, a: string)
    requires AppendEvent(t, q, now).Ok? && a in t.actions
    ensures var u := AppendEvent(t, q, now).value.tables;
            && a in u.actions && u.actions[a].identity == t.actions[a].identity
            && (u.actions[a].state == t.actions[a].state || u.actions[a].state in Next(t.actions[a].state))
  {
    if !AppendEvent(t, q, now).value.replayed {
      assert CheckAction(t, q).None?;
    }
  }

  lemma ActionRequestClimbs(t: Tables, r: Request, now: int, a: string)
    requires a in t.actions && (r.Reserve? || r.Dispatch? || r.Complete?)
    ensures var u := Served(t, r, now);
            && a in u.actions && u.actions[a].identity == t.actions[a].identity
            && (u.actions[a].state == t.actions[a].state || u.actions[a].state in Next(t.actions[a].state))
  {
  }

  lemma ServedClimbs(t: Tables, r: Request, now: int, a: string)
    requires a in t.actions
    ensures var u := Served(t, r, now);
            && a in u.actions && u.actions[a].identity == t.actions[a].identity
            && (u.actions[a].state == t.actions[a].state || u.actions[a].state in Next(t.actions[a].state))
  {
    if r.Append? {
      if AppendEvent(t, r.submission, now).Ok? {
        AppendedActions(t, r.submission, now, a);
      }
    } else if r.Reserve? || r.Dispatch? || r.Complete? {
      ActionRequestClimbs(t, r, now, a);
    } else {
      ActionsKept(t, r, now);
    }
  }

  /** Over any run an action keeps its identity and only climbs the state graph. */
  lemma {:induction false} ActionsClimb(t: Tables, requests: seq<Timed>, a: string)
    requires a in t.actions
    ensures var u := ServedAll(t, requests);
            && a in u.actions && u.actions[a].identity == t.actions[a].identity
            && u.actions[a].state in Ahead(t.actions[a].state)
    decreases |requests|
  {
    if requests != [] {
      ServedClimbs(t, requests[0].request, requests[0].now, a);
      ActionsClimb(Served(t, requests[0].request, requests[0].now), requests[1..], a);
    }
  }

  /** Dispatched before any outcome but a rejection, completed exactly when applied or rejected. */
  lemma ActionsAreInOrder(requests: seq<Timed>, a: string)
    requires a in Reached(requests).actions
    ensures var x := Reached(requests).actions[a];
            && (x.state in {Applied, InProgress, OutcomeUnknown} ==> x.dispatchedAt.Some?)
            && (x.completedAt.Some? <==> x.state in {Applied, Rejected})
  {
    ReachedSound(requests);
  }

  // ------------------------------------------------------------- confirmations

  /** Consumed confirmations and the actions they authorized correspond one to one. */
  lemma ConfirmationsAreOneToOne(requests: seq<Timed>, k: string, l: string)
    requires var t := Reached(requests);
             && k in t.confirmations && t.confirmations[k].consumedBy.Some?
             && l in t.confirmations && t.confirmations[l].consumedBy.Some?
    ensures var t := Reached(requests);
            && t.confirmations[k].consumedBy.value in t.actions
            && t.actions[t.confirmations[k].consumedBy.value].identity == t.confirmations[k].identity
            && (k == l <==> t.confirmations[k].consumedBy == t.confirmations[l].consumedBy)
  {
    ReachedSound(requests);
    var t := Reached(requests);
    assert ConsumptionOk(t, t.confirmations[k]);
    if t.confirmations[k].consumedBy == t.confirmations[l].consumedBy {
      assert SameAction(t, k, l);
    }
  }

  /** Consumption is set once, for a reserved action, while unexpired and unrevoked. */
  predicate KeepsConsumption(t: Tables, u: Tables, now: int, k: string)
    requires k in t.confirmations
  {
    && k in u.confirmations && u.confirmations[k].identity == t.confirmations[k].identity
    && (t.confirmations[k].consumedBy.Some? ==> u.confirmations[k].consumedBy == t.confirmations[k].consumedBy)
    && (t.confirmations[k].consumedBy.None? && u.confirmations[k].consumedBy.Some? ==>
          && u.confirmations[k].consumedBy.value in t.actions
          && t.actions[u.confirmations[k].consumedBy.value].state == Reserved
          && now < t.confirmations[k].expiresAt && t.confirmations[k].revokedAt.None?)
  }

  lemma AppendedConfirmations(t: Tables, q: Submission, now: int)
    requires AppendEvent(t, q, now).Ok?
    ensures var u := AppendEvent(t, q, now).value.tables;
            u.confirmations == t.confirmations
            || u.confirmations == RevokeUnconsumed(t.confirmations, q.session, now)
  {
  }

  lemma ConfirmationRequestKeeps(t: Tables, r: Request, now: int, k: string)
    requires k in t.confirmations && (r.Confirm? || r.Consume?)
    ensures KeepsConsumption(t, Served(t, r, now), now, k)
  {
  }

  lemma ServedKeepsConsumption(t: Tables, r: Request, now: int, k: string)
    requires k in t.confirmations
    ensures KeepsConsumption(t, Served(t, r, now), now, k)
  {
    if r.Append? {
      if AppendEvent(t, r.submission, now).Ok? {
        AppendedConfirmations(t, r.submission, now);
      }
    } else if r.Confirm? || r.Consume? {
      ConfirmationRequestKeeps(t, r, now, k);
    } else {
      ConfirmationsKept(t, r, now);
    }
  }

  /** A confirmation is used once: who consumed it never changes. */
  lemma {:induction false} ConsumedOnce(t: Tables, requests: seq<Timed>, k: string)
    requires k in t.confirmations && t.confirmations[k].consumedBy.Some?
    ensures var u := ServedAll(t, requests);
            k in u.confirmations && u.confirmations[k].consumedBy == t.confirmations[k].consumedBy
    decreases |requests|
  {
    if requests != [] {
      ServedKeepsConsumption(t, requests[0].request, requests[0].now, k);
      ConsumedOnce(Served(t, requests[0].request, requests[0].now), requests[1..], k);
    }
  }
}
