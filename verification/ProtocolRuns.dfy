/** Runs of the control tables from empty, and exactly when they go that way. */
module ProtocolRuns {
  import opened Prelude
  import opened ProtocolModel
  import opened ProtocolTheorems

  // ------------------------------------------------------------------ results

  /** The request is accepted and brings a result for `a` other than the recorded one. */
  predicate BringsAnother(t: Tables, r: Timed, a: string) {
    && a in t.actions
    && match r.request
       case Complete(id, target, digest) =>
         id == a && CompleteAction(t, id, target, digest, r.now).Ok? && t.actions[a].result != Some(digest)
       case Append(q) =>
         && q.event.action == Some(a) && q.completion.Some? && t.actions[a].result != Some(q.completion.value.1)
         && AppendEvent(t, q, r.now).Ok? && !AppendEvent(t, q, r.now).value.replayed
       case _ => false
  }

  predicate NoneBringsAnother(t: Tables, requests: seq<Timed>, a: string)
    decreases |requests|
  {
    requests == []
    || (&& !BringsAnother(t, requests[0], a)
        && NoneBringsAnother(Served(t, requests[0].request, requests[0].now), requests[1..], a))
  }

  /** The action has this result before the run and after each of its requests. */
  predicate ResultStands(t: Tables, requests: seq<Timed>, a: string, result: Option<string>)
    decreases |requests|
  {
    && a in t.actions && t.actions[a].result == result
    && (requests == [] || ResultStands(Served(t, requests[0].request, requests[0].now), requests[1..], a, result))
  }

  lemma AppendedResult(t: Tables, q: Submission, now: int, a: string)
    requires a in t.actions && AppendEvent(t, q, now).Ok?
    ensures var u := AppendEvent(t, q, now).value.tables;
            a in u.actions
            && (u.actions[a].result != t.actions[a].result <==> BringsAnother(t, Timed(Append(q), now), a))
  {
  }

  lemma ReserveKeepsResult(t: Tables, r: Timed, a: string)
    requires a in t.actions && (r.request.Reserve? || r.request.Dispatch?)
    ensures var u := Served(t, r.request, r.now); a in u.actions && u.actions[a].result == t.actions[a].result
  {
  }

  lemma CompleteBrings(t: Tables, r: Timed, a: string)
    requires a in t.actions && r.request.Complete?
    ensures var u := Served(t, r.request, r.now);
            a in u.actions && (u.actions[a].result != t.actions[a].result <==> BringsAnother(t, r, a))
  {
  }

  lemma ServedResult(t: Tables, r: Timed, a: string)
    requires a in t.actions
    ensures var u := Served(t, r.request, r.now);
            a in u.actions && (u.actions[a].result != t.actions[a].result <==> BringsAnother(t, r, a))
  {
    if r.request.Append? {
      if AppendEvent(t, r.request.submission, r.now).Ok? {
        AppendedResult(t, r.request.submission, r.now, a);
      }
    } else if r.request.Complete? {
      CompleteBrings(t, r, a);
    } else if r.request.Reserve? || r.request.Dispatch? {
      ReserveKeepsResult(t, r, a);
    } else {
      ActionsKept(t, r.request, r.now);
    }
  }

  /**
   Only the state of a finished action is final. Its result stands throughout a run exactly
   if no accepted completion, alone or with an event, brings another digest for it.
   */
  lemma {:induction false} ResultsStand(t: Tables, requests: seq<Timed>, a: string)
    requires a in t.actions
    ensures ResultStands(t, requests, a, t.actions[a].result) <==> NoneBringsAnother(t, requests, a)
    ensures Finished(t.actions[a].state) ==>
              a in ServedAll(t, requests).actions && ServedAll(t, requests).actions[a].state == t.actions[a].state
    decreases |requests|
  {
    ActionsClimb(t, requests, a);
    if requests != [] {
      ServedResult(t, requests[0], a);
      ResultsStand(Served(t, requests[0].request, requests[0].now), requests[1..], a);
    }
  }

  // ------------------------------------------------------------ confirmations

  /**
   A new confirmation is issued exactly if its times, negotiation and snapshot allow it,
   whatever its session's row says, as long as there is one; a lease of an ended session never is.
   */
  lemma ConfirmingIgnoresSessions(t: Tables, sessions: map<string, Session>, id: string, i: Identity, digest: string,
                                  issuedAt: int, expiresAt: int, now: int)
    requires id !in t.confirmations
    ensures IssueConfirmation(t.(sessions := sessions), id, i, digest, issuedAt, expiresAt, now).Ok? <==>
              && i.generation >= 1 && issuedAt <= now < expiresAt && i.session in sessions
              && NegotiationError(t, i.context, i.principal, now).None?
              && SnapshotCovers(t, i)
              && expiresAt <= t.snapshots[i.snapshot].expiresAt && expiresAt <= t.negotiations[i.context].expiresAt
    ensures forall k, lease: Lease | lease.session in t.sessions && t.sessions[lease.session].terminal ::
              IssueLease(t, k, lease, now).Err?
  {
  }

  // --------------------------------------------------------------------- runs

  const ALIVE := Negotiation("p", 100, false)
  const WHO := Identity("s", "c", "p", "v", 1, "b", "operation", "implementation", "semantic", "arguments")
  const VIEW := Snapshot("s", "c", "p", 1, "b", 100)
  const OPENING: seq<Timed> :=
    [] + [Timed(Open("s", 1), 0)] + [Timed(Negotiate("c", ALIVE), 0)] + [Timed(Capture("v", VIEW), 0)]

  /** A session that is open, an authority that is alive, and nothing else yet. */
  ghost predicate Opened(t: Tables) {
    && t.sessions == map["s" := NewSession(1)] && t.negotiations == map["c" := ALIVE] && t.snapshots == map["v" := VIEW]
    && t.actions == map[] && t.leases == map[] && t.confirmations == map[]
  }

  lemma OpeningOpens()
    ensures Opened(Reached(OPENING))
  {
    ServedMore(EMPTY, [], Open("s", 1), 0);
    ServedMore(EMPTY, [] + [Timed(Open("s", 1), 0)], Negotiate("c", ALIVE), 0);
    ServedMore(EMPTY, [] + [Timed(Open("s", 1), 0)] + [Timed(Negotiate("c", ALIVE), 0)], Capture("v", VIEW), 0);
  }

  /** A run whose next request is accepted. */
  lemma GoesOn(run: seq<Timed>, r: Request, now: int, u: Tables)
    requires Handle(Reached(run), r, now) == Ok(Done(u, false))
    ensures Reached(run + [Timed(r, now)]) == u
  {
    ServedMore(EMPTY, run, r, now);
  }

  lemma ReservedAndDispatched(t: Tables)
    requires Opened(t)
    ensures var u := t.(actions := map["a" := Action(WHO, true, "request", Reserved, None, None, None, 1, None, None)]);
            && ReserveAction(t, "a", WHO, true, "request", 1) == Ok(Done(u, false))
            && MarkDispatched(u, "a", None, None, 2)
                 == Ok(Done(u.(actions := u.actions["a" := Action(WHO, true, "request", DispatchStarted, None, None, None, 1,
                                                                  Some(2), None)]), false))
  {
  }

  lemma CompletedTwice(t: Tables)
    requires "a" in t.actions && t.actions["a"].state == DispatchStarted
    ensures var r := CompleteAction(t, "a", Applied, "one", 3);
            && r.Ok? && !r.value.replayed && "a" in r.value.tables.actions
            && r.value.tables.actions["a"].state == Applied && r.value.tables.actions["a"].result == Some("one")
            && var again := CompleteAction(r.value.tables, "a", Applied, "two", 4);
               again.Ok? && !again.value.replayed && "a" in again.value.tables.actions
               && again.value.tables.actions["a"].state == Applied
               && again.value.tables.actions["a"].result == Some("two")
  {
    assert "one"[0] != "two"[0];
  }

  /** From empty: an applied action answers one result, and after one more completion another. */
  lemma ResultIsReplaced()
    ensures var run := OPENING + [Timed(Reserve("a", WHO, true, "request"), 1)] + [Timed(Dispatch("a", None, None), 2)]
                       + [Timed(Complete("a", Applied, "one"), 3)];
            var before, after := Reached(run), Reached(run + [Timed(Complete("a", Applied, "two"), 4)]);
            && "a" in before.actions && before.actions["a"].state == Applied && before.actions["a"].result == Some("one")
            && "a" in after.actions && after.actions["a"].state == Applied && after.actions["a"].result == Some("two")
  {
    OpeningOpens();
    var run, t := OPENING, Reached(OPENING);
    ReservedAndDispatched(t);
    var u := ReserveAction(t, "a", WHO, true, "request", 1).value.tables;
    GoesOn(run, Reserve("a", WHO, true, "request"), 1, u);
    run := run + [Timed(Reserve("a", WHO, true, "request"), 1)];
    t := MarkDispatched(u, "a", None, None, 2).value.tables;
    GoesOn(run, Dispatch("a", None, None), 2, t);
    run := run + [Timed(Dispatch("a", None, None), 2)];
    CompletedTwice(t);
    u := CompleteAction(t, "a", Applied, "one", 3).value.tables;
    GoesOn(run, Complete("a", Applied, "one"), 3, u);
    run := run + [Timed(Complete("a", Applied, "one"), 3)];
    GoesOn(run, Complete("a", Applied, "two"), 4, CompleteAction(u, "a", Applied, "two", 4).value.tables);
  }

  const END := Submission("s", Event("e", None, 1, "stream", 0, None, "digest", "session.ended", "b", None, None,
                                     "terminated", 1, true), None, None, None)

  lemma Ended(t: Tables)
    requires Opened(t)
    ensures AppendEvent(t, END, 1) == Ok(Done(Recorded(t, END, 1), false))
    ensures var u := Recorded(t, END, 1); "s" in u.sessions && u.sessions["s"].terminal && u.confirmations == map[]
  {
  }

  lemma Confirmed(t: Tables)
    requires t.negotiations == map["c" := ALIVE] && t.snapshots == map["v" := VIEW] && t.confirmations == map[]
    requires "s" in t.sessions
    ensures IssueConfirmation(t, "k", WHO, "digest", 2, 50, 2)
              == Ok(Done(t.(confirmations := map["k" := Confirmation(WHO, "digest", 2, 50, None, None, None)]), false))
  {
  }

  /** From empty: the session ends, then a confirmation about it is issued, and is alive. */
  lemma ConfirmedAfterTheEnd()
    ensures var run := OPENING + [Timed(Append(END), 1)] + [Timed(Confirm("k", WHO, "digest", 2, 50), 2)];
            var t := Reached(run);
            && "s" in t.sessions && t.sessions["s"].terminal
            && "k" in t.confirmations && t.confirmations["k"].identity.session == "s"
            && t.confirmations["k"].revokedAt.None? && t.confirmations["k"].expiresAt == 50
  {
    OpeningOpens();
    var run, t := OPENING, Reached(OPENING);
    Ended(t);
    var u := Recorded(t, END, 1);
    GoesOn(run, Append(END), 1, u);
    Confirmed(u);
    GoesOn(run + [Timed(Append(END), 1)], Confirm("k", WHO, "digest", 2, 50), 2,
           IssueConfirmation(u, "k", WHO, "digest", 2, 50, 2).value.tables);
  }

  const ACQUIRE := Submission("s", Event("e", None, 1, "stream", 0, None, "digest", "ownership.acquired", "b", None, None,
                                         "owned", 1, false), Some("owner"), Some(1), None)

  lemma Acquired(t: Tables)
    requires Opened(t)
    ensures var u := Recorded(t, ACQUIRE, 1);
            && AppendEvent(t, ACQUIRE, 1) == Ok(Done(u, false)) && Leasable(u) && u.leases == map[]
  {
  }

  /** The session has an owner of the first epoch and its caller a live negotiation. */
  predicate Leasable(t: Tables) {
    && "s" in t.sessions && t.sessions["s"].generation == 1 && t.sessions["s"].epoch == 1 && !t.sessions["s"].terminal
    && t.negotiations == map["c" := ALIVE]
  }

  function Asked(issuedAt: int, expiresAt: int): Lease {
    Lease("s", "c", "p", "input", 1, "b", 1, "digest", issuedAt, expiresAt, None, 0)
  }

  function Granted(t: Tables, id: string, issuedAt: int, expiresAt: int): Tables {
    t.(leases := t.leases[id := Asked(issuedAt, expiresAt).(createdAt := issuedAt)])
  }

  lemma GrantsAgain(t: Tables, id: string, now: int, expiresAt: int)
    requires Leasable(t) && id !in t.leases && now < expiresAt <= 100
    requires forall k | k in t.leases :: t.leases[k].expiresAt <= now
    ensures IssueLease(t, id, Asked(now, expiresAt), now) == Ok(Done(Granted(t, id, now, expiresAt), false))
  {
  }

  /** From empty: a lease runs out and is followed by another; then the clock is set back. */
  lemma BothLiveIfTheClockRunsBack()
    ensures var run := OPENING + [Timed(Append(ACQUIRE), 1)] + [Timed(Grant("k", Asked(1, 5)), 1)]
                       + [Timed(Grant("l", Asked(10, 20)), 10)] + [Timed(Negotiate("c", ALIVE), 3)];
            var t := Reached(run);
            && "k" in t.leases && "l" in t.leases && t.leases["k"].session == t.leases["l"].session
            && t.leases["k"].scope == t.leases["l"].scope
            && Live(t.leases["k"], run[|run| - 1].now) && Live(t.leases["l"], run[|run| - 1].now)
  {
    OpeningOpens();
    var run, t := OPENING, Reached(OPENING);
    Acquired(t);
    var u := Recorded(t, ACQUIRE, 1);
    GoesOn(run, Append(ACQUIRE), 1, u);
    run := run + [Timed(Append(ACQUIRE), 1)];
    GrantsAgain(u, "k", 1, 5);
    t := Granted(u, "k", 1, 5);
    GoesOn(run, Grant("k", Asked(1, 5)), 1, t);
    run := run + [Timed(Grant("k", Asked(1, 5)), 1)];
    GrantsAgain(t, "l", 10, 20);
    u := Granted(t, "l", 10, 20);
    GoesOn(run, Grant("l", Asked(10, 20)), 10, u);
    run := run + [Timed(Grant("l", Asked(10, 20)), 10)];
    GoesOn(run, Negotiate("c", ALIVE), 3, u.(negotiations := u.negotiations["c" := ALIVE]));
  }
}
