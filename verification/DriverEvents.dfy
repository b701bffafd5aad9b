/**
 The log of provider events behind one managed session: appended in order, deduplicated by
 (binding, generation, cursor), numbered without gaps, and folded into the session's state.
 */
module DriverEvents {
  import opened Prelude

  /** A normalized event: status and subtype in lower case, an empty reason as none. */
  datatype Event = Event(
    cursor: string,
    observedAt: real,
    kind: string,
    status: string,
    subtype: string,
    reason: Option<string>)

  datatype Row = Row(number: nat, binding: string, generation: nat, event: Event)

  datatype Session = Session(
    binding: string,
    generation: nat,
    lifecycle: string,
    turnState: string,
    blockedReason: Option<string>,
    cursor: Option<string>,
    updatedAt: real,
    closedAt: Option<real>,
    driverAvailable: bool,
    log: seq<Row>)

  const LIVE_LIFECYCLES := {"launching", "running", "waiting", "blocked", "closing"}

  // ------------------------------------------------------------ derived state

  const FINISHED := {"complete", "completed"}
  const CLOSING := {"archived", "closed", "ended", "terminated"}
  const BLOCKING := {"approval_required", "blocked", "error", "failed", "permission_request", "protocol_error"}
  const RESTING := {"idle", "ready", "waiting"}
  const WORKING := {"command", "running", "started", "thinking", "tool_call"}

  predicate KnownSuffix(s: string) {
    s in FINISHED || s in CLOSING || s in BLOCKING || s in RESTING || s in WORKING
  }

  /** The text behind the last dot, or all of it. */
  function AfterLastDot(s: string): (r: string) {
    if '.' in s then AfterLastDot(s[1..]) else s
  }

  lemma {:induction false} AfterLastDotIsSuffix(s: string)
    ensures var r := AfterLastDot(s);
            && '.' !in r && |r| <= |s| && s[|s| - |r|..] == r
            && (|r| < |s| ==> s[|s| - |r| - 1] == '.')
  {
    if '.' in s {
      AfterLastDotIsSuffix(s[1..]);
      var r := AfterLastDot(s);
      assert s[|s| - |r|..] == s[1..][|s| - 1 - |r|..];
      if |r| == |s| - 1 {
        assert s == [s[0]] + r;
      }
    }
  }

  function Marker(e: Event): string {
    var marker := if e.status != "" then e.status else e.subtype;
    if '.' in marker && KnownSuffix(AfterLastDot(marker)) then AfterLastDot(marker) else marker
  }

  function UnderscoresToSpaces(s: string): (r: string)
    ensures |r| == |s|
    ensures forall i | 0 <= i < |s| :: r[i] == if s[i] == '_' then ' ' else s[i]
  {
    seq(|s|, i requires 0 <= i < |s| => if s[i] == '_' then ' ' else s[i])
  }

  datatype Derived = Derived(lifecycle: string, turnState: string, reason: Option<string>)

  function DeriveState(lifecycle: string, turnState: string, e: Event): Derived {
    var marker := Marker(e);
    if marker in FINISHED then Derived("waiting", "idle", None)
    else if marker in CLOSING then Derived("closed", "closed", e.reason)
    else if marker in BLOCKING then
      Derived("blocked", "blocked", if e.reason.Some? then e.reason else Some(UnderscoresToSpaces(marker)))
    else if marker in RESTING then Derived("waiting", "waiting", None)
    else if marker in WORKING
            || e.kind in {"partial_text", "block_thinking", "tool_call"} then Derived("running", "running", None)
    else Derived(if lifecycle !in LIVE_LIFECYCLES && lifecycle != "closed" then "running" else lifecycle,
                 if turnState == "" then "running" else turnState, None)
  }

  // ------------------------------------------------------------------ the fold

  predicate Seen(s: Session, cursor: string) {
    exists i :: 0 <= i < |s.log| && s.log[i].binding == s.binding
                && s.log[i].generation == s.generation && s.log[i].event.cursor == cursor
  }

  /** The highest number in the log, or zero. */
  function MaxNumber(log: seq<Row>): nat {
    if log == [] then 0
    else var rest := MaxNumber(log[..|log| - 1]);
      if log[|log| - 1].number > rest then log[|log| - 1].number else rest
  }

  /** What inserting one new event does to everything but closing time and availability. */
  function Take(s: Session, e: Event): Session {
    var d := DeriveState(s.lifecycle, s.turnState, e);
    s.(log := s.log + [Row(MaxNumber(s.log) + 1, s.binding, s.generation, e)],
       lifecycle := d.lifecycle,
       turnState := d.turnState,
       blockedReason := if d.reason.Some? then d.reason
                        else if d.lifecycle !in {"blocked", "closed"} then None else s.blockedReason,
       cursor := Some(e.cursor),
       updatedAt := if e.observedAt > s.updatedAt then e.observedAt else s.updatedAt)
  }

  function TakeAll(s: Session, events: seq<Event>): Session
    decreases |events|
  {
    if events == [] then s
    else TakeAll(if Seen(s, events[0].cursor) then s else Take(s, events[0]), events[1..])
  }

  /** What one append leaves behind. */
  function Append(s: Session, binding: string, generation: nat, events: seq<Event>, resume: Option<string>): Session {
    if binding != s.binding || generation != s.generation then s
    else
      var t := TakeAll(s, events);
      if |t.log| == |s.log| && resume.None? then s
      else
        t.(cursor := if resume.Some? then resume else t.cursor,
           closedAt := if t.lifecycle == "closed" then Some(t.updatedAt) else s.closedAt,
           driverAvailable := t.lifecycle != "closed" && s.driverAvailable)
  }

  function Inserted(s: Session, binding: string, generation: nat, events: seq<Event>): nat {
    if binding != s.binding || generation != s.generation then 0
    else if |TakeAll(s, events).log| >= |s.log| then |TakeAll(s, events).log| - |s.log| else 0
  }

  // ---------------------------------------------------------------- the store

  class SessionRow {
    var binding: string
    var generation: nat
    var lifecycle: string
    var turnState: string
    var blockedReason: Option<string>
    var cursor: Option<string>
    var updatedAt: real
    var closedAt: Option<real>
    var driverAvailable: bool
    var log: seq<Row>

    constructor (binding: string, generation: nat, now: real)
      ensures Contents() == NewRow(binding, generation, now)
    {
      this.binding, this.generation, updatedAt := binding, generation, now;
      lifecycle, turnState, blockedReason, cursor := "launching", "", None, None;
      closedAt, driverAvailable, log := None, true, [];
    }

    ghost function Contents(): Session
      reads this
    {
      Session(binding, generation, lifecycle, turnState, blockedReason, cursor, updatedAt, closedAt,
              driverAvailable, log)
    }

    method HighestNumber() returns (n: nat)
      ensures n == MaxNumber(log)
    {
      n := 0;
      for i := 0 to |log|
        invariant n == MaxNumber(log[..i])
      {
        assert log[..i + 1][..i] == log[..i];
        if log[i].number > n {
          n := log[i].number;
        }
      }
      assert log[..|log|] == log;
    }

    /** The loop of an append: takes what the unique index has not seen yet. */
    method Absorb(events: seq<Event>) returns (t: Session)
      ensures t == TakeAll(Contents(), events)
    {
      var number := HighestNumber();
      var life, turn, blocked, last, time, rows := lifecycle, turnState, blockedReason, cursor, updatedAt, log;
      for i := 0 to |events|
        invariant TakeAll(WithProgress(life, turn, blocked, last, time, rows), events[i..]) == TakeAll(Contents(), events)
        invariant number == MaxNumber(rows)
      {
        var e := events[i];
        ghost var before := WithProgress(life, turn, blocked, last, time, rows);
        assert events[i..][0] == e && events[i..][1..] == events[i + 1..];
        var known := exists k :: 0 <= k < |rows| && rows[k].binding == binding && rows[k].generation == generation
                                 && rows[k].event.cursor == e.cursor;
        if !known {
          assert (rows + [Row(number + 1, binding, generation, e)])[..|rows|] == rows;
          rows := rows + [Row(number + 1, binding, generation, e)];
          number := number + 1;
          last := Some(e.cursor);
          time := if e.observedAt > time then e.observedAt else time;
          var d := DeriveState(life, turn, e);
          life, turn := d.lifecycle, d.turnState;
          if d.reason.Some? {
            blocked := d.reason;
          } else if life !in {"blocked", "closed"} {
            blocked := None;
          }
          assert WithProgress(life, turn, blocked, last, time, rows) == Take(before, e);
        }
      }
      t := WithProgress(life, turn, blocked, last, time, rows);
    }

    function WithProgress(life: string, turn: string, blocked: Option<string>, last: Option<string>, time: real,
                          rows: seq<Row>): Session
      reads this
    {
      Session(binding, generation, life, turn, blocked, last, time, closedAt, driverAvailable, rows)
    }

    method AppendDriverEvents(fromBinding: string, fromGeneration: nat, events: seq<Event>, resume: Option<string>)
        returns (inserted: nat)
      modifies this
      ensures Contents() == Append(old(Contents()), fromBinding, fromGeneration, events, resume)
      ensures inserted == Inserted(old(Contents()), fromBinding, fromGeneration, events)
    {
      if (events == [] && resume.None?) || binding != fromBinding || generation != fromGeneration {
        return 0;
      }
      var t := Absorb(events);
      TakeAllExtends(Contents(), events);
      inserted := |t.log| - |log|;
      if inserted > 0 || resume.Some? {
        Save(t, resume);
      }
    }

    /** Writes the row: a closed session gets its closing time and loses its driver. */
    method Save(t: Session, resume: Option<string>)
      requires t.binding == binding && t.generation == generation
      modifies this
      ensures Contents() == t.(cursor := if resume.Some? then resume else t.cursor,
                               closedAt := if t.lifecycle == "closed" then Some(t.updatedAt) else old(closedAt),
                               driverAvailable := t.lifecycle != "closed" && old(driverAvailable))
    {
      closedAt := if t.lifecycle == "closed" then Some(t.updatedAt) else closedAt;
      driverAvailable := if t.lifecycle == "closed" then false else driverAvailable;
      cursor := if resume.Some? then resume else t.cursor;
      lifecycle, turnState, blockedReason, updatedAt, log :=
        t.lifecycle, t.turnState, t.blockedReason, t.updatedAt, t.log;
    }
  }

  // --------------------------------------------------------------- the claims

  /** Numbered 1, 2, 3, ... and no (binding, generation, cursor) twice. */
  ghost predicate Gapless(log: seq<Row>) {
    && (forall i | 0 <= i < |log| :: log[i].number == i + 1)
    && (forall i, j | 0 <= i < j < |log| :: !SameEvent(log[i], log[j]))
  }

  predicate SameEvent(a: Row, b: Row) {
    a.binding == b.binding && a.generation == b.generation && a.event.cursor == b.event.cursor
  }

  lemma {:induction false} MaxIsLast(log: seq<Row>)
    requires forall i | 0 <= i < |log| :: log[i].number == i + 1
    ensures MaxNumber(log) == |log|
    decreases |log|
  {
    if log != [] {
      MaxIsLast(log[..|log| - 1]);
    }
  }

  lemma {:induction false} TakeAllGapless(s: Session, events: seq<Event>)
    requires Gapless(s.log)
    ensures var t := TakeAll(s, events);
            Gapless(t.log) && s.log <= t.log && t.binding == s.binding && t.generation == s.generation
            && t.closedAt == s.closedAt && t.driverAvailable == s.driverAvailable
    decreases |events|
  {
    if events != [] {
      MaxIsLast(s.log);
      TakeAllGapless(if Seen(s, events[0].cursor) then s else Take(s, events[0]), events[1..]);
    }
  }

  /** Every append keeps the log gapless and duplicate-free and only extends it. */
  lemma AppendKeepsGapless(s: Session, binding: string, generation: nat, events: seq<Event>, resume: Option<string>)
    requires Gapless(s.log)
    ensures var t := Append(s, binding, generation, events, resume);
            Gapless(t.log) && s.log <= t.log
            && |t.log| == |s.log| + Inserted(s, binding, generation, events)
  {
    TakeAllGapless(s, events);
  }

  lemma {:induction false} TakeAllSplits(s: Session, a: seq<Event>, b: seq<Event>)
    ensures TakeAll(s, a + b) == TakeAll(TakeAll(s, a), b)
    decreases |a|
  {
    if a == [] {
      assert a + b == b;
    } else {
      assert (a + b)[1..] == a[1..] + b;
      TakeAllSplits(if Seen(s, a[0].cursor) then s else Take(s, a[0]), a[1..], b);
    }
  }

  lemma {:induction false} TakeAllExtends(s: Session, events: seq<Event>)
    ensures var t := TakeAll(s, events);
            && s.log <= t.log && (|t.log| == |s.log| ==> t == s)
            && t.binding == s.binding && t.generation == s.generation
            && t.closedAt == s.closedAt && t.driverAvailable == s.driverAvailable
    decreases |events|
  {
    if events != [] {
      TakeAllExtends(if Seen(s, events[0].cursor) then s else Take(s, events[0]), events[1..]);
    }
  }

  /** The fields that do not depend on how events were cut into appends. */
  predicate SameProgress(s: Session, t: Session) {
    && s.log == t.log && s.lifecycle == t.lifecycle && s.turnState == t.turnState
    && s.blockedReason == t.blockedReason && s.cursor == t.cursor && s.updatedAt == t.updatedAt
  }

  /** The fold reads only the progress fields, so it carries them along. */
  lemma {:induction false} TakeAllReads(s: Session, closed: Option<real>, available: bool, events: seq<Event>)
    ensures TakeAll(s.(closedAt := closed, driverAvailable := available), events)
              == TakeAll(s, events).(closedAt := closed, driverAvailable := available)
    decreases |events|
  {
    if events != [] {
      var e := events[0];
      var t := s.(closedAt := closed, driverAvailable := available);
      assert Seen(t, e.cursor) == Seen(s, e.cursor);
      assert Take(t, e) == Take(s, e).(closedAt := closed, driverAvailable := available);
      TakeAllReads(if Seen(s, e.cursor) then s else Take(s, e), closed, available, events[1..]);
    }
  }

  /** Two appends in a row, without a resume cursor. */
  function AppendTwice(s: Session, a: seq<Event>, b: seq<Event>): Session {
    Append(Append(s, s.binding, s.generation, a, None), s.binding, s.generation, b, None)
  }

  lemma AppendIsTakeAll(s: Session, events: seq<Event>)
    ensures SameProgress(Append(s, s.binding, s.generation, events, None), TakeAll(s, events))
    ensures var t := Append(s, s.binding, s.generation, events, None);
            t == TakeAll(s, events).(closedAt := t.closedAt, driverAvailable := t.driverAvailable)
  {
    TakeAllExtends(s, events);
  }

  /** Wherever a batch is cut in two, the progress comes out the same. */
  lemma SplitAgrees(s: Session, a: seq<Event>, b: seq<Event>)
    ensures SameProgress(Append(s, s.binding, s.generation, a + b, None), AppendTwice(s, a, b))
  {
    var m := Append(s, s.binding, s.generation, a, None);
    AppendIsTakeAll(s, a);
    AppendIsTakeAll(s, a + b);
    AppendIsTakeAll(m, b);
    TakeAllReads(TakeAll(s, a), m.closedAt, m.driverAvailable, b);
    TakeAllSplits(s, a, b);
    TakeAllExtends(s, a);
  }

  /** The batch closed the session halfway and reopened it by its end. */
  predicate ClosedBetween(s: Session, a: seq<Event>, b: seq<Event>) {
    && |TakeAll(s, a).log| > |s.log| && TakeAll(s, a).lifecycle == "closed"
    && TakeAll(s, a + b).lifecycle != "closed"
  }

  /**
   Closing time and availability do depend on the cut: they agree exactly unless the session
   was closed at the cut and open again at the end (and the values were not there already).
   */
  lemma SplitAgreesOnClosing(s: Session, a: seq<Event>, b: seq<Event>)
    ensures var whole := Append(s, s.binding, s.generation, a + b, None);
            && (whole.closedAt == AppendTwice(s, a, b).closedAt <==>
                  !ClosedBetween(s, a, b) || s.closedAt == Some(TakeAll(s, a).updatedAt))
            && (whole.driverAvailable == AppendTwice(s, a, b).driverAvailable <==>
                  !ClosedBetween(s, a, b) || !s.driverAvailable)
  {
    var m := Append(s, s.binding, s.generation, a, None);
    AppendIsTakeAll(s, a);
    AppendIsTakeAll(m, b);
    TakeAllReads(TakeAll(s, a), m.closedAt, m.driverAvailable, b);
    TakeAllSplits(s, a, b);
    TakeAllExtends(s, a);
    TakeAllExtends(s, a + b);
    TakeAllExtends(TakeAll(s, a), b);
  }

  function StatusEvent(cursor: string, at: real, status: string): Event {
    Event(cursor, at, "status", status, "", None)
  }

  lemma PlainMarker(e: Event)
    requires '.' !in e.status && e.status != ""
    ensures Marker(e) == e.status
  {
  }

  lemma StatusEventsDerive(lifecycle: string, turnState: string)
    ensures DeriveState(lifecycle, turnState, StatusEvent("1", 1.0, "closed")).lifecycle == "closed"
    ensures DeriveState(lifecycle, turnState, StatusEvent("2", 2.0, "ready")).lifecycle == "waiting"
  {
    var closed, ready := "closed", "ready";
    assert '.' !in closed && '.' !in ready;
    PlainMarker(StatusEvent("1", 1.0, closed));
    PlainMarker(StatusEvent("2", 2.0, ready));
    assert closed[0] != 'w' && closed[2] == 'o' && ready[0] == 'r';
    DerivesByMarker(lifecycle, turnState, StatusEvent("1", 1.0, closed));
    DerivesByMarker(lifecycle, turnState, StatusEvent("2", 2.0, ready));
  }

  /** The first rows of the table of markers. */
  lemma DerivesByMarker(lifecycle: string, turnState: string, e: Event)
    ensures Marker(e) == "closed" ==> DeriveState(lifecycle, turnState, e).lifecycle == "closed"
    ensures Marker(e) == "ready" ==> DeriveState(lifecycle, turnState, e).lifecycle == "waiting"
  {
  }

  /** Two events that close and reopen a session: cut between them, the closing time differs. */
  lemma ClosingTimeDependsOnTheCut(s: Session)
    requires s.log == [] && s.closedAt.None?
    ensures Append(s, s.binding, s.generation, [StatusEvent("1", 1.0, "closed")] + [StatusEvent("2", 2.0, "ready")], None).closedAt
              != AppendTwice(s, [StatusEvent("1", 1.0, "closed")], [StatusEvent("2", 2.0, "ready")]).closedAt
  {
    var e, g := StatusEvent("1", 1.0, "closed"), StatusEvent("2", 2.0, "ready");
    var m := Take(s, e);
    StatusEventsDerive(s.lifecycle, s.turnState);
    StatusEventsDerive(m.lifecycle, m.turnState);
    assert TakeAll(s, [e]) == m;
    assert TakeAll(m, [g]) == Take(m, g) by {
      assert m.log[0].event.cursor != "2" && |m.log| == 1;
      assert !Seen(m, "2");
    }
    TakeAllSplits(s, [e], [g]);
    SplitAgreesOnClosing(s, [e], [g]);
  }

  lemma {:induction false} AllSeenTakesNothing(s: Session, events: seq<Event>)
    requires forall i | 0 <= i < |events| :: Seen(s, events[i].cursor)
    ensures TakeAll(s, events) == s
    decreases |events|
  {
    if events != [] {
      AllSeenTakesNothing(s, events[1..]);
    }
  }

  lemma {:induction false} TakenAreSeen(s: Session, events: seq<Event>, i: nat)
    requires i < |events|
    ensures Seen(TakeAll(s, events), events[i].cursor)
    decreases |events|
  {
    var t := if Seen(s, events[0].cursor) then s else Take(s, events[0]);
    if i == 0 {
      if !Seen(s, events[0].cursor) {
        assert t.log[|s.log|].event == events[0];
      }
      assert Seen(t, events[0].cursor);
      TakeAllExtends(t, events[1..]);
      var k :| 0 <= k < |t.log| && t.log[k].binding == t.binding && t.log[k].generation == t.generation
               && t.log[k].event.cursor == events[0].cursor;
      assert TakeAll(t, events[1..]).log[k] == t.log[k];
    } else {
      TakenAreSeen(t, events[1..], i - 1);
    }
  }

  /** Sending any of the same events again inserts nothing and changes nothing. */
  lemma ReplayInsertsNothing(s: Session, events: seq<Event>, again: seq<Event>)
    requires forall i | 0 <= i < |again| :: exists j :: 0 <= j < |events| && events[j].cursor == again[i].cursor
    ensures var t := Append(s, s.binding, s.generation, events, None);
            && Inserted(t, t.binding, t.generation, again) == 0
            && Append(t, t.binding, t.generation, again, None) == t
  {
    var t := Append(s, s.binding, s.generation, events, None);
    AppendIsTakeAll(s, events);
    forall i | 0 <= i < |again| ensures Seen(t, again[i].cursor) {
      var j :| 0 <= j < |events| && events[j].cursor == again[i].cursor;
      TakenAreSeen(s, events, j);
    }
    AllSeenTakesNothing(t, again);
  }

  /** A closing time, once set, is never cleared, although the session may run again. */
  lemma ClosedAtStays(s: Session, binding: string, generation: nat, events: seq<Event>, resume: Option<string>)
    requires s.closedAt.Some?
    ensures Append(s, binding, generation, events, resume).closedAt.Some?
    ensures s.updatedAt <= Append(s, binding, generation, events, resume).updatedAt
  {
    TakeAllExtends(s, events);
    TakeAllOnwards(s, events);
  }

  lemma {:induction false} TakeAllOnwards(s: Session, events: seq<Event>)
    ensures s.updatedAt <= TakeAll(s, events).updatedAt
    decreases |events|
  {
    if events != [] {
      TakeAllOnwards(if Seen(s, events[0].cursor) then s else Take(s, events[0]), events[1..]);
    }
  }

  // ------------------------------------------------------- what a row can say

  /** A blocked session says why, one at work gives no reason. */
  predicate ReasonFits(s: Session) {
    && (s.lifecycle == "blocked" ==> s.blockedReason.Some?)
    && (s.lifecycle !in {"blocked", "closed"} ==> s.blockedReason.None?)
  }

  /** A closed session has its closing time and no driver. */
  predicate ClosedFits(s: Session) {
    s.lifecycle == "closed" ==> s.closedAt.Some? && !s.driverAvailable
  }

  lemma TakeFits(s: Session, e: Event)
    requires ReasonFits(s)
    ensures ReasonFits(Take(s, e))
  {
  }

  lemma {:induction false} TakeAllFits(s: Session, events: seq<Event>)
    requires ReasonFits(s)
    ensures ReasonFits(TakeAll(s, events))
    decreases |events|
  {
    if events != [] {
      TakeFits(s, events[0]);
      TakeAllFits(if Seen(s, events[0].cursor) then s else Take(s, events[0]), events[1..]);
    }
  }

  lemma AppendFits(s: Session, binding: string, generation: nat, events: seq<Event>, resume: Option<string>)
    requires ReasonFits(s) && ClosedFits(s)
    ensures var t := Append(s, binding, generation, events, resume); ReasonFits(t) && ClosedFits(t)
  {
    TakeAllFits(s, events);
  }

  function NewRow(binding: string, generation: nat, now: real): Session {
    Session(binding, generation, "launching", "", None, None, now, None, true, [])
  }

  /** One call of a driver, under whatever binding and generation it believes in. */
  datatype Batch = Batch(binding: string, generation: nat, events: seq<Event>, resume: Option<string>)

  function AppendAll(s: Session, batches: seq<Batch>): Session
    decreases |batches|
  {
    if batches == [] then s
    else
      var b := batches[0];
      AppendAll(Append(s, b.binding, b.generation, b.events, b.resume), batches[1..])
  }

  lemma {:induction false} BatchesFit(s: Session, batches: seq<Batch>)
    requires ReasonFits(s) && ClosedFits(s) && Gapless(s.log)
    ensures var t := AppendAll(s, batches); ReasonFits(t) && ClosedFits(t) && Gapless(t.log)
    ensures s.log <= AppendAll(s, batches).log
    decreases |batches|
  {
    if batches != [] {
      var b := batches[0];
      AppendFits(s, b.binding, b.generation, b.events, b.resume);
      AppendKeepsGapless(s, b.binding, b.generation, b.events, b.resume);
      BatchesFit(Append(s, b.binding, b.generation, b.events, b.resume), batches[1..]);
    }
  }

  /** Whatever drivers send after the session is created, its row never contradicts itself. */
  lemma RowsAlwaysFit(binding: string, generation: nat, now: real, batches: seq<Batch>)
    ensures var t := AppendAll(NewRow(binding, generation, now), batches);
            ReasonFits(t) && ClosedFits(t) && Gapless(t.log)
  {
    BatchesFit(NewRow(binding, generation, now), batches);
  }
}
