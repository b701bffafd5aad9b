/**
 Reading a session's events page by page while more are appended. A cursor is the sequence
 and digest of the last event read; a session that moves between capability generations has
 a separate reading of each.
 */
module ProtocolPages {
  import opened Prelude
  import opened ProtocolModel
  import opened ProtocolTheorems

  /** The events of one generation beyond a sequence, in log order. */
  function Select(log: seq<Event>, generation: int, after: int): seq<Event>
    decreases |log|
  {
    if log == [] then []
    else
      var last := log[|log| - 1];
      Select(log[..|log| - 1], generation, after)
        + if last.generation == generation && last.sequence > after then [last] else []
  }

  function Clamp(limit: int): (n: nat)
    ensures 1 <= n <= 1000
  {
    if limit < 1 then 1 else if limit > 1000 then 1000 else limit
  }

  function First(events: seq<Event>, limit: int): (r: seq<Event>)
    ensures r <= events
  {
    if |events| > Clamp(limit) then events[..Clamp(limit)] else events
  }

  predicate KnownCursor(log: seq<Event>, generation: int, sequence: int, digest: Option<string>) {
    exists i :: 0 <= i < |log| && log[i].generation == generation && log[i].sequence == sequence
                && Some(log[i].digest) == digest
  }

  function ProtocolEvents(x: Session, generation: int, after: int, predecessor: Option<string>, limit: int)
      : Result<seq<Event>, string> {
    if generation < 1 || after < -1 then Err("protocol event cursor is invalid")
    else if after == -1 && predecessor.Some? then Err("initial protocol event cursor has a predecessor")
    else if after != -1 && !KnownCursor(x.log, generation, after, predecessor) then
      Err("protocol event cursor predecessor is unknown")
    else Ok(First(Select(x.log, generation, after), limit))
  }

  predicate Numbered(log: seq<Event>) {
    forall i | 0 <= i < |log| :: log[i].sequence == i
  }

  lemma {:induction false} SelectMembers(log: seq<Event>, generation: int, after: int, k: nat)
    requires Numbered(log) && k < |Select(log, generation, after)|
    ensures var e := Select(log, generation, after)[k];
            e.generation == generation && after < e.sequence < |log| && 0 <= e.sequence && log[e.sequence] == e
    decreases |log|
  {
    var init := log[..|log| - 1];
    if k < |Select(init, generation, after)| {
      SelectMembers(init, generation, after, k);
    }
  }

  lemma {:induction false} SelectNothing(log: seq<Event>, generation: int, after: int)
    requires Numbered(log) && after >= |log| - 1
    ensures Select(log, generation, after) == []
    decreases |log|
  {
    if log != [] {
      SelectNothing(log[..|log| - 1], generation, after);
    }
  }

  /** Reading on from the k-th event of a reading continues it. */
  lemma {:induction false} SelectSplits(log: seq<Event>, generation: int, after: int, k: nat)
    requires Numbered(log) && 0 < k <= |Select(log, generation, after)|
    ensures var all := Select(log, generation, after);
            all == all[..k] + Select(log, generation, all[k - 1].sequence)
    decreases |log|
  {
    var all := Select(log, generation, after);
    var init, last := log[..|log| - 1], log[|log| - 1];
    var before := Select(init, generation, after);
    SelectMembers(log, generation, after, k - 1);
    if k <= |before| {
      SelectMembers(init, generation, after, k - 1);
      SelectSplits(init, generation, after, k);
      assert all[..k] == before[..k];
    } else {
      assert all[k - 1] == last;
      SelectNothing(init, generation, last.sequence);
      assert all[..k] == all;
    }
  }

  lemma {:induction false} SelectGrows(log: seq<Event>, more: seq<Event>, generation: int, after: int)
    requires log <= more
    ensures Select(log, generation, after) <= Select(more, generation, after)
    decreases |more|
  {
    if |log| < |more| {
      assert log <= more[..|more| - 1];
      SelectGrows(log, more[..|more| - 1], generation, after);
    } else {
      assert log == more;
    }
  }

  // ------------------------------------------------------- following the log

  /** Page after page, each from a later state of the session. */
  function Follow(states: seq<Session>, generation: int, after: int, predecessor: Option<string>, limit: int)
      : Result<seq<Event>, string>
    decreases |states|
  {
    if states == [] then Ok([])
    else
      match ProtocolEvents(states[0], generation, after, predecessor, limit)
      case Err(e) => Err(e)
      case Ok(page) =>
        var last := if page == [] then (after, predecessor)
                    else (page[|page| - 1].sequence, Some(page[|page| - 1].digest));
        match Follow(states[1..], generation, last.0, last.1, limit)
        case Err(e) => Err(e)
        case Ok(rest) => Ok(page + rest)
  }

  /** Successive states of one session: sound, and the log only grows. */
  ghost predicate Growing(states: seq<Session>) {
    && (forall i | 0 <= i < |states| :: Numbered(states[i].log))
    && (forall i, j | 0 <= i <= j < |states| :: states[i].log <= states[j].log)
  }

  predicate GoodCursor(log: seq<Event>, generation: int, after: int, predecessor: Option<string>) {
    if after == -1 then predecessor.None? else KnownCursor(log, generation, after, predecessor)
  }

  lemma CursorStays(log: seq<Event>, more: seq<Event>, generation: int, after: int, predecessor: Option<string>)
    requires GoodCursor(log, generation, after, predecessor) && log <= more
    ensures GoodCursor(more, generation, after, predecessor)
  {
    if after != -1 {
      var i :| 0 <= i < |log| && log[i].generation == generation && log[i].sequence == after
               && Some(log[i].digest) == predecessor;
      assert more[i] == log[i];
    }
  }

  lemma LastIsCursor(log: seq<Event>, generation: int, after: int, limit: int)
    requires Numbered(log) && Select(log, generation, after) != [] && after >= -1
    ensures var page := First(Select(log, generation, after), limit);
            && page != []
            && GoodCursor(log, generation, page[|page| - 1].sequence, Some(page[|page| - 1].digest))
            && page[|page| - 1].sequence > after
  {
    var page := First(Select(log, generation, after), limit);
    SelectMembers(log, generation, after, |page| - 1);
    assert log[page[|page| - 1].sequence] == page[|page| - 1];
  }

  /** Where the next page starts. */
  function NextCursor(page: seq<Event>, after: int, predecessor: Option<string>): (int, Option<string>) {
    if page == [] then (after, predecessor) else (page[|page| - 1].sequence, Some(page[|page| - 1].digest))
  }

  /** A good cursor yields a page, the page is a prefix of what there is, and leads to a good cursor. */
  lemma PageAndCursor(log: seq<Event>, generation: int, after: int, predecessor: Option<string>, limit: int)
    requires Numbered(log) && GoodCursor(log, generation, after, predecessor) && after >= -1
    ensures var page := First(Select(log, generation, after), limit);
            var next := NextCursor(page, after, predecessor);
            && GoodCursor(log, generation, next.0, next.1) && next.0 >= -1
            && Select(log, generation, after) == page + Select(log, generation, next.0)
  {
    var all := Select(log, generation, after);
    if all != [] {
      var page := First(all, limit);
      LastIsCursor(log, generation, after, limit);
      SelectSplits(log, generation, after, |page|);
      assert all[..|page|] == page;
    }
  }

  lemma FollowUnfolds(states: seq<Session>, generation: int, after: int, predecessor: Option<string>, limit: int)
    requires states != [] && generation >= 1 && after >= -1
    requires GoodCursor(states[0].log, generation, after, predecessor)
    ensures var page := First(Select(states[0].log, generation, after), limit);
            var next := NextCursor(page, after, predecessor);
            var rest := Follow(states[1..], generation, next.0, next.1, limit);
            Follow(states, generation, after, predecessor, limit)
              == if rest.Ok? then Ok(page + rest.value) else rest
  {
  }

  /** The pages read so far are, in order and each once, the first events of the generation. */
  lemma {:induction false} FollowReadsInOrder(states: seq<Session>, generation: int, after: int,
                                              predecessor: Option<string>, limit: int)
    requires states != [] && Growing(states) && generation >= 1 && after >= -1
    requires GoodCursor(states[0].log, generation, after, predecessor)
    ensures var r := Follow(states, generation, after, predecessor, limit);
            r.Ok? && r.value <= Select(states[|states| - 1].log, generation, after)
    decreases |states|
  {
    var log, final, later := states[0].log, states[|states| - 1].log, states[1..];
    var page := First(Select(log, generation, after), limit);
    var next := NextCursor(page, after, predecessor);
    FollowUnfolds(states, generation, after, predecessor, limit);
    PageAndCursor(log, generation, after, predecessor, limit);
    SelectGrows(log, final, generation, after);
    if later == [] {
      assert Follow(later, generation, next.0, next.1, limit) == Ok([]);
    } else {
      CursorStays(log, later[0].log, generation, next.0, next.1);
      FollowReadsInOrder(later, generation, next.0, next.1, limit);
      PageContinues(log, final, generation, after, predecessor, limit);
    }
  }

  /** What a page leaves is, on any later log, what reading on from its cursor gives. */
  lemma PageContinues(log: seq<Event>, final: seq<Event>, generation: int, after: int, predecessor: Option<string>,
                      limit: int)
    requires Numbered(final) && log <= final && after >= -1
    ensures var page := First(Select(log, generation, after), limit);
            Select(final, generation, after) == page + Select(final, generation, NextCursor(page, after, predecessor).0)
  {
    var page := First(Select(log, generation, after), limit);
    SelectGrows(log, final, generation, after);
    if page != [] {
      SelectSplits(final, generation, after, |page|);
      assert Select(final, generation, after)[..|page|] == page;
    }
  }

  /** How many events so many pages can hold. */
  function Room(times: nat, limit: int): nat {
    if times == 0 then 0 else Room(times - 1, limit) + Clamp(limit)
  }

  function Repeat(x: Session, times: nat): seq<Session> {
    if times == 0 then [] else [x] + Repeat(x, times - 1)
  }

  /** A reader that asks often enough has read everything there is. */
  lemma {:induction false} FollowCatchesUp(x: Session, times: nat, generation: int, after: int,
                                           predecessor: Option<string>, limit: int)
    requires Numbered(x.log) && generation >= 1 && after >= -1
    requires GoodCursor(x.log, generation, after, predecessor)
    requires |Select(x.log, generation, after)| <= Room(times, limit)
    ensures Follow(Repeat(x, times), generation, after, predecessor, limit) == Ok(Select(x.log, generation, after))
    decreases times
  {
    var states := Repeat(x, times);
    if times > 0 {
      var page := First(Select(x.log, generation, after), limit);
      var next := NextCursor(page, after, predecessor);
      FollowUnfolds(states, generation, after, predecessor, limit);
      PageAndCursor(x.log, generation, after, predecessor, limit);
      assert states[1..] == Repeat(x, times - 1);
      FollowCatchesUp(x, times - 1, generation, next.0, next.1, limit);
    }
  }

  // ------------------------------------------------------------ over any run

  /** The session as a reader finds it who reads once after each of some stretches of requests. */
  ghost function Views(t: Tables, s: string, stretches: seq<seq<Timed>>): (r: seq<Session>)
    requires s in t.sessions
    ensures |r| == |stretches|
    decreases |stretches|
  {
    if stretches == [] then []
    else
      var u := ServedAll(t, stretches[0]);
      RunOnwards(t, stretches[0], s);
      [u.sessions[s]] + Views(u, s, stretches[1..])
  }

  lemma GrowingBefore(x: Session, rest: seq<Session>)
    requires Numbered(x.log) && Growing(rest) && forall i | 0 <= i < |rest| :: x.log <= rest[i].log
    ensures Growing([x] + rest)
  {
    var all := [x] + rest;
    forall i, j | 0 <= i <= j < |all| ensures all[i].log <= all[j].log {
      if i > 0 {
        assert all[i] == rest[i - 1] && all[j] == rest[j - 1];
      }
    }
  }

  lemma {:induction false} ViewsGrow(t: Tables, s: string, stretches: seq<seq<Timed>>)
    requires Sound(t) && s in t.sessions
    ensures Growing(Views(t, s, stretches))
    ensures forall i | 0 <= i < |stretches| :: t.sessions[s].log <= Views(t, s, stretches)[i].log
    decreases |stretches|
  {
    if stretches != [] {
      var u := ServedAll(t, stretches[0]);
      RunOnwards(t, stretches[0], s);
      RunSound(t, stretches[0]);
      SequencesArePositions(u.sessions[s]);
      ViewsGrow(u, s, stretches[1..]);
      GrowingBefore(u.sessions[s], Views(u, s, stretches[1..]));
    }
  }

  /**
   However a reader's calls are mixed with the requests of others, its pages are never refused
   and are, in order and each once, the first events of the generation it reads.
   */
  lemma ReadingARun(requests: seq<Timed>, stretches: seq<seq<Timed>>, s: string, generation: int, limit: int)
    requires s in Reached(requests).sessions && generation >= 1 && stretches != []
    ensures var states := Views(Reached(requests), s, stretches);
            var r := Follow(states, generation, -1, None, limit);
            r.Ok? && r.value <= Select(states[|states| - 1].log, generation, -1)
  {
    ReachedSound(requests);
    ViewsGrow(Reached(requests), s, stretches);
    FollowReadsInOrder(Views(Reached(requests), s, stretches), generation, -1, None, limit);
  }

  lemma SequencesArePositions(x: Session)
    requires Chain(x)
    ensures forall i | 0 <= i < |x.log| :: x.log[i].sequence == i
  {
    forall i | 0 <= i < |x.log| ensures x.log[i].sequence == i {
      assert Linked(x.log, i);
    }
  }
}
