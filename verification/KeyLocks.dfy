/**
 The table of per-key locks. Entering counts the thread in and hands out the key's lock,
 creating it for the first one; leaving counts it out and drops the entry of the last one.
 Both run under one guard; waiting for the lock, working and releasing it do not.
 */
module KeyLocks {
  type Key = (string, string)

  /** Where a thread is, and which lock it was handed for which key. */
  datatype Pc = Entered(key: Key, lock: nat) | Inside(key: Key, lock: nat) | Released(key: Key, lock: nat)

  datatype State = State(
    locks: map<Key, nat>,        // the table: lock object per key
    refs: map<Key, int>,         // how many threads were counted in
    held: map<nat, nat>,         // lock object -> thread that holds it
    made: nat,                  // lock objects made so far
    threads: map<nat, Pc>)

  datatype Action = Enter(t: nat, key: Key) | Acquire(t: nat) | Release(t: nat) | Leave(t: nat)

  const EMPTY := State(map[], map[], map[], 0, map[])

  // ------------------------------------------------------------------ the table

  /** The two maps and the number of locks made: what the guard protects. */
  datatype Table = Table(locks: map<Key, nat>, refs: map<Key, int>, made: nat)

  function CountIn(t: Table, key: Key): Table {
    Table(if key in t.locks then t.locks else t.locks[key := t.made],
          t.refs[key := (if key in t.refs then t.refs[key] else 0) + 1],
          if key in t.locks then t.made else t.made + 1)
  }

  function CountOut(t: Table, key: Key, lock: nat): Table {
    var remaining := (if key in t.refs then t.refs[key] else 1) - 1;
    if remaining <= 0 then
      Table(if key in t.locks && t.locks[key] == lock then t.locks - {key} else t.locks, t.refs - {key}, t.made)
    else t.(refs := t.refs[key := remaining])
  }

  class KeyLockTable {
    var locks: map<Key, nat>
    var refs: map<Key, int>
    var made: nat

    constructor ()
      ensures Contents() == Table(map[], map[], 0)
    {
      locks, refs, made := map[], map[], 0;
    }

    ghost function Contents(): Table
      reads this
    {
      Table(locks, refs, made)
    }

    /** The first guarded block: setdefault, then count in. */
    method BeforeAcquire(key: Key) returns (lock: nat)
      modifies this
      ensures Contents() == CountIn(old(Contents()), key)
      ensures key in locks && lock == locks[key]
    {
      if key !in locks {
        locks := locks[key := made];
        made := made + 1;
      }
      lock := locks[key];
      refs := refs[key := (if key in refs then refs[key] else 0) + 1];
    }

    /** The second guarded block: count out, and drop the entry with the last thread. */
    method AfterRelease(key: Key, lock: nat)
      modifies this
      ensures Contents() == CountOut(old(Contents()), key, lock)
    {
      var remaining := (if key in refs then refs[key] else 1) - 1;
      if remaining <= 0 {
        refs := refs - {key};
        if key in locks && locks[key] == lock {
          locks := locks - {key};
        }
      } else {
        refs := refs[key := remaining];
      }
    }
  }

  // ---------------------------------------------------------------- the machine

  function TableOf(s: State): Table {
    Table(s.locks, s.refs, s.made)
  }

  function WithTable(s: State, t: Table): State {
    s.(locks := t.locks, refs := t.refs, made := t.made)
  }

  function Do(s: State, a: Action): State {
    match a
    case Enter(t, key) =>
      if t in s.threads then s
      else
        var after := CountIn(TableOf(s), key);
        WithTable(s, after).(threads := s.threads[t := Entered(key, after.locks[key])])
    case Acquire(t) =>
      if t !in s.threads || !s.threads[t].Entered? || s.threads[t].lock in s.held then s
      else
        s.(held := s.held[s.threads[t].lock := t], threads := s.threads[t := Inside(s.threads[t].key, s.threads[t].lock)])
    case Release(t) =>
      if t !in s.threads || !s.threads[t].Inside? then s
      else
        s.(held := s.held - {s.threads[t].lock}, threads := s.threads[t := Released(s.threads[t].key, s.threads[t].lock)])
    case Leave(t) =>
      if t !in s.threads || !s.threads[t].Released? then s
      else WithTable(s, CountOut(TableOf(s), s.threads[t].key, s.threads[t].lock)).(threads := s.threads - {t})
  }

  function Run(s: State, actions: seq<Action>): State
    decreases |actions|
  {
    if actions == [] then s else Run(Do(s, actions[0]), actions[1..])
  }

  // ----------------------------------------------------------------- invariant

  /** The threads inside the protocol for a key. */
  function Users(threads: map<nat, Pc>, key: Key): set<nat> {
    set t | t in threads && threads[t].key == key
  }

  /** The entry of a key counts its users; there is none when nobody uses it. */
  ghost predicate EntryOk(s: State, key: Key) {
    && (key in s.locks <==> key in s.refs)
    && (key in s.refs <==> Users(s.threads, key) != {})
    && (key in s.refs ==> s.refs[key] == |Users(s.threads, key)|)
  }

  /** A lock is held by exactly the thread that is inside with it. */
  ghost predicate HeldOk(s: State) {
    && (forall i | i in s.held ::
          s.held[i] in s.threads && s.threads[s.held[i]].Inside? && s.threads[s.held[i]].lock == i)
    && (forall t | t in s.threads && s.threads[t].Inside? ::
          s.threads[t].lock in s.held && s.held[s.threads[t].lock] == t)
  }

  /** Every user was handed the lock of its key, and keys have different locks. */
  ghost predicate LocksOk(s: State) {
    && (forall t | t in s.threads :: s.threads[t].key in s.locks && s.threads[t].lock == s.locks[s.threads[t].key])
    && (forall k | k in s.locks :: s.locks[k] < s.made)
    && (forall k, l | k in s.locks && l in s.locks && s.locks[k] == s.locks[l] :: k == l)
  }

  ghost predicate Inv(s: State) {
    && (forall key {:trigger EntryOk(s, key)} :: EntryOk(s, key))
    && LocksOk(s)
    && HeldOk(s)
  }

  lemma UsersGrow(threads: map<nat, Pc>, t: nat, pc: Pc, key: Key)
    requires t !in threads
    ensures Users(threads[t := pc], key) == if pc.key == key then Users(threads, key) + {t} else Users(threads, key)
  {
  }

  lemma UsersShrink(threads: map<nat, Pc>, t: nat, key: Key)
    requires t in threads
    ensures Users(threads - {t}, key) == if threads[t].key == key then Users(threads, key) - {t} else Users(threads, key)
    ensures t in Users(threads, threads[t].key)
  {
  }

  lemma UsersStay(threads: map<nat, Pc>, t: nat, pc: Pc, key: Key)
    requires t in threads && pc.key == threads[t].key
    ensures Users(threads[t := pc], key) == Users(threads, key)
  {
  }

  lemma EnterEntries(s: State, t: nat, key: Key)
    requires Inv(s) && t !in s.threads
    ensures forall k {:trigger EntryOk(Do(s, Enter(t, key)), k)} :: EntryOk(Do(s, Enter(t, key)), k)
  {
    var u := Do(s, Enter(t, key));
    forall k ensures EntryOk(u, k) {
      assert EntryOk(s, k);
      UsersGrow(s.threads, t, u.threads[t], k);
    }
  }

  lemma EnterLocks(s: State, t: nat, key: Key)
    requires Inv(s) && t !in s.threads
    ensures LocksOk(Do(s, Enter(t, key)))
  {
  }

  lemma EnterKeeps(s: State, t: nat, key: Key)
    requires Inv(s)
    ensures Inv(Do(s, Enter(t, key)))
  {
    if t !in s.threads {
      EnterEntries(s, t, key);
      EnterLocks(s, t, key);
    }
  }

  lemma LeaveKeeps(s: State, t: nat)
    requires Inv(s)
    ensures Inv(Do(s, Leave(t)))
  {
    if t in s.threads && s.threads[t].Released? {
      var u := Do(s, Leave(t));
      var key := s.threads[t].key;
      assert EntryOk(s, key);
      UsersShrink(s.threads, t, key);
      assert Users(u.threads, key) == Users(s.threads, key) - {t};
      assert |Users(u.threads, key)| == |Users(s.threads, key)| - 1;
      forall k ensures EntryOk(u, k) {
        assert EntryOk(s, k);
        UsersShrink(s.threads, t, k);
      }
      forall p | p in u.threads ensures u.threads[p].key in u.locks && u.threads[p].lock == u.locks[u.threads[p].key] {
        if u.threads[p].key == key {
          assert p in Users(u.threads, key);
          assert EntryOk(u, key);
        }
      }
    }
  }

  /** A thread that moves on under the same key disturbs no entry. */
  lemma StepEntries(s: State, u: State, t: nat)
    requires (forall k {:trigger EntryOk(s, k)} :: EntryOk(s, k)) && t in s.threads && t in u.threads
    requires u.locks == s.locks && u.refs == s.refs && u.threads == s.threads[t := u.threads[t]]
    requires u.threads[t].key == s.threads[t].key
    ensures forall k {:trigger EntryOk(u, k)} :: EntryOk(u, k)
  {
    forall k ensures EntryOk(u, k) {
      assert EntryOk(s, k);
      UsersStay(s.threads, t, u.threads[t], k);
    }
  }

  lemma AcquireHeld(s: State, t: nat)
    requires HeldOk(s) && t in s.threads && s.threads[t].Entered? && s.threads[t].lock !in s.held
    ensures HeldOk(Do(s, Acquire(t)))
  {
  }

  lemma AcquireKeeps(s: State, t: nat)
    requires Inv(s)
    ensures Inv(Do(s, Acquire(t)))
  {
    if t in s.threads && s.threads[t].Entered? && s.threads[t].lock !in s.held {
      AcquireHeld(s, t);
      StepEntries(s, Do(s, Acquire(t)), t);
    }
  }

  lemma ReleaseHeld(s: State, t: nat)
    requires HeldOk(s)
    ensures HeldOk(Do(s, Release(t)))
  {
  }

  lemma ReleaseKeeps(s: State, t: nat)
    requires Inv(s)
    ensures Inv(Do(s, Release(t)))
  {
    var u := Do(s, Release(t));
    ReleaseHeld(s, t);
    if t in s.threads && s.threads[t].Inside? {
      StepEntries(s, u, t);
    }
  }

  lemma {:induction false} RunKeeps(s: State, actions: seq<Action>)
    requires Inv(s)
    ensures Inv(Run(s, actions))
    decreases |actions|
  {
    if actions != [] {
      match actions[0] {
        case Enter(t, key) => EnterKeeps(s, t, key);
        case Acquire(t) => AcquireKeeps(s, t);
        case Release(t) => ReleaseKeeps(s, t);
        case Leave(t) => LeaveKeeps(s, t);
      }
      RunKeeps(Do(s, actions[0]), actions[1..]);
    }
  }

  /** In every interleaving the count of a key is the number of threads using it, or there is no entry. */
  lemma CountsAreUsers(actions: seq<Action>, key: Key)
    ensures var s := Run(EMPTY, actions);
            && (key in s.refs <==> exists t :: t in s.threads && s.threads[t].key == key)
            && (key in s.locks <==> key in s.refs)
            && (key in s.refs ==> s.refs[key] == |Users(s.threads, key)|)
  {
    RunKeeps(EMPTY, actions);
    var s := Run(EMPTY, actions);
    assert EntryOk(s, key);
    if Users(s.threads, key) != {} {
      var t :| t in Users(s.threads, key);
    }
    if t :| t in s.threads && s.threads[t].key == key {
      assert t in Users(s.threads, key);
    }
  }

  /** All users of a key were handed one lock object, so at most one of them is inside. */
  lemma OneInsidePerKey(actions: seq<Action>, t: nat, u: nat)
    requires var s := Run(EMPTY, actions);
             t in s.threads && u in s.threads && s.threads[t].key == s.threads[u].key
    ensures var s := Run(EMPTY, actions);
            && s.threads[t].lock == s.threads[u].lock
            && (s.threads[t].Inside? && s.threads[u].Inside? ==> t == u)
  {
    RunKeeps(EMPTY, actions);
  }

  /** Keys do not wait for each other: their lock objects differ. */
  lemma KeysDoNotShareLocks(actions: seq<Action>, t: nat, u: nat)
    requires var s := Run(EMPTY, actions);
             t in s.threads && u in s.threads && s.threads[t].key != s.threads[u].key
    ensures Run(EMPTY, actions).threads[t].lock != Run(EMPTY, actions).threads[u].lock
  {
    RunKeeps(EMPTY, actions);
  }

  /** A waiting thread can go on as soon as no user of its own key is inside. */
  lemma WaitersGoOn(actions: seq<Action>, t: nat)
    requires var s := Run(EMPTY, actions); t in s.threads && s.threads[t].Entered?
    ensures var s := Run(EMPTY, actions);
            && t in Do(s, Acquire(t)).threads
            && (Do(s, Acquire(t)).threads[t].Inside? <==>
                  !exists u :: u in s.threads && s.threads[u].key == s.threads[t].key && s.threads[u].Inside?)
  {
    RunKeeps(EMPTY, actions);
    var s := Run(EMPTY, actions);
    if s.threads[t].lock in s.held {
      var u := s.held[s.threads[t].lock];
      assert s.threads[u].key == s.threads[t].key;
    }
  }
}
