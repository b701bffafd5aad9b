/**
 Every step of the upload machine keeps its invariant.

 Steps fall into five kinds by what they may touch: locks only (`OnlyLocks`), rows that fade
 and partials that vanish (`OnlyFades`), the one live upload whose lock the process holds
 (`OnlyUpload`), an upload under a new id (`OnlyBorn`), and object slots and file rows outside
 every unfinished upload (`OnlyFiles`). For each kind one lemma shows that all other uploads
 and processes keep what they rely on, so that a step only has to account for the rows, files
 and the place in its own code that it changes itself.
 */
module UploadSteps {
  import opened Prelude
  import opened UploadModel
  import opened UploadMachine
  import opened UploadInvariant

  // ------------------------------------------- steps that leave the disk alone

  /** Only process p, its locks and lock files no live upload uses may have changed. */
  ghost predicate OnlyLocks(s: State, t: State, p: nat) {
    && t.disk == s.disk && t.now == s.now && t.born == s.born
    && t.accepted == s.accepted && t.origin == s.origin && t.listed == s.listed
    && s.nextInode <= t.nextInode
    && OthersStay(s, t, p)
    && (forall u | u in s.locks && LiveIn(s.disk, u) :: u in t.locks && t.locks[u] == s.locks[u])
    && (forall u | u in t.locks ::
          || (u in s.locks && s.locks[u] == t.locks[u])
          || (t.locks[u].mtime >= s.now && t.locks[u].inode < t.nextInode && u in s.born))
  }

  /** The other processes are where they were and hold what they held. */
  ghost predicate OthersStay(s: State, t: State, p: nat) {
    && (forall q | q in t.procs && q != p :: q in s.procs && s.procs[q] == t.procs[q])
    && (forall q | q in s.procs && q != p :: q in t.procs)
    && (s.writer.Some? && s.writer.value != p ==> t.writer == s.writer)
    && (t.writer.Some? && t.writer.value != p ==> t.writer == s.writer)
    && (forall i | i in s.flocks && s.flocks[i] != p :: i in t.flocks && t.flocks[i] == s.flocks[i])
    && (forall i | i in t.flocks && t.flocks[i] != p :: i in s.flocks && t.flocks[i] == s.flocks[i])
  }

  /** The stepping process, if it is still there, is where it may be. */
  ghost predicate StepperOk(cfg: Config, t: State, p: nat) {
    forall q {:trigger ProcInv(cfg, t, q)} | q in t.procs && q == p :: ProcInv(cfg, t, q)
  }

  /** The lock tables mention the stepping process only for what it holds. */
  ghost predicate StepperTables(t: State, p: nat) {
    && (forall i | i in t.flocks && t.flocks[i] == p ::
          p in t.procs && HoldsInode(t.procs[p]) && t.procs[p].inode == i)
    && (t.writer == Some(p) ==> p in t.procs && (t.procs[p].Writing? || t.procs[p].Inlining?))
  }

  lemma LocksStep(cfg: Config, s: State, t: State, p: nat)
    requires Inv(cfg, s) && OnlyLocks(s, t, p) && StepperTables(t, p) && StepperOk(cfg, t, p)
    ensures Inv(cfg, t)
  {
    assert forall f, g :: SameOrigin(t, f, g) <==> SameOrigin(s, f, g);
    forall u | u in t.disk.sessions ensures UploadInv(cfg, t, u) {
      UploadFrame(cfg, s, t, u);
    }
    forall q | q in t.procs && q != p ensures ProcInv(cfg, t, q) {
      assert ProcInv(cfg, s, q);
      LocksUndisturbed(s, t, p, q);
      ProcFrame(cfg, s, t, q);
    }
  }

  lemma LocksUndisturbed(s: State, t: State, p: nat, q: nat)
    requires OnlyLocks(s, t, p) && LocksInv(s) && q in t.procs && q != p
    requires HoldsInode(t.procs[q]) ==> t.procs[q].inode in s.flocks && s.flocks[t.procs[q].inode] == q
    ensures Undisturbed(s, t, q)
  {
  }

  /** A process moves on without touching anything and without letting go of its lock. */
  lemma GotoKeeps(cfg: Config, s: State, p: nat, pc: Pc)
    requires Inv(cfg, s) && At(s, p) && s.writer != Some(p)
    requires Holds(s.procs[p]) && Holds(pc) && pc.inode == s.procs[p].inode
    requires StepperOk(cfg, Goto(s, p, pc), p)
    ensures Inv(cfg, Goto(s, p, pc))
  {
    LocksStep(cfg, s, Goto(s, p, pc), p);
  }

  lemma TouchIsLocks(s: State, p: nat, u: nat)
    requires LocksInv(s) && p !in s.procs && u in s.born
    ensures OnlyLocks(s, TouchLock(s, u), p) && StepperTables(TouchLock(s, u), p)
  {
  }

  lemma TouchLockKeeps(cfg: Config, s: State, p: nat, u: nat)
    requires Inv(cfg, s) && p !in s.procs && u in s.born
    ensures Inv(cfg, TouchLock(s, u))
  {
    TouchIsLocks(s, p, u);
    LocksStep(cfg, s, TouchLock(s, u), p);
  }

  lemma OpenLockKeeps(cfg: Config, s: State, p: nat, u: nat, op: Op)
    requires Inv(cfg, s)
    ensures Inv(cfg, DoOpenLock(s, p, u, op))
  {
    if p !in s.procs && MayOpen(s, u, op) {
      var t := TouchLock(s, u);
      TouchLockKeeps(cfg, s, p, u);
      LocksStep(cfg, t, DoOpenLock(s, p, u, op), p);
    }
  }

  lemma AcquireLockKeeps(cfg: Config, s: State, p: nat)
    requires Inv(cfg, s)
    ensures Inv(cfg, DoAcquireLock(s, p))
  {
    var t := DoAcquireLock(s, p);
    if t != s {
      assert ProcInv(cfg, s, p);
      LocksStep(cfg, s, t, p);
    }
  }

  /** What a completion learns from the partial or the object slot is what it needs later. */
  lemma CheckedProc(cfg: Config, s: State, p: nat)
    requires p in s.procs && s.procs[p].Loaded? && ProcInv(cfg, s, p)
    requires LiveIn(s.disk, s.procs[p].u) ==> UploadInv(cfg, s, s.procs[p].u)
    ensures StepperOk(cfg, DoCompleteCheck(cfg, s, p), p)
  {
    var pc := s.procs[p];
    var t := DoCompleteCheck(cfg, s, p);
    assert SharesLock(s, pc.u, pc.inode) && SharesLock(t, pc.u, pc.inode);
    if !Open(pc.snap.state) {
      assert CompletingInv(cfg, s.disk, s.accepted[pc.u], pc.u);
    } else if LiveIn(s.disk, pc.u) {
      assert OpenInv(cfg, s.disk, s.accepted[pc.u], pc.u);
    }
  }

  lemma CompleteCheckKeeps(cfg: Config, s: State, p: nat)
    requires Inv(cfg, s)
    ensures Inv(cfg, DoCompleteCheck(cfg, s, p))
  {
    if At(s, p) && s.procs[p].Loaded? {
      assert ProcInv(cfg, s, p);
      assert LiveIn(s.disk, s.procs[p].u) ==> UploadInv(cfg, s, s.procs[p].u);
      CheckedProc(cfg, s, p);
      GotoKeeps(cfg, s, p, DoCompleteCheck(cfg, s, p).procs[p]);
    }
  }

  lemma CheckTerminalKeeps(cfg: Config, s: State, p: nat)
    requires Inv(cfg, s)
    ensures Inv(cfg, DoCheckTerminal(s, p))
  {
    if At(s, p) && s.procs[p].Closing? {
      assert ProcInv(cfg, s, p);
      GotoKeeps(cfg, s, p, DoCheckTerminal(s, p).procs[p]);
    }
  }

  lemma UnlinkIsLocks(s: State, p: nat)
    requires LocksInv(s) && At(s, p) && s.procs[p].Unlinking? && !LiveIn(s.disk, s.procs[p].u)
    ensures OnlyLocks(s, DoUnlinkLock(s, p), p) && StepperTables(DoUnlinkLock(s, p), p)
  {
  }

  lemma UnlinkLockKeeps(cfg: Config, s: State, p: nat)
    requires Inv(cfg, s)
    ensures Inv(cfg, DoUnlinkLock(s, p))
  {
    if At(s, p) && s.procs[p].Unlinking? {
      var t := DoUnlinkLock(s, p);
      assert ProcInv(cfg, s, p);
      UnlinkIsLocks(s, p);
      LocksStep(cfg, s, t, p);
    }
  }

  lemma ReleaseLockKeeps(cfg: Config, s: State, p: nat)
    requires Inv(cfg, s)
    ensures Inv(cfg, DoReleaseLock(s, p))
  {
    var t := DoReleaseLock(s, p);
    if t != s {
      assert ProcInv(cfg, s, p);
      LocksStep(cfg, s, t, p);
    }
  }

  lemma SweepLockIsLocks(s: State, p: nat, u: nat)
    requires LocksInv(s) && DoSweepLock(s, p, u) != s
    ensures OnlyLocks(s, DoSweepLock(s, p, u), p) && StepperTables(DoSweepLock(s, p, u), p)
  {
  }

  lemma SweepLockKeeps(cfg: Config, s: State, p: nat, u: nat)
    requires Inv(cfg, s)
    ensures Inv(cfg, DoSweepLock(s, p, u))
  {
    var t := DoSweepLock(s, p, u);
    if t != s {
      assert ProcInv(cfg, s, p);
      assert !LiveIn(s.disk, u) by {
        if u in s.disk.sessions {
          assert UploadInv(cfg, s, u);
        }
      }
      SweepLockIsLocks(s, p, u);
      LocksStep(cfg, s, t, p);
    }
  }

  lemma SweepUnlinkKeeps(cfg: Config, s: State, p: nat)
    requires Inv(cfg, s)
    ensures Inv(cfg, DoSweepUnlink(s, p))
  {
    var t := DoSweepUnlink(s, p);
    if t != s {
      assert ProcInv(cfg, s, p);
      LocksStep(cfg, s, t, p);
    }
  }

  lemma SweepEndKeeps(cfg: Config, s: State, p: nat)
    requires Inv(cfg, s)
    ensures Inv(cfg, DoSweepEnd(s, p))
  {
    var t := DoSweepEnd(s, p);
    if t != s {
      LocksStep(cfg, s, t, p);
    }
  }

  lemma WriteAbortKeeps(cfg: Config, s: State, p: nat)
    requires Inv(cfg, s)
    ensures Inv(cfg, DoWriteAbort(s, p))
  {
    var t := DoWriteAbort(s, p);
    if t != s {
      assert ProcInv(cfg, s, p);
      LocksStep(cfg, s, t, p);
    }
  }

  lemma CrashKeeps(cfg: Config, s: State, p: nat)
    requires Inv(cfg, s)
    ensures Inv(cfg, DoCrash(s, p))
  {
    var t := DoCrash(s, p);
    if t != s {
      assert ProcInv(cfg, s, p);
      LocksStep(cfg, s, t, p);
    }
  }

  // --------------------------------------- steps that only take uploads away

  /** The row is the same or has faded: dead if it was open, without its chunks or its key. */
  predicate RowFades(x: Session, y: Session) {
    || y == x
    || (&& y == x.(state := y.state, chunks := y.chunks, createKey := y.createKey)
        && Terminal(y.state)
        && (y.state == x.state || (Open(x.state) && y.state != Committed)
            || (Terminal(x.state) && x.state != Committed && y.state != Committed)))
  }

  /** Rows fade and partials of dead uploads vanish; nothing else moves. */
  ghost predicate OnlyFades(s: State, t: State) {
    && t == s.(disk := s.disk.(sessions := t.disk.sessions, partials := t.disk.partials, free := t.disk.free))
    && t.disk.sessions.Keys == s.disk.sessions.Keys
    && (forall u | u in t.disk.sessions :: RowFades(s.disk.sessions[u], t.disk.sessions[u]))
    && (forall u | LiveIn(s.disk, u) :: SameAt(s.disk.partials, t.disk.partials, u))
    && t.disk.partials.Keys <= s.disk.partials.Keys
  }

  lemma FadeUpload(cfg: Config, s: State, t: State, u: nat)
    requires OnlyFades(s, t) && u in s.disk.sessions && UploadInv(cfg, s, u)
    ensures UploadInv(cfg, t, u)
  {
    if !Terminal(t.disk.sessions[u].state) {
      UploadFrame(cfg, s, t, u);
    }
  }

  lemma FadeUndisturbed(s: State, t: State, q: nat)
    requires OnlyFades(s, t) && q in s.procs
    requires s.writer == Some(q) ==> t.disk.sessions == s.disk.sessions
    ensures Undisturbed(s, t, q)
  {
  }

  lemma FadeTables(s: State, t: State)
    requires DataInv(s) && LocksInv(s) && OriginInv(s) && OnlyFades(s, t)
    ensures DataInv(t) && LocksInv(t) && OriginInv(t)
  {
    forall u, v | SameFile(t.disk, u, v) ensures u == v {
      assert SameFile(s.disk, u, v);
    }
    assert forall f, g :: SameOrigin(t, f, g) <==> SameOrigin(s, f, g);
  }

  lemma FadeStep(cfg: Config, s: State, t: State)
    requires Inv(cfg, s) && OnlyFades(s, t)
    ensures DataInv(t) && LocksInv(t) && OriginInv(t)
    ensures forall u {:trigger UploadInv(cfg, t, u)} | u in t.disk.sessions :: UploadInv(cfg, t, u)
    ensures forall q {:trigger ProcInv(cfg, t, q)} |
              q in t.procs && (s.writer == Some(q) ==> t.disk.sessions == s.disk.sessions) :: ProcInv(cfg, t, q)
  {
    FadeTables(s, t);
    forall u | u in t.disk.sessions ensures UploadInv(cfg, t, u) {
      FadeUpload(cfg, s, t, u);
    }
    forall q | q in t.procs && (s.writer == Some(q) ==> t.disk.sessions == s.disk.sessions)
      ensures ProcInv(cfg, t, q)
    {
      assert ProcInv(cfg, s, q);
      FadeUndisturbed(s, t, q);
      ProcFrame(cfg, s, t, q);
    }
  }

  function WithSessions(s: State, sessions: map<nat, Session>): State {
    s.(disk := s.disk.(sessions := sessions))
  }

  lemma ExpiryFades(s: State, at: nat)
    ensures OnlyFades(s, WithSessions(s, Expire(s.disk.sessions, at)))
  {
  }

  /** Expiry takes uploads away; a writer's own upload is not overdue at its own time. */
  lemma ExpireKeeps(cfg: Config, s: State, at: nat)
    requires Inv(cfg, s)
    requires s.writer.Some? ==> s.procs[s.writer.value].Writing? && s.procs[s.writer.value].at == at
    ensures Inv(cfg, WithSessions(s, Expire(s.disk.sessions, at)))
  {
    var t := WithSessions(s, Expire(s.disk.sessions, at));
    ExpiryFades(s, at);
    FadeStep(cfg, s, t);
    if s.writer.Some? {
      var p := s.writer.value;
      assert ProcInv(cfg, s, p);
      assert t.disk.sessions[s.procs[p].u] == s.disk.sessions[s.procs[p].u];
    }
  }

  lemma ExpireStatesKeeps(cfg: Config, s: State)
    requires Inv(cfg, s) && s.writer.None?
    ensures Inv(cfg, WithSessions(s, ExpireStates(s.disk.sessions, s.now)))
  {
    FadeStep(cfg, s, WithSessions(s, ExpireStates(s.disk.sessions, s.now)));
  }

  lemma CancelFades(s: State, u: nat, source: Source)
    requires s.writer.None? && CancelError(s.disk, u, source).None?
    ensures OnlyFades(s, DoCancel(s, u, source))
  {
  }

  lemma CancelKeeps(cfg: Config, s: State, u: nat, source: Source)
    requires Inv(cfg, s)
    ensures Inv(cfg, DoCancel(s, u, source))
  {
    if s.writer.None? && CancelError(s.disk, u, source).None? {
      CancelFades(s, u, source);
      FadeStep(cfg, s, DoCancel(s, u, source));
    }
  }

  lemma SweepPartialKeeps(cfg: Config, s: State, p: nat, u: nat)
    requires Inv(cfg, s)
    ensures Inv(cfg, DoSweepPartial(s, p, u))
  {
    if At(s, p) && s.procs[p].Sweeping? {
      assert ProcInv(cfg, s, p);
      assert u in s.disk.sessions ==> UploadInv(cfg, s, u);
    }
    FadeStep(cfg, s, DoSweepPartial(s, p, u));
  }

  lemma SnapshotIsLocks(cfg: Config, s: State, p: nat, cutoff: nat)
    requires LocksInv(s) && p !in s.procs && s.writer.None? && cutoff <= s.now
    ensures OnlyLocks(WithSessions(s, ExpireStates(s.disk.sessions, s.now)), DoSweepSnapshot(s, p, cutoff), p)
    ensures StepperTables(DoSweepSnapshot(s, p, cutoff), p)
  {
  }

  lemma SweepSnapshotKeeps(cfg: Config, s: State, p: nat, cutoff: nat)
    requires Inv(cfg, s)
    ensures Inv(cfg, DoSweepSnapshot(s, p, cutoff))
  {
    if p !in s.procs && s.writer.None? && cutoff <= s.now {
      var t := WithSessions(s, ExpireStates(s.disk.sessions, s.now));
      ExpireStatesKeeps(cfg, s);
      SnapshotIsLocks(cfg, s, p, cutoff);
      LocksStep(cfg, t, DoSweepSnapshot(s, p, cutoff), p);
    }
  }

  lemma CompleteLoadKeeps(cfg: Config, s: State, p: nat)
    requires Inv(cfg, s)
    ensures Inv(cfg, DoCompleteLoad(s, p))
  {
    if At(s, p) && s.procs[p].Ready? && !s.procs[p].op.WriteOp? && s.writer.None? {
      var pc := s.procs[p];
      assert ProcInv(cfg, s, p);
      var t := WithSessions(s, Expire(s.disk.sessions, s.now));
      ExpireKeeps(cfg, s, s.now);
      if pc.u !in t.disk.sessions || (pc.op.CompleteOp? && t.disk.sessions[pc.u].source != pc.op.source) {
        GotoKeeps(cfg, s, p, Closing(pc.u, pc.inode));
      } else {
        LoadedKeeps(cfg, t, p);
      }
    }
  }

  /** The row just read is the row until someone else ends the upload. */
  lemma LoadedKeeps(cfg: Config, t: State, p: nat)
    requires Inv(cfg, t) && At(t, p) && t.procs[p].Ready? && !t.procs[p].op.WriteOp? && t.writer.None?
    requires t.procs[p].u in t.disk.sessions
    ensures var pc := t.procs[p];
            var row := t.disk.sessions[pc.u];
            Inv(cfg, Goto(t, p, if Terminal(row.state) then Closing(pc.u, pc.inode)
                                else Loaded(pc.u, pc.inode, pc.op.RecoverOp?, row)))
  {
    var pc := t.procs[p];
    var row := t.disk.sessions[pc.u];
    assert ProcInv(cfg, t, p);
    GotoKeeps(cfg, t, p, if Terminal(row.state) then Closing(pc.u, pc.inode)
                         else Loaded(pc.u, pc.inode, pc.op.RecoverOp?, row));
  }

  // ------------------------------------- steps of a lock holder on its upload

  /** Process p, holding the lock of live upload u, changes u's rows and files and nothing else. */
  ghost predicate OnlyUpload(s: State, t: State, p: nat, u: nat, f: Option<nat>) {
    && At(s, p) && Holds(s.procs[p]) && s.procs[p].u == u && LiveIn(s.disk, u)
    && At(t, p) && t.procs == s.procs[p := t.procs[p]]
    && t.now == s.now && t.locks == s.locks && t.flocks == s.flocks
    && t.nextInode == s.nextInode && t.born == s.born && t.listed == s.listed
    && u in t.disk.sessions && t.disk.sessions == s.disk.sessions[u := t.disk.sessions[u]]
    && t.disk.sessions[u].createdAt == s.disk.sessions[u].createdAt
    && (OpenIn(t.disk, u) ==> OpenIn(s.disk, u))
    && u in s.accepted && u in t.accepted && t.accepted == s.accepted[u := t.accepted[u]]
    && (forall v | v != u :: SameAt(s.disk.partials, t.disk.partials, v))
    && (forall k: nat | f != Some(k) :: SameAt(s.disk.objects, t.disk.objects, k))
    && (forall k: nat | f != Some(k) :: SameAt(s.disk.files, t.disk.files, k))
    && (forall k: nat | f != Some(k) :: SameAt(s.origin, t.origin, k))
    && (f.Some? ==> s.disk.sessions[u].fileId == f)
    && (s.writer.Some? && s.writer.value != p ==>
          t.writer == s.writer && t.disk.sessions == s.disk.sessions
          && t.disk.files == s.disk.files && t.origin == s.origin)
    && (t.writer.Some? && t.writer.value != p ==> t.writer == s.writer)
  }

  lemma OtherUploads(cfg: Config, s: State, t: State, p: nat, u: nat, f: Option<nat>, v: nat)
    requires Inv(cfg, s) && OnlyUpload(s, t, p, u, f) && v in t.disk.sessions && v != u
    ensures UploadInv(cfg, t, v)
  {
    assert UploadInv(cfg, s, v);
    assert !SameFile(s.disk, u, v);
    UploadFrame(cfg, s, t, v);
  }

  lemma OtherProcs(cfg: Config, s: State, t: State, p: nat, u: nat, f: Option<nat>, q: nat)
    requires Inv(cfg, s) && OnlyUpload(s, t, p, u, f) && q in t.procs && q != p
    ensures ProcInv(cfg, t, q)
  {
    assert ProcInv(cfg, s, q);
    var pc := s.procs[q];
    if Holds(pc) {
      if pc.u == u {
        Exclusive(cfg, s, p, q);
      } else {
        assert pc.u in s.disk.sessions ==> !SameFile(s.disk, u, pc.u);
      }
    }
    assert Undisturbed(s, t, q);
    ProcFrame(cfg, s, t, q);
  }

  lemma UploadStep(cfg: Config, s: State, t: State, p: nat, u: nat, f: Option<nat>)
    requires Inv(cfg, s) && OnlyUpload(s, t, p, u, f)
    requires UploadInv(cfg, t, u) && StepperOk(cfg, t, p) && StepperTables(t, p)
    requires DataInv(t) && OriginInv(t)
    ensures Inv(cfg, t)
  {
    forall v | v in t.disk.sessions && v != u ensures UploadInv(cfg, t, v) {
      OtherUploads(cfg, s, t, p, u, f, v);
    }
    forall q | q in t.procs && q != p ensures ProcInv(cfg, t, q) {
      OtherProcs(cfg, s, t, p, u, f, q);
    }
  }

  /** Same rows, so the same ids: what most holder steps need of the tables. */
  lemma SameTables(s: State, t: State)
    requires DataInv(s) && OriginInv(s)
    requires t.disk.sessions == s.disk.sessions && t.born == s.born && t.origin == s.origin
    requires t.accepted.Keys == s.accepted.Keys && t.disk.partials.Keys <= s.born
    ensures DataInv(t) && OriginInv(t)
  {
    assert forall f, g :: SameOrigin(t, f, g) <==> SameOrigin(s, f, g);
    assert forall u, v :: SameFile(t.disk, u, v) <==> SameFile(s.disk, u, v);
  }

  lemma AppendOpen(cfg: Config, s: State, u: nat, data: seq<byte>)
    requires OpenIn(s.disk, u) && u in s.accepted && UploadInv(cfg, s, u)
    requires s.disk.sessions[u].verified + |data| <= s.disk.sessions[u].total
    ensures UploadInv(cfg, s.(disk := Appended(s.disk, u, s.disk.sessions[u].verified, data, s.now)), u)
    ensures PartialBytes(Appended(s.disk, u, s.disk.sessions[u].verified, data, s.now), u) == s.accepted[u] + data
  {
    var d := Appended(s.disk, u, s.disk.sessions[u].verified, data, s.now);
    assert OpenInv(cfg, s.disk, s.accepted[u], u);
    assert PartialBytes(d, u) == s.accepted[u] + data;
    assert OpenInv(cfg, d, s.accepted[u], u);
  }

  lemma WriteTearKeeps(cfg: Config, s: State, p: nat, junk: seq<byte>)
    requires Inv(cfg, s)
    ensures Inv(cfg, DoWriteTear(s, p, junk))
  {
    var t := DoWriteTear(s, p, junk);
    if t != s {
      var pc := s.procs[p];
      assert ProcInv(cfg, s, p) && UploadInv(cfg, s, pc.u);
      AppendOpen(cfg, s, pc.u, junk);
      SameTables(s, t);
      UploadStep(cfg, s, t, p, pc.u, None);
    }
  }

  lemma WriteDataKeeps(cfg: Config, s: State, p: nat)
    requires Inv(cfg, s)
    ensures Inv(cfg, DoWriteData(s, p))
  {
    var t := DoWriteData(s, p);
    if t != s {
      var pc := s.procs[p];
      assert ProcInv(cfg, s, p) && UploadInv(cfg, s, pc.u);
      AppendOpen(cfg, s, pc.u, pc.q.data);
      SameTables(s, t);
      UploadStep(cfg, s, t, p, pc.u, None);
    }
  }

  /** The row after an append keeps the tiling, and the history grows by the same bytes. */
  lemma CommitWriteOpen(cfg: Config, s: State, p: nat)
    requires Inv(cfg, s) && At(s, p) && s.procs[p].Writing? && s.procs[p].done
    ensures var pc := s.procs[p];
            pc.u in s.disk.sessions && pc.u in s.accepted && pc.q.offset >= 0
    ensures var pc := s.procs[p];
            var x := s.disk.sessions[pc.u];
            && x.verified + |pc.q.data| <= x.total
            && OpenInv(cfg, s.disk.(sessions := s.disk.sessions[pc.u := RowAfterWrite(x, pc.q, s.now)]),
                       s.accepted[pc.u] + pc.q.data, pc.u)
  {
    assert ProcInv(cfg, s, p);
    var pc := s.procs[p];
    var x := s.disk.sessions[pc.u];
    assert UploadInv(cfg, s, pc.u);
    assert OpenInv(cfg, s.disk, s.accepted[pc.u], pc.u);
    TilesAppend(x.chunks, x.verified, pc.q.key, Chunk(x.verified, |pc.q.data|, pc.q.digest));
    DigestsAppend(cfg.hash, x.chunks, s.accepted[pc.u], pc.q.key, pc.q.data);
  }

  /** The commit itself, once the expiry of the same transaction is in. */
  function Append(e: State, p: nat): State
    requires At(e, p) && e.procs[p].Writing? && e.procs[p].q.offset >= 0
    requires e.procs[p].u in e.disk.sessions && e.procs[p].u in e.accepted
  {
    var pc := e.procs[p];
    var row := RowAfterWrite(e.disk.sessions[pc.u], pc.q, e.now);
    Goto(WithSessions(e, e.disk.sessions[pc.u := row])
         .(accepted := e.accepted[pc.u := e.accepted[pc.u] + pc.q.data], writer := None),
         p, Unlocking(pc.u, pc.inode))
  }

  lemma AppendedRow(cfg: Config, e: State, p: nat)
    requires Inv(cfg, e) && At(e, p) && e.procs[p].Writing? && e.procs[p].done
    ensures e.procs[p].u in e.disk.sessions && e.procs[p].u in e.accepted && e.procs[p].q.offset >= 0
    ensures OpenIn(e.disk, e.procs[p].u) && e.writer == Some(p)
    ensures e.disk.sessions[e.procs[p].u].fileId.None?
    ensures UploadInv(cfg, Append(e, p), e.procs[p].u) && StepperOk(cfg, Append(e, p), p)
  {
    var pc := e.procs[p];
    CommitWriteOpen(cfg, e, p);
    assert ProcInv(cfg, e, p) && UploadInv(cfg, e, pc.u);
    var t := Append(e, p);
    assert OpenInv(cfg, t.disk, t.accepted[pc.u], pc.u);
  }

  lemma AppendKeeps(cfg: Config, e: State, p: nat)
    requires Inv(cfg, e) && At(e, p) && e.procs[p].Writing? && e.procs[p].done
    ensures e.procs[p].u in e.disk.sessions && e.procs[p].u in e.accepted && e.procs[p].q.offset >= 0
    ensures Inv(cfg, Append(e, p))
  {
    var u := e.procs[p].u;
    AppendedRow(cfg, e, p);
    RowOnly(e, Append(e, p), u);
    UploadStep(cfg, e, Append(e, p), p, u, None);
  }

  /** A row changed in place without a file id of its own. */
  lemma RowOnly(s: State, t: State, u: nat)
    requires DataInv(s) && OriginInv(s)
    requires u in s.disk.sessions && u in t.disk.sessions && s.disk.sessions[u].state != Committed
    requires t.disk.sessions == s.disk.sessions[u := t.disk.sessions[u]]
    requires t.disk.sessions[u].fileId.None?
    requires t.born == s.born && t.origin == s.origin && t.accepted.Keys == s.accepted.Keys
    requires t.disk.partials.Keys <= s.born
    ensures DataInv(t) && OriginInv(t)
  {
    assert forall v, w | SameFile(t.disk, v, w) :: SameFile(s.disk, v, w);
    assert forall v, w :: SameOrigin(t, v, w) <==> SameOrigin(s, v, w);
  }

  lemma WriteCommitKeeps(cfg: Config, s: State, p: nat)
    requires Inv(cfg, s)
    ensures Inv(cfg, DoWriteCommit(s, p))
  {
    if At(s, p) {
      assert ProcInv(cfg, s, p);
      assert !s.procs[p].WriteRestarting?;
      if s.procs[p].Writing? && s.procs[p].done {
        ExpireKeeps(cfg, s, s.procs[p].at);
        AppendKeeps(cfg, WithSessions(s, Expire(s.disk.sessions, s.procs[p].at)), p);
      }
    }
  }

  lemma MarkOpenKeeps(cfg: Config, s: State, p: nat)
    requires Inv(cfg, s) && At(s, p) && s.procs[p].Marking? && s.writer.None?
    requires OpenIn(s.disk, s.procs[p].u)
    ensures Inv(cfg, DoCompleteMark(s, p))
  {
    MarkedOpen(cfg, s, p);
    RowOnly(s, DoCompleteMark(s, p), s.procs[p].u);
    UploadStep(cfg, s, DoCompleteMark(s, p), p, s.procs[p].u, None);
  }

  lemma MarkedOpen(cfg: Config, s: State, p: nat)
    requires Inv(cfg, s) && At(s, p) && s.procs[p].Marking? && s.writer.None?
    requires OpenIn(s.disk, s.procs[p].u)
    ensures s.procs[p].u in s.accepted && s.disk.sessions[s.procs[p].u].fileId.None?
    ensures UploadInv(cfg, DoCompleteMark(s, p), s.procs[p].u) && StepperOk(cfg, DoCompleteMark(s, p), p)
  {
    var pc := s.procs[p];
    assert ProcInv(cfg, s, p) && UploadInv(cfg, s, pc.u);
    MarkedRow(cfg, s, pc.u, pc.to);
    UploadFrame(cfg, WithSessions(s, MarkError(s.disk.sessions, pc.u, pc.to)), DoCompleteMark(s, p), pc.u);
  }

  /** A marked upload is open as before, or dead for good. */
  lemma MarkedRow(cfg: Config, s: State, u: nat, to: UploadState)
    requires OpenIn(s.disk, u) && UploadInv(cfg, s, u) && to in {FailedRetryable, FailedTerminal}
    ensures UploadInv(cfg, WithSessions(s, MarkError(s.disk.sessions, u, to)), u)
  {
    var t := WithSessions(s, MarkError(s.disk.sessions, u, to));
    assert OpenInv(cfg, s.disk, s.accepted[u], u);
    if to == FailedRetryable {
      assert OpenInv(cfg, t.disk, t.accepted[u], u);
    }
  }

  lemma MarkDeadKeeps(cfg: Config, s: State, p: nat)
    requires Inv(cfg, s) && At(s, p) && s.procs[p].Marking? && s.writer.None?
    requires !OpenIn(s.disk, s.procs[p].u)
    ensures Inv(cfg, DoCompleteMark(s, p))
  {
    var pc := s.procs[p];
    assert ProcInv(cfg, s, p);
    var d := WithSessions(s, MarkError(s.disk.sessions, pc.u, pc.to));
    FadeStep(cfg, s, d);
    assert ProcInv(cfg, d, p);
    GotoKeeps(cfg, d, p, Closing(pc.u, pc.inode));
  }

  lemma CompleteMarkKeeps(cfg: Config, s: State, p: nat)
    requires Inv(cfg, s)
    ensures Inv(cfg, DoCompleteMark(s, p))
  {
    if At(s, p) && s.procs[p].Marking? && s.writer.None? {
      if OpenIn(s.disk, s.procs[p].u) {
        MarkOpenKeeps(cfg, s, p);
      } else {
        MarkDeadKeeps(cfg, s, p);
      }
    }
  }

  /** A claimed row: the partial still holds exactly the acknowledged bytes. */
  lemma ClaimedRow(cfg: Config, s: State, p: nat, fid: nat)
    requires Inv(cfg, s) && At(s, p) && s.procs[p].Verified? && s.writer.None?
    requires FreshFile(s.disk, fid) && fid !in s.origin
    requires ClaimRow(s.disk, s.procs[p].u, s.procs[p].snap, fid).Some?
    ensures s.procs[p].u in s.disk.sessions && s.procs[p].u in s.accepted && LiveIn(s.disk, s.procs[p].u)
    ensures UploadInv(cfg, DoCompleteClaim(s, p, fid), s.procs[p].u)
    ensures StepperOk(cfg, DoCompleteClaim(s, p, fid), p)
  {
    var pc := s.procs[p];
    var t := DoCompleteClaim(s, p, fid);
    assert ProcInv(cfg, s, p) && UploadInv(cfg, s, pc.u);
    assert OpenInv(cfg, s.disk, s.accepted[pc.u], pc.u);
    assert CompletingInv(cfg, t.disk, t.accepted[pc.u], pc.u);
  }

  /** A fresh file id collides with no other row. */
  lemma ClaimTables(s: State, t: State, u: nat, fid: nat)
    requires DataInv(s) && OriginInv(s) && FreshFile(s.disk, fid)
    requires u in s.disk.sessions && u in t.disk.sessions && s.disk.sessions[u].state != Committed
    requires t.disk.sessions == s.disk.sessions[u := t.disk.sessions[u]]
    requires t.disk.sessions[u].fileId == Some(fid)
    requires t.born == s.born && t.origin == s.origin && t.accepted == s.accepted
    requires t.disk.partials == s.disk.partials
    ensures DataInv(t) && OriginInv(t)
  {
    forall v, w | SameFile(t.disk, v, w) ensures v == w {
      assert v != u && w != u ==> SameFile(s.disk, v, w);
    }
    assert forall v, w :: SameOrigin(t, v, w) <==> SameOrigin(s, v, w);
  }

  lemma CompleteClaimKeeps(cfg: Config, s: State, p: nat, fid: nat)
    requires Inv(cfg, s)
    ensures Inv(cfg, DoCompleteClaim(s, p, fid))
  {
    if At(s, p) && s.procs[p].Verified? && s.writer.None? && FreshFile(s.disk, fid) && fid !in s.origin {
      var pc := s.procs[p];
      if ClaimRow(s.disk, pc.u, pc.snap, fid).None? {
        assert ProcInv(cfg, s, p);
        GotoKeeps(cfg, s, p, Closing(pc.u, pc.inode));
      } else {
        var t := DoCompleteClaim(s, p, fid);
        ClaimedRow(cfg, s, p, fid);
        ClaimTables(s, t, pc.u, fid);
        UploadStep(cfg, s, t, p, pc.u, None);
      }
    }
  }

  /** What a claim publishes are the acknowledged bytes. */
  lemma PublishedUpload(cfg: Config, s: State, p: nat)
    requires At(s, p) && s.procs[p].Claimed? && ProcInv(cfg, s, p) && UploadInv(cfg, s, s.procs[p].u)
    ensures var t := DoCompletePublish(cfg, s, p);
            t.disk == PublishObject(s.disk, s.procs[p].u, s.procs[p].fid) && UploadInv(cfg, t, s.procs[p].u)
  {
    var pc := s.procs[p];
    assert CompletingInv(cfg, s.disk, s.accepted[pc.u], pc.u);
    var t := DoCompletePublish(cfg, s, p);
    assert CompletingInv(cfg, t.disk, t.accepted[pc.u], pc.u);
  }

  lemma PublishOnly(cfg: Config, s: State, p: nat)
    requires At(s, p) && s.procs[p].Claimed? && LocksInv(s) && ProcInv(cfg, s, p)
    requires UploadInv(cfg, s, s.procs[p].u) && s.procs[p].u in s.disk.partials
    requires DoCompletePublish(cfg, s, p).disk == PublishObject(s.disk, s.procs[p].u, s.procs[p].fid)
    ensures OnlyUpload(s, DoCompletePublish(cfg, s, p), p, s.procs[p].u, Some(s.procs[p].fid))
    ensures StepperTables(DoCompletePublish(cfg, s, p), p)
  {
  }

  lemma CompletePublishKeeps(cfg: Config, s: State, p: nat)
    requires Inv(cfg, s)
    ensures Inv(cfg, DoCompletePublish(cfg, s, p))
  {
    if At(s, p) && s.procs[p].Claimed? {
      var pc := s.procs[p];
      var t := DoCompletePublish(cfg, s, p);
      assert ProcInv(cfg, s, p) && UploadInv(cfg, s, pc.u);
      PublishedUpload(cfg, s, p);
      PublishOnly(cfg, s, p);
      SameTables(s, t);
      UploadStep(cfg, s, t, p, pc.u, Some(pc.fid));
    }
  }

  lemma CommittedRow(cfg: Config, s: State, p: nat)
    requires Inv(cfg, s) && At(s, p) && s.procs[p].Published? && s.writer.None?
    ensures CommitRow(s.disk, s.procs[p].u, s.procs[p].fid).Some?
    ensures s.procs[p].u in s.accepted && s.procs[p].fid !in s.disk.files
    ensures ClaimInv(s, s.procs[p].u, s.procs[p].fid)
    ensures UploadInv(cfg, DoCompleteCommit(s, p), s.procs[p].u)
    ensures StepperOk(cfg, DoCompleteCommit(s, p), p)
  {
    var pc := s.procs[p];
    assert ProcInv(cfg, s, p) && UploadInv(cfg, s, pc.u);
    assert CompletingInv(cfg, s.disk, s.accepted[pc.u], pc.u);
    var t := DoCompleteCommit(s, p);
    assert CommittedInv(cfg, t.disk, t.accepted[pc.u], pc.u);
  }

  lemma CompleteCommitKeeps(cfg: Config, s: State, p: nat)
    requires Inv(cfg, s)
    ensures Inv(cfg, DoCompleteCommit(s, p))
  {
    if At(s, p) && s.procs[p].Published? && s.writer.None? {
      var pc := s.procs[p];
      CommittedRow(cfg, s, p);
      CommitTables(s, DoCompleteCommit(s, p), pc.u, pc.fid);
      UploadStep(cfg, s, DoCompleteCommit(s, p), p, pc.u, Some(pc.fid));
    }
  }

  /** No earlier file row named this upload, so the new one is its only one. */
  lemma CommitTables(s: State, t: State, u: nat, fid: nat)
    requires DataInv(s) && OriginInv(s) && ClaimInv(s, u, fid)
    requires u in t.disk.sessions && t.disk.sessions == s.disk.sessions[u := t.disk.sessions[u]]
    requires t.disk.sessions[u].fileId == Some(fid) && t.disk.sessions[u].state == Committed
    requires t.origin == s.origin[fid := u]
    requires t.born == s.born && t.accepted == s.accepted && t.disk.partials == s.disk.partials
    ensures DataInv(t) && OriginInv(t)
  {
    assert forall v, w | SameFile(t.disk, v, w) :: SameFile(s.disk, v, w);
    forall f, g | SameOrigin(t, f, g) ensures f == g {
      assert f != fid && g != fid ==> SameOrigin(s, f, g);
    }
    forall f | f in t.origin && t.origin[f] in t.disk.sessions
      ensures t.disk.sessions[t.origin[f]].state == Committed && t.disk.sessions[t.origin[f]].fileId == Some(f)
    {
      if f != fid {
        assert t.origin[f] != u;
      }
    }
  }

  /** With nobody else touching partials, recovery never finds anything to restart. */
  lemma RestartKeeps(cfg: Config, s: State, p: nat)
    requires Inv(cfg, s)
    ensures DoRestartUnlink(s, p) == s && DoRestartReset(s, p) == s
  {
    if At(s, p) {
      assert ProcInv(cfg, s, p);
    }
  }

  // --------------------------------------------------------- starting a write

  lemma TrimKeeps(cfg: Config, s: State, p: nat)
    requires Inv(cfg, s) && At(s, p) && s.procs[p].Ready? && s.procs[p].op.WriteOp?
    requires OpenIn(s.disk, s.procs[p].u)
    ensures var u := s.procs[p].u;
            Inv(cfg, s.(disk := TrimOverhang(s.disk, u, s.disk.sessions[u].verified, s.now)))
  {
    var u := s.procs[p].u;
    var t := s.(disk := TrimOverhang(s.disk, u, s.disk.sessions[u].verified, s.now));
    assert ProcInv(cfg, s, p) && UploadInv(cfg, s, u);
    assert OpenInv(cfg, s.disk, s.accepted[u], u);
    assert OpenInv(cfg, t.disk, t.accepted[u], u);
    SameTables(s, t);
    UploadStep(cfg, s, t, p, u, None);
  }

  /** An upload that survives the expiry of a transaction was open, with this very row. */
  lemma SurvivesExpiry(s: map<nat, Session>, now: nat, u: nat)
    requires u in s && Open(Expire(s, now)[u].state)
    ensures Open(s[u].state) && Expire(s, now)[u] == s[u] && s[u].expiresAt > now
  {
  }

  lemma NeverLost(cfg: Config, s: State, u: nat)
    requires Inv(cfg, s) && OpenIn(s.disk, u)
    ensures !LostVerifiedBytes(s.disk, u, s.disk.sessions[u].verified)
  {
    assert UploadInv(cfg, s, u);
    assert OpenInv(cfg, s.disk, s.accepted[u], u);
  }

  lemma WriteBeginKeeps(cfg: Config, s: State, p: nat)
    requires Inv(cfg, s)
    ensures Inv(cfg, DoWriteBegin(cfg, s, p))
  {
    if At(s, p) && s.procs[p].Ready? && s.procs[p].op.WriteOp? && s.writer.None? {
      var pc := s.procs[p];
      var s1 := Expire(s.disk.sessions, s.now);
      assert ProcInv(cfg, s, p);
      if CheckRequest(cfg.hash, pc.op.q).Some? || JudgeSession(s1, pc.u, pc.op.q).Some? {
        RefuseEarlyKeeps(cfg, s, p);
      } else {
        SurvivesExpiry(s.disk.sessions, s.now, pc.u);
        NeverLost(cfg, s, pc.u);
        TrimKeeps(cfg, s, p);
        JudgedBytesKeeps(cfg, s, p);
      }
    }
  }

  lemma EndWriteKeeps(cfg: Config, s: State, p: nat)
    requires Inv(cfg, s) && At(s, p) && s.procs[p].Ready? && s.writer.None?
    ensures Inv(cfg, Goto(s, p, Unlocking(s.procs[p].u, s.procs[p].inode)))
  {
    assert ProcInv(cfg, s, p);
    GotoKeeps(cfg, s, p, Unlocking(s.procs[p].u, s.procs[p].inode));
  }

  lemma AcceptWriteKeeps(cfg: Config, s: State, p: nat, q: WriteRequest)
    requires Inv(cfg, s) && At(s, p) && s.procs[p].Ready? && s.writer.None?
    requires var u := s.procs[p].u;
             && OpenIn(s.disk, u)
             && s.disk.sessions[u].expiresAt > s.now
             && q.offset == s.disk.sessions[u].verified
             && q.data != [] && q.offset + |q.data| <= s.disk.sessions[u].total
             && cfg.hash(q.data) == q.digest
             && q.key !in s.disk.sessions[u].chunks
    ensures Inv(cfg, Goto(s.(writer := Some(p)), p,
                          Writing(s.procs[p].u, s.procs[p].inode, q, s.now, false)))
  {
    var u := s.procs[p].u;
    assert ProcInv(cfg, s, p) && UploadInv(cfg, s, u);
    LocksStep(cfg, s, Goto(s.(writer := Some(p)), p, Writing(u, s.procs[p].inode, q, s.now, false)), p);
  }

  /** A write refused early only lets go of its lock; finding the upload expired, it commits that. */
  lemma RefusedEarly(cfg: Config, s: State, p: nat)
    requires At(s, p) && s.procs[p].Ready? && s.procs[p].op.WriteOp? && s.writer.None?
    requires CheckRequest(cfg.hash, s.procs[p].op.q).Some?
          || JudgeSession(Expire(s.disk.sessions, s.now), s.procs[p].u, s.procs[p].op.q).Some?
    ensures var expired := JudgeWrite(cfg, s.disk, s.procs[p].u, s.procs[p].op.q, s.now).verdict.RefuseExpired?;
            DoWriteBegin(cfg, s, p)
              == Goto(if expired then WithSessions(s, Expire(s.disk.sessions, s.now)) else s, p,
                      Unlocking(s.procs[p].u, s.procs[p].inode))
  {
  }

  lemma RefuseEarlyKeeps(cfg: Config, s: State, p: nat)
    requires Inv(cfg, s) && At(s, p) && s.procs[p].Ready? && s.procs[p].op.WriteOp? && s.writer.None?
    requires CheckRequest(cfg.hash, s.procs[p].op.q).Some?
          || JudgeSession(Expire(s.disk.sessions, s.now), s.procs[p].u, s.procs[p].op.q).Some?
    ensures Inv(cfg, DoWriteBegin(cfg, s, p))
  {
    RefusedEarly(cfg, s, p);
    if JudgeWrite(cfg, s.disk, s.procs[p].u, s.procs[p].op.q, s.now).verdict.RefuseExpired? {
      ExpireKeeps(cfg, s, s.now);
      EndWriteKeeps(cfg, WithSessions(s, Expire(s.disk.sessions, s.now)), p);
    } else {
      EndWriteKeeps(cfg, s, p);
    }
  }

  function Trimmed(s: State, u: nat): State
    requires u in s.disk.sessions
  {
    s.(disk := TrimOverhang(s.disk, u, s.disk.sessions[u].verified, s.now))
  }

  /** Once the early checks pass, a write appends, replays or is refused on the trimmed partial. */
  lemma JudgedLate(cfg: Config, d: Disk, u: nat, q: WriteRequest, now: nat)
    requires OpenIn(d, u) && CheckRequest(cfg.hash, q).None?
    requires JudgeSession(Expire(d.sessions, now), u, q).None?
    requires !LostVerifiedBytes(d, u, d.sessions[u].verified)
    requires Expire(d.sessions, now)[u] == d.sessions[u]
    ensures var j := JudgeWrite(cfg, d, u, q, now);
            var t := TrimOverhang(d, u, d.sessions[u].verified, now);
            && !j.verdict.Restart?
            && j.disk == (if j.verdict.Replay? then t.(sessions := Expire(d.sessions, now)) else t)
            && (j.verdict.Accept? ==>
                  && q.offset == d.sessions[u].verified && q.key !in d.sessions[u].chunks
                  && q.offset + |q.data| <= d.sessions[u].total)
  {
  }

  lemma JudgedBytesKeeps(cfg: Config, s: State, p: nat)
    requires Inv(cfg, s) && At(s, p) && s.procs[p].Ready? && s.procs[p].op.WriteOp? && s.writer.None?
    requires OpenIn(s.disk, s.procs[p].u)
    requires var u := s.procs[p].u;
             && CheckRequest(cfg.hash, s.procs[p].op.q).None?
             && JudgeSession(Expire(s.disk.sessions, s.now), u, s.procs[p].op.q).None?
             && !LostVerifiedBytes(s.disk, u, s.disk.sessions[u].verified)
             && Expire(s.disk.sessions, s.now)[u] == s.disk.sessions[u]
             && s.disk.sessions[u].expiresAt > s.now
             && Inv(cfg, Trimmed(s, u))
    ensures Inv(cfg, DoWriteBegin(cfg, s, p))
  {
    var pc := s.procs[p];
    var t := Trimmed(s, pc.u);
    JudgedLate(cfg, s.disk, pc.u, pc.op.q, s.now);
    if JudgeWrite(cfg, s.disk, pc.u, pc.op.q, s.now).verdict.Accept? {
      AcceptWriteKeeps(cfg, t, p, pc.op.q);
    } else {
      ExpireKeeps(cfg, t, s.now);
      EndWriteKeeps(cfg, t, p);
      EndWriteKeeps(cfg, WithSessions(t, Expire(t.disk.sessions, s.now)), p);
    }
  }

  // ------------------------------------------------- the clock and the listing

  /** What a listing finds claimed is never open again. */
  lemma ListKeeps(cfg: Config, s: State)
    requires Inv(cfg, s)
    ensures Inv(cfg, DoListStale(s))
  {
    var t := DoListStale(s);
    forall u | u in t.disk.sessions ensures UploadInv(cfg, t, u) {
      UploadFrame(cfg, s, t, u);
    }
    forall q | q in t.procs ensures ProcInv(cfg, t, q) {
      assert ProcInv(cfg, s, q);
      ProcFrame(cfg, s, t, q);
    }
    assert forall f, g :: SameOrigin(t, f, g) <==> SameOrigin(s, f, g);
  }

  lemma TickKeeps(cfg: Config, s: State, dt: nat)
    requires Inv(cfg, s)
    ensures Inv(cfg, s.(now := s.now + dt))
  {
    var t := s.(now := s.now + dt);
    forall u | u in t.disk.sessions ensures UploadInv(cfg, t, u) {
      UploadFrame(cfg, s, t, u);
    }
    forall q | q in t.procs ensures ProcInv(cfg, t, q) {
      assert ProcInv(cfg, s, q);
      ProcFrame(cfg, s, t, q);
    }
    assert forall f, g :: SameOrigin(t, f, g) <==> SameOrigin(s, f, g);
  }

  // ------------------------------------------------------------ new uploads

  /** One new upload, under an id never seen before. */
  ghost predicate OnlyBorn(s: State, t: State, u: nat) {
    && u !in s.born
    && u in t.disk.sessions && t.disk.sessions == s.disk.sessions[u := t.disk.sessions[u]]
    && t == s.(disk := s.disk.(sessions := t.disk.sessions), born := s.born + {u}, accepted := s.accepted[u := []])
    && t.disk.sessions[u].createdAt == s.now
    && t.disk.sessions[u].state == Created
  }

  lemma BornUndisturbed(cfg: Config, s: State, t: State, u: nat, q: nat)
    requires DataInv(s) && OnlyBorn(s, t, u) && s.writer.None? && q in s.procs && ProcInv(cfg, s, q)
    ensures ProcInv(cfg, t, q)
  {
    ProcFrame(cfg, s, t, q);
  }

  lemma BornTables(s: State, t: State, u: nat)
    requires DataInv(s) && LocksInv(s) && OriginInv(s) && OnlyBorn(s, t, u) && s.writer.None?
    requires t.disk.sessions[u].fileId.None?
    ensures DataInv(t) && LocksInv(t) && OriginInv(t)
  {
    assert forall v, w | SameFile(t.disk, v, w) :: SameFile(s.disk, v, w);
    assert forall f, g :: SameOrigin(t, f, g) <==> SameOrigin(s, f, g);
  }

  lemma BornKeeps(cfg: Config, s: State, t: State, u: nat)
    requires Inv(cfg, s) && OnlyBorn(s, t, u) && s.writer.None? && UploadInv(cfg, t, u)
    requires t.disk.sessions[u].fileId.None?
    ensures Inv(cfg, t)
  {
    forall v | v in t.disk.sessions && v != u ensures UploadInv(cfg, t, v) {
      assert UploadInv(cfg, s, v);
      UploadFrame(cfg, s, t, v);
    }
    forall q | q in t.procs ensures ProcInv(cfg, t, q) {
      assert ProcInv(cfg, s, q);
      BornUndisturbed(cfg, s, t, u, q);
    }
    BornTables(s, t, u);
  }

  lemma NewUploadInv(cfg: Config, s: State, u: nat, q: CreateRequest)
    requires q.total > 0 && u !in s.locks && u !in s.disk.partials
    requires u in s.disk.sessions && s.disk.sessions[u] == NewSession(q, s.now)
    requires u in s.born && u in s.accepted && s.accepted[u] == []
    ensures UploadInv(cfg, s, u)
  {
    assert OpenInv(cfg, s.disk, [], u);
  }

  lemma ReleaseKeeps(cfg: Config, s: State, q: CreateRequest)
    requires Inv(cfg, s) && s.writer.None?
    ensures Inv(cfg, WithSessions(s, ReleaseKey(s.disk.sessions, q)))
  {
    ReleaseFades(s, q);
    FadeStep(cfg, s, WithSessions(s, ReleaseKey(s.disk.sessions, q)));
  }

  lemma ReleaseFades(s: State, q: CreateRequest)
    ensures OnlyFades(s, WithSessions(s, ReleaseKey(s.disk.sessions, q)))
  {
  }

  lemma CreatedIsBorn(cfg: Config, s: State, u: nat, q: CreateRequest)
    requires DataInv(s) && s.writer.None? && u !in s.born && JudgeCreate(cfg, s.disk, q, s.now).Fresh?
    ensures var k := WithSessions(s, ReleaseKey(Expire(s.disk.sessions, s.now), q));
            OnlyBorn(k, DoCreate(cfg, s, u, q), u)
  {
  }

  lemma CreateKeeps(cfg: Config, s: State, u: nat, q: CreateRequest)
    requires Inv(cfg, s)
    ensures Inv(cfg, DoCreate(cfg, s, u, q))
  {
    if s.writer.None? {
      var e := WithSessions(s, Expire(s.disk.sessions, s.now));
      ExpireKeeps(cfg, s, s.now);
      if u !in s.born && JudgeCreate(cfg, s.disk, q, s.now).Fresh? {
        ReleaseKeeps(cfg, e, q);
        CreatedIsBorn(cfg, s, u, q);
        NewUploadInv(cfg, DoCreate(cfg, s, u, q), u, q);
        BornKeeps(cfg, WithSessions(s, ReleaseKey(e.disk.sessions, q)), DoCreate(cfg, s, u, q), u);
      }
    }
  }

  // ------------------------------- inline uploads, deletion and purge of files

  /** Only object slots and file rows outside every unfinished upload may differ. */
  ghost predicate OnlyFiles(s: State, t: State, p: nat, f: nat) {
    && t == s.(disk := s.disk.(objects := t.disk.objects, files := t.disk.files, free := t.disk.free),
               procs := t.procs, writer := t.writer)
    && (forall k: nat | k != f :: SameAt(s.disk.objects, t.disk.objects, k) && SameAt(s.disk.files, t.disk.files, k))
    && (forall q | q in t.procs && q != p :: q in s.procs && s.procs[q] == t.procs[q])
    && (forall q | q in s.procs && q != p :: q in t.procs)
    && (s.writer.Some? && s.writer.value != p ==> t.writer == s.writer && t.disk.files == s.disk.files)
    && (t.writer.Some? && t.writer.value != p ==> t.writer == s.writer)
    && (forall q | q in s.procs && q != p && s.procs[q].Inlining? :: s.procs[q].fid != f)
    && (p in s.procs ==> !HoldsInode(s.procs[p]))
    && (forall u | u in s.disk.sessions && s.disk.sessions[u].fileId == Some(f) ::
          s.disk.sessions[u].state != Completing)
  }

  lemma FilesStep(cfg: Config, s: State, t: State, p: nat, f: nat)
    requires Inv(cfg, s) && OnlyFiles(s, t, p, f) && StepperOk(cfg, t, p)
    requires t.writer == Some(p) ==> p in t.procs && t.procs[p].Inlining?
    requires forall u | u in s.disk.sessions && s.disk.sessions[u].fileId == Some(f) :: UploadInv(cfg, t, u)
    ensures Inv(cfg, t)
  {
    assert forall u, v :: SameFile(t.disk, u, v) <==> SameFile(s.disk, u, v);
    assert forall g, h :: SameOrigin(t, g, h) <==> SameOrigin(s, g, h);
    forall u | u in t.disk.sessions && s.disk.sessions[u].fileId != Some(f) ensures UploadInv(cfg, t, u) {
      assert UploadInv(cfg, s, u);
      UploadFrame(cfg, s, t, u);
    }
    forall q | q in t.procs && q != p ensures ProcInv(cfg, t, q) {
      FilesUndisturbed(cfg, s, t, p, f, q);
    }
  }

  lemma FilesUndisturbed(cfg: Config, s: State, t: State, p: nat, f: nat, q: nat)
    requires Inv(cfg, s) && OnlyFiles(s, t, p, f) && q in t.procs && q != p
    ensures ProcInv(cfg, t, q)
  {
    assert ProcInv(cfg, s, q);
    assert Undisturbed(s, t, q);
    ProcFrame(cfg, s, t, q);
  }

  lemma InlineBeginKeeps(cfg: Config, s: State, p: nat, fid: nat, data: seq<byte>)
    requires Inv(cfg, s)
    ensures Inv(cfg, DoInlineBegin(cfg, s, p, fid, data))
  {
    var t := DoInlineBegin(cfg, s, p, fid, data);
    if t.writer != s.writer {
      LocksStep(cfg, s, t, p);
    }
  }

  lemma WritesOnlyFiles(s: State, p: nat, k: nat)
    requires At(s, p) && s.procs[p].Inlining? && s.writer == Some(p)
    requires forall q | q in s.procs && q != p :: !s.procs[q].Inlining?
    requires forall u | u in s.disk.sessions :: s.disk.sessions[u].fileId != Some(s.procs[p].fid)
    ensures OnlyFiles(s, DoInlineWrite(s, p, k), p, s.procs[p].fid)
  {
  }

  lemma InlineWriteKeeps(cfg: Config, s: State, p: nat, k: nat)
    requires Inv(cfg, s)
    ensures Inv(cfg, DoInlineWrite(s, p, k))
  {
    if At(s, p) && s.procs[p].Inlining? && s.procs[p].spent + k <= |s.procs[p].data| && k != 0 {
      InlineAlone(cfg, s, p);
      SpentProc(cfg, s, p, k);
      WritesOnlyFiles(s, p, k);
      FilesStep(cfg, s, DoInlineWrite(s, p, k), p, s.procs[p].fid);
    }
  }

  lemma SpentProc(cfg: Config, s: State, p: nat, k: nat)
    requires Inv(cfg, s) && At(s, p) && s.procs[p].Inlining?
    ensures StepperOk(cfg, DoInlineWrite(s, p, k), p)
  {
    assert ProcInv(cfg, s, p);
  }

  lemma InlineAlone(cfg: Config, s: State, p: nat)
    requires Inv(cfg, s) && At(s, p) && s.procs[p].Inlining?
    ensures s.writer == Some(p)
    ensures forall q | q in s.procs && q != p :: !s.procs[q].Inlining?
    ensures forall u | u in s.disk.sessions :: s.disk.sessions[u].fileId != Some(s.procs[p].fid)
  {
    assert ProcInv(cfg, s, p);
    forall q | q in s.procs && q != p ensures !s.procs[q].Inlining? {
      assert ProcInv(cfg, s, q);
    }
  }

  lemma InlineAbortKeeps(cfg: Config, s: State, p: nat)
    requires Inv(cfg, s)
    ensures Inv(cfg, DoInlineAbort(s, p))
  {
    if At(s, p) && s.procs[p].Inlining? {
      InlineAlone(cfg, s, p);
      FilesStep(cfg, s, DoInlineAbort(s, p), p, s.procs[p].fid);
    }
  }

  lemma InlineCommitKeeps(cfg: Config, s: State, p: nat)
    requires Inv(cfg, s)
    ensures Inv(cfg, DoInlineCommit(cfg, s, p))
  {
    if At(s, p) && s.procs[p].Inlining? && s.procs[p].spent == |s.procs[p].data| {
      var pc := s.procs[p];
      InlineAlone(cfg, s, p);
      var f := Leave(s.(disk := s.disk.(files := s.disk.files[pc.fid := FileRow(|pc.data|, cfg.hash(pc.data), false)]),
                        writer := None), p);
      FilesStep(cfg, s, f, p, pc.fid);
      ExpireKeeps(cfg, f, pc.at);
    }
  }

  lemma DeleteRowKeeps(cfg: Config, s: State, fid: nat)
    requires Inv(cfg, s)
    ensures Inv(cfg, DoDeleteRow(s, fid))
  {
    if s.writer.None? && fid in s.disk.files {
      if !s.disk.files[fid].deleted {
        KeysDroppedKeeps(cfg, s, fid);
        MarkDeletedKeeps(cfg, WithSessions(s, DropKeys(s.disk.sessions, fid)), fid);
      }
    }
  }

  lemma KeysDroppedKeeps(cfg: Config, s: State, fid: nat)
    requires Inv(cfg, s) && s.writer.None? && fid in s.disk.files
    ensures Inv(cfg, WithSessions(s, DropKeys(s.disk.sessions, fid)))
  {
    NotClaimed(cfg, s, fid);
    FadeStep(cfg, s, WithSessions(s, DropKeys(s.disk.sessions, fid)));
  }

  lemma MarkDeletedKeeps(cfg: Config, s: State, fid: nat)
    requires Inv(cfg, s) && s.writer.None? && fid in s.disk.files
    ensures Inv(cfg, s.(disk := s.disk.(files := s.disk.files[fid := s.disk.files[fid].(deleted := true)])))
  {
    var t := s.(disk := s.disk.(files := s.disk.files[fid := s.disk.files[fid].(deleted := true)]));
    NotClaimed(cfg, s, fid);
    NoInliner(cfg, s);
    forall u | u in s.disk.sessions && s.disk.sessions[u].fileId == Some(fid) ensures UploadInv(cfg, t, u) {
      assert UploadInv(cfg, s, u);
    }
    FreeName(s.procs.Keys);
    var p: nat :| p !in s.procs.Keys;
    FilesStep(cfg, s, t, p, fid);
  }

  lemma NotClaimed(cfg: Config, s: State, fid: nat)
    requires Inv(cfg, s) && fid in s.disk.files
    ensures forall u | u in s.disk.sessions && s.disk.sessions[u].fileId == Some(fid) ::
              s.disk.sessions[u].state == Committed
    ensures forall q | q in s.procs && s.procs[q].Inlining? :: s.procs[q].fid != fid
  {
    forall u | u in s.disk.sessions && s.disk.sessions[u].fileId == Some(fid)
      ensures s.disk.sessions[u].state == Committed
    {
      assert UploadInv(cfg, s, u);
    }
    forall q | q in s.procs && s.procs[q].Inlining? ensures s.procs[q].fid != fid {
      assert ProcInv(cfg, s, q);
    }
  }

  lemma NoInliner(cfg: Config, s: State)
    requires Inv(cfg, s) && s.writer.None?
    ensures forall q | q in s.procs :: !s.procs[q].Inlining?
  {
    forall q | q in s.procs ensures !s.procs[q].Inlining? {
      assert ProcInv(cfg, s, q);
    }
  }

  lemma {:induction false} Bounded(names: set<nat>) returns (b: nat)
    ensures forall n | n in names :: n < b
    decreases |names|
  {
    if names == {} {
      b := 0;
    } else {
      var n :| n in names;
      b := Bounded(names - {n});
      assert names == (names - {n}) + {n};
      b := if n < b then b else n + 1;
    }
  }

  lemma FreeName(names: set<nat>)
    ensures exists p: nat :: p !in names
  {
    var b := Bounded(names);
    assert b !in names;
  }

  lemma DeleteObjectKeeps(cfg: Config, s: State, fid: nat)
    requires Inv(cfg, s)
    ensures Inv(cfg, DoDeleteObject(s, fid))
  {
    if fid in s.disk.files && s.disk.files[fid].deleted && fid in s.disk.objects {
      var t := DoDeleteObject(s, fid);
      NotClaimed(cfg, s, fid);
      forall u | u in s.disk.sessions && s.disk.sessions[u].fileId == Some(fid) ensures UploadInv(cfg, t, u) {
        assert UploadInv(cfg, s, u);
      }
      FreeName(s.procs.Keys);
      var p: nat :| p !in s.procs.Keys;
      FilesStep(cfg, s, t, p, fid);
    }
  }

  lemma PurgeRowKeeps(cfg: Config, s: State, fid: nat)
    requires Inv(cfg, s)
    ensures Inv(cfg, DoPurgeRow(s, fid))
  {
    if s.writer.None? && fid in s.disk.files && s.disk.files[fid].deleted && fid !in s.disk.objects {
      var t := DoPurgeRow(s, fid);
      NotClaimed(cfg, s, fid);
      PurgeTables(s, t);
      forall u | u in t.disk.sessions ensures UploadInv(cfg, t, u) {
        assert UploadInv(cfg, s, u);
        UploadFrame(cfg, s, t, u);
      }
      forall q | q in t.procs ensures ProcInv(cfg, t, q) {
        PurgeUndisturbed(cfg, s, fid, q);
      }
    }
  }

  /** Taking rows away breaks no uniqueness. */
  lemma PurgeTables(s: State, t: State)
    requires DataInv(s) && OriginInv(s)
    requires t == s.(disk := s.disk.(files := t.disk.files, sessions := t.disk.sessions))
    requires forall u | u in t.disk.sessions :: u in s.disk.sessions && t.disk.sessions[u] == s.disk.sessions[u]
    ensures DataInv(t) && OriginInv(t)
  {
    assert forall u, v | SameFile(t.disk, u, v) :: SameFile(s.disk, u, v);
    assert forall g, h :: SameOrigin(t, g, h) <==> SameOrigin(s, g, h);
  }

  lemma PurgeUndisturbed(cfg: Config, s: State, fid: nat, q: nat)
    requires Inv(cfg, s) && s.writer.None? && q in s.procs
    requires forall u | u in s.disk.sessions && s.disk.sessions[u].fileId == Some(fid) ::
               s.disk.sessions[u].state == Committed
    ensures ProcInv(cfg, DoPurgeRow(s, fid), q)
  {
    assert ProcInv(cfg, s, q);
    assert Undisturbed(s, DoPurgeRow(s, fid), q);
    ProcFrame(cfg, s, DoPurgeRow(s, fid), q);
  }

  // ------------------------------------------------------------------- runs

  predicate LockAction(a: Action) {
    a.OpenLock? || a.AcquireLock? || a.CheckTerminal? || a.UnlinkLock? || a.ReleaseLock?
  }

  /** What a step of this kind is, action by action. */
  lemma LockDoes(cfg: Config, s: State, a: Action)
    ensures a.OpenLock? ==> Do(cfg, s, a) == DoOpenLock(s, a.p, a.u, a.op)
    ensures a.AcquireLock? ==> Do(cfg, s, a) == DoAcquireLock(s, a.p)
    ensures a.CheckTerminal? ==> Do(cfg, s, a) == DoCheckTerminal(s, a.p)
    ensures a.UnlinkLock? ==> Do(cfg, s, a) == DoUnlinkLock(s, a.p)
    ensures a.ReleaseLock? ==> Do(cfg, s, a) == DoReleaseLock(s, a.p)
  {
  }

  lemma LockStepKeeps(cfg: Config, s: State, a: Action)
    requires Inv(cfg, s) && LockAction(a)
    ensures Inv(cfg, Do(cfg, s, a))
  {
    LockDoes(cfg, s, a);
    if a.OpenLock? {
      OpenLockKeeps(cfg, s, a.p, a.u, a.op);
    } else if a.AcquireLock? {
      AcquireLockKeeps(cfg, s, a.p);
    } else if a.CheckTerminal? {
      CheckTerminalKeeps(cfg, s, a.p);
    } else if a.UnlinkLock? {
      UnlinkLockKeeps(cfg, s, a.p);
    } else {
      ReleaseLockKeeps(cfg, s, a.p);
    }
  }

  predicate WriteAction(a: Action) {
    a.WriteBegin? || a.WriteTear? || a.WriteData? || a.WriteCommit? || a.WriteAbort?
  }

  lemma WriteDoes(cfg: Config, s: State, a: Action)
    ensures a.WriteBegin? ==> Do(cfg, s, a) == DoWriteBegin(cfg, s, a.p)
    ensures a.WriteTear? ==> Do(cfg, s, a) == DoWriteTear(s, a.p, a.junk)
    ensures a.WriteData? ==> Do(cfg, s, a) == DoWriteData(s, a.p)
    ensures a.WriteCommit? ==> Do(cfg, s, a) == DoWriteCommit(s, a.p)
    ensures a.WriteAbort? ==> Do(cfg, s, a) == DoWriteAbort(s, a.p)
  {
  }

  lemma WriteStepKeeps(cfg: Config, s: State, a: Action)
    requires Inv(cfg, s) && WriteAction(a)
    ensures Inv(cfg, Do(cfg, s, a))
  {
    WriteDoes(cfg, s, a);
    if a.WriteBegin? {
      WriteBeginKeeps(cfg, s, a.p);
    } else if a.WriteTear? {
      WriteTearKeeps(cfg, s, a.p, a.junk);
    } else if a.WriteData? {
      WriteDataKeeps(cfg, s, a.p);
    } else if a.WriteCommit? {
      WriteCommitKeeps(cfg, s, a.p);
    } else {
      WriteAbortKeeps(cfg, s, a.p);
    }
  }

  predicate CompleteAction(a: Action) {
    || a.CompleteLoad? || a.CompleteCheck? || a.CompleteMark? || a.CompleteClaim?
    || a.CompletePublish? || a.CompleteCommit? || a.RestartUnlink? || a.RestartReset?
  }

  lemma CompleteDoes(cfg: Config, s: State, a: Action)
    ensures a.CompleteLoad? ==> Do(cfg, s, a) == DoCompleteLoad(s, a.p)
    ensures a.CompleteCheck? ==> Do(cfg, s, a) == DoCompleteCheck(cfg, s, a.p)
    ensures a.CompleteMark? ==> Do(cfg, s, a) == DoCompleteMark(s, a.p)
    ensures a.CompleteClaim? ==> Do(cfg, s, a) == DoCompleteClaim(s, a.p, a.fid)
    ensures a.CompletePublish? ==> Do(cfg, s, a) == DoCompletePublish(cfg, s, a.p)
    ensures a.CompleteCommit? ==> Do(cfg, s, a) == DoCompleteCommit(s, a.p)
    ensures a.RestartUnlink? ==> Do(cfg, s, a) == DoRestartUnlink(s, a.p)
    ensures a.RestartReset? ==> Do(cfg, s, a) == DoRestartReset(s, a.p)
  {
  }

  lemma CompleteStepKeeps(cfg: Config, s: State, a: Action)
    requires Inv(cfg, s) && CompleteAction(a)
    ensures Inv(cfg, Do(cfg, s, a))
  {
    CompleteDoes(cfg, s, a);
    if a.CompleteLoad? {
      CompleteLoadKeeps(cfg, s, a.p);
    } else if a.CompleteCheck? {
      CompleteCheckKeeps(cfg, s, a.p);
    } else if a.CompleteMark? {
      CompleteMarkKeeps(cfg, s, a.p);
    } else if a.CompleteClaim? {
      CompleteClaimKeeps(cfg, s, a.p, a.fid);
    } else if a.CompletePublish? {
      CompletePublishKeeps(cfg, s, a.p);
    } else if a.CompleteCommit? {
      CompleteCommitKeeps(cfg, s, a.p);
    } else if a.RestartUnlink? {
      RestartKeeps(cfg, s, a.p);
    } else {
      RestartKeeps(cfg, s, a.p);
    }
  }

  predicate SweepAction(a: Action) {
    a.SweepSnapshot? || a.SweepPartial? || a.SweepLock? || a.SweepUnlink? || a.SweepEnd?
  }

  lemma SweepDoes(cfg: Config, s: State, a: Action)
    ensures a.SweepSnapshot? ==> Do(cfg, s, a) == DoSweepSnapshot(s, a.p, a.cutoff)
    ensures a.SweepPartial? ==> Do(cfg, s, a) == DoSweepPartial(s, a.p, a.u)
    ensures a.SweepLock? ==> Do(cfg, s, a) == DoSweepLock(s, a.p, a.u)
    ensures a.SweepUnlink? ==> Do(cfg, s, a) == DoSweepUnlink(s, a.p)
    ensures a.SweepEnd? ==> Do(cfg, s, a) == DoSweepEnd(s, a.p)
  {
  }

  lemma SweepStepKeeps(cfg: Config, s: State, a: Action)
    requires Inv(cfg, s) && SweepAction(a)
    ensures Inv(cfg, Do(cfg, s, a))
  {
    SweepDoes(cfg, s, a);
    if a.SweepSnapshot? {
      SweepSnapshotKeeps(cfg, s, a.p, a.cutoff);
    } else if a.SweepPartial? {
      SweepPartialKeeps(cfg, s, a.p, a.u);
    } else if a.SweepLock? {
      SweepLockKeeps(cfg, s, a.p, a.u);
    } else if a.SweepUnlink? {
      SweepUnlinkKeeps(cfg, s, a.p);
    } else {
      SweepEndKeeps(cfg, s, a.p);
    }
  }

  predicate FileAction(a: Action) {
    || a.InlineBegin? || a.InlineWrite? || a.InlineCommit? || a.InlineAbort?
    || a.DeleteRow? || a.DeleteObject? || a.PurgeRow?
  }

  lemma FileDoes(cfg: Config, s: State, a: Action)
    ensures a.InlineBegin? ==> Do(cfg, s, a) == DoInlineBegin(cfg, s, a.p, a.fid, a.data)
    ensures a.InlineWrite? ==> Do(cfg, s, a) == DoInlineWrite(s, a.p, a.k)
    ensures a.InlineCommit? ==> Do(cfg, s, a) == DoInlineCommit(cfg, s, a.p)
    ensures a.InlineAbort? ==> Do(cfg, s, a) == DoInlineAbort(s, a.p)
    ensures a.DeleteRow? ==> Do(cfg, s, a) == DoDeleteRow(s, a.fid)
    ensures a.DeleteObject? ==> Do(cfg, s, a) == DoDeleteObject(s, a.fid)
    ensures a.PurgeRow? ==> Do(cfg, s, a) == DoPurgeRow(s, a.fid)
  {
  }

  lemma DeleteStepKeeps(cfg: Config, s: State, a: Action)
    requires Inv(cfg, s) && (a.DeleteRow? || a.DeleteObject? || a.PurgeRow?)
    ensures Inv(cfg, Do(cfg, s, a))
  {
    FileDoes(cfg, s, a);
    if a.DeleteRow? {
      DeleteRowKeeps(cfg, s, a.fid);
    } else if a.DeleteObject? {
      DeleteObjectKeeps(cfg, s, a.fid);
    } else {
      PurgeRowKeeps(cfg, s, a.fid);
    }
  }

  lemma FileStepKeeps(cfg: Config, s: State, a: Action)
    requires Inv(cfg, s) && FileAction(a)
    ensures Inv(cfg, Do(cfg, s, a))
  {
    FileDoes(cfg, s, a);
    if a.InlineBegin? {
      InlineBeginKeeps(cfg, s, a.p, a.fid, a.data);
    } else if a.InlineWrite? {
      InlineWriteKeeps(cfg, s, a.p, a.k);
    } else if a.InlineCommit? {
      InlineCommitKeeps(cfg, s, a.p);
    } else if a.InlineAbort? {
      InlineAbortKeeps(cfg, s, a.p);
    } else {
      DeleteStepKeeps(cfg, s, a);
    }
  }

  /** Whatever step any process takes, or wherever it dies, the invariant survives. */
  lemma StepKeeps(cfg: Config, s: State, a: Action)
    requires Inv(cfg, s)
    ensures Inv(cfg, Do(cfg, s, a))
  {
    if LockAction(a) {
      LockStepKeeps(cfg, s, a);
    } else if WriteAction(a) {
      WriteStepKeeps(cfg, s, a);
    } else if CompleteAction(a) {
      CompleteStepKeeps(cfg, s, a);
    } else if SweepAction(a) {
      SweepStepKeeps(cfg, s, a);
    } else if FileAction(a) {
      FileStepKeeps(cfg, s, a);
    } else {
      match a
      case Tick(dt) => TickKeeps(cfg, s, dt);
      case ListStale => ListKeeps(cfg, s);
      case Create(u, q) => CreateKeeps(cfg, s, u, q);
      case Cancel(u, source) => CancelKeeps(cfg, s, u, source);
      case Crash(p) => CrashKeeps(cfg, s, p);
    }
  }

  lemma {:induction false} RunKeeps(cfg: Config, s: State, actions: seq<Action>)
    requires Inv(cfg, s)
    ensures Inv(cfg, Run(cfg, s, actions))
    decreases |actions|
  {
    if actions != [] {
      StepKeeps(cfg, s, actions[0]);
      RunKeeps(cfg, Do(cfg, s, actions[0]), actions[1..]);
    }
  }
}
