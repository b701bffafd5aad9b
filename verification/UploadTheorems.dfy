/**
 What the upload engine promises, over every run from an empty vault: any interleaving of
 any number of processes, each of which may die at any file or database effect.
 */
module UploadTheorems {
  import opened Prelude
  import opened Sums
  import opened UploadModel
  import opened UploadMachine
  import opened UploadInvariant
  import opened UploadSteps
  import opened UploadCapacity

  ghost function Reached(cfg: Config, free: nat, actions: seq<Action>): State {
    Run(cfg, Initial(free), actions)
  }

  lemma ReachedInv(cfg: Config, free: nat, actions: seq<Action>)
    ensures Inv(cfg, Reached(cfg, free, actions))
  {
    InitialInv(cfg, free);
    RunKeeps(cfg, Initial(free), actions);
  }

  // --------------------------------------------------------------- the bytes

  /**
   The chunks on record tile [0, verified) exactly, each digest is that of the partial's own
   bytes at that place, and the partial begins with the acknowledged bytes in order.
   */
  lemma ChunksTileThePartial(cfg: Config, free: nat, actions: seq<Action>, u: nat)
    requires OpenIn(Reached(cfg, free, actions).disk, u)
    ensures var s := Reached(cfg, free, actions);
            var x := s.disk.sessions[u];
            var bytes := PartialBytes(s.disk, u);
            && Tiles(x.chunks, x.verified)
            && DigestsMatch(cfg.hash, x.chunks, bytes)
            && u in s.accepted
            && x.verified <= |bytes| <= x.total
            && bytes[..x.verified] == s.accepted[u]
  {
    ReachedInv(cfg, free, actions);
    var s := Reached(cfg, free, actions);
    var x := s.disk.sessions[u];
    assert UploadInv(cfg, s, u);
    assert OpenInv(cfg, s.disk, s.accepted[u], u);
    var bytes := PartialBytes(s.disk, u);
    forall k | k in x.chunks
      ensures RangeHas(cfg.hash, bytes, x.chunks[k].offset, x.chunks[k].count, x.chunks[k].digest)
    {
      var c := x.chunks[k];
      assert bytes[c.offset..c.offset + c.count] == s.accepted[u][c.offset..c.offset + c.count];
    }
  }

  /** The only steps that write the history of ids and acknowledged bytes. */
  predicate Records(a: Action) {
    a.Create? || a.WriteCommit? || a.RestartReset?
  }

  predicate SameHistory(s: State, t: State) {
    t.born == s.born && t.accepted == s.accepted
  }

  lemma LocksKeepHistory(cfg: Config, s: State, a: Action)
    requires LockAction(a)
    ensures SameHistory(s, Do(cfg, s, a))
  {
    LockDoes(cfg, s, a);
  }

  lemma SweepKeepsHistory(cfg: Config, s: State, a: Action)
    requires SweepAction(a)
    ensures SameHistory(s, Do(cfg, s, a))
  {
    SweepDoes(cfg, s, a);
  }

  lemma WriteKeepsHistory(cfg: Config, s: State, a: Action)
    requires WriteAction(a) && !Records(a)
    ensures SameHistory(s, Do(cfg, s, a))
  {
    WriteDoes(cfg, s, a);
    if a.WriteBegin? {
      BeginKeepsHistory(cfg, s, a.p);
    }
  }

  lemma BeginKeepsHistory(cfg: Config, s: State, p: nat)
    ensures SameHistory(s, DoWriteBegin(cfg, s, p))
  {
  }

  lemma CheckKeepsHistory(cfg: Config, s: State, p: nat)
    ensures SameHistory(s, DoCompleteCheck(cfg, s, p))
  {
  }

  lemma PublishKeepsHistory(cfg: Config, s: State, p: nat)
    ensures SameHistory(s, DoCompletePublish(cfg, s, p))
  {
  }

  lemma CompleteKeepsHistory(cfg: Config, s: State, a: Action)
    requires CompleteAction(a) && !Records(a)
    ensures SameHistory(s, Do(cfg, s, a))
  {
    CompleteDoes(cfg, s, a);
    if a.CompleteCheck? {
      CheckKeepsHistory(cfg, s, a.p);
    } else if a.CompletePublish? {
      PublishKeepsHistory(cfg, s, a.p);
    }
  }

  lemma FilesKeepHistory(cfg: Config, s: State, a: Action)
    requires FileAction(a)
    ensures SameHistory(s, Do(cfg, s, a))
  {
    FileDoes(cfg, s, a);
  }

  lemma HistoryStays(cfg: Config, s: State, a: Action)
    requires !Records(a)
    ensures SameHistory(s, Do(cfg, s, a))
  {
    if LockAction(a) {
      LocksKeepHistory(cfg, s, a);
    } else if SweepAction(a) {
      SweepKeepsHistory(cfg, s, a);
    } else if WriteAction(a) {
      WriteKeepsHistory(cfg, s, a);
    } else if CompleteAction(a) {
      CompleteKeepsHistory(cfg, s, a);
    } else if FileAction(a) {
      FilesKeepHistory(cfg, s, a);
    }
  }

  /** Bytes once acknowledged stay acknowledged, in place, whatever happens next. */
  lemma AcknowledgedStay(cfg: Config, s: State, a: Action, u: nat)
    requires Inv(cfg, s) && u in s.accepted
    ensures u in Do(cfg, s, a).accepted && s.accepted[u] <= Do(cfg, s, a).accepted[u]
  {
    if !Records(a) {
      HistoryStays(cfg, s, a);
    } else if a.Create? {
      assert u in s.born;
    } else if a.RestartReset? {
      RestartKeeps(cfg, s, a.p);
    } else {
      CommitAcknowledges(cfg, s, a.p, u);
    }
  }

  lemma CommitAcknowledges(cfg: Config, s: State, p: nat, u: nat)
    requires Inv(cfg, s) && u in s.accepted
    ensures u in DoWriteCommit(s, p).accepted && s.accepted[u] <= DoWriteCommit(s, p).accepted[u]
  {
    if At(s, p) {
      assert ProcInv(cfg, s, p);
    }
  }

  // ---------------------------------------------------------- exactly once

  /** A committed upload's file row and object are what its sender declared. */
  lemma CommittedMatches(cfg: Config, free: nat, actions: seq<Action>, u: nat)
    requires var s := Reached(cfg, free, actions);
             u in s.disk.sessions && s.disk.sessions[u].state == Committed
    ensures var s := Reached(cfg, free, actions);
            var x := s.disk.sessions[u];
            && u in s.accepted && |s.accepted[u]| == x.total && cfg.hash(s.accepted[u]) == x.expected
            && x.fileId.Some? && x.fileId.value in s.disk.files
            && s.disk.files[x.fileId.value].size == x.total
            && s.disk.files[x.fileId.value].digest == x.expected
            && (!s.disk.files[x.fileId.value].deleted ==>
                  x.fileId.value in s.disk.objects
                  && s.disk.objects[x.fileId.value] == s.accepted[u])
  {
    ReachedInv(cfg, free, actions);
    assert UploadInv(cfg, Reached(cfg, free, actions), u);
  }

  /** Over the whole run, deleted and purged files included, an upload makes one file row. */
  lemma OneFilePerUpload(cfg: Config, free: nat, actions: seq<Action>, f: nat, g: nat)
    requires var s := Reached(cfg, free, actions);
             f in s.origin && g in s.origin && s.origin[f] == s.origin[g]
    ensures f == g
  {
    ReachedInv(cfg, free, actions);
    assert SameOrigin(Reached(cfg, free, actions), f, g);
  }

  // ------------------------------------------------------- the state graph

  /** How one row may change in one step: the edges of the upload's state graph. */
  predicate Moves(x: Session, y: Session) {
    && SameDeclaration(x, y)
    && (|| (y.state == x.state && y.fileId == x.fileId)
        || (Open(x.state) && y.state != Committed && (y.state == Completing || y.fileId == x.fileId))
        || (x.state == Completing && y.state == Committed && y.fileId == x.fileId)
        || (x.state in {Expired, FailedTerminal} && y.state == Cancelled && y.fileId == x.fileId))
  }

  /** What the sender declared never changes; a dead upload may give up its create key. */
  predicate SameDeclaration(x: Session, y: Session) {
    && y.total == x.total && y.expected == x.expected
    && y.source == x.source && y.request == x.request
    && (y.createKey == x.createKey
        || (y.createKey.None? && y.state in {Cancelled, Expired, FailedTerminal}))
  }

  /** The upload is committed and its file has been deleted. */
  predicate FileDeleted(d: Disk, x: Session) {
    x.state == Committed && x.fileId.Some? && x.fileId.value in d.files && d.files[x.fileId.value].deleted
  }

  /** Deleting the file of a committed upload takes its create key. */
  predicate KeyDropped(d: Disk, x: Session, y: Session) {
    y == x.(createKey := None) && FileDeleted(d, y)
  }

  /** Only a committed upload may disappear, and no id comes back. */
  ghost predicate RowMoves(s: State, t: State, u: nat) {
    if u in s.disk.sessions && u in t.disk.sessions then
      Moves(s.disk.sessions[u], t.disk.sessions[u]) || KeyDropped(t.disk, s.disk.sessions[u], t.disk.sessions[u])
    else if u in s.disk.sessions then s.disk.sessions[u].state == Committed
    else u in s.born ==> u !in t.disk.sessions
  }

  lemma ExpiryMoves(d: map<nat, Session>, at: nat, u: nat)
    requires u in d
    ensures Moves(d[u], Expire(d, at)[u]) && Moves(d[u], ExpireStates(d, at)[u])
  {
  }

  lemma BornMoves(d: Disk, n: nat, q: CreateRequest, now: nat, u: nat)
    requires q.total > 0 && u != n
    ensures u in WithNewSession(d, n, q, now).sessions <==> u in d.sessions
    ensures u in d.sessions ==> Moves(d.sessions[u], WithNewSession(d, n, q, now).sessions[u])
  {
  }

  lemma ReusedMoves(s: State, u: nat)
    ensures RowMoves(s, s.(disk := s.disk.(sessions := Expire(s.disk.sessions, s.now))), u)
  {
    if u in s.disk.sessions {
      ExpiryMoves(s.disk.sessions, s.now, u);
    }
  }

  lemma CreateMoves(cfg: Config, s: State, n: nat, q: CreateRequest, u: nat)
    requires u in s.born
    ensures RowMoves(s, DoCreate(cfg, s, n, q), u)
  {
    if s.writer.Some? || JudgeCreate(cfg, s.disk, q, s.now).CreateError? {
      SameRowsMove(s, s, u);
    } else if JudgeCreate(cfg, s.disk, q, s.now).Reused? {
      ReusedMoves(s, u);
    } else if n in s.born {
      SameRowsMove(s, s, u);
    } else {
      BornMoves(s.disk, n, q, s.now, u);
    }
  }

  lemma CancelMoves(s: State, n: nat, source: Source, u: nat)
    ensures RowMoves(s, DoCancel(s, n, source), u)
  {
    if s.writer.None? && CancelError(s.disk, n, source).None? {
      CancelRowMoves(s.disk, n, source, u);
    }
  }

  lemma CancelRowMoves(d: Disk, n: nat, source: Source, u: nat)
    requires CancelError(d, n, source).None?
    ensures u in CancelRow(d, n).sessions <==> u in d.sessions
    ensures u in d.sessions ==> Moves(d.sessions[u], CancelRow(d, n).sessions[u])
  {
  }

  lemma JudgedRows(cfg: Config, d: Disk, u: nat, q: WriteRequest, now: nat)
    ensures var e := JudgeWrite(cfg, d, u, q, now).disk;
            e.sessions == d.sessions || e.sessions == Expire(d.sessions, now)
  {
  }

  lemma WriteBeginMoves(cfg: Config, s: State, p: nat, u: nat)
    ensures RowMoves(s, DoWriteBegin(cfg, s, p), u)
  {
    if At(s, p) && s.procs[p].Ready? && s.procs[p].op.WriteOp? && s.writer.None? {
      JudgedRows(cfg, s.disk, s.procs[p].u, s.procs[p].op.q, s.now);
      JudgedTime(cfg, s, p);
      if u in s.disk.sessions {
        ExpiryMoves(s.disk.sessions, s.now, u);
      }
    }
  }

  lemma WriteCommitMoves(cfg: Config, s: State, p: nat, u: nat)
    requires At(s, p) ==> ProcInv(cfg, s, p)
    ensures RowMoves(s, DoWriteCommit(s, p), u)
  {
  }

  lemma LoadedRows(s: State, p: nat)
    ensures var t := DoCompleteLoad(s, p);
            t.disk.sessions == s.disk.sessions || t.disk.sessions == Expire(s.disk.sessions, s.now)
  {
    if At(s, p) && s.procs[p].Ready? && !s.procs[p].op.WriteOp? && s.writer.None? {
      var s1 := Expire(s.disk.sessions, s.now);
      var pc := s.procs[p];
      if pc.u !in s1 || (pc.op.CompleteOp? && s1[pc.u].source != pc.op.source) {
        assert DoCompleteLoad(s, p).disk == s.disk;
      } else {
        assert DoCompleteLoad(s, p).disk.sessions == s1;
      }
    } else {
      assert DoCompleteLoad(s, p) == s;
    }
  }

  lemma CompleteLoadMoves(s: State, p: nat, u: nat)
    ensures RowMoves(s, DoCompleteLoad(s, p), u)
  {
    LoadedRows(s, p);
    if DoCompleteLoad(s, p).disk.sessions == s.disk.sessions {
      SameRowsMove(s, DoCompleteLoad(s, p), u);
    } else if u in s.disk.sessions {
      ExpiryMoves(s.disk.sessions, s.now, u);
    }
  }

  lemma CompleteMarkMoves(cfg: Config, s: State, p: nat, u: nat)
    requires At(s, p) ==> ProcInv(cfg, s, p)
    ensures RowMoves(s, DoCompleteMark(s, p), u)
  {
  }

  lemma CompleteClaimMoves(s: State, p: nat, fid: nat, u: nat)
    ensures RowMoves(s, DoCompleteClaim(s, p, fid), u)
  {
  }

  lemma CompleteCommitMoves(s: State, p: nat, u: nat)
    ensures RowMoves(s, DoCompleteCommit(s, p), u)
  {
  }

  lemma SweepSnapshotMoves(s: State, p: nat, cutoff: nat, u: nat)
    ensures RowMoves(s, DoSweepSnapshot(s, p, cutoff), u)
  {
    if p in s.procs || s.writer.Some? || cutoff > s.now {
      SameRowsMove(s, s, u);
    } else {
      assert DoSweepSnapshot(s, p, cutoff).disk.sessions == ExpireStates(s.disk.sessions, s.now);
      if u in s.disk.sessions {
        ExpiryMoves(s.disk.sessions, s.now, u);
      }
    }
  }

  lemma InlineCommitMoves(cfg: Config, s: State, p: nat, u: nat)
    ensures RowMoves(s, DoInlineCommit(cfg, s, p), u)
  {
  }

  lemma PurgeRowMoves(cfg: Config, s: State, fid: nat, u: nat)
    requires Inv(cfg, s)
    ensures RowMoves(s, DoPurgeRow(s, fid), u)
  {
    if s.writer.None? && fid in s.disk.files {
      NotClaimed(cfg, s, fid);
    }
  }

  lemma DeleteRowMoves(cfg: Config, s: State, fid: nat, u: nat)
    requires Inv(cfg, s)
    ensures RowMoves(s, DoDeleteRow(s, fid), u)
  {
    if s.writer.None? && fid in s.disk.files {
      NotClaimed(cfg, s, fid);
      DroppedMoves(s, DoDeleteRow(s, fid), fid, u);
    }
  }

  lemma DroppedMoves(s: State, t: State, fid: nat, u: nat)
    requires s.writer.None? && fid in s.disk.files && t == DoDeleteRow(s, fid)
    requires u in s.disk.sessions && s.disk.sessions[u].fileId == Some(fid) ==> s.disk.sessions[u].state == Committed
    ensures RowMoves(s, t, u)
  {
  }

  /** Lock steps and file effects leave every row alone. */
  lemma SameRowsMove(s: State, t: State, u: nat)
    requires t.disk.sessions == s.disk.sessions
    ensures RowMoves(s, t, u)
  {
  }

  lemma LocksKeepRows(cfg: Config, s: State, a: Action)
    requires LockAction(a)
    ensures Do(cfg, s, a).disk.sessions == s.disk.sessions
  {
  }

  lemma SweepKeepsRows(cfg: Config, s: State, a: Action)
    requires SweepAction(a) && !a.SweepSnapshot?
    ensures Do(cfg, s, a).disk.sessions == s.disk.sessions
  {
  }

  lemma SweepStepMoves(cfg: Config, s: State, a: Action, u: nat)
    requires SweepAction(a)
    ensures RowMoves(s, Do(cfg, s, a), u)
  {
    SweepDoes(cfg, s, a);
    if a.SweepSnapshot? {
      SweepSnapshotMoves(s, a.p, a.cutoff, u);
    } else {
      SweepKeepsRows(cfg, s, a);
      SameRowsMove(s, Do(cfg, s, a), u);
    }
  }

  lemma WriteStepMoves(cfg: Config, s: State, a: Action, u: nat)
    requires WriteAction(a) && (At(s, a.p) ==> ProcInv(cfg, s, a.p))
    ensures RowMoves(s, Do(cfg, s, a), u)
  {
    WriteDoes(cfg, s, a);
    if a.WriteBegin? {
      WriteBeginMoves(cfg, s, a.p, u);
    } else if a.WriteCommit? {
      WriteCommitMoves(cfg, s, a.p, u);
    } else {
      SameRowsMove(s, Do(cfg, s, a), u);
    }
  }

  lemma CompletersKeepRows(cfg: Config, s: State, a: Action)
    requires a.CompleteCheck? || a.RestartUnlink?
    ensures Do(cfg, s, a).disk.sessions == s.disk.sessions
  {
  }

  lemma PublishKeepsRows(cfg: Config, s: State, p: nat)
    ensures DoCompletePublish(cfg, s, p).disk.sessions == s.disk.sessions
  {
  }

  lemma CompleteStepMoves(cfg: Config, s: State, a: Action, u: nat)
    requires CompleteAction(a) && (At(s, a.p) ==> ProcInv(cfg, s, a.p))
    requires DoRestartReset(s, a.p) == s
    ensures RowMoves(s, Do(cfg, s, a), u)
  {
    CompleteDoes(cfg, s, a);
    if a.CompleteLoad? {
      CompleteLoadMoves(s, a.p, u);
    } else if a.CompleteMark? {
      CompleteMarkMoves(cfg, s, a.p, u);
    } else if a.CompleteClaim? {
      CompleteClaimMoves(s, a.p, a.fid, u);
    } else if a.CompleteCommit? {
      CompleteCommitMoves(s, a.p, u);
    } else if a.CompletePublish? {
      PublishKeepsRows(cfg, s, a.p);
      SameRowsMove(s, Do(cfg, s, a), u);
    } else if !a.RestartReset? {
      CompletersKeepRows(cfg, s, a);
      SameRowsMove(s, Do(cfg, s, a), u);
    }
  }

  lemma FilesKeepRows(cfg: Config, s: State, a: Action)
    requires FileAction(a) && !a.InlineCommit? && !a.PurgeRow? && !a.DeleteRow?
    ensures Do(cfg, s, a).disk.sessions == s.disk.sessions
  {
    FileDoes(cfg, s, a);
  }

  lemma FileStepMoves(cfg: Config, s: State, a: Action, u: nat)
    requires Inv(cfg, s) && u in s.born && FileAction(a)
    ensures RowMoves(s, Do(cfg, s, a), u)
  {
    FileDoes(cfg, s, a);
    if a.PurgeRow? {
      PurgeRowMoves(cfg, s, a.fid, u);
    } else if a.DeleteRow? {
      DeleteRowMoves(cfg, s, a.fid, u);
    } else if a.InlineCommit? {
      InlineCommitMoves(cfg, s, a.p, u);
    } else {
      FilesKeepRows(cfg, s, a);
      SameRowsMove(s, Do(cfg, s, a), u);
    }
  }

  lemma OtherStepMoves(cfg: Config, s: State, a: Action, u: nat)
    requires u in s.born && (a.Create? || a.Cancel? || a.Crash? || a.Tick? || a.ListStale?)
    ensures RowMoves(s, Do(cfg, s, a), u)
  {
    if a.Create? {
      CreateMoves(cfg, s, a.u, a.request, u);
    } else if a.Cancel? {
      CancelMoves(s, a.u, a.source, u);
    } else {
      SameRowsMove(s, Do(cfg, s, a), u);
    }
  }

  /** Every step of every process follows the state graph. */
  lemma EveryStepMoves(cfg: Config, s: State, a: Action, u: nat)
    requires Inv(cfg, s) && u in s.born
    ensures RowMoves(s, Do(cfg, s, a), u)
  {
    if LockAction(a) {
      LocksKeepRows(cfg, s, a);
      SameRowsMove(s, Do(cfg, s, a), u);
    } else if SweepAction(a) {
      SweepStepMoves(cfg, s, a, u);
    } else if WriteAction(a) {
      assert At(s, a.p) ==> ProcInv(cfg, s, a.p);
      WriteStepMoves(cfg, s, a, u);
    } else if CompleteAction(a) {
      assert At(s, a.p) ==> ProcInv(cfg, s, a.p);
      RestartKeeps(cfg, s, a.p);
      CompleteStepMoves(cfg, s, a, u);
    } else if FileAction(a) {
      FileStepMoves(cfg, s, a, u);
    } else {
      OtherStepMoves(cfg, s, a, u);
    }
  }

  lemma BornStays(cfg: Config, s: State, a: Action)
    ensures s.born <= Do(cfg, s, a).born
  {
    if !Records(a) {
      HistoryStays(cfg, s, a);
    }
  }

  /** A terminal upload stays terminal; committed and cancelled are final for good. */
  lemma {:induction false} TerminalStaysOverRuns(cfg: Config, s: State, actions: seq<Action>, u: nat)
    requires Inv(cfg, s) && u in s.born && !LiveIn(s.disk, u)
    ensures var t := Run(cfg, s, actions);
            && !LiveIn(t.disk, u)
            && (u !in s.disk.sessions ==> u !in t.disk.sessions)
            && (u in t.disk.sessions && s.disk.sessions[u].state in {Committed, Cancelled} ==>
                  t.disk.sessions[u].state == s.disk.sessions[u].state)
    decreases |actions|
  {
    if actions != [] {
      EveryStepMoves(cfg, s, actions[0], u);
      BornStays(cfg, s, actions[0]);
      StepKeeps(cfg, s, actions[0]);
      TerminalStaysOverRuns(cfg, Do(cfg, s, actions[0]), actions[1..], u);
    }
  }

  predicate ClaimedAs(s: State, u: nat, fid: nat) {
    u in s.disk.sessions && s.disk.sessions[u].state in {Completing, Committed}
    && s.disk.sessions[u].fileId == Some(fid)
  }

  /**
   Claiming is the point of no return: neither cancellation, expiry, a sweep, a crash nor
   stale recovery takes the upload back, and it keeps its file id until its committed file
   is purged. So of complete and cancel at most one wins.
   */
  lemma {:induction false} ClaimIsFinal(cfg: Config, s: State, actions: seq<Action>, u: nat, fid: nat)
    requires Inv(cfg, s) && u in s.born
    requires u !in s.disk.sessions || ClaimedAs(s, u, fid)
    ensures var t := Run(cfg, s, actions);
            u !in t.disk.sessions || ClaimedAs(t, u, fid)
    decreases |actions|
  {
    if actions != [] {
      EveryStepMoves(cfg, s, actions[0], u);
      BornStays(cfg, s, actions[0]);
      StepKeeps(cfg, s, actions[0]);
      ClaimIsFinal(cfg, Do(cfg, s, actions[0]), actions[1..], u, fid);
    }
  }

  predicate CancelledIn(s: State, u: nat) {
    u in s.disk.sessions && s.disk.sessions[u].state == Cancelled
  }

  lemma {:induction false} CancelledStays(cfg: Config, s: State, actions: seq<Action>, u: nat)
    requires Inv(cfg, s) && CancelledIn(s, u)
    ensures CancelledIn(Run(cfg, s, actions), u)
    decreases |actions|
  {
    if actions != [] {
      EveryStepMoves(cfg, s, actions[0], u);
      StepKeeps(cfg, s, actions[0]);
      CancelledStays(cfg, Do(cfg, s, actions[0]), actions[1..], u);
    }
  }

  lemma CancelDecides(s: State, u: nat, source: Source)
    requires s.writer.None? && u in s.disk.sessions && s.disk.sessions[u].source == source
    ensures var t := DoCancel(s, u, source);
            if s.disk.sessions[u].state in {Completing, Committed} then t == s else CancelledIn(t, u)
  {
  }

  /**
   A cancel by the sender either comes too late and changes nothing, exactly when the upload is
   claimed or committed, or it is final: the upload stays cancelled whatever happens next.
   */
  lemma CancelIsFinal(cfg: Config, s: State, u: nat, source: Source, later: seq<Action>)
    requires Inv(cfg, s) && s.writer.None? && u in s.disk.sessions && s.disk.sessions[u].source == source
    ensures var t := Do(cfg, s, Cancel(u, source));
            if s.disk.sessions[u].state in {Completing, Committed} then t == s
            else CancelledIn(Run(cfg, t, later), u)
  {
    CancelDecides(s, u, source);
    if s.disk.sessions[u].state !in {Completing, Committed} {
      CancelKeeps(cfg, s, u, source);
      CancelledStays(cfg, DoCancel(s, u, source), later, u);
    }
  }

  // --------------------------------------------------------------- the locks

  /** A process that has opened, or holds, the lock file of an upload. */
  predicate UsesLock(s: State, p: nat, u: nat) {
    At(s, p) && HasUpload(s.procs[p]) && s.procs[p].u == u
  }

  /**
   Completers and the sweeper unlink lock files that others may have opened. Still, while an
   upload lives, all its users have opened one inode and at most one of them is inside.
   */
  lemma OneLockWhileLive(cfg: Config, free: nat, actions: seq<Action>, p: nat, q: nat, u: nat)
    requires var s := Reached(cfg, free, actions);
             UsesLock(s, p, u) && UsesLock(s, q, u) && LiveIn(s.disk, u)
    ensures var s := Reached(cfg, free, actions);
            && s.procs[p].inode == s.procs[q].inode
            && (HoldsInode(s.procs[p]) && HoldsInode(s.procs[q]) ==> p == q)
  {
    ReachedInv(cfg, free, actions);
    var s := Reached(cfg, free, actions);
    assert ProcInv(cfg, s, p) && ProcInv(cfg, s, q);
    assert !s.procs[p].SweepHolding? && !s.procs[q].SweepHolding?;
    assert SharesLock(s, u, s.procs[p].inode) && SharesLock(s, u, s.procs[q].inode);
  }

  // ------------------------------------------------------- finishing a claim

  predicate LockFree(s: State, u: nat) {
    u in s.locks ==> s.locks[u].inode !in s.flocks
  }

  /** The steps of one undisturbed call to complete an upload that is already claimed. */
  function Retry(p: nat, u: nat, source: Source): seq<Action> {
    [OpenLock(p, u, CompleteOp(source)), AcquireLock(p)] + Finish(p)
  }

  function Finish(p: nat): seq<Action> {
    [CompleteLoad(p), CompleteCheck(p), CompletePublish(p), CompleteCommit(p)]
  }

  lemma RunSix(cfg: Config, s: State, a: Action, b: Action, c: Action, d: Action, e: Action, f: Action)
    ensures Run(cfg, s, [a, b, c, d, e, f]) ==
              Do(cfg, Do(cfg, Do(cfg, Do(cfg, Do(cfg, Do(cfg, s, a), b), c), d), e), f)
  {
    var s1 := Do(cfg, s, a);
    var s2 := Do(cfg, s1, b);
    var s3 := Do(cfg, s2, c);
    assert [a, b, c, d, e, f][1..] == [b, c, d, e, f] && [b, c, d, e, f][1..] == [c, d, e, f];
    assert [c, d, e, f][1..] == [d, e, f] && [d, e, f][1..] == [e, f] && [e, f][1..] == [f];
    assert Run(cfg, s, [a, b, c, d, e, f]) == Run(cfg, s1, [b, c, d, e, f]);
    assert Run(cfg, s1, [b, c, d, e, f]) == Run(cfg, s2, [c, d, e, f]) == Run(cfg, s3, [d, e, f]);
    RunThree(cfg, s3, d, e, f);
  }

  lemma RunThree(cfg: Config, s: State, d: Action, e: Action, f: Action)
    ensures Run(cfg, s, [d, e, f]) == Do(cfg, Do(cfg, Do(cfg, s, d), e), f)
  {
    var s1 := Do(cfg, s, d);
    var s2 := Do(cfg, s1, e);
    assert [d, e, f][1..] == [e, f] && [e, f][1..] == [f] && [f][1..] == [];
    assert Run(cfg, s, [d, e, f]) == Run(cfg, s1, [e, f]) == Run(cfg, s2, [f]);
    assert Run(cfg, s2, [f]) == Run(cfg, Do(cfg, s2, f), []);
  }

  predicate CanRetry(s: State, p: nat, u: nat, source: Source, fid: nat) {
    && s.writer.None? && p !in s.procs && LockFree(s, u)
    && u in s.disk.sessions && s.disk.sessions[u].state == Completing
    && s.disk.sessions[u].fileId == Some(fid) && s.disk.sessions[u].source == source
  }

  lemma RetryLocks(cfg: Config, s: State, p: nat, u: nat, source: Source, fid: nat)
    requires Inv(cfg, s) && CanRetry(s, p, u, source, fid)
    ensures var t := DoAcquireLock(DoOpenLock(s, p, u, CompleteOp(source)), p);
            && At(t, p) && t.procs[p].Ready? && t.procs[p].u == u && t.procs[p].op == CompleteOp(source)
            && t.disk == s.disk && t.writer.None?
  {
    assert UploadInv(cfg, s, u);
    var w := DoOpenLock(s, p, u, CompleteOp(source));
    assert w.disk == s.disk && At(w, p) && w.procs[p].Waiting?;
    forall i | i in s.flocks ensures i < s.nextInode {
      assert ProcInv(cfg, s, s.flocks[i]);
    }
  }

  /** A claimed upload does not expire, so a retry loads it as it stands. */
  lemma RetryLoads(s: State, p: nat, u: nat, source: Source)
    requires At(s, p) && s.procs[p].Ready? && s.procs[p].u == u && s.procs[p].op == CompleteOp(source)
    requires s.writer.None? && u in s.disk.sessions
    requires s.disk.sessions[u].state == Completing && s.disk.sessions[u].source == source
    ensures var t := DoCompleteLoad(s, p);
            && At(t, p) && t.procs[p].Loaded? && t.procs[p].u == u && t.writer.None?
            && u in t.disk.sessions && t.procs[p].snap == t.disk.sessions[u] == s.disk.sessions[u]
  {
  }

  lemma RetryPublishes(cfg: Config, t: State, p: nat, u: nat, fid: nat)
    requires Inv(cfg, t) && At(t, p) && t.procs[p].Loaded? && t.procs[p].u == u && t.writer.None?
    requires u in t.disk.sessions && t.procs[p].snap == t.disk.sessions[u]
    requires t.disk.sessions[u].state == Completing && t.disk.sessions[u].fileId == Some(fid)
    ensures var v := DoCompletePublish(cfg, DoCompleteCheck(cfg, t, p), p);
            && At(v, p) && v.procs[p].Published? && v.procs[p].u == u && v.procs[p].fid == fid
            && v.writer.None? && u in v.disk.sessions && v.disk.sessions[u] == t.disk.sessions[u]
            && fid !in v.disk.files
  {
    assert UploadInv(cfg, t, u);
    assert CompletingInv(cfg, t.disk, t.accepted[u], u);
  }

  lemma RetryCommits(v: State, p: nat, u: nat, fid: nat)
    requires At(v, p) && v.procs[p].Published? && v.procs[p].u == u && v.procs[p].fid == fid
    requires v.writer.None? && u in v.disk.sessions && fid !in v.disk.files
    requires v.disk.sessions[u].state == Completing && v.disk.sessions[u].fileId == Some(fid)
    ensures CommittedAs(DoCompleteCommit(v, p).disk, u, fid)
  {
  }

  predicate CommittedAs(d: Disk, u: nat, fid: nat) {
    && u in d.sessions && d.sessions[u].state == Committed && d.sessions[u].fileId == Some(fid)
    && fid in d.files && d.files[fid] == FileRow(d.sessions[u].total, d.sessions[u].expected, false)
  }

  lemma RunTwo(cfg: Config, s: State, a: Action, b: Action, rest: seq<Action>)
    ensures Run(cfg, s, [a, b] + rest) == Run(cfg, Do(cfg, Do(cfg, s, a), b), rest)
  {
    assert ([a, b] + rest)[1..] == [b] + rest && ([b] + rest)[1..] == rest;
    assert Run(cfg, s, [a, b] + rest) == Run(cfg, Do(cfg, s, a), [b] + rest);
  }

  lemma RunRetry(cfg: Config, s: State, p: nat, u: nat, source: Source)
    ensures var s2 := DoAcquireLock(DoOpenLock(s, p, u, CompleteOp(source)), p);
            Run(cfg, s, Retry(p, u, source)) == Run(cfg, s2, Finish(p))
  {
    assert Retry(p, u, source) == [OpenLock(p, u, CompleteOp(source)), AcquireLock(p)] + Finish(p);
    RunTwo(cfg, s, OpenLock(p, u, CompleteOp(source)), AcquireLock(p), Finish(p));
  }

  lemma RunFinish(cfg: Config, s: State, p: nat)
    ensures Run(cfg, s, Finish(p)) ==
              DoCompleteCommit(DoCompletePublish(cfg, DoCompleteCheck(cfg, DoCompleteLoad(s, p), p), p), p)
  {
    assert Finish(p) == [CompleteLoad(p), CompleteCheck(p)] + [CompletePublish(p), CompleteCommit(p)];
    RunTwo(cfg, s, CompleteLoad(p), CompleteCheck(p), [CompletePublish(p), CompleteCommit(p)]);
    RunPublish(cfg, DoCompleteCheck(cfg, DoCompleteLoad(s, p), p), p);
  }

  lemma RunPublish(cfg: Config, s: State, p: nat)
    ensures Run(cfg, s, [CompletePublish(p), CompleteCommit(p)]) ==
              DoCompleteCommit(DoCompletePublish(cfg, s, p), p)
  {
    assert [CompletePublish(p), CompleteCommit(p)] == [CompletePublish(p), CompleteCommit(p)] + [];
    RunTwo(cfg, s, CompletePublish(p), CompleteCommit(p), []);
  }

  /**
   Wherever a claimed completion died, one undisturbed retry by the sender ends with the
   upload committed under the file id it was claimed with.
   */
  lemma RetryCompletes(cfg: Config, free: nat, actions: seq<Action>, p: nat, u: nat, source: Source, fid: nat)
    requires CanRetry(Reached(cfg, free, actions), p, u, source, fid)
    ensures CommittedAs(Run(cfg, Reached(cfg, free, actions), Retry(p, u, source)).disk, u, fid)
  {
    ReachedInv(cfg, free, actions);
    var s := Reached(cfg, free, actions);
    var s2 := DoAcquireLock(DoOpenLock(s, p, u, CompleteOp(source)), p);
    var s3 := DoCompleteLoad(s2, p);
    OpenLockKeeps(cfg, s, p, u, CompleteOp(source));
    AcquireLockKeeps(cfg, DoOpenLock(s, p, u, CompleteOp(source)), p);
    CompleteLoadKeeps(cfg, s2, p);
    RetryLocks(cfg, s, p, u, source, fid);
    RetryLoads(s2, p, u, source);
    RetryPublishes(cfg, s3, p, u, fid);
    RetryCommits(DoCompletePublish(cfg, DoCompleteCheck(cfg, s3, p), p), p, u, fid);
    RunRetry(cfg, s, p, u, source);
    RunFinish(cfg, s2, p);
  }

  // -------------------------------------------------------- idempotent create

  /** What holds the key before a fresh create is dead, and so gives the key up. */
  lemma KeyReleased(cfg: Config, d: Disk, q: CreateRequest, now: nat, h: nat)
    requires KeysUnique(d) && JudgeCreate(cfg, d, q, now).Fresh? && h in d.sessions
    ensures !HoldsKey(ReleaseKey(Expire(d.sessions, now), q)[h], q)
  {
    var s1 := Expire(d.sessions, now);
    if HoldsKey(s1[h], q) {
      forall g: nat | g in s1 && HoldsKey(s1[g], q) ensures g == h {
        assert SameKey(d, g, h);
      }
    }
  }

  lemma FreshKey(cfg: Config, s: State, n: nat, q: CreateRequest)
    requires KeysUnique(s.disk) && n !in s.born && n !in s.disk.sessions && q.total > 0
    requires JudgeCreate(cfg, s.disk, q, s.now).Fresh?
    ensures KeysUnique(WithNewSession(s.disk, n, q, s.now))
  {
    var e := WithNewSession(s.disk, n, q, s.now);
    var r := ReleaseKey(Expire(s.disk.sessions, s.now), q);
    forall u: nat | u in s.disk.sessions ensures !HoldsKey(r[u], q) {
      KeyReleased(cfg, s.disk, q, s.now, u);
    }
    forall u: nat, v: nat | SameKey(e, u, v) ensures u == v {
      if u != n && v != n {
        assert SameKey(s.disk, u, v);
      }
    }
  }

  lemma StepKeepsKeys(cfg: Config, s: State, a: Action)
    requires Inv(cfg, s) && KeysUnique(s.disk)
    ensures KeysUnique(Do(cfg, s, a).disk)
  {
    var t := Do(cfg, s, a);
    if a.Create? && s.writer.None? && a.u !in s.born && JudgeCreate(cfg, s.disk, a.request, s.now).Fresh? {
      FreshKey(cfg, s, a.u, a.request);
    } else {
      NothingBorn(cfg, s, a);
      StepKeeps(cfg, s, a);
      forall u: nat, v: nat | SameKey(t.disk, u, v) ensures u == v {
        EveryStepMoves(cfg, s, a, u);
        EveryStepMoves(cfg, s, a, v);
        KeysMove(s, t, u, v);
      }
    }
  }

  /** A key still held was held before: only dead uploads give theirs up, and none takes one. */
  lemma KeysMove(s: State, t: State, u: nat, v: nat)
    requires KeysUnique(s.disk) && SameKey(t.disk, u, v) && u in s.born && v in s.born
    requires RowMoves(s, t, u) && RowMoves(s, t, v)
    ensures u == v
  {
    assert SameKey(s.disk, u, v);
  }

  lemma NothingBorn(cfg: Config, s: State, a: Action)
    requires !(a.Create? && s.writer.None? && a.u !in s.born && JudgeCreate(cfg, s.disk, a.request, s.now).Fresh?)
    ensures Do(cfg, s, a).born == s.born
  {
    if !Records(a) {
      HistoryStays(cfg, s, a);
    }
  }

  lemma {:induction false} RunKeepsKeys(cfg: Config, s: State, actions: seq<Action>)
    requires Inv(cfg, s) && KeysUnique(s.disk)
    ensures KeysUnique(Run(cfg, s, actions).disk)
    decreases |actions|
  {
    if actions != [] {
      StepKeeps(cfg, s, actions[0]);
      StepKeepsKeys(cfg, s, actions[0]);
      RunKeepsKeys(cfg, Do(cfg, s, actions[0]), actions[1..]);
    }
  }

  // ---------------------------------------------------------- repeated creates

  lemma LocksKeepFiles(cfg: Config, s: State, a: Action)
    requires LockAction(a)
    ensures Do(cfg, s, a).disk.files == s.disk.files
  {
    LockDoes(cfg, s, a);
  }

  lemma SweepsKeepFiles(cfg: Config, s: State, a: Action)
    requires SweepAction(a)
    ensures Do(cfg, s, a).disk.files == s.disk.files
  {
    SweepDoes(cfg, s, a);
  }

  lemma WritesKeepFiles(cfg: Config, s: State, a: Action)
    requires WriteAction(a)
    ensures Do(cfg, s, a).disk.files == s.disk.files
  {
    WriteDoes(cfg, s, a);
    if a.WriteBegin? && At(s, a.p) && s.procs[a.p].Ready? && s.procs[a.p].op.WriteOp? && s.writer.None? {
      JudgedTime(cfg, s, a.p);
      JudgedFiles(cfg, s.disk, s.procs[a.p].u, s.procs[a.p].op.q, s.now);
    }
  }

  lemma JudgedFiles(cfg: Config, d: Disk, u: nat, q: WriteRequest, now: nat)
    ensures JudgeWrite(cfg, d, u, q, now).disk.files == d.files
  {
  }

  lemma CompletersKeepFiles(cfg: Config, s: State, a: Action)
    requires CompleteAction(a) && !a.CompleteCommit?
    ensures Do(cfg, s, a).disk.files == s.disk.files
  {
    CompleteDoes(cfg, s, a);
    if a.CompleteCheck? {
      CheckIsQuiet(cfg, s, a.p);
    } else if a.CompletePublish? {
      PublishKeepsFiles(cfg, s, a.p);
    }
  }

  lemma PublishKeepsFiles(cfg: Config, s: State, p: nat)
    ensures DoCompletePublish(cfg, s, p).disk.files == s.disk.files
  {
  }

  lemma CommitFiles(s: State, p: nat, f: nat)
    ensures var t := DoCompleteCommit(s, p);
            && (f in s.disk.files ==> f in t.disk.files && t.disk.files[f] == s.disk.files[f])
            && (f in t.disk.files && f !in s.disk.files ==> !t.disk.files[f].deleted)
  {
  }

  lemma InlineFiles(cfg: Config, s: State, p: nat, f: nat)
    requires Inv(cfg, s)
    ensures var t := DoInlineCommit(cfg, s, p);
            && (f in s.disk.files ==> f in t.disk.files && t.disk.files[f] == s.disk.files[f])
            && (f in t.disk.files && f !in s.disk.files ==> !t.disk.files[f].deleted)
  {
    if At(s, p) && s.procs[p].Inlining? {
      assert ProcInv(cfg, s, p);
    }
  }

  lemma DeletedFiles(cfg: Config, s: State, a: Action, f: nat)
    requires FileAction(a) && !a.InlineCommit? && f in Do(cfg, s, a).disk.files
    ensures f in s.disk.files
    ensures Do(cfg, s, a).disk.files[f] == s.disk.files[f]
         || (a == DeleteRow(f) && s.writer.None? && !s.disk.files[f].deleted && Do(cfg, s, a).disk.files[f].deleted)
  {
    FileDoes(cfg, s, a);
  }

  /** A file row is made undeleted, and only its deletion changes it. */
  lemma MostKeepFiles(cfg: Config, s: State, a: Action)
    requires !a.CompleteCommit? && !FileAction(a)
    ensures Do(cfg, s, a).disk.files == s.disk.files
  {
    if LockAction(a) {
      LocksKeepFiles(cfg, s, a);
    } else if SweepAction(a) {
      SweepsKeepFiles(cfg, s, a);
    } else if WriteAction(a) {
      WritesKeepFiles(cfg, s, a);
    } else if CompleteAction(a) {
      CompletersKeepFiles(cfg, s, a);
    }
  }

  lemma FilesMove(cfg: Config, s: State, a: Action, f: nat)
    requires Inv(cfg, s) && f in Do(cfg, s, a).disk.files
    ensures f !in s.disk.files ==> !Do(cfg, s, a).disk.files[f].deleted
    ensures f in s.disk.files ==>
              || Do(cfg, s, a).disk.files[f] == s.disk.files[f]
              || (a == DeleteRow(f) && s.writer.None? && !s.disk.files[f].deleted)
    ensures f in s.disk.files && s.disk.files[f].deleted ==> Do(cfg, s, a).disk.files[f].deleted
  {
    if a.CompleteCommit? {
      CommitFiles(s, a.p, f);
    } else if a.InlineCommit? {
      InlineFiles(cfg, s, a.p, f);
    } else if FileAction(a) {
      DeletedFiles(cfg, s, a, f);
    } else {
      MostKeepFiles(cfg, s, a);
    }
  }

  predicate Dead(st: UploadState) {
    st in {Cancelled, Expired, FailedTerminal}
  }

  /** The row of an upload made for this request: it has the key until it dies or its file is deleted. */
  predicate KeyFits(d: Disk, u: nat, q: CreateRequest) {
    u in d.sessions ==>
      var x := d.sessions[u];
      && SameRequest(x, q) && x.source == q.source
      && (x.createKey == q.key || x.createKey.None?)
      && (x.createKey.None? ==> Dead(x.state) || FileDeleted(d, x))
      && (FileDeleted(d, x) ==> x.createKey.None?)
  }

  lemma DeletedOn(s: State, t: State, u: nat)
    requires RowMoves(s, t, u) && u in s.disk.sessions && u in t.disk.sessions
    requires FileDeleted(s.disk, s.disk.sessions[u])
    requires var f := s.disk.sessions[u].fileId.value; f in t.disk.files && t.disk.files[f].deleted
    ensures FileDeleted(t.disk, t.disk.sessions[u])
  {
  }

  lemma KeepsItsFile(cfg: Config, s: State, u: nat)
    requires Inv(cfg, s) && u in s.disk.sessions && s.disk.sessions[u].state == Committed
    ensures s.disk.sessions[u].fileId.Some? && s.disk.sessions[u].fileId.value in s.disk.files
  {
    assert UploadInv(cfg, s, u);
  }

  lemma CommittedOn(s: State, t: State, u: nat)
    requires RowMoves(s, t, u) && u in s.disk.sessions && u in t.disk.sessions
    requires s.disk.sessions[u].state == Committed
    ensures t.disk.sessions[u].state == Committed && t.disk.sessions[u].fileId == s.disk.sessions[u].fileId
  {
  }

  lemma FileDeletedStays(cfg: Config, s: State, a: Action, u: nat)
    requires Inv(cfg, s) && u in s.disk.sessions && u in Do(cfg, s, a).disk.sessions
    requires RowMoves(s, Do(cfg, s, a), u) && FileDeleted(s.disk, s.disk.sessions[u])
    ensures FileDeleted(Do(cfg, s, a).disk, Do(cfg, s, a).disk.sessions[u])
  {
    var t := Do(cfg, s, a);
    CommittedOn(s, t, u);
    StepKeeps(cfg, s, a);
    KeepsItsFile(cfg, t, u);
    FilesMove(cfg, s, a, s.disk.sessions[u].fileId.value);
    DeletedOn(s, t, u);
  }

  /** A file that turns out deleted behind a committed upload has just been, or had been already. */
  /** A row that did not change its file was committed before, or the deletion took its key. */
  lemma DeletionComesOn(s: State, t: State, a: Action, u: nat, f: nat)
    requires u in s.disk.sessions && u in t.disk.sessions && RowMoves(s, t, u)
    requires FileDeleted(t.disk, t.disk.sessions[u]) && t.disk.sessions[u].fileId == Some(f)
    requires f !in s.disk.files ==> !t.disk.files[f].deleted
    requires f in s.disk.files ==>
               t.disk.files[f] == s.disk.files[f] || (a == DeleteRow(f) && s.writer.None? && !s.disk.files[f].deleted)
    requires s.disk.sessions[u].state != Committed ==> f !in s.disk.files || !s.disk.files[f].deleted
    requires a == DeleteRow(f) ==> t == DoDeleteRow(s, f)
    ensures FileDeleted(s.disk, s.disk.sessions[u]) || t.disk.sessions[u].createKey.None?
  {
  }

  lemma FileDeletedComes(cfg: Config, s: State, a: Action, u: nat)
    requires Inv(cfg, s) && u in s.disk.sessions && u in Do(cfg, s, a).disk.sessions
    requires RowMoves(s, Do(cfg, s, a), u)
    requires FileDeleted(Do(cfg, s, a).disk, Do(cfg, s, a).disk.sessions[u])
    ensures FileDeleted(s.disk, s.disk.sessions[u]) || Do(cfg, s, a).disk.sessions[u].createKey.None?
  {
    var t := Do(cfg, s, a);
    var f := t.disk.sessions[u].fileId.value;
    assert UploadInv(cfg, s, u);
    FilesMove(cfg, s, a, f);
    DeletionComesOn(s, t, a, u, f);
  }

  lemma KeyFitsOn(s: State, t: State, u: nat, q: CreateRequest)
    requires KeyFits(s.disk, u, q) && RowMoves(s, t, u) && u in s.disk.sessions && u in t.disk.sessions
    requires FileDeleted(s.disk, s.disk.sessions[u]) ==> FileDeleted(t.disk, t.disk.sessions[u])
    requires FileDeleted(t.disk, t.disk.sessions[u]) ==>
               FileDeleted(s.disk, s.disk.sessions[u]) || t.disk.sessions[u].createKey.None?
    ensures KeyFits(t.disk, u, q)
  {
  }

  lemma StepKeepsKey(cfg: Config, s: State, a: Action, u: nat, q: CreateRequest)
    requires Inv(cfg, s) && u in s.born && KeyFits(s.disk, u, q)
    ensures KeyFits(Do(cfg, s, a).disk, u, q)
  {
    var t := Do(cfg, s, a);
    EveryStepMoves(cfg, s, a, u);
    if u in t.disk.sessions {
      if FileDeleted(s.disk, s.disk.sessions[u]) {
        FileDeletedStays(cfg, s, a, u);
      }
      if FileDeleted(t.disk, t.disk.sessions[u]) {
        FileDeletedComes(cfg, s, a, u);
      }
      KeyFitsOn(s, t, u, q);
    }
  }

  lemma {:induction false} RunKeepsKey(cfg: Config, s: State, actions: seq<Action>, u: nat, q: CreateRequest)
    requires Inv(cfg, s) && u in s.born && q.key.Some? && KeyFits(s.disk, u, q)
    ensures KeyFits(Run(cfg, s, actions).disk, u, q)
    decreases |actions|
  {
    if actions != [] {
      StepKeepsKey(cfg, s, actions[0], u, q);
      StepKeeps(cfg, s, actions[0]);
      BornStays(cfg, s, actions[0]);
      RunKeepsKey(cfg, Do(cfg, s, actions[0]), actions[1..], u, q);
    }
  }

  /** The upload is alive at this time, or committed with its file still there. */
  predicate StillAnswers(d: Disk, now: nat, u: nat) {
    u in d.sessions && !Dead(ExpiredOne(d.sessions[u], now).state) && !FileDeleted(d, d.sessions[u])
  }

  lemma KeyAnswers(cfg: Config, d: Disk, now: nat, u: nat, q: CreateRequest)
    requires KeysUnique(d) && KeyFits(d, u, q) && q.key.Some? && CheckCreate(cfg, q).None?
    ensures JudgeCreate(cfg, d, q, now) == Reused(u) <==> StillAnswers(d, now, u)
  {
    var s1 := Expire(d.sessions, now);
    if StillAnswers(d, now, u) {
      assert HoldsKey(s1[u], q);
      forall g: nat | g in s1 && HoldsKey(s1[g], q) ensures g == u {
        assert SameKey(d, g, u);
      }
    }
  }

  /** Once nobody answers a request any more, it makes a new upload if there is room. */
  lemma FreedKeyIsFresh(cfg: Config, d: Disk, now: nat, u: nat, q: CreateRequest)
    requires KeyFits(d, u, q) && q.key.Some? && CheckCreate(cfg, q).None? && !StillAnswers(d, now, u)
    requires forall v | v in d.sessions && v != u :: !HoldsKey(d.sessions[v], q)
    ensures JudgeCreate(cfg, d, q, now) ==
              if HasCapacity(cfg, d.free, Expire(d.sessions, now), q.total) then Fresh
              else CreateError("insufficient_storage")
  {
    var s1 := Expire(d.sessions, now);
    forall g: nat | g in s1 && HoldsKey(s1[g], q) ensures g == u && Dead(s1[u].state) {
      assert HoldsKey(d.sessions[g], q);
    }
  }

  /**
   After a create with a key, at any point of any later run, repeating the request answers that
   upload exactly while it is alive, or committed with its file undeleted. Afterwards, unless a
   later upload has taken the key, the request makes a new upload if there is room.
   */
  lemma CreateReplays(cfg: Config, free: nat, actions: seq<Action>, u: nat, q: CreateRequest, later: seq<Action>)
    requires var s := Reached(cfg, free, actions);
             s.writer.None? && u !in s.born && q.key.Some? && JudgeCreate(cfg, s.disk, q, s.now).Fresh?
    ensures var t := Run(cfg, Do(cfg, Reached(cfg, free, actions), Create(u, q)), later);
            && (JudgeCreate(cfg, t.disk, q, t.now) == Reused(u) <==> StillAnswers(t.disk, t.now, u))
            && (!StillAnswers(t.disk, t.now, u)
                && (forall v | v in t.disk.sessions && v != u :: !HoldsKey(t.disk.sessions[v], q)) ==>
                  JudgeCreate(cfg, t.disk, q, t.now) ==
                    if HasCapacity(cfg, t.disk.free, Expire(t.disk.sessions, t.now), q.total) then Fresh
                    else CreateError("insufficient_storage"))
  {
    var s := Reached(cfg, free, actions);
    var c := Do(cfg, s, Create(u, q));
    var t := Run(cfg, c, later);
    ReachedInv(cfg, free, actions);
    InitialInv(cfg, free);
    RunKeepsKeys(cfg, Initial(free), actions);
    CreatedFits(cfg, s, u, q);
    StepKeeps(cfg, s, Create(u, q));
    StepKeepsKeys(cfg, s, Create(u, q));
    RunKeepsKeys(cfg, c, later);
    RunKeepsKey(cfg, c, later, u, q);
    KeyAnswers(cfg, t.disk, t.now, u, q);
    if !StillAnswers(t.disk, t.now, u) && forall v | v in t.disk.sessions && v != u :: !HoldsKey(t.disk.sessions[v], q) {
      FreedKeyIsFresh(cfg, t.disk, t.now, u, q);
    }
  }

  lemma CreatedFits(cfg: Config, s: State, u: nat, q: CreateRequest)
    requires s.writer.None? && u !in s.born && q.key.Some? && JudgeCreate(cfg, s.disk, q, s.now).Fresh?
    ensures CheckCreate(cfg, q).None? && u in Do(cfg, s, Create(u, q)).born
    ensures KeyFits(Do(cfg, s, Create(u, q)).disk, u, q)
  {
  }

  // ----------------------------------------------------------------- capacity

  /**
   With at least the reserve free to begin with, the free space plus what the next write
   would truncate always covers the reserve, the bytes every unfinished upload may still
   send and the rest of an inline upload in progress, counted as the next transaction counts
   them: after it has expired what is overdue.
   */
  lemma CapacityIsConserved(cfg: Config, free: nat, actions: seq<Action>)
    requires free >= cfg.reserve
    ensures var s := Reached(cfg, free, actions);
            && s.disk.free >= cfg.reserve + Granted(s)
            && s.disk.free + Truncatable(AfterExpiry(s))
                 >= cfg.reserve + Reserved(AfterExpiry(s).sessions) + Granted(s)
  {
    InitialInv(cfg, free);
    RunCap(cfg, Initial(free), actions);
    var s := Reached(cfg, free, actions);
    CapacityMeaning(cfg, s);
    ReserveIsKept(cfg, s, TransactionTime(s));
  }

  /** No open upload's lease has run out unnoticed. */
  predicate NothingOverdue(s: State) {
    forall u | u in s.disk.sessions && Open(s.disk.sessions[u].state) ::
      s.disk.sessions[u].expiresAt > TransactionTime(s)
  }

  lemma ExpiryCountsOne(s: State, u: nat)
    requires NothingOverdue(s) && u in s.disk.sessions
    ensures u in AfterExpiry(s).sessions
    ensures Remaining(AfterExpiry(s).sessions[u]) == Remaining(s.disk.sessions[u])
    ensures Overhang(AfterExpiry(s), u) == Overhang(s.disk, u)
  {
  }

  lemma ExpiryCountsTheSame(s: State)
    requires NothingOverdue(s)
    ensures RemainingMap(AfterExpiry(s).sessions) == RemainingMap(s.disk.sessions)
    ensures OverhangMap(AfterExpiry(s)) == OverhangMap(s.disk)
  {
    forall u | u in s.disk.sessions
      ensures Remaining(AfterExpiry(s).sessions[u]) == Remaining(s.disk.sessions[u])
      ensures Overhang(AfterExpiry(s), u) == Overhang(s.disk, u)
    {
      ExpiryCountsOne(s, u);
    }
  }

  /** As long as nothing is overdue, the table as it stands may be counted. */
  lemma CapacityWhileNothingIsOverdue(cfg: Config, free: nat, actions: seq<Action>)
    requires free >= cfg.reserve && NothingOverdue(Reached(cfg, free, actions))
    ensures var s := Reached(cfg, free, actions);
            s.disk.free + Truncatable(s.disk) >= cfg.reserve + Reserved(s.disk.sessions) + Granted(s)
  {
    CapacityIsConserved(cfg, free, actions);
    ExpiryCountsTheSame(Reached(cfg, free, actions));
  }

  /** Counting the table as it stands, overdue open uploads included. */
  ghost predicate PlainBound(cfg: Config, s: State) {
    s.disk.free + Truncatable(s.disk) >= cfg.reserve + Reserved(s.disk.sessions) + Granted(s)
  }

  lemma PlainIsFits(cfg: Config, s: State)
    ensures PlainBound(cfg, s) <==> Fits(cfg, s, -1)
  {
    PlainSums(s.disk);
  }

  /** There is room for so many bytes beside the uploads of the table, overdue ones included. */
  ghost predicate RoomBeside(cfg: Config, s: State, additional: nat) {
    s.disk.free + Truncatable(s.disk) >= cfg.reserve + Reserved(s.disk.sessions) + Granted(s) + additional
  }

  /**
   Only granting an inline upload can break the plain bound, and it keeps it exactly if there is
   room beside the table: the test of the code without the expiry before it.
   */
  lemma StepKeepsPlainBound(cfg: Config, s: State, a: Action)
    requires Inv(cfg, s) && PlainBound(cfg, s)
    ensures PlainBound(cfg, Do(cfg, s, a)) <==> (Grants(cfg, s, a) ==> RoomBeside(cfg, s, |a.data|))
  {
    PlainIsFits(cfg, s);
    PlainIsFits(cfg, Do(cfg, s, a));
    PlainSums(s.disk);
    StepFits(cfg, s, a, -1);
  }

  lemma PlainBoundBreaksAtGrants(cfg: Config, free: nat, actions: seq<Action>, a: Action)
    requires PlainBound(cfg, Reached(cfg, free, actions))
    ensures var s := Reached(cfg, free, actions);
            PlainBound(cfg, Do(cfg, s, a)) <==> (Grants(cfg, s, a) ==> RoomBeside(cfg, s, |a.data|))
  {
    ReachedInv(cfg, free, actions);
    StepKeepsPlainBound(cfg, Reached(cfg, free, actions), a);
  }

  ghost predicate PlainThroughout(cfg: Config, s: State, actions: seq<Action>)
    decreases |actions|
  {
    PlainBound(cfg, s) && (actions == [] || PlainThroughout(cfg, Do(cfg, s, actions[0]), actions[1..]))
  }

  ghost predicate EveryGrantHasRoom(cfg: Config, s: State, actions: seq<Action>)
    decreases |actions|
  {
    actions == []
    || (&& (Grants(cfg, s, actions[0]) ==> RoomBeside(cfg, s, |actions[0].data|))
        && EveryGrantHasRoom(cfg, Do(cfg, s, actions[0]), actions[1..]))
  }

  lemma {:induction false} PlainRuns(cfg: Config, s: State, actions: seq<Action>)
    requires Inv(cfg, s) && PlainBound(cfg, s)
    ensures PlainThroughout(cfg, s, actions) <==> EveryGrantHasRoom(cfg, s, actions)
    decreases |actions|
  {
    if actions != [] {
      StepKeeps(cfg, s, actions[0]);
      StepKeepsPlainBound(cfg, s, actions[0]);
      if PlainBound(cfg, Do(cfg, s, actions[0])) {
        PlainRuns(cfg, Do(cfg, s, actions[0]), actions[1..]);
      }
    }
  }

  /** So the plain bound holds at every point of a run exactly if every grant in it had room. */
  lemma PlainBoundOverRuns(cfg: Config, free: nat, actions: seq<Action>)
    requires free >= cfg.reserve
    ensures PlainThroughout(cfg, Initial(free), actions) <==> EveryGrantHasRoom(cfg, Initial(free), actions)
  {
    InitialInv(cfg, free);
    assert PlainBound(cfg, Initial(free));
    PlainRuns(cfg, Initial(free), actions);
  }

  /** A vault of five bytes in which an overdue upload and a dead inline upload meet. */
  function OverdueRun(): seq<Action> {
    [Create(0, CreateRequest(5, "", Source("", ""), None, "", 60)), Tick(60),
     InlineBegin(0, 0, [0, 0, 0, 0, 0]), InlineWrite(0, 5), Crash(0), Tick(0)]
  }

  lemma OverdueCreated(cfg: Config, q: CreateRequest)
    requires cfg.reserve == 0 && cfg.limit >= 5 && q == OverdueRun()[0].request
    ensures Do(cfg, Initial(5), Create(0, q)).disk == Initial(5).disk.(sessions := map[0 := NewSession(q, 0)])
    ensures Do(cfg, Initial(5), Create(0, q)).writer.None? && Do(cfg, Initial(5), Create(0, q)).procs == map[]
    ensures Do(cfg, Initial(5), Create(0, q)).now == 0 && Do(cfg, Initial(5), Create(0, q)).origin == map[]
  {
    assert Expire(map[], 0) == map[] && RemainingMap(map[]) == map[];
    assert JudgeCreate(cfg, Initial(5).disk, q, 0).Fresh?;
    assert ReleaseKey(map[], q) == map[];
  }

  lemma OverdueGranted(cfg: Config, s: State, q: CreateRequest)
    requires cfg.reserve == 0 && q == OverdueRun()[0].request && s.now == 60
    requires s.disk == Initial(5).disk.(sessions := map[0 := NewSession(q, 0)])
    requires s.writer.None? && s.procs == map[] && s.origin == map[]
    ensures var t := Do(cfg, s, InlineBegin(0, 0, [0, 0, 0, 0, 0]));
            t.disk == s.disk && t.procs == map[0 := Inlining(0, [0, 0, 0, 0, 0], 60, 0)]
  {
    OverdueHasRoom(cfg, s.disk, q);
    assert FreshFile(s.disk, 0);
  }

  lemma OverdueHasRoom(cfg: Config, d: Disk, q: CreateRequest)
    requires cfg.reserve == 0 && q == OverdueRun()[0].request
    requires d.free == 5 && d.sessions == map[0 := NewSession(q, 0)]
    ensures HasCapacity(cfg, d.free, Expire(d.sessions, 60), 5)
  {
    var e := Expire(d.sessions, 60);
    assert e[0].state == Expired;
    assert RemainingMap(e) == map[][0 := 0];
    SumPut(map[], 0, 0);
  }

  lemma OverdueSpent(cfg: Config, s: State, q: CreateRequest, data: seq<byte>)
    requires q == OverdueRun()[0].request && |data| == 5 && s.procs == map[0 := Inlining(0, data, 60, 0)]
    requires s.disk == Initial(5).disk.(sessions := map[0 := NewSession(q, 0)])
    ensures var t := Do(cfg, Do(cfg, Do(cfg, s, InlineWrite(0, 5)), Crash(0)), Tick(0));
            t.disk.free == 0 && t.disk.sessions == s.disk.sessions && t.disk.partials == map[]
  {
    WrittenAndCrashed(cfg, s);
    OverdueWritten(s, data);
  }

  lemma WrittenAndCrashed(cfg: Config, s: State)
    ensures Do(cfg, Do(cfg, Do(cfg, s, InlineWrite(0, 5)), Crash(0)), Tick(0)).disk
         == DoCrash(DoInlineWrite(s, 0, 5), 0).disk
  {
  }

  lemma OverdueWritten(s: State, data: seq<byte>)
    requires |data| == 5 && s.procs == map[0 := Inlining(0, data, 60, 0)] && s.disk.free == 5
    ensures var t := DoCrash(DoInlineWrite(s, 0, 5), 0);
            && t.disk.free == 0 && t.disk.sessions == s.disk.sessions && t.disk.partials == s.disk.partials
  {
  }

  lemma OverdueReached(cfg: Config, q: CreateRequest)
    requires cfg.reserve == 0 && cfg.limit >= 5 && q == OverdueRun()[0].request
    ensures var s := Reached(cfg, 5, OverdueRun());
            s.disk.sessions == map[0 := NewSession(q, 0)] && s.disk.free == 0 && s.disk.partials == map[]
  {
    var data: seq<byte> := [0, 0, 0, 0, 0];
    var s2 := Do(cfg, Do(cfg, Initial(5), Create(0, q)), Tick(60));
    RunSix(cfg, Initial(5), Create(0, q), Tick(60), InlineBegin(0, 0, data), InlineWrite(0, 5), Crash(0), Tick(0));
    OverdueCreated(cfg, q);
    OverdueGranted(cfg, s2, q);
    OverdueSpent(cfg, Do(cfg, s2, InlineBegin(0, 0, data)), q, data);
  }

  lemma OverdueSums(d: Disk, q: CreateRequest)
    requires q == OverdueRun()[0].request
    requires d.sessions == map[0 := NewSession(q, 0)] && d.partials == map[]
    ensures Truncatable(d) == 0 && Reserved(d.sessions) == 5
  {
    assert RemainingMap(d.sessions) == map[][0 := 5];
    assert OverhangMap(d) == map[][0 := 0];
    SumPut(map[], 0, 5);
    SumPut(map[], 0, 0);
  }

  /**
   Counting an upload whose lease has run out as well would be wrong: the space it reserved
   may already have been granted again by a transaction that then rolled its expiry back.
   */
  lemma OverdueUploadsDoNotCount(cfg: Config)
    requires cfg.reserve == 0 && cfg.limit >= 5
    ensures var s := Reached(cfg, 5, OverdueRun());
            s.disk.free + Truncatable(s.disk) < cfg.reserve + Reserved(s.disk.sessions)
  {
    var q := OverdueRun()[0].request;
    OverdueReached(cfg, q);
    OverdueSums(Reached(cfg, 5, OverdueRun()).disk, q);
  }
}
