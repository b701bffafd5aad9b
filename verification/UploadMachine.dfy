/**
 The upload engine as a machine: any number of processes, each inside one store operation,
 interleaved at every file-system effect and every database transaction, and killed anywhere.

 A process that works on one upload opens the upload's lock file (creating it if it is not
 there), waits for the lock on the inode it opened, works, and leaves; completers and the
 sweeper also unlink the lock file. Cancellation and expiry take no lock at all.
 */
module UploadMachine {
  import opened Prelude
  import opened Sums
  import opened UploadModel

  datatype Op = WriteOp(q: WriteRequest) | CompleteOp(source: Source) | RecoverOp

  /** Where a process is. `inode` is the lock file it opened for upload `u`. */
  datatype Pc =
    | Waiting(u: nat, inode: nat, op: Op)
    | Ready(u: nat, inode: nat, op: Op)
    | Writing(u: nat, inode: nat, q: WriteRequest, at: nat, done: bool)
    | WriteRestarting(u: nat, inode: nat, at: nat)
    | Loaded(u: nat, inode: nat, recover: bool, snap: Session)
    | Marking(u: nat, inode: nat, recover: bool, to: UploadState)
    | Verified(u: nat, inode: nat, recover: bool, snap: Session, content: seq<byte>)
    | Claimed(u: nat, inode: nat, recover: bool, fid: nat, content: seq<byte>)
    | Published(u: nat, inode: nat, fid: nat)
    | Restarting(u: nat, inode: nat)
    | Resetting(u: nat, inode: nat)
    | Closing(u: nat, inode: nat)
    | Unlinking(u: nat, inode: nat)
    | Unlocking(u: nat, inode: nat)
    | Sweeping(active: set<nat>, cutoff: nat)
    | SweepHolding(active: set<nat>, cutoff: nat, u: nat, inode: nat)
    | Inlining(fid: nat, data: seq<byte>, at: nat, spent: nat)

  datatype LockFile = LockFile(inode: nat, mtime: nat)

  datatype State = State(
    disk: Disk,
    now: nat,
    locks: map<nat, LockFile>,        // lock file per upload id, as the directory shows it
    flocks: map<nat, nat>,            // inode -> process that holds its lock
    nextInode: nat,
    writer: Option<nat>,              // process inside an open write transaction
    procs: map<nat, Pc>,
    born: set<nat>,                   // history: every upload id ever created
    accepted: map<nat, seq<byte>>,    // history: bytes acknowledged per upload
    origin: map<nat, nat>,            // history: file row -> the upload that made it
    listed: set<nat>)                 // uploads some recovery has listed as stale

  datatype Action =
    | Tick(dt: nat)
    | Create(u: nat, request: CreateRequest)
    | Cancel(u: nat, source: Source)
    | ListStale
    | OpenLock(p: nat, u: nat, op: Op)
    | AcquireLock(p: nat)
    | WriteBegin(p: nat)
    | WriteTear(p: nat, junk: seq<byte>)
    | WriteData(p: nat)
    | WriteCommit(p: nat)
    | WriteAbort(p: nat)
    | CompleteLoad(p: nat)
    | CompleteCheck(p: nat)
    | CompleteMark(p: nat)
    | CompleteClaim(p: nat, fid: nat)
    | CompletePublish(p: nat)
    | CompleteCommit(p: nat)
    | RestartUnlink(p: nat)
    | RestartReset(p: nat)
    | CheckTerminal(p: nat)
    | UnlinkLock(p: nat)
    | ReleaseLock(p: nat)
    | SweepSnapshot(p: nat, cutoff: nat)
    | SweepPartial(p: nat, u: nat)
    | SweepLock(p: nat, u: nat)
    | SweepUnlink(p: nat)
    | SweepEnd(p: nat)
    | InlineBegin(p: nat, fid: nat, data: seq<byte>)
    | InlineWrite(p: nat, k: nat)
    | InlineCommit(p: nat)
    | InlineAbort(p: nat)
    | DeleteRow(fid: nat)
    | DeleteObject(fid: nat)
    | PurgeRow(fid: nat)
    | Crash(p: nat)

  // ---------------------------------------------------------------- helpers

  /** A process in one of these places works under the lock of `pc.u`. */
  predicate Holds(pc: Pc) {
    !(pc.Waiting? || pc.Sweeping? || pc.SweepHolding? || pc.Inlining?)
  }

  predicate HoldsInode(pc: Pc) {
    Holds(pc) || pc.SweepHolding?
  }

  function Goto(s: State, p: nat, pc: Pc): State {
    s.(procs := s.procs[p := pc])
  }

  function Leave(s: State, p: nat): State {
    s.(procs := s.procs - {p})
  }

  predicate At(s: State, p: nat) {
    p in s.procs
  }

  /** Where a failed completion goes next: recovery restarts, everyone else closes. */
  function AfterDamage(u: nat, inode: nat, recover: bool): Pc {
    if recover then Restarting(u, inode) else Closing(u, inode)
  }

  /** The uploads a sweep must not touch. */
  function ActiveUploads(sessions: map<nat, Session>, now: nat): set<nat> {
    set u | u in sessions
      && (sessions[u].state == Completing || (Open(sessions[u].state) && sessions[u].expiresAt > now))
  }

  // ------------------------------------------------------------- the steps

  ghost function DoCreate(cfg: Config, s: State, u: nat, q: CreateRequest): State {
    if s.writer.Some? || JudgeCreate(cfg, s.disk, q, s.now).CreateError? then s
    else if JudgeCreate(cfg, s.disk, q, s.now).Reused? then
      s.(disk := s.disk.(sessions := Expire(s.disk.sessions, s.now)))
    else if u in s.born then s
    else s.(disk := WithNewSession(s.disk, u, q, s.now),
            born := s.born + {u},
            accepted := s.accepted[u := []])
  }

  function DoCancel(s: State, u: nat, source: Source): State {
    if s.writer.Some? || CancelError(s.disk, u, source).Some? then s
    else s.(disk := CancelRow(s.disk, u))
  }

  /** A recovery's query for claimed uploads; what it found may be out of date when it acts. */
  function DoListStale(s: State): State {
    s.(listed := s.listed + set u | u in s.disk.sessions && s.disk.sessions[u].state == Completing)
  }

  /** Recovery works on uploads that were listed at some time before. */
  predicate MayOpen(s: State, u: nat, op: Op) {
    u in s.born && (op.RecoverOp? ==> u in s.listed)
  }

  function DoOpenLock(s: State, p: nat, u: nat, op: Op): State {
    if p in s.procs || !MayOpen(s, u, op) then s
    else
      var t := TouchLock(s, u);
      Goto(t, p, Waiting(u, t.locks[u].inode, op))
  }

  /** Opening with O_CREAT: a lock file with a new inode appears if there was none. */
  function TouchLock(s: State, u: nat): (t: State)
    ensures u in t.locks
  {
    if u in s.locks then s
    else s.(locks := s.locks[u := LockFile(s.nextInode, s.now)], nextInode := s.nextInode + 1)
  }

  function DoAcquireLock(s: State, p: nat): State {
    if !At(s, p) || !s.procs[p].Waiting? || s.procs[p].inode in s.flocks then s
    else
      var pc := s.procs[p];
      Goto(s.(flocks := s.flocks[pc.inode := p]), p, Ready(pc.u, pc.inode, pc.op))
  }

  ghost function DoWriteBegin(cfg: Config, s: State, p: nat): State {
    if !At(s, p) || !s.procs[p].Ready? || !s.procs[p].op.WriteOp? || s.writer.Some? then s
    else
      var pc := s.procs[p];
      var j := JudgeWrite(cfg, s.disk, pc.u, pc.op.q, s.now);
      if j.verdict.Accept? then
        Goto(s.(disk := j.disk, writer := Some(p)), p, Writing(pc.u, pc.inode, pc.op.q, s.now, false))
      else if j.verdict.Restart? then
        Goto(s.(disk := j.disk, writer := Some(p)), p, WriteRestarting(pc.u, pc.inode, s.now))
      else Goto(s.(disk := j.disk), p, Unlocking(pc.u, pc.inode))
  }

  /** A torn write: any bytes at all, but no more than the chunk has. */
  function DoWriteTear(s: State, p: nat, junk: seq<byte>): State {
    if !At(s, p) || !s.procs[p].Writing? || s.procs[p].done || s.procs[p].q.offset < 0
       || |junk| > |s.procs[p].q.data| then s
    else s.(disk := Appended(s.disk, s.procs[p].u, s.procs[p].q.offset, junk, s.now))
  }

  function DoWriteData(s: State, p: nat): State {
    if !At(s, p) || !s.procs[p].Writing? || s.procs[p].done || s.procs[p].q.offset < 0 then s
    else
      var pc := s.procs[p];
      Goto(s.(disk := Appended(s.disk, pc.u, pc.q.offset, pc.q.data, s.now)), p, pc.(done := true))
  }

  function DoWriteCommit(s: State, p: nat): State {
    if !At(s, p) then s
    else if s.procs[p].Writing? && s.procs[p].done && s.procs[p].q.offset >= 0
         && s.procs[p].u in s.disk.sessions && s.procs[p].u in s.accepted then
      var pc := s.procs[p];
      var s1 := Expire(s.disk.sessions, pc.at);
      Goto(s.(disk := s.disk.(sessions := s1[pc.u := RowAfterWrite(s1[pc.u], pc.q, s.now)]),
              accepted := s.accepted[pc.u := s.accepted[pc.u] + pc.q.data],
              writer := None),
           p, Unlocking(pc.u, pc.inode))
    else if s.procs[p].WriteRestarting? && s.procs[p].u in s.disk.sessions then
      var pc := s.procs[p];
      var s1 := Expire(s.disk.sessions, pc.at);
      Goto(s.(disk := s.disk.(sessions := s1[pc.u := RowAfterRestart(s1[pc.u])]),
              accepted := s.accepted[pc.u := []],
              writer := None),
           p, Unlocking(pc.u, pc.inode))
    else s
  }

  function DoWriteAbort(s: State, p: nat): State {
    if !At(s, p) || !(s.procs[p].Writing? || s.procs[p].WriteRestarting?) then s
    else Goto(s.(writer := None), p, Unlocking(s.procs[p].u, s.procs[p].inode))
  }

  function DoCompleteLoad(s: State, p: nat): State {
    if !At(s, p) || !s.procs[p].Ready? || s.procs[p].op.WriteOp? || s.writer.Some? then s
    else
      var pc := s.procs[p];
      var s1 := Expire(s.disk.sessions, s.now);
      if pc.u !in s1 || (pc.op.CompleteOp? && s1[pc.u].source != pc.op.source)
      then Goto(s, p, Closing(pc.u, pc.inode))
      else Goto(s.(disk := s.disk.(sessions := s1)), p,
                if Terminal(s1[pc.u].state) then Closing(pc.u, pc.inode)
                else Loaded(pc.u, pc.inode, pc.op.RecoverOp?, s1[pc.u]))
  }

  function DoCompleteCheck(cfg: Config, s: State, p: nat): State {
    if !At(s, p) || !s.procs[p].Loaded? then s
    else
      var pc := s.procs[p];
      if Open(pc.snap.state) then
        var code := CheckPartial(cfg.hash, s.disk, pc.u, pc.snap);
        Goto(s, p, if code.Some? then Marking(pc.u, pc.inode, pc.recover, StateAfterFailedCheck(code.value))
                   else Verified(pc.u, pc.inode, pc.recover, pc.snap, s.disk.partials[pc.u].bytes))
      else if pc.snap.fileId.None? then Goto(s, p, Closing(pc.u, pc.inode))
      else
        var fid := pc.snap.fileId.value;
        var found := Inspect(cfg.hash, s.disk, pc.u, pc.snap, fid);
        Goto(s, p, if found.ObjectReady? then Published(pc.u, pc.inode, fid)
                   else if found.PartialReady?
                     then Claimed(pc.u, pc.inode, pc.recover, fid, s.disk.partials[pc.u].bytes)
                   else if found.Damaged? then AfterDamage(pc.u, pc.inode, pc.recover)
                   else Closing(pc.u, pc.inode))
  }

  function DoCompleteMark(s: State, p: nat): State {
    if !At(s, p) || !s.procs[p].Marking? || s.writer.Some? then s
    else
      var pc := s.procs[p];
      Goto(s.(disk := s.disk.(sessions := MarkError(s.disk.sessions, pc.u, pc.to))), p,
           AfterDamage(pc.u, pc.inode, pc.recover))
  }

  function DoCompleteClaim(s: State, p: nat, fid: nat): State {
    if !At(s, p) || !s.procs[p].Verified? || s.writer.Some?
       || !FreshFile(s.disk, fid) || fid in s.origin then s
    else
      var pc := s.procs[p];
      var d := ClaimRow(s.disk, pc.u, pc.snap, fid);
      if d.None? then Goto(s, p, Closing(pc.u, pc.inode))
      else Goto(s.(disk := d.value), p, Claimed(pc.u, pc.inode, pc.recover, fid, pc.content))
  }

  function DoCompletePublish(cfg: Config, s: State, p: nat): State {
    if !At(s, p) || !s.procs[p].Claimed? then s
    else
      var pc := s.procs[p];
      if pc.u !in s.disk.sessions then Goto(s, p, Closing(pc.u, pc.inode))
      else if pc.fid in s.disk.objects then
        Goto(s, p, if ObjectMatches(cfg.hash, s.disk, pc.fid, s.disk.sessions[pc.u])
                   then Published(pc.u, pc.inode, pc.fid) else Closing(pc.u, pc.inode))
      else if pc.u !in s.disk.partials || s.disk.partials[pc.u].bytes != pc.content then
        Goto(s, p, AfterDamage(pc.u, pc.inode, pc.recover))
      else Goto(s.(disk := PublishObject(s.disk, pc.u, pc.fid)), p, Published(pc.u, pc.inode, pc.fid))
  }

  function DoCompleteCommit(s: State, p: nat): State {
    if !At(s, p) || !s.procs[p].Published? || s.writer.Some? then s
    else
      var pc := s.procs[p];
      var d := CommitRow(s.disk, pc.u, pc.fid);
      if d.None? then Goto(s, p, Closing(pc.u, pc.inode))
      else Goto(s.(disk := d.value, origin := s.origin[pc.fid := pc.u]), p, Closing(pc.u, pc.inode))
  }

  function DoRestartUnlink(s: State, p: nat): State {
    if !At(s, p) || !s.procs[p].Restarting? then s
    else Goto(s.(disk := UnlinkPartial(s.disk, s.procs[p].u)), p, Resetting(s.procs[p].u, s.procs[p].inode))
  }

  function DoRestartReset(s: State, p: nat): State {
    if !At(s, p) || !s.procs[p].Resetting? || s.writer.Some? then s
    else
      var pc := s.procs[p];
      Goto(s.(disk := ResetRow(s.disk, pc.u, s.now), accepted := s.accepted[pc.u := []]), p,
           Closing(pc.u, pc.inode))
  }

  function DoCheckTerminal(s: State, p: nat): State {
    if !At(s, p) || !s.procs[p].Closing? then s
    else
      var pc := s.procs[p];
      Goto(s, p, if LiveIn(s.disk, pc.u) then Unlocking(pc.u, pc.inode) else Unlinking(pc.u, pc.inode))
  }

  /** Removes the lock file only if it is still the inode this process holds. */
  function DoUnlinkLock(s: State, p: nat): State {
    if !At(s, p) || !s.procs[p].Unlinking? then s
    else
      var pc := s.procs[p];
      Goto(if pc.u in s.locks && s.locks[pc.u].inode == pc.inode
           then s.(locks := s.locks - {pc.u}) else s,
           p, Unlocking(pc.u, pc.inode))
  }

  function DoReleaseLock(s: State, p: nat): State {
    if !At(s, p) || !s.procs[p].Unlocking? then s
    else Leave(s.(flocks := s.flocks - {s.procs[p].inode}), p)
  }

  function DoSweepSnapshot(s: State, p: nat, cutoff: nat): State {
    if p in s.procs || s.writer.Some? || cutoff > s.now then s
    else
      var s1 := ExpireStates(s.disk.sessions, s.now);
      Goto(s.(disk := s.disk.(sessions := s1)), p, Sweeping(ActiveUploads(s1, s.now), cutoff))
  }

  function DoSweepPartial(s: State, p: nat, u: nat): State {
    if !At(s, p) || !s.procs[p].Sweeping? || u in s.procs[p].active
       || u !in s.disk.partials || s.disk.partials[u].mtime >= s.procs[p].cutoff then s
    else s.(disk := UnlinkPartial(s.disk, u))
  }

  function DoSweepLock(s: State, p: nat, u: nat): State {
    if !At(s, p) || !s.procs[p].Sweeping? || u in s.procs[p].active
       || u !in s.locks || s.locks[u].mtime >= s.procs[p].cutoff || s.locks[u].inode in s.flocks then s
    else
      var pc := s.procs[p];
      Goto(s.(flocks := s.flocks[s.locks[u].inode := p]), p,
           SweepHolding(pc.active, pc.cutoff, u, s.locks[u].inode))
  }

  function DoSweepUnlink(s: State, p: nat): State {
    if !At(s, p) || !s.procs[p].SweepHolding? then s
    else
      var pc := s.procs[p];
      Goto(s.(locks := if pc.u in s.locks && s.locks[pc.u].inode == pc.inode
                       then s.locks - {pc.u} else s.locks,
              flocks := s.flocks - {pc.inode}),
           p, Sweeping(pc.active, pc.cutoff))
  }

  function DoSweepEnd(s: State, p: nat): State {
    if !At(s, p) || !s.procs[p].Sweeping? then s else Leave(s, p)
  }

  ghost function DoInlineBegin(cfg: Config, s: State, p: nat, fid: nat, data: seq<byte>): State {
    if p in s.procs || s.writer.Some? || data == [] || !FreshFile(s.disk, fid) || fid in s.origin
       || !HasCapacity(cfg, s.disk.free, Expire(s.disk.sessions, s.now), |data|) then s
    else Goto(s.(writer := Some(p)), p, Inlining(fid, data, s.now, 0))
  }

  /** Writes k more bytes; with the last one the object appears in its slot. */
  function DoInlineWrite(s: State, p: nat, k: nat): State {
    if !At(s, p) || !s.procs[p].Inlining? || s.procs[p].spent + k > |s.procs[p].data| || k == 0 then s
    else
      var pc := s.procs[p];
      var spent := pc.spent + k;
      var d := s.disk.(free := s.disk.free - k);
      Goto(s.(disk := if spent == |pc.data| then d.(objects := d.objects[pc.fid := pc.data]) else d),
           p, pc.(spent := spent))
  }

  function DoInlineCommit(cfg: Config, s: State, p: nat): State {
    if !At(s, p) || !s.procs[p].Inlining? || s.procs[p].spent != |s.procs[p].data| then s
    else
      var pc := s.procs[p];
      Leave(s.(disk := s.disk.(sessions := Expire(s.disk.sessions, pc.at),
                               files := s.disk.files[pc.fid := FileRow(|pc.data|, cfg.hash(pc.data), false)]),
               writer := None), p)
  }

  /** The transaction rolls back and the bytes written so far are unlinked. */
  function DoInlineAbort(s: State, p: nat): State {
    if !At(s, p) || !s.procs[p].Inlining? then s
    else
      var pc := s.procs[p];
      Leave(s.(disk := s.disk.(objects := s.disk.objects - {pc.fid}, free := s.disk.free + pc.spent),
               writer := None), p)
  }

  function DoDeleteRow(s: State, fid: nat): State {
    if s.writer.Some? || fid !in s.disk.files then s
    else s.(disk := MarkDeleted(s.disk, fid))
  }

  function DoDeleteObject(s: State, fid: nat): State {
    if fid !in s.disk.files || !s.disk.files[fid].deleted || fid !in s.disk.objects then s
    else s.(disk := s.disk.(objects := s.disk.objects - {fid}, free := s.disk.free + |s.disk.objects[fid]|))
  }

  /** The purge transaction: the file row and the upload that made it disappear for good. */
  function DoPurgeRow(s: State, fid: nat): State {
    if s.writer.Some? || fid !in s.disk.files || !s.disk.files[fid].deleted || fid in s.disk.objects then s
    else s.(disk := s.disk.(
              files := s.disk.files - {fid},
              sessions := map u | u in s.disk.sessions && s.disk.sessions[u].fileId != Some(fid)
                          :: s.disk.sessions[u]))
  }

  /** The process dies; the kernel drops its locks and SQLite rolls its transaction back. */
  function DoCrash(s: State, p: nat): State {
    if !At(s, p) then s
    else
      var pc := s.procs[p];
      Leave(s.(flocks := if HoldsInode(pc) then s.flocks - {pc.inode} else s.flocks,
               writer := if s.writer == Some(p) then None else s.writer), p)
  }

  ghost function Do(cfg: Config, s: State, a: Action): State {
    match a
    case Tick(dt) => s.(now := s.now + dt)
    case Create(u, q) => DoCreate(cfg, s, u, q)
    case Cancel(u, source) => DoCancel(s, u, source)
    case ListStale => DoListStale(s)
    case OpenLock(p, u, op) => DoOpenLock(s, p, u, op)
    case AcquireLock(p) => DoAcquireLock(s, p)
    case WriteBegin(p) => DoWriteBegin(cfg, s, p)
    case WriteTear(p, junk) => DoWriteTear(s, p, junk)
    case WriteData(p) => DoWriteData(s, p)
    case WriteCommit(p) => DoWriteCommit(s, p)
    case WriteAbort(p) => DoWriteAbort(s, p)
    case CompleteLoad(p) => DoCompleteLoad(s, p)
    case CompleteCheck(p) => DoCompleteCheck(cfg, s, p)
    case CompleteMark(p) => DoCompleteMark(s, p)
    case CompleteClaim(p, fid) => DoCompleteClaim(s, p, fid)
    case CompletePublish(p) => DoCompletePublish(cfg, s, p)
    case CompleteCommit(p) => DoCompleteCommit(s, p)
    case RestartUnlink(p) => DoRestartUnlink(s, p)
    case RestartReset(p) => DoRestartReset(s, p)
    case CheckTerminal(p) => DoCheckTerminal(s, p)
    case UnlinkLock(p) => DoUnlinkLock(s, p)
    case ReleaseLock(p) => DoReleaseLock(s, p)
    case SweepSnapshot(p, cutoff) => DoSweepSnapshot(s, p, cutoff)
    case SweepPartial(p, u) => DoSweepPartial(s, p, u)
    case SweepLock(p, u) => DoSweepLock(s, p, u)
    case SweepUnlink(p) => DoSweepUnlink(s, p)
    case SweepEnd(p) => DoSweepEnd(s, p)
    case InlineBegin(p, fid, data) => DoInlineBegin(cfg, s, p, fid, data)
    case InlineWrite(p, k) => DoInlineWrite(s, p, k)
    case InlineCommit(p) => DoInlineCommit(cfg, s, p)
    case InlineAbort(p) => DoInlineAbort(s, p)
    case DeleteRow(fid) => DoDeleteRow(s, fid)
    case DeleteObject(fid) => DoDeleteObject(s, fid)
    case PurgeRow(fid) => DoPurgeRow(s, fid)
    case Crash(p) => DoCrash(s, p)
  }

  ghost function Run(cfg: Config, s: State, actions: seq<Action>): State
    decreases |actions|
  {
    if actions == [] then s
    else Run(cfg, Do(cfg, s, actions[0]), actions[1..])
  }

  /** An empty vault on a volume with at least the reserve free. */
  function Initial(free: int): State {
    State(Disk(map[], map[], map[], map[], free), 0, map[], map[], 0, None, map[], {}, map[], map[], {})
  }
}
