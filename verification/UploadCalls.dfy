/**
 What a sender can rely on from one call, in any state the upload machine reaches: each store
 operation is an undisturbed run of the machine, a lost reply can be repaired by repeating the
 request, and completion succeeds exactly when all declared bytes have arrived.
 */
module UploadCalls {
  import opened Prelude
  import opened Sums
  import opened UploadModel
  import opened UploadMachine
  import opened UploadInvariant
  import opened UploadSteps
  import opened UploadStore
  import opened UploadTheorems

  // ---------------------------------------------------- the calls are runs

  predicate Alone(s: State, p: nat, u: nat) {
    s.writer.None? && p !in s.procs && u in s.born && LockFree(s, u)
  }

  /** Under the invariant an unheld lock file can be taken at once. */
  lemma TakesLock(cfg: Config, s: State, p: nat, u: nat, op: Op)
    requires Inv(cfg, s) && Alone(s, p, u) && (op.RecoverOp? ==> u in s.listed)
    ensures var t := DoAcquireLock(DoOpenLock(s, p, u, op), p);
            && At(t, p) && t.procs[p].Ready? && t.procs[p].u == u && t.procs[p].op == op
            && t.disk == s.disk && t.writer.None? && t.now == s.now && t.born == s.born
            && t.accepted == s.accepted && t.origin == s.origin
  {
    forall i | i in s.flocks ensures i < s.nextInode {
      assert ProcInv(cfg, s, s.flocks[i]);
    }
    var w := DoOpenLock(s, p, u, op);
    assert At(w, p) && w.procs[p].Waiting? && w.disk == s.disk;
  }

  /** The write call after its lock is taken: begin, append, commit. */
  ghost function WriteSteps(cfg: Config, s: State, p: nat): State {
    DoWriteCommit(DoWriteData(DoWriteBegin(cfg, s, p), p), p)
  }

  lemma AcceptedJudgement(cfg: Config, d: Disk, u: nat, q: WriteRequest, now: nat)
    requires JudgeWrite(cfg, d, u, q, now).verdict.Accept?
    ensures CheckRequest(cfg.hash, q).None? && JudgeSession(Expire(d.sessions, now), u, q).None?
    ensures u in d.sessions && q.offset == d.sessions[u].verified
    ensures Expire(d.sessions, now)[u] == d.sessions[u]
    ensures !LostVerifiedBytes(d, u, d.sessions[u].verified)
    ensures JudgeWrite(cfg, d, u, q, now).disk == TrimOverhang(d, u, d.sessions[u].verified, now)
  {
    SurvivesExpiry(d.sessions, now, u);
  }

  lemma RestartJudgement(cfg: Config, d: Disk, u: nat, q: WriteRequest, now: nat)
    requires JudgeWrite(cfg, d, u, q, now).verdict.Restart?
    ensures u in d.sessions && JudgeWrite(cfg, d, u, q, now).disk == UnlinkPartial(d, u)
  {
  }

  lemma AppendIsRun(b: State, p: nat, u: nat, inode: nat, q: WriteRequest)
    requires At(b, p) && b.procs[p] == Writing(u, inode, q, b.now, false)
    requires u in b.disk.sessions && u in b.accepted && q.offset >= 0
    ensures var s1 := Expire(b.disk.sessions, b.now);
            DoWriteCommit(DoWriteData(b, p), p).disk ==
              Appended(b.disk, u, q.offset, q.data, b.now).(sessions := s1[u := RowAfterWrite(s1[u], q, b.now)])
  {
    var w := DoWriteData(b, p);
    assert w.procs[p] == Writing(u, inode, q, b.now, true) && w.disk.sessions == b.disk.sessions;
  }

  lemma RestartIsRun(b: State, p: nat, u: nat, inode: nat)
    requires At(b, p) && b.procs[p] == WriteRestarting(u, inode, b.now) && u in b.disk.sessions
    ensures var s1 := Expire(b.disk.sessions, b.now);
            DoWriteCommit(DoWriteData(b, p), p).disk == b.disk.(sessions := s1[u := RowAfterRestart(s1[u])])
  {
    assert DoWriteData(b, p) == b;
  }

  lemma WriteIsRun(cfg: Config, s: State, p: nat, u: nat, q: WriteRequest)
    requires At(s, p) && s.procs[p].Ready? && s.procs[p].u == u && s.procs[p].op == WriteOp(q)
    requires s.writer.None? && u in s.accepted
    ensures WriteSteps(cfg, s, p).disk == WriteChunk(cfg, s.disk, u, q, s.now).disk
  {
    var j := JudgeWrite(cfg, s.disk, u, q, s.now);
    var b := DoWriteBegin(cfg, s, p);
    var inode := s.procs[p].inode;
    if j.verdict.Accept? {
      AcceptedJudgement(cfg, s.disk, u, q, s.now);
      assert b.procs[p] == Writing(u, inode, q, s.now, false) && b.disk == j.disk;
      AppendIsRun(b, p, u, inode, q);
    } else if j.verdict.Restart? {
      RestartJudgement(cfg, s.disk, u, q, s.now);
      assert b.procs[p] == WriteRestarting(u, inode, s.now) && b.disk == j.disk;
      RestartIsRun(b, p, u, inode);
    } else {
      assert b.procs[p] == Unlocking(u, inode) && b.disk == j.disk;
      assert DoWriteCommit(DoWriteData(b, p), p) == b;
    }
  }

  function WriteRun(p: nat, u: nat, q: WriteRequest): seq<Action> {
    [OpenLock(p, u, WriteOp(q)), AcquireLock(p), WriteBegin(p), WriteData(p), WriteCommit(p), ReleaseLock(p)]
  }

  lemma WriteRunUnfolds(cfg: Config, s: State, p: nat, u: nat, q: WriteRequest)
    ensures var t := DoAcquireLock(DoOpenLock(s, p, u, WriteOp(q)), p);
            Run(cfg, s, WriteRun(p, u, q)) == DoReleaseLock(WriteSteps(cfg, t, p), p)
  {
    var rest := [WriteBegin(p), WriteData(p), WriteCommit(p), ReleaseLock(p)];
    assert WriteRun(p, u, q) == [OpenLock(p, u, WriteOp(q)), AcquireLock(p)] + rest;
    LockingUnfolds(cfg, s, p, u, WriteOp(q), rest);
    LockedRunUnfolds(cfg, DoAcquireLock(DoOpenLock(s, p, u, WriteOp(q)), p), p);
  }

  lemma LockedRunUnfolds(cfg: Config, t: State, p: nat)
    ensures Run(cfg, t, [WriteBegin(p), WriteData(p), WriteCommit(p), ReleaseLock(p)])
              == DoReleaseLock(WriteSteps(cfg, t, p), p)
  {
    assert [WriteBegin(p), WriteData(p), WriteCommit(p), ReleaseLock(p)]
        == [WriteBegin(p), WriteData(p)] + ([WriteCommit(p), ReleaseLock(p)] + []);
    WritingUnfolds(cfg, t, p, [WriteCommit(p), ReleaseLock(p)] + []);
    CommittingUnfolds(cfg, DoWriteData(DoWriteBegin(cfg, t, p), p), p);
  }

  lemma WritingUnfolds(cfg: Config, t: State, p: nat, rest: seq<Action>)
    ensures Run(cfg, t, [WriteBegin(p), WriteData(p)] + rest)
         == Run(cfg, DoWriteData(DoWriteBegin(cfg, t, p), p), rest)
  {
    WriteDoes(cfg, t, WriteBegin(p));
    WriteDoes(cfg, DoWriteBegin(cfg, t, p), WriteData(p));
    RunTwo(cfg, t, WriteBegin(p), WriteData(p), rest);
  }

  lemma CommittingUnfolds(cfg: Config, t: State, p: nat)
    ensures Run(cfg, t, [WriteCommit(p), ReleaseLock(p)] + []) == DoReleaseLock(DoWriteCommit(t, p), p)
  {
    RunTwo(cfg, t, WriteCommit(p), ReleaseLock(p), []);
  }

  /** A whole write call is an undisturbed run of the machine: the store refines it. */
  lemma WriteRefines(cfg: Config, s: State, p: nat, u: nat, q: WriteRequest)
    requires Inv(cfg, s) && Alone(s, p, u)
    ensures Run(cfg, s, WriteRun(p, u, q)).disk == WriteChunk(cfg, s.disk, u, q, s.now).disk
    ensures Inv(cfg, Run(cfg, s, WriteRun(p, u, q)))
  {
    var t := DoAcquireLock(DoOpenLock(s, p, u, WriteOp(q)), p);
    TakesLock(cfg, s, p, u, WriteOp(q));
    WriteIsRun(cfg, t, p, u, q);
    WriteRunUnfolds(cfg, s, p, u, q);
    RunKeeps(cfg, s, WriteRun(p, u, q));
  }

  // ------------------------------------------------------------- completion

  ghost function CompleteSteps(cfg: Config, s: State, p: nat, fid: nat): State {
    DoCompleteCommit(DoCompletePublish(cfg, DoCompleteClaim(DoCompleteMark(DoCompleteCheck(cfg,
      DoCompleteLoad(s, p), p), p), p, fid), p), p)
  }

  predicate Completer(s: State, p: nat, u: nat, source: Source) {
    At(s, p) && s.procs[p].Ready? && s.procs[p].u == u && s.procs[p].op == CompleteOp(source)
  }

  lemma ClosingIdles(cfg: Config, s: State, p: nat, fid: nat)
    requires At(s, p) && s.procs[p].Closing?
    ensures DoCompleteCheck(cfg, s, p) == s && DoCompleteMark(s, p) == s && DoCompleteClaim(s, p, fid) == s
    ensures DoCompletePublish(cfg, s, p) == s && DoCompleteCommit(s, p) == s
  {
  }

  lemma PublishedIdles(cfg: Config, s: State, p: nat, fid: nat)
    requires At(s, p) && s.procs[p].Published?
    ensures DoCompleteMark(s, p) == s && DoCompleteClaim(s, p, fid) == s && DoCompletePublish(cfg, s, p) == s
  {
  }

  /** From the object slot on: commit, or leave it as a conflict. */
  lemma CommitIsRun(v: State, p: nat, u: nat, fid: nat)
    requires At(v, p) && v.procs[p].Published? && v.procs[p].u == u && v.procs[p].fid == fid && v.writer.None?
    ensures DoCompleteCommit(v, p).disk == CommitOutcome(v.disk, u, fid).disk
  {
  }

  lemma PublishIsRun(cfg: Config, c: State, p: nat, u: nat, fid: nat)
    requires At(c, p) && c.procs[p].Claimed? && c.procs[p].u == u && c.procs[p].fid == fid && c.writer.None?
    requires u in c.disk.sessions && fid !in c.disk.objects
    requires u in c.disk.partials && c.disk.partials[u].bytes == c.procs[p].content
    ensures DoCompleteCommit(DoCompletePublish(cfg, c, p), p).disk == PublishOutcome(c.disk, u, fid).disk
  {
    var v := DoCompletePublish(cfg, c, p);
    assert v.procs[p].Published? && v.disk == PublishObject(c.disk, u, fid);
    CommitIsRun(v, p, u, fid);
  }

  lemma OpenIsRun(cfg: Config, l: State, p: nat, u: nat, fid: nat)
    requires At(l, p) && l.procs[p].Loaded? && l.procs[p].u == u && l.writer.None? && !l.procs[p].recover
    requires u in l.disk.sessions && l.procs[p].snap == l.disk.sessions[u] && Open(l.disk.sessions[u].state)
    requires FreshFile(l.disk, fid) && fid !in l.origin
    ensures var x := l.disk.sessions[u];
            var code := CheckPartial(cfg.hash, l.disk, u, x);
            var t := DoCompleteCommit(DoCompletePublish(cfg, DoCompleteClaim(DoCompleteMark(
                       DoCompleteCheck(cfg, l, p), p), p, fid), p), p);
            t.disk ==
              if code.Some? then l.disk.(sessions := MarkError(l.disk.sessions, u, StateAfterFailedCheck(code.value)))
              else PublishOutcome(l.disk.(sessions := l.disk.sessions[u := x.(fileId := Some(fid), state := Completing)]),
                                  u, fid).disk
  {
    var x := l.disk.sessions[u];
    var code := CheckPartial(cfg.hash, l.disk, u, x);
    var c := DoCompleteCheck(cfg, l, p);
    if code.Some? {
      var m := DoCompleteMark(c, p);
      assert m.procs[p].Closing?;
      ClosingIdles(cfg, m, p, fid);
    } else {
      assert c.procs[p].Verified? && DoCompleteMark(c, p) == c;
      var k := DoCompleteClaim(c, p, fid);
      assert k.procs[p].Claimed? && k.procs[p].u == u && k.procs[p].fid == fid;
      PublishIsRun(cfg, k, p, u, fid);
    }
  }

  lemma ClaimedIsRun(cfg: Config, l: State, p: nat, u: nat, fid: nat, id: nat)
    requires At(l, p) && l.procs[p].Loaded? && l.procs[p].u == u && l.writer.None? && !l.procs[p].recover
    requires u in l.disk.sessions && l.procs[p].snap == l.disk.sessions[u]
    requires l.disk.sessions[u].state == Completing && l.disk.sessions[u].fileId == Some(id)
    ensures var t := DoCompleteCommit(DoCompletePublish(cfg, DoCompleteClaim(DoCompleteMark(
                       DoCompleteCheck(cfg, l, p), p), p, fid), p), p);
            t.disk == match Inspect(cfg.hash, l.disk, u, l.disk.sessions[u], id)
                      case ObjectReady => CommitOutcome(l.disk, u, id).disk
                      case PartialReady => PublishOutcome(l.disk, u, id).disk
                      case _ => l.disk
  {
    var found := Inspect(cfg.hash, l.disk, u, l.disk.sessions[u], id);
    var c := DoCompleteCheck(cfg, l, p);
    assert c.disk == l.disk && c.writer.None?;
    match found
    case ObjectReady =>
      assert c.procs[p].Published? && c.procs[p].fid == id;
      PublishedIdles(cfg, c, p, fid);
      CommitIsRun(c, p, u, id);
    case PartialReady =>
      assert c.procs[p].Claimed? && DoCompleteMark(c, p) == c && DoCompleteClaim(c, p, fid) == c;
      PublishIsRun(cfg, c, p, u, id);
    case _ =>
      assert c.procs[p].Closing?;
      ClosingIdles(cfg, c, p, fid);
  }

  lemma LoadIsRun(s: State, p: nat, u: nat, source: Source)
    requires Completer(s, p, u, source) && s.writer.None?
    ensures var l := DoCompleteLoad(s, p);
            var s1 := Expire(s.disk.sessions, s.now);
            && At(l, p) && l.writer.None? && l.origin == s.origin
            && (if u !in s1 || s1[u].source != source then l.procs[p].Closing? && l.disk == s.disk
                else
                  && l.disk == s.disk.(sessions := s1)
                  && if Terminal(s1[u].state) then l.procs[p].Closing?
                     else l.procs[p] == Loaded(u, s.procs[p].inode, false, s1[u]))
  {
  }

  lemma UnclaimedIsRun(cfg: Config, l: State, p: nat, fid: nat)
    requires At(l, p) && l.procs[p].Loaded? && l.writer.None?
    requires l.procs[p].snap.fileId.None? && !Open(l.procs[p].snap.state)
    ensures var t := DoCompleteCommit(DoCompletePublish(cfg, DoCompleteClaim(DoCompleteMark(
                       DoCompleteCheck(cfg, l, p), p), p, fid), p), p);
            t.disk == l.disk
  {
    var c := DoCompleteCheck(cfg, l, p);
    assert c.procs[p].Closing? && c.disk == l.disk;
    ClosingIdles(cfg, c, p, fid);
  }

  lemma StillFresh(d: Disk, fid: nat, now: nat)
    requires FreshFile(d, fid)
    ensures FreshFile(d.(sessions := Expire(d.sessions, now)), fid)
  {
  }

  lemma CompletesUnderLock(cfg: Config, s: State, p: nat, u: nat, source: Source, fid: nat)
    requires Completer(s, p, u, source) && s.writer.None? && FreshFile(s.disk, fid) && fid !in s.origin
    ensures CompleteSteps(cfg, s, p, fid).disk == CompleteOutcome(cfg, s.disk, u, source, fid, s.now).disk
  {
    var s1 := Expire(s.disk.sessions, s.now);
    var l := DoCompleteLoad(s, p);
    LoadIsRun(s, p, u, source);
    if u !in s1 || s1[u].source != source || Terminal(s1[u].state) {
      ClosingIdles(cfg, l, p, fid);
    } else if Open(s1[u].state) {
      StillFresh(s.disk, fid, s.now);
      OpenIsRun(cfg, l, p, u, fid);
    } else if s1[u].fileId.None? {
      UnclaimedIsRun(cfg, l, p, fid);
    } else {
      ClaimedIsRun(cfg, l, p, u, fid, s1[u].fileId.value);
    }
  }

  // ------------------------------------------------- whole calls as whole runs

  /** What a completer does once its row is read, and how it leaves. */
  function Leaving(p: nat): seq<Action> {
    [CheckTerminal(p), UnlinkLock(p)] + [ReleaseLock(p)]
  }

  function Work(p: nat, fid: nat, rest: seq<Action>): seq<Action> {
    [CompleteLoad(p), CompleteCheck(p)] + ([CompleteMark(p), CompleteClaim(p, fid)]
      + ([CompletePublish(p), CompleteCommit(p)] + rest))
  }

  lemma CompletingUnfolds(cfg: Config, s: State, p: nat, fid: nat, rest: seq<Action>)
    ensures Run(cfg, s, Work(p, fid, rest)) == Run(cfg, CompleteSteps(cfg, s, p, fid), rest)
  {
    var rest2 := [CompletePublish(p), CompleteCommit(p)] + rest;
    var rest1 := [CompleteMark(p), CompleteClaim(p, fid)] + rest2;
    var c := DoCompleteCheck(cfg, DoCompleteLoad(s, p), p);
    CheckingUnfolds(cfg, s, p, rest1);
    ClaimingUnfolds(cfg, c, p, fid, rest2);
    PublishingUnfolds(cfg, DoCompleteClaim(DoCompleteMark(c, p), p, fid), p, rest);
  }

  lemma CheckingUnfolds(cfg: Config, s: State, p: nat, rest: seq<Action>)
    ensures Run(cfg, s, [CompleteLoad(p), CompleteCheck(p)] + rest)
         == Run(cfg, DoCompleteCheck(cfg, DoCompleteLoad(s, p), p), rest)
  {
    RunTwo(cfg, s, CompleteLoad(p), CompleteCheck(p), rest);
  }

  lemma ClaimingUnfolds(cfg: Config, c: State, p: nat, fid: nat, rest: seq<Action>)
    ensures Run(cfg, c, [CompleteMark(p), CompleteClaim(p, fid)] + rest)
         == Run(cfg, DoCompleteClaim(DoCompleteMark(c, p), p, fid), rest)
  {
    RunTwo(cfg, c, CompleteMark(p), CompleteClaim(p, fid), rest);
  }

  lemma PublishingUnfolds(cfg: Config, k: State, p: nat, rest: seq<Action>)
    ensures Run(cfg, k, [CompletePublish(p), CompleteCommit(p)] + rest)
         == Run(cfg, DoCompleteCommit(DoCompletePublish(cfg, k, p), p), rest)
  {
    RunTwo(cfg, k, CompletePublish(p), CompleteCommit(p), rest);
  }

  lemma LocksKeepDisk(cfg: Config, s: State, a: Action)
    requires LockAction(a)
    ensures Do(cfg, s, a).disk == s.disk
  {
  }

  lemma LeavingKeepsDisk(cfg: Config, s: State, p: nat)
    ensures Run(cfg, s, Leaving(p)).disk == s.disk
  {
    var c := Do(cfg, s, CheckTerminal(p));
    var w := Do(cfg, c, UnlinkLock(p));
    LocksKeepDisk(cfg, s, CheckTerminal(p));
    LocksKeepDisk(cfg, c, UnlinkLock(p));
    LocksKeepDisk(cfg, w, ReleaseLock(p));
    RunTwo(cfg, s, CheckTerminal(p), UnlinkLock(p), [ReleaseLock(p)]);
    RunOne(cfg, w, ReleaseLock(p));
  }

  lemma RunOne(cfg: Config, s: State, a: Action)
    ensures Run(cfg, s, [a]) == Do(cfg, s, a)
  {
    assert [a][1..] == [];
    assert Run(cfg, s, [a]) == Run(cfg, Do(cfg, s, a), []);
  }

  function CompleteRun(p: nat, u: nat, source: Source, fid: nat): seq<Action> {
    [OpenLock(p, u, CompleteOp(source)), AcquireLock(p)] + Work(p, fid, Leaving(p))
  }

  /** A whole completion, from opening the lock file to releasing it, is a run of the machine. */
  lemma CompleteRefines(cfg: Config, s: State, p: nat, u: nat, source: Source, fid: nat)
    requires Inv(cfg, s) && Alone(s, p, u) && FreshFile(s.disk, fid) && fid !in s.origin
    ensures Run(cfg, s, CompleteRun(p, u, source, fid)).disk == CompleteOutcome(cfg, s.disk, u, source, fid, s.now).disk
    ensures Inv(cfg, Run(cfg, s, CompleteRun(p, u, source, fid)))
  {
    var op := CompleteOp(source);
    TakesLock(cfg, s, p, u, op);
    CompletesAndLeaves(cfg, DoAcquireLock(DoOpenLock(s, p, u, op), p), p, u, source, fid);
    LockingUnfolds(cfg, s, p, u, op, Work(p, fid, Leaving(p)));
    RunKeeps(cfg, s, CompleteRun(p, u, source, fid));
  }

  lemma LockingUnfolds(cfg: Config, s: State, p: nat, u: nat, op: Op, rest: seq<Action>)
    ensures Run(cfg, s, [OpenLock(p, u, op), AcquireLock(p)] + rest)
         == Run(cfg, DoAcquireLock(DoOpenLock(s, p, u, op), p), rest)
  {
    RunTwo(cfg, s, OpenLock(p, u, op), AcquireLock(p), rest);
  }

  lemma CompletesAndLeaves(cfg: Config, t: State, p: nat, u: nat, source: Source, fid: nat)
    requires Completer(t, p, u, source) && t.writer.None? && FreshFile(t.disk, fid) && fid !in t.origin
    ensures Run(cfg, t, Work(p, fid, Leaving(p))).disk == CompleteOutcome(cfg, t.disk, u, source, fid, t.now).disk
  {
    CompletesUnderLock(cfg, t, p, u, source, fid);
    CompletingUnfolds(cfg, t, p, fid, Leaving(p));
    LeavingKeepsDisk(cfg, CompleteSteps(cfg, t, p, fid), p);
  }

  predicate Recoverer(s: State, p: nat, u: nat) {
    At(s, p) && s.procs[p].Ready? && s.procs[p].u == u && s.procs[p].op == RecoverOp
  }

  lemma RecoverLoadIsRun(s: State, p: nat, u: nat)
    requires Recoverer(s, p, u) && s.writer.None?
    ensures var l := DoCompleteLoad(s, p);
            var s1 := Expire(s.disk.sessions, s.now);
            && At(l, p) && l.writer.None?
            && (if u !in s1 then l.procs[p].Closing? && l.disk == s.disk
                else
                  && l.disk == s.disk.(sessions := s1)
                  && if Terminal(s1[u].state) then l.procs[p].Closing?
                     else l.procs[p] == Loaded(u, s.procs[p].inode, true, s1[u]))
  {
  }

  /** A recovering process that finds object or partial in order does what a completer does. */
  lemma RecoverClaimedIsRun(cfg: Config, l: State, p: nat, u: nat, fid: nat, id: nat)
    requires At(l, p) && l.procs[p].Loaded? && l.procs[p].u == u && l.writer.None?
    requires u in l.disk.sessions && l.procs[p].snap == l.disk.sessions[u]
    requires l.disk.sessions[u].state == Completing && l.disk.sessions[u].fileId == Some(id)
    requires Inspect(cfg.hash, l.disk, u, l.disk.sessions[u], id) in {ObjectReady, PartialReady}
    ensures var t := DoCompleteCommit(DoCompletePublish(cfg, DoCompleteClaim(DoCompleteMark(
                       DoCompleteCheck(cfg, l, p), p), p, fid), p), p);
            t.disk == if Inspect(cfg.hash, l.disk, u, l.disk.sessions[u], id).ObjectReady?
                      then CommitOutcome(l.disk, u, id).disk else PublishOutcome(l.disk, u, id).disk
  {
    var found := Inspect(cfg.hash, l.disk, u, l.disk.sessions[u], id);
    var c := DoCompleteCheck(cfg, l, p);
    assert c.disk == l.disk && c.writer.None?;
    if found.ObjectReady? {
      assert c.procs[p].Published? && c.procs[p].fid == id;
      PublishedIdles(cfg, c, p, fid);
      CommitIsRun(c, p, u, id);
    } else {
      assert c.procs[p].Claimed? && DoCompleteMark(c, p) == c && DoCompleteClaim(c, p, fid) == c;
      PublishIsRun(cfg, c, p, u, id);
    }
  }

  /** What recovery finds of a claimed upload while only the store touches files. */
  lemma ClaimInOrder(cfg: Config, s: State, u: nat)
    requires Inv(cfg, s) && u in s.disk.sessions && s.disk.sessions[u].state == Completing
    ensures var x := s.disk.sessions[u];
            && x.fileId.Some?
            && Inspect(cfg.hash, s.disk, u, x, x.fileId.value) in {ObjectReady, PartialReady}
            && CommitRow(s.disk, u, x.fileId.value).Some?
  {
    assert UploadInv(cfg, s, u);
    assert CompletingInv(cfg, s.disk, s.accepted[u], u);
  }

  lemma ClaimedOutcome(cfg: Config, d: Disk, u: nat, fid: nat, now: nat, id: nat)
    requires u in d.sessions && d.sessions[u].state == Completing && d.sessions[u].fileId == Some(id)
    requires Inspect(cfg.hash, d, u, d.sessions[u], id) in {ObjectReady, PartialReady}
    requires CommitRow(d, u, id).Some?
    ensures var e := d.(sessions := Expire(d.sessions, now));
            && e.sessions[u] == d.sessions[u]
            && Inspect(cfg.hash, e, u, d.sessions[u], id) == Inspect(cfg.hash, d, u, d.sessions[u], id)
            && RecoverUpload(cfg, d, u, d.sessions[u].source, fid, now).disk ==
                 if Inspect(cfg.hash, d, u, d.sessions[u], id).ObjectReady?
                 then CommitOutcome(e, u, id).disk else PublishOutcome(e, u, id).disk
  {
    var e := d.(sessions := Expire(d.sessions, now));
    assert e.sessions[u] == d.sessions[u];
    assert Inspect(cfg.hash, e, u, d.sessions[u], id) == Inspect(cfg.hash, d, u, d.sessions[u], id);
  }

  lemma RecoversUnderLock(cfg: Config, s: State, p: nat, u: nat, source: Source, fid: nat)
    requires Inv(cfg, s) && Recoverer(s, p, u) && s.writer.None? && !OpenIn(s.disk, u)
    requires u in s.disk.sessions ==> s.disk.sessions[u].source == source
    ensures CompleteSteps(cfg, s, p, fid).disk == RecoverUpload(cfg, s.disk, u, source, fid, s.now).disk
  {
    var l := DoCompleteLoad(s, p);
    RecoverLoadIsRun(s, p, u);
    if u in s.disk.sessions && s.disk.sessions[u].state == Completing {
      var id := s.disk.sessions[u].fileId;
      ClaimInOrder(cfg, s, u);
      ClaimedOutcome(cfg, s.disk, u, fid, s.now, id.value);
      RecoverClaimedIsRun(cfg, l, p, u, fid, id.value);
    } else {
      ClosingIdles(cfg, l, p, fid);
      RecoverEnded(cfg, s.disk, u, source, fid, s.now);
    }
  }

  lemma RecoverEnded(cfg: Config, d: Disk, u: nat, source: Source, fid: nat, now: nat)
    requires u in d.sessions ==> Terminal(d.sessions[u].state) && d.sessions[u].source == source
    ensures RecoverUpload(cfg, d, u, source, fid, now).disk ==
              if u in d.sessions then d.(sessions := Expire(d.sessions, now)) else d
  {
  }

  function RecoverRun(p: nat, u: nat, fid: nat): seq<Action> {
    [OpenLock(p, u, RecoverOp), AcquireLock(p)]
      + Work(p, fid, [RestartUnlink(p), RestartReset(p)] + Leaving(p))
  }

  /** Recovery of a listed upload is a run of the machine, however old the listing is. */
  lemma RecoverRefines(cfg: Config, s: State, p: nat, u: nat, source: Source, fid: nat)
    requires Inv(cfg, s) && Alone(s, p, u) && u in s.listed
    requires u in s.disk.sessions ==> s.disk.sessions[u].source == source
    ensures Run(cfg, s, RecoverRun(p, u, fid)).disk == RecoverUpload(cfg, s.disk, u, source, fid, s.now).disk
    ensures Inv(cfg, Run(cfg, s, RecoverRun(p, u, fid)))
  {
    TakesLock(cfg, s, p, u, RecoverOp);
    OpenLockKeeps(cfg, s, p, u, RecoverOp);
    AcquireLockKeeps(cfg, DoOpenLock(s, p, u, RecoverOp), p);
    NotOpenWhenListed(s, u);
    RecoversAndLeaves(cfg, DoAcquireLock(DoOpenLock(s, p, u, RecoverOp), p), p, u, source, fid);
    LockingUnfolds(cfg, s, p, u, RecoverOp, Work(p, fid, [RestartUnlink(p), RestartReset(p)] + Leaving(p)));
    RunKeeps(cfg, s, RecoverRun(p, u, fid));
  }

  lemma NotOpenWhenListed(s: State, u: nat)
    requires LocksInv(s) && u in s.listed
    ensures !OpenIn(s.disk, u)
  {
  }

  lemma RecoversAndLeaves(cfg: Config, t: State, p: nat, u: nat, source: Source, fid: nat)
    requires Inv(cfg, t) && Recoverer(t, p, u) && t.writer.None? && !OpenIn(t.disk, u)
    requires u in t.disk.sessions ==> t.disk.sessions[u].source == source
    ensures Run(cfg, t, Work(p, fid, [RestartUnlink(p), RestartReset(p)] + Leaving(p))).disk
         == RecoverUpload(cfg, t.disk, u, source, fid, t.now).disk
  {
    RecoversUnderLock(cfg, t, p, u, source, fid);
    CompletingUnfolds(cfg, t, p, fid, [RestartUnlink(p), RestartReset(p)] + Leaving(p));
    WorkKeeps(cfg, t, p, fid);
    NothingRestarts(cfg, CompleteSteps(cfg, t, p, fid), p);
  }

  lemma WorkKeeps(cfg: Config, t: State, p: nat, fid: nat)
    requires Inv(cfg, t)
    ensures Inv(cfg, CompleteSteps(cfg, t, p, fid))
  {
    CompletingUnfolds(cfg, t, p, fid, []);
    RunKeeps(cfg, t, Work(p, fid, []));
  }

  lemma NothingRestarts(cfg: Config, c: State, p: nat)
    requires Inv(cfg, c)
    ensures Run(cfg, c, [RestartUnlink(p), RestartReset(p)] + Leaving(p)).disk == c.disk
  {
    RunTwo(cfg, c, RestartUnlink(p), RestartReset(p), Leaving(p));
    RestartKeeps(cfg, c, p);
    LeavingKeepsDisk(cfg, c, p);
  }

  // ------------------------------------------------------------- promises

  /** The row a sender still owns after this transaction's expiry. */
  predicate Writable(s: State, u: nat, source: Source) {
    OpenIn(s.disk, u) && s.disk.sessions[u].expiresAt > s.now && s.disk.sessions[u].source == source
  }

  /**
   A lost reply costs nothing: once a chunk is on record, sending it again, whatever was torn
   or trimmed in between, is answered as a replay and leaves every acknowledged byte alone.
   */
  lemma ReplayIsSafe(cfg: Config, s: State, u: nat, q: WriteRequest)
    requires Inv(cfg, s) && Writable(s, u, q.source) && CheckRequest(cfg.hash, q).None?
    requires q.declared.None? || q.declared.value == s.disk.sessions[u].total
    requires var chunks := s.disk.sessions[u].chunks;
             q.key in chunks && chunks[q.key] == Chunk(q.offset, |q.data|, q.digest)
    ensures var w := WriteChunk(cfg, s.disk, u, q, s.now);
            && w.verdict == Replay(s.disk.sessions[u].verified)
            && w.disk.sessions == Expire(s.disk.sessions, s.now)
            && PartialBytes(w.disk, u) == s.accepted[u]
  {
    var x := s.disk.sessions[u];
    assert UploadInv(cfg, s, u);
    assert OpenInv(cfg, s.disk, s.accepted[u], u);
    assert Expire(s.disk.sessions, s.now)[u] == x;
    var d := TrimOverhang(s.disk, u, x.verified, s.now);
    assert PartialBytes(d, u) == s.accepted[u];
    assert RangeHas(cfg.hash, s.accepted[u], x.chunks[q.key].offset, x.chunks[q.key].count, x.chunks[q.key].digest);
    JudgedLate(cfg, s.disk, u, q, s.now);
    assert JudgeBytes(cfg, x, s.accepted[u], u in d.partials, d.free, Expire(s.disk.sessions, s.now), q)
        == Replay(x.verified);
  }

  lemma PartialStartsRight(cfg: Config, s: State, u: nat)
    requires Inv(cfg, s) && OpenIn(s.disk, u)
    ensures var x := s.disk.sessions[u];
            && u in s.accepted && |s.accepted[u]| == x.verified
            && !LostVerifiedBytes(s.disk, u, x.verified)
            && PartialBytes(TrimOverhang(s.disk, u, x.verified, s.now), u) == s.accepted[u]
  {
    assert UploadInv(cfg, s, u);
    assert OpenInv(cfg, s.disk, s.accepted[u], u);
    assert PartialBytes(TrimOverhang(s.disk, u, s.disk.sessions[u].verified, s.now), u) == s.accepted[u];
  }

  lemma NextJudged(cfg: Config, d: Disk, u: nat, q: WriteRequest, now: nat)
    requires OpenIn(d, u) && d.sessions[u].expiresAt > now && d.sessions[u].source == q.source
    requires CheckRequest(cfg.hash, q).None? && (q.declared.None? || q.declared.value == d.sessions[u].total)
    requires q.key !in d.sessions[u].chunks && q.offset == d.sessions[u].verified
    requires q.offset + |q.data| <= d.sessions[u].total
    requires !LostVerifiedBytes(d, u, d.sessions[u].verified)
    ensures var t := TrimOverhang(d, u, d.sessions[u].verified, now);
            var room := HasCapacity(cfg, t.free, Expire(d.sessions, now), 0);
            JudgeWrite(cfg, d, u, q, now) == Judged(t, if room then Accept else Refuse("insufficient_storage"))
  {
    assert Expire(d.sessions, now)[u] == d.sessions[u];
  }

  /** The next bytes in order are accepted exactly when there is room for them. */
  lemma NextChunkIsAccepted(cfg: Config, s: State, u: nat, q: WriteRequest)
    requires Inv(cfg, s) && Writable(s, u, q.source) && CheckRequest(cfg.hash, q).None?
    requires q.declared.None? || q.declared.value == s.disk.sessions[u].total
    requires q.key !in s.disk.sessions[u].chunks && q.offset == s.disk.sessions[u].verified
    requires q.offset + |q.data| <= s.disk.sessions[u].total
    ensures var w := WriteChunk(cfg, s.disk, u, q, s.now);
            var d := TrimOverhang(s.disk, u, s.disk.sessions[u].verified, s.now);
            if HasCapacity(cfg, d.free, Expire(s.disk.sessions, s.now), 0) then
              && w.verdict == Accept
              && PartialBytes(w.disk, u) == s.accepted[u] + q.data
              && u in w.disk.sessions && w.disk.sessions[u].verified == |s.accepted[u]| + |q.data|
            else w.verdict == Refuse("insufficient_storage") && w.disk.sessions == s.disk.sessions
  {
    PartialStartsRight(cfg, s, u);
    NextWritten(cfg, s.disk, u, q, s.now, s.accepted[u]);
  }

  lemma NextWritten(cfg: Config, d: Disk, u: nat, q: WriteRequest, now: nat, accepted: seq<byte>)
    requires OpenIn(d, u) && d.sessions[u].expiresAt > now && d.sessions[u].source == q.source
    requires CheckRequest(cfg.hash, q).None? && (q.declared.None? || q.declared.value == d.sessions[u].total)
    requires q.key !in d.sessions[u].chunks && q.offset == d.sessions[u].verified == |accepted|
    requires q.offset + |q.data| <= d.sessions[u].total
    requires !LostVerifiedBytes(d, u, d.sessions[u].verified)
    requires PartialBytes(TrimOverhang(d, u, d.sessions[u].verified, now), u) == accepted
    ensures var w := WriteChunk(cfg, d, u, q, now);
            if HasCapacity(cfg, TrimOverhang(d, u, d.sessions[u].verified, now).free, Expire(d.sessions, now), 0) then
              && w.verdict == Accept && PartialBytes(w.disk, u) == accepted + q.data
              && u in w.disk.sessions && w.disk.sessions[u].verified == |accepted| + |q.data|
            else w.verdict == Refuse("insufficient_storage") && w.disk.sessions == d.sessions
  {
    NextJudged(cfg, d, u, q, now);
    assert Expire(d.sessions, now)[u] == d.sessions[u];
  }

  /** All declared bytes have arrived, and they are the declared ones. */
  ghost predicate AllThere(cfg: Config, s: State, u: nat)
    requires u in s.disk.sessions
  {
    u in s.accepted && |s.accepted[u]| == s.disk.sessions[u].total
    && cfg.hash(s.accepted[u]) == s.disk.sessions[u].expected
  }

  predicate Finishable(s: State, u: nat)
    requires u in s.disk.sessions
  {
    s.disk.sessions[u].state in {Completing, Committed} || (OpenIn(s.disk, u) && s.disk.sessions[u].expiresAt > s.now)
  }

  lemma ClaimedCompletes(cfg: Config, s: State, u: nat, source: Source, fid: nat)
    requires Inv(cfg, s) && u in s.disk.sessions && s.disk.sessions[u].source == source
    requires s.disk.sessions[u].state == Completing
    ensures var c := CompleteOutcome(cfg, s.disk, u, source, fid, s.now);
            AllThere(cfg, s, u) && c.outcome.Ok? && FileHolds(cfg, s, c.disk, u, c.outcome.value)
  {
    assert UploadInv(cfg, s, u);
    assert CompletingInv(cfg, s.disk, s.accepted[u], u);
  }

  lemma OpenOutcome(cfg: Config, d: Disk, u: nat, source: Source, fid: nat, now: nat)
    requires OpenIn(d, u) && d.sessions[u].expiresAt > now && d.sessions[u].source == source
    requires fid !in d.files && fid !in d.objects
    ensures var c := CompleteOutcome(cfg, d, u, source, fid, now);
            var x := d.sessions[u];
            && (c.outcome.Ok? <==> CheckPartial(cfg.hash, d, u, x).None?)
            && (c.outcome.Ok? ==>
                  && c.outcome.value == fid
                  && u in c.disk.sessions && c.disk.sessions[u].state == Committed
                  && c.disk.sessions[u].fileId == Some(fid) && c.disk.sessions[u].total == x.total
                  && c.disk.sessions[u].expected == x.expected
                  && fid in c.disk.files && c.disk.files[fid] == FileRow(x.total, x.expected, false)
                  && fid in c.disk.objects && u in d.partials && c.disk.objects[fid] == d.partials[u].bytes)
  {
    var x := d.sessions[u];
    assert Expire(d.sessions, now)[u] == x;
    var e := d.(sessions := Expire(d.sessions, now));
    assert CheckPartial(cfg.hash, e, u, x) == CheckPartial(cfg.hash, d, u, x);
  }

  lemma PartialIsAll(cfg: Config, s: State, u: nat)
    requires Inv(cfg, s) && OpenIn(s.disk, u)
    ensures CheckPartial(cfg.hash, s.disk, u, s.disk.sessions[u]).None? <==> AllThere(cfg, s, u)
    ensures AllThere(cfg, s, u) ==> PartialBytes(s.disk, u) == s.accepted[u]
  {
    assert UploadInv(cfg, s, u);
    assert OpenInv(cfg, s.disk, s.accepted[u], u);
    if |PartialBytes(s.disk, u)| == |s.accepted[u]| {
      assert PartialBytes(s.disk, u) == s.accepted[u];
    }
  }

  lemma OpenCompletes(cfg: Config, s: State, u: nat, source: Source, fid: nat)
    requires Inv(cfg, s) && Writable(s, u, source) && FreshFile(s.disk, fid)
    ensures var c := CompleteOutcome(cfg, s.disk, u, source, fid, s.now);
            && (c.outcome.Ok? <==> AllThere(cfg, s, u))
            && (c.outcome.Ok? ==> FileHolds(cfg, s, c.disk, u, c.outcome.value))
  {
    OpenOutcome(cfg, s.disk, u, source, fid, s.now);
    PartialIsAll(cfg, s, u);
  }

  /** The committed row of upload u is file f, with the acknowledged bytes behind it. */
  ghost predicate FileHolds(cfg: Config, s: State, d: Disk, u: nat, f: nat) {
    && u in d.sessions && d.sessions[u].state == Committed && d.sessions[u].fileId == Some(f)
    && f in d.files && d.files[f].size == d.sessions[u].total && d.files[f].digest == d.sessions[u].expected
    && (!d.files[f].deleted ==> u in s.accepted && f in d.objects && d.objects[f] == s.accepted[u])
  }

  lemma CommittedCompletes(cfg: Config, s: State, u: nat, source: Source, fid: nat)
    requires Inv(cfg, s) && u in s.disk.sessions && s.disk.sessions[u].source == source
    requires s.disk.sessions[u].state == Committed
    ensures var c := CompleteOutcome(cfg, s.disk, u, source, fid, s.now);
            AllThere(cfg, s, u) && c.outcome.Ok? && FileHolds(cfg, s, c.disk, u, c.outcome.value)
  {
    assert UploadInv(cfg, s, u);
    var y := Expire(s.disk.sessions, s.now)[u];
    assert y.state == Committed && y.fileId == s.disk.sessions[u].fileId && y.total == s.disk.sessions[u].total;
  }

  /**
   Completion by the sender succeeds exactly when every declared byte has been acknowledged
   and they hash to the declared digest, and then the file holds exactly those bytes.
   */
  lemma CompletesExactly(cfg: Config, s: State, u: nat, source: Source, fid: nat)
    requires Inv(cfg, s) && u in s.disk.sessions && s.disk.sessions[u].source == source
    requires FreshFile(s.disk, fid)
    ensures var c := CompleteOutcome(cfg, s.disk, u, source, fid, s.now);
            && (c.outcome.Ok? <==> Finishable(s, u) && AllThere(cfg, s, u))
            && (c.outcome.Ok? ==> FileHolds(cfg, s, c.disk, u, c.outcome.value))
  {
    assert UploadInv(cfg, s, u);
    if Writable(s, u, source) {
      OpenCompletes(cfg, s, u, source, fid);
    } else if s.disk.sessions[u].state == Completing {
      ClaimedCompletes(cfg, s, u, source, fid);
    } else if s.disk.sessions[u].state == Committed {
      CommittedCompletes(cfg, s, u, source, fid);
    } else {
      assert Expire(s.disk.sessions, s.now)[u].state in {Cancelled, Expired, FailedTerminal};
      assert !Finishable(s, u);
    }
  }

  // ---------------------------------------------------------------- recovery

  /**
   Whatever else is wrong with the disk, recovery never throws back an upload whose object is
   in its slot: the claim stays or is committed, and the partials are left alone.
   */
  lemma PublishedIsNeverReset(cfg: Config, d: Disk, u: nat, source: Source, f: nat, fid: nat, now: nat)
    requires u in d.sessions && d.sessions[u].state == Completing && d.sessions[u].fileId == Some(f)
    requires f in d.objects
    ensures var r := RecoverUpload(cfg, d, u, source, fid, now);
            && r.ending in {Finished, Deferred} && r.disk.partials == d.partials
            && u in r.disk.sessions && r.disk.sessions[u].state in {Completing, Committed}
            && r.disk.sessions[u].fileId == Some(f)
  {
    var x := Expire(d.sessions, now)[u];
    assert x == d.sessions[u];
    var e := d.(sessions := Expire(d.sessions, now));
    assert Inspect(cfg.hash, e, u, x, f) in {ObjectReady, Conflict};
  }

  /** Recovery only ever looks at one upload: all others see no more than expiry. */
  lemma OthersOnlyExpire(cfg: Config, d: Disk, u: nat, source: Source, fid: nat, now: nat, v: nat)
    requires v != u
    ensures var r := RecoverUpload(cfg, d, u, source, fid, now);
            && (v in r.disk.sessions <==> v in d.sessions)
            && (v in d.sessions ==> r.disk.sessions[v] in {d.sessions[v], Expire(d.sessions, now)[v]})
            && SameAt(d.partials, r.disk.partials, v)
  {
    OutcomeTouchesOne(cfg, d, u, source, fid, now, v);
  }

  /** Upload v has the same row and partial on both disks. */
  predicate Aside(d: Disk, e: Disk, v: nat) {
    && (v in e.sessions <==> v in d.sessions) && (v in d.sessions ==> e.sessions[v] == d.sessions[v])
    && SameAt(d.partials, e.partials, v)
  }

  lemma CommitTouchesOne(d: Disk, u: nat, fid: nat, v: nat)
    requires v != u
    ensures Aside(d, CommitOutcome(d, u, fid).disk, v)
    ensures u in d.partials ==> Aside(d, PublishOutcome(d, u, fid).disk, v)
  {
  }

  lemma OpenTouchesOne(cfg: Config, d: Disk, u: nat, source: Source, fid: nat, now: nat, v: nat)
    requires v != u && u in d.sessions && Open(Expire(d.sessions, now)[u].state)
    requires Expire(d.sessions, now)[u].source == source
    ensures Aside(d.(sessions := Expire(d.sessions, now)), CompleteOutcome(cfg, d, u, source, fid, now).disk, v)
  {
    var s1 := Expire(d.sessions, now);
    var k := d.(sessions := s1[u := s1[u].(fileId := Some(fid), state := Completing)]);
    CommitTouchesOne(k, u, fid, v);
  }

  lemma OutcomeTouchesOne(cfg: Config, d: Disk, u: nat, source: Source, fid: nat, now: nat, v: nat)
    requires v != u
    ensures var c := CompleteOutcome(cfg, d, u, source, fid, now);
            Aside(d, c.disk, v) || Aside(d.(sessions := Expire(d.sessions, now)), c.disk, v)
  {
    var s1 := Expire(d.sessions, now);
    var e := d.(sessions := s1);
    if u in s1 && s1[u].source == source {
      if Open(s1[u].state) {
        OpenTouchesOne(cfg, d, u, source, fid, now, v);
      } else if s1[u].fileId.Some? {
        CommitTouchesOne(e, u, s1[u].fileId.value, v);
      }
    }
  }

  /** In every reachable state, recovering a claimed upload finishes it. */
  lemma RecoveryFinishes(cfg: Config, free: nat, actions: seq<Action>, u: nat, fid: nat)
    requires var s := Reached(cfg, free, actions); u in s.disk.sessions && s.disk.sessions[u].state == Completing
    ensures var s := Reached(cfg, free, actions);
            var r := RecoverUpload(cfg, s.disk, u, s.disk.sessions[u].source, fid, s.now);
            && r.ending == Finished && s.disk.sessions[u].fileId.Some?
            && FileHolds(cfg, s, r.disk, u, s.disk.sessions[u].fileId.value)
  {
    ReachedInv(cfg, free, actions);
    var s := Reached(cfg, free, actions);
    ClaimedCompletes(cfg, s, u, s.disk.sessions[u].source, fid);
    ClaimKeepsItsFile(cfg, s, u, s.disk.sessions[u].source, fid);
  }

  lemma ClaimKeepsItsFile(cfg: Config, s: State, u: nat, source: Source, fid: nat)
    requires Inv(cfg, s) && u in s.disk.sessions && s.disk.sessions[u].state == Completing
    ensures var c := CompleteOutcome(cfg, s.disk, u, source, fid, s.now);
            s.disk.sessions[u].fileId.Some? && (c.outcome.Ok? ==> s.disk.sessions[u].fileId == Some(c.outcome.value))
  {
    assert UploadInv(cfg, s, u);
    assert Expire(s.disk.sessions, s.now)[u] == s.disk.sessions[u];
  }

  /**
   Recovering an upload that is open again, because the listing is out of date, loses its bytes
   exactly when the partial does not pass the checks of a completion, be it damaged or merely
   incomplete: then the partial is gone and the verified offset still stands.
   */
  lemma StaleRecoveryDropsBytes(cfg: Config, d: Disk, u: nat, source: Source, fid: nat, now: nat)
    requires OpenIn(d, u) && d.sessions[u].expiresAt > now && d.sessions[u].source == source
    ensures var x := d.sessions[u];
            var r := RecoverUpload(cfg, d, u, source, fid, now);
            && (r.ending == Missed <==> CheckPartial(cfg.hash, d, u, x).Some?)
            && (r.ending == Missed ==>
                  && u !in r.disk.partials && r.disk.objects == d.objects
                  && u in r.disk.sessions && r.disk.sessions[u].verified == x.verified)
            && (r.ending != Missed ==>
                  && u in d.partials
                  && (|| (u in r.disk.partials && r.disk.partials[u] == d.partials[u])
                      || (fid in r.disk.objects && r.disk.objects[fid] == d.partials[u].bytes)))
  {
    var x := d.sessions[u];
    var e := d.(sessions := Expire(d.sessions, now));
    assert e.sessions[u] == x && CheckPartial(cfg.hash, e, u, x) == CheckPartial(cfg.hash, d, u, x);
  }

  const SENDER := Source("phone", "install")

  /** A claimed upload of two bytes whose partial somebody has removed. */
  function Robbed(cfg: Config): Disk {
    Disk(map[0 := Session(2, "e", 2, Completing, Some(9), SENDER, None, "", map[], 0, 100)],
         map[], map[], map[], cfg.reserve + 2)
  }

  function FirstByte(h: Hash): WriteRequest {
    WriteRequest(0, [7], h([7]), "k", SENDER, None)
  }

  /** The row after the first recovery, and after the sender has begun again. */
  const RESET := Session(2, "e", 0, FailedRetryable, None, SENDER, None, "", map[], 0, 10 + UPLOAD_LEASE_SECONDS)

  function Resumed(h: Hash): Session {
    RowAfterWrite(RESET, FirstByte(h), 20)
  }

  lemma RobbedIsReset(cfg: Config)
    ensures RecoverUpload(cfg, Robbed(cfg), 0, SENDER, 5, 10)
         == Recovery(Robbed(cfg).(sessions := map[0 := RESET]), Restarted)
  {
    var d := Robbed(cfg);
    assert Expire(d.sessions, 10) == d.sessions;
    assert CompleteOutcome(cfg, d, 0, SENDER, 5, 10) == Completed(d, Err("missing_partial"));
    assert d.partials - {0} == d.partials;
    assert d.sessions[0 := RESET] == map[0 := RESET];
  }

  lemma ResetIsResumed(cfg: Config)
    ensures WriteChunk(cfg, Robbed(cfg).(sessions := map[0 := RESET]), 0, FirstByte(cfg.hash), 20)
         == Written(ResumedDisk(cfg), Accept)
  {
    var d := Robbed(cfg).(sessions := map[0 := RESET]);
    assert Expire(d.sessions, 20) == d.sessions;
    assert RemainingMap(d.sessions) == map[][0 := 2];
    SumPut(map[], 0, 2);
    var q := FirstByte(cfg.hash);
    assert |q.key| == 1;
    assert CheckRequest(cfg.hash, q).None?;
    NextJudged(cfg, d, 0, q, 20);
    assert HasCapacity(cfg, d.free, Expire(d.sessions, 20), 0);
    assert PartialBytes(d, 0) + q.data == [7];
    assert d.sessions[0 := Resumed(cfg.hash)] == map[0 := Resumed(cfg.hash)];
    assert map[][0 := Blob([7], 20)] == map[0 := Blob([7], 20)];
  }

  /**
   It happens: a claim whose partial was removed is thrown back, the sender begins again, and a
   second recovery with the old listing removes the acknowledged byte. The next write notices.
   */
  lemma StaleRecoveryHappens(cfg: Config, q: WriteRequest)
    requires CheckRequest(cfg.hash, q).None? && q.source == SENDER && q.declared.None?
    ensures var r := RecoverUpload(cfg, Robbed(cfg), 0, SENDER, 5, 10);
            var w := WriteChunk(cfg, r.disk, 0, FirstByte(cfg.hash), 20);
            var again := RecoverUpload(cfg, w.disk, 0, SENDER, 6, 30);
            && r.ending == Restarted && w.verdict == Accept && PartialBytes(w.disk, 0) == [7]
            && again.ending == Missed && 0 !in again.disk.partials && 0 in again.disk.sessions
            && again.disk.sessions[0].verified == 1
            && WriteChunk(cfg, again.disk, 0, q, 40).verdict == Restart
  {
    RobbedIsReset(cfg);
    ResetIsResumed(cfg);
    ResumedIsRobbed(cfg);
    var again := RecoverUpload(cfg, ResumedDisk(cfg), 0, SENDER, 6, 30);
    LossIsNoticed(cfg, again.disk, 0, q, 40);
  }

  function ResumedDisk(cfg: Config): Disk {
    Robbed(cfg).(sessions := map[0 := Resumed(cfg.hash)], partials := map[0 := Blob([7], 20)], free := cfg.reserve + 1)
  }

  lemma ResumedIsRobbed(cfg: Config)
    ensures var again := RecoverUpload(cfg, ResumedDisk(cfg), 0, SENDER, 6, 30);
            && again.ending == Missed && 0 !in again.disk.partials && 0 in again.disk.sessions
            && again.disk.sessions[0] == Resumed(cfg.hash).(state := FailedRetryable)
  {
    StaleRecoveryDropsBytes(cfg, ResumedDisk(cfg), 0, SENDER, 6, 30);
    RowStands(cfg, ResumedDisk(cfg), 0, SENDER, 6, 30);
  }

  /** A write to an upload whose partial is too short is told to start again. */
  lemma LossIsNoticed(cfg: Config, d: Disk, u: nat, q: WriteRequest, now: nat)
    requires OpenIn(d, u) && d.sessions[u].expiresAt > now && d.sessions[u].source == q.source
    requires CheckRequest(cfg.hash, q).None? && (q.declared.None? || q.declared.value == d.sessions[u].total)
    requires LostVerifiedBytes(d, u, d.sessions[u].verified)
    ensures WriteChunk(cfg, d, u, q, now).verdict == Restart
  {
    assert Expire(d.sessions, now)[u] == d.sessions[u];
  }

  /** A partial of the wrong size leaves the row open. */
  lemma RowStands(cfg: Config, d: Disk, u: nat, source: Source, fid: nat, now: nat)
    requires OpenIn(d, u) && d.sessions[u].expiresAt > now && d.sessions[u].source == source
    requires u in d.partials && |d.partials[u].bytes| != d.sessions[u].total
    ensures var r := RecoverUpload(cfg, d, u, source, fid, now).disk;
            u in r.sessions && r.sessions[u] == d.sessions[u].(state := FailedRetryable)
  {
    assert Expire(d.sessions, now)[u] == d.sessions[u];
  }
}
