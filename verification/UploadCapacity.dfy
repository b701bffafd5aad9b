/**
 Capacity conservation: whatever uploads and inline uploads do, and wherever they die, the
 free space plus the bytes the next write would truncate covers the reserve plus everything
 the unfinished uploads may still send.

 An open upload counts until its lease runs out. While a write transaction is open, "now" is
 the time that transaction read when it began, because that is the time it expires by. Counting
 as of an earlier time counts more; as of a time before all others it counts every open upload.
 */
module UploadCapacity {
  import opened Prelude
  import opened Sums
  import opened UploadModel
  import opened UploadMachine
  import opened UploadInvariant
  import opened UploadSteps

  predicate Counted(x: Session, at: int) {
    x.state == Completing || (Open(x.state) && x.expiresAt > at)
  }

  /** Truncatable bytes of one upload less the bytes it may still send. */
  function Net(d: Disk, at: int, u: nat): int
    requires u in d.sessions
  {
    if Counted(d.sessions[u], at) then Overhang(d, u) - Remaining(d.sessions[u]) else 0
  }

  function NetMap(d: Disk, at: int): map<nat, int> {
    map u | u in d.sessions :: Net(d, at, u)
  }

  function TransactionTime(s: State): nat {
    if s.writer.Some? && s.writer.value in s.procs then
      var pc := s.procs[s.writer.value];
      if pc.Writing? || pc.Inlining? then pc.at else s.now
    else s.now
  }

  /** The bytes an inline upload in progress has been granted but not written yet. */
  function Granted(s: State): nat {
    if s.writer.Some? && s.writer.value in s.procs && s.procs[s.writer.value].Inlining?
       && s.procs[s.writer.value].spent <= |s.procs[s.writer.value].data|
    then |s.procs[s.writer.value].data| - s.procs[s.writer.value].spent else 0
  }

  ghost predicate Covers(cfg: Config, d: Disk, at: int, granted: nat) {
    d.free + Sum(NetMap(d, at)) >= cfg.reserve + granted
  }

  /** The disk covers what counts as of a time. */
  ghost predicate Fits(cfg: Config, s: State, at: int) {
    Covers(cfg, s.disk, at, Granted(s))
  }

  ghost predicate CapInv(cfg: Config, s: State) {
    Fits(cfg, s, TransactionTime(s))
  }

  /** The disk as the next transaction sees it once it has expired what is overdue. */
  function AfterExpiry(s: State): Disk {
    s.disk.(sessions := Expire(s.disk.sessions, TransactionTime(s)))
  }

  /** The invariant in the vault's own terms. */
  lemma CapacityMeaning(cfg: Config, s: State)
    ensures CapInv(cfg, s) <==>
              s.disk.free + Truncatable(AfterExpiry(s))
                >= cfg.reserve + Reserved(AfterExpiry(s).sessions) + Granted(s)
  {
    NetIsDifference(s.disk, TransactionTime(s));
  }

  lemma NetIsDifference(d: Disk, at: nat)
    ensures var e := d.(sessions := Expire(d.sessions, at));
            Sum(NetMap(d, at)) == Truncatable(e) - Reserved(e.sessions)
  {
    var e := d.(sessions := Expire(d.sessions, at));
    forall u | u in d.sessions ensures NetMap(d, at)[u] == OverhangMap(e)[u] - RemainingMap(e.sessions)[u] {
      ExpiredShare(d, at, u);
    }
    SumDifference(OverhangMap(e), RemainingMap(e.sessions), NetMap(d, at));
  }

  lemma ExpiredShare(d: Disk, at: nat, u: nat)
    requires u in d.sessions
    ensures var e := d.(sessions := Expire(d.sessions, at));
            u in e.sessions && Net(d, at, u) == Overhang(e, u) - Remaining(e.sessions[u])
  {
  }

  /** Counted as of a time before all leases, every open upload counts: the sums over the table. */
  lemma PlainSums(d: Disk)
    ensures Sum(NetMap(d, -1)) == Truncatable(d) - Reserved(d.sessions)
  {
    SumDifference(OverhangMap(d), RemainingMap(d.sessions), NetMap(d, -1));
  }

  // ---------------------------------------------------------------- raising

  /** An overhang is part of the bytes still to come, so ending an upload frees capacity. */
  lemma OverhangWithinRemaining(cfg: Config, s: State, u: nat)
    requires u in s.disk.sessions && UploadInv(cfg, s, u) && LiveIn(s.disk, u)
    ensures Overhang(s.disk, u) <= Remaining(s.disk.sessions[u])
  {
    if OpenIn(s.disk, u) {
      assert OpenInv(cfg, s.disk, s.accepted[u], u);
    } else {
      assert CompletingInv(cfg, s.disk, s.accepted[u], u);
    }
  }

  lemma NetNotPositive(cfg: Config, s: State, at: int)
    requires Inv(cfg, s)
    ensures forall u | u in s.disk.sessions :: Net(s.disk, at, u) <= 0
  {
    forall u | u in s.disk.sessions ensures Net(s.disk, at, u) <= 0 {
      assert UploadInv(cfg, s, u);
      if LiveIn(s.disk, u) {
        OverhangWithinRemaining(cfg, s, u);
      }
    }
  }

  /** If no upload's share falls and no space is used, coverage is kept. */
  lemma Raise(cfg: Config, d: Disk, at: int, g: nat, e: Disk, bt: int, h: nat)
    requires Covers(cfg, d, at, g) && h <= g
    requires e.sessions.Keys == d.sessions.Keys && e.free >= d.free
    requires forall u | u in d.sessions :: Net(d, at, u) <= Net(e, bt, u)
    ensures Covers(cfg, e, bt, h)
  {
    SumLe(NetMap(d, at), NetMap(e, bt));
  }

  /** If one upload's share and the free space change together, coverage is kept. */
  lemma Shift(cfg: Config, d: Disk, at: int, g: nat, e: Disk, u: nat)
    requires Covers(cfg, d, at, g)
    requires u in d.sessions && e.sessions.Keys == d.sessions.Keys
    requires forall v | v in d.sessions && v != u :: Net(e, at, v) == Net(d, at, v)
    requires e.free + Net(e, at, u) >= d.free + Net(d, at, u)
    ensures Covers(cfg, e, at, g)
  {
    SumPut(NetMap(d, at), u, Net(e, at, u));
    assert NetMap(e, at) == NetMap(d, at)[u := Net(e, at, u)];
  }

  /** A later time only lets more leases run out. */
  lemma Later(cfg: Config, s: State, at: int, g: nat, bt: int)
    requires Inv(cfg, s) && Covers(cfg, s.disk, at, g) && at <= bt
    ensures Covers(cfg, s.disk, bt, g)
  {
    NetNotPositive(cfg, s, at);
    Raise(cfg, s.disk, at, g, s.disk, bt, g);
  }

  /** What a successful capacity check grants. */
  lemma Grant(cfg: Config, d: Disk, at: nat, additional: nat)
    requires d.free >= 0 && HasCapacity(cfg, d.free, Expire(d.sessions, at), additional)
    ensures Covers(cfg, d, at, additional)
    ensures Covers(cfg, d.(sessions := Expire(d.sessions, at)), -1, additional)
  {
    var e := d.(sessions := Expire(d.sessions, at));
    NetIsDifference(d, at);
    PlainSums(e);
    SumNonNegative(OverhangMap(e));
    SumNonNegative(RemainingMap(e.sessions));
  }

  lemma {:induction false} SumNotPositive(m: map<nat, int>)
    requires forall k | k in m :: m[k] <= 0
    ensures Sum(m) <= 0
    decreases |m|
  {
    if m != map[] {
      var k :| k in m && Sum(m) == m[k] + Sum(m - {k});
      MinusOne(m, k);
      SumNotPositive(m - {k});
    }
  }

  /** The configured reserve is never eaten into, not even by torn writes. */
  lemma ReserveIsKept(cfg: Config, s: State, at: int)
    requires Inv(cfg, s) && Fits(cfg, s, at)
    ensures s.disk.free >= cfg.reserve + Granted(s)
  {
    NetNotPositive(cfg, s, at);
    SumNotPositive(NetMap(s.disk, at));
  }

  // -------------------------------------------------------------- the steps

  lemma WriterInPlace(cfg: Config, s: State)
    requires Inv(cfg, s)
    ensures TransactionTime(s) <= s.now
    ensures s.writer.Some? ==> s.writer.value in s.procs && ProcInv(cfg, s, s.writer.value)
  {
    if s.writer.Some? {
      assert ProcInv(cfg, s, s.writer.value);
    }
  }

  /** Steps that leave the disk and everyone else's transaction alone. */
  lemma QuietFits(cfg: Config, s: State, t: State, at: int)
    requires Fits(cfg, s, at) && t.disk == s.disk
    requires t.writer.None? || (t.writer == s.writer && t.writer.value in s.procs
                                && t.writer.value in t.procs && t.procs[t.writer.value] == s.procs[t.writer.value])
    ensures Fits(cfg, t, at)
  {
  }

  /** Ending uploads, publishing and freeing never lowers anybody's share. */
  lemma RaiseFits(cfg: Config, s: State, t: State, at: int)
    requires Fits(cfg, s, at) && t.writer.None?
    requires t.disk.sessions.Keys == s.disk.sessions.Keys && t.disk.free >= s.disk.free
    requires forall u | u in s.disk.sessions :: Net(s.disk, at, u) <= Net(t.disk, at, u)
    ensures Fits(cfg, t, at)
  {
    Raise(cfg, s.disk, at, Granted(s), t.disk, at, 0);
  }

  /** Ending an upload, whether it counted or not, lowers nobody's share. */
  lemma ExpiryRaises(cfg: Config, d: Disk, past: nat, at: int, g: nat)
    requires Covers(cfg, d, at, g) && forall u | u in d.sessions :: Net(d, at, u) <= 0
    ensures Covers(cfg, d.(sessions := Expire(d.sessions, past)), at, g)
  {
    Raise(cfg, d, at, g, d.(sessions := Expire(d.sessions, past)), at, g);
  }

  lemma ExpireFits(cfg: Config, s: State, past: nat, at: int, g: nat)
    requires Inv(cfg, s) && Covers(cfg, s.disk, at, g)
    ensures Covers(cfg, s.disk.(sessions := Expire(s.disk.sessions, past)), at, g)
  {
    NetNotPositive(cfg, s, at);
    ExpiryRaises(cfg, s.disk, past, at, g);
  }

  lemma LockStepFits(cfg: Config, s: State, a: Action, at: int)
    requires Inv(cfg, s) && Fits(cfg, s, at) && LockAction(a)
    ensures Fits(cfg, Do(cfg, s, a), at)
  {
    WriterInPlace(cfg, s);
    LocksAreQuiet(cfg, s, a);
    QuietFits(cfg, s, Do(cfg, s, a), at);
  }

  lemma LocksAreQuiet(cfg: Config, s: State, a: Action)
    requires LockAction(a) && (s.writer.Some? ==> s.writer.value in s.procs && !Holding(s.procs[s.writer.value]))
    ensures var t := Do(cfg, s, a);
            && t.disk == s.disk && t.now == s.now && t.writer == s.writer
            && (t.writer.Some? ==> t.writer.value in t.procs && t.procs[t.writer.value] == s.procs[t.writer.value])
  {
    if a.OpenLock? {
    } else if a.AcquireLock? {
    } else if a.CheckTerminal? {
    }
  }

  /** The places a lock step leaves from. */
  predicate Holding(pc: Pc) {
    pc.Waiting? || pc.Closing? || pc.Unlinking? || pc.Unlocking?
  }

  lemma SweepLockFits(cfg: Config, s: State, p: nat, u: nat, at: int)
    requires Inv(cfg, s) && Fits(cfg, s, at)
    ensures Fits(cfg, DoSweepLock(s, p, u), at)
    ensures Fits(cfg, DoSweepUnlink(s, p), at)
    ensures Fits(cfg, DoSweepEnd(s, p), at)
  {
    WriterInPlace(cfg, s);
    QuietFits(cfg, s, DoSweepLock(s, p, u), at);
    QuietFits(cfg, s, DoSweepUnlink(s, p), at);
    QuietFits(cfg, s, DoSweepEnd(s, p), at);
  }

  lemma CheckFits(cfg: Config, s: State, p: nat, at: int)
    requires Inv(cfg, s) && Fits(cfg, s, at)
    ensures Fits(cfg, DoCompleteCheck(cfg, s, p), at)
  {
    WriterInPlace(cfg, s);
    CheckIsQuiet(cfg, s, p);
    QuietFits(cfg, s, DoCompleteCheck(cfg, s, p), at);
  }

  lemma CheckIsQuiet(cfg: Config, s: State, p: nat)
    ensures var t := DoCompleteCheck(cfg, s, p);
            && t.disk == s.disk && t.now == s.now && t.writer == s.writer
            && (forall q | q in s.procs && !s.procs[q].Loaded? :: q in t.procs && t.procs[q] == s.procs[q])
  {
    if At(s, p) && s.procs[p].Loaded? {
      var pc := DoCompleteCheck(cfg, s, p).procs[p];
      assert DoCompleteCheck(cfg, s, p) == Goto(s, p, pc);
    } else {
      assert DoCompleteCheck(cfg, s, p) == s;
    }
  }

  /** A transaction that rolls back or dies leaves the disk as it was. */
  lemma EndFits(cfg: Config, s: State, p: nat, at: int)
    requires Inv(cfg, s) && Fits(cfg, s, at)
    ensures Fits(cfg, DoWriteAbort(s, p), at) && Fits(cfg, DoCrash(s, p), at)
  {
    WriterInPlace(cfg, s);
    if At(s, p) {
      assert ProcInv(cfg, s, p);
    }
    QuietFits(cfg, s, DoWriteAbort(s, p), at);
    QuietFits(cfg, s, DoCrash(s, p), at);
  }

  lemma CancelFits(cfg: Config, s: State, u: nat, source: Source, at: int)
    requires Inv(cfg, s) && Fits(cfg, s, at)
    ensures Fits(cfg, DoCancel(s, u, source), at)
  {
    if s.writer.None? && CancelError(s.disk, u, source).None? {
      NetNotPositive(cfg, s, at);
      RaiseFits(cfg, s, DoCancel(s, u, source), at);
    }
  }

  lemma LoadFits(cfg: Config, s: State, p: nat, at: int)
    requires Inv(cfg, s) && Fits(cfg, s, at)
    ensures Fits(cfg, DoCompleteLoad(s, p), at)
  {
    if s.writer.None? {
      ExpireFits(cfg, s, s.now, at, 0);
      var t := DoCompleteLoad(s, p);
      assert t.writer.None?;
      assert t.disk == s.disk || t.disk == s.disk.(sessions := Expire(s.disk.sessions, s.now));
    }
  }

  lemma SnapshotFits(cfg: Config, s: State, p: nat, cutoff: nat, at: int)
    requires Inv(cfg, s) && Fits(cfg, s, at)
    ensures Fits(cfg, DoSweepSnapshot(s, p, cutoff), at)
  {
    if p !in s.procs && s.writer.None? && cutoff <= s.now {
      NetNotPositive(cfg, s, at);
      RaiseFits(cfg, s, DoSweepSnapshot(s, p, cutoff), at);
    }
  }

  lemma MarkShares(d: Disk, u: nat, to: UploadState, at: int)
    requires (Open(to) || Terminal(to)) && forall v | v in d.sessions :: Net(d, at, v) <= 0
    ensures var e := d.(sessions := MarkError(d.sessions, u, to));
            && e.sessions.Keys == d.sessions.Keys
            && forall v | v in d.sessions :: Net(d, at, v) <= Net(e, at, v)
  {
  }

  lemma MarkFits(cfg: Config, s: State, p: nat, at: int)
    requires Inv(cfg, s) && Fits(cfg, s, at)
    ensures Fits(cfg, DoCompleteMark(s, p), at)
  {
    if s.writer.None? && At(s, p) && s.procs[p].Marking? {
      assert ProcInv(cfg, s, p);
      NetNotPositive(cfg, s, at);
      MarkShares(s.disk, s.procs[p].u, s.procs[p].to, at);
      RaiseFits(cfg, s, DoCompleteMark(s, p), at);
    }
  }

  /** What is claimed has all its bytes, so its share is nothing before and after. */
  lemma ClaimShares(d: Disk, u: nat, x: Session, fid: nat, at: int)
    requires ClaimRow(d, u, x, fid).Some?
    requires forall v | v in d.sessions :: Net(d, at, v) <= 0
    requires u in d.sessions && Overhang(d, u) == Remaining(d.sessions[u]) == 0
    ensures var e := ClaimRow(d, u, x, fid).value;
            && e.sessions.Keys == d.sessions.Keys && e.free == d.free
            && forall v | v in d.sessions :: Net(d, at, v) <= Net(e, at, v)
  {
  }

  lemma ClaimFits(cfg: Config, s: State, p: nat, fid: nat, at: int)
    requires Inv(cfg, s) && Fits(cfg, s, at)
    ensures Fits(cfg, DoCompleteClaim(s, p, fid), at)
  {
    if s.writer.None? && At(s, p) && s.procs[p].Verified? {
      assert ProcInv(cfg, s, p);
      var pc := s.procs[p];
      if ClaimRow(s.disk, pc.u, pc.snap, fid).Some? {
        assert UploadInv(cfg, s, pc.u);
        assert OpenInv(cfg, s.disk, s.accepted[pc.u], pc.u);
        NetNotPositive(cfg, s, at);
        ClaimShares(s.disk, pc.u, pc.snap, fid, at);
      }
      RaiseFits(cfg, s, DoCompleteClaim(s, p, fid), at);
    }
  }

  lemma CommitFits(cfg: Config, s: State, p: nat, at: int)
    requires Inv(cfg, s) && Fits(cfg, s, at)
    ensures Fits(cfg, DoCompleteCommit(s, p), at)
  {
    if s.writer.None? && At(s, p) && s.procs[p].Published? {
      var pc := s.procs[p];
      NetNotPositive(cfg, s, at);
      if CommitRow(s.disk, pc.u, pc.fid).Some? {
        CommitShares(s.disk, pc.u, pc.fid, at);
      }
      RaiseFits(cfg, s, DoCompleteCommit(s, p), at);
    }
  }

  lemma CommitShares(d: Disk, u: nat, fid: nat, at: int)
    requires CommitRow(d, u, fid).Some? && forall v | v in d.sessions :: Net(d, at, v) <= 0
    ensures var e := CommitRow(d, u, fid).value;
            && e.sessions.Keys == d.sessions.Keys && e.free == d.free
            && forall v | v in d.sessions :: Net(d, at, v) <= Net(e, at, v)
  {
  }

  lemma PublishFits(cfg: Config, s: State, p: nat, at: int)
    requires Inv(cfg, s) && Fits(cfg, s, at)
    ensures Fits(cfg, DoCompletePublish(cfg, s, p), at)
  {
    if At(s, p) && s.procs[p].Claimed? {
      var pc := s.procs[p];
      var t := DoCompletePublish(cfg, s, p);
      assert ProcInv(cfg, s, p) && UploadInv(cfg, s, pc.u);
      assert CompletingInv(cfg, s.disk, s.accepted[pc.u], pc.u);
      WriterInPlace(cfg, s);
      assert s.writer != Some(p);
      Raise(cfg, s.disk, at, Granted(s), t.disk, at, Granted(s));
    }
  }

  lemma UnlinkShares(d: Disk, u: nat, at: int)
    requires !LiveIn(d, u)
    ensures var e := UnlinkPartial(d, u);
            && e.sessions == d.sessions && e.free >= d.free
            && forall v | v in d.sessions :: Net(d, at, v) <= Net(e, at, v)
  {
  }

  lemma SweepPartialFits(cfg: Config, s: State, p: nat, u: nat, at: int)
    requires Inv(cfg, s) && Fits(cfg, s, at)
    ensures Fits(cfg, DoSweepPartial(s, p, u), at)
  {
    var t := DoSweepPartial(s, p, u);
    if t != s {
      assert ProcInv(cfg, s, p);
      assert u in s.disk.sessions ==> UploadInv(cfg, s, u);
      UnlinkShares(s.disk, u, at);
      Raise(cfg, s.disk, at, Granted(s), t.disk, at, Granted(s));
    }
  }

  lemma WriteBytesFits(cfg: Config, s: State, p: nat, data: seq<byte>, at: int)
    requires Inv(cfg, s) && Fits(cfg, s, at) && At(s, p) && s.procs[p].Writing? && at <= s.procs[p].at
    requires |data| <= |s.procs[p].q.data|
    ensures s.procs[p].q.offset >= 0
    ensures var pc := s.procs[p]; Covers(cfg, Appended(s.disk, pc.u, pc.q.offset, data, s.now), at, Granted(s))
  {
    var pc := s.procs[p];
    assert ProcInv(cfg, s, p) && UploadInv(cfg, s, pc.u);
    assert OpenInv(cfg, s.disk, s.accepted[pc.u], pc.u);
    Shift(cfg, s.disk, at, Granted(s), Appended(s.disk, pc.u, pc.q.offset, data, s.now), pc.u);
  }

  lemma WriteFits(cfg: Config, s: State, p: nat, junk: seq<byte>, at: int)
    requires Inv(cfg, s) && Fits(cfg, s, at) && at <= TransactionTime(s)
    ensures Fits(cfg, DoWriteTear(s, p, junk), at) && Fits(cfg, DoWriteData(s, p), at)
  {
    if At(s, p) && s.procs[p].Writing? {
      assert ProcInv(cfg, s, p);
      WriteBytesFits(cfg, s, p, s.procs[p].q.data, at);
      if |junk| <= |s.procs[p].q.data| {
        WriteBytesFits(cfg, s, p, junk, at);
      }
    }
  }

  lemma WriteCommitFits(cfg: Config, s: State, p: nat, at: int)
    requires Inv(cfg, s) && Fits(cfg, s, at) && at <= TransactionTime(s)
    ensures Fits(cfg, DoWriteCommit(s, p), at)
  {
    if At(s, p) {
      assert ProcInv(cfg, s, p);
      if s.procs[p].Writing? && s.procs[p].done {
        var pc := s.procs[p];
        ExpireKeeps(cfg, s, pc.at);
        ExpireFits(cfg, s, pc.at, at, 0);
        AppendFits(cfg, WithSessions(s, Expire(s.disk.sessions, pc.at)), p, at);
      }
    }
  }

  lemma AppendShares(e: State, p: nat, at: int)
    requires At(e, p) && e.procs[p].Writing? && e.procs[p].q.offset >= 0
    requires e.procs[p].u in e.disk.sessions && e.procs[p].u in e.accepted
    requires var x := e.disk.sessions[e.procs[p].u];
             && Open(x.state) && x.expiresAt > at && e.procs[p].q.offset == x.verified
             && x.verified + |e.procs[p].q.data| <= x.total
             && |PartialBytes(e.disk, e.procs[p].u)| == x.verified + |e.procs[p].q.data|
    requires forall v | v in e.disk.sessions :: Net(e.disk, at, v) <= 0
    ensures Append(e, p).disk.sessions.Keys == e.disk.sessions.Keys
    ensures forall v | v in e.disk.sessions :: Net(e.disk, at, v) <= Net(Append(e, p).disk, at, v)
  {
  }

  /** Recording a chunk turns overhang into verified bytes: nobody's share changes. */
  lemma AppendFits(cfg: Config, e: State, p: nat, at: int)
    requires Inv(cfg, e) && At(e, p) && e.procs[p].Writing? && e.procs[p].done
    requires Covers(cfg, e.disk, at, 0) && at <= e.procs[p].at
    ensures e.procs[p].u in e.disk.sessions && e.procs[p].u in e.accepted && e.procs[p].q.offset >= 0
    ensures Fits(cfg, Append(e, p), at)
  {
    assert ProcInv(cfg, e, p);
    var pc := e.procs[p];
    assert UploadInv(cfg, e, pc.u);
    assert OpenInv(cfg, e.disk, e.accepted[pc.u], pc.u);
    NetNotPositive(cfg, e, at);
    AppendShares(e, p, at);
    Raise(cfg, e.disk, at, 0, Append(e, p).disk, at, 0);
  }

  lemma WriteBeginFits(cfg: Config, s: State, p: nat, at: int)
    requires Inv(cfg, s) && Fits(cfg, s, at)
    ensures Fits(cfg, DoWriteBegin(cfg, s, p), at)
  {
    if At(s, p) && s.procs[p].Ready? && s.procs[p].op.WriteOp? && s.writer.None? {
      JudgedFits(cfg, s, s.procs[p].u, s.procs[p].op.q, at);
      JudgedTime(cfg, s, p);
    }
  }

  lemma JudgedTime(cfg: Config, s: State, p: nat)
    requires At(s, p) && s.procs[p].Ready? && s.procs[p].op.WriteOp? && s.writer.None?
    ensures TransactionTime(DoWriteBegin(cfg, s, p)) == s.now
    ensures Granted(DoWriteBegin(cfg, s, p)) == 0
    ensures DoWriteBegin(cfg, s, p).disk == JudgeWrite(cfg, s.disk, s.procs[p].u, s.procs[p].op.q, s.now).disk
  {
  }

  lemma JudgedFits(cfg: Config, s: State, u: nat, q: WriteRequest, at: int)
    requires Inv(cfg, s) && Covers(cfg, s.disk, at, 0) && s.writer.None?
    ensures Covers(cfg, JudgeWrite(cfg, s.disk, u, q, s.now).disk, at, 0)
  {
    var s1 := Expire(s.disk.sessions, s.now);
    ExpireFits(cfg, s, s.now, at, 0);
    if CheckRequest(cfg.hash, q).None? && JudgeSession(s1, u, q).None? {
      SurvivesExpiry(s.disk.sessions, s.now, u);
      NeverLost(cfg, s, u);
      TrimmedFits(cfg, s, u, at);
      JudgedLate(cfg, s.disk, u, q, s.now);
      TrimmedExpires(cfg, s, u, at);
    }
  }

  lemma TrimmedFits(cfg: Config, s: State, u: nat, at: int)
    requires Inv(cfg, s) && Covers(cfg, s.disk, at, 0) && s.writer.None? && OpenIn(s.disk, u)
    ensures Covers(cfg, Trimmed(s, u).disk, at, 0)
  {
    Shift(cfg, s.disk, at, 0, Trimmed(s, u).disk, u);
  }

  /** On the trimmed disk, too, expiring lowers nobody's share. */
  lemma TrimmedExpires(cfg: Config, s: State, u: nat, at: int)
    requires Inv(cfg, s) && s.writer.None? && OpenIn(s.disk, u) && Covers(cfg, Trimmed(s, u).disk, at, 0)
    ensures var d := Trimmed(s, u).disk; Covers(cfg, d.(sessions := Expire(d.sessions, s.now)), at, 0)
  {
    NetNotPositive(cfg, s, at);
    TrimmedNet(s, u, at);
    ExpiryRaises(cfg, Trimmed(s, u).disk, s.now, at, 0);
  }

  lemma TrimmedNet(s: State, u: nat, at: int)
    requires OpenIn(s.disk, u) && forall v | v in s.disk.sessions :: Net(s.disk, at, v) <= 0
    ensures forall v | v in s.disk.sessions :: Net(Trimmed(s, u).disk, at, v) <= 0
  {
  }

  lemma CreateFits(cfg: Config, s: State, u: nat, q: CreateRequest, at: int)
    requires Inv(cfg, s) && Fits(cfg, s, at)
    ensures Fits(cfg, DoCreate(cfg, s, u, q), at)
  {
    if s.writer.None? {
      ExpireFits(cfg, s, s.now, at, 0);
      if u !in s.born && JudgeCreate(cfg, s.disk, q, s.now).Fresh? {
        ReserveIsKept(cfg, s, at);
        Grant(cfg, s.disk, s.now, q.total);
        BornFits(cfg, s, u, q, at);
      }
    }
  }

  /** The rows of a create are expired when the capacity is checked, so any time counts the same. */
  lemma BornFits(cfg: Config, s: State, u: nat, q: CreateRequest, at: int)
    requires Inv(cfg, s) && s.writer.None? && u !in s.born && q.total > 0
    requires Covers(cfg, s.disk.(sessions := Expire(s.disk.sessions, s.now)), -1, q.total)
    ensures Covers(cfg, WithNewSession(s.disk, u, q, s.now), at, 0)
  {
    var e := s.disk.(sessions := Expire(s.disk.sessions, s.now));
    ExpireKeeps(cfg, s, s.now);
    ExpiredLater(cfg, s, at, q.total);
    ReleaseCovers(cfg, e, q, at, q.total);
    assert u !in s.disk.sessions && u !in s.disk.partials;
    AddCovers(cfg, e.(sessions := ReleaseKey(e.sessions, q)), u, NewSession(q, s.now), at, q.total);
  }

  lemma ReleaseCovers(cfg: Config, d: Disk, q: CreateRequest, at: int, g: nat)
    requires Covers(cfg, d, at, g)
    ensures Covers(cfg, d.(sessions := ReleaseKey(d.sessions, q)), at, g)
    ensures ReleaseKey(d.sessions, q).Keys == d.sessions.Keys
  {
    Raise(cfg, d, at, g, d.(sessions := ReleaseKey(d.sessions, q)), at, g);
  }

  lemma ExpiredLater(cfg: Config, s: State, at: int, g: nat)
    requires Inv(cfg, s) && Inv(cfg, WithSessions(s, Expire(s.disk.sessions, s.now)))
    requires Covers(cfg, s.disk.(sessions := Expire(s.disk.sessions, s.now)), -1, g)
    ensures Covers(cfg, s.disk.(sessions := Expire(s.disk.sessions, s.now)), at, g)
  {
    var t := WithSessions(s, Expire(s.disk.sessions, s.now));
    NetNotPositive(cfg, t, -1);
    Raise(cfg, t.disk, -1, g, t.disk, at, g);
  }

  /** A new upload takes at most the bytes it was granted. */
  lemma AddCovers(cfg: Config, d: Disk, u: nat, x: Session, at: int, g: nat)
    requires Covers(cfg, d, at, g) && u !in d.sessions && u !in d.partials
    requires x.verified == 0 && x.total == g && !Terminal(x.state)
    ensures Covers(cfg, d.(sessions := d.sessions[u := x]), at, 0)
  {
    var e := d.(sessions := d.sessions[u := x]);
    SumPut(NetMap(d, at), u, Net(e, at, u));
    assert NetMap(e, at) == NetMap(d, at)[u := Net(e, at, u)];
  }

  /** The step takes the grant of an inline upload. */
  ghost predicate Grants(cfg: Config, s: State, a: Action) {
    && a.InlineBegin? && a.p !in s.procs && s.writer.None? && a.data != []
    && FreshFile(s.disk, a.fid) && a.fid !in s.origin
    && HasCapacity(cfg, s.disk.free, Expire(s.disk.sessions, s.now), |a.data|)
  }

  lemma InlineBeginFits(cfg: Config, s: State, a: Action, at: int)
    requires a.InlineBegin? && Fits(cfg, s, at)
    ensures Fits(cfg, Do(cfg, s, a), at) <==> Grants(cfg, s, a) ==> Covers(cfg, s.disk, at, |a.data|)
  {
    if Grants(cfg, s, a) {
      assert Granted(Do(cfg, s, a)) == |a.data|;
    } else {
      assert Do(cfg, s, a) == s;
    }
  }

  lemma SameShares(d: Disk, e: Disk, at: int)
    requires e.sessions == d.sessions && e.partials == d.partials
    ensures NetMap(e, at) == NetMap(d, at)
  {
  }

  /** What is written is no longer granted. */
  lemma SpendsGrant(s: State, p: nat, k: nat)
    requires At(s, p) && s.procs[p].Inlining? && s.writer == Some(p)
    ensures var t := DoInlineWrite(s, p, k);
            && t.disk.free + Granted(s) == s.disk.free + Granted(t)
            && t.disk.sessions == s.disk.sessions && t.disk.partials == s.disk.partials
  {
  }

  lemma InlineWriteFits(cfg: Config, s: State, p: nat, k: nat, at: int)
    requires Inv(cfg, s) && Fits(cfg, s, at)
    ensures Fits(cfg, DoInlineWrite(s, p, k), at)
  {
    if At(s, p) && s.procs[p].Inlining? {
      assert ProcInv(cfg, s, p);
      SpendsGrant(s, p, k);
      SameShares(s.disk, DoInlineWrite(s, p, k).disk, at);
    }
  }

  lemma InlineAbortFits(cfg: Config, s: State, p: nat, at: int)
    requires Inv(cfg, s) && Fits(cfg, s, at)
    ensures Fits(cfg, DoInlineAbort(s, p), at)
  {
    if At(s, p) && s.procs[p].Inlining? {
      assert ProcInv(cfg, s, p);
      SameShares(s.disk, DoInlineAbort(s, p).disk, at);
    }
  }

  lemma InlineCommitFits(cfg: Config, s: State, p: nat, at: int)
    requires Inv(cfg, s) && Fits(cfg, s, at)
    ensures Fits(cfg, DoInlineCommit(cfg, s, p), at)
  {
    if At(s, p) && s.procs[p].Inlining? && s.procs[p].spent == |s.procs[p].data| {
      assert ProcInv(cfg, s, p);
      ExpireFits(cfg, s, s.procs[p].at, at, 0);
      SameShares(s.disk.(sessions := Expire(s.disk.sessions, s.procs[p].at)), DoInlineCommit(cfg, s, p).disk, at);
    }
  }

  /** Same rows and partials, the same transaction and no less space. */
  lemma FreedFits(cfg: Config, s: State, t: State, at: int)
    requires Fits(cfg, s, at) && t.disk.free >= s.disk.free
    requires t == s.(disk := s.disk.(files := t.disk.files, objects := t.disk.objects, free := t.disk.free))
    ensures Fits(cfg, t, at)
  {
    SameShares(s.disk, t.disk, at);
  }

  lemma DeleteObjectFits(cfg: Config, s: State, fid: nat, at: int)
    requires Fits(cfg, s, at)
    ensures Fits(cfg, DoDeleteObject(s, fid), at)
  {
    FreedFits(cfg, s, DoDeleteObject(s, fid), at);
  }

  /** Giving up create keys changes nobody's share. */
  lemma DeleteRowFits(cfg: Config, s: State, fid: nat, at: int)
    requires Fits(cfg, s, at)
    ensures Fits(cfg, DoDeleteRow(s, fid), at)
  {
    if s.writer.None? && fid in s.disk.files {
      RaiseFits(cfg, s, DoDeleteRow(s, fid), at);
    }
  }

  lemma PurgeFits(cfg: Config, s: State, fid: nat, at: int)
    requires Inv(cfg, s) && Fits(cfg, s, at)
    ensures Fits(cfg, DoPurgeRow(s, fid), at)
  {
    if s.writer.None? && fid in s.disk.files && s.disk.files[fid].deleted && fid !in s.disk.objects {
      NotClaimed(cfg, s, fid);
      SumDropZeros(NetMap(s.disk, at), NetMap(DoPurgeRow(s, fid).disk, at));
    }
  }

  // ------------------------------------------------------------- all of them

  lemma WriteStepFits(cfg: Config, s: State, a: Action, at: int)
    requires Inv(cfg, s) && Fits(cfg, s, at) && at <= TransactionTime(s) && WriteAction(a)
    ensures Fits(cfg, Do(cfg, s, a), at)
  {
    WriteDoes(cfg, s, a);
    if a.WriteBegin? {
      WriteBeginFits(cfg, s, a.p, at);
    } else if a.WriteTear? {
      WriteFits(cfg, s, a.p, a.junk, at);
    } else if a.WriteData? {
      WriteFits(cfg, s, a.p, [], at);
    } else if a.WriteCommit? {
      WriteCommitFits(cfg, s, a.p, at);
    } else {
      EndFits(cfg, s, a.p, at);
    }
  }

  lemma EarlyCompleteFits(cfg: Config, s: State, a: Action, at: int)
    requires Inv(cfg, s) && Fits(cfg, s, at) && (a.CompleteLoad? || a.CompleteCheck? || a.CompleteMark?)
    ensures Fits(cfg, Do(cfg, s, a), at)
  {
    CompleteDoes(cfg, s, a);
    if a.CompleteLoad? {
      LoadFits(cfg, s, a.p, at);
    } else if a.CompleteCheck? {
      CheckFits(cfg, s, a.p, at);
    } else {
      MarkFits(cfg, s, a.p, at);
    }
  }

  lemma LateCompleteFits(cfg: Config, s: State, a: Action, at: int)
    requires Inv(cfg, s) && Fits(cfg, s, at) && (a.CompleteClaim? || a.CompletePublish? || a.CompleteCommit?)
    ensures Fits(cfg, Do(cfg, s, a), at)
  {
    CompleteDoes(cfg, s, a);
    if a.CompleteClaim? {
      ClaimFits(cfg, s, a.p, a.fid, at);
    } else if a.CompletePublish? {
      PublishFits(cfg, s, a.p, at);
    } else {
      CommitFits(cfg, s, a.p, at);
    }
  }

  lemma RestartFits(cfg: Config, s: State, a: Action, at: int)
    requires Inv(cfg, s) && Fits(cfg, s, at) && (a.RestartUnlink? || a.RestartReset?)
    ensures Fits(cfg, Do(cfg, s, a), at)
  {
    RestartKeeps(cfg, s, a.p);
  }

  lemma SweepStepFits(cfg: Config, s: State, a: Action, at: int)
    requires Inv(cfg, s) && Fits(cfg, s, at) && (a.SweepSnapshot? || a.SweepPartial?)
    ensures Fits(cfg, Do(cfg, s, a), at)
  {
    SweepDoes(cfg, s, a);
    if a.SweepSnapshot? {
      SnapshotFits(cfg, s, a.p, a.cutoff, at);
    } else {
      SweepPartialFits(cfg, s, a.p, a.u, at);
    }
  }

  lemma SweepLockStepFits(cfg: Config, s: State, a: Action, at: int)
    requires Inv(cfg, s) && Fits(cfg, s, at) && (a.SweepLock? || a.SweepUnlink? || a.SweepEnd?)
    ensures Fits(cfg, Do(cfg, s, a), at)
  {
    SweepDoes(cfg, s, a);
    if a.SweepLock? {
      SweepLockFits(cfg, s, a.p, a.u, at);
    } else if a.SweepUnlink? {
      SweepLockFits(cfg, s, a.p, 0, at);
    } else {
      SweepLockFits(cfg, s, a.p, 0, at);
    }
  }

  lemma InlineStepFits(cfg: Config, s: State, a: Action, at: int)
    requires Inv(cfg, s) && Fits(cfg, s, at) && (a.InlineWrite? || a.InlineCommit? || a.InlineAbort?)
    ensures Fits(cfg, Do(cfg, s, a), at)
  {
    FileDoes(cfg, s, a);
    if a.InlineWrite? {
      InlineWriteFits(cfg, s, a.p, a.k, at);
    } else if a.InlineCommit? {
      InlineCommitFits(cfg, s, a.p, at);
    } else {
      InlineAbortFits(cfg, s, a.p, at);
    }
  }

  lemma DeleteStepFits(cfg: Config, s: State, a: Action, at: int)
    requires Inv(cfg, s) && Fits(cfg, s, at) && (a.DeleteRow? || a.DeleteObject? || a.PurgeRow?)
    ensures Fits(cfg, Do(cfg, s, a), at)
  {
    FileDoes(cfg, s, a);
    if a.DeleteRow? {
      DeleteRowFits(cfg, s, a.fid, at);
    } else if a.DeleteObject? {
      DeleteObjectFits(cfg, s, a.fid, at);
    } else {
      PurgeFits(cfg, s, a.fid, at);
    }
  }

  lemma OtherStepFits(cfg: Config, s: State, a: Action, at: int)
    requires Inv(cfg, s) && Fits(cfg, s, at)
    requires a.Create? || a.Cancel? || a.Crash? || a.Tick? || a.ListStale?
    ensures Fits(cfg, Do(cfg, s, a), at)
  {
    if a.Create? {
      CreateFits(cfg, s, a.u, a.request, at);
    } else if a.Cancel? {
      CancelFits(cfg, s, a.u, a.source, at);
    } else if a.Crash? {
      EndFits(cfg, s, a.p, at);
    } else {
      WriterInPlace(cfg, s);
      QuietFits(cfg, s, Do(cfg, s, a), at);
    }
  }

  lemma FileStepFits(cfg: Config, s: State, a: Action, at: int)
    requires Inv(cfg, s) && Fits(cfg, s, at) && FileAction(a) && !a.InlineBegin?
    ensures Fits(cfg, Do(cfg, s, a), at)
  {
    if a.InlineWrite? || a.InlineCommit? || a.InlineAbort? {
      InlineStepFits(cfg, s, a, at);
    } else {
      DeleteStepFits(cfg, s, a, at);
    }
  }

  lemma CompleteStepFits(cfg: Config, s: State, a: Action, at: int)
    requires Inv(cfg, s) && Fits(cfg, s, at) && CompleteAction(a)
    ensures Fits(cfg, Do(cfg, s, a), at)
  {
    if a.CompleteLoad? || a.CompleteCheck? || a.CompleteMark? {
      EarlyCompleteFits(cfg, s, a, at);
    } else if a.RestartUnlink? || a.RestartReset? {
      RestartFits(cfg, s, a, at);
    } else {
      LateCompleteFits(cfg, s, a, at);
    }
  }

  /**
   Whatever counts as of the transaction's time or any earlier one: a step that is covered
   before is covered after, but for an inline upload, which must be covered as of that time.
   */
  lemma StepFits(cfg: Config, s: State, a: Action, at: int)
    requires Inv(cfg, s) && Fits(cfg, s, at) && at <= TransactionTime(s)
    ensures Fits(cfg, Do(cfg, s, a), at) <==> (Grants(cfg, s, a) ==> Covers(cfg, s.disk, at, |a.data|))
  {
    if a.InlineBegin? {
      InlineBeginFits(cfg, s, a, at);
    } else if LockAction(a) {
      LockStepFits(cfg, s, a, at);
    } else if WriteAction(a) {
      WriteStepFits(cfg, s, a, at);
    } else if CompleteAction(a) {
      CompleteStepFits(cfg, s, a, at);
    } else if FileAction(a) {
      FileStepFits(cfg, s, a, at);
    } else if a.SweepSnapshot? || a.SweepPartial? {
      SweepStepFits(cfg, s, a, at);
    } else if SweepAction(a) {
      SweepLockStepFits(cfg, s, a, at);
    } else {
      OtherStepFits(cfg, s, a, at);
    }
  }

  // ------------------------------------------------------------------ the time

  /** Where the writer is, a step of another process or its own leaves the time it began at. */
  lemma WriteLater(cfg: Config, s: State, a: Action)
    requires Inv(cfg, s) && WriteAction(a)
    ensures TransactionTime(s) <= TransactionTime(Do(cfg, s, a))
  {
    WriterInPlace(cfg, s);
    if At(s, a.p) {
      assert ProcInv(cfg, s, a.p);
      if a.WriteBegin? && s.procs[a.p].Ready? && s.procs[a.p].op.WriteOp? && s.writer.None? {
        JudgedTime(cfg, s, a.p);
      }
    }
  }

  /** The places a transaction is open in. */
  predicate Writes(pc: Pc) {
    pc.Writing? || pc.WriteRestarting? || pc.Inlining?
  }

  /** Completing and sweeping processes leave the clock and somebody else's transaction alone. */
  ghost predicate Bystands(s: State, t: State) {
    && t.now == s.now && t.writer == s.writer
    && (s.writer.Some? && s.writer.value in s.procs && Writes(s.procs[s.writer.value]) ==>
          s.writer.value in t.procs && t.procs[s.writer.value] == s.procs[s.writer.value])
  }

  lemma PublishBystands(cfg: Config, s: State, p: nat)
    ensures Bystands(s, DoCompletePublish(cfg, s, p))
  {
  }

  lemma RowsBystand(s: State, p: nat, fid: nat)
    ensures Bystands(s, DoCompleteMark(s, p)) && Bystands(s, DoCompleteClaim(s, p, fid))
    ensures Bystands(s, DoCompleteCommit(s, p))
  {
  }

  lemma LoadBystands(s: State, p: nat)
    ensures Bystands(s, DoCompleteLoad(s, p))
  {
  }

  lemma RestartBystands(s: State, p: nat)
    ensures Bystands(s, DoRestartUnlink(s, p)) && Bystands(s, DoRestartReset(s, p))
  {
  }

  lemma CompleteBystands(cfg: Config, s: State, a: Action)
    requires CompleteAction(a)
    ensures Bystands(s, Do(cfg, s, a))
  {
    CompleteDoes(cfg, s, a);
    if a.CompleteLoad? {
      LoadBystands(s, a.p);
    } else if a.CompleteCheck? {
      CheckIsQuiet(cfg, s, a.p);
    } else if a.CompletePublish? {
      PublishBystands(cfg, s, a.p);
    } else if a.RestartUnlink? || a.RestartReset? {
      RestartBystands(s, a.p);
    } else {
      RowsBystand(s, a.p, if a.CompleteClaim? then a.fid else 0);
    }
  }

  lemma SweepBystands(cfg: Config, s: State, a: Action)
    requires SweepAction(a)
    ensures Bystands(s, Do(cfg, s, a))
  {
    SweepDoes(cfg, s, a);
  }

  lemma BystandersLater(cfg: Config, s: State, a: Action)
    requires Inv(cfg, s) && (CompleteAction(a) || SweepAction(a))
    ensures TransactionTime(s) <= TransactionTime(Do(cfg, s, a))
  {
    WriterInPlace(cfg, s);
    if CompleteAction(a) {
      CompleteBystands(cfg, s, a);
    } else {
      SweepBystands(cfg, s, a);
    }
  }

  lemma FileLater(cfg: Config, s: State, a: Action)
    requires Inv(cfg, s) && FileAction(a)
    ensures TransactionTime(s) <= TransactionTime(Do(cfg, s, a))
  {
    WriterInPlace(cfg, s);
    FileDoes(cfg, s, a);
    if a.InlineBegin? {
    } else if a.InlineWrite? {
    } else if a.InlineCommit? || a.InlineAbort? {
      if At(s, a.p) {
        assert ProcInv(cfg, s, a.p);
      }
    }
  }

  lemma StepLater(cfg: Config, s: State, a: Action)
    requires Inv(cfg, s)
    ensures TransactionTime(s) <= TransactionTime(Do(cfg, s, a))
  {
    WriterInPlace(cfg, s);
    if LockAction(a) {
      LocksAreQuiet(cfg, s, a);
    } else if WriteAction(a) {
      WriteLater(cfg, s, a);
    } else if CompleteAction(a) || SweepAction(a) {
      BystandersLater(cfg, s, a);
    } else if FileAction(a) {
      FileLater(cfg, s, a);
    }
  }

  lemma StepCap(cfg: Config, s: State, a: Action)
    requires Inv(cfg, s) && CapInv(cfg, s)
    ensures CapInv(cfg, Do(cfg, s, a))
  {
    var at, t := TransactionTime(s), Do(cfg, s, a);
    if Grants(cfg, s, a) {
      ReserveIsKept(cfg, s, at);
      Grant(cfg, s.disk, s.now, |a.data|);
    }
    StepFits(cfg, s, a, at);
    StepKeeps(cfg, s, a);
    StepLater(cfg, s, a);
    Later(cfg, t, at, Granted(t), TransactionTime(t));
  }

  /** Capacity over whole runs: every interleaving, every crash. */
  lemma {:induction false} RunCap(cfg: Config, s: State, actions: seq<Action>)
    requires Inv(cfg, s) && CapInv(cfg, s)
    ensures Inv(cfg, Run(cfg, s, actions)) && CapInv(cfg, Run(cfg, s, actions))
    decreases |actions|
  {
    if actions != [] {
      StepKeeps(cfg, s, actions[0]);
      StepCap(cfg, s, actions[0]);
      RunCap(cfg, Do(cfg, s, actions[0]), actions[1..]);
    }
  }
}
