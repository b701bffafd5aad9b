/** What every reachable state of the upload machine satisfies. */
module UploadInvariant {
  import opened Prelude
  import opened UploadModel
  import opened UploadMachine

  // ----------------------------------------------------------- chunk tiling

  predicate Covers(c: Chunk, x: int) {
    c.offset <= x < c.offset + c.count
  }

  predicate Apart(c: Chunk, e: Chunk) {
    c.offset + c.count <= e.offset || e.offset + e.count <= c.offset
  }

  ghost predicate Covered(chunks: map<string, Chunk>, x: int) {
    exists k :: k in chunks && Covers(chunks[k], x)
  }

  /** The chunks cover [0, n) without gap, overlap or excess. */
  ghost predicate Tiles(chunks: map<string, Chunk>, n: nat) {
    && (forall k | k in chunks :: chunks[k].count > 0 && chunks[k].offset + chunks[k].count <= n)
    && (forall j, k | j in chunks && k in chunks && j != k :: Apart(chunks[j], chunks[k]))
    && (forall x: int | 0 <= x < n :: Covered(chunks, x))
  }

  /** Every chunk row's digest is that of the bytes acknowledged at its place. */
  ghost predicate DigestsMatch(h: Hash, chunks: map<string, Chunk>, bytes: seq<byte>) {
    forall k | k in chunks ::
      RangeHas(h, bytes, chunks[k].offset, chunks[k].count, chunks[k].digest)
  }

  lemma TilesAppend(chunks: map<string, Chunk>, n: nat, key: string, c: Chunk)
    requires Tiles(chunks, n) && key !in chunks && c.offset == n && c.count > 0
    ensures Tiles(chunks[key := c], n + c.count)
  {
    var after := chunks[key := c];
    forall x: int | 0 <= x < n + c.count
      ensures Covered(after, x)
    {
      if x < n {
        assert Covered(chunks, x);
        var k :| k in chunks && Covers(chunks[k], x);
        assert k in after && Covers(after[k], x);
      } else {
        assert key in after && Covers(after[key], x);
      }
    }
  }

  lemma DigestsAppend(h: Hash, chunks: map<string, Chunk>, bytes: seq<byte>, key: string, data: seq<byte>)
    requires DigestsMatch(h, chunks, bytes)
    ensures DigestsMatch(h, chunks[key := Chunk(|bytes|, |data|, h(data))], bytes + data)
  {
    var after := chunks[key := Chunk(|bytes|, |data|, h(data))];
    forall k | k in after
      ensures RangeHas(h, bytes + data, after[k].offset, after[k].count, after[k].digest)
    {
      var c := after[k];
      if k == key {
        assert (bytes + data)[|bytes|..|bytes| + |data|] == data;
      } else {
        assert RangeHas(h, bytes, c.offset, c.count, c.digest);
        assert (bytes + data)[c.offset..c.offset + c.count] == bytes[c.offset..c.offset + c.count];
      }
    }
  }

  // ------------------------------------------------------------ per upload

  /** The recorded chunks tile the verified prefix and the partial begins with it. */
  ghost predicate OpenInv(cfg: Config, d: Disk, acc: seq<byte>, u: nat)
    requires u in d.sessions
  {
    var x := d.sessions[u];
    && x.fileId.None?
    && |acc| == x.verified <= x.total
    && Tiles(x.chunks, x.verified)
    && DigestsMatch(cfg.hash, x.chunks, acc)
    && |PartialBytes(d, u)| <= x.total
    && acc <= PartialBytes(d, u)
  }

  /** The verified bytes are in the partial or already in the claimed object slot, never both. */
  ghost predicate CompletingInv(cfg: Config, d: Disk, acc: seq<byte>, u: nat)
    requires u in d.sessions
  {
    var x := d.sessions[u];
    && x.fileId.Some?
    && x.verified == x.total == |acc|
    && cfg.hash(acc) == x.expected
    && x.fileId.value !in d.files
    && (if x.fileId.value in d.objects
        then d.objects[x.fileId.value] == acc && u !in d.partials
        else u in d.partials && d.partials[u].bytes == acc)
  }

  /** The file row has the declared length and digest, and so has its object until deleted. */
  ghost predicate CommittedInv(cfg: Config, d: Disk, acc: seq<byte>, u: nat)
    requires u in d.sessions
  {
    var x := d.sessions[u];
    && x.fileId.Some?
    && x.verified == x.total == |acc|
    && cfg.hash(acc) == x.expected
    && x.fileId.value in d.files
    && d.files[x.fileId.value].size == x.total
    && d.files[x.fileId.value].digest == x.expected
    && (!d.files[x.fileId.value].deleted ==>
          x.fileId.value in d.objects && d.objects[x.fileId.value] == acc)
  }

  ghost predicate UploadInv(cfg: Config, s: State, u: nat)
    requires u in s.disk.sessions
  {
    RowInv(cfg, s, u, s.disk.sessions[u])
  }

  ghost predicate RowInv(cfg: Config, s: State, u: nat, x: Session)
    requires u in s.disk.sessions && s.disk.sessions[u] == x
  {
    && u in s.born && u in s.accepted
    && x.total > 0
    && x.createdAt <= s.now
    && (Open(x.state) ==> OpenInv(cfg, s.disk, s.accepted[u], u))
    && (x.state == Completing ==> CompletingInv(cfg, s.disk, s.accepted[u], u))
    && (x.state == Committed ==>
          CommittedInv(cfg, s.disk, s.accepted[u], u)
          && x.fileId.value in s.origin && s.origin[x.fileId.value] == u)
    && (x.state in {Cancelled, Expired, FailedTerminal} ==> x.fileId.None?)
    && (!Terminal(x.state) ==>
          && (u in s.disk.partials ==> s.disk.partials[u].mtime >= x.createdAt)
          && (u in s.locks ==> s.locks[u].mtime >= x.createdAt))
  }

  // ----------------------------------------------------------- per process

  /** The opened inode is the one every live upload's lock path still names. */
  ghost predicate SharesLock(s: State, u: nat, inode: nat) {
    && u in s.born
    && inode < s.nextInode
    && (LiveIn(s.disk, u) ==> u in s.locks && s.locks[u].inode == inode)
  }

  /** An upload that is live but outside the snapshot is younger than the cutoff. */
  ghost predicate SweepSafe(s: State, active: set<nat>, cutoff: nat) {
    && cutoff <= s.now
    && (forall u | LiveIn(s.disk, u) :: u in active || s.disk.sessions[u].createdAt >= cutoff)
  }

  ghost predicate ClaimInv(s: State, u: nat, fid: nat) {
    && u in s.disk.sessions
    && s.disk.sessions[u].state == Completing
    && s.disk.sessions[u].fileId == Some(fid)
  }

  ghost predicate ProcInv(cfg: Config, s: State, p: nat)
    requires p in s.procs
  {
    PcInv(cfg, s, p, s.procs[p])
  }

  ghost predicate PcInv(cfg: Config, s: State, p: nat, pc: Pc) {
    && (HoldsInode(pc) ==> pc.inode in s.flocks && s.flocks[pc.inode] == p)
    && match pc
       case Waiting(u, inode, op) =>
         SharesLock(s, u, inode) && (op.RecoverOp? ==> !OpenIn(s.disk, u))
       case Ready(u, inode, op) =>
         SharesLock(s, u, inode) && (op.RecoverOp? ==> !OpenIn(s.disk, u))
       case Writing(u, inode, q, at, done) =>
         && SharesLock(s, u, inode)
         && s.writer == Some(p)
         && at <= s.now
         && OpenIn(s.disk, u) && u in s.accepted
         && s.disk.sessions[u].expiresAt > at
         && q.offset == s.disk.sessions[u].verified
         && q.data != [] && q.offset + |q.data| <= s.disk.sessions[u].total
         && cfg.hash(q.data) == q.digest
         && q.key !in s.disk.sessions[u].chunks
         && (done ==> PartialBytes(s.disk, u) == s.accepted[u] + q.data)
       case WriteRestarting(u, inode, at) => false
       case Loaded(u, inode, recover, snap) =>
         && SharesLock(s, u, inode)
         && !Terminal(snap.state)
         && (recover ==> snap.state == Completing)
         && (LiveIn(s.disk, u) ==> s.disk.sessions[u] == snap)
         && (snap.state == Completing ==> LiveIn(s.disk, u))
       case Marking(u, inode, recover, to) =>
         && SharesLock(s, u, inode) && !recover && to in {FailedRetryable, FailedTerminal}
         && (LiveIn(s.disk, u) ==> OpenIn(s.disk, u))
       case Verified(u, inode, recover, snap, content) =>
         && SharesLock(s, u, inode) && !recover && Open(snap.state)
         && (LiveIn(s.disk, u) ==>
               && s.disk.sessions[u] == snap
               && u in s.accepted && u in s.disk.partials
               && s.disk.partials[u].bytes == content == s.accepted[u]
               && |content| == snap.total
               && cfg.hash(content) == snap.expected)
       case Claimed(u, inode, recover, fid, content) =>
         && SharesLock(s, u, inode) && ClaimInv(s, u, fid)
         && u in s.accepted && content == s.accepted[u]
         && fid !in s.disk.objects
       case Published(u, inode, fid) =>
         && SharesLock(s, u, inode) && ClaimInv(s, u, fid)
         && fid in s.disk.objects
       case Restarting(u, inode) => false
       case Resetting(u, inode) => false
       case Closing(u, inode) => SharesLock(s, u, inode)
       case Unlinking(u, inode) => SharesLock(s, u, inode) && !LiveIn(s.disk, u)
       case Unlocking(u, inode) => SharesLock(s, u, inode)
       case Sweeping(active, cutoff) => SweepSafe(s, active, cutoff)
       case SweepHolding(active, cutoff, u, inode) =>
         SweepSafe(s, active, cutoff) && u in s.born && inode < s.nextInode && !LiveIn(s.disk, u)
       case Inlining(fid, data, at, spent) =>
         && s.writer == Some(p)
         && at <= s.now
         && data != [] && spent <= |data|
         && fid !in s.disk.files && fid !in s.origin
         && (forall u | u in s.disk.sessions :: s.disk.sessions[u].fileId != Some(fid))
         && (fid in s.disk.objects <==> spent == |data|)
         && (fid in s.disk.objects ==> s.disk.objects[fid] == data)
  }

  // ------------------------------------------------------------- the whole

  predicate SameFile(d: Disk, u: nat, v: nat) {
    && u in d.sessions && v in d.sessions
    && d.sessions[u].fileId.Some? && d.sessions[u].fileId == d.sessions[v].fileId
  }

  /** Ids are never reused and a file id belongs to one upload. */
  ghost predicate DataInv(s: State) {
    && s.born == s.accepted.Keys
    && s.disk.sessions.Keys <= s.born
    && s.disk.partials.Keys <= s.born
    && (forall u, v {:trigger SameFile(s.disk, u, v)} | SameFile(s.disk, u, v) :: u == v)
  }

  /** A held lock has a living holder, and so has the database's write lock. */
  ghost predicate LocksInv(s: State) {
    && s.locks.Keys <= s.born
    && (forall u | u in s.locks :: s.locks[u].inode < s.nextInode)
    && (forall u | u in s.listed :: u in s.born && !OpenIn(s.disk, u))
    && (forall i | i in s.flocks ::
          s.flocks[i] in s.procs && HoldsInode(s.procs[s.flocks[i]]) && s.procs[s.flocks[i]].inode == i)
    && (s.writer.Some? ==>
          && s.writer.value in s.procs
          && (s.procs[s.writer.value].Writing? || s.procs[s.writer.value].Inlining?))
  }

  predicate SameOrigin(s: State, f: nat, g: nat) {
    f in s.origin && g in s.origin && s.origin[f] == s.origin[g]
  }

  /** Every file row an upload ever produced, including purged ones, names a different upload. */
  ghost predicate OriginInv(s: State) {
    && (forall f | f in s.origin :: s.origin[f] in s.born)
    && (forall f | f in s.origin && s.origin[f] in s.disk.sessions ::
          s.disk.sessions[s.origin[f]].state == Committed && s.disk.sessions[s.origin[f]].fileId == Some(f))
    && (forall f, g {:trigger SameOrigin(s, f, g)} | SameOrigin(s, f, g) :: f == g)
  }

  ghost predicate Inv(cfg: Config, s: State) {
    && DataInv(s)
    && LocksInv(s)
    && OriginInv(s)
    && (forall u {:trigger UploadInv(cfg, s, u)} | u in s.disk.sessions :: UploadInv(cfg, s, u))
    && (forall p {:trigger ProcInv(cfg, s, p)} | p in s.procs :: ProcInv(cfg, s, p))
  }

  lemma InitialInv(cfg: Config, free: int)
    ensures Inv(cfg, Initial(free))
  {
  }

  // ------------------------------------------------------------------ frames

  predicate HasUpload(pc: Pc) {
    !(pc.Sweeping? || pc.Inlining?)
  }

  /** While `u` lives nothing its lock holder relies on has changed. */
  ghost predicate Kept(s: State, t: State, u: nat) {
    LiveIn(t.disk, u) ==>
      && LiveIn(s.disk, u)
      && t.disk.sessions[u] == s.disk.sessions[u]
      && (u in s.accepted ==> u in t.accepted && t.accepted[u] == s.accepted[u])
      && SameAt(s.disk.partials, t.disk.partials, u)
  }

  predicate SameAt<V(==)>(m: map<nat, V>, n: map<nat, V>, k: nat) {
    (k in m <==> k in n) && (k in m ==> m[k] == n[k])
  }

  ghost predicate LockKept(s: State, t: State, u: nat) {
    LiveIn(t.disk, u) && u in s.born ==>
      LiveIn(s.disk, u) && (u in s.locks ==> u in t.locks && t.locks[u] == s.locks[u])
  }

  /** A claimed upload stays claimed and its object slot stays as it was. */
  ghost predicate ClaimKept(s: State, t: State, u: nat) {
    u in s.disk.sessions && s.disk.sessions[u].state == Completing ==>
      && u in t.disk.sessions && t.disk.sessions[u] == s.disk.sessions[u]
      && (s.disk.sessions[u].fileId.Some? ==>
            SameAt(s.disk.objects, t.disk.objects, s.disk.sessions[u].fileId.value))
  }

  ghost predicate AgesKept(s: State, t: State) {
    forall u | LiveIn(t.disk, u) ::
      || (LiveIn(s.disk, u) && t.disk.sessions[u].createdAt == s.disk.sessions[u].createdAt)
      || t.disk.sessions[u].createdAt >= s.now
  }

  /** What process q may count on while some other process steps. */
  ghost predicate Undisturbed(s: State, t: State, q: nat) {
    && q in s.procs && q in t.procs && t.procs[q] == s.procs[q]
    && s.now <= t.now && s.nextInode <= t.nextInode && s.born <= t.born
    && var pc := s.procs[q];
    && (HoldsInode(pc) ==> SameAt(s.flocks, t.flocks, pc.inode))
    && (s.writer == Some(q) ==>
          && t.writer == Some(q)
          && t.disk.sessions == s.disk.sessions
          && t.disk.files == s.disk.files && t.origin == s.origin)
    && (HasUpload(pc) ==>
          && LockKept(s, t, pc.u)
          && (pc.u in s.born && OpenIn(t.disk, pc.u) ==> OpenIn(s.disk, pc.u)))
    && (Holds(pc) ==> Kept(s, t, pc.u) && ClaimKept(s, t, pc.u))
    && (pc.Sweeping? || pc.SweepHolding? ==> AgesKept(s, t))
    && (pc.Inlining? ==> SameAt(s.disk.objects, t.disk.objects, pc.fid))
  }

  lemma ProcFrame(cfg: Config, s: State, t: State, q: nat)
    requires Undisturbed(s, t, q) && ProcInv(cfg, s, q)
    ensures ProcInv(cfg, t, q)
  {
    var pc := s.procs[q];
    if HasUpload(pc) && !pc.SweepHolding? {
      assert SharesLock(s, pc.u, pc.inode);
      assert SharesLock(t, pc.u, pc.inode);
    }
  }

  /** Nothing the invariant of upload `u` speaks about has changed. */
  ghost predicate SameUpload(s: State, t: State, u: nat) {
    && u in s.disk.sessions && u in t.disk.sessions && t.disk.sessions[u] == s.disk.sessions[u]
    && s.now <= t.now
    && SameAt(s.accepted, t.accepted, u)
    && (u in s.born ==> u in t.born)
    && (!Terminal(s.disk.sessions[u].state) ==>
          && SameAt(s.disk.partials, t.disk.partials, u)
          && (u in t.locks ==> (u in s.locks && s.locks[u] == t.locks[u]) || t.locks[u].mtime >= s.now))
    && (s.disk.sessions[u].fileId.Some? ==>
          var f := s.disk.sessions[u].fileId.value;
          SameAt(s.disk.objects, t.disk.objects, f) && SameAt(s.disk.files, t.disk.files, f)
          && SameAt(s.origin, t.origin, f))
  }

  lemma UploadFrame(cfg: Config, s: State, t: State, u: nat)
    requires SameUpload(s, t, u) && UploadInv(cfg, s, u)
    ensures UploadInv(cfg, t, u)
  {
    if Open(s.disk.sessions[u].state) {
      assert OpenInv(cfg, t.disk, t.accepted[u], u);
    }
  }

  /** No two processes work under the lock of one live upload. */
  lemma Exclusive(cfg: Config, s: State, p: nat, q: nat)
    requires Inv(cfg, s) && p in s.procs && q in s.procs
    requires Holds(s.procs[p]) && Holds(s.procs[q]) && s.procs[p].u == s.procs[q].u
    requires LiveIn(s.disk, s.procs[p].u)
    ensures p == q
  {
    assert ProcInv(cfg, s, p) && ProcInv(cfg, s, q);
    assert SharesLock(s, s.procs[p].u, s.procs[p].inode);
    assert SharesLock(s, s.procs[q].u, s.procs[q].inode);
  }
}
