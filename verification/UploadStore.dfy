/**
 The store's upload operations as one process runs them: methods that rewrite rows and files
 step by step. Each is proved to do what its specification function on the disk says, the
 specification is shown to be an undisturbed run of the upload machine, and what senders
 rely on is proved about it.
 */
module UploadStore {
  import opened Prelude
  import opened Sums
  import opened UploadModel
  import opened UploadMachine

  // ------------------------------------------------------ what one call does

  datatype Written = Written(disk: Disk, verdict: Verdict)

  /** One whole chunk write: the judgement, then the bytes, then the row. */
  ghost function WriteChunk(cfg: Config, d: Disk, u: nat, q: WriteRequest, now: nat): Written {
    var j := JudgeWrite(cfg, d, u, q, now);
    var s1 := Expire(j.disk.sessions, now);
    if j.verdict.Accept? && u in s1 && q.offset >= 0 then
      Written(Appended(j.disk, u, q.offset, q.data, now).(sessions := s1[u := RowAfterWrite(s1[u], q, now)]),
              Accept)
    else if j.verdict.Restart? && u in s1 then
      Written(j.disk.(sessions := s1[u := RowAfterRestart(s1[u])]), Restart)
    else Written(j.disk, j.verdict)
  }

  datatype Completed = Completed(disk: Disk, outcome: Result<nat, string>)

  function CommitOutcome(d: Disk, u: nat, fid: nat): Completed {
    var e := CommitRow(d, u, fid);
    if e.None? then Completed(d, Err("completion_file_conflict")) else Completed(e.value, Ok(fid))
  }

  function PublishOutcome(d: Disk, u: nat, fid: nat): Completed
    requires u in d.partials
  {
    CommitOutcome(PublishObject(d, u, fid), u, fid)
  }

  /** What is missing when a claimed upload has neither object nor partial in order. */
  function DamageCode(d: Disk, u: nat, x: Session): string {
    if u !in d.partials then "missing_partial"
    else if |d.partials[u].bytes| != x.total then "byte_count_mismatch"
    else "sha256_mismatch"
  }

  /** One whole completion; `fid` is the random id a claim would take. */
  function CompleteOutcome(cfg: Config, d: Disk, u: nat, source: Source, fid: nat, now: nat): Completed {
    var s1 := Expire(d.sessions, now);
    if u !in s1 then Completed(d, Err("upload_not_found"))
    else if s1[u].source != source then Completed(d, Err("wrong_source"))
    else
      var e := d.(sessions := s1);
      var x := s1[u];
      if x.state == Committed && x.fileId.Some? then Completed(e, Ok(x.fileId.value))
      else if Terminal(x.state) then Completed(e, Err("upload_not_completable"))
      else if Open(x.state) then
        var code := CheckPartial(cfg.hash, e, u, x);
        if code.Some? then
          Completed(e.(sessions := MarkError(s1, u, StateAfterFailedCheck(code.value))), Err(code.value))
        else if fid in e.objects then
          Completed(e.(sessions := s1[u := x.(fileId := Some(fid), state := Completing)]),
                    Err("completion_file_conflict"))
        else PublishOutcome(e.(sessions := s1[u := x.(fileId := Some(fid), state := Completing)]), u, fid)
      else if x.fileId.None? then Completed(e, Err("upload_completion_ownership_lost"))
      else
        match Inspect(cfg.hash, e, u, x, x.fileId.value)
        case ObjectReady => CommitOutcome(e, u, x.fileId.value)
        case Conflict => Completed(e, Err("completion_file_conflict"))
        case PartialReady => PublishOutcome(e, u, x.fileId.value)
        case Damaged => Completed(e, Err(DamageCode(e, u, x)))
  }

  /** The failures after which recovery throws the claim back. */
  const RESTART_ERRORS := {
    "missing_partial", "byte_count_mismatch", "verified_offset_mismatch", "sha256_mismatch", "partial_changed"}

  datatype Ending = Finished | Restarted | Missed | Deferred

  datatype Recovery = Recovery(disk: Disk, ending: Ending)

  /** Recovery of one listed upload: complete it, or send it back to its first byte. */
  function RecoverUpload(cfg: Config, d: Disk, u: nat, source: Source, fid: nat, now: nat): Recovery {
    var c := CompleteOutcome(cfg, d, u, source, fid, now);
    if c.outcome.Ok? then Recovery(c.disk, Finished)
    else if c.outcome.error !in RESTART_ERRORS then Recovery(c.disk, Deferred)
    else
      Recovery(ResetRow(UnlinkPartial(c.disk, u), u, now),
               if u in c.disk.sessions && c.disk.sessions[u].state == Completing then Restarted else Missed)
  }

  /** A row of the listing, the file id a new claim would take, and the time of its turn. */
  datatype Listed = Listed(u: nat, source: Source, fid: nat, at: nat)

  datatype Tally = Tally(recovered: nat, restarted: nat, deferred: nat)

  function Count(t: Tally, e: Ending): Tally {
    match e
    case Finished => t.(recovered := t.recovered + 1)
    case Restarted => t.(restarted := t.restarted + 1)
    case Missed => t
    case Deferred => t.(deferred := t.deferred + 1)
  }

  datatype Recovered = Recovered(disk: Disk, tally: Tally)

  function RecoverAll(cfg: Config, d: Disk, listing: seq<Listed>): Recovered
    decreases |listing|
  {
    if listing == [] then Recovered(d, Tally(0, 0, 0))
    else
      var before := RecoverAll(cfg, d, listing[..|listing| - 1]);
      var l := listing[|listing| - 1];
      var r := RecoverUpload(cfg, before.disk, l.u, l.source, l.fid, l.at);
      Recovered(r.disk, Count(before.tally, r.ending))
  }

  /** What a sweep of the partials directory deletes: old and not in use. */
  predicate Swept(partials: map<nat, Blob>, active: set<nat>, cutoff: nat, u: nat) {
    u in partials && u !in active && partials[u].mtime < cutoff
  }

  // ------------------------------------------------------------------ a vault

  class Vault {
    var sessions: map<nat, Session>
    var files: map<nat, FileRow>
    var partials: map<nat, Blob>
    var objects: map<nat, seq<byte>>
    var free: int

    constructor (free: int)
      ensures Contents() == Disk(map[], map[], map[], map[], free)
    {
      sessions, files, partials, objects := map[], map[], map[], map[];
      this.free := free;
    }

    ghost function Contents(): Disk
      reads this
    {
      Disk(sessions, files, partials, objects, free)
    }

    method WritePartial(u: nat, bytes: seq<byte>, now: nat)
      modifies this`partials, this`free
      ensures Contents() == SetPartial(old(Contents()), u, bytes, now)
    {
      if u in partials {
        free := free + |partials[u].bytes|;
      }
      free := free - |bytes|;
      partials := partials[u := Blob(bytes, now)];
    }

    /** Writes `data` at `offset`; the trim before it has left nothing behind that place. */
    method AppendPartial(u: nat, offset: nat, data: seq<byte>, now: nat)
      modifies this`partials, this`free
      ensures Contents() == Appended(old(Contents()), u, offset, data, now)
    {
      var bytes := if u in partials then partials[u].bytes else [];
      WritePartial(u, (if |bytes| <= offset then bytes else bytes[..offset]) + data, now);
    }

    method RemovePartial(u: nat)
      modifies this`partials, this`free
      ensures Contents() == UnlinkPartial(old(Contents()), u)
    {
      if u in partials {
        free := free + |partials[u].bytes|;
      }
      partials := partials - {u};
    }

    /** The SUM query over unfinished uploads, on a transaction's view of the table. */
    method ReservedUploadBytes(rows: map<nat, Session>) returns (total: int)
      ensures total == Reserved(rows)
    {
      total := 0;
      var left := rows.Keys;
      ghost var seen: map<nat, int> := map[];
      while left != {}
        invariant left <= rows.Keys
        invariant seen.Keys == rows.Keys - left
        invariant forall u | u in seen :: seen[u] == Remaining(rows[u])
        invariant total == Sum(seen)
        decreases |left|
      {
        var u :| u in left;
        left := left - {u};
        SumPut(seen, u, Remaining(rows[u]));
        seen := seen[u := Remaining(rows[u])];
        if !Terminal(rows[u].state) && rows[u].total > rows[u].verified {
          total := total + (rows[u].total - rows[u].verified);
        }
      }
      assert seen == RemainingMap(rows);
    }

    method RequireReservedCapacity(cfg: Config, rows: map<nat, Session>, additional: nat) returns (ok: bool)
      ensures ok <==> HasCapacity(cfg, free, rows, additional)
    {
      var reserved := ReservedUploadBytes(rows);
      var available := if free < 0 then 0 else free;
      ok := available >= reserved + additional + cfg.reserve;
    }

    /** Cuts off what a torn write left behind the verified offset. */
    method Trim(u: nat, verified: nat, now: nat)
      modifies this`partials, this`free
      ensures Contents() == TrimOverhang(old(Contents()), u, verified, now)
    {
      if u in partials && |partials[u].bytes| > verified {
        WritePartial(u, partials[u].bytes[..verified], now);
      }
    }

    /** Writes one chunk. `rows` is the transaction's view; assigning `sessions` commits it. */
    method WriteUploadChunk(cfg: Config, u: nat, q: WriteRequest, now: nat) returns (v: Verdict)
      modifies this
      ensures Written(Contents(), v) == WriteChunk(cfg, old(Contents()), u, q, now)
    {
      var bad := CheckRequest(cfg.hash, q);
      if bad.Some? {
        return Refuse(bad.value);
      }
      var rows := Expire(sessions, now);
      ExpireTwice(sessions, now);
      if u !in rows {
        return Refuse("upload_not_found");
      }
      var x := rows[u];
      if x.source != q.source {
        return Refuse("wrong_source");
      }
      if !Open(x.state) {
        sessions := rows;
        return RefuseExpired("upload_not_writable");
      }
      if q.declared.Some? && q.declared.value != x.total {
        return Refuse("content_range_total_mismatch");
      }
      if (u !in partials && x.verified > 0) || (u in partials && |partials[u].bytes| < x.verified) {
        RemovePartial(u);
        sessions := rows[u := RowAfterRestart(x)];
        return Restart;
      }
      Trim(u, x.verified, now);
      v := JudgeChunk(cfg, u, x, rows, q);
      if v.Replay? {
        sessions := rows;
      } else if v.Accept? {
        AppendPartial(u, q.offset, q.data, now);
        sessions := rows[u := RowAfterWrite(x, q, now)];
      }
    }

    /** The replay, order, size and capacity checks on a partial without overhang. */
    method JudgeChunk(cfg: Config, u: nat, x: Session, rows: map<nat, Session>, q: WriteRequest) returns (v: Verdict)
      requires q.offset >= 0
      ensures v == JudgeBytes(cfg, x, PartialBytes(Contents(), u), u in partials, free, rows, q)
      ensures v.Accept? <==>
                && q.key !in x.chunks && q.offset == x.verified && q.offset + |q.data| <= x.total
                && HasCapacity(cfg, free, rows, 0)
      ensures v.Replay? <==>
                && u in partials && RangeHas(cfg.hash, partials[u].bytes, q.offset, |q.data|, q.digest)
                && (if q.key in x.chunks then x.chunks[q.key] == Chunk(q.offset, |q.data|, q.digest)
                    else q.offset < x.verified)
      ensures v.Accept? || v.Replay? || v.Refuse?
    {
      var offset: nat := q.offset;
      var bytes := if u in partials then partials[u].bytes else [];
      if q.key in x.chunks {
        if x.chunks[q.key] != Chunk(offset, |q.data|, q.digest) {
          return Refuse("idempotency_conflict");
        }
        if u !in partials {
          return Refuse("missing_partial");
        }
        if !RangeHas(cfg.hash, bytes, offset, |q.data|, q.digest) {
          return Refuse("chunk_mismatch");
        }
        return Replay(if x.verified >= offset + |q.data| then x.verified else offset + |q.data|);
      }
      if offset < x.verified {
        if u !in partials {
          return Refuse("missing_partial");
        }
        if !RangeHas(cfg.hash, bytes, offset, |q.data|, q.digest) {
          return Refuse("chunk_mismatch");
        }
        return Replay(x.verified);
      }
      if offset != x.verified {
        return Refuse("unexpected_offset");
      }
      if offset + |q.data| > x.total {
        return Refuse("chunk_exceeds_total");
      }
      var room := RequireReservedCapacity(cfg, rows, 0);
      return if room then Accept else Refuse("insufficient_storage");
    }

    /** Renames the partial into its object slot. */
    method Publish(u: nat, fid: nat)
      requires u in partials
      modifies this`partials, this`objects
      ensures Contents() == PublishObject(old(Contents()), u, fid)
    {
      objects := objects[fid := partials[u].bytes];
      partials := partials - {u};
    }

    /** The transaction that inserts the file row and retires the upload. */
    method Commit(u: nat, fid: nat) returns (outcome: Result<nat, string>)
      modifies this`sessions, this`files
      ensures Completed(Contents(), outcome) == CommitOutcome(old(Contents()), u, fid)
    {
      if u !in sessions || sessions[u].state != Completing || sessions[u].fileId != Some(fid) {
        return Err("completion_file_conflict");
      }
      var x := sessions[u];
      if fid in files {
        if files[fid] != FileRow(x.total, x.expected, false) {
          return Err("completion_file_conflict");
        }
      } else {
        files := files[fid := FileRow(x.total, x.expected, false)];
      }
      sessions := sessions[u := x.(state := Committed, verified := x.total, chunks := map[])];
      assert files == old(files)[fid := FileRow(x.total, x.expected, false)];
      return Ok(fid);
    }

    method CompleteUpload(cfg: Config, u: nat, source: Source, fid: nat, now: nat)
        returns (outcome: Result<nat, string>)
      modifies this
      ensures Completed(Contents(), outcome) == CompleteOutcome(cfg, old(Contents()), u, source, fid, now)
    {
      var rows := Expire(sessions, now);
      if u !in rows {
        return Err("upload_not_found");
      }
      var x := rows[u];
      if x.source != source {
        return Err("wrong_source");
      }
      sessions := rows;
      if x.state == Committed && x.fileId.Some? {
        return Ok(x.fileId.value);
      }
      if Terminal(x.state) {
        return Err("upload_not_completable");
      }
      var id := fid;
      if x.state == Completing {
        if x.fileId.None? {
          return Err("upload_completion_ownership_lost");
        }
        id := x.fileId.value;
        if id in objects {
          if |objects[id]| == x.total && cfg.hash(objects[id]) == x.expected {
            outcome := Commit(u, id);
            return;
          }
          return Err("completion_file_conflict");
        }
        if u !in partials {
          return Err("missing_partial");
        }
        if |partials[u].bytes| != x.total {
          return Err("byte_count_mismatch");
        }
        if cfg.hash(partials[u].bytes) != x.expected {
          return Err("sha256_mismatch");
        }
      } else {
        var failed: Option<string> := None;
        if u !in partials {
          failed := Some("missing_partial");
        } else if |partials[u].bytes| != x.total {
          failed := Some("byte_count_mismatch");
        } else if x.verified != x.total {
          failed := Some("verified_offset_mismatch");
        } else if cfg.hash(partials[u].bytes) != x.expected {
          failed := Some("sha256_mismatch");
        }
        if failed.Some? {
          sessions := MarkError(sessions, u, StateAfterFailedCheck(failed.value));
          return Err(failed.value);
        }
        sessions := sessions[u := x.(fileId := Some(id), state := Completing)];
        if id in objects {
          return Err("completion_file_conflict");
        }
      }
      Publish(u, id);
      outcome := Commit(u, id);
    }

    method RecoverCompletion(cfg: Config, l: Listed) returns (ending: Ending)
      modifies this
      ensures Recovery(Contents(), ending) == RecoverUpload(cfg, old(Contents()), l.u, l.source, l.fid, l.at)
    {
      var outcome := CompleteUpload(cfg, l.u, l.source, l.fid, l.at);
      if outcome.Ok? {
        return Finished;
      }
      if outcome.error !in RESTART_ERRORS {
        return Deferred;
      }
      RemovePartial(l.u);
      if l.u in sessions && sessions[l.u].state == Completing {
        sessions := sessions[l.u := RowAfterRestart(sessions[l.u]).(
                                      fileId := None, expiresAt := l.at + UPLOAD_LEASE_SECONDS)];
        return Restarted;
      }
      return Missed;
    }

    /** Works through a listing of claimed uploads that was taken before. */
    method RecoverStaleCompletions(cfg: Config, listing: seq<Listed>) returns (tally: Tally)
      modifies this
      ensures Recovered(Contents(), tally) == RecoverAll(cfg, old(Contents()), listing)
    {
      tally := Tally(0, 0, 0);
      var i := 0;
      while i < |listing|
        invariant 0 <= i <= |listing|
        invariant Recovered(Contents(), tally) == RecoverAll(cfg, old(Contents()), listing[..i])
      {
        assert listing[..i + 1][..i] == listing[..i];
        var ending := RecoverCompletion(cfg, listing[i]);
        tally := Count(tally, ending);
        i := i + 1;
      }
      assert listing[..i] == listing;
    }

    /**
     Creates an upload, or answers the one an earlier create with this key made. The table's
     unique index is what makes the key lookup find at most one row.
     */
    method CreateUpload(cfg: Config, u: nat, q: CreateRequest, now: nat) returns (r: CreateResult)
      requires KeysUnique(Contents())
      modifies this`sessions
      ensures r == JudgeCreate(cfg, old(Contents()), q, now)
      ensures r.Fresh? ==> Contents() == WithNewSession(old(Contents()), u, q, now)
      ensures r.Reused? ==> Contents() == old(Contents()).(sessions := Expire(old(sessions), now))
      ensures r.CreateError? ==> Contents() == old(Contents())
    {
      var bad := CheckCreate(cfg, q);
      if bad.Some? {
        return CreateError(bad.value);
      }
      var rows := Expire(sessions, now);
      OneHolder(Contents(), now, q);
      if h: nat :| h in rows && HoldsKey(rows[h], q) {
        if !SameRequest(rows[h], q) {
          return CreateError("create_idempotency_conflict");
        }
        if rows[h].state !in {Cancelled, Expired, FailedTerminal} {
          sessions := rows;
          return Reused(h);
        }
      }
      var room := RequireReservedCapacity(cfg, rows, q.total);
      if !room {
        return CreateError("insufficient_storage");
      }
      sessions := ReleaseKey(rows, q)[u := NewSession(q, now)];
      return Fresh;
    }

    /** Cancels an upload of this sender, unless it is claimed or committed. */
    method CancelUpload(u: nat, source: Source) returns (refused: Option<string>)
      modifies this`sessions
      ensures refused == CancelError(old(Contents()), u, source)
      ensures refused.None? <==>
                u in old(sessions) && old(sessions)[u].source == source
                && old(sessions)[u].state !in {Completing, Committed}
      ensures refused.Some? ==> sessions == old(sessions)
      ensures refused.None? ==>
                && sessions.Keys == old(sessions).Keys
                && sessions[u].state == Cancelled
                && (old(sessions)[u].state != Cancelled ==> sessions[u].chunks == map[])
                && sessions[u] == old(sessions)[u].(state := sessions[u].state, chunks := sessions[u].chunks)
                && forall v | v in sessions && v != u :: sessions[v] == old(sessions)[v]
      ensures Contents() == if refused.Some? then old(Contents()) else CancelRow(old(Contents()), u)
    {
      if u !in sessions {
        return Some("upload_not_found");
      }
      var x := sessions[u];
      if x.source != source {
        return Some("wrong_source");
      }
      if x.state == Committed {
        return Some("upload_already_committed");
      }
      if x.state == Completing {
        return Some("upload_already_completing");
      }
      if x.state != Cancelled {
        sessions := sessions[u := x.(state := Cancelled, chunks := map[])];
      }
      return None;
    }

    method Reclaim(u: nat)
      requires u in partials
      modifies this`partials, this`free
      ensures partials == old(partials) - {u}
      ensures free + Sum(SizeMap(partials)) == old(free) + Sum(SizeMap(old(partials)))
    {
      SweptSize(partials, u);
      RemovePartial(u);
    }

    /** Walks the directory and unlinks every partial that is old and that no active upload uses. */
    method SweepPartials(active: set<nat>, cutoff: nat) returns (removed: nat)
      modifies this`partials, this`free
      ensures partials == old(partials) - SweptSet(old(partials), active, cutoff)
      ensures removed == |SweptSet(old(partials), active, cutoff)|
      ensures free + Sum(SizeMap(partials)) == old(free + Sum(SizeMap(partials)))
    {
      var names := partials.Keys;
      ghost var was, space := partials, free + Sum(SizeMap(partials));
      ghost var gone: set<nat> := {};
      removed := 0;
      while names != {}
        invariant names <= was.Keys && gone <= was.Keys - names
        invariant forall u | u in was.Keys - names :: u in gone <==> Swept(was, active, cutoff, u)
        invariant partials == was - gone
        invariant removed == |gone|
        invariant free + Sum(SizeMap(partials)) == space
        decreases |names|
      {
        var u :| u in names;
        names := names - {u};
        if u !in active && partials[u].mtime < cutoff {
          Reclaim(u);
          removed := removed + 1;
          gone := gone + {u};
        }
      }
      assert gone == SweptSet(was, active, cutoff);
    }

    /** The sweep: recovers stale completions, expires what is overdue, then cleans the directory. */
    method CleanupPartials(cfg: Config, listing: seq<Listed>, now: nat, cutoff: nat)
        returns (tally: Tally, removed: nat)
      modifies this
      ensures var r := RecoverAll(cfg, old(Contents()), listing);
              var active := ActiveUploads(sessions, now);
              && tally == r.tally
              && sessions == ExpireStates(r.disk.sessions, now)
              && partials == r.disk.partials - SweptSet(r.disk.partials, active, cutoff)
              && removed == |SweptSet(r.disk.partials, active, cutoff)|
              && free + Sum(SizeMap(partials)) == r.disk.free + Sum(SizeMap(r.disk.partials))
              && files == r.disk.files && objects == r.disk.objects
    {
      tally := RecoverStaleCompletions(cfg, listing);
      sessions := ExpireStates(sessions, now);
      removed := SweepPartials(ActiveUploads(sessions, now), cutoff);
    }
  }

  lemma OneHolder(d: Disk, now: nat, q: CreateRequest)
    requires KeysUnique(d)
    ensures var rows := Expire(d.sessions, now);
            forall g: nat, h: nat | g in rows && h in rows && HoldsKey(rows[g], q) && HoldsKey(rows[h], q) :: g == h
  {
    var rows := Expire(d.sessions, now);
    forall g: nat, h: nat | g in rows && h in rows && HoldsKey(rows[g], q) && HoldsKey(rows[h], q) ensures g == h {
      assert SameKey(d, g, h);
    }
  }

  lemma SweptSize(partials: map<nat, Blob>, u: nat)
    requires u in partials
    ensures Sum(SizeMap(partials - {u})) == Sum(SizeMap(partials)) - |partials[u].bytes|
  {
    SumTake(SizeMap(partials), u);
    assert SizeMap(partials) - {u} == SizeMap(partials - {u});
  }

  function SweptSet(partials: map<nat, Blob>, active: set<nat>, cutoff: nat): set<nat> {
    set u | u in partials && Swept(partials, active, cutoff, u)
  }

  function SizeMap(partials: map<nat, Blob>): map<nat, int> {
    map u | u in partials :: |partials[u].bytes|
  }

  lemma ExpireTwice(rows: map<nat, Session>, now: nat)
    ensures Expire(Expire(rows, now), now) == Expire(rows, now)
  {
  }
}
