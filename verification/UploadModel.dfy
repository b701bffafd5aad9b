/**
 The durable state of one PairDrop vault and the decisions its upload code takes on it.

 A vault is a database (upload sessions with their chunk rows, file rows), two directories
 (partial files, published objects) and the free space left on the volume. Every database
 transaction and every file-system effect is one atomic change of this state.
 */
module UploadModel {
  import opened Prelude
  import opened Sums

  datatype UploadState =
    | Created | Receiving | FailedRetryable | Completing
    | Committed | Cancelled | Expired | FailedTerminal

  predicate Terminal(st: UploadState) {
    st in {Committed, Cancelled, Expired, FailedTerminal}
  }

  /** The states in which chunks may still be written. */
  predicate Open(st: UploadState) {
    st in {Created, Receiving, FailedRetryable}
  }

  datatype Source = Source(device: string, install: string)

  /** A row of the chunk table. The bytes themselves live only in the partial file. */
  datatype Chunk = Chunk(offset: nat, count: nat, digest: string)

  datatype Session = Session(
    total: nat,
    expected: string,
    verified: nat,
    state: UploadState,
    fileId: Option<nat>,
    source: Source,
    createKey: Option<string>,
    request: string,
    chunks: map<string, Chunk>,
    createdAt: nat,
    expiresAt: nat)

  datatype FileRow = FileRow(size: nat, digest: string, deleted: bool)

  /** A partial file and its modification time. */
  datatype Blob = Blob(bytes: seq<byte>, mtime: nat)

  datatype Disk = Disk(
    sessions: map<nat, Session>,
    files: map<nat, FileRow>,
    partials: map<nat, Blob>,
    objects: map<nat, seq<byte>>,
    free: int)

  /** What a daemon is configured with. */
  datatype Config = Config(hash: Hash, reserve: nat, limit: nat)

  const UPLOAD_LEASE_SECONDS: nat := 24 * 60 * 60
  const MAX_KEY_LENGTH: nat := 160

  predicate LiveIn(d: Disk, u: nat) {
    u in d.sessions && !Terminal(d.sessions[u].state)
  }

  predicate OpenIn(d: Disk, u: nat) {
    u in d.sessions && Open(d.sessions[u].state)
  }

  // ---------------------------------------------------------------- expiry

  function ExpiredOne(x: Session, now: nat): Session {
    if Open(x.state) && x.expiresAt <= now then x.(state := Expired) else x
  }

  function DropDeadChunks(x: Session): Session {
    if Terminal(x.state) then x.(chunks := map[]) else x
  }

  /** Marks every overdue open upload expired. */
  function ExpireStates(sessions: map<nat, Session>, now: nat): map<nat, Session> {
    map u | u in sessions :: ExpiredOne(sessions[u], now)
  }

  /** The sweep that starts each create, write, complete and inline transaction. */
  function Expire(sessions: map<nat, Session>, now: nat): map<nat, Session> {
    map u | u in sessions :: DropDeadChunks(ExpiredOne(sessions[u], now))
  }

  // -------------------------------------------------------------- capacity

  function Remaining(x: Session): nat {
    if Terminal(x.state) || x.total <= x.verified then 0 else x.total - x.verified
  }

  function Overhang(d: Disk, u: nat): nat {
    if LiveIn(d, u) && u in d.partials && |d.partials[u].bytes| > d.sessions[u].verified
    then |d.partials[u].bytes| - d.sessions[u].verified else 0
  }

  function RemainingMap(sessions: map<nat, Session>): map<nat, int> {
    map u | u in sessions :: Remaining(sessions[u])
  }

  function OverhangMap(d: Disk): map<nat, int> {
    map u | u in d.sessions :: Overhang(d, u)
  }

  /** The bytes that unfinished uploads may still claim. */
  ghost function Reserved(sessions: map<nat, Session>): int {
    Sum(RemainingMap(sessions))
  }

  /** The bytes on disk behind no verified offset, which the next write truncates. */
  ghost function Truncatable(d: Disk): int {
    Sum(OverhangMap(d))
  }

  ghost predicate HasCapacity(cfg: Config, free: int, sessions: map<nat, Session>, additional: nat) {
    (if free < 0 then 0 else free) >= Reserved(sessions) + additional + cfg.reserve
  }

  // --------------------------------------------------------- partial files

  function PartialBytes(d: Disk, u: nat): seq<byte> {
    if u in d.partials then d.partials[u].bytes else []
  }

  function SetPartial(d: Disk, u: nat, bytes: seq<byte>, now: nat): Disk {
    d.(partials := d.partials[u := Blob(bytes, now)],
       free := d.free + |PartialBytes(d, u)| - |bytes|)
  }

  function UnlinkPartial(d: Disk, u: nat): Disk {
    d.(partials := d.partials - {u}, free := d.free + |PartialBytes(d, u)|)
  }

  /** Cuts a partial back to the verified offset if a torn write left more. */
  function TrimOverhang(d: Disk, u: nat, verified: nat, now: nat): Disk {
    if u in d.partials && |d.partials[u].bytes| > verified
    then SetPartial(d, u, d.partials[u].bytes[..verified], now) else d
  }

  /** Whether bytes[offset..offset + count] is inside the file and has this digest. */
  predicate RangeHas(h: Hash, bytes: seq<byte>, offset: nat, count: nat, digest: string) {
    offset + count <= |bytes| && h(bytes[offset..offset + count]) == digest
  }

  // ------------------------------------------------------- writing a chunk

  datatype WriteRequest = WriteRequest(
    offset: int,
    data: seq<byte>,
    digest: string,
    key: string,
    source: Source,
    declared: Option<nat>)

  /** How a write ends, or that the bytes may now be appended. */
  datatype Verdict =
    | Refuse(code: string)              // the transaction rolls back
    | RefuseExpired(code: string)       // refused, but expiry is committed
    | Restart                           // the partial lost verified bytes
    | Replay(verified: nat)             // the same bytes were recorded before
    | Accept

  predicate LostVerifiedBytes(d: Disk, u: nat, verified: nat) {
    |PartialBytes(d, u)| < verified
  }

  function CheckRequest(h: Hash, q: WriteRequest): Option<string> {
    if q.data == [] then Some("empty_chunk")
    else if q.offset < 0 then Some("bad_offset")
    else if h(q.data) != q.digest then Some("chunk_hash_mismatch")
    else if q.key == "" || |q.key| > MAX_KEY_LENGTH then Some("bad_idempotency_key")
    else None
  }

  /** The checks before the partial file is looked at. */
  function JudgeSession(sessions: map<nat, Session>, u: nat, q: WriteRequest): (v: Option<Verdict>)
    ensures v.None? ==> u in sessions && Open(sessions[u].state)
  {
    if u !in sessions then Some(Refuse("upload_not_found"))
    else if sessions[u].source != q.source then Some(Refuse("wrong_source"))
    else if !Open(sessions[u].state) then Some(RefuseExpired("upload_not_writable"))
    else if q.declared.Some? && q.declared.value != sessions[u].total
      then Some(Refuse("content_range_total_mismatch"))
    else None
  }

  /** The checks after the overhang is cut off; `bytes` is the partial from here on. */
  ghost function JudgeBytes(cfg: Config, x: Session, bytes: seq<byte>, present: bool,
                            free: int, sessions: map<nat, Session>, q: WriteRequest): Verdict
    requires q.offset >= 0
  {
    var offset: nat := q.offset;
    if q.key in x.chunks then
      if x.chunks[q.key] != Chunk(offset, |q.data|, q.digest) then Refuse("idempotency_conflict")
      else if !present then Refuse("missing_partial")
      else if !RangeHas(cfg.hash, bytes, offset, |q.data|, q.digest) then Refuse("chunk_mismatch")
      else Replay(if x.verified >= offset + |q.data| then x.verified else offset + |q.data|)
    else if offset < x.verified then
      if !present then Refuse("missing_partial")
      else if RangeHas(cfg.hash, bytes, offset, |q.data|, q.digest) then Replay(x.verified)
      else Refuse("chunk_mismatch")
    else if offset != x.verified then Refuse("unexpected_offset")
    else if offset + |q.data| > x.total then Refuse("chunk_exceeds_total")
    else if !HasCapacity(cfg, free, sessions, 0) then Refuse("insufficient_storage")
    else Accept
  }

  datatype Judged = Judged(disk: Disk, verdict: Verdict)

  /**
   Everything a write does before it appends: validation, expiry, restart detection,
   truncation of the overhang and the replay checks. For `Accept` and `Restart` the
   expiry is still uncommitted and `disk` only carries the file effects so far.
   */
  ghost function JudgeWrite(cfg: Config, d: Disk, u: nat, q: WriteRequest, now: nat): Judged {
    var s1 := Expire(d.sessions, now);
    if CheckRequest(cfg.hash, q).Some? then Judged(d, Refuse(CheckRequest(cfg.hash, q).value))
    else
      var early := JudgeSession(s1, u, q);
      if early.Some? then
        Judged(if early.value.RefuseExpired? then d.(sessions := s1) else d, early.value)
      else if LostVerifiedBytes(d, u, s1[u].verified) then Judged(UnlinkPartial(d, u), Restart)
      else
        var d1 := TrimOverhang(d, u, s1[u].verified, now);
        var v := JudgeBytes(cfg, s1[u], PartialBytes(d1, u), u in d1.partials, d1.free, s1, q);
        Judged(if v.Replay? then d1.(sessions := s1) else d1, v)
  }

  /** The row after a chunk is appended at the verified offset. */
  function RowAfterWrite(x: Session, q: WriteRequest, now: nat): Session
    requires q.offset >= 0
  {
    x.(verified := q.offset + |q.data|,
       state := Receiving,
       expiresAt := now + UPLOAD_LEASE_SECONDS,
       chunks := x.chunks[q.key := Chunk(q.offset, |q.data|, q.digest)])
  }

  /** The row after an upload is told to start again. */
  function RowAfterRestart(x: Session): Session {
    x.(verified := 0, state := FailedRetryable, chunks := map[])
  }

  /** The partial after `data` is written at `offset` over the first `offset` bytes. */
  function Appended(d: Disk, u: nat, offset: nat, data: seq<byte>, now: nat): Disk {
    var was := PartialBytes(d, u);
    SetPartial(d, u, (if |was| <= offset then was else was[..offset]) + data, now)
  }

  // ------------------------------------------------------------ completion

  /** What completing an open upload finds in its partial file. */
  function CheckPartial(h: Hash, d: Disk, u: nat, x: Session): (code: Option<string>)
    ensures code.None? ==> u in d.partials
    ensures code.None? ==> |d.partials[u].bytes| == x.total == x.verified
    ensures code.None? ==> h(d.partials[u].bytes) == x.expected
  {
    if u !in d.partials then Some("missing_partial")
    else if |d.partials[u].bytes| != x.total then Some("byte_count_mismatch")
    else if x.verified != x.total then Some("verified_offset_mismatch")
    else if h(d.partials[u].bytes) != x.expected then Some("sha256_mismatch")
    else None
  }

  function StateAfterFailedCheck(code: string): UploadState {
    if code == "sha256_mismatch" then FailedTerminal else FailedRetryable
  }

  /** Records a failed completion; a no-op unless the upload is still open. */
  function MarkError(sessions: map<nat, Session>, u: nat, to: UploadState): map<nat, Session> {
    if u !in sessions then sessions else
      var x := sessions[u];
      var y := if Open(x.state) then x.(state := to) else x;
      sessions[u := if to == FailedTerminal then y.(chunks := map[]) else y]
  }

  datatype Inspection = ObjectReady | PartialReady | Conflict | Damaged

  predicate ObjectMatches(h: Hash, d: Disk, fid: nat, x: Session) {
    fid in d.objects && |d.objects[fid]| == x.total && h(d.objects[fid]) == x.expected
  }

  /** What resuming a claimed completion finds: the object, else the partial, else neither. */
  function Inspect(h: Hash, d: Disk, u: nat, x: Session, fid: nat): Inspection {
    if ObjectMatches(h, d, fid, x) then ObjectReady
    else if fid in d.objects then Conflict
    else if u in d.partials && |d.partials[u].bytes| == x.total && h(d.partials[u].bytes) == x.expected
      then PartialReady
    else Damaged
  }

  predicate FreshFile(d: Disk, fid: nat) {
    fid !in d.files && fid !in d.objects
    && forall u | u in d.sessions :: d.sessions[u].fileId != Some(fid)
  }

  /** The compare-and-swap that takes ownership of a completion. */
  function ClaimRow(d: Disk, u: nat, snap: Session, fid: nat): Option<Disk> {
    if u in d.sessions && d.sessions[u].source == snap.source
       && Open(snap.state) && d.sessions[u].state == snap.state
    then Some(d.(sessions := d.sessions[u := d.sessions[u].(fileId := Some(fid), state := Completing)]))
    else None
  }

  function PublishObject(d: Disk, u: nat, fid: nat): Disk
    requires u in d.partials
  {
    d.(partials := d.partials - {u}, objects := d.objects[fid := d.partials[u].bytes])
  }

  /** The transaction that inserts the file row and retires the upload. */
  function CommitRow(d: Disk, u: nat, fid: nat): Option<Disk> {
    if u !in d.sessions || d.sessions[u].state != Completing || d.sessions[u].fileId != Some(fid) then None
    else
      var x := d.sessions[u];
      if fid in d.files && d.files[fid] != FileRow(x.total, x.expected, false) then None
      else Some(d.(files := d.files[fid := FileRow(x.total, x.expected, false)],
                   sessions := d.sessions[u := x.(state := Committed, verified := x.total, chunks := map[])]))
  }

  /** Gives up the create keys of the uploads behind a file. */
  function DropKeys(sessions: map<nat, Session>, fid: nat): map<nat, Session> {
    map u | u in sessions ::
      if sessions[u].fileId == Some(fid) then sessions[u].(createKey := None) else sessions[u]
  }

  /** The first deletion of a file marks its row and frees the key its upload was created under. */
  function MarkDeleted(d: Disk, fid: nat): Disk
    requires fid in d.files
  {
    if d.files[fid].deleted then d
    else d.(files := d.files[fid := d.files[fid].(deleted := true)], sessions := DropKeys(d.sessions, fid))
  }

  /** Sends a claimed but unpublished upload back to its first byte. */
  function ResetRow(d: Disk, u: nat, now: nat): Disk {
    if u in d.sessions && d.sessions[u].state == Completing
    then d.(sessions := d.sessions[u := RowAfterRestart(d.sessions[u]).(
           fileId := None, expiresAt := now + UPLOAD_LEASE_SECONDS)])
    else d
  }

  // ---------------------------------------------------- create and cancel

  datatype CreateRequest = CreateRequest(
    total: int, expected: string, source: Source, key: Option<string>, request: string, ttl: int)

  /** The upload that already answers this idempotency key, if any. */
  predicate HoldsKey(x: Session, q: CreateRequest) {
    q.key.Some? && x.createKey == q.key && x.source == q.source
  }

  predicate SameRequest(x: Session, q: CreateRequest) {
    x.request == q.request && x.total == q.total && x.expected == q.expected
  }

  function CheckCreate(cfg: Config, q: CreateRequest): Option<string> {
    if q.total <= 0 then Some("bad_total_byte_count")
    else if q.total > cfg.limit then Some("transfer_too_large")
    else if q.key.Some? && (q.source.device == "" || q.source.install == "")
      then Some("create_idempotency_source_required")
    else None
  }

  function NewSession(q: CreateRequest, now: nat): Session
    requires q.total > 0
  {
    Session(q.total, q.expected, 0, Created, None, q.source, q.key, q.request, map[],
            now, now + (if q.ttl < 60 then 60 else q.ttl))
  }

  /** Frees the idempotency key of the dead upload that holds it. */
  function ReleaseKey(sessions: map<nat, Session>, q: CreateRequest): map<nat, Session> {
    map u | u in sessions ::
      if HoldsKey(sessions[u], q) && sessions[u].state in {Cancelled, Expired, FailedTerminal}
      then sessions[u].(createKey := None) else sessions[u]
  }

  predicate SameKey(d: Disk, u: nat, v: nat) {
    && u in d.sessions && v in d.sessions
    && d.sessions[u].createKey.Some? && d.sessions[u].createKey == d.sessions[v].createKey
    && d.sessions[u].source == d.sessions[v].source
  }

  /** A create key names at most one upload of its source. */
  ghost predicate KeysUnique(d: Disk) {
    forall u, v {:trigger SameKey(d, u, v)} | SameKey(d, u, v) :: u == v
  }

  datatype CreateResult = CreateError(code: string) | Reused(u: nat) | Fresh

  /** The create transaction on the sessions left after expiry. */
  ghost function JudgeCreate(cfg: Config, d: Disk, q: CreateRequest, now: nat): CreateResult {
    var s1 := Expire(d.sessions, now);
    if CheckCreate(cfg, q).Some? then CreateError(CheckCreate(cfg, q).value)
    else if exists h :: h in s1 && HoldsKey(s1[h], q) then
      var h :| h in s1 && HoldsKey(s1[h], q);
      if !SameRequest(s1[h], q) then CreateError("create_idempotency_conflict")
      else if s1[h].state !in {Cancelled, Expired, FailedTerminal} then Reused(h)
      else if HasCapacity(cfg, d.free, s1, q.total) then Fresh
      else CreateError("insufficient_storage")
    else if HasCapacity(cfg, d.free, s1, q.total) then Fresh else CreateError("insufficient_storage")
  }

  /** The disk after `JudgeCreate` answered `Fresh`. */
  function WithNewSession(d: Disk, u: nat, q: CreateRequest, now: nat): Disk
    requires q.total > 0
  {
    d.(sessions := ReleaseKey(Expire(d.sessions, now), q)[u := NewSession(q, now)])
  }

  function CancelError(d: Disk, u: nat, source: Source): Option<string> {
    if u !in d.sessions then Some("upload_not_found")
    else if d.sessions[u].source != source then Some("wrong_source")
    else if d.sessions[u].state == Committed then Some("upload_already_committed")
    else if d.sessions[u].state == Completing then Some("upload_already_completing")
    else None
  }

  function CancelRow(d: Disk, u: nat): Disk
    requires u in d.sessions
  {
    if d.sessions[u].state == Cancelled then d
    else d.(sessions := d.sessions[u := d.sessions[u].(state := Cancelled, chunks := map[])])
  }
}
