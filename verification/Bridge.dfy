/**
 The local bridge credential: one file holding a bearer token, and the registry rows that
 may be its device. Ensuring the bridge keeps a credential that still works and is alone,
 and otherwise creates a device, replaces the file and retires every other bridge row. Any
 of these effects may fail, and the process may die between any two of them.
 */
module Bridge {
  import opened Prelude

  const BRIDGE_NAME: string := "Pairling MCP Bridge"
  const RUN_SCOPE: string := "pairling-tools:run"
  const DISPATCH_SCOPE: string := "pairling-tools:dispatch"
  const BRIDGE_SCOPES: set<string> := {RUN_SCOPE, DISPATCH_SCOPE}
  const PURPOSE: string := "local_mcp_bridge"

  datatype Row = Row(
    name: string, tokenHash: string, scopes: set<string>, install: string,
    revoked: bool, active: bool, purpose: string, lease: Option<int>, secret: string)

  datatype Credential = Credential(device: string, install: string, token: string, secret: string, scopes: set<string>)

  datatype State = State(rows: map<string, Row>, file: Option<Credential>)

  type TokenHash = string -> string

  /** The file as it is read: a credential with a part missing counts as none. */
  function Readable(file: Option<Credential>): Option<Credential> {
    if file.Some? && file.value.device != "" && file.value.install != "" && file.value.token != "" && file.value.secret != ""
    then file else None
  }

  /** The file holds this credential, as far as the four identifying parts go. */
  predicate Matches(file: Option<Credential>, c: Credential) {
    && Readable(file).Some?
    && file.value.device == c.device && file.value.install == c.install
    && file.value.token == c.token && file.value.secret == c.secret
  }

  // ------------------------------------------------------------------ queries

  predicate Usable(r: Row) {
    !r.revoked && r.active
  }

  predicate AcceptedScopes(scopes: set<string>) {
    scopes == {RUN_SCOPE} || scopes == BRIDGE_SCOPES
  }

  /** Tagged as the bridge, or an untagged row of exactly the legacy shape. */
  predicate BridgeShaped(r: Row) {
    r.purpose == PURPOSE || (r.purpose == "" && r.name == BRIDGE_NAME && AcceptedScopes(r.scopes))
  }

  function ActiveBridges(rows: map<string, Row>): set<string> {
    set d | d in rows && Usable(rows[d]) && BridgeShaped(rows[d])
  }

  predicate SameToken(rows: map<string, Row>, d: string, e: string) {
    d in rows && e in rows && rows[d].tokenHash == rows[e].tokenHash
  }

  /** The unique column of token hashes. */
  ghost predicate UniqueTokens(rows: map<string, Row>) {
    forall d, e {:trigger SameToken(rows, d, e)} | SameToken(rows, d, e) :: d == e
  }

  predicate HasToken(rows: map<string, Row>, hash: string, d: string) {
    d in rows && rows[d].tokenHash == hash
  }

  /** What authenticating a token says; `device` is set when the row is usable. */
  datatype Auth = Auth(ok: bool, device: Option<string>)

  ghost function Authenticate(h: TokenHash, rows: map<string, Row>, token: string, now: int): Auth {
    if token == "" || !exists d :: d in rows && HasToken(rows, h(token), d) then Auth(false, None)
    else
      var d :| HasToken(rows, h(token), d);
      if (rows[d].lease.Some? && now >= rows[d].lease.value) || !Usable(rows[d]) then Auth(false, None)
      else Auth(BRIDGE_SCOPES <= rows[d].scopes, Some(d))
  }

  // --------------------------------------------------------- canonicalization

  predicate ProvenRow(h: TokenHash, rows: map<string, Row>, c: Credential) {
    && c.token != "" && c.device != "" && c.install != ""
    && HasToken(rows, h(c.token), c.device)
    && var r := rows[c.device];
       r.name == BRIDGE_NAME && r.install == c.install && Usable(r)
       && r.purpose in {"", PURPOSE} && AcceptedScopes(r.scopes)
  }

  function TagOnly(rows: map<string, Row>, keep: string): map<string, Row> {
    map d | d in rows ::
      if d == keep then (if rows[d].purpose == "" then rows[d].(purpose := PURPOSE) else rows[d])
      else if Usable(rows[d]) && BridgeShaped(rows[d]) then rows[d].(revoked := true)
      else rows[d]
  }

  /** Tags the row a credential proves and revokes every other bridge row. */
  function Canonicalize(h: TokenHash, rows: map<string, Row>, c: Credential): map<string, Row> {
    if ProvenRow(h, rows, c) then TagOnly(rows, c.device) else rows
  }

  function BindPurpose(rows: map<string, Row>, d: string): map<string, Row> {
    if d in rows && rows[d].name == BRIDGE_NAME && !rows[d].revoked && rows[d].purpose == ""
    then rows[d := rows[d].(purpose := PURPOSE)] else rows
  }

  function RevokeNamed(rows: map<string, Row>, d: string): map<string, Row> {
    if d in rows && rows[d].name == BRIDGE_NAME then rows[d := rows[d].(revoked := true)] else rows
  }

  function RevokeTaggedExcept(rows: map<string, Row>, keep: string): map<string, Row> {
    map d | d in rows :: if d != keep && rows[d].purpose == PURPOSE then rows[d].(revoked := true) else rows[d]
  }

  // --------------------------------------------------------------- one ensure

  datatype WriteFault = Written | Untouched | ReplacedButFailed

  datatype Faults = Faults(
    write: WriteFault,
    retired: nat,        // how many of the three retiring steps succeed
    revoked: bool)       // whether the compensating revocation succeeds

  const FAULT_FREE := Faults(Written, 3, true)

  datatype Attempt = Attempt(trail: seq<State>, outcome: Result<Credential, string>)

  /** The random identity a new bridge device takes. */
  datatype Identity = Identity(device: string, token: string, secret: string)

  function NewRow(h: TokenHash, i: Identity, install: string): Row {
    Row(BRIDGE_NAME, h(i.token), BRIDGE_SCOPES, install, false, true, PURPOSE, None, i.secret)
  }

  function CredentialOf(i: Identity, install: string): Credential {
    Credential(i.device, install, i.token, i.secret, BRIDGE_SCOPES)
  }

  predicate Vacant(h: TokenHash, rows: map<string, Row>, i: Identity) {
    i.device != "" && i.token != "" && i.secret != "" && i.device !in rows && !exists d :: d in rows && HasToken(rows, h(i.token), d)
  }

  /** The three retiring steps, as far as they succeed. */
  function Retire(h: TokenHash, trail: seq<State>, stale: Option<string>, c: Credential, steps: nat): seq<State>
    requires trail != []
  {
    var s0 := trail[|trail| - 1];
    var s1 := s0.(rows := if stale.Some? then RevokeNamed(s0.rows, stale.value) else s0.rows);
    var s2 := s1.(rows := Canonicalize(h, s1.rows, c));
    var s3 := s2.(rows := RevokeTaggedExcept(s2.rows, c.device));
    if steps == 0 then trail
    else if steps == 1 then trail + [s1]
    else if steps == 2 then trail + [s1] + [s2]
    else trail + [s1] + [s2] + [s3]
  }

  function Rotate(h: TokenHash, trail: seq<State>, stale: Option<string>, install: string, i: Identity,
                  f: Faults): Attempt
    requires trail != []
  {
    var s := trail[|trail| - 1];
    if !Vacant(h, s.rows, i) then Attempt(trail, Err("integrity"))
    else
      var c := CredentialOf(i, install);
      var created := s.(rows := s.rows[i.device := NewRow(h, i, install)]);
      var t := trail + [created];
      match f.write
      case Untouched =>
        if Matches(s.file, c) then Attempt(Retire(h, t, stale, c, f.retired), Err("write"))
        else if f.revoked then
          Attempt(t + [created.(rows := created.rows[i.device := NewRow(h, i, install).(revoked := true)])], Err("write"))
        else Attempt(t, Err("write"))
      case ReplacedButFailed => Attempt(Retire(h, t + [created.(file := Some(c))], stale, c, f.retired), Err("write"))
      case Written =>
        Attempt(Retire(h, t + [created.(file := Some(c))], stale, c, f.retired),
                if f.retired >= 3 then Ok(c) else Err("retire"))
  }

  /** What an ensure finds out about the credential in the file before it decides. */
  datatype Findings = Findings(migrated: map<string, Row>, bound: map<string, Row>, stale: Option<string>, kept: bool)

  ghost function Inspect(h: TokenHash, rows: map<string, Row>, c: Credential, install: string, now: int): Findings {
    var migrated := Canonicalize(h, rows, c);
    var auth := Authenticate(h, migrated, c.token, now);
    if auth.device.Some? && auth.device.value != "" && auth.device.value in migrated
       && migrated[auth.device.value].install == install && RUN_SCOPE in migrated[auth.device.value].scopes then
      var bound := BindPurpose(migrated, auth.device.value);
      Findings(migrated, bound, auth.device, auth.ok && ActiveBridges(bound) == {auth.device.value})
    else Findings(migrated, migrated, None, false)
  }

  function Kept(rows: map<string, Row>, d: string, install: string, c: Credential): Credential
    requires d in rows
  {
    Credential(d, install, c.token, if rows[d].secret != "" then rows[d].secret else c.secret, rows[d].scopes)
  }

  ghost function Ensure(h: TokenHash, s: State, install: string, i: Identity, now: int, f: Faults): Attempt {
    if install == "" then Attempt([s], Err("install_id must be a nonblank string"))
    else if Readable(s.file).None? then Rotate(h, [s], None, install, i, f)
    else
      var c := s.file.value;
      var found := Inspect(h, s.rows, c, install, now);
      var s1, s2 := s.(rows := found.migrated), s.(rows := found.bound);
      if found.kept && found.stale.Some? && found.stale.value in found.bound then
        var k := Kept(found.bound, found.stale.value, install, c);
        match f.write
        case Written => Attempt([s] + [s1] + [s2] + [s2.(file := Some(k))], Ok(k))
        case ReplacedButFailed => Attempt([s] + [s1] + [s2] + [s2.(file := Some(k))], Err("write"))
        case Untouched => Attempt([s] + [s1] + [s2], Err("write"))
      else Rotate(h, [s] + [s1] + [s2], found.stale, install, i, f)
  }

  // ---------------------------------------------------------------- the methods

  class LocalBridge {
    var rows: map<string, Row>
    var file: Option<Credential>
    const h: TokenHash
    ghost var trail: seq<State>

    constructor (h: TokenHash)
      ensures Contents() == State(map[], None) && this.h == h
    {
      rows, file, trail := map[], None, [];
      this.h := h;
    }

    ghost function Contents(): State
      reads this
    {
      State(rows, file)
    }

    ghost predicate Recorded()
      reads this
    {
      trail != [] && trail[|trail| - 1] == Contents()
    }

    method AuthenticateToken(token: string, now: int) returns (auth: Auth)
      requires UniqueTokens(rows)
      ensures auth == Authenticate(h, rows, token, now)
    {
      auth := Auth(false, None);
      if token == "" {
        return;
      }
      if d :| d in rows && HasToken(rows, h(token), d) {
        AuthenticateIs(h, rows, token, now, d);
        var r := rows[d];
        if (r.lease.Some? && now >= r.lease.value) || r.revoked || !r.active {
          return;
        }
        return Auth(BRIDGE_SCOPES <= r.scopes, Some(d));
      }
    }

    /** Revokes every usable bridge row but one, row by row. */
    method RevokeDuplicates(keep: string)
      requires keep in rows
      modifies this`rows
      ensures rows.Keys == old(rows).Keys && rows[keep] == old(rows)[keep]
      ensures forall d | d in rows && d != keep ::
                rows[d] == if Usable(old(rows)[d]) && BridgeShaped(old(rows)[d]) then old(rows)[d].(revoked := true)
                           else old(rows)[d]
    {
      ghost var was := rows;
      var left := rows.Keys - {keep};
      while left != {}
        invariant left <= was.Keys - {keep} && rows.Keys == was.Keys
        invariant forall d | d in left || d == keep :: rows[d] == was[d]
        invariant forall d | d in was.Keys - left - {keep} ::
                    rows[d] == if Usable(was[d]) && BridgeShaped(was[d]) then was[d].(revoked := true) else was[d]
        decreases |left|
      {
        var d :| d in left;
        left := left - {d};
        if Usable(rows[d]) && BridgeShaped(rows[d]) {
          rows := rows[d := rows[d].(revoked := true)];
        }
      }
    }

    /** Tags the row a credential proves, then revokes the other bridge rows. */
    method CanonicalizeLegacyDevice(c: Credential) returns (done: bool)
      modifies this`rows
      ensures rows == Canonicalize(h, old(rows), c)
      ensures done <==> ProvenRow(h, old(rows), c)
    {
      done := ProvenRow(h, rows, c);
      if done {
        if rows[c.device].purpose == "" {
          rows := rows[c.device := rows[c.device].(purpose := PURPOSE)];
        }
        RevokeDuplicates(c.device);
      }
    }

    method BindDevicePurpose(d: string)
      modifies this`rows
      ensures rows == BindPurpose(old(rows), d)
    {
      if d in rows && rows[d].name == BRIDGE_NAME && !rows[d].revoked && rows[d].purpose == "" {
        rows := rows[d := rows[d].(purpose := PURPOSE)];
      }
    }

    /** Retires every other bridge row; false if a step failed. */
    method RetirePreviousBridges(stale: Option<string>, c: Credential, steps: nat) returns (done: bool)
      requires Recorded()
      modifies this`rows, this`trail
      ensures trail == Retire(h, old(trail), stale, c, steps) && Recorded()
      ensures done <==> steps >= 3
    {
      if steps == 0 {
        return false;
      }
      if stale.Some? && stale.value in rows && rows[stale.value].name == BRIDGE_NAME {
        rows := rows[stale.value := rows[stale.value].(revoked := true)];
      }
      trail := trail + [Contents()];
      if steps == 1 {
        return false;
      }
      var _ := CanonicalizeLegacyDevice(c);
      trail := trail + [Contents()];
      if steps == 2 {
        return false;
      }
      rows := map d | d in rows ::
        if d != c.device && rows[d].purpose == PURPOSE then rows[d].(revoked := true) else rows[d];
      trail := trail + [Contents()];
      return true;
    }

    /** Creates a device, replaces the file and retires the others, undoing a failed write. */
    method RotateBridge(stale: Option<string>, install: string, i: Identity, f: Faults)
        returns (r: Result<Credential, string>)
      requires Recorded()
      modifies this
      ensures Attempt(trail, r) == Rotate(h, old(trail), stale, install, i, f) && Recorded()
    {
      if !Vacant(h, rows, i) {
        return Err("integrity");
      }
      rows := rows[i.device := NewRow(h, i, install)];
      trail := trail + [Contents()];
      var c := CredentialOf(i, install);
      if f.write != Untouched {
        file := Some(c);
        trail := trail + [Contents()];
      }
      if f.write == Written {
        var done := RetirePreviousBridges(stale, c, f.retired);
        return if done then Ok(c) else Err("retire");
      }
      if f.write == ReplacedButFailed || Matches(file, c) {
        var _ := RetirePreviousBridges(stale, c, f.retired);
      } else if f.revoked {
        rows := rows[i.device := rows[i.device].(revoked := true)];
        trail := trail + [Contents()];
      }
      return Err("write");
    }

    /** Migrates and binds what the credential in the file proves. */
    method InspectCredential(c: Credential, install: string, now: int) returns (stale: Option<string>, kept: bool)
      requires UniqueTokens(rows)
      modifies this`rows, this`trail
      ensures var found := Inspect(h, old(rows), c, install, now);
              && rows == found.bound && stale == found.stale && kept == found.kept
              && trail == old(trail) + [State(found.migrated, file)] + [State(found.bound, file)]
    {
      var _ := CanonicalizeLegacyDevice(c);
      CanonicalizeKeeps(h, old(rows), c);
      KeepsUnique(old(rows), rows);
      trail := trail + [Contents()];
      var auth := AuthenticateToken(c.token, now);
      stale := None;
      if auth.device.Some? && auth.device.value != "" && auth.device.value in rows
         && rows[auth.device.value].install == install && RUN_SCOPE in rows[auth.device.value].scopes {
        stale := auth.device;
        BindDevicePurpose(auth.device.value);
      }
      trail := trail + [Contents()];
      kept := auth.ok && stale.Some? && ActiveBridges(rows) == {stale.value};
    }

    method EnsureDevice(install: string, i: Identity, now: int, f: Faults) returns (r: Result<Credential, string>)
      requires UniqueTokens(rows)
      modifies this
      ensures Attempt(trail, r) == Ensure(h, old(Contents()), install, i, now, f) && Recorded()
    {
      trail := [Contents()];
      if install == "" {
        return Err("install_id must be a nonblank string");
      }
      var existing := Readable(file);
      if existing.None? {
        r := RotateBridge(None, install, i, f);
        return;
      }
      var c := existing.value;
      var stale, kept := InspectCredential(c, install, now);
      if kept && stale.Some? && stale.value in rows {
        var k := Kept(rows, stale.value, install, c);
        if f.write == Untouched {
          return Err("write");
        }
        file := Some(k);
        trail := trail + [Contents()];
        return if f.write == Written then Ok(k) else Err("write");
      }
      r := RotateBridge(stale, install, i, f);
    }
  }

  // ---------------------------------------------------------------- the claims

  /** The file names the one usable bridge row, and its token authenticates as that row. */
  ghost predicate Converged(h: TokenHash, s: State, install: string, now: int) {
    && s.file.Some?
    && var c := s.file.value;
       && ActiveBridges(s.rows) == {c.device}
       && c.install == install
       && c.device in s.rows && s.rows[c.device].install == install
       && Authenticate(h, s.rows, c.token, now) == Auth(true, Some(c.device))
  }

  lemma AuthenticateIs(h: TokenHash, rows: map<string, Row>, token: string, now: int, d: string)
    requires UniqueTokens(rows) && token != "" && HasToken(rows, h(token), d)
    ensures Authenticate(h, rows, token, now) ==
              if (rows[d].lease.Some? && now >= rows[d].lease.value) || !Usable(rows[d]) then Auth(false, None)
              else Auth(BRIDGE_SCOPES <= rows[d].scopes, Some(d))
  {
    forall e | HasToken(rows, h(token), e) ensures e == d {
      assert SameToken(rows, d, e);
    }
  }

  /** A step that keeps every token where it was. */
  predicate KeepsTokens(rows: map<string, Row>, after: map<string, Row>) {
    after.Keys == rows.Keys && forall d | d in rows :: after[d].tokenHash == rows[d].tokenHash
  }

  lemma KeepsUnique(rows: map<string, Row>, after: map<string, Row>)
    requires UniqueTokens(rows) && KeepsTokens(rows, after)
    ensures UniqueTokens(after)
  {
    forall d, e | SameToken(after, d, e) ensures d == e {
      assert SameToken(rows, d, e);
    }
  }

  lemma CanonicalizeKeeps(h: TokenHash, rows: map<string, Row>, c: Credential)
    ensures KeepsTokens(rows, Canonicalize(h, rows, c))
    ensures ProvenRow(h, rows, c) ==> ActiveBridges(Canonicalize(h, rows, c)) == {c.device}
  {
    if ProvenRow(h, rows, c) {
      var after := TagOnly(rows, c.device);
      assert c.device in ActiveBridges(after);
      assert forall d | d in ActiveBridges(after) :: d == c.device;
    }
  }

  function RetiredRows(h: TokenHash, rows: map<string, Row>, stale: Option<string>, c: Credential): map<string, Row> {
    RevokeTaggedExcept(Canonicalize(h, if stale.Some? then RevokeNamed(rows, stale.value) else rows, c), c.device)
  }

  /** Retiring leaves the new row alone and usable. */
  lemma RetiredRowsAlone(h: TokenHash, rows: map<string, Row>, stale: Option<string>, install: string, i: Identity)
    requires install != "" && i.device != "" && i.token != "" && stale != Some(i.device)
    requires i.device in rows && rows[i.device] == NewRow(h, i, install)
    ensures var after := RetiredRows(h, rows, stale, CredentialOf(i, install));
            && KeepsTokens(rows, after) && ActiveBridges(after) == {i.device}
            && i.device in after && after[i.device] == NewRow(h, i, install)
  {
    var c := CredentialOf(i, install);
    var r1 := if stale.Some? then RevokeNamed(rows, stale.value) else rows;
    assert r1[i.device] == NewRow(h, i, install);
    assert ProvenRow(h, r1, c);
    CanonicalizeKeeps(h, r1, c);
    var r2 := Canonicalize(h, r1, c);
    var r3 := RevokeTaggedExcept(r2, c.device);
    assert r3[i.device] == NewRow(h, i, install) && KeepsTokens(r2, r3);
    assert i.device in ActiveBridges(r3);
    assert forall d | d in ActiveBridges(r3) :: d in ActiveBridges(r2);
  }

  lemma RetireEnds(h: TokenHash, trail: seq<State>, stale: Option<string>, c: Credential)
    requires trail != []
    ensures var t := Retire(h, trail, stale, c, 3);
            var s := trail[|trail| - 1];
            t != [] && t[|t| - 1] == s.(rows := RetiredRows(h, s.rows, stale, c))
  {
  }

  lemma RetireConverges(h: TokenHash, trail: seq<State>, stale: Option<string>, install: string, i: Identity,
                        now: int)
    requires trail != [] && install != "" && i.device != "" && i.token != "" && stale != Some(i.device)
    requires var s := trail[|trail| - 1];
             && UniqueTokens(s.rows) && i.device in s.rows && s.rows[i.device] == NewRow(h, i, install)
             && s.file == Some(CredentialOf(i, install))
    ensures var t := Retire(h, trail, stale, CredentialOf(i, install), 3);
            t != [] && Converged(h, t[|t| - 1], install, now) && t[|t| - 1].file == Some(CredentialOf(i, install))
  {
    var s := trail[|trail| - 1];
    var after := RetiredRows(h, s.rows, stale, CredentialOf(i, install));
    RetiredRowsAlone(h, s.rows, stale, install, i);
    RetireEnds(h, trail, stale, CredentialOf(i, install));
    KeepsUnique(s.rows, after);
    AuthenticateIs(h, after, i.token, now, i.device);
  }

  lemma RotateConverges(h: TokenHash, trail: seq<State>, stale: Option<string>, install: string, i: Identity,
                        f: Faults, now: int)
    requires trail != [] && install != "" && UniqueTokens(trail[|trail| - 1].rows)
    requires stale.Some? ==> stale.value in trail[|trail| - 1].rows
    requires Rotate(h, trail, stale, install, i, f).outcome.Ok?
    ensures var a := Rotate(h, trail, stale, install, i, f);
            && a.trail != [] && Converged(h, a.trail[|a.trail| - 1], install, now)
            && a.trail[|a.trail| - 1].file == Some(a.outcome.value)
  {
    var s := trail[|trail| - 1];
    var c := CredentialOf(i, install);
    var created := s.(rows := s.rows[i.device := NewRow(h, i, install)]);
    var written := created.(file := Some(c));
    NewRowUnique(h, s.rows, i, install);
    assert (trail + [created] + [written])[|trail| + 1] == written;
    RetireConverges(h, trail + [created] + [written], stale, install, i, now);
  }

  lemma BindKeeps(rows: map<string, Row>, d: string)
    ensures KeepsTokens(rows, BindPurpose(rows, d))
  {
  }

  /** The rows keep their tokens, and a credential worth keeping is alone and works. */
  lemma InspectFinds(h: TokenHash, rows: map<string, Row>, c: Credential, install: string, now: int)
    requires UniqueTokens(rows)
    ensures var found := Inspect(h, rows, c, install, now);
            && KeepsTokens(rows, found.migrated) && KeepsTokens(rows, found.bound)
            && UniqueTokens(found.migrated) && UniqueTokens(found.bound)
            && (found.stale.Some? ==> found.stale.value in found.bound && found.bound[found.stale.value].install == install)
            && (found.kept ==>
                  && found.stale.Some? && found.stale.value != "" && ActiveBridges(found.bound) == {found.stale.value}
                  && Authenticate(h, found.bound, c.token, now) == Auth(true, found.stale))
  {
    var migrated := Canonicalize(h, rows, c);
    CanonicalizeKeeps(h, rows, c);
    KeepsUnique(rows, migrated);
    var auth := Authenticate(h, migrated, c.token, now);
    if auth.device.Some? {
      BoundFinds(h, migrated, c.token, now, auth.device.value);
    }
  }

  /** Tagging the device a token authenticates leaves the answer for that token alone. */
  lemma BoundFinds(h: TokenHash, rows: map<string, Row>, token: string, now: int, d: string)
    requires UniqueTokens(rows) && Authenticate(h, rows, token, now).device == Some(d)
    ensures d in rows && KeepsTokens(rows, BindPurpose(rows, d)) && UniqueTokens(BindPurpose(rows, d))
    ensures BindPurpose(rows, d)[d].install == rows[d].install
    ensures Authenticate(h, BindPurpose(rows, d), token, now) == Authenticate(h, rows, token, now)
  {
    assert HasToken(rows, h(token), d);
    BindKeeps(rows, d);
    KeepsUnique(rows, BindPurpose(rows, d));
    AuthenticateIs(h, rows, token, now, d);
    AuthenticateIs(h, BindPurpose(rows, d), token, now, d);
  }

  /** Every successful ensure, from any registry and any file, converges. */
  lemma EnsureConverges(h: TokenHash, s: State, install: string, i: Identity, now: int, f: Faults)
    requires UniqueTokens(s.rows) && Ensure(h, s, install, i, now, f).outcome.Ok?
    ensures var a := Ensure(h, s, install, i, now, f);
            && a.trail != [] && Converged(h, a.trail[|a.trail| - 1], install, now)
            && a.trail[|a.trail| - 1].file == Some(a.outcome.value)
  {
    if Readable(s.file).None? {
      RotateConverges(h, [s], None, install, i, f, now);
    } else {
      var c := s.file.value;
      InspectFinds(h, s.rows, c, install, now);
      var found := Inspect(h, s.rows, c, install, now);
      if !found.kept {
        RotateConverges(h, [s] + [s.(rows := found.migrated)] + [s.(rows := found.bound)], found.stale, install, i, f, now);
      }
    }
  }

  // ------------------------------------------------------------- second ensure

  lemma SettledMigration(h: TokenHash, s: State, install: string, now: int)
    requires UniqueTokens(s.rows) && Converged(h, s, install, now) && Readable(s.file).Some?
    ensures var c := s.file.value;
            var found := Inspect(h, s.rows, c, install, now);
            && found.kept && found.stale == Some(c.device)
            && found.bound.Keys == s.rows.Keys
            && forall d | d in s.rows && d != c.device :: found.bound[d] == s.rows[d]
  {
    var c := s.file.value;
    assert c.device in ActiveBridges(s.rows);
    assert HasToken(s.rows, h(c.token), c.device);
    var migrated := Canonicalize(h, s.rows, c);
    CanonicalizeKeeps(h, s.rows, c);
    KeepsUnique(s.rows, migrated);
    forall d | d in s.rows && d != c.device ensures migrated[d] == s.rows[d] {
      assert d !in ActiveBridges(s.rows);
    }
    AuthenticateIs(h, s.rows, c.token, now, c.device);
    AuthenticateIs(h, migrated, c.token, now, c.device);
    var bound := BindPurpose(migrated, c.device);
    assert c.device in ActiveBridges(bound);
    forall d | d in ActiveBridges(bound) ensures d == c.device {
      assert d != c.device ==> d in ActiveBridges(s.rows);
    }
  }

  /** The row has no lease, or its lease ends after that time. */
  predicate LeaseLasts(rows: map<string, Row>, d: string, at: int) {
    d in rows && (rows[d].lease.None? || at < rows[d].lease.value)
  }

  /** Nothing but its lease ends a converged state by itself. */
  lemma StaysConverged(h: TokenHash, s: State, install: string, now: int, later: int)
    requires UniqueTokens(s.rows) && Converged(h, s, install, now)
    ensures Converged(h, s, install, later) <==> LeaseLasts(s.rows, s.file.value.device, later)
  {
    var c := s.file.value;
    assert c.device in ActiveBridges(s.rows) && HasToken(s.rows, h(c.token), c.device);
    AuthenticateIs(h, s.rows, c.token, now, c.device);
    AuthenticateIs(h, s.rows, c.token, later, c.device);
  }

  /**
   While the lease of the device lasts, ensuring again returns the same device and token and
   neither adds nor retires a row.
   */
  lemma EnsureTwice(h: TokenHash, s: State, install: string, i: Identity, now: int, f: Faults, j: Identity,
                    later: int)
    requires UniqueTokens(s.rows) && i.secret != "" && Ensure(h, s, install, i, now, f).outcome.Ok?
    requires var a := Ensure(h, s, install, i, now, f);
             a.trail != [] && LeaseLasts(a.trail[|a.trail| - 1].rows, a.outcome.value.device, later)
    ensures var a := Ensure(h, s, install, i, now, f);
            var t := a.trail[|a.trail| - 1];
            var b := Ensure(h, t, install, j, later, FAULT_FREE);
            && b.outcome.Ok? && b.outcome.value.device == a.outcome.value.device
            && b.outcome.value.token == a.outcome.value.token
            && b.trail != [] && b.trail[|b.trail| - 1].rows.Keys == t.rows.Keys
            && forall d | d in t.rows && d != a.outcome.value.device :: b.trail[|b.trail| - 1].rows[d] == t.rows[d]
  {
    var a := Ensure(h, s, install, i, now, f);
    EnsureConverges(h, s, install, i, now, f);
    EnsureReadable(h, s, install, i, now, f);
    EnsureUnique(h, s, install, i, now, f);
    StaysConverged(h, a.trail[|a.trail| - 1], install, now, later);
    SettledMigration(h, a.trail[|a.trail| - 1], install, later);
  }

  /** A successful ensure leaves a credential that can be read back. */
  lemma EnsureReadable(h: TokenHash, s: State, install: string, i: Identity, now: int, f: Faults)
    requires UniqueTokens(s.rows) && i.secret != "" && Ensure(h, s, install, i, now, f).outcome.Ok?
    ensures Readable(Some(Ensure(h, s, install, i, now, f).outcome.value)).Some?
  {
    if Readable(s.file).Some? {
      InspectFinds(h, s.rows, s.file.value, install, now);
    }
  }

  // -------------------------------------------------------------------- crashes

  ghost predicate AllUnique(trail: seq<State>) {
    trail != [] && forall k | 0 <= k < |trail| :: UniqueTokens(trail[k].rows)
  }

  lemma Grow(trail: seq<State>, s: State)
    ensures AllUnique(trail) && UniqueTokens(s.rows) ==> AllUnique(trail + [s])
  {
  }

  lemma RetireRowsUnique(h: TokenHash, rows: map<string, Row>, stale: Option<string>, c: Credential)
    requires UniqueTokens(rows)
    ensures var r1 := if stale.Some? then RevokeNamed(rows, stale.value) else rows;
            UniqueTokens(r1) && UniqueTokens(Canonicalize(h, r1, c)) && UniqueTokens(RetiredRows(h, rows, stale, c))
  {
    var r1 := if stale.Some? then RevokeNamed(rows, stale.value) else rows;
    CanonicalizeKeeps(h, r1, c);
    KeepsUnique(rows, r1);
    KeepsUnique(r1, Canonicalize(h, r1, c));
    KeepsUnique(Canonicalize(h, r1, c), RetiredRows(h, rows, stale, c));
  }

  lemma RetireUnique(h: TokenHash, trail: seq<State>, stale: Option<string>, c: Credential, steps: nat)
    requires AllUnique(trail)
    ensures AllUnique(Retire(h, trail, stale, c, steps))
  {
    var s0 := trail[|trail| - 1];
    var s1 := s0.(rows := if stale.Some? then RevokeNamed(s0.rows, stale.value) else s0.rows);
    var s2 := s1.(rows := Canonicalize(h, s1.rows, c));
    var s3 := s2.(rows := RevokeTaggedExcept(s2.rows, c.device));
    RetireRowsUnique(h, s0.rows, stale, c);
    Grow(trail, s1);
    Grow(trail + [s1], s2);
    Grow(trail + [s1] + [s2], s3);
  }

  lemma NewRowUnique(h: TokenHash, rows: map<string, Row>, i: Identity, install: string)
    requires UniqueTokens(rows) && Vacant(h, rows, i)
    ensures UniqueTokens(rows[i.device := NewRow(h, i, install)])
  {
    var after := rows[i.device := NewRow(h, i, install)];
    forall d, e | SameToken(after, d, e) ensures d == e {
      assert SameToken(rows, d, e) || HasToken(rows, h(i.token), d) || HasToken(rows, h(i.token), e) || d == e;
    }
  }

  lemma RotateUnique(h: TokenHash, trail: seq<State>, stale: Option<string>, install: string, i: Identity, f: Faults)
    requires AllUnique(trail)
    ensures AllUnique(Rotate(h, trail, stale, install, i, f).trail)
  {
    var s := trail[|trail| - 1];
    if Vacant(h, s.rows, i) {
      var c := CredentialOf(i, install);
      var created := s.(rows := s.rows[i.device := NewRow(h, i, install)]);
      RevokedUnique(h, s, install, i);
      Grow(trail, created);
      if f.write.Untouched? {
        Grow(trail + [created], created.(rows := created.rows[i.device := NewRow(h, i, install).(revoked := true)]));
        RetireUnique(h, trail + [created], stale, c, f.retired);
      } else {
        Grow(trail + [created], created.(file := Some(c)));
        RetireUnique(h, trail + [created] + [created.(file := Some(c))], stale, c, f.retired);
      }
    }
  }

  /** The new row, live or taken back, shares its token with no other. */
  lemma RevokedUnique(h: TokenHash, s: State, install: string, i: Identity)
    requires UniqueTokens(s.rows) && Vacant(h, s.rows, i)
    ensures var created := s.rows[i.device := NewRow(h, i, install)];
            UniqueTokens(created) && UniqueTokens(created[i.device := NewRow(h, i, install).(revoked := true)])
  {
    var created := s.rows[i.device := NewRow(h, i, install)];
    NewRowUnique(h, s.rows, i, install);
    KeepsUnique(created, created[i.device := NewRow(h, i, install).(revoked := true)]);
  }

  /** Wherever an ensure stops, the registry it leaves is one the next ensure can start from. */
  lemma EnsureUnique(h: TokenHash, s: State, install: string, i: Identity, now: int, f: Faults)
    requires UniqueTokens(s.rows)
    ensures AllUnique(Ensure(h, s, install, i, now, f).trail)
  {
    if Readable(s.file).None? {
      RotateUnique(h, [s], None, install, i, f);
    } else {
      var found := Inspect(h, s.rows, s.file.value, install, now);
      InspectFinds(h, s.rows, s.file.value, install, now);
      RotateUnique(h, [s] + [s.(rows := found.migrated)] + [s.(rows := found.bound)], found.stale, install, i, f);
    }
  }

  /** One attempt, killed after some of its effects. */
  datatype Try = Try(identity: Identity, now: int, faults: Faults, effects: nat)

  ghost function AfterTry(h: TokenHash, s: State, install: string, t: Try): State {
    var trail := Ensure(h, s, install, t.identity, t.now, t.faults).trail;
    if t.effects < |trail| then trail[t.effects] else if trail == [] then s else trail[|trail| - 1]
  }

  ghost function AfterTries(h: TokenHash, s: State, install: string, tries: seq<Try>): State
    decreases |tries|
  {
    if tries == [] then s else AfterTries(h, AfterTry(h, s, install, tries[0]), install, tries[1..])
  }

  lemma {:induction false} TriesUnique(h: TokenHash, s: State, install: string, tries: seq<Try>)
    requires UniqueTokens(s.rows)
    ensures UniqueTokens(AfterTries(h, s, install, tries).rows)
    decreases |tries|
  {
    if tries != [] {
      EnsureUnique(h, s, install, tries[0].identity, tries[0].now, tries[0].faults);
      TriesUnique(h, AfterTry(h, s, install, tries[0]), install, tries[1..]);
    }
  }

  lemma VacantStays(h: TokenHash, rows: map<string, Row>, after: map<string, Row>, i: Identity)
    requires Vacant(h, rows, i) && KeepsTokens(rows, after)
    ensures Vacant(h, after, i)
  {
    forall d | d in after ensures !HasToken(after, h(i.token), d) {
      assert !HasToken(rows, h(i.token), d);
    }
  }

  /**
   Bridge convergence: from any registry and file, after any number of failed and killed
   attempts, an ensure without faults succeeds and leaves exactly one usable bridge row, the
   one the credential in the file authenticates as.
   */
  lemma ConvergesAfterCrashes(h: TokenHash, s: State, install: string, tries: seq<Try>, i: Identity, now: int)
    requires UniqueTokens(s.rows) && install != "" && Vacant(h, AfterTries(h, s, install, tries).rows, i)
    ensures var w := AfterTries(h, s, install, tries);
            var a := Ensure(h, w, install, i, now, FAULT_FREE);
            && a.outcome.Ok? && a.trail != [] && Converged(h, a.trail[|a.trail| - 1], install, now)
            && a.trail[|a.trail| - 1].file == Some(a.outcome.value)
  {
    TriesUnique(h, s, install, tries);
    var w := AfterTries(h, s, install, tries);
    if Readable(w.file).Some? {
      InspectFinds(h, w.rows, w.file.value, install, now);
      VacantStays(h, w.rows, Inspect(h, w.rows, w.file.value, install, now).bound, i);
    }
    EnsureConverges(h, w, install, i, now, FAULT_FREE);
  }

  /** A credential that proves its row and still works is kept, whatever other bridge rows there are. */
  lemma WorkingCredentialIsKept(h: TokenHash, s: State, install: string, i: Identity, now: int)
    requires UniqueTokens(s.rows) && Readable(s.file).Some? && install != ""
    requires ProvenRow(h, s.rows, s.file.value) && s.file.value.install == install
    requires s.rows[s.file.value.device].scopes == BRIDGE_SCOPES
    requires s.rows[s.file.value.device].lease.None? || now < s.rows[s.file.value.device].lease.value
    ensures var a := Ensure(h, s, install, i, now, FAULT_FREE);
            && a.outcome.Ok? && a.outcome.value.device == s.file.value.device
            && a.outcome.value.token == s.file.value.token
  {
    var c := s.file.value;
    var migrated := Canonicalize(h, s.rows, c);
    CanonicalizeKeeps(h, s.rows, c);
    KeepsUnique(s.rows, migrated);
    AuthenticateIs(h, migrated, c.token, now, c.device);
    assert BindPurpose(migrated, c.device) == migrated;
  }

  /** If the file could not be replaced, the row made for it is revoked again and nothing else changed. */
  lemma FailedWriteIsUndone(h: TokenHash, trail: seq<State>, stale: Option<string>, install: string, i: Identity,
                            f: Faults)
    requires trail != [] && Vacant(h, trail[|trail| - 1].rows, i) && f.write.Untouched? && f.revoked
    requires !Matches(trail[|trail| - 1].file, CredentialOf(i, install))
    ensures var a := Rotate(h, trail, stale, install, i, f);
            var s, t := trail[|trail| - 1], a.trail[|a.trail| - 1];
            && a.outcome.Err? && t.file == s.file && ActiveBridges(t.rows) == ActiveBridges(s.rows)
            && forall d | d in s.rows :: d in t.rows && t.rows[d] == s.rows[d]
  {
  }
}
