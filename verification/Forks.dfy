/**
 Forking a managed session. A reservation is written before the provider is asked; it ends
 either registered, owning one child session, or sealed with an unknown outcome for good.
 */
module Forks {
  import opened Prelude

  datatype ForkState = Prepared | Registered | OutcomeUnknown

  /** A session instance: named by its launch, or after the fork it was made by. */
  datatype Instance = Unknown | Named(text: string) | OfFork(binding: string, generation: int, native: string)

  datatype Session = Session(
    provider: string, version: string, channel: string, profile: string,
    binding: string, generation: int, instance: Instance, controllable: bool,
    forkToken: Option<string>, forkParent: Option<string>, forkAction: Option<string>)

  datatype Fork = Fork(
    parent: string, action: string,
    provider: string, version: string, channel: string, profile: string,
    parentBinding: string, parentGeneration: int, parentInstance: Instance,
    operation: Option<string>, cursor: Option<string>,
    childBinding: string, childGeneration: int,
    state: ForkState, childNative: Option<string>, child: Option<string>)

  datatype Tables = Tables(sessions: map<string, Session>, forks: map<string, Fork>)

  /** Names the session of a native id at a provider; empty if the id is no good. */
  type Naming = (string, string) -> string

  datatype Done = Done(tables: Tables, value: string)

  type Outcome = Result<Done, string>

  // ------------------------------------------------------------- reservation

  predicate ForkOf(f: Fork, parent: string, action: string) {
    f.parent == parent && f.action == action
  }

  predicate Forkable(t: Tables, parent: string) {
    && parent in t.sessions
    && var p := t.sessions[parent];
       p.controllable && p.version != "" && p.channel != "" && p.profile != "" && !p.instance.Unknown?
  }

  predicate SameProof(f: Fork, p: Session, operation: Option<string>, cursor: Option<string>) {
    f.parentBinding == p.binding && f.parentGeneration == p.generation && f.parentInstance == p.instance
    && f.operation == operation && f.cursor == cursor
  }

  function NewFork(p: Session, parent: string, action: string, operation: Option<string>, cursor: Option<string>,
                   childBinding: string): Fork {
    Fork(parent, action, p.provider, p.version, p.channel, p.profile, p.binding, p.generation, p.instance,
         operation, cursor, childBinding, if p.generation + 1 > 1 then p.generation + 1 else 1,
         Prepared, None, None)
  }

  /** Answers the reservation's token; `token` and `childBinding` are the random names a new one takes. */
  ghost function Prepare(t: Tables, parent: string, action: string, operation: Option<string>,
                         cursor: Option<string>, token: string, childBinding: string): Outcome {
    if parent == "" || action == "" then Err("fork parent and client action id are required")
    else if !Forkable(t, parent) then Err("fork parent is not an exact live managed binding")
    else if exists k :: k in t.forks && ForkOf(t.forks[k], parent, action) then
      var k :| k in t.forks && ForkOf(t.forks[k], parent, action);
      if SameProof(t.forks[k], t.sessions[parent], operation, cursor) then Ok(Done(t, k))
      else Err("fork action is bound to different parent proof")
    else if token in t.forks || exists k :: k in t.forks && t.forks[k].childBinding == childBinding then Err("integrity")
    else
      Ok(Done(t.(forks := t.forks[token :=
                NewFork(t.sessions[parent], parent, action, operation, cursor, childBinding)]), token))
  }

  // ------------------------------------------------------------ registration

  /** What the caller proves about the child. */
  datatype Proof = Proof(parent: string, native: string, operation: string, cursor: Option<string>)

  function ChildOf(f: Fork, token: string, q: Proof): Session {
    Session(f.provider, f.version, f.channel, f.profile, f.childBinding, f.childGeneration,
            OfFork(f.childBinding, f.childGeneration, q.native), false, Some(token), Some(f.parent), Some(f.action))
  }

  function Settled(f: Fork, q: Proof, child: string): Fork {
    f.(state := Registered, childNative := Some(q.native), child := Some(child), cursor := q.cursor)
  }

  predicate SameParent(f: Fork, p: Session) {
    p.binding == f.parentBinding && p.generation == f.parentGeneration
    && p.instance == f.parentInstance && p.profile == f.profile
  }

  /** The exact child a registered reservation already has, if the proof names it. */
  function ReplayRegistration(t: Tables, f: Fork, q: Proof, child: string): Outcome {
    if f.childNative != Some(q.native) || f.child != Some(child) || f.operation != Some(q.operation)
    then Err("fork reservation was already registered differently")
    else if child !in t.sessions then Err("registered fork child ownership is missing")
    else Ok(Done(t, child))
  }

  function Register(naming: Naming, ambient: set<string>, t: Tables, token: string, q: Proof): Outcome {
    if token !in t.forks || token == "" || q.parent == "" || q.operation == ""
       || naming(t.forks[token].provider, q.native) == "" then Err("fork registration proof is incomplete")
    else
      var f := t.forks[token];
      var child := naming(f.provider, q.native);
      if f.parent != q.parent then Err("fork reservation does not match its parent")
      else if f.state == Registered then
        ReplayRegistration(t, f, q, child)
      else if f.state != Prepared then Err("fork reservation is sealed outcome_unknown")
      else if f.operation != Some(q.operation) then Err("fork provider correlation does not match reservation")
      else if q.parent !in t.sessions || !SameParent(f, t.sessions[q.parent]) then
        Err("fork parent binding changed before child registration")
      else if child in ambient then Err("already owned by an ambient session")
      else if child in t.sessions || exists s :: s in t.sessions && t.sessions[s].binding == f.childBinding then
        Err("fork child identity already exists")
      else
        Ok(Done(Tables(t.sessions[child := ChildOf(f, token, q)],
                       t.forks[token := Settled(f, q, child)]), child))
  }

  function Seal(t: Tables, token: string): Tables {
    if token in t.forks && t.forks[token].state == Prepared
    then t.(forks := t.forks[token := t.forks[token].(state := OutcomeUnknown)]) else t
  }

  /** What a provider reports about a fork. */
  datatype Report = Report(operationId: string, status: string, operation: string, native: string, cursor: Option<string>)

  datatype Managed = Managed(tables: Tables, outcome: Result<string, string>)

  /** The manager's registration: whatever fails after the reservation is found seals it. */
  function RegisterFork(naming: Naming, ambient: set<string>, t: Tables, parent: string, report: Report,
                        token: string)
      : Managed {
    if token !in t.forks || t.forks[token].parent != parent then
      Managed(t, Err("fork reservation does not match its parent"))
    else if report.operationId != "session.fork" || report.status != "applied" then
      Managed(Seal(t, token), Err("provider did not prove an applied fork"))
    else if report.operation == "" || t.forks[token].operation != Some(report.operation) then
      Managed(Seal(t, token), Err("provider fork correlation does not match reservation"))
    else
      match Register(naming, ambient, t, token, Proof(parent, report.native, report.operation, report.cursor))
      case Ok(done) => Managed(done.tables, Ok(done.value))
      case Err(e) => Managed(Seal(t, token), Err(e))
  }

  /** What restart recovery learns about a reservation: a provider report, or nothing. */
  type Recovery = string -> Option<Report>

  function ReconcileOne(naming: Naming, ambient: set<string>, recovery: Option<Recovery>, t: Tables,
                        token: string): Tables {
    if token !in t.forks then t
    else if t.forks[token].operation.None? || t.forks[token].operation == Some("") || recovery.None? then Seal(t, token)
    else
      match recovery.value(token)
      case None => Seal(t, token)
      case Some(report) =>
        var m := RegisterFork(naming, ambient, t, t.forks[token].parent, report, token);
        if m.outcome.Err? then Seal(m.tables, token) else m.tables
  }

  function ReconcileAll(naming: Naming, ambient: set<string>, recovery: Option<Recovery>, t: Tables,
                        tokens: seq<string>): Tables
    decreases |tokens|
  {
    if tokens == [] then t
    else ReconcileAll(naming, ambient, recovery, ReconcileOne(naming, ambient, recovery, t, tokens[0]), tokens[1..])
  }

  // ----------------------------------------------------------------- the store

  class Manager {
    var sessions: map<string, Session>
    var forks: map<string, Fork>
    const naming: Naming

    constructor (naming: Naming)
      ensures Contents() == Tables(map[], map[]) && this.naming == naming
    {
      sessions, forks := map[], map[];
      this.naming := naming;
    }

    ghost function Contents(): Tables
      reads this
    {
      Tables(sessions, forks)
    }

    method MarkOutcomeUnknown(token: string)
      modifies this`forks
      ensures Contents() == Seal(old(Contents()), token)
    {
      if token in forks && forks[token].state == Prepared {
        forks := forks[token := forks[token].(state := OutcomeUnknown)];
      }
    }

    method PrepareFork(parent: string, action: string, operation: Option<string>, cursor: Option<string>,
                       token: string, childBinding: string) returns (r: Result<string, string>)
      requires Unique(Contents())
      modifies this`forks
      ensures match Prepare(old(Contents()), parent, action, operation, cursor, token, childBinding)
              case Ok(done) => r == Ok(done.value) && Contents() == done.tables
              case Err(e) => r == Err(e) && Contents() == old(Contents())
    {
      if parent == "" || action == "" {
        return Err("fork parent and client action id are required");
      }
      if !Forkable(Tables(sessions, forks), parent) {
        return Err("fork parent is not an exact live managed binding");
      }
      var p := sessions[parent];
      if k :| k in forks && ForkOf(forks[k], parent, action) {
        OneFork(Contents(), parent, action, k);
        if !SameProof(forks[k], p, operation, cursor) {
          return Err("fork action is bound to different parent proof");
        }
        return Ok(k);
      }
      if token in forks || exists k :: k in forks && forks[k].childBinding == childBinding {
        return Err("integrity");
      }
      forks := forks[token := NewFork(p, parent, action, operation, cursor, childBinding)];
      return Ok(token);
    }

    method RegisterForkChild(ambient: set<string>, token: string, q: Proof) returns (r: Result<string, string>)
      modifies this`sessions, this`forks
      ensures match Register(naming, ambient, old(Contents()), token, q)
              case Ok(done) => r == Ok(done.value) && Contents() == done.tables
              case Err(e) => r == Err(e) && Contents() == old(Contents())
    {
      if token !in forks || token == "" || q.parent == "" || q.operation == "" {
        return Err("fork registration proof is incomplete");
      }
      var f := forks[token];
      var child := naming(f.provider, q.native);
      if child == "" {
        return Err("fork registration proof is incomplete");
      }
      if f.parent != q.parent {
        return Err("fork reservation does not match its parent");
      }
      if f.state == Registered {
        if f.childNative != Some(q.native) || f.child != Some(child) || f.operation != Some(q.operation) {
          return Err("fork reservation was already registered differently");
        }
        if child !in sessions {
          return Err("registered fork child ownership is missing");
        }
        return Ok(child);
      }
      if f.state != Prepared {
        return Err("fork reservation is sealed outcome_unknown");
      }
      r := AdoptChild(ambient, token, q, child);
    }

    /** Inserts the child session and settles the reservation, if nothing else owns either name. */
    method AdoptChild(ambient: set<string>, token: string, q: Proof, child: string) returns (r: Result<string,
                      string>)
      requires token in forks && token != "" && q.parent != "" && q.operation != "" && child != ""
      requires forks[token].parent == q.parent && forks[token].state == Prepared
      requires child == naming(forks[token].provider, q.native)
      modifies this`sessions, this`forks
      ensures match Register(naming, ambient, old(Contents()), token, q)
              case Ok(done) => r == Ok(done.value) && Contents() == done.tables
              case Err(e) => r == Err(e) && Contents() == old(Contents())
    {
      var f := forks[token];
      if f.operation != Some(q.operation) {
        return Err("fork provider correlation does not match reservation");
      }
      if q.parent !in sessions || !SameParent(f, sessions[q.parent]) {
        return Err("fork parent binding changed before child registration");
      }
      if child in ambient {
        return Err("already owned by an ambient session");
      }
      if child in sessions || exists s :: s in sessions && sessions[s].binding == f.childBinding {
        return Err("fork child identity already exists");
      }
      sessions := sessions[child := ChildOf(f, token, q)];
      forks := forks[token := Settled(f, q, child)];
      return Ok(child);
    }

    method RegisterForkResult(ambient: set<string>, parent: string, report: Report, token: string)
        returns (r: Result<string, string>)
      modifies this`sessions, this`forks
      ensures Managed(Contents(), r) == RegisterFork(naming, ambient, old(Contents()), parent, report, token)
    {
      if token !in forks || forks[token].parent != parent {
        return Err("fork reservation does not match its parent");
      }
      if report.operationId != "session.fork" || report.status != "applied" {
        MarkOutcomeUnknown(token);
        return Err("provider did not prove an applied fork");
      }
      if report.operation == "" || forks[token].operation != Some(report.operation) {
        MarkOutcomeUnknown(token);
        return Err("provider fork correlation does not match reservation");
      }
      r := RegisterForkChild(ambient, token, Proof(parent, report.native, report.operation, report.cursor));
      if r.Err? {
        MarkOutcomeUnknown(token);
      }
    }

    /** Restart: every reservation still prepared is registered or sealed. */
    method ReconcilePreparedForks(ambient: set<string>, recovery: Option<Recovery>, prepared: seq<string>)
      modifies this`sessions, this`forks
      ensures Contents() == ReconcileAll(naming, ambient, recovery, old(Contents()), prepared)
    {
      ghost var was := Contents();
      for i := 0 to |prepared|
        invariant ReconcileAll(naming, ambient, recovery, Contents(), prepared[i..])
               == ReconcileAll(naming, ambient, recovery, was, prepared)
      {
        var token := prepared[i];
        assert prepared[i..][1..] == prepared[i + 1..];
        if token in forks {
          if forks[token].operation.None? || forks[token].operation == Some("") || recovery.None? {
            MarkOutcomeUnknown(token);
          } else {
            var found := recovery.value(token);
            if found.None? {
              MarkOutcomeUnknown(token);
            } else {
              var r := RegisterForkResult(ambient, forks[token].parent, found.value, token);
              if r.Err? {
                MarkOutcomeUnknown(token);
              }
            }
          }
        }
      }
    }
  }

  // ---------------------------------------------------------------- invariants

  predicate SameFork(t: Tables, k: string, l: string) {
    k in t.forks && l in t.forks && ForkOf(t.forks[k], t.forks[l].parent, t.forks[l].action)
  }

  /** The unique index on parent and action. */
  ghost predicate Unique(t: Tables) {
    forall k, l {:trigger SameFork(t, k, l)} | SameFork(t, k, l) :: k == l
  }

  lemma OneFork(t: Tables, parent: string, action: string, k: string)
    requires Unique(t) && k in t.forks && ForkOf(t.forks[k], parent, action)
    ensures forall l | l in t.forks && ForkOf(t.forks[l], parent, action) :: l == k
  {
    forall l | l in t.forks && ForkOf(t.forks[l], parent, action) ensures l == k {
      assert SameFork(t, k, l);
    }
  }

  /** A registered fork and its child point at each other; no other fork has a child. */
  predicate ForkOk(t: Tables, k: string)
    requires k in t.forks
  {
    var f := t.forks[k];
    if f.state == Registered then
      && f.child.Some? && f.childNative.Some?
      && f.child.value in t.sessions
      && t.sessions[f.child.value].forkToken == Some(k)
      && t.sessions[f.child.value].forkParent == Some(f.parent)
      && t.sessions[f.child.value].forkAction == Some(f.action)
    else f.child.None? && f.childNative.None?
  }

  predicate ChildOk(t: Tables, s: string)
    requires s in t.sessions
  {
    t.sessions[s].forkToken.Some? ==>
      && t.sessions[s].forkToken.value in t.forks
      && t.forks[t.sessions[s].forkToken.value].state == Registered
      && t.forks[t.sessions[s].forkToken.value].child == Some(s)
  }

  ghost predicate Sound(t: Tables) {
    && Unique(t)
    && (forall k | k in t.forks :: ForkOk(t, k))
    && (forall s | s in t.sessions :: ChildOk(t, s))
  }

  lemma PrepareSound(t: Tables, parent: string, action: string, operation: Option<string>, cursor: Option<string>,
                     token: string, childBinding: string)
    requires Sound(t)
    ensures var r := Prepare(t, parent, action, operation, cursor, token, childBinding);
            r.Ok? ==> Sound(r.value.tables)
  {
    var r := Prepare(t, parent, action, operation, cursor, token, childBinding);
    if r.Ok? && r.value.tables != t {
      var u := r.value.tables;
      forall k, l | SameFork(u, k, l) ensures k == l {
        if k != token && l != token {
          assert SameFork(t, k, l);
        }
      }
      forall k | k in u.forks ensures ForkOk(u, k) {
        assert k != token ==> ForkOk(t, k);
      }
      forall s | s in u.sessions ensures ChildOk(u, s) {
        assert ChildOk(t, s);
      }
    }
  }

  lemma RegisterSound(naming: Naming, ambient: set<string>, t: Tables, token: string, q: Proof)
    requires Sound(t)
    ensures var r := Register(naming, ambient, t, token, q); r.Ok? ==> Sound(r.value.tables)
  {
    var r := Register(naming, ambient, t, token, q);
    if r.Ok? && r.value.tables != t {
      var u := r.value.tables;
      forall k, l | SameFork(u, k, l) ensures k == l {
        assert SameFork(t, k, l);
      }
      forall k | k in u.forks ensures ForkOk(u, k) {
        assert ForkOk(t, k);
      }
      forall s | s in u.sessions ensures ChildOk(u, s) {
        assert s in t.sessions ==> ChildOk(t, s);
      }
    }
  }

  lemma SealSound(t: Tables, token: string)
    requires Sound(t)
    ensures Sound(Seal(t, token))
  {
    var u := Seal(t, token);
    forall k, l | SameFork(u, k, l) ensures k == l {
      assert SameFork(t, k, l);
    }
    forall k | k in u.forks ensures ForkOk(u, k) {
      assert ForkOk(t, k);
    }
    forall s | s in u.sessions ensures ChildOk(u, s) {
      assert ChildOk(t, s);
    }
  }

  lemma RegisterForkSound(naming: Naming, ambient: set<string>, t: Tables, parent: string, report: Report,
                          token: string)
    requires Sound(t)
    ensures Sound(RegisterFork(naming, ambient, t, parent, report, token).tables)
  {
    SealSound(t, token);
    RegisterSound(naming, ambient, t, token, Proof(parent, report.native, report.operation, report.cursor));
  }

  lemma ReconcileOneSound(naming: Naming, ambient: set<string>, recovery: Option<Recovery>, t: Tables, token: string)
    requires Sound(t)
    ensures Sound(ReconcileOne(naming, ambient, recovery, t, token))
  {
    SealSound(t, token);
    if token in t.forks && recovery.Some? && recovery.value(token).Some? {
      var m := RegisterFork(naming, ambient, t, t.forks[token].parent, recovery.value(token).value, token);
      RegisterForkSound(naming, ambient, t, t.forks[token].parent, recovery.value(token).value, token);
      SealSound(m.tables, token);
    }
  }

  lemma {:induction false} ReconcileSound(naming: Naming, ambient: set<string>, recovery: Option<Recovery>, t: Tables,
                                          tokens: seq<string>)
    requires Sound(t)
    ensures Sound(ReconcileAll(naming, ambient, recovery, t, tokens))
    decreases |tokens|
  {
    if tokens != [] {
      ReconcileOneSound(naming, ambient, recovery, t, tokens[0]);
      ReconcileSound(naming, ambient, recovery, ReconcileOne(naming, ambient, recovery, t, tokens[0]), tokens[1..]);
    }
  }

  // --------------------------------------------------------------------- runs

  datatype Step =
    | DoPrepare(parent: string, action: string, operation: Option<string>, cursor: Option<string>,
                token: string, childBinding: string)
    | DoRegister(ambient: set<string>, parent: string, report: Report, token: string)
    | DoReconcile(ambient: set<string>, recovery: Option<Recovery>, tokens: seq<string>)
    | DoSession(id: string, session: Session)       // a session is launched, refreshed or closed

  /** Sessions change in many ways, but not in whose fork they are. */
  function PutSession(t: Tables, id: string, s: Session): Tables {
    if id in t.sessions then
      var x := t.sessions[id];
      t.(sessions := t.sessions[id := s.(forkToken := x.forkToken, forkParent := x.forkParent, forkAction := x.forkAction)])
    else t.(sessions := t.sessions[id := s.(forkToken := None, forkParent := None, forkAction := None)])
  }

  ghost function Do(naming: Naming, t: Tables, step: Step): Tables {
    match step
    case DoPrepare(parent, action, operation, cursor, token, childBinding) =>
      var r := Prepare(t, parent, action, operation, cursor, token, childBinding);
      if r.Ok? then r.value.tables else t
    case DoRegister(ambient, parent, report, token) => RegisterFork(naming, ambient, t, parent, report, token).tables
    case DoReconcile(ambient, recovery, tokens) => ReconcileAll(naming, ambient, recovery, t, tokens)
    case DoSession(id, s) => PutSession(t, id, s)
  }

  lemma PutSessionSound(t: Tables, id: string, s: Session)
    requires Sound(t)
    ensures Sound(PutSession(t, id, s))
  {
    var u := PutSession(t, id, s);
    forall k, l | SameFork(u, k, l) ensures k == l {
      assert SameFork(t, k, l);
    }
    forall k | k in u.forks ensures ForkOk(u, k) {
      assert ForkOk(t, k);
    }
    forall c | c in u.sessions ensures ChildOk(u, c) {
      assert c in t.sessions ==> ChildOk(t, c);
    }
  }

  lemma StepSound(naming: Naming, t: Tables, step: Step)
    requires Sound(t)
    ensures Sound(Do(naming, t, step))
  {
    match step
    case DoPrepare(parent, action, operation, cursor, token, childBinding) =>
      PrepareSound(t, parent, action, operation, cursor, token, childBinding);
    case DoRegister(ambient, parent, report, token) => RegisterForkSound(naming, ambient, t, parent, report, token);
    case DoReconcile(ambient, recovery, tokens) => ReconcileSound(naming, ambient, recovery, t, tokens);
    case DoSession(id, s) => PutSessionSound(t, id, s);
  }

  ghost function Run(naming: Naming, t: Tables, steps: seq<Step>): Tables
    decreases |steps|
  {
    if steps == [] then t else Run(naming, Do(naming, t, steps[0]), steps[1..])
  }

  lemma {:induction false} RunSound(naming: Naming, t: Tables, steps: seq<Step>)
    requires Sound(t)
    ensures Sound(Run(naming, t, steps))
    decreases |steps|
  {
    if steps != [] {
      StepSound(naming, t, steps[0]);
      RunSound(naming, Do(naming, t, steps[0]), steps[1..]);
    }
  }

  /** A reservation keeps what it reserves, settles at most once, and stays settled. */
  predicate ForkMoves(f: Fork, g: Fork) {
    && g.parent == f.parent && g.action == f.action && g.operation == f.operation
    && g.childBinding == f.childBinding && g.provider == f.provider
    && (f.state != Prepared ==> g == f)
  }

  ghost predicate ForksMove(t: Tables, u: Tables) {
    forall k | k in t.forks :: k in u.forks && ForkMoves(t.forks[k], u.forks[k])
  }

  lemma SealMoves(t: Tables, token: string)
    ensures ForksMove(t, Seal(t, token))
  {
  }

  lemma RegisterMoves(naming: Naming, ambient: set<string>, t: Tables, token: string, q: Proof)
    ensures Register(naming, ambient, t, token, q).Ok? ==>
              ForksMove(t, Register(naming, ambient, t, token, q).value.tables)
  {
  }

  lemma RegisterForkMoves(naming: Naming, ambient: set<string>, t: Tables, parent: string, report: Report,
                          token: string)
    ensures ForksMove(t, RegisterFork(naming, ambient, t, parent, report, token).tables)
  {
    SealMoves(t, token);
    RegisterMoves(naming, ambient, t, token, Proof(parent, report.native, report.operation, report.cursor));
  }

  lemma ReconcileOneMoves(naming: Naming, ambient: set<string>, recovery: Option<Recovery>, t: Tables, token: string)
    ensures ForksMove(t, ReconcileOne(naming, ambient, recovery, t, token))
  {
    SealMoves(t, token);
    if token in t.forks && recovery.Some? && recovery.value(token).Some? {
      var m := RegisterFork(naming, ambient, t, t.forks[token].parent, recovery.value(token).value, token);
      RegisterForkMoves(naming, ambient, t, t.forks[token].parent, recovery.value(token).value, token);
      SealMoves(m.tables, token);
      if m.outcome.Err? {
        ForksMoveOn(t, m.tables, Seal(m.tables, token));
      }
    }
  }

  lemma {:induction false} ReconcileMoves(naming: Naming, ambient: set<string>, recovery: Option<Recovery>, t: Tables,
                                          tokens: seq<string>)
    ensures ForksMove(t, ReconcileAll(naming, ambient, recovery, t, tokens))
    decreases |tokens|
  {
    if tokens != [] {
      var u := ReconcileOne(naming, ambient, recovery, t, tokens[0]);
      ReconcileOneMoves(naming, ambient, recovery, t, tokens[0]);
      ReconcileMoves(naming, ambient, recovery, u, tokens[1..]);
      ForksMoveOn(t, u, ReconcileAll(naming, ambient, recovery, t, tokens));
    }
  }

  lemma ForksMoveOn(t: Tables, u: Tables, v: Tables)
    requires ForksMove(t, u) && ForksMove(u, v)
    ensures ForksMove(t, v)
  {
  }

  lemma StepMoves(naming: Naming, t: Tables, step: Step)
    ensures ForksMove(t, Do(naming, t, step))
  {
    match step
    case DoPrepare(_, _, _, _, _, _) =>
    case DoRegister(ambient, parent, report, token) => RegisterForkMoves(naming, ambient, t, parent, report, token);
    case DoReconcile(ambient, recovery, tokens) => ReconcileMoves(naming, ambient, recovery, t, tokens);
    case DoSession(_, _) =>
  }

  /** Prepared forks settle once; a registered one keeps its child, a sealed one never gets one. */
  lemma {:induction false} SettledForksStay(naming: Naming, t: Tables, steps: seq<Step>, k: string)
    requires k in t.forks
    ensures k in Run(naming, t, steps).forks && ForkMoves(t.forks[k], Run(naming, t, steps).forks[k])
    decreases |steps|
  {
    if steps != [] {
      StepMoves(naming, t, steps[0]);
      SettledForksStay(naming, Do(naming, t, steps[0]), steps[1..], k);
    }
  }

  ghost function Reached(naming: Naming, steps: seq<Step>): Tables {
    Run(naming, Tables(map[], map[]), steps)
  }

  /** One reservation per parent and action, over every run. */
  lemma OneReservationPerAction(naming: Naming, steps: seq<Step>, k: string, l: string)
    requires var t := Reached(naming, steps);
             k in t.forks && l in t.forks && ForkOf(t.forks[k], t.forks[l].parent, t.forks[l].action)
    ensures k == l
  {
    RunSound(naming, Tables(map[], map[]), steps);
    assert SameFork(Reached(naming, steps), k, l);
  }

  /** A registered fork owns exactly the one session that names it; other forks own none. */
  lemma ExactlyOneChild(naming: Naming, steps: seq<Step>, k: string, s: string)
    requires k in Reached(naming, steps).forks && s in Reached(naming, steps).sessions
    ensures var t := Reached(naming, steps);
            && (t.sessions[s].forkToken == Some(k) <==> t.forks[k].state == Registered && t.forks[k].child == Some(s))
            && (t.forks[k].state == Registered ==> t.forks[k].child.Some? && t.forks[k].child.value in t.sessions)
  {
    RunSound(naming, Tables(map[], map[]), steps);
    var t := Reached(naming, steps);
    assert ForkOk(t, k) && ChildOk(t, s);
  }

  /** Registering again with the same proof, at any later time, answers the same child. */
  lemma RegisteringReplays(naming: Naming, ambient: set<string>, steps: seq<Step>, token: string, q: Proof,
                           later: seq<Step>, ambientLater: set<string>)
    requires Register(naming, ambient, Reached(naming, steps), token, q).Ok?
    ensures var done := Register(naming, ambient, Reached(naming, steps), token, q).value;
            var t := Run(naming, done.tables, later);
            Register(naming, ambientLater, t, token, q) == Ok(Done(t, done.value))
  {
    RunSound(naming, Tables(map[], map[]), steps);
    RegisterSound(naming, ambient, Reached(naming, steps), token, q);
    var done := Register(naming, ambient, Reached(naming, steps), token, q).value;
    RunSound(naming, done.tables, later);
    SettledForksStay(naming, done.tables, later, token);
    var t := Run(naming, done.tables, later);
    assert ForkOk(t, token);
  }

  /**
   Preparing again answers the same reservation exactly while the parent's proof is unchanged.
   Registration overwrites the reservation's cursor with the child's, so after it a repeated
   prepare is refused unless both cursors happen to agree.
   */
  lemma PreparingReplays(naming: Naming, steps: seq<Step>, k: string, operation: Option<string>,
                         cursor: Option<string>,
                         token: string, childBinding: string)
    requires var t := Reached(naming, steps);
             k in t.forks && t.forks[k].parent != "" && t.forks[k].action != "" && Forkable(t, t.forks[k].parent)
    ensures var t := Reached(naming, steps);
            var f := t.forks[k];
            var r := Prepare(t, f.parent, f.action, operation, cursor, token, childBinding);
            if SameProof(f, t.sessions[f.parent], operation, cursor) then r == Ok(Done(t, k)) else r.Err?
  {
    RunSound(naming, Tables(map[], map[]), steps);
    OneFork(Reached(naming, steps), Reached(naming, steps).forks[k].parent, Reached(naming, steps).forks[k].action, k);
  }

  lemma RegisteredMatches(naming: Naming, ambient: set<string>, t: Tables, report: Report, k: string)
    requires k in t.forks && t.forks[k].state == Prepared
    requires RegisterFork(naming, ambient, t, t.forks[k].parent, report, k).outcome.Ok?
    ensures var f := t.forks[k];
            var u := RegisterFork(naming, ambient, t, f.parent, report, k).tables;
            && f.parent in t.sessions && f.parent in u.sessions && u.sessions[f.parent] == t.sessions[f.parent]
            && k in u.forks && ForkOf(u.forks[k], f.parent, f.action)
            && (SameProof(u.forks[k], u.sessions[f.parent], f.operation, f.cursor) <==> report.cursor == f.cursor)
  {
  }

  /**
   After a registration the original prepare is answered as before exactly if the provider
   reported the cursor that the reservation was made with.
   */
  lemma RegistrationReplacesTheCursor(naming: Naming, ambient: set<string>, steps: seq<Step>, report: Report,
                                      k: string, token: string, childBinding: string)
    requires var t := Reached(naming, steps);
             && k in t.forks && t.forks[k].state == Prepared && t.forks[k].parent != "" && t.forks[k].action != ""
             && Forkable(t, t.forks[k].parent)
             && RegisterFork(naming, ambient, t, t.forks[k].parent, report, k).outcome.Ok?
    ensures var f := Reached(naming, steps).forks[k];
            var u := RegisterFork(naming, ambient, Reached(naming, steps), f.parent, report, k).tables;
            var r := Prepare(u, f.parent, f.action, f.operation, f.cursor, token, childBinding);
            if report.cursor == f.cursor then r == Ok(Done(u, k)) else r.Err?
  {
    var t := Reached(naming, steps);
    var f := t.forks[k];
    RunSound(naming, Tables(map[], map[]), steps);
    RegisterForkSound(naming, ambient, t, f.parent, report, k);
    RegisteredMatches(naming, ambient, t, report, k);
    OneFork(RegisterFork(naming, ambient, t, f.parent, report, k).tables, f.parent, f.action, k);
  }

  const PARENT := Session("acp", "1", "stable", "profile", "b", 1, Named("launch"), true, None, None, None)
  const REPORT := Report("session.fork", "applied", "operation", "native", Some("after"))
  const LAUNCH := DoSession("parent", PARENT)
  const PREPARE := DoPrepare("parent", "action", Some("operation"), Some("before"), "token", "child-binding")
  const REGISTER := DoRegister({}, "parent", REPORT, "token")
  const RESERVED := NewFork(PARENT, "parent", "action", Some("operation"), Some("before"), "child-binding")

  lemma LaunchedAndPrepared(naming: Naming)
    ensures Do(naming, Tables(map[], map[]), LAUNCH) == Tables(map["parent" := PARENT], map[])
    ensures Do(naming, Tables(map["parent" := PARENT], map[]), PREPARE)
              == Tables(map["parent" := PARENT], map["token" := RESERVED])
  {
  }

  lemma RegisteredAndRefused(naming: Naming)
    requires naming("acp", "native") == "native"
    ensures var t := Do(naming, Tables(map["parent" := PARENT], map["token" := RESERVED]), REGISTER);
            && "token" in t.forks && t.forks["token"].state == Registered
            && Prepare(t, "parent", "action", Some("operation"), Some("before"), "other", "other-binding").Err?
  {
    var t := Do(naming, Tables(map["parent" := PARENT], map["token" := RESERVED]), REGISTER);
    assert "before"[0] != "after"[0];
    assert ForkOf(t.forks["token"], "parent", "action");
  }

  lemma FirstStep(naming: Naming, t: Tables, step: Step, rest: seq<Step>)
    ensures Run(naming, t, [step] + rest) == Run(naming, Do(naming, t, step), rest)
  {
    assert ([step] + rest)[1..] == rest;
  }

  lemma ThreeSteps(naming: Naming, t: Tables, a: Step, b: Step, c: Step)
    ensures Run(naming, t, [a, b, c]) == Do(naming, Do(naming, Do(naming, t, a), b), c)
  {
    FirstStep(naming, t, a, [b, c]);
    FirstStep(naming, Do(naming, t, a), b, [c]);
    FirstStep(naming, Do(naming, Do(naming, t, a), b), c, []);
    assert [a] + [b, c] == [a, b, c] && [b] + [c] == [b, c] && [c] + [] == [c];
  }

  /** A parent is launched and forked; the same prepare is refused once the child is there. */
  lemma PrepareIsRefusedAfterwards(naming: Naming)
    requires naming("acp", "native") == "native"
    ensures var t := Reached(naming, [LAUNCH, PREPARE, REGISTER]);
            && "token" in t.forks && t.forks["token"].state == Registered
            && Prepare(t, "parent", "action", Some("operation"), Some("before"), "other", "other-binding").Err?
  {
    LaunchedAndPrepared(naming);
    RegisteredAndRefused(naming);
    ThreeSteps(naming, Tables(map[], map[]), LAUNCH, PREPARE, REGISTER);
  }

  lemma SealSettles(t: Tables, token: string)
    requires token in t.forks
    ensures token in Seal(t, token).forks && Seal(t, token).forks[token].state != Prepared
  {
  }

  lemma RegisterForkSettles(naming: Naming, ambient: set<string>, t: Tables, report: Report, token: string)
    requires token in t.forks
    ensures var m := RegisterFork(naming, ambient, t, t.forks[token].parent, report, token);
            token in m.tables.forks && (m.outcome.Ok? ==> m.tables.forks[token].state != Prepared)
  {
  }

  lemma ReconcileOneSettles(naming: Naming, ambient: set<string>, recovery: Option<Recovery>, t: Tables,
                            token: string)
    requires token in t.forks
    ensures token in ReconcileOne(naming, ambient, recovery, t, token).forks
    ensures ReconcileOne(naming, ambient, recovery, t, token).forks[token].state != Prepared
  {
    SealSettles(t, token);
    if recovery.Some? && recovery.value(token).Some? {
      var report := recovery.value(token).value;
      RegisterForkSettles(naming, ambient, t, report, token);
      SealSettles(RegisterFork(naming, ambient, t, t.forks[token].parent, report, token).tables, token);
    }
  }

  /** Restart reconciliation leaves none of its reservations open and disturbs no settled one. */
  lemma {:induction false} ReconcileSettles(naming: Naming, ambient: set<string>, recovery: Option<Recovery>,
                                            t: Tables,
                                            tokens: seq<string>, k: string)
    requires k in t.forks
    ensures var u := ReconcileAll(naming, ambient, recovery, t, tokens);
            && k in u.forks
            && (k in tokens ==> u.forks[k].state != Prepared)
            && (t.forks[k].state != Prepared ==> u.forks[k] == t.forks[k])
    decreases |tokens|
  {
    if tokens != [] {
      var u := ReconcileOne(naming, ambient, recovery, t, tokens[0]);
      ReconcileOneMoves(naming, ambient, recovery, t, tokens[0]);
      if tokens[0] == k {
        ReconcileOneSettles(naming, ambient, recovery, t, k);
      }
      ReconcileSettles(naming, ambient, recovery, u, tokens[1..], k);
    }
  }
}
