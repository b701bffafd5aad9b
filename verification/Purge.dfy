/**
 Physically purging a deleted file. The object is first renamed into a quarantine directory,
 then one transaction drops the file row and everything that hangs off it, then the
 quarantine entry is unlinked. The delete before it marks the row and then unlinks the object,
 so a purge usually finds the slot empty. Any effect may fail, a failed commit may still have committed,
 and the process may die between any two effects.
 */
module Purge {
  import opened Prelude

  datatype Row = Row(name: string, deleted: bool)

  /** What is durable about one file id. Quarantine entries are named by a tag of the display name. */
  datatype Durable = Durable(
    row: Option<Row>,
    dependents: set<nat>,
    slot: Option<seq<byte>>,
    quarantine: map<string, seq<byte>>,
    records: set<string>)

  datatype MoveFault = MoveFine | MoveRefused | MovedButFailed
  datatype CommitFault = CommitFine | RolledBack | CommittedButFailed
  datatype RestoreFault = RestoreFine | RestoreRefused | RestoredButFailed

  /** What goes wrong during one attempt. */
  datatype Faults = Faults(
    move: MoveFault,
    commit: CommitFault,
    observable: bool,         // whether the row can be looked up after a failure
    restore: RestoreFault,
    recordWritten: bool,
    quarantineUnlinked: bool,
    recordUnlinked: bool,
    synced: bool)             // whether the last directory sync succeeds

  const FAULT_FREE := Faults(MoveFine, CommitFine, true, RestoreFine, true, true, true, true)

  /** Every durable state an attempt passes through, first to last, and how it ends. */
  datatype Attempt = Attempt(trail: seq<Durable>, outcome: Result<bool, string>)

  // ---------------------------------------------------------------- effects

  function MoveOut(v: Durable, tag: string): Durable
    requires v.slot.Some?
  {
    v.(slot := None, quarantine := v.quarantine[tag := v.slot.value])
  }

  function MoveBack(v: Durable, tag: string): Durable
    requires tag in v.quarantine
  {
    v.(slot := Some(v.quarantine[tag]), quarantine := v.quarantine - {tag})
  }

  function DropRow(v: Durable): Durable {
    v.(row := None, dependents := {})
  }

  function DropQuarantine(v: Durable, tag: string): Durable {
    v.(quarantine := v.quarantine - {tag})
  }

  function DropRecord(v: Durable, tag: string): Durable {
    v.(records := v.records - {tag})
  }

  function PutRecord(v: Durable, tag: string): Durable {
    v.(records := v.records + {tag})
  }

  // ------------------------------------------------------------ one attempt

  /** Unlinks quarantine entry and recovery record, in that order. */
  function Cleanup(trail: seq<Durable>, tag: string, f: Faults, success: bool, failure: string): Attempt
    requires trail != []
  {
    var v := trail[|trail| - 1];
    if !f.quarantineUnlinked then Attempt(trail, Err(failure))
    else
      var v1 := DropQuarantine(v, tag);
      if !f.recordUnlinked then Attempt(trail + [v1], Err(failure))
      else
        var v2 := DropRecord(v1, tag);
        Attempt(trail + [v1, v2], if f.synced then Ok(success) else Err(failure))
  }

  function WriteRecord(trail: seq<Durable>, tag: string, f: Faults): Attempt
    requires trail != []
  {
    if f.recordWritten
    then Attempt(trail + [PutRecord(trail[|trail| - 1], tag)], Err("purge_recovery_required"))
    else Attempt(trail, Err("recovery_record_failed"))
  }

  /** The row turned out to be durable: put the object back and report the failure. */
  function RollBack(trail: seq<Durable>, tag: string, f: Faults, moved: bool): Attempt
    requires trail != []
  {
    var v := trail[|trail| - 1];
    if !moved then DropRecordAndFail(trail, tag, f)
    else if v.slot.Some? || tag !in v.quarantine || f.restore.RestoreRefused? then WriteRecord(trail, tag, f)
    else
      var restored := trail + [MoveBack(v, tag)];
      if f.restore.RestoredButFailed? then WriteRecord(restored, tag, f)
      else DropRecordAndFail(restored, tag, f)
  }

  function DropRecordAndFail(trail: seq<Durable>, tag: string, f: Faults): Attempt
    requires trail != []
  {
    Attempt(if f.recordUnlinked then trail + [DropRecord(trail[|trail| - 1], tag)] else trail, Err("failed"))
  }

  function TransactPurge(v: Durable, tag: string, f: Faults): Attempt {
    var moved := v.slot.Some? && !f.move.MoveRefused?;
    var v1 := if moved then MoveOut(v, tag) else v;
    var trail := if moved then [v, v1] else [v];
    var reachedCommit := v.slot.None? || f.move.MoveFine?;
    if reachedCommit && f.commit.CommitFine? then
      Cleanup(trail + [DropRow(v1)], tag, f, false, "purge_cleanup_pending")
    else
      var committed := reachedCommit && f.commit.CommittedButFailed?;
      var after := if committed then trail + [DropRow(v1)] else trail;
      if !f.observable then WriteRecord(after, tag, f)
      else if committed then Cleanup(after, tag, f, false, "purge_cleanup_pending")
      else RollBack(after, tag, f, moved)
  }

  /** One call of the purge. `Ok(true)` means it only finished an earlier one. */
  function PurgeOnce(tagOf: string -> string, v: Durable, name: string, f: Faults): Attempt {
    var tag := tagOf(name);
    match v.row
    case None =>
      if tag !in v.quarantine && tag !in v.records then Attempt([v], Err("not_found"))
      else Cleanup([v], tag, f, true, "failed")
    case Some(row) =>
      if !row.deleted then Attempt([v], Err("not_deleted"))
      else if row.name != name then Attempt([v], Err("display_name_mismatch"))
      else if v.slot.Some? && tag in v.quarantine then Attempt([v], Err("ambiguous_purge_recovery_state"))
      else TransactPurge(v, tag, f)
  }

  // --------------------------------------------------------------- the method

  class PurgeStore {
    var row: Option<Row>
    var dependents: set<nat>
    var slot: Option<seq<byte>>
    var quarantine: map<string, seq<byte>>
    var records: set<string>
    ghost var trail: seq<Durable>

    ghost function Contents(): Durable
      reads this
    {
      Durable(row, dependents, slot, quarantine, records)
    }

    constructor (row: Option<Row>, slot: Option<seq<byte>>)
      ensures Contents() == Durable(row, {}, slot, map[], {})
    {
      this.row, this.slot := row, slot;
      dependents, quarantine, records, trail := {}, map[], {}, [];
    }

    /** Unlinks a quarantine entry and its record; false if an effect failed. */
    method Clean(tag: string, f: Faults) returns (done: bool)
      requires trail != [] && trail[|trail| - 1] == Contents()
      modifies this
      ensures Attempt(trail, if done then Ok(true) else Err("failed")) == Cleanup(old(trail), tag, f, true, "failed")
      ensures trail != [] && trail[|trail| - 1] == Contents()
    {
      if !f.quarantineUnlinked {
        return false;
      }
      quarantine := quarantine - {tag};
      trail := trail + [Contents()];
      if !f.recordUnlinked {
        return false;
      }
      records := records - {tag};
      trail := trail + [Contents()];
      return f.synced;
    }

    /** Marks the row and then unlinks the object; `dies` in between. True if it was marked already. */
    method DeleteFile(tagOf: string -> string, dies: bool) returns (r: Result<bool, string>)
      modifies this`row, this`slot
      ensures var marked := AfterTry(tagOf, old(Contents()), Marking);
              if old(row).None? then r == Err("not_found") && Contents() == old(Contents())
              else
                && r == Ok(old(row).value.deleted)
                && Contents() == if dies then marked else AfterTry(tagOf, marked, Unlinking)
    {
      if row.None? {
        return Err("not_found");
      }
      var again := row.value.deleted;
      if !again {
        row := Some(row.value.(deleted := true));
      }
      if !dies {
        slot := None;
      }
      return Ok(again);
    }

    method PurgeDeletedFile(tagOf: string -> string, name: string, f: Faults) returns (r: Result<bool, string>)
      modifies this
      ensures Attempt(trail, r) == PurgeOnce(tagOf, old(Contents()), name, f)
      ensures trail != [] && trail[|trail| - 1] == Contents()
    {
      trail := [Contents()];
      var tag := tagOf(name);
      if row.None? {
        if tag !in quarantine && tag !in records {
          return Err("not_found");
        }
        var done := Clean(tag, f);
        return if done then Ok(true) else Err("failed");
      }
      if !row.value.deleted {
        return Err("not_deleted");
      }
      if row.value.name != name {
        return Err("display_name_mismatch");
      }
      if slot.Some? && tag in quarantine {
        return Err("ambiguous_purge_recovery_state");
      }
      r := Transact(tag, f);
    }

    /** Renames the object into quarantine unless an earlier attempt did; false if that failed. */
    method MoveAway(tag: string, f: Faults) returns (ok: bool, moved: bool)
      requires trail == [Contents()]
      modifies this`slot, this`quarantine, this`trail
      ensures moved == (old(slot).Some? && !f.move.MoveRefused?)
      ensures Contents() == if moved then MoveOut(old(Contents()), tag) else old(Contents())
      ensures trail == if moved then [old(Contents()), Contents()] else [Contents()]
      ensures ok == (old(slot).None? || f.move.MoveFine?)
    {
      ok, moved := true, false;
      if slot.Some? {
        if f.move.MoveRefused? {
          return false, false;
        }
        quarantine := quarantine[tag := slot.value];
        slot := None;
        trail := trail + [Contents()];
        ok, moved := f.move.MoveFine?, true;
      }
    }

    method Commit()
      modifies this`row, this`dependents, this`trail
      ensures Contents() == DropRow(old(Contents()))
      ensures trail == old(trail) + [Contents()]
    {
      row, dependents := None, {};
      trail := trail + [Contents()];
    }

    method Transact(tag: string, f: Faults) returns (r: Result<bool, string>)
      requires trail == [Contents()]
      modifies this
      ensures Attempt(trail, r) == TransactPurge(old(Contents()), tag, f)
      ensures trail != [] && trail[|trail| - 1] == Contents()
    {
      var ok, moved := MoveAway(tag, f);
      var committed := ok && !f.commit.RolledBack?;
      if committed {
        Commit();
      }
      if !(ok && f.commit.CommitFine?) && !f.observable {
        r := Recover(tag, f);
      } else if !committed {
        r := Undo(tag, f, moved);
      } else {
        var done := Clean(tag, f);
        r := if done then Ok(false) else Err("purge_cleanup_pending");
      }
    }

    method Recover(tag: string, f: Faults) returns (r: Result<bool, string>)
      requires trail != [] && trail[|trail| - 1] == Contents()
      modifies this
      ensures Attempt(trail, r) == WriteRecord(old(trail), tag, f)
      ensures trail != [] && trail[|trail| - 1] == Contents()
    {
      if !f.recordWritten {
        return Err("recovery_record_failed");
      }
      records := records + {tag};
      trail := trail + [Contents()];
      return Err("purge_recovery_required");
    }

    method Undo(tag: string, f: Faults, moved: bool) returns (r: Result<bool, string>)
      requires trail != [] && trail[|trail| - 1] == Contents()
      modifies this
      ensures Attempt(trail, r) == RollBack(old(trail), tag, f, moved)
      ensures trail != [] && trail[|trail| - 1] == Contents()
    {
      if moved {
        if slot.Some? || tag !in quarantine || f.restore.RestoreRefused? {
          r := Recover(tag, f);
          return;
        }
        slot := Some(quarantine[tag]);
        quarantine := quarantine - {tag};
        trail := trail + [Contents()];
        if f.restore.RestoredButFailed? {
          r := Recover(tag, f);
          return;
        }
      }
      if f.recordUnlinked {
        records := records - {tag};
        trail := trail + [Contents()];
      }
      return Err("failed");
    }
  }

  // --------------------------------------------------------------- the claims

  /** The bytes of the file, wherever they are: in its slot or in its quarantine entry. */
  function Held(v: Durable, tag: string): Option<seq<byte>> {
    if v.slot.Some? then v.slot else if tag in v.quarantine then Some(v.quarantine[tag]) else None
  }

  /**
   The bytes are in at most one place. A live row still has them; a deleted one may have lost
   them to the unlinking that follows a delete; without a row the slot is empty.
   */
  ghost predicate Home(tagOf: string -> string, v: Durable, name: string) {
    match v.row
    case None => v.slot.None? && v.dependents == {}
    case Some(r) =>
      && r.name == name
      && !(v.slot.Some? && tagOf(name) in v.quarantine)
      && (!r.deleted ==> Held(v, tagOf(name)).Some?)
  }

  /** While the row stays so do the bytes; once it is gone they may be gone too. */
  predicate Keeps(v: Durable, w: Durable, tag: string) {
    if w.row.Some? then w.row == v.row && Held(w, tag) == Held(v, tag)
    else Held(w, tag).Some? ==> Held(w, tag) == Held(v, tag)
  }

  /** Nothing but the named entry changes. */
  predicate Contained(v: Durable, w: Durable, tag: string) {
    w.quarantine - {tag} == v.quarantine - {tag} && w.records - {tag} == v.records - {tag}
  }

  /** Every state on the trail has the file at home, with the bytes it held at the start. */
  ghost predicate TrailIs(tagOf: string -> string, trail: seq<Durable>, v: Durable, name: string, tag: string) {
    && trail != []
    && forall i | 0 <= i < |trail| ::
         Home(tagOf, trail[i], name) && Keeps(v, trail[i], tagOf(name)) && Contained(v, trail[i], tag)
  }

  lemma CleanupSafe(tagOf: string -> string, trail: seq<Durable>, v: Durable, name: string, tag: string, f: Faults,
                    success: bool, failure: string)
    requires TrailIs(tagOf, trail, v, name, tag) && trail[|trail| - 1].row.None?
    ensures TrailIs(tagOf, Cleanup(trail, tag, f, success, failure).trail, v, name, tag)
  {
  }

  lemma RecordSafe(tagOf: string -> string, trail: seq<Durable>, v: Durable, name: string, tag: string, f: Faults)
    requires TrailIs(tagOf, trail, v, name, tag)
    ensures TrailIs(tagOf, WriteRecord(trail, tag, f).trail, v, name, tag)
    ensures TrailIs(tagOf, DropRecordAndFail(trail, tag, f).trail, v, name, tag)
  {
  }

  lemma RollBackSafe(tagOf: string -> string, trail: seq<Durable>, v: Durable, name: string, f: Faults, moved: bool)
    requires TrailIs(tagOf, trail, v, name, tagOf(name)) && trail[|trail| - 1].row.Some?
    ensures TrailIs(tagOf, RollBack(trail, tagOf(name), f, moved).trail, v, name, tagOf(name))
  {
    var tag := tagOf(name);
    var w := trail[|trail| - 1];
    RecordSafe(tagOf, trail, v, name, tag, f);
    if moved && w.slot.None? && tag in w.quarantine && !f.restore.RestoreRefused? {
      assert TrailIs(tagOf, trail + [MoveBack(w, tag)], v, name, tag);
      RecordSafe(tagOf, trail + [MoveBack(w, tag)], v, name, tag, f);
    }
  }

  lemma TransactSafe(tagOf: string -> string, v: Durable, name: string, f: Faults)
    requires Home(tagOf, v, name) && v.row.Some? && v.row.value.deleted
    ensures TrailIs(tagOf, TransactPurge(v, tagOf(name), f).trail, v, name, tagOf(name))
  {
    var tag := tagOf(name);
    var moved := v.slot.Some? && !f.move.MoveRefused?;
    var v1 := if moved then MoveOut(v, tag) else v;
    var trail := if moved then [v, v1] else [v];
    assert TrailIs(tagOf, trail, v, name, tag);
    var reachedCommit := v.slot.None? || f.move.MoveFine?;
    if reachedCommit && !f.commit.RolledBack? {
      assert TrailIs(tagOf, trail + [DropRow(v1)], v, name, tag);
      CleanupSafe(tagOf, trail + [DropRow(v1)], v, name, tag, f, false, "purge_cleanup_pending");
      RecordSafe(tagOf, trail + [DropRow(v1)], v, name, tag, f);
    } else {
      RecordSafe(tagOf, trail, v, name, tag, f);
      RollBackSafe(tagOf, trail, v, name, f, moved);
    }
  }

  /**
   Whatever fails and wherever the process dies, one attempt under any name keeps the bytes in
   one place as long as it has not dropped the row.
   */
  lemma AttemptSafe(tagOf: string -> string, v: Durable, asked: string, f: Faults, name: string)
    requires Home(tagOf, v, name)
    ensures TrailIs(tagOf, PurgeOnce(tagOf, v, asked, f).trail, v, name, tagOf(asked))
    ensures forall w | w in PurgeOnce(tagOf, v, asked, f).trail && w.row != v.row ::
              v.row.Some? && v.row.value.deleted && asked == name
  {
    if v.row.None? {
      CleanupSafe(tagOf, [v], v, name, tagOf(asked), f, true, "failed");
    } else if v.row.value.deleted && v.row.value.name == asked {
      TransactSafe(tagOf, v, name, f);
    }
  }

  // -------------------------------------------------------------------- runs

  /**
   A purge killed after `effects` of its effects (or run to its end), or one of the two
   effects of deleting the file, which a crash or another call may separate.
   */
  datatype Try = Purging(asked: string, faults: Faults, effects: nat) | Marking | Unlinking

  /** Only the row's first deletion marks it, and only a file found deleted is unlinked. */
  function AfterTry(tagOf: string -> string, v: Durable, t: Try): Durable {
    match t
    case Purging(asked, faults, effects) =>
      var trail := PurgeOnce(tagOf, v, asked, faults).trail;
      if effects < |trail| then trail[effects] else if trail == [] then v else trail[|trail| - 1]
    case Marking => if v.row.Some? then v.(row := Some(v.row.value.(deleted := true))) else v
    case Unlinking => if v.row.Some? && !v.row.value.deleted then v else v.(slot := None)
  }

  function AfterTries(tagOf: string -> string, v: Durable, tries: seq<Try>): Durable
    decreases |tries|
  {
    if tries == [] then v else AfterTries(tagOf, AfterTry(tagOf, v, tries[0]), tries[1..])
  }

  /** What the row and the bytes may do over a run whose steps are `tries`. */
  predicate Follows(v: Durable, w: Durable, tag: string, tries: seq<Try>) {
    && (w.row.Some? ==>
          && v.row.Some? && w.row.value.name == v.row.value.name
          && (w.row == v.row || (Marking in tries && w.row.value.deleted))
          && (Held(w, tag) == Held(v, tag) || (Unlinking in tries && w.row.value.deleted && Held(w, tag).None?)))
    && (w.row.None? && v.row.Some? ==> v.row.value.deleted || Marking in tries)
    && (Held(w, tag).Some? ==> Held(w, tag) == Held(v, tag))
  }

  lemma TryFollows(tagOf: string -> string, v: Durable, t: Try, name: string)
    requires Home(tagOf, v, name)
    ensures Home(tagOf, AfterTry(tagOf, v, t), name)
    ensures Follows(v, AfterTry(tagOf, v, t), tagOf(name), [t])
  {
    if t.Purging? {
      AttemptSafe(tagOf, v, t.asked, t.faults, name);
    }
  }

  /**
   Over any number of failed, mistaken and killed purges, mixed with the effects of deleting,
   the bytes stay in one place: they go only with an unlinking after the file was deleted, or
   with the row, and the row only if the file was deleted.
   */
  lemma {:induction false} TriesAreSafe(tagOf: string -> string, v: Durable, tries: seq<Try>, name: string)
    requires Home(tagOf, v, name)
    ensures Home(tagOf, AfterTries(tagOf, v, tries), name)
    ensures Follows(v, AfterTries(tagOf, v, tries), tagOf(name), tries)
    decreases |tries|
  {
    if tries != [] {
      TryFollows(tagOf, v, tries[0], name);
      TriesAreSafe(tagOf, AfterTry(tagOf, v, tries[0]), tries[1..], name);
      assert forall t | t in tries[1..] || t == tries[0] :: t in tries;
    }
  }

  predicate AllGone(v: Durable, tag: string) {
    && v.row.None? && v.slot.None? && v.dependents == {}
    && tag !in v.quarantine && tag !in v.records
  }

  /**
   From wherever earlier attempts left off, one fault-free exact retry finishes the purge of a
   deleted file, whether or not the delete got to unlink its object. A live file is refused.
   */
  lemma RetryFinishes(tagOf: string -> string, v: Durable, tries: seq<Try>, name: string)
    requires Home(tagOf, v, name)
    ensures var w := AfterTries(tagOf, v, tries);
            var a := PurgeOnce(tagOf, w, name, FAULT_FREE);
            if w.row.Some? && !w.row.value.deleted then a == Attempt([w], Err("not_deleted"))
            else
              && a.trail != [] && AllGone(a.trail[|a.trail| - 1], tagOf(name))
              && (if AllGone(w, tagOf(name)) then a == Attempt([w], Err("not_found"))
                  else a.outcome == Ok(w.row.None?))
  {
    TriesAreSafe(tagOf, v, tries, name);
  }

  /** Success, under any faults, means that nothing of the file is left. */
  lemma SuccessMeansGone(tagOf: string -> string, v: Durable, asked: string, f: Faults, name: string)
    requires Home(tagOf, v, name)
    ensures var a := PurgeOnce(tagOf, v, asked, f);
            a.outcome.Ok? ==>
              && a.trail != [] && AllGone(a.trail[|a.trail| - 1], tagOf(asked))
              && (v.row.Some? ==> v.row.value.deleted && name == asked)
  {
  }

  /** A live file, or one called by another name, is never touched. */
  lemma OthersUntouched(tagOf: string -> string, v: Durable, name: string, f: Faults)
    requires v.row.Some? && (!v.row.value.deleted || v.row.value.name != name)
    ensures PurgeOnce(tagOf, v, name, f).trail == [v] && PurgeOnce(tagOf, v, name, f).outcome.Err?
  {
  }

  lemma MovedBackIsSame(v: Durable, tag: string)
    requires v.slot.Some? && tag !in v.quarantine
    ensures MoveBack(MoveOut(v, tag), tag) == v
  {
  }

  /** Only `failed` is answered by a rollback, and it leaves row and bytes where they were. */
  lemma RollBackRestores(v: Durable, trail: seq<Durable>, tag: string, f: Faults, moved: bool)
    requires moved ==> v.slot.Some? && tag !in v.quarantine
    requires trail != [] && trail[|trail| - 1] == if moved then MoveOut(v, tag) else v
    ensures var a := RollBack(trail, tag, f, moved);
            && a.outcome in {Err("failed"), Err("purge_recovery_required"), Err("recovery_record_failed")}
            && (a.outcome == Err("failed") ==>
                  && a.trail != [] && a.trail[|a.trail| - 1].row == v.row
                  && a.trail[|a.trail| - 1].slot == v.slot && a.trail[|a.trail| - 1].quarantine == v.quarantine)
  {
    if moved {
      MovedBackIsSame(v, tag);
    }
  }

  lemma TransactRestores(v: Durable, tag: string, f: Faults)
    requires v.slot.Some? ==> tag !in v.quarantine
    ensures var a := TransactPurge(v, tag, f);
            && a.outcome in {Err("failed"), Err("purge_recovery_required"), Err("recovery_record_failed"),
                             Err("purge_cleanup_pending"), Ok(false)}
            && (a.outcome == Err("failed") ==>
                  && a.trail != [] && a.trail[|a.trail| - 1].row == v.row
                  && a.trail[|a.trail| - 1].slot == v.slot && a.trail[|a.trail| - 1].quarantine == v.quarantine)
  {
    var moved := v.slot.Some? && !f.move.MoveRefused?;
    var v1 := if moved then MoveOut(v, tag) else v;
    var trail := if moved then [v, v1] else [v];
    var reachedCommit := v.slot.None? || f.move.MoveFine?;
    if !(reachedCommit && !f.commit.RolledBack?) && f.observable {
      RollBackRestores(v, trail, tag, f, moved);
    }
  }

  /**
   A failed purge of a durable row leaves the object where it was, unless it reports that
   recovery is needed, that even the recovery record could not be written, or that only the
   cleanup after its commit is missing.
   */
  lemma FailureRestores(tagOf: string -> string, v: Durable, asked: string, f: Faults, name: string)
    requires Home(tagOf, v, name) && v.row.Some?
    ensures var a := PurgeOnce(tagOf, v, asked, f);
            a.outcome in {Err("failed"), Err("not_deleted"), Err("display_name_mismatch")} ==>
              && a.trail != [] && a.trail[|a.trail| - 1].row == v.row
              && a.trail[|a.trail| - 1].slot == v.slot && a.trail[|a.trail| - 1].quarantine == v.quarantine
    ensures PurgeOnce(tagOf, v, asked, f).outcome in
              {Err("failed"), Err("not_deleted"), Err("display_name_mismatch"), Err("purge_recovery_required"),
               Err("recovery_record_failed"), Err("purge_cleanup_pending"), Ok(false)}
  {
    if v.row.value.deleted && asked == name {
      TransactRestores(v, tagOf(asked), f);
    }
  }

  /** The purge never finds an object both in its slot and in quarantine. */
  lemma NeverAmbiguous(tagOf: string -> string, v: Durable, tries: seq<Try>, name: string, asked: string, f: Faults)
    requires Home(tagOf, v, name)
    ensures PurgeOnce(tagOf, AfterTries(tagOf, v, tries), asked, f).outcome != Err("ambiguous_purge_recovery_state")
  {
    TriesAreSafe(tagOf, v, tries, name);
  }
}
