/**
 * The transactional updater: apply, recover and rollback over an unbounded set of files.
 *
 * Each durable step goes through Commit, which may be cut short by a fault: an exception
 * before or after the step took effect, or a crash.  `faults` is the adversary's script; every
 * contract holds for every script, so it holds for a crash at every step, and a crash during
 * recovery is just another script.  The journal object in memory is the plan and a phase; the
 * phase can be one save ahead of the journal on disk.
 */
module Updater {
  import opened Values
  import opened Transaction
  import opened Consistency
  import opened UpdateSteps

  datatype Fault =
    | NoFault
    | Raise(late: bool, torn: Option<Content>) // an exception; `torn` is what a half-made copy holds
    | Crash(torn: Option<Content>)

  datatype Outcome = Done | Raised | Crashed

  datatype Result =
    | Busy              // the maintenance lock is not free, or a session is not settled
    | Refused           // a check failed before anything was changed
    | UpdateApplied
    | UpdateRolledBack
    | RollbackBlocked   // the rollback itself failed: backups are kept
    | Interrupted       // a crash, or an exception outside the compensated part

  function First(script: seq<Fault>): Fault {
    if script == [] then NoFault else script[0]
  }

  function Rest(script: seq<Fault>): seq<Fault> {
    if script == [] then [] else script[1..]
  }

  function OutcomeOf(f: Fault): Outcome {
    match f case NoFault => Done case Raise(_, _) => Raised case Crash(_) => Crashed
  }

  /** At most the last step of the script is disturbed. */
  ghost predicate OneFault(script: seq<Fault>) {
    forall i | 0 <= i < |script| - 1 :: script[i] == NoFault
  }

  /** After any number of undisturbed steps the script has at most one fault left, and none after the fault. */
  ghost predicate Spends(before: seq<Fault>, o: Outcome, after: seq<Fault>) {
    OneFault(before) ==> OneFault(after) && (o == Done || after == [])
  }

  /** The first copy fails, the rollback saves `rolled_back`, and the process dies before it clears the marker. */
  function StrandingScript(): (script: seq<Fault>)
    ensures |script| == 9
  {
    [NoFault, NoFault, NoFault, NoFault, NoFault, Raise(false, None), NoFault, NoFault, Crash(None)]
  }

  /** Step `k` of a script that began as `start` is next. */
  ghost predicate OnTrack(start: seq<Fault>, k: nat, now: seq<Fault>) {
    && Spends(start, Done, now)
    && (start == StrandingScript() && k <= 9 ==> now == StrandingScript()[k..])
  }

  lemma OnTrackAtFirst(start: seq<Fault>)
    ensures OnTrack(start, 0, start)
  {
    assert StrandingScript()[0..] == StrandingScript();
  }

  lemma ScriptStep(k: nat)
    requires k < 9
    ensures First(StrandingScript()[k..]) == StrandingScript()[k]
      && Rest(StrandingScript()[k..]) == StrandingScript()[k + 1..]
    ensures k < 5 ==> StrandingScript()[k] == NoFault
  {
    assert StrandingScript()[k..][1..] == StrandingScript()[k + 1..];
  }

  lemma LastThreeSteps()
    ensures StrandingScript()[6..] == [NoFault, NoFault, Crash(None)]
    ensures StrandingScript()[5] == Raise(false, None) && !OneFault(StrandingScript()[5..])
  {
    assert StrandingScript()[5..][0] == Raise(false, None);
  }

  /** While the update is `preparing`, or once its backup is complete, it is not stranded. */
  lemma PreparingOrSaved(d: Disk, plan: Plan, phase: Phase)
    requires if phase == Preparing then InPreparation(d, plan) else Current(d, plan) && Saved(d, plan)
    ensures !Stranded(d)
  {
    hide Stranded, Saved, Consistent, Untried;
    NotStranded(d, plan);
  }

  /** A rollback that went through, or that had a complete backup, leaves nothing stranded. */
  lemma Undone(d: Disk, d': Disk, plan: Plan, phase: Phase, done: bool)
    requires Current(d', plan) && SameElsewhere(d, d', plan)
    requires (phase != Preparing ==> Saved(d, plan)) && (done ==> d'.pending == None)
    ensures phase != Preparing || done ==> !Stranded(d')
  {
    hide Stranded, Saved, Current;
    SavedFrame(d, d', plan);
    if phase != Preparing || done {
      NotStranded(d', plan);
    }
  }

  lemma SpendsOne(start: seq<Fault>, now: seq<Fault>)
    requires Spends(start, Done, now)
    ensures Spends(start, OutcomeOf(First(now)), Rest(now))
  {
  }

  /** The outcome without faults: first the maintenance lock and the sessions, then the checks. */
  function Undisturbed(free: bool, allowed: bool, outcome: Result): Result {
    if !free then Busy else if !allowed then Refused else outcome
  }

  class RuntimeUpdater {
    var disk: Disk
    var faults: seq<Fault>
    var leases: set<nat>      // runtime processes holding a shared installation lease
    var registered: set<nat>  // sessions with an entry in the durable registry
    var registrants: map<nat, nat>  // the process that each of these entries names
    var settled: set<nat>     // sessions whose own evidence proves cleanup and settled input
    var launched: set<nat>    // sessions whose host process was created, or may have been

    constructor (root: map<Path, Content>, registry: RegistryValue)
      requires Installed(root)
      ensures Consistent(disk) && disk.root == root && leases == {} && registered == {} && launched == {}
      ensures settled == {} && registrants == map[]
    {
      disk := Disk(root, registry, map[], None, None, map[], None, None);
      faults, leases, registered, registrants, settled, launched := [], {}, {}, map[], {}, {};
    }

    method NextFault() returns (f: Fault)
      modifies `faults
      ensures f == First(old(faults)) && faults == Rest(old(faults))
    {
      if faults == [] {
        f := NoFault;
      } else {
        f, faults := faults[0], faults[1..];
      }
    }

    /** A step that only reads. */
    method Read() returns (o: Outcome)
      modifies `faults
      ensures o == OutcomeOf(First(old(faults))) && faults == Rest(old(faults))
    {
      var f := NextFault();
      o := OutcomeOf(f);
    }

    /** One durable step: an atomic replace, an unlink, or a registry write. */
    method Commit(next: Disk) returns (o: Outcome)
      modifies `disk, `faults
      ensures o == Done ==> disk == next
      ensures o == Raised ==> disk == old(disk) || disk == next
      ensures o == Crashed ==> disk == old(disk)
      ensures o == OutcomeOf(First(old(faults))) && faults == Rest(old(faults))
    {
      var f := NextFault();
      match f {
        case NoFault => disk := next; o := Done;
        case Raise(late, _) => if late { disk := next; } o := Raised;
        case Crash(_) => o := Crashed;
      }
    }

    // ---------------------------------------------------------------- journal and marker

    /** `_save` with a phase that fits. */
    method SavePhase(plan: Plan, phase: Phase) returns (o: Outcome)
      requires Current(disk, plan) && Consistent(disk) && PhaseFits(disk, plan, phase)
      modifies `disk, `faults
      ensures Current(disk, plan) && Consistent(disk)
      ensures disk == old(disk) || disk == SaveJournal(old(disk), Journal(plan, phase))
      ensures o == Done ==> disk == SaveJournal(old(disk), Journal(plan, phase))
      ensures o == Crashed ==> disk == old(disk)
      ensures o == OutcomeOf(First(old(faults))) && faults == Rest(old(faults))
    {
      hide Sound, PhaseFits;
      SaveFits(disk, plan, phase);
      o := Commit(SaveJournal(disk, Journal(plan, phase)));
    }

    /** `_publish_pending` */
    method PublishPending(plan: Plan) returns (o: Outcome)
      requires Current(disk, plan) && Consistent(disk)
      modifies `disk, `faults
      ensures Current(disk, plan) && Consistent(disk)
      ensures disk == old(disk) || disk == old(disk).(pending := Some(Pending(plan.id, plan.target)))
      ensures o == Done ==> Blocked(disk, plan)
      ensures o == OutcomeOf(First(old(faults))) && faults == Rest(old(faults))
    {
      hide Sound, PhaseFits;
      if disk.pending.Some? {
        o := Read();
        if o == Done && !Blocked(disk, plan) { o := Raised; }
      } else {
        var next := disk.(pending := Some(Pending(plan.id, plan.target)));
        PublishFits(disk, next, plan);
        o := Commit(next);
      }
    }

    /** `_clear_pending` */
    method ClearPending(plan: Plan) returns (o: Outcome)
      requires Current(disk, plan) && Consistent(disk)
      requires CurrentJournal(disk).value.phase in {Committed, RolledBack}
      modifies `disk, `faults
      ensures Current(disk, plan) && Consistent(disk)
      ensures disk == old(disk) || disk == old(disk).(pending := None)
      ensures o == Done ==> disk.pending == None
      ensures o == Crashed ==> disk == old(disk)
      ensures o == OutcomeOf(First(old(faults))) && faults == Rest(old(faults))
    {
      hide Sound, PhaseFits;
      if disk.pending == None {
        o := Read();
      } else {
        var next := disk.(pending := None);
        ClearFits(disk, next, plan);
        o := Commit(next);
      }
    }

    // ---------------------------------------------------------------- restoring

    /** One turn of the restore loop of `_rollback`. */
    method RestoreOne(plan: Plan, i: nat) returns (o: Outcome)
      requires InTransition(disk, plan) && i < |plan.operations|
      modifies `disk, `faults
      ensures InTransition(disk, plan) && disk == old(disk).(root := disk.root)
      ensures ChangedOnlyAt(old(disk).root, disk.root, plan.operations[i].path)
      ensures o == Done ==> Holds(disk.root, plan.operations[i].path, plan.operations[i].before)
      ensures old(faults) == [] ==> o == Done && faults == []
    {
      hide Sound, PhaseFits;
      var op, root := plan.operations[i], disk.root;
      o := Done;
      if op.before.Some? && Holds(root, op.path, op.before) {
        return;
      }
      assert Holds(root, op.path, op.before) || Holds(root, op.path, op.after);
      if op.path in root && !(op.after.Some? && Holds(root, op.path, op.after)) {
        return Raised; // rollback_refuses_modified_file
      }
      if op.before == None {
        if op.path in root {
          RootStep(disk, root - {op.path}, plan, i);
          o := Commit(disk.(root := root - {op.path}));
        }
      } else {
        var backup := disk.transactions[plan.id].backup;
        if !Holds(backup, op.path, op.before) {
          return Raised; // rollback_backup_corrupt
        }
        RootStep(disk, root[op.path := backup[op.path]], plan, i);
        o := Commit(disk.(root := root[op.path := backup[op.path]]));
      }
    }

    /** The restore loop: every file becomes old, in reverse order, so the marker comes first. */
    method RestoreFiles(plan: Plan) returns (o: Outcome)
      requires InTransition(disk, plan)
      modifies `disk, `faults
      ensures InTransition(disk, plan) && disk == old(disk).(root := disk.root)
      ensures Untouched(old(disk).root, disk.root, plan.operations)
      ensures o == Done ==> AllOld(disk.root, plan.operations)
      ensures old(faults) == [] ==> o == Done && faults == []
    {
      hide Sound, PhaseFits, InTransition, Untouched;
      ghost var root := disk.root;
      o := Done;
      UntouchedReflexive(root, plan.operations);
      for i := |plan.operations| downto 0
        invariant InTransition(disk, plan) && disk == old(disk).(root := disk.root)
        invariant Untouched(root, disk.root, plan.operations)
        invariant forall k | i <= k < |plan.operations| ::
          Holds(disk.root, plan.operations[k].path, plan.operations[k].before)
        invariant o == Done && (old(faults) == [] ==> faults == [])
      {
        ghost var before := disk.root;
        o := RestoreOne(plan, i);
        TransitionStep(disk, plan, root, before, i);
        if o != Done {
          return;
        }
      }
    }

    // ---------------------------------------------------------------- rollback

    /** The `try` block of `_rollback`; `phase` is the phase of the journal in memory. */
    method TryRollback(plan: Plan, phase: Phase) returns (o: Outcome)
      requires Current(disk, plan) && Consistent(disk) && Blocked(disk, plan)
      requires PhaseFits(disk, plan, RollbackFailed) && (phase == Preparing ==> Untried(disk, plan))
      modifies `disk, `faults
      ensures Current(disk, plan) && Consistent(disk) && SameElsewhere(old(disk), disk, plan)
      ensures Untouched(old(disk).root, disk.root, plan.operations)
      ensures o == Done ==> disk.pending == None && Untried(disk, plan)
      ensures o != Done ==> PhaseFits(disk, plan, RollbackFailed)
      ensures phase != Preparing && !Saved(old(disk), plan) ==> o != Done && disk == old(disk)
      ensures old(faults) == [] ==> faults == [] && o != Crashed
      ensures old(faults) == [] && (phase == Preparing || Saved(old(disk), plan)) ==> o == Done
      ensures phase == Preparing && old(faults) == [NoFault, NoFault, Crash(None)] ==>
        o == Crashed && disk == SaveJournal(old(disk), Journal(plan, RolledBack))
    {
      hide Sound, Untouched, Untried, Saved, Mixed, Consistent, TransactionValid, PreparingUnchanged, Installed;
      UntouchedReflexive(disk.root, plan.operations);
      ValidityIsSaved(disk, plan, phase);
      o := Read();
      if o != Done {
        return;
      }
      if !TransactionValid(disk, Journal(plan, phase)) {
        return Raised;
      }
      if phase == Preparing {
        UntriedIsInstalled(disk, plan);
        if !PreparingUnchanged(disk, plan) {
          return Raised;
        }
      } else {
        o := RestoreAll(plan);
        if o != Done {
          return;
        }
        UntriedIsInstalled(disk, plan);
      }
      o := FinishRollback(plan);
    }

    /** The branch of `_rollback` that had already started to change files. */
    method RestoreAll(plan: Plan) returns (o: Outcome)
      requires Current(disk, plan) && Consistent(disk) && Blocked(disk, plan)
      requires PhaseFits(disk, plan, RollbackFailed) && Saved(disk, plan)
      modifies `disk, `faults
      ensures Current(disk, plan) && Consistent(disk) && SameElsewhere(old(disk), disk, plan)
      ensures Blocked(disk, plan) && PhaseFits(disk, plan, RollbackFailed)
      ensures Untouched(old(disk).root, disk.root, plan.operations)
      ensures o == Done ==> Untried(disk, plan)
      ensures old(faults) == [] ==> o == Done && faults == []
    {
      hide Sound, Untouched, Holds;
      UntouchedReflexive(disk.root, plan.operations);
      o := SavePhase(plan, RollingBack);
      if o != Done {
        return;
      }
      o := RestoreFiles(plan);
      if o != Done || plan.snapshot == None {
        return;
      }
      var next := disk.(registry := plan.snapshot.value);
      RegistryStep(disk, next, plan);
      o := Commit(next);
    }

    /** The end of `_rollback`: check the record, save `rolled_back`, clear the marker. */
    method FinishRollback(plan: Plan) returns (o: Outcome)
      requires Current(disk, plan) && Consistent(disk) && Untried(disk, plan) && Installed(disk.root)
      modifies `disk, `faults
      ensures Current(disk, plan) && Consistent(disk) && SameElsewhere(old(disk), disk, plan)
      ensures disk.root == old(disk).root && Untried(disk, plan)
      ensures o == Done ==> disk.pending == None
      ensures old(faults) == [] ==> o == Done && faults == []
      ensures old(faults) == [NoFault, Crash(None)] ==>
        o == Crashed && disk == SaveJournal(old(disk), Journal(plan, RolledBack))
    {
      hide Sound, AllOld, Installed;
      if !Installed(disk.root) {
        return Raised;
      }
      o := SavePhase(plan, RolledBack);
      if o == Done {
        o := ClearPending(plan);
      }
    }

    /** `_rollback` with its exception handler. */
    method UndoTransaction(plan: Plan, phase: Phase) returns (r: Result)
      requires Current(disk, plan) && Consistent(disk) && Blocked(disk, plan)
      requires PhaseFits(disk, plan, RollbackFailed) && (phase == Preparing ==> Untried(disk, plan))
      modifies `disk, `faults
      ensures Current(disk, plan) && Consistent(disk) && SameElsewhere(old(disk), disk, plan)
      ensures Untouched(old(disk).root, disk.root, plan.operations)
      ensures r in {UpdateRolledBack, RollbackBlocked, Interrupted}
      ensures r == UpdateRolledBack ==> disk.pending == None && Untried(disk, plan)
      ensures phase != Preparing && !Saved(old(disk), plan) ==>
        && r != UpdateRolledBack
        && (disk == old(disk) || disk == SaveJournal(old(disk), Journal(plan, RollbackFailed)))
      ensures old(faults) == [] ==>
        r == (if phase == Preparing || Saved(old(disk), plan) then UpdateRolledBack else RollbackBlocked)
      ensures phase == Preparing && old(faults) == [NoFault, NoFault, Crash(None)] ==>
        disk == SaveJournal(old(disk), Journal(plan, RolledBack))
    {
      hide Sound, Untouched, PhaseFits, Untried, Saved, Consistent;
      var o := TryRollback(plan, phase);
      match o {
        case Done => r := UpdateRolledBack;
        case Crashed => r := Interrupted;
        case Raised =>
          o := SavePhase(plan, RollbackFailed);
          r := if o == Done then RollbackBlocked else Interrupted;
      }
    }

    // ---------------------------------------------------------------- applying

    /** One turn of the backup loop; a fault may leave an incomplete copy behind. */
    method BackupOne(plan: Plan, i: nat) returns (o: Outcome)
      requires InPreparation(disk, plan) && i < |plan.operations|
      modifies `disk, `faults
      ensures InPreparation(disk, plan)
      ensures disk == WithBackup(old(disk), plan, disk.transactions[plan.id].backup)
      ensures ChangedOnlyAt(old(disk).transactions[plan.id].backup, disk.transactions[plan.id].backup,
                            plan.operations[i].path)
      ensures o == Done && plan.operations[i].before.Some? ==>
        Holds(disk.transactions[plan.id].backup, plan.operations[i].path, plan.operations[i].before)
      ensures faults == if plan.operations[i].before == None then old(faults) else Rest(old(faults))
      ensures plan.operations[i].path !in old(disk).transactions[plan.id].backup ==>
        o == (if plan.operations[i].before == None then Done else OutcomeOf(First(old(faults))))
      ensures plan.operations[i].before == None || First(old(faults)) == Raise(false, None) ==> disk == old(disk)
    {
      hide Sound, Consistent;
      var op, backup := plan.operations[i], disk.transactions[plan.id].backup;
      o := Done;
      if op.before == None {
        return;
      }
      assert Holds(disk.root, op.path, op.before);
      var f := NextFault();
      if op.path in backup || op.path !in disk.root {
        return Raised;
      }
      var copy := match f case NoFault => Some(disk.root[op.path]) case Raise(_, torn) => torn case Crash(torn) => torn;
      if copy.Some? {
        BackupStep(disk, plan, backup[op.path := copy.value]);
        disk := WithBackup(disk, plan, backup[op.path := copy.value]);
      }
      o := OutcomeOf(f);
      if o == Done && !Holds(disk.transactions[plan.id].backup, op.path, op.before) {
        o := Raised; // backup_integrity_failure
      }
    }

    method BackupFiles(plan: Plan) returns (o: Outcome)
      requires InPreparation(disk, plan) && disk.transactions[plan.id].backup == map[]
      modifies `disk, `faults
      ensures InPreparation(disk, plan)
      ensures disk == WithBackup(old(disk), plan, disk.transactions[plan.id].backup)
      ensures o == Done ==> Saved(disk, plan)
      ensures old(faults) == [] ==> faults == [] && o == Done
      ensures Spends(old(faults), o, faults)
      ensures First(old(faults)) == Raise(false, None) ==>
        o == Raised && disk == old(disk) && faults == Rest(old(faults))
    {
      hide Sound, Consistent, InPreparation, Untried, Holds;
      o := Done;
      PreparationPlan(disk, plan);
      for i := 0 to |plan.operations|
        invariant plan.id in disk.transactions && InPreparation(disk, plan)
        invariant disk == WithBackup(old(disk), plan, disk.transactions[plan.id].backup)
        invariant forall k | 0 <= k < i && plan.operations[k].before.Some? ::
          Holds(disk.transactions[plan.id].backup, plan.operations[k].path, plan.operations[k].before)
        invariant forall k | i <= k < |plan.operations| ::
          plan.operations[k].path !in disk.transactions[plan.id].backup
        invariant o == Done && (old(faults) == [] ==> faults == []) && Spends(old(faults), Done, faults)
        invariant First(old(faults)) == Raise(false, None) ==> disk == old(disk) && faults == old(faults)
        invariant First(old(faults)) == Raise(false, None) ==>
          forall k | 0 <= k < i :: plan.operations[k].before == None
      {
        ghost var before := disk.transactions[plan.id].backup;
        o := BackupOne(plan, i);
        if o != Done {
          return;
        }
        BackupLoopStep(plan.operations, before, disk.transactions[plan.id].backup, i);
      }
      SomethingIsOld(disk, plan);
    }

    /** One turn of the replacement loop. */
    method ApplyOne(plan: Plan, i: nat) returns (o: Outcome)
      requires InTransition(disk, plan) && i < |plan.operations|
      requires Holds(disk.root, plan.operations[i].path, plan.operations[i].before)
      modifies `disk, `faults
      ensures InTransition(disk, plan) && disk == old(disk).(root := disk.root)
      ensures ChangedOnlyAt(old(disk).root, disk.root, plan.operations[i].path)
      ensures o == Done ==> Holds(disk.root, plan.operations[i].path, plan.operations[i].after)
      ensures old(faults) == [] ==> o == Done && faults == []
    {
      hide Sound, Mixed, Consistent, Source;
      var op, root := plan.operations[i], disk.root;
      o := Done;
      if op.before == op.after {
        return;
      }
      if op.after == None {
        if op.before == None || !Holds(root, op.path, op.before) {
          return Raised; // owned_file_changed_during_apply
        }
        RootStep(disk, root - {op.path}, plan, i);
        o := Commit(disk.(root := root - {op.path}));
      } else {
        SourceMatches(disk, plan, i);
        var source := Source(disk, plan, op.path);
        if source == None || Sha256(source.value) != op.after.value {
          return Raised; // staged_file_changed_during_apply
        }
        if !Holds(root, op.path, op.before) {
          return Raised; // owned_or_unknown_file_changed_during_apply
        }
        RootStep(disk, root[op.path := source.value], plan, i);
        o := Commit(disk.(root := root[op.path := source.value]));
      }
    }

    method ApplyFiles(plan: Plan) returns (o: Outcome)
      requires InTransition(disk, plan) && AllOld(disk.root, plan.operations)
      modifies `disk, `faults
      ensures InTransition(disk, plan) && disk == old(disk).(root := disk.root)
      ensures Untouched(old(disk).root, disk.root, plan.operations)
      ensures o == Done ==> AllNew(disk.root, plan.operations)
      ensures old(faults) == [] ==> o == Done && faults == []
    {
      hide Sound, PhaseFits, InTransition, Untouched;
      ghost var root := disk.root;
      o := Done;
      UntouchedReflexive(root, plan.operations);
      for i := 0 to |plan.operations|
        invariant InTransition(disk, plan) && disk == old(disk).(root := disk.root)
        invariant Untouched(root, disk.root, plan.operations)
        invariant forall k | 0 <= k < i ::
          Holds(disk.root, plan.operations[k].path, plan.operations[k].after)
        invariant forall k | i <= k < |plan.operations| ::
          Holds(disk.root, plan.operations[k].path, plan.operations[k].before)
        invariant o == Done && (old(faults) == [] ==> faults == [])
      {
        ghost var before := disk.root;
        o := ApplyOne(plan, i);
        TransitionStep(disk, plan, root, before, i);
        if o != Done {
          return;
        }
      }
    }

    /** Replacing the files and setting the registry value. */
    method ReplaceAll(plan: Plan) returns (o: Outcome)
      requires InTransition(disk, plan) && AllOld(disk.root, plan.operations)
      modifies `disk, `faults
      ensures InTransition(disk, plan) && disk == old(disk).(root := disk.root, registry := disk.registry)
      ensures plan.snapshot == None ==> disk.registry == old(disk).registry
      ensures Untouched(old(disk).root, disk.root, plan.operations)
      ensures o == Done ==> AllNew(disk.root, plan.operations) && RegistryNew(disk, plan)
      ensures old(faults) == [] ==> o == Done && faults == []
    {
      hide InTransition, Untouched, AllOld, AllNew;
      o := ApplyFiles(plan);
      if o == Done && plan.snapshot.Some? {
        var next := disk.(registry := RegistryValue(plan.target.version, StringValue));
        RegistryStep(disk, next, plan);
        o := Commit(next);
      }
    }

    /** The health check and the checks after it. */
    method CheckHealth(plan: Plan, healthy: bool) returns (o: Outcome)
      requires Sound(disk, plan) && AllNew(disk.root, plan.operations) && RegistryNew(disk, plan)
      modifies `faults
      ensures o == Done ==> healthy
      ensures old(faults) == [] ==> faults == [] && o == (if healthy then Done else Raised)
    {
      AllNewIsWhole(disk, plan);
      hide Sound, AllNew;
      o := Read();
      if o == Done {
        if !healthy || !Installed(disk.root) {
          return Raised;
        }
        if plan.snapshot.Some? && disk.registry.version != plan.target.version {
          return Raised;
        }
      }
    }

    /** The `try` block of `apply`; `phase` is the phase of the journal in memory when it ends. */
    method TryApply(plan: Plan, healthy: bool) returns (o: Outcome, phase: Phase)
      requires InPreparation(disk, plan) && disk.transactions[plan.id].backup == map[]
      modifies `disk, `faults
      ensures Current(disk, plan) && Consistent(disk) && Blocked(disk, plan) && SameBeyond(old(disk), disk, plan)
      ensures Untouched(old(disk).root, disk.root, plan.operations)
      ensures o == Done ==> Tried(disk, plan) && healthy
      ensures o != Done ==> PhaseFits(disk, plan, RollbackFailed)
      ensures o != Done ==> if phase == Preparing then Untried(disk, plan) else Saved(disk, plan)
      ensures old(faults) == [] ==> faults == [] && o == (if healthy then Done else Raised)
      ensures phase == Preparing ==> InPreparation(disk, plan)
      ensures phase == Preparing && OneFault(old(faults)) ==> faults == []
      ensures First(old(faults)) == Raise(false, None) ==>
        o == Raised && phase == Preparing && disk == old(disk) && faults == Rest(old(faults))
    {
      hide Sound, Untouched, AllOld, AllNew, EachOldOrNew, BackupComplete;
      UntouchedReflexive(disk.root, plan.operations);
      phase := Preparing;
      o := BackupFiles(plan);
      if o != Done {
        return;
      }
      phase := BackedUp;
      o := SavePhase(plan, phase);
      if o != Done {
        return;
      }
      o, phase := Exchange(plan, healthy);
    }

    /** From the complete backup to the health check. */
    method Exchange(plan: Plan, healthy: bool) returns (o: Outcome, phase: Phase)
      requires Current(disk, plan) && Consistent(disk) && PhaseFits(disk, plan, BackedUp)
      modifies `disk, `faults
      ensures Current(disk, plan) && Consistent(disk) && Blocked(disk, plan) && SameBeyond(old(disk), disk, plan)
      ensures Untouched(old(disk).root, disk.root, plan.operations)
      ensures o == Done ==> Tried(disk, plan) && healthy
      ensures o != Done ==> PhaseFits(disk, plan, RollbackFailed) && Saved(disk, plan)
      ensures phase != Preparing
      ensures old(faults) == [] ==> faults == [] && o == (if healthy then Done else Raised)
    {
      hide Sound, Untouched, Holds, BackupComplete;
      UntouchedReflexive(disk.root, plan.operations);
      phase := Applying;
      o := SavePhase(plan, phase);
      if o != Done {
        return;
      }
      o := ReplaceAll(plan);
      if o != Done {
        return;
      }
      phase := Verifying;
      o := SavePhase(plan, phase);
      if o != Done {
        return;
      }
      o := CheckHealth(plan, healthy);
    }

    // ---------------------------------------------------------------- maintenance ownership

    /**
     * Exclusive maintenance and `assert_settled(clear_settled=True)`: every registered session must
     * be settled, and only then are the entries unlinked one by one.
     */
    method EnterMaintenance() returns (o: Outcome)
      modifies `registered, `faults
      ensures o == Done ==> leases == {} && old(registered) <= settled && registered == {}
      ensures registered <= old(registered) && old(registered) - registered <= settled
      ensures old(faults) == [] ==>
        faults == [] && o == (if MaintenanceFree(leases, old(registered), settled) then Done else Raised)
      ensures !MaintenanceFree(leases, old(registered), settled) ==> registered == old(registered)
      ensures Spends(old(faults), Done, faults)
      ensures leases == {} && old(registered) == {} ==> o == Done && faults == old(faults)
    {
      if leases != {} {
        return Raised;
      }
      var unread := registered;
      while unread != {}
        invariant unread <= registered && registered - unread <= settled && registered == old(registered)
        invariant (old(faults) == [] ==> faults == []) && Spends(old(faults), Done, faults)
        invariant registered == {} ==> faults == old(faults)
      {
        var session :| session in unread;
        o := Read();
        if o != Done {
          return;
        }
        if session !in settled {
          return Raised;
        }
        unread := unread - {session};
      }
      while registered != {}
        invariant registered <= old(registered) <= settled
        invariant (old(faults) == [] ==> faults == []) && Spends(old(faults), Done, faults)
        invariant old(registered) == {} ==> faults == old(faults)
      {
        var session :| session in registered;
        var f := NextFault();
        if f.NoFault? || (f.Raise? && f.late) {
          registered := registered - {session};
        }
        if f != NoFault {
          return if f.Raise? then Raised else Crashed;
        }
      }
      o := Done;
    }

    // ---------------------------------------------------------------- the three operations

    /** A step of the preparation, step `k` of a script that began as `start`. */
    method CommitStep(next: Disk, ghost start: seq<Fault>, ghost k: nat) returns (o: Outcome)
      requires OnTrack(start, k, faults) && k < 5
      modifies `disk, `faults
      ensures disk == old(disk) || disk == next
      ensures o == Done ==> disk == next && OnTrack(start, k + 1, faults)
      ensures start == StrandingScript() || old(faults) == [] ==> o == Done
      ensures old(faults) == [] ==> faults == []
    {
      ScriptStep(k);
      SpendsOne(start, faults);
      o := Commit(next);
    }

    /** Creating the transaction: directory, new marker, journal, pointer, pending marker. */
    method Prepare(plan: Plan) returns (o: Outcome)
      requires Consistent(disk) && FreshPlan(disk, plan)
      modifies `disk, `faults
      ensures Consistent(disk) && SameInstallation(old(disk), disk)
      ensures o == Done ==> InPreparation(disk, plan) && disk.transactions[plan.id].backup == map[]
      ensures old(faults) == [] ==> o == Done && faults == []
      ensures o == Done ==> OnTrack(old(faults), 5, faults)
      ensures o != Done ==> !Stranded(disk)
      ensures old(faults) == StrandingScript() ==> o == Done
    {
      hide Consistent, FreshPlan, InPreparation, OnTrack, StrandingScript, Stranded, SameInstallation, Current;
      hide PreparedDirectory, PreparedMarker, PreparedJournal, PreparedPointer;
      var start := disk;
      ghost var script := faults;
      OnTrackAtFirst(script);
      PrepareSteps(start, plan);
      PreparedIsNotStranded(start, plan);
      PreparedIsElsewhere(start, plan);
      o := CommitStep(PreparedDirectory(start, plan), script, 0);
      if o != Done {
        return;
      }
      o := CommitStep(PreparedMarker(start, plan), script, 1);
      if o != Done {
        return;
      }
      o := CommitStep(PreparedJournal(start, plan), script, 2);
      if o != Done {
        return;
      }
      o := CommitStep(PreparedPointer(start, plan), script, 3);
      if o != Done {
        return;
      }
      o := PublishFirst(plan, script);
    }

    /** The first publication of the marker, the last step of the preparation. */
    method PublishFirst(plan: Plan, ghost start: seq<Fault>) returns (o: Outcome)
      requires Current(disk, plan) && Consistent(disk) && disk.pending == None && OnTrack(start, 4, faults)
      modifies `disk, `faults
      ensures Current(disk, plan) && Consistent(disk)
      ensures disk == old(disk) || disk == old(disk).(pending := Some(Pending(plan.id, plan.target)))
      ensures o == Done ==>
        && disk == old(disk).(pending := Some(Pending(plan.id, plan.target)))
        && OnTrack(start, 5, faults)
      ensures start == StrandingScript() || old(faults) == [] ==> o == Done
      ensures old(faults) == [] ==> faults == []
    {
      hide Current, Consistent;
      ScriptStep(4);
      SpendsOne(start, faults);
      o := PublishPending(plan);
    }

    /**
     * `apply`.  Whatever the faults: afterwards the disk is consistent, every path of the old and the
     * new manifest holds exactly its old or its new content, and no other path has changed.
     */
    method Apply(confirmed: Target, uuid: nat, healthy: bool) returns (r: Result)
      requires Consistent(disk)
      modifies `disk, `faults, `registered
      ensures Consistent(disk) && disk.stages == old(disk).stages && disk.highwater == old(disk).highwater
      ensures !MaintenanceFree(leases, old(registered), settled) ==>
        r in {Busy, Interrupted} && disk == old(disk)
      ensures registered <= old(registered) && old(registered) - registered <= settled
      ensures r in {Busy, Refused} || !MayApply(old(disk), confirmed) ==> disk == old(disk)
      ensures MayApply(old(disk), confirmed) ==>
        OldOrNew(old(disk).root, disk.root, ReadRecord(old(disk).root).value, confirmed)
      ensures r == UpdateApplied ==>
        && MayApply(old(disk), confirmed) && healthy && disk.pending == None
        && Whole(disk.root, NewRecord(ReadRecord(old(disk).root).value, confirmed))
        && (ReadRecord(old(disk).root).value.normal ==> disk.registry.version == confirmed.version)
      ensures r == UpdateRolledBack ==>
        disk.root == old(disk).root && disk.registry == old(disk).registry && disk.pending == None
      // whatever happens, configuration and dependency files stay and the version does not fall or leave its line
      ensures StaysCompatible(old(disk).root, disk.root)
      ensures r == UpdateApplied ==>
        NextPatch(old(disk).root, disk.root, confirmed) && ReadyFor(old(disk), confirmed)
      ensures Unfit(old(disk).root, confirmed) || Superseded(old(disk), confirmed)
              || !ReadyFor(old(disk), confirmed) ==>
        && disk == old(disk)
        && (old(faults) == [] ==> r == if MaintenanceFree(leases, old(registered), settled) then Refused else Busy)
      ensures old(faults) == [] ==> r == Undisturbed(
        MaintenanceFree(leases, old(registered), settled),
        MayApply(old(disk), confirmed) && uuid !in old(disk).transactions,
        if healthy then UpdateApplied else UpdateRolledBack)
      ensures OneFault(old(faults)) && !Stranded(old(disk)) ==> !Stranded(disk)
      ensures old(faults) == StrandingScript() && leases == {} && old(registered) == {} ==>
        MayApply(old(disk), confirmed) && uuid !in old(disk).transactions ==> Stranded(disk)
    {
      hide Consistent, MayApply, OldOrNew, Sound, Untouched, Whole, Untried, Tried, Saved, StaysCompatible, Unfit,
        NextPatch, ReadyFor, Superseded, ReadRecord, NewRecord, MakePlan, FreshPlan, InPreparation;
      ghost var start := disk;
      StartView(disk, confirmed);
      NothingChanges(disk);
      UnfitIsRefused(disk, confirmed);
      GuardMeans(disk, confirmed);
      var o := EnterMaintenance();
      if o != Done {
        return if o == Raised then Busy else Interrupted;
      }
      if !MayApply(disk, confirmed) || uuid in disk.transactions {
        return Refused;
      }
      var plan := MakePlan(disk, confirmed, uuid);
      MadePlanIsFresh(disk, confirmed, uuid);
      o := Prepare(plan);
      if o != Done {
        return Interrupted;
      }
      r := Execute(plan, healthy);
      AppliedView(start, disk, plan, confirmed, uuid);
      AppliedIsNext(start, disk, confirmed);
    }

    /** From the prepared transaction to the end of `apply`. */
    method Execute(plan: Plan, healthy: bool) returns (r: Result)
      requires InPreparation(disk, plan) && disk.transactions[plan.id].backup == map[]
      modifies `disk, `faults
      ensures Current(disk, plan) && Consistent(disk) && SameBeyond(old(disk), disk, plan)
      ensures Untouched(old(disk).root, disk.root, plan.operations)
      ensures r in {UpdateApplied, UpdateRolledBack, RollbackBlocked, Interrupted}
      ensures r == UpdateApplied ==> disk.pending == None && Tried(disk, plan) && healthy
      ensures r == UpdateRolledBack ==> disk.pending == None && Untried(disk, plan)
      ensures old(faults) == [] ==> r == (if healthy then UpdateApplied else UpdateRolledBack)
      ensures OneFault(old(faults)) ==> !Stranded(disk)
      ensures old(faults) == StrandingScript()[5..] ==> Stranded(disk)
    {
      hide Sound, Untouched, Untried, Saved, InPreparation, Stranded, StrandingScript;
      ghost var root := disk.root;
      ScriptStep(5);
      LastThreeSteps();
      var o, phase := TryApply(plan, healthy);
      ghost var middle := disk.root;
      UntouchedReflexive(middle, plan.operations);
      match o {
        case Crashed =>
          PreparingOrSaved(disk, plan, phase);
          r := Interrupted;
        case Raised =>
          PreparingOrSaved(disk, plan, phase);
          ghost var before := disk;
          r := UndoTransaction(plan, phase);
          Undone(before, disk, plan, phase, r == UpdateRolledBack);
          if old(faults) == StrandingScript()[5..] {
            StrandedIf(before, plan);
          }
        case Done =>
          r := Finish(plan);
          NotStranded(disk, plan);
      }
      UntouchedTransitive(root, middle, disk.root, plan.operations);
    }

    /** Saving `committed` and clearing the marker; an exception here leaves a journal that recovery completes. */
    method Finish(plan: Plan) returns (r: Result)
      requires Current(disk, plan) && Consistent(disk) && Tried(disk, plan)
      modifies `disk, `faults
      ensures Current(disk, plan) && Consistent(disk) && SameElsewhere(old(disk), disk, plan)
      ensures disk.root == old(disk).root && Tried(disk, plan)
      ensures r in {UpdateApplied, Interrupted}
      ensures r == UpdateApplied ==> disk.pending == None
      ensures old(faults) == [] ==> r == UpdateApplied && faults == []
    {
      hide Sound, AllNew, BackupComplete;
      var o := SavePhase(plan, Committed);
      if o == Done {
        o := ClearPending(plan);
      }
      r := if o == Done then UpdateApplied else Interrupted;
    }

    /**
     * `recover`.  Undisturbed, it succeeds exactly when the journal is still `preparing` or the
     * backup is complete; otherwise the files stay as they are and startup stays blocked.
     */
    method Recover(confirmed: Target) returns (r: Result)
      requires Consistent(disk)
      modifies `disk, `faults, `registered
      ensures Consistent(disk) && disk.current == old(disk).current && disk.highwater == old(disk).highwater
      ensures disk.stages == old(disk).stages && disk.confirmedStage == old(disk).confirmedStage
      ensures !MaintenanceFree(leases, old(registered), settled) ==>
        r in {Busy, Interrupted} && disk == old(disk)
      ensures registered <= old(registered) && old(registered) - registered <= settled
      ensures r in {Busy, Refused} ==> disk.root == old(disk).root && disk.registry == old(disk).registry
      ensures SameLine(InstalledVersion(old(disk).root), InstalledVersion(disk.root))
      ensures old(disk).current == None ==> disk == old(disk) && r in {Busy, Refused, Interrupted}
      ensures old(disk).current.Some? ==>
        var plan := CurrentJournal(old(disk)).value.plan;
        && Current(disk, plan)
        && EachOldOrNew(disk.root, plan.operations) && Untouched(old(disk).root, disk.root, plan.operations)
        && (r == UpdateRolledBack ==> disk.pending == None && Whole(disk.root, plan.oldRecord) && Untried(disk, plan))
        && (r == UpdateApplied ==>
              CurrentJournal(old(disk)).value.phase == Committed
              && disk.pending == None && disk.root == old(disk).root && Tried(disk, plan)
              && Whole(disk.root, NewRecord(plan.oldRecord, plan.target)))
        && (!Recoverable(old(disk)) ==>
              && disk.root == old(disk).root && !Recoverable(disk)
              && (old(disk).pending.Some? ==> disk.pending == old(disk).pending))
      ensures old(faults) == [] && old(disk).current.Some? ==>
        var j := CurrentJournal(old(disk)).value;
        (r in {UpdateApplied, UpdateRolledBack} <==>
          && MaintenanceFree(leases, old(registered), settled)
          && confirmed == j.plan.target && Recoverable(old(disk)))
    {
      hide Consistent, Sound, Untouched, Whole, Untried, Tried, EachOldOrNew, BackupComplete, InstalledVersion;
      ghost var start := disk;
      HasVersion(disk);
      var o := EnterMaintenance();
      ViewOf(disk);
      if o != Done {
        return if o == Raised then Busy else Interrupted;
      }
      o := Read();
      if o != Done {
        return Interrupted;
      }
      var found := CurrentJournal(disk);
      if found == None || confirmed != found.value.plan.target {
        return Refused;
      }
      var j := found.value;
      r := Resume(j.plan, j.phase);
      ViewOf(disk);
      SamePlanSameLine(start, disk, j.plan);
    }

    /** `recover` once the transaction is known and confirmed. */
    method Resume(plan: Plan, phase: Phase) returns (r: Result)
      requires Consistent(disk) && Current(disk, plan) && CurrentJournal(disk).value.phase == phase
      modifies `disk, `faults
      ensures Consistent(disk) && Current(disk, plan) && SameControl(old(disk), disk)
      ensures Untouched(old(disk).root, disk.root, plan.operations)
      ensures r == Refused ==> disk.root == old(disk).root && disk.registry == old(disk).registry
      ensures r in {Refused, UpdateApplied, UpdateRolledBack, RollbackBlocked, Interrupted}
      ensures r == UpdateRolledBack ==> disk.pending == None && Untried(disk, plan)
      ensures r == UpdateApplied ==>
        phase == Committed && disk.pending == None && disk.root == old(disk).root && Tried(disk, plan)
      ensures phase != Preparing && !Saved(old(disk), plan) ==>
        && disk.root == old(disk).root && (old(disk).pending.Some? ==> disk.pending == old(disk).pending)
        && !Saved(disk, plan) && CurrentJournal(disk).value.phase != Preparing
      ensures old(faults) == [] ==>
        (r in {UpdateApplied, UpdateRolledBack} <==> phase == Preparing || Saved(old(disk), plan))
    {
      hide Sound, Untouched, BackupComplete, Whole, TransactionValid, RecoverPrecheck, CommittedIntact;
      UntouchedReflexive(disk.root, plan.operations);
      PrecheckIsSaved(disk, plan, phase);
      if disk.pending == None && !RecoverPrecheck(disk, Journal(plan, phase)) {
        return Refused;
      }
      var o := PublishPending(plan);
      if o != Done {
        return Interrupted;
      }
      if phase == Committed {
        CommittedIsIntact(disk, plan);
        if !TransactionValid(disk, Journal(plan, phase)) || !CommittedIntact(disk, plan) {
          return Refused;
        }
        o := ClearPending(plan);
        r := if o == Done then UpdateApplied else Interrupted;
      } else {
        FitsFallback(disk, plan, phase);
        r := UndoTransaction(plan, phase);
      }
    }

    /** `rollback` of the committed update. */
    method Rollback(confirmed: RollbackTarget) returns (r: Result)
      requires Consistent(disk)
      modifies `disk, `faults, `registered
      ensures Consistent(disk) && disk.current == old(disk).current && disk.highwater == old(disk).highwater
      ensures disk.stages == old(disk).stages && disk.confirmedStage == old(disk).confirmedStage
      ensures !MaintenanceFree(leases, old(registered), settled) ==>
        r in {Busy, Interrupted} && disk == old(disk)
      ensures registered <= old(registered) && old(registered) - registered <= settled
      ensures r in {Busy, Refused} || !MayRollback(old(disk), confirmed) ==> disk == old(disk)
      ensures SameLine(InstalledVersion(old(disk).root), InstalledVersion(disk.root))
      ensures MayRollback(old(disk), confirmed) ==>
        var plan := CurrentJournal(old(disk)).value.plan;
        && Current(disk, plan)
        && EachOldOrNew(disk.root, plan.operations) && Untouched(old(disk).root, disk.root, plan.operations)
        && (r == UpdateRolledBack ==> disk.pending == None && Whole(disk.root, plan.oldRecord) && Untried(disk, plan))
      ensures old(faults) == [] ==> r == Undisturbed(
        MaintenanceFree(leases, old(registered), settled), MayRollback(old(disk), confirmed), UpdateRolledBack)
    {
      hide Consistent, Sound, Untouched, Whole, Untried, EachOldOrNew, BackupComplete, CommittedIntact,
        TransactionValid, InstalledVersion;
      ghost var start := disk;
      HasVersion(disk);
      var o := EnterMaintenance();
      ViewOf(disk);
      if o != Done {
        return if o == Raised then Busy else Interrupted;
      }
      var found := CurrentJournal(disk);
      if disk.pending.Some? || found == None || found.value.phase != Committed
         || confirmed != found.value.plan.rollbackTarget {
        return Refused;
      }
      var plan := found.value.plan;
      CommittedIsIntact(disk, plan);
      if !TransactionValid(disk, found.value) || !CommittedIntact(disk, plan) {
        return Refused;
      }
      o := PublishPending(plan);
      if o != Done {
        r := Interrupted;
      } else {
        FitsFallback(disk, plan, Committed);
        r := UndoTransaction(plan, Committed);
      }
      ViewOf(disk);
      SamePlanSameLine(start, disk, plan);
    }

    /** `stage`: remember the highest version seen, download, validate, and publish the stage. */
    method StageTarget(target: Target, download: Stage) returns (r: Result)
      requires Consistent(disk)
      modifies `disk, `faults
      ensures Consistent(disk) && SameButStages(old(disk), disk) && HighwaterRises(old(disk), disk)
      ensures disk.root == old(disk).root && disk.registry == old(disk).registry
      ensures r in {Refused, UpdateApplied, Interrupted}
      ensures !MayStage(old(disk), target) ==> disk == old(disk)
      ensures r == UpdateApplied ==>
        Staged(disk, target) && disk.confirmedStage == Some(target) && disk.highwater == Some(target)
      ensures Unfit(old(disk).root, target) || Superseded(old(disk), target) ==> r == Refused && disk == old(disk)
      ensures forall t | t in old(disk).stages :: t in disk.stages && disk.stages[t] == old(disk).stages[t]
      ensures old(faults) == [] ==>
        (r == UpdateApplied <==>
          && AtRest(old(disk)) && Installed(old(disk).root)
          && !Unfit(old(disk).root, target) && !Superseded(old(disk), target)
          && StageValid(target, StageFor(old(disk), target, download)))
    {
      hide Consistent, StageValid, Compatible, Installed, Unfit, AtRest;
      var start := disk;
      GuardMeans(disk, target);
      if !MayStage(disk, target) {
        return Refused;
      }
      Unrelated(start, start.(highwater := Some(target)));
      var o := Commit(disk.(highwater := Some(target)));
      if o != Done {
        return Interrupted;
      }
      if target !in disk.stages {
        o := Read();
        if o != Done {
          return Interrupted;
        }
        if !StageValid(target, download) {
          return Refused;
        }
        Unrelated(disk, disk.(stages := disk.stages[target := download]));
        o := Commit(disk.(stages := disk.stages[target := download]));
        if o != Done {
          return Interrupted;
        }
      }
      if !Staged(disk, target) {
        return Refused;
      }
      Unrelated(disk, disk.(confirmedStage := Some(target)));
      o := Commit(disk.(confirmedStage := Some(target)));
      r := if o == Done then UpdateApplied else Interrupted;
    }

    // ---------------------------------------------------------------- runtime processes

    /**
     * What every run keeps: the disk is consistent, a leased installation is not being updated, and every
     * launched session is still registered or settled.
     */
    ghost predicate Good()
      reads this
    {
      && Consistent(disk) && (leases != {} ==> disk.pending == None)
      && launched <= registered + settled && registered <= registrants.Keys
    }

    /** `InstallationLease.acquire`: refused while an update is pending. */
    method AcquireLease(process: nat) returns (held: bool)
      requires Good()
      modifies `leases
      ensures Good() && held == (disk.pending == None)
      ensures leases == old(leases) + if held then {process} else {}
      ensures held ==> Installed(disk.root)
    {
      IncompleteIsBlocked(disk);
      hide Consistent, Installed;
      held := disk.pending == None;
      if held {
        leases := leases + {process};
      }
    }

    /** Leaving, by `close` or by death: the kernel releases the lease. */
    method CloseLease(process: nat)
      requires Good()
      modifies `leases
      ensures Good() && leases == old(leases) - {process}
    {
      leases := leases - {process};
    }

    /**
     * `register`: the entry is written aside and then published under the name of its session, unless that name is
     * taken: an entry is never overwritten, and whoever published first stays its registrant. `other` is a process
     * that publishes the same session meanwhile. It asks for no lease.
     */
    method RegisterSession(process: nat, session: nat, other: Option<nat>, end: PublishEnd)
      returns (registrant: Option<nat>)
      requires registered <= registrants.Keys
      modifies `registered, `registrants
      ensures registered <= registrants.Keys
      ensures forall s | s in old(registered) :: s in registered && registrants[s] == old(registrants)[s]
      ensures registered == old(registered) + if other == None && end == Prepared then {} else {session}
      ensures session !in old(registered) && session in registered ==>
        registrants[session] == if other.Some? then other.value else process
      ensures end == Returned <==> registrant.Some?
      ensures registrant.Some? ==> session in registered && registrant.value == registrants[session]
    {
      if session in registered {
        return if end == Returned then Some(registrants[session]) else None;
      }
      if other.Some? {
        registered, registrants := registered + {session}, registrants[session := other.value];
      }
      if end == Prepared {
        return None;
      }
      if session !in registered {
        registered, registrants := registered + {session}, registrants[session := process];
      }
      registrant := if end == Returned then Some(registrants[session]) else None;
    }

    /** `abandon_unlaunched`: its caller has proof that no process was created for the session. */
    method AbandonUnlaunched(process: nat, session: nat, present: bool) returns (ok: bool)
      requires Good() && session !in launched
      modifies `registered
      ensures Good() && ok == (session in old(registered) && registrants[session] == process && !present)
      ensures registered == old(registered) - if ok then {session} else {}
    {
      hide Consistent;
      ok := session in registered && registrants[session] == process && !present;
      if ok {
        registered := registered - {session};
      }
    }

    /**
     * `_launch_session`: the lease, then the registration, then the process. The launch may be cut short in each;
     * once the process may exist, the session stays registered, whatever becomes of the parent.
     */
    method LaunchSession(process: nat, session: nat, other: Option<nat>, end: LaunchEnd) returns (created: bool)
      requires Good()
      modifies `leases, `registered, `registrants, `launched
      ensures Good() && created == (disk.pending == None && end == HostCreated)
      ensures created ==> process in leases && session in registered && launched == old(launched) + {session}
      ensures !created ==> launched == old(launched)
      ensures disk.pending.Some? ==> leases == old(leases) && registered == old(registered)
      ensures old(registered) <= registered <= old(registered) + {session} && old(leases) <= leases
      ensures forall s | s in old(registered) :: registrants[s] == old(registrants)[s]
    {
      hide Consistent, Installed;
      var held := AcquireLease(process);
      if !held || end == LeaseTaken {
        return false;
      }
      var registrant := RegisterSession(process, session, other, if end.Registering? then end.step else Returned);
      created := end == HostCreated;
      if created {
        launched := launched + {session};
      }
    }

    /** `clear`: a session is unregistered by its runner only when its status check succeeds. */
    method ClearSession(session: nat) returns (ok: bool)
      modifies `registered
      ensures ok == (session in settled)
      ensures registered == old(registered) - if ok then {session} else {}
    {
      ok := session in settled;
      if ok {
        registered := registered - {session};
      }
    }

    /** One step of a run: any operation with any faults, or a step of a runtime process. */
    method Step(command: Command)
      requires Good()
      modifies this
      ensures Good()
      ensures old(leases) != {} || !(old(registered) <= old(settled)) ==>
        && disk.root == old(disk).root && disk.registry == old(disk).registry && disk.pending == old(disk).pending
        && disk.transactions == old(disk).transactions && disk.current == old(disk).current
      ensures old(settled) <= settled && old(registered) - registered <= settled
      ensures forall s | s in old(registered) && s in registered :: registrants[s] == old(registrants)[s]
      ensures HighwaterRises(old(disk), disk)
      ensures Stranded(old(disk)) ==> Stranded(disk) && disk.root == old(disk).root
      ensures VersionKeeps(old(disk).root, disk.root, !TakesBack(command))
    {
      hide Consistent, Sound, Saved, Recoverable, Installed, MayStage, StageValid, Stranded, Unfit, InstalledVersion;
      HasVersion(disk);
      match command {
        case DoAcquireLease(process) => var _ := AcquireLease(process);
        case DoCloseLease(process) => CloseLease(process);
        case DoLaunch(process, session, other, end) => var _ := LaunchSession(process, session, other, end);
        case DoClearSession(session) => var _ := ClearSession(session);
        case EvidenceAppears(session) => settled := settled + {session};
        case DoStage(target, download, script) =>
          faults := script;
          var _ := StageTarget(target, download);
          StagesKeepStranded(old(disk), disk);
        case Maintain(operation, script) => Maintenance(operation, script);
      }
    }

    /** The three maintenance operations with any faults. */
    method Maintenance(operation: MaintenanceOperation, script: seq<Fault>)
      requires Good()
      modifies `disk, `faults, `registered
      ensures Good()
      ensures old(leases) != {} || !(old(registered) <= settled) ==> disk == old(disk)
      ensures registered <= old(registered) && old(registered) - registered <= settled
      ensures disk.highwater == old(disk).highwater
      ensures Stranded(old(disk)) ==> Stranded(disk) && disk.root == old(disk).root
      ensures VersionKeeps(old(disk).root, disk.root, operation.DoApply?)
    {
      hide Consistent, Sound, OldOrNew, Whole, Untouched, EachOldOrNew, Untried, Tried, Recoverable, Unfit, NextPatch,
        InstalledVersion;
      faults := script;
      match operation {
        case DoApply(confirmed, uuid, healthy) => var _ := Apply(confirmed, uuid, healthy);
        case DoRecover(confirmed) => var _ := Recover(confirmed);
        case DoRollback(confirmed) => var _ := Rollback(confirmed);
      }
    }

    /**
     * Any run, with any faults at any steps.  At its end, as at every step: the files are one complete
     * installation or startup is blocked, every operation path is old or new, a leased installation is
     * complete, and every launched session is registered until it is settled.  A stranded update stays
     * stranded: no run of these operations can finish it or take it back.  The installed version never leaves
     * its line, and it falls only through a rollback or a recovery.
     */
    method Run(script: seq<Command>)
      requires Good()
      modifies this
      ensures Good() && (Installed(disk.root) || disk.pending.Some?)
      ensures leases != {} ==> Installed(disk.root)
      ensures disk.current.Some? ==> EachOldOrNew(disk.root, CurrentJournal(disk).value.plan.operations)
      ensures old(registered) - registered <= settled && launched <= registered + settled
      ensures HighwaterRises(old(disk), disk)
      ensures Stranded(old(disk)) ==> Stranded(disk) && disk.root == old(disk).root
      ensures VersionKeeps(old(disk).root, disk.root, forall command | command in script :: !TakesBack(command))
    {
      hide Consistent, Installed, EachOldOrNew, CurrentJournal, Recoverable, TakesBack, InstalledVersion;
      HasVersion(disk);
      for i := 0 to |script|
        invariant VersionKeeps(old(disk).root, disk.root, forall k | 0 <= k < i :: !TakesBack(script[k]))
        invariant Good() && old(registered) - registered <= settled && HighwaterRises(old(disk), disk)
        invariant Stranded(old(disk)) ==> Stranded(disk) && disk.root == old(disk).root
      {
        Step(script[i]);
      }
      IncompleteIsBlocked(disk);
    }
  }

  /** How far a registration comes: the entry is only written aside, published, or read back by its writer. */
  datatype PublishEnd = Prepared | Published | Returned

  /** How far a launch comes before its process dies or raises. */
  datatype LaunchEnd = LeaseTaken | Registering(step: PublishEnd) | HostCreated

  datatype MaintenanceOperation =
    | DoApply(confirmed: Target, uuid: nat, healthy: bool)
    | DoRecover(confirmed: Target)
    | DoRollback(rollback: RollbackTarget)

  datatype Command =
    | DoAcquireLease(process: nat)
    | DoCloseLease(process: nat)
    | DoLaunch(process: nat, session: nat, other: Option<nat>, end: LaunchEnd)
    | DoClearSession(session: nat)
    | EvidenceAppears(session: nat)
    | DoStage(target: Target, download: Stage, script: seq<Fault>)
    | Maintain(operation: MaintenanceOperation, script: seq<Fault>)

  /** The operations that may put the old files back. */
  predicate TakesBack(command: Command) {
    command.Maintain? && (command.operation.DoRecover? || command.operation.DoRollback?)
  }
}
