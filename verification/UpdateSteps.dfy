/** The lemmas behind the steps of the updater: which changes of the disk keep it consistent. */
module UpdateSteps {
  import opened Values
  import opened Transaction
  import opened Consistency

  /** Files are being exchanged one by one, under the pending marker and with a complete backup. */
  ghost predicate InTransition(d: Disk, plan: Plan) {
    && Current(d, plan) && Consistent(d) && Mixed(d, plan)
    && d.transactions[plan.id].journal.value.phase in {Applying, RollingBack}
  }

  predicate SameControl(d: Disk, d': Disk) {
    && d'.current == d.current && d'.stages == d.stages
    && d'.confirmedStage == d.confirmedStage && d'.highwater == d.highwater
  }

  /** In check mode there is no registry value to change. */
  predicate SameBeyond(d: Disk, d': Disk, plan: Plan) {
    SameControl(d, d') && (plan.snapshot == None ==> d'.registry == d.registry)
  }

  /** Only the root, the registry, the marker and this transaction's journal may differ. */
  predicate SameElsewhere(d: Disk, d': Disk, plan: Plan) {
    && plan.id in d.transactions && plan.id in d'.transactions && SameBeyond(d, d', plan)
    && d'.transactions[plan.id].backup == d.transactions[plan.id].backup
  }

  /** The checks of `_rollback` on a transaction that had changed nothing yet. */
  predicate PreparingUnchanged(d: Disk, plan: Plan) {
    && Unchanged(d.root, plan.oldRecord.files)
    && plan.operations != []
    && var marker := plan.operations[|plan.operations| - 1];
       marker.path == Marker && Holds(d.root, Marker, marker.before)
  }

  lemma UntriedIsInstalled(d: Disk, plan: Plan)
    requires Sound(d, plan) && Untried(d, plan)
    ensures Installed(d.root) && PreparingUnchanged(d, plan)
  {
    hide Sound;
    AllOldIsWhole(d, plan);
    SoundDescribes(d, plan);
  }

  /** A transaction past `preparing` passes validation exactly when its backup is complete. */
  lemma ValidityIsSaved(d: Disk, plan: Plan, phase: Phase)
    requires plan.id in d.transactions && Sound(d, plan) && (phase == Preparing ==> Untried(d, plan))
    ensures TransactionValid(d, Journal(plan, phase)) <==> phase == Preparing || Saved(d, plan)
  {
    hide Sound, ValidAgainst, BackupComplete;
    if phase == Preparing {
      AllOldIsWhole(d, plan);
    } else {
      IntactIffValid(d, plan, d.transactions[plan.id].backup);
    }
  }

  lemma RegistryStep(d: Disk, d': Disk, plan: Plan)
    requires InTransition(d, plan) && d' == d.(registry := d'.registry)
    ensures InTransition(d', plan)
  {
    hide Sound, EachOldOrNew, BackupComplete;
    CurrentFrame(d, d', plan);
  }

  /** The old files are being copied; nothing has been changed yet. */
  ghost predicate InPreparation(d: Disk, plan: Plan) {
    && Current(d, plan) && Consistent(d) && Blocked(d, plan) && Untried(d, plan)
    && d.transactions[plan.id].journal.value.phase == Preparing
  }

  function WithBackup(d: Disk, plan: Plan, backup: map<Path, Content>): Disk
    requires plan.id in d.transactions
  {
    d.(transactions := d.transactions[plan.id := d.transactions[plan.id].(backup := backup)])
  }

  lemma BackupStep(d: Disk, plan: Plan, backup: map<Path, Content>)
    requires InPreparation(d, plan)
    ensures InPreparation(WithBackup(d, plan, backup), plan)
  {
    hide Sound, AllOld;
    var d' := WithBackup(d, plan, backup);
    SoundFrame(d, d', plan);
    ConsistentIf(d', plan);
  }

  lemma PreparationPlan(d: Disk, plan: Plan)
    requires InPreparation(d, plan)
    ensures plan.id in d.transactions
    ensures forall i, j | 0 <= i < |plan.operations| && 0 <= j < |plan.operations| && i != j ::
      plan.operations[i].path != plan.operations[j].path
  {
    SoundDescribes(d, plan);
  }

  /** Every update replaces something, at least the marker. */
  lemma SomethingIsOld(d: Disk, plan: Plan)
    requires InPreparation(d, plan)
    ensures exists i :: 0 <= i < |plan.operations| && plan.operations[i].before.Some?
  {
    SoundDescribes(d, plan);
    assert Touches(plan.operations, Marker);
  }

  lemma BackupLoopStep(ops: seq<Operation>, a: map<Path, Content>, b: map<Path, Content>, i: nat)
    requires i < |ops| && ChangedOnlyAt(a, b, ops[i].path)
    requires forall k, l | 0 <= k < |ops| && 0 <= l < |ops| && k != l :: ops[k].path != ops[l].path
    ensures forall k | 0 <= k < |ops| && k != i :: ops[k].path in b <==> ops[k].path in a
    ensures forall k | 0 <= k < |ops| && k != i ::
      Holds(a, ops[k].path, ops[k].before) <==> Holds(b, ops[k].path, ops[k].before)
  {
    forall k | 0 <= k < |ops| && k != i ensures SameAt(a, b, ops[k].path) {
    }
  }

  /** Where `apply` takes the new content of a path from. */
  function Source(d: Disk, plan: Plan, path: Path): Option<Content>
    requires plan.id in d.transactions
  {
    if plan.target !in d.stages then None
    else if path == Uninstaller then Some(d.stages[plan.target].installer)
    else if path == Marker then d.transactions[plan.id].newMarker
    else if path in d.stages[plan.target].files then Some(d.stages[plan.target].files[path])
    else None
  }

  lemma AfterIsNewFact(d: Disk, plan: Plan, i: nat)
    requires Sound(d, plan) && i < |plan.operations|
    ensures plan.operations[i].after == Lookup(NewFacts(plan), plan.operations[i].path)
  {
    hide Sound, Operations, NewFacts;
    SoundDescribes(d, plan);
  }

  lemma SourceMatches(d: Disk, plan: Plan, i: nat)
    requires plan.id in d.transactions && Sound(d, plan) && i < |plan.operations|
    requires plan.operations[i].after.Some?
    ensures Source(d, plan, plan.operations[i].path).Some?
    ensures Sha256(Source(d, plan, plan.operations[i].path).value) == plan.operations[i].after.value
  {
    hide Operations, OperationsOn, Names, FactsOf, Compatible, SnapshotValid;
    var path := plan.operations[i].path;
    AfterIsNewFact(d, plan, i);
    if path.Payload? {
      assert path in plan.target.files;
      assert Holds(d.stages[plan.target].files, path, Some(plan.target.files[path]));
    }
  }

  predicate ChangedOnlyAt(a: map<Path, Content>, b: map<Path, Content>, path: Path) {
    forall p | p in a.Keys + b.Keys && p != path :: SameAt(a, b, p)
  }

  lemma UntouchedReflexive(a: map<Path, Content>, ops: seq<Operation>)
    ensures Untouched(a, a, ops)
  {
  }

  /** One file of operation i becomes old or new, the others stay. */
  lemma RootStep(d: Disk, root: map<Path, Content>, plan: Plan, i: nat)
    requires InTransition(d, plan) && i < |plan.operations|
    requires ChangedOnlyAt(d.root, root, plan.operations[i].path)
    requires Holds(root, plan.operations[i].path, plan.operations[i].before)
          || Holds(root, plan.operations[i].path, plan.operations[i].after)
    ensures InTransition(d.(root := root), plan)
  {
    var d', ops := d.(root := root), plan.operations;
    hide Sound, EachOldOrNew, BackupComplete, AllOld, AllNew, Holds, ChangedOnlyAt;
    assert EachOldOrNew(root, ops) by {
      SoundDescribes(d, plan);
      EachStep(d.root, root, ops, i);
    }
    assert Mixed(d', plan);
    CurrentFrame(d, d', plan);
  }

  lemma EachStep(a: map<Path, Content>, b: map<Path, Content>, ops: seq<Operation>, i: nat)
    requires EachOldOrNew(a, ops) && i < |ops| && ChangedOnlyAt(a, b, ops[i].path)
    requires forall k | 0 <= k < |ops| && k != i :: ops[k].path != ops[i].path
    requires Holds(b, ops[i].path, ops[i].before) || Holds(b, ops[i].path, ops[i].after)
    ensures EachOldOrNew(b, ops)
  {
    forall k | 0 <= k < |ops| ensures Holds(b, ops[k].path, ops[k].before) || Holds(b, ops[k].path, ops[k].after) {
      if k != i {
        assert SameAt(a, b, ops[k].path);
      }
    }
  }

  lemma TransitionStep(d: Disk, plan: Plan, start: map<Path, Content>, before: map<Path, Content>, i: nat)
    requires InTransition(d, plan) && i < |plan.operations|
    requires Untouched(start, before, plan.operations)
    requires ChangedOnlyAt(before, d.root, plan.operations[i].path)
    ensures Untouched(start, d.root, plan.operations)
    ensures forall k | 0 <= k < |plan.operations| && k != i ::
      && (Holds(before, plan.operations[k].path, plan.operations[k].before)
          <==> Holds(d.root, plan.operations[k].path, plan.operations[k].before))
      && (Holds(before, plan.operations[k].path, plan.operations[k].after)
          <==> Holds(d.root, plan.operations[k].path, plan.operations[k].after))
  {
    var ops := plan.operations;
    SoundDescribes(d, plan);
    hide Sound, Consistent, Mixed;
    forall p | p != ops[i].path ensures SameAt(before, d.root, p) {
    }
    OneChange(before, d.root, ops, i);
    UntouchedTransitive(start, before, d.root, ops);
  }

  lemma PublishFits(d: Disk, d': Disk, plan: Plan)
    requires Current(d, plan) && Consistent(d) && d.pending == None
    requires d' == d.(pending := Some(Pending(plan.id, plan.target)))
    ensures Current(d', plan) && Consistent(d')
  {
    hide Sound, EachOldOrNew, AllOld, AllNew, BackupComplete;
    CurrentFrame(d, d', plan);
  }

  lemma ClearFits(d: Disk, d': Disk, plan: Plan)
    requires Current(d, plan) && Consistent(d) && d' == d.(pending := None)
    requires d.transactions[plan.id].journal.value.phase in {Committed, RolledBack}
    ensures Current(d', plan) && Consistent(d')
  {
    hide Sound, EachOldOrNew, AllOld, AllNew, BackupComplete;
    CurrentFrame(d, d', plan);
  }

  // ------------------------------------------------------------------ guards

  /** No runtime holds a lease and every registered session has settlement evidence. */
  predicate MaintenanceFree(leases: set<nat>, registered: set<nat>, settled: set<nat>) {
    leases == {} && registered <= settled
  }

  /** `_highwater(target, save=False)` */
  predicate HighwaterAllows(d: Disk, target: Target) {
    match d.highwater
    case None => true
    case Some(high) => !high.version.NewerThan(target.version) && (target.version == high.version ==> target == high)
  }

  /** The checks of `apply` before it writes anything. */
  predicate MayApply(d: Disk, confirmed: Target) {
    && d.pending == None
    && (d.current == None || (CurrentJournal(d).Some? && CurrentJournal(d).value.phase in {Committed, RolledBack}))
    && d.confirmedStage == Some(confirmed) && Staged(d, confirmed)
    && Installed(d.root)
    && var record := ReadRecord(d.root).value;
       && Compatible(record, confirmed) && HighwaterAllows(d, confirmed)
       && (forall p | p in NewRecord(record, confirmed).files :: p in d.root ==> p in record.files)
       && (record.normal ==> d.registry.version == record.version)
  }

  /** The checks of `stage` before it writes anything. */
  predicate MayStage(d: Disk, target: Target) {
    && d.pending == None
    && (d.current == None || (CurrentJournal(d).Some? && CurrentJournal(d).value.phase in {Committed, RolledBack}))
    && Installed(d.root) && Compatible(ReadRecord(d.root).value, target) && HighwaterAllows(d, target)
  }

  /** What `stage` validates: the stage that is already there, else the download. */
  function StageFor(d: Disk, target: Target, download: Stage): Stage {
    if target in d.stages then d.stages[target] else download
  }

  /** Only the stages and the highest version seen may differ. */
  predicate SameButStages(d: Disk, d': Disk) {
    && d'.root == d.root && d'.registry == d.registry && d'.pending == d.pending
    && d'.transactions == d.transactions && d'.current == d.current
  }

  /** A stranded update stays stranded when targets are staged. */
  lemma StagesKeepStranded(d: Disk, d': Disk)
    requires SameButStages(d, d') && Consistent(d')
    ensures Stranded(d) ==> Stranded(d')
  {
    hide Consistent;
  }

  /** A later version has been seen, or this version with other content. */
  ghost predicate Superseded(d: Disk, target: Target) {
    && d.highwater.Some?
    && var seen, next := d.highwater.value.version, target.version;
    || seen.major > next.major
    || (seen.major == next.major && (seen.minor > next.minor || (seen.minor == next.minor && seen.patch > next.patch)))
    || (seen == next && d.highwater.value != target)
  }

  /** The remembered version never falls, and at the same version it names the same target. */
  ghost predicate HighwaterRises(d: Disk, d': Disk) {
    d.highwater.Some? ==> d'.highwater.Some? && !Superseded(d, d'.highwater.value)
  }

  /** The checks of `rollback` before it writes anything; the integrity checks follow from consistency. */
  predicate MayRollback(d: Disk, confirmed: RollbackTarget) {
    && d.pending == None && CurrentJournal(d).Some?
    && CurrentJournal(d).value.phase == Committed
    && confirmed == CurrentJournal(d).value.plan.rollbackTarget
  }

  /** The installed files and record are those of the committed update. */
  predicate CommittedIntact(d: Disk, plan: Plan) {
    && Installed(d.root)
    && plan.id in d.transactions && d.transactions[plan.id].newMarker.Some?
    && d.transactions[plan.id].newMarker.value.RecordFile?
    && ReadRecord(d.root).value == d.transactions[plan.id].newMarker.value.record
    && RegistryNew(d, plan)
  }

  /** What `recover` checks when the pending marker is missing. */
  predicate RecoverPrecheck(d: Disk, j: Journal) {
    && TransactionValid(d, j)
    && if j.phase == Committed then CommittedIntact(d, j.plan)
       else forall i | 0 <= i < |j.plan.operations| ::
         var op := j.plan.operations[i];
         || op.path !in d.root
         || (op.before.Some? && Holds(d.root, op.path, op.before))
         || (op.after.Some? && Holds(d.root, op.path, op.after))
  }

  // ------------------------------------------------------------------ creating a transaction

  function MakePlan(d: Disk, confirmed: Target, uuid: nat): Plan
    requires MayApply(d, confirmed)
  {
    var record := ReadRecord(d.root).value;
    var prior := OldFacts(d.root, record);
    Plan(uuid, confirmed, confirmed.version, RollbackTarget(record.version, prior), record,
         if record.normal then Some(d.registry) else None,
         Operations(prior, NewFactsFor(record, confirmed)))
  }

  /** A plan that matches the installed files and whose directory does not exist yet. */
  ghost predicate FreshPlan(d: Disk, plan: Plan) {
    && plan.id !in d.transactions && d.pending == None
    && Sound(PreparedMarker(d, plan), plan)
    && Untried(d, plan)
  }

  function PreparedDirectory(d: Disk, plan: Plan): Disk {
    d.(transactions := d.transactions[plan.id := TransactionDirectory(None, None, map[])])
  }

  function PreparedMarker(d: Disk, plan: Plan): Disk {
    d.(transactions := d.transactions[plan.id := TransactionDirectory(None, Some(NewMarker(plan)), map[])])
  }

  lemma MadePlanIsFresh(d: Disk, confirmed: Target, uuid: nat)
    requires MayApply(d, confirmed) && uuid !in d.transactions
    ensures FreshPlan(d, MakePlan(d, confirmed, uuid))
  {
    var plan := MakePlan(d, confirmed, uuid);
    var record, prior := plan.oldRecord, plan.rollbackTarget.files;
    var d' := PreparedMarker(d, plan);
    assert FactsOf(prior, record) by {
      assert Marker !in record.files;
    }
    assert FrozenFactsValid(d', plan);
    assert Sound(d', plan);
    MadePlanIsUntried(d', confirmed, plan);
  }

  lemma MadePlanIsUntried(d: Disk, confirmed: Target, plan: Plan)
    requires Sound(d, plan) && plan.target == confirmed && ReadRecord(d.root) == Some(plan.oldRecord)
    requires Unchanged(d.root, plan.oldRecord.files)
    requires plan.rollbackTarget.files == OldFacts(d.root, plan.oldRecord)
    requires forall p | p in NewRecord(plan.oldRecord, confirmed).files :: p in d.root ==> p in plan.oldRecord.files
    ensures AllOld(d.root, plan.operations)
  {
    SoundDescribes(d, plan);
    hide Sound, Operations;
    DescribedIsOld(plan.operations, plan.rollbackTarget.files, NewFacts(plan), d.root);
  }

  lemma DescribedIsOld(ops: seq<Operation>, prior: map<Path, Digest>, next: map<Path, Digest>,
                       root: map<Path, Content>)
    requires Describes(ops, prior, next) && Unchanged(root, prior)
    requires forall p | p in next :: p in root ==> p in prior
    ensures AllOld(root, ops)
  {
    forall i | 0 <= i < |ops| ensures Holds(root, ops[i].path, ops[i].before) {
      if ops[i].path in prior {
        assert Holds(root, ops[i].path, Some(prior[ops[i].path]));
      }
    }
  }

  function PreparedJournal(d: Disk, plan: Plan): Disk {
    d.(transactions := d.transactions[
         plan.id := TransactionDirectory(Some(Journal(plan, Preparing)), Some(NewMarker(plan)), map[])])
  }

  function PreparedPointer(d: Disk, plan: Plan): Disk {
    PreparedJournal(d, plan).(current := Some(plan.id))
  }

  /** Each step towards the prepared transaction leaves a consistent disk. */
  lemma PrepareSteps(d: Disk, plan: Plan)
    requires Consistent(d) && FreshPlan(d, plan)
    ensures Consistent(PreparedDirectory(d, plan)) && Consistent(PreparedMarker(d, plan))
    ensures Consistent(PreparedJournal(d, plan))
    ensures Current(PreparedPointer(d, plan), plan) && Consistent(PreparedPointer(d, plan))
    ensures InPreparation(PreparedPointer(d, plan).(pending := Some(Pending(plan.id, plan.target))), plan)
  {
    hide Sound, AllOld, PhaseFits;
    assert d.current != Some(plan.id) by {
      assert d.current.Some? ==> CurrentJournal(d).Some?;
    }
    Unrelated(d, PreparedDirectory(d, plan));
    Unrelated(d, PreparedMarker(d, plan));
    Unrelated(d, PreparedJournal(d, plan));
    PointerSteps(d, plan);
  }

  /** An interrupted preparation has no marker yet, or is still `preparing`. */
  lemma PreparedIsNotStranded(d: Disk, plan: Plan)
    requires FreshPlan(d, plan)
    ensures !Stranded(d) && !Stranded(PreparedDirectory(d, plan)) && !Stranded(PreparedMarker(d, plan))
    ensures !Stranded(PreparedJournal(d, plan)) && !Stranded(PreparedPointer(d, plan))
    ensures !Stranded(PreparedPointer(d, plan).(pending := Some(Pending(plan.id, plan.target))))
  {
    hide Sound, Untried, Consistent;
  }

  /** A backed up, unblocked or still preparing update is not stranded. */
  lemma NotStranded(d: Disk, plan: Plan)
    requires Current(d, plan)
    requires d.pending == None || Saved(d, plan) || d.transactions[plan.id].journal.value.phase == Preparing
    ensures !Stranded(d)
  {
    hide Sound, Consistent, Saved;
  }

  lemma SavedFrame(d: Disk, d': Disk, plan: Plan)
    requires SameElsewhere(d, d', plan)
    ensures Saved(d', plan) <==> Saved(d, plan)
  {
  }

  /** `rolled_back` was saved before any copy was made, and the marker is still there. */
  lemma StrandedIf(d: Disk, plan: Plan)
    requires InPreparation(d, plan) && d.transactions[plan.id].backup == map[]
    requires Consistent(SaveJournal(d, Journal(plan, RolledBack)))
    ensures Stranded(SaveJournal(d, Journal(plan, RolledBack)))
  {
    var stranded := SaveJournal(d, Journal(plan, RolledBack));
    SomethingIsOld(d, plan);
    assert plan.id in stranded.transactions && stranded.transactions[plan.id].backup == map[];
    NothingIsSaved(stranded, plan);
    hide Sound, Untried, Consistent, Saved;
    assert CurrentJournal(stranded) == Some(Journal(plan, RolledBack));
  }

  lemma NothingIsSaved(d: Disk, plan: Plan)
    requires plan.id in d.transactions && d.transactions[plan.id].backup == map[]
    requires exists i :: 0 <= i < |plan.operations| && plan.operations[i].before.Some?
    ensures !Saved(d, plan)
  {
    var i :| 0 <= i < |plan.operations| && plan.operations[i].before.Some?;
    assert !Holds(map[], plan.operations[i].path, plan.operations[i].before);
  }

  lemma PreparedIsElsewhere(d: Disk, plan: Plan)
    requires FreshPlan(d, plan)
    ensures SameInstallation(d, PreparedDirectory(d, plan)) && SameInstallation(d, PreparedMarker(d, plan))
    ensures SameInstallation(d, PreparedJournal(d, plan)) && SameInstallation(d, PreparedPointer(d, plan))
    ensures var last := PreparedPointer(d, plan);
      var blocked := last.(pending := Some(Pending(plan.id, plan.target)));
      && last.pending == None && SameInstallation(d, blocked)
      && plan.id in blocked.transactions && blocked.transactions[plan.id].backup == map[]
    ensures SameInstallation(d, d)
  {
    hide Sound, Untried;
  }

  lemma PointerSteps(d: Disk, plan: Plan)
    requires FreshPlan(d, plan)
    ensures Current(PreparedPointer(d, plan), plan) && Consistent(PreparedPointer(d, plan))
    ensures InPreparation(PreparedPointer(d, plan).(pending := Some(Pending(plan.id, plan.target))), plan)
  {
    hide Sound, AllOld;
    var d4 := PreparedPointer(d, plan);
    var d5 := d4.(pending := Some(Pending(plan.id, plan.target)));
    SoundFrame(PreparedMarker(d, plan), d4, plan);
    SoundFrame(PreparedMarker(d, plan), d5, plan);
    ConsistentIf(d4, plan);
    ConsistentIf(d5, plan);
  }

  // ------------------------------------------------------------------ the installed version

  /** The version in the installation record, whatever else is installed. */
  function InstalledVersion(dir: map<Path, Content>): Option<Version> {
    if Marker in dir && dir[Marker].RecordFile? then Some(dir[Marker].record.version) else None
  }

  /** The same release line, whatever the patch. */
  predicate SameLine(a: Option<Version>, b: Option<Version>) {
    a.Some? && b.Some? && a.value.major == b.value.major && a.value.minor == b.value.minor
  }

  /** The version stays in its line, and with `rising` it does not fall. */
  predicate VersionKeeps(a: map<Path, Content>, b: map<Path, Content>, rising: bool) {
    && SameLine(InstalledVersion(a), InstalledVersion(b))
    && (rising ==> InstalledVersion(b).value.patch >= InstalledVersion(a).value.patch)
  }

  /** Wherever an update was cut short, the record is the old or the new one, of the same line. */
  lemma VersionOfPlan(d: Disk, plan: Plan)
    requires Sound(d, plan) && EachOldOrNew(d.root, plan.operations)
    ensures InstalledVersion(d.root) in {Some(plan.oldRecord.version), Some(plan.target.version)}
    ensures plan.target.version.major == plan.oldRecord.version.major
    ensures plan.target.version.minor == plan.oldRecord.version.minor
    ensures plan.target.version.patch > plan.oldRecord.version.patch
  {
    SoundDescribes(d, plan);
    CompatibleMeans(plan.oldRecord, plan.target);
    var last := |plan.operations| - 1;
    var before, after := plan.operations[last].before, plan.operations[last].after;
    assert before == Some(plan.rollbackTarget.files[Marker]) && after == Some(Sha256(NewMarker(plan))) by {
      hide Compatible, Operations;
    }
    hide Compatible, Operations, Describes;
    assert Holds(d.root, Marker, before) || Holds(d.root, Marker, after);
  }

  /** An installation always has a version. */
  lemma HasVersion(d: Disk)
    requires Consistent(d)
    ensures InstalledVersion(d.root).Some?
  {
    if d.current.Some? {
      var plan := CurrentJournal(d).value.plan;
      IncompleteIsBlocked(d);
      hide EachOldOrNew, PhaseFits, Sound;
      VersionOfPlan(d, plan);
    }
  }

  /** Between two disks with the same transaction the line stays. */
  lemma SamePlanSameLine(d: Disk, d': Disk, plan: Plan)
    requires Sound(d, plan) && EachOldOrNew(d.root, plan.operations)
    requires Sound(d', plan) && EachOldOrNew(d'.root, plan.operations)
    ensures SameLine(InstalledVersion(d.root), InstalledVersion(d'.root))
  {
    hide Sound, EachOldOrNew, InstalledVersion;
    VersionOfPlan(d, plan);
    VersionOfPlan(d', plan);
  }

  // ------------------------------------------------------------------ what the outcomes mean

  /** Files, registry and stages are untouched. */
  predicate SameInstallation(d: Disk, d': Disk) {
    && d'.root == d.root && d'.registry == d.registry && d'.stages == d.stages
    && d'.confirmedStage == d.confirmedStage && d'.highwater == d.highwater
  }

  /** Every path is as it was, or belongs to the old or the new manifest and holds its new fact. */
  ghost predicate OldOrNew(a: map<Path, Content>, b: map<Path, Content>, record: Record, target: Target) {
    var next := NewFactsFor(record, target);
    forall p ::
      || SameAt(a, b, p)
      || ((p in record.files || p in next) && Holds(b, p, Lookup(next, p)))
  }

  lemma OldOrNewReflexive(a: map<Path, Content>, record: Record, target: Target)
    ensures OldOrNew(a, a, record, target)
  {
    forall p ensures SameAt(a, a, p) {
    }
  }

  lemma StartView(d: Disk, confirmed: Target)
    ensures MayApply(d, confirmed) ==>
      ReadRecord(d.root).Some? && OldOrNew(d.root, d.root, ReadRecord(d.root).value, confirmed)
  {
    if MayApply(d, confirmed) {
      OldOrNewReflexive(d.root, ReadRecord(d.root).value, confirmed);
    }
  }

  lemma AtomicView(a: map<Path, Content>, d: Disk, plan: Plan)
    requires Sound(d, plan) && AllOld(a, plan.operations) && EachOldOrNew(d.root, plan.operations)
    requires Untouched(a, d.root, plan.operations)
    ensures OldOrNew(a, d.root, plan.oldRecord, plan.target)
  {
    var ops, prior, next := plan.operations, plan.rollbackTarget.files, NewFacts(plan);
    SoundDescribes(d, plan);
    assert FactsOf(prior, plan.oldRecord);
    hide Sound, Operations;
    forall p ensures
      || SameAt(a, d.root, p)
      || ((p in plan.oldRecord.files || p in next) && Holds(d.root, p, Lookup(next, p)))
    {
      if Touches(ops, p) {
        var i :| 0 <= i < |ops| && ops[i].path == p;
        assert Holds(a, ops[i].path, ops[i].before);
        assert ops[i].after == Lookup(next, p) && ops[i].before == Lookup(prior, p);
        if !Holds(d.root, ops[i].path, ops[i].after) {
          assert SameAt(a, d.root, p);
        }
      }
    }
  }

  /** The end of `apply`, seen from its start. */
  lemma AppliedView(start: Disk, d: Disk, plan: Plan, confirmed: Target, uuid: nat)
    requires MayApply(start, confirmed) && plan == MakePlan(start, confirmed, uuid) && Untried(start, plan)
    requires Current(d, plan) && Consistent(d) && SameBeyond(start.(current := d.current), d, plan)
    requires Untouched(start.root, d.root, plan.operations)
    ensures OldOrNew(start.root, d.root, ReadRecord(start.root).value, confirmed)
    ensures Untried(d, plan) ==> d.root == start.root && d.registry == start.registry
    ensures Tried(d, plan) ==>
      && Whole(d.root, NewRecord(ReadRecord(start.root).value, confirmed))
      && (ReadRecord(start.root).value.normal ==> d.registry.version == confirmed.version)
  {
    IncompleteIsBlocked(d);
    hide Sound, AllOld, AllNew, EachOldOrNew, Untouched, PhaseFits, Whole, OldOrNew;
    AtomicView(start.root, d, plan);
    if Untried(d, plan) {
      SameRoot(start.root, d.root, plan.operations);
    }
    if Tried(d, plan) {
      AllNewIsWhole(d, plan);
    }
  }

  /** Configuration and dependency files never change, and the recorded version only rises within its line. */
  ghost predicate StaysCompatible(a: map<Path, Content>, b: map<Path, Content>) {
    && (forall name | Kept(name) :: SameAt(a, b, Payload(name)))
    && SameLine(InstalledVersion(a), InstalledVersion(b))
    && InstalledVersion(b).value.patch >= InstalledVersion(a).value.patch
  }

  /** The guard of `apply`, read off the record of the installation. */
  lemma MayApplyIsNext(d: Disk, confirmed: Target)
    requires MayApply(d, confirmed)
    ensures var record := ReadRecord(d.root).value;
      && Installed(d.root) && Compatible(record, confirmed) && Marker in d.root && d.root[Marker].RecordFile?
      && d.root[Marker].record == record
  {
    hide Compatible, StageValid;
  }

  lemma ViewStaysCompatible(a: map<Path, Content>, b: map<Path, Content>, record: Record, target: Target)
    requires Installed(a) && ReadRecord(a) == Some(record) && Compatible(record, target)
    requires OldOrNew(a, b, record, target)
    ensures StaysCompatible(a, b)
    ensures Whole(b, NewRecord(record, target)) ==>
      InstalledVersion(a) == Some(record.version) && InstalledVersion(b) == Some(target.version)
  {
    CompatibleMeans(record, target);
    hide Compatible, Frozen;
    var next := NewFactsFor(record, target);
    forall name | Kept(name) ensures SameAt(a, b, Payload(name)) {
      var p := Payload(name);
      assert Lookup(next, p) == Lookup(target.files, p) == Lookup(record.files, p);
      assert p in record.files ==> Holds(a, p, Some(record.files[p]));
    }
    assert SameAt(a, b, Marker) || Holds(b, Marker, Lookup(next, Marker));
  }

  /** A target that is not a later patch of the installed line, or that changes what a patch may not change. */
  ghost predicate Unfit(root: map<Path, Content>, target: Target) {
    && ReadRecord(root).Some?
    && var record := ReadRecord(root).value;
    || target.version.major != record.version.major || target.version.minor != record.version.minor
    || target.version.patch <= record.version.patch || target.contract != 1
    || Payload("scripts/update_runtime.py") !in record.files || Payload("app/runtime_update.py") !in record.files
    || Payload("app/runtime_lifecycle.py") !in record.files || Payload("app/runtime_task_ledger.py") !in record.files
    || Payload("pyproject.toml") !in record.files || Payload("uv.lock") !in record.files
    || (forall name: string | "requirements/" <= name :: Payload(name) !in record.files)
    || exists name :: Kept(name) && Lookup(record.files, Payload(name)) != Lookup(target.files, Payload(name))
  }

  /** No update is under way: there was none, or its journal says how it ended. */
  ghost predicate AtRest(d: Disk) {
    && d.pending == None
    && (d.current.Some? ==>
      && d.current.value in d.transactions && d.transactions[d.current.value].journal.Some?
      && d.transactions[d.current.value].journal.value.phase in {Committed, RolledBack})
  }

  /** Before an update that was applied: the confirmed stage is complete, and no foreign file is in its way. */
  ghost predicate ReadyFor(d: Disk, confirmed: Target) {
    && AtRest(d) && d.confirmedStage == Some(confirmed) && confirmed in d.stages && ReadRecord(d.root).Some?
    && var stage, record := d.stages[confirmed], ReadRecord(d.root).value;
    && Sha256(stage.installer) == confirmed.installer
    && (forall p | p in confirmed.files :: p.Payload? && Holds(stage.files, p, Some(confirmed.files[p])))
    && (forall p | p in d.root && (p in confirmed.files || p == Uninstaller) :: p in record.files)
    && (record.normal ==> d.registry.version == record.version)
  }

  lemma GuardMeans(d: Disk, target: Target)
    ensures HighwaterAllows(d, target) <==> !Superseded(d, target)
    ensures MayApply(d, target) ==> ReadyFor(d, target) && !Superseded(d, target)
    ensures MayStage(d, target) <==>
      AtRest(d) && Installed(d.root) && !Unfit(d.root, target) && !Superseded(d, target)
  {
    UnfitIsRefused(d, target);
    assert MayApply(d, target) ==> ReadyFor(d, target) by {
      hide Compatible, Frozen, Superseded, HighwaterAllows, Unfit;
    }
    hide Compatible, Frozen, Unfit;
  }

  lemma UnfitIsRefused(d: Disk, target: Target)
    ensures ReadRecord(d.root).Some? ==> (Unfit(d.root, target) <==> !Compatible(ReadRecord(d.root).value, target))
    ensures Unfit(d.root, target) ==> !MayApply(d, target) && !MayStage(d, target)
  {
    if ReadRecord(d.root).Some? {
      CompatibleMeans(ReadRecord(d.root).value, target);
    }
    hide Compatible, Frozen, ReadRecord;
  }

  lemma NothingChanges(d: Disk)
    requires Consistent(d)
    ensures StaysCompatible(d.root, d.root)
  {
    HasVersion(d);
    hide Consistent;
  }

  /** An applied target: a later patch of the line, taken by an installation that has all files of the updater. */
  ghost predicate NextPatch(a: map<Path, Content>, b: map<Path, Content>, target: Target) {
    && ReadRecord(a).Some? && ReadRecord(b).Some?
    && var before, after := ReadRecord(a).value, ReadRecord(b).value;
    && after.version == target.version && target.contract == 1
    && after.version.major == before.version.major && after.version.minor == before.version.minor
    && after.version.patch > before.version.patch
    && (forall name | name in {"scripts/update_runtime.py", "app/runtime_update.py", "app/runtime_lifecycle.py",
          "app/runtime_task_ledger.py", "pyproject.toml", "uv.lock"} :: Payload(name) in before.files)
    && exists name: string :: "requirements/" <= name && Payload(name) in before.files
  }

  lemma WholeIsNext(a: map<Path, Content>, b: map<Path, Content>, record: Record, target: Target)
    requires ReadRecord(a) == Some(record) && Compatible(record, target) && Whole(b, NewRecord(record, target))
    ensures NextPatch(a, b, target)
  {
    CompatibleMeans(record, target);
    assert ReadRecord(b) == Some(NewRecord(record, target));
    hide Compatible, ReadRecord, Whole;
  }

  /** The end of `apply`: the kept files are the same, and an applied target is a later patch. */
  lemma AppliedIsNext(start: Disk, d: Disk, confirmed: Target)
    requires MayApply(start, confirmed) && OldOrNew(start.root, d.root, ReadRecord(start.root).value, confirmed)
    ensures StaysCompatible(start.root, d.root)
    ensures Whole(d.root, NewRecord(ReadRecord(start.root).value, confirmed)) ==>
      NextPatch(start.root, d.root, confirmed)
  {
    MayApplyIsNext(start, confirmed);
    hide *;
    var record := ReadRecord(start.root).value;
    ViewStaysCompatible(start.root, d.root, record, confirmed);
    if Whole(d.root, NewRecord(record, confirmed)) {
      WholeIsNext(start.root, d.root, record, confirmed);
    }
  }

  /** What a consistent disk says about its current transaction. */
  lemma ViewOf(d: Disk)
    requires Consistent(d)
    ensures d.current.Some? ==>
      && CurrentJournal(d).Some?
      && var plan := CurrentJournal(d).value.plan;
      && Current(d, plan) && PhaseFits(d, plan, CurrentJournal(d).value.phase)
      && EachOldOrNew(d.root, plan.operations) && Untouched(d.root, d.root, plan.operations)
      && (Untried(d, plan) ==> Whole(d.root, plan.oldRecord))
      && (Tried(d, plan) ==> Whole(d.root, NewRecord(plan.oldRecord, plan.target)))
  {
    IncompleteIsBlocked(d);
    hide Sound, AllOld, AllNew, EachOldOrNew, PhaseFits, Whole;
    if d.current.Some? {
      var plan := CurrentJournal(d).value.plan;
      if Untried(d, plan) {
        AllOldIsWhole(d, plan);
      }
      if Tried(d, plan) {
        AllNewIsWhole(d, plan);
      }
    }
  }

  /** Behind the marker, every phase allows a rollback. */
  lemma FitsFallback(d: Disk, plan: Plan, phase: Phase)
    requires plan.id in d.transactions && Blocked(d, plan) && PhaseFits(d, plan, phase)
    ensures PhaseFits(d, plan, RollbackFailed) && (phase == Preparing ==> Untried(d, plan))
    ensures phase == Committed ==> Tried(d, plan) && Saved(d, plan)
  {
  }

  lemma CommittedIsIntact(d: Disk, plan: Plan)
    requires Current(d, plan) && Tried(d, plan)
    ensures CommittedIntact(d, plan) && TransactionValid(d, Journal(plan, Committed))
  {
    ValidityIsSaved(d, plan, Committed);
    AllNewIsWhole(d, plan);
    assert d.transactions[plan.id].newMarker == Some(NewMarker(plan));
    hide Sound, TransactionValid;
  }

  /** Without the marker, recovery's own checks accept exactly the recoverable transactions. */
  lemma PrecheckIsSaved(d: Disk, plan: Plan, phase: Phase)
    requires Current(d, plan) && PhaseFits(d, plan, phase)
    ensures RecoverPrecheck(d, Journal(plan, phase)) <==> phase == Preparing || Saved(d, plan)
  {
    ValidityIsSaved(d, plan, phase);
    UnblockedIsComplete(d, plan, phase);
    if phase == Committed {
      CommittedIsIntact(d, plan);
    }
    hide Sound, TransactionValid, Saved, CommittedIntact;
  }
}
