/**
 * Recovery does not always succeed.  Rolling back a transaction that was still `preparing` saves
 * `rolled_back` before the pending marker is cleared.  A crash between the two leaves a journal that
 * the next recovery validates against a backup that was never completed.
 */
module RecoveryLimits {
  import opened Values
  import opened Transaction
  import opened Consistency
  import opened UpdateSteps

  /** The disk right after `rolled_back` was saved for a transaction whose backup had only reached `backup`. */
  function Window(d: Disk, plan: Plan, backup: map<Path, Content>): Disk {
    d.(transactions := d.transactions[
         plan.id := TransactionDirectory(Some(Journal(plan, RolledBack)), Some(NewMarker(plan)), backup)],
       current := Some(plan.id), pending := Some(Pending(plan.id, plan.target)))
  }

  lemma WindowOf(d: Disk, plan: Plan, backup: map<Path, Content>)
    requires FreshPlan(d, plan)
    ensures var stuck := Window(d, plan, backup);
      && Consistent(stuck) && Whole(stuck.root, plan.oldRecord)
      && (Recoverable(stuck) <==> BackupComplete(backup, plan.operations))
  {
    hide Sound, AllOld, BackupComplete, Whole;
    var stuck := Window(d, plan, backup);
    SoundFrame(PreparedMarker(d, plan), stuck, plan);
    ConsistentIf(stuck, plan);
    AllOldIsWhole(stuck, plan);
  }

  /**
   * The window exists for every installation and every update: the disk is consistent and the files are
   * the old ones, but the update is stranded exactly when a backup copy is missing or incomplete.
   */
  lemma StuckWindow(d: Disk, confirmed: Target, uuid: nat, backup: map<Path, Content>)
    requires MayApply(d, confirmed) && uuid !in d.transactions
    ensures var plan := MakePlan(d, confirmed, uuid);
      var stuck := Window(d, plan, backup);
      && Consistent(stuck) && Whole(stuck.root, plan.oldRecord) && stuck.root == d.root
      && (Stranded(stuck) <==> !BackupComplete(backup, plan.operations))
  {
    MadePlanIsFresh(d, confirmed, uuid);
    WindowOf(d, MakePlan(d, confirmed, uuid), backup);
    hide MayApply, MakePlan, BackupComplete, Whole, Consistent, Recoverable, FreshPlan;
  }

  /** With no copy made yet, the window is stuck. */
  lemma EmptyBackupIsStuck(d: Disk, confirmed: Target, uuid: nat)
    requires MayApply(d, confirmed) && uuid !in d.transactions
    ensures Stranded(Window(d, MakePlan(d, confirmed, uuid), map[]))
  {
    var plan := MakePlan(d, confirmed, uuid);
    StuckWindow(d, confirmed, uuid, map[]);
    MadePlanIsFresh(d, confirmed, uuid);
    assert exists i :: 0 <= i < |plan.operations| && plan.operations[i].before.Some? by {
      SoundDescribes(PreparedMarker(d, plan), plan);
      assert Touches(plan.operations, Marker);
    }
    hide Sound, MayApply, MakePlan, Stranded;
    var i :| 0 <= i < |plan.operations| && plan.operations[i].before.Some?;
    assert !Holds(map[], plan.operations[i].path, plan.operations[i].before);
  }

  // ------------------------------------------------------------------ a concrete installation

  function SamplePayload(): map<Path, Digest> {
    var digest := Sha256(Blob([1]));
    map[Payload("scripts/update_runtime.py") := digest, Payload("app/runtime_update.py") := digest,
        Payload("app/runtime_lifecycle.py") := digest, Payload("app/runtime_task_ledger.py") := digest,
        Payload("pyproject.toml") := digest, Payload("uv.lock") := digest,
        Payload("requirements/runtime.txt") := digest]
  }

  function SampleInstaller(patch: nat): Content {
    Installer(patch, Version(1, 0, patch), SamplePayload())
  }

  function SampleRecord(): Record {
    Record(Version(1, 0, 0), false, SamplePayload()[Uninstaller := Sha256(SampleInstaller(0))])
  }

  function SampleTarget(): Target {
    Target(Version(1, 0, 1), PYTHON_CONTRACT, SamplePayload(), Sha256(SampleInstaller(1)))
  }

  function SampleFiles(): map<Path, Content> {
    map p | p in SamplePayload() :: Blob([1])
  }

  function SampleDisk(): Disk {
    Disk(SampleFiles()[Uninstaller := SampleInstaller(0)][Marker := RecordFile(SampleRecord(), 7)],
         RegistryValue(Version(0, 0, 0), StringValue), map[], None, None,
         map[SampleTarget() := Transaction.Stage.Stage(SampleInstaller(1), SampleFiles())], Some(SampleTarget()), None)
  }

  /** A concrete consistent disk on which an update can be stranded. */
  lemma StuckExample()
    ensures Consistent(SampleDisk()) && MayApply(SampleDisk(), SampleTarget())
    ensures Stranded(Window(SampleDisk(), MakePlan(SampleDisk(), SampleTarget(), 0), map[]))
  {
    SampleIsInstalled();
    SampleIsCompatible();
    assert StageValid(SampleTarget(), SampleDisk().stages[SampleTarget()]);
    EmptyBackupIsStuck(SampleDisk(), SampleTarget(), 0);
  }

  lemma SampleIsInstalled()
    ensures ReadRecord(SampleDisk().root) == Some(SampleRecord())
    ensures Unchanged(SampleDisk().root, SampleRecord().files)
  {
    assert PayloadOnly(SamplePayload());
    assert Frozen(SampleRecord());
    hide SamplePayload;
  }

  lemma SampleIsCompatible()
    ensures Compatible(SampleRecord(), SampleTarget())
  {
    var files, record := SamplePayload(), SampleRecord();
    assert BOOTSTRAP <= files.Keys;
    assert Payload("requirements/runtime.txt") in files;
    assert "requirements/" <= "requirements/runtime.txt";
    assert HasEnvironment(files);
    assert Payload("requirements/runtime.txt") in record.files;
    hide SamplePayload, BOOTSTRAP;
    assert Select(record.files, Dependency) == Select(files, Dependency);
    assert Select(record.files, Configuration) == Select(files, Configuration);
  }
}
