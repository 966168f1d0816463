/**
 * The durable state an update works on, and what its journal says about it.
 *
 * A digest is modelled as a constructor around the content it was taken of, which makes
 * SHA-256 injective and nothing more.  Canonical JSON is likewise identified with the value
 * it encodes, so a digest of a target is the target.
 */
module Transaction {
  import opened Values
  import PathOrder

  datatype Version = Version(major: nat, minor: nat, patch: nat) {
    predicate NewerThan(other: Version) {
      major > other.major
      || (major == other.major && (minor > other.minor || (minor == other.minor && patch > other.patch)))
    }
  }

  /** A path inside the installation root; the two reserved names stand apart from payload names. */
  datatype Path = Payload(name: string) | Uninstaller | Marker

  datatype Content =
    | Blob(bytes: seq<nat>)
    | Installer(image: nat, version: Version, manifest: map<Path, Digest>) // assembly with an embedded manifest
    | RecordFile(record: Record, layout: nat)                              // layout 0 is canonical JSON

  datatype Digest = Sha256(of: Content)

  datatype Record = Record(version: Version, normal: bool, files: map<Path, Digest>)

  datatype Target = Target(version: Version, contract: nat, files: map<Path, Digest>, installer: Digest)

  datatype Stage = Stage(installer: Content, files: map<Path, Content>)

  datatype RollbackTarget = RollbackTarget(version: Version, files: map<Path, Digest>)

  datatype RegistryKind = StringValue | ExpandableString

  datatype RegistryValue = RegistryValue(version: Version, kind: RegistryKind)

  datatype Operation = Operation(path: Path, before: Option<Digest>, after: Option<Digest>)

  datatype Phase =
    Preparing | BackedUp | Applying | Verifying | Committed | RollingBack | RolledBack | RollbackFailed

  /** The part of a journal that never changes once the transaction exists. */
  datatype Plan = Plan(
    id: nat,
    target: Target,
    targetVersion: Version,
    rollbackTarget: RollbackTarget,
    oldRecord: Record,
    snapshot: Option<RegistryValue>,
    operations: seq<Operation>)

  datatype Journal = Journal(plan: Plan, phase: Phase)

  datatype TransactionDirectory = TransactionDirectory(
    journal: Option<Journal>,
    newMarker: Option<Content>,
    backup: map<Path, Content>)

  datatype Pending = Pending(id: nat, target: Target)

  /** Everything that survives a crash. */
  datatype Disk = Disk(
    root: map<Path, Content>,
    registry: RegistryValue,
    transactions: map<nat, TransactionDirectory>,
    current: Option<nat>,
    pending: Option<Pending>,
    stages: map<Target, Stage>,
    confirmedStage: Option<Target>,
    highwater: Option<Target>)

  // ------------------------------------------------------------------ facts about directories

  predicate Holds(dir: map<Path, Content>, path: Path, fact: Option<Digest>) {
    match fact
    case None => path !in dir
    case Some(digest) => path in dir && Sha256(dir[path]) == digest
  }

  predicate Unchanged(dir: map<Path, Content>, files: map<Path, Digest>) {
    forall p | p in files :: Holds(dir, p, Some(files[p]))
  }

  predicate PayloadOnly(files: map<Path, Digest>) {
    forall p | p in files :: p.Payload?
  }

  /** The record owns exactly what the frozen manifest inside its uninstaller lists, plus the uninstaller. */
  predicate Frozen(record: Record) {
    && Uninstaller in record.files
    && var image := record.files[Uninstaller].of;
      && image.Installer? && image.version == record.version && PayloadOnly(image.manifest)
      && record.files == image.manifest[Uninstaller := record.files[Uninstaller]]
  }

  /** `_record`: None stands for a refused record. */
  function ReadRecord(dir: map<Path, Content>): Option<Record> {
    if && Marker in dir && dir[Marker].RecordFile?
       && var record := dir[Marker].record;
          Frozen(record) && Holds(dir, Uninstaller, Some(record.files[Uninstaller]))
    then Some(dir[Marker].record)
    else None
  }

  /** A complete, unmodified installation of this record. */
  predicate Whole(dir: map<Path, Content>, record: Record) {
    ReadRecord(dir) == Some(record) && Unchanged(dir, record.files)
  }

  predicate Installed(dir: map<Path, Content>) {
    ReadRecord(dir).Some? && Unchanged(dir, ReadRecord(dir).value.files)
  }

  /** Installed: the uninstaller and every file of the manifest inside it, as the record beside them says. */
  lemma InstalledMeans(dir: map<Path, Content>)
    ensures Installed(dir) <==>
      && Marker in dir && dir[Marker].RecordFile? && Uninstaller in dir && dir[Uninstaller].Installer?
      && var record, image := dir[Marker].record, dir[Uninstaller];
      && image.version == record.version && record.files == image.manifest[Uninstaller := Sha256(image)]
      && forall p | p in image.manifest :: p.Payload? && p in dir && Sha256(dir[p]) == image.manifest[p]
  {
    if Installed(dir) {
      var record, image := dir[Marker].record, dir[Uninstaller];
      forall p | p in image.manifest ensures p.Payload? && p in dir && Sha256(dir[p]) == image.manifest[p] {
        assert p in record.files && record.files[p] == image.manifest[p];
      }
    }
  }

  // ------------------------------------------------------------------ targets

  const PYTHON_CONTRACT: nat := 1

  predicate Dependency(p: Path) {
    p.Payload? && (p.name in {"pyproject.toml", "uv.lock"} || "requirements/" <= p.name)
  }

  predicate Configuration(p: Path) {
    p.Payload? && "configs/" <= p.name
  }

  const BOOTSTRAP: set<Path> := {
    Payload("scripts/update_runtime.py"), Payload("app/runtime_update.py"),
    Payload("app/runtime_lifecycle.py"), Payload("app/runtime_task_ledger.py")}

  function Select(files: map<Path, Digest>, choose: Path -> bool): map<Path, Digest> {
    map p | p in files && choose(p) :: files[p]
  }

  predicate HasEnvironment(files: map<Path, Digest>) {
    && Payload("pyproject.toml") in files && Payload("uv.lock") in files
    && exists p :: p in files && p.Payload? && "requirements/" <= p.name
  }

  /** `_compatible`: a newer patch of the same release line with the same environment and configuration. */
  predicate Compatible(prior: Record, target: Target) {
    && target.version.NewerThan(prior.version)
    && target.version.major == prior.version.major && target.version.minor == prior.version.minor
    && target.contract == PYTHON_CONTRACT
    && BOOTSTRAP <= prior.files.Keys
    && HasEnvironment(prior.files) && HasEnvironment(target.files)
    && Select(prior.files, Dependency) == Select(target.files, Dependency)
    && Select(prior.files, Configuration) == Select(target.files, Configuration)
  }

  /** The names of files that a patch may not change: configuration and dependencies. */
  predicate Kept(name: string) {
    "configs/" <= name || "requirements/" <= name || name == "pyproject.toml" || name == "uv.lock"
  }

  /** In plain terms: exactly the next patches that leave configuration and dependencies alone are compatible. */
  lemma CompatibleMeans(prior: Record, target: Target)
    ensures Compatible(prior, target) <==>
      && target.version.major == prior.version.major && target.version.minor == prior.version.minor
      && target.version.patch > prior.version.patch && target.contract == 1
      && Payload("scripts/update_runtime.py") in prior.files && Payload("app/runtime_update.py") in prior.files
      && Payload("app/runtime_lifecycle.py") in prior.files && Payload("app/runtime_task_ledger.py") in prior.files
      && Payload("pyproject.toml") in prior.files && Payload("uv.lock") in prior.files
      && (exists name: string :: "requirements/" <= name && Payload(name) in prior.files)
      && forall name | Kept(name) :: Lookup(prior.files, Payload(name)) == Lookup(target.files, Payload(name))
  {
    if Compatible(prior, target) {
      SameKept(prior.files, target.files);
      var p :| p in prior.files && p.Payload? && "requirements/" <= p.name;
      assert Payload(p.name) in prior.files;
    }
    if forall name | Kept(name) :: Lookup(prior.files, Payload(name)) == Lookup(target.files, Payload(name)) {
      SameSelection(prior.files, target.files);
      if exists name: string :: "requirements/" <= name && Payload(name) in prior.files {
        var name: string :| "requirements/" <= name && Payload(name) in prior.files;
        assert Kept(name) && Payload(name) in target.files;
      }
      assert Kept("pyproject.toml") && Kept("uv.lock");
    }
  }

  lemma SameKept(a: map<Path, Digest>, b: map<Path, Digest>)
    requires Select(a, Dependency) == Select(b, Dependency) && Select(a, Configuration) == Select(b, Configuration)
    ensures forall name | Kept(name) :: Lookup(a, Payload(name)) == Lookup(b, Payload(name))
  {
    forall name | Kept(name) ensures Lookup(a, Payload(name)) == Lookup(b, Payload(name)) {
      if Dependency(Payload(name)) {
        SelectsSame(a, b, Dependency, Payload(name));
      } else {
        SelectsSame(a, b, Configuration, Payload(name));
      }
    }
  }

  lemma SelectsSame(a: map<Path, Digest>, b: map<Path, Digest>, choose: Path -> bool, p: Path)
    requires Select(a, choose) == Select(b, choose) && choose(p)
    ensures Lookup(a, p) == Lookup(b, p)
  {
    assert p in Select(a, choose) <==> p in a;
    assert p in Select(b, choose) <==> p in b;
    assert p in a ==> Select(a, choose)[p] == a[p];
    assert p in b ==> Select(b, choose)[p] == b[p];
  }

  lemma SameSelection(a: map<Path, Digest>, b: map<Path, Digest>)
    requires forall name | Kept(name) :: Lookup(a, Payload(name)) == Lookup(b, Payload(name))
    ensures Select(a, Dependency) == Select(b, Dependency) && Select(a, Configuration) == Select(b, Configuration)
  {
    forall p: Path | Dependency(p) || Configuration(p) ensures Lookup(a, p) == Lookup(b, p) {
      assert Kept(p.name) && p == Payload(p.name);
    }
  }

  /** `_staged`: the installer embeds this target, and every staged file is the promised one. */
  predicate StageValid(target: Target, stage: Stage) {
    && PayloadOnly(target.files)
    && Sha256(stage.installer) == target.installer
    && stage.installer.Installer? && stage.installer.version == target.version
    && stage.installer.manifest == target.files
    && Unchanged(stage.files, target.files)
  }

  predicate Staged(d: Disk, target: Target) {
    target in d.stages && StageValid(target, d.stages[target])
  }

  function NewRecord(prior: Record, target: Target): Record {
    Record(target.version, prior.normal, target.files[Uninstaller := target.installer])
  }

  // ------------------------------------------------------------------ operations

  function Lookup(files: map<Path, Digest>, p: Path): Option<Digest> {
    if p in files then Some(files[p]) else None
  }

  function PayloadNames(paths: set<Path>): set<string> {
    set p | p in paths && p.Payload? :: p.name
  }

  /** The payload paths with these names are those of the set, each once. */
  lemma EachPayloadOnce(paths: set<Path>, names: seq<string>, payload: seq<Path>)
    requires forall n :: n in PayloadNames(paths) <==> n in names
    requires |payload| == |names| && forall i | 0 <= i < |names| :: payload[i] == Payload(names[i])
    ensures forall p | p in paths && p.Payload? :: p in payload
    ensures forall p | p in payload :: p in paths
  {
    forall p | p in paths && p.Payload? ensures p in payload {
      assert p.name in PayloadNames(paths) && p.name in names;
      var i :| 0 <= i < |names| && names[i] == p.name;
      assert payload[i] == p;
    }
    forall p | p in payload ensures p in paths {
      var i :| 0 <= i < |payload| && payload[i] == p;
      assert names[i] in PayloadNames(paths);
    }
  }

  /** Sorted payload paths, then the uninstaller, then the marker, which therefore changes last. */
  function Names(paths: set<Path>): (names: seq<Path>)
    ensures forall p | p in paths :: p in names
    ensures forall p | p in names :: p in paths + {Uninstaller, Marker}
    ensures forall i, j | 0 <= i < |names| && 0 <= j < |names| && i != j :: names[i] != names[j]
    ensures |names| >= 2 && names[|names| - 2..] == [Uninstaller, Marker]
  {
    var sorted := PathOrder.Sorted(PayloadNames(paths));
    var payload := seq(|sorted|, i requires 0 <= i < |sorted| => Payload(sorted[i]));
    EachPayloadOnce(paths, sorted, payload);
    payload + [Uninstaller, Marker]
  }

  function OperationsOn(names: seq<Path>, prior: map<Path, Digest>, next: map<Path, Digest>): seq<Operation> {
    seq(|names|, i requires 0 <= i < |names| =>
      Operation(names[i], Lookup(prior, names[i]), Lookup(next, names[i])))
  }

  function Operations(prior: map<Path, Digest>, next: map<Path, Digest>): seq<Operation> {
    OperationsOn(Names(prior.Keys + next.Keys), prior, next)
  }

  /** What Operations promises, without mentioning the order. */
  ghost predicate Describes(ops: seq<Operation>, prior: map<Path, Digest>, next: map<Path, Digest>) {
    && (forall i, j | 0 <= i < |ops| && 0 <= j < |ops| && i != j :: ops[i].path != ops[j].path)
    && (forall i | 0 <= i < |ops| ::
          ops[i].before == Lookup(prior, ops[i].path) && ops[i].after == Lookup(next, ops[i].path))
    && (forall p | p in prior || p in next :: Touches(ops, p))
    && (forall i | 0 <= i < |ops| :: ops[i].path in prior || ops[i].path in next)
  }

  ghost predicate Touches(ops: seq<Operation>, p: Path) {
    exists i :: 0 <= i < |ops| && ops[i].path == p
  }

  lemma OperationsDescribe(names: seq<Path>, prior: map<Path, Digest>, next: map<Path, Digest>)
    requires forall p :: p in prior || p in next <==> p in names
    requires forall i, j | 0 <= i < |names| && 0 <= j < |names| && i != j :: names[i] != names[j]
    ensures Describes(OperationsOn(names, prior, next), prior, next)
  {
    var ops := OperationsOn(names, prior, next);
    forall p | p in prior || p in next ensures Touches(ops, p) {
      var i :| 0 <= i < |names| && names[i] == p;
      assert ops[i].path == p;
    }
  }

  // ------------------------------------------------------------------ what a plan freezes

  function OldFacts(dir: map<Path, Content>, record: Record): map<Path, Digest>
    requires Marker in dir
  {
    record.files[Marker := Sha256(dir[Marker])]
  }

  function NewMarkerFor(record: Record, target: Target): Content {
    RecordFile(NewRecord(record, target), 0)
  }

  function NewFactsFor(record: Record, target: Target): map<Path, Digest> {
    NewRecord(record, target).files[Marker := Sha256(NewMarkerFor(record, target))]
  }

  function NewMarker(plan: Plan): Content {
    NewMarkerFor(plan.oldRecord, plan.target)
  }

  function NewFacts(plan: Plan): map<Path, Digest> {
    NewFactsFor(plan.oldRecord, plan.target)
  }

  predicate SnapshotValid(plan: Plan) {
    if plan.oldRecord.normal
    then plan.snapshot.Some? && plan.snapshot.value.version == plan.oldRecord.version
    else plan.snapshot == None
  }

  /** The checks of `_validate_transaction` that do not read the frozen old directory. */
  predicate FrozenFactsValid(d: Disk, plan: Plan) {
    && plan.id in d.transactions
    && Staged(d, plan.target)
    && plan.targetVersion == plan.target.version
    && Compatible(plan.oldRecord, plan.target)
    && d.transactions[plan.id].newMarker == Some(NewMarker(plan))
    && SnapshotValid(plan)
  }

  /** `_validate_transaction` against the frozen old directory `dir`. */
  predicate ValidAgainst(d: Disk, plan: Plan, dir: map<Path, Content>) {
    && Whole(dir, plan.oldRecord)
    && FrozenFactsValid(d, plan)
    && Marker in dir
    && plan.operations == Operations(OldFacts(dir, plan.oldRecord), NewFacts(plan))
    && plan.rollbackTarget == RollbackTarget(plan.oldRecord.version, OldFacts(dir, plan.oldRecord))
  }

  /** `_validate_transaction`: the root vouches for a preparing transaction, the backup for any other. */
  predicate TransactionValid(d: Disk, j: Journal) {
    && j.plan.id in d.transactions
    && ValidAgainst(d, j.plan, if j.phase == Preparing then d.root else d.transactions[j.plan.id].backup)
  }

  /** The plan was written by `apply`: its facts fit together, wherever the old files may be by now. */
  ghost predicate Sound(d: Disk, plan: Plan) {
    && FrozenFactsValid(d, plan)
    && FactsOf(plan.rollbackTarget.files, plan.oldRecord)
    && plan.rollbackTarget.version == plan.oldRecord.version
    && plan.operations == Operations(plan.rollbackTarget.files, NewFacts(plan))
  }

  predicate AllOld(dir: map<Path, Content>, ops: seq<Operation>) {
    forall i | 0 <= i < |ops| :: Holds(dir, ops[i].path, ops[i].before)
  }

  predicate AllNew(dir: map<Path, Content>, ops: seq<Operation>) {
    forall i | 0 <= i < |ops| :: Holds(dir, ops[i].path, ops[i].after)
  }

  predicate EachOldOrNew(dir: map<Path, Content>, ops: seq<Operation>) {
    forall i | 0 <= i < |ops| ::
      Holds(dir, ops[i].path, ops[i].before) || Holds(dir, ops[i].path, ops[i].after)
  }

  /** Every old file has its complete copy in the backup. */
  predicate BackupComplete(backup: map<Path, Content>, ops: seq<Operation>) {
    forall i | 0 <= i < |ops| && ops[i].before.Some? :: Holds(backup, ops[i].path, ops[i].before)
  }

  lemma SoundDescribes(d: Disk, plan: Plan)
    requires Sound(d, plan)
    ensures Describes(plan.operations, plan.rollbackTarget.files, NewFacts(plan))
    ensures |plan.operations| >= 2 && plan.operations[|plan.operations| - 1].path == Marker
  {
    hide *;
    var prior, next := plan.rollbackTarget.files, NewFacts(plan);
    SoundOperations(d, plan);
    NamesOfBoth(prior, next);
    OperationsDescribe(Names(prior.Keys + next.Keys), prior, next);
    LastOperation(Names(prior.Keys + next.Keys), prior, next);
  }

  lemma SoundOperations(d: Disk, plan: Plan)
    requires Sound(d, plan)
    ensures var prior, next := plan.rollbackTarget.files, NewFacts(plan);
      && Uninstaller in next && Marker in next
      && plan.operations == OperationsOn(Names(prior.Keys + next.Keys), prior, next)
  {
    hide OperationsOn, Names, FrozenFactsValid, FactsOf;
  }

  lemma NamesOfBoth(prior: map<Path, Digest>, next: map<Path, Digest>)
    requires Uninstaller in next && Marker in next
    ensures var names := Names(prior.Keys + next.Keys);
      && |names| >= 2 && names[|names| - 1] == Marker
      && forall p :: p in prior || p in next <==> p in names
  {
    var names := Names(prior.Keys + next.Keys);
    hide Names;
    assert names[|names| - 2..][1] == Marker;
    forall p ensures p in prior || p in next <==> p in names {
      assert p in prior.Keys + next.Keys <==> p in prior || p in next;
    }
  }

  lemma LastOperation(names: seq<Path>, prior: map<Path, Digest>, next: map<Path, Digest>)
    requires |names| >= 2
    ensures var ops := OperationsOn(names, prior, next);
      |ops| == |names| && ops[|ops| - 1].path == names[|names| - 1]
  {
  }

  lemma IntactIffUnchanged(ops: seq<Operation>, prior: map<Path, Digest>, next: map<Path, Digest>,
                           dir: map<Path, Content>)
    requires Describes(ops, prior, next)
    ensures BackupComplete(dir, ops) <==> Unchanged(dir, prior)
    ensures AllNew(dir, ops) ==> Unchanged(dir, next)
  {
    if BackupComplete(dir, ops) {
      forall p | p in prior ensures Holds(dir, p, Some(prior[p])) {
        assert Touches(ops, p);
      }
    }
    if AllNew(dir, ops) {
      forall p | p in next ensures Holds(dir, p, Some(next[p])) {
        assert Touches(ops, p);
      }
    }
  }

  /** `facts` are the record's files and a marker that encodes the record. */
  ghost predicate FactsOf(facts: map<Path, Digest>, record: Record) {
    && Frozen(record) && Marker in facts && facts == record.files[Marker := facts[Marker]]
    && facts[Marker].of.RecordFile? && facts[Marker].of.record == record
  }

  lemma UnchangedIffWhole(facts: map<Path, Digest>, record: Record, dir: map<Path, Content>)
    requires FactsOf(facts, record)
    ensures Unchanged(dir, facts) <==> Whole(dir, record) && Marker in dir && OldFacts(dir, record) == facts
  {
    assert Marker !in record.files && Uninstaller in record.files;
    if Unchanged(dir, facts) {
      assert Holds(dir, Marker, Some(facts[Marker])) && Holds(dir, Uninstaller, Some(facts[Uninstaller]));
      forall p | p in record.files ensures Holds(dir, p, Some(record.files[p])) {
        assert Holds(dir, p, Some(facts[p]));
      }
    }
  }

  lemma NewFactsOf(d: Disk, plan: Plan)
    requires FrozenFactsValid(d, plan)
    ensures FactsOf(NewFacts(plan), NewRecord(plan.oldRecord, plan.target))
  {
    var record := NewRecord(plan.oldRecord, plan.target);
    var image := record.files[Uninstaller].of;
    assert image == d.stages[plan.target].installer;
    assert Frozen(record);
    assert Marker !in record.files;
  }

  /** A directory that holds every old fact is the complete old installation, and the other way round. */
  lemma IntactIffValid(d: Disk, plan: Plan, dir: map<Path, Content>)
    requires Sound(d, plan)
    ensures BackupComplete(dir, plan.operations) <==> ValidAgainst(d, plan, dir)
  {
    SoundDescribes(d, plan);
    IntactIffUnchanged(plan.operations, plan.rollbackTarget.files, NewFacts(plan), dir);
    UnchangedIffWhole(plan.rollbackTarget.files, plan.oldRecord, dir);
  }

  lemma AllOldIsWhole(d: Disk, plan: Plan)
    requires Sound(d, plan) && AllOld(d.root, plan.operations)
    ensures Whole(d.root, plan.oldRecord) && ValidAgainst(d, plan, d.root)
  {
    assert BackupComplete(d.root, plan.operations);
    IntactIffValid(d, plan, d.root);
  }

  /** When every operation path holds its new fact, the root is the complete new installation. */
  lemma AllNewIsWhole(d: Disk, plan: Plan)
    requires Sound(d, plan) && AllNew(d.root, plan.operations)
    ensures Whole(d.root, NewRecord(plan.oldRecord, plan.target))
    ensures Marker in d.root && d.root[Marker] == NewMarker(plan)
  {
    SoundDescribes(d, plan);
    IntactIffUnchanged(plan.operations, plan.rollbackTarget.files, NewFacts(plan), d.root);
    NewFactsOf(d, plan);
    UnchangedIffWhole(NewFacts(plan), NewRecord(plan.oldRecord, plan.target), d.root);
    assert Holds(d.root, Marker, Some(NewFacts(plan)[Marker]));
  }
}
