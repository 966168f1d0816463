/**
 * What the journal's phase says about the disk, and why that is enough.
 *
 * Consistent(d) is the invariant of every run: it holds after every durable step of apply,
 * recover and rollback, so it holds wherever a crash happens.
 */
module Consistency {
  import opened Values
  import opened Transaction

  predicate Blocked(d: Disk, plan: Plan) {
    d.pending == Some(Pending(plan.id, plan.target))
  }

  predicate RegistryOld(d: Disk, plan: Plan) {
    plan.snapshot.Some? ==> d.registry == plan.snapshot.value
  }

  predicate RegistryNew(d: Disk, plan: Plan) {
    plan.snapshot.Some? ==> d.registry.version == plan.target.version
  }

  predicate Saved(d: Disk, plan: Plan)
    requires plan.id in d.transactions
  {
    BackupComplete(d.transactions[plan.id].backup, plan.operations)
  }

  /** Nothing has been changed, or everything has been put back. */
  predicate Untried(d: Disk, plan: Plan) {
    AllOld(d.root, plan.operations) && RegistryOld(d, plan)
  }

  /** Files may be old or new, but each is one of the two, the old ones are saved, and startup is blocked. */
  predicate Mixed(d: Disk, plan: Plan)
    requires plan.id in d.transactions
  {
    EachOldOrNew(d.root, plan.operations) && Saved(d, plan) && Blocked(d, plan)
  }

  predicate Tried(d: Disk, plan: Plan)
    requires plan.id in d.transactions
  {
    AllNew(d.root, plan.operations) && RegistryNew(d, plan) && Saved(d, plan)
  }

  predicate PhaseFits(d: Disk, plan: Plan, phase: Phase)
    requires plan.id in d.transactions
  {
    match phase
    case Preparing => Untried(d, plan)
    case BackedUp => Untried(d, plan) && Saved(d, plan) && Blocked(d, plan)
    case Applying => Mixed(d, plan)
    case Verifying => Tried(d, plan) && Blocked(d, plan)
    case Committed => Tried(d, plan)
    case RollingBack => Mixed(d, plan)
    case RolledBack => Untried(d, plan)
    case RollbackFailed => Untried(d, plan) || Mixed(d, plan)
  }

  /** The transaction `current.json` points to is this plan's. */
  ghost predicate Current(d: Disk, plan: Plan) {
    && plan.id in d.transactions && Sound(d, plan)
    && d.current == Some(plan.id)
    && d.transactions[plan.id].journal.Some? && d.transactions[plan.id].journal.value.plan == plan
    && (d.pending == None || Blocked(d, plan))
  }

  function CurrentJournal(d: Disk): Option<Journal> {
    if d.current.Some? && d.current.value in d.transactions
    then d.transactions[d.current.value].journal else None
  }

  ghost predicate Consistent(d: Disk) {
    match d.current
    case None => d.pending == None && Installed(d.root)
    case Some(_) =>
      && CurrentJournal(d).Some?
      && var j := CurrentJournal(d).value;
         Current(d, j.plan) && PhaseFits(d, j.plan, j.phase)
  }

  lemma ConsistentIf(d: Disk, plan: Plan)
    requires Current(d, plan) && PhaseFits(d, plan, d.transactions[plan.id].journal.value.phase)
    ensures Consistent(d)
  {
    hide Sound;
  }

  /** Whatever the phase, each operation path is old or new, and an unblocked disk is all old or all new. */
  lemma UnblockedIsComplete(d: Disk, plan: Plan, phase: Phase)
    requires plan.id in d.transactions && PhaseFits(d, plan, phase)
    ensures EachOldOrNew(d.root, plan.operations)
    ensures Blocked(d, plan) || AllOld(d.root, plan.operations) || AllNew(d.root, plan.operations)
  {
  }

  /** Safety: files that are not one complete installation are only ever seen behind the pending marker. */
  lemma IncompleteIsBlocked(d: Disk)
    requires Consistent(d)
    ensures Installed(d.root) || d.pending.Some?
    ensures d.current.Some? ==> EachOldOrNew(d.root, CurrentJournal(d).value.plan.operations)
  {
    hide Sound, PhaseFits, EachOldOrNew, AllOld, AllNew;
    if d.current.Some? {
      var j := CurrentJournal(d).value;
      UnblockedIsComplete(d, j.plan, j.phase);
      if AllOld(d.root, j.plan.operations) {
        AllOldIsWhole(d, j.plan);
      } else if AllNew(d.root, j.plan.operations) {
        AllNewIsWhole(d, j.plan);
      }
    }
  }

  // ------------------------------------------------------------------ steps that keep a plan sound

  function SaveJournal(d: Disk, j: Journal): Disk
    requires j.plan.id in d.transactions
  {
    d.(transactions := d.transactions[j.plan.id := d.transactions[j.plan.id].(journal := Some(j))])
  }

  lemma SoundFrame(d: Disk, d': Disk, plan: Plan)
    requires Sound(d, plan)
    requires forall t | t in d.stages :: t in d'.stages && d'.stages[t] == d.stages[t]
    requires plan.id in d'.transactions
    requires d'.transactions[plan.id].newMarker == d.transactions[plan.id].newMarker
    ensures Sound(d', plan)
  {
  }

  /** Phases read only the root, the registry, the marker and the transaction's own backup. */
  lemma FitsFrame(d: Disk, d': Disk, plan: Plan, phase: Phase)
    requires plan.id in d.transactions && plan.id in d'.transactions
    requires d'.root == d.root && d'.registry == d.registry && d'.pending == d.pending
    requires d'.transactions[plan.id].backup == d.transactions[plan.id].backup
    ensures PhaseFits(d', plan, phase) <==> PhaseFits(d, plan, phase)
  {
  }

  /** Saving a phase that fits leaves a consistent disk. */
  lemma SaveFits(d: Disk, plan: Plan, phase: Phase)
    requires Current(d, plan) && PhaseFits(d, plan, phase)
    ensures var d' := SaveJournal(d, Journal(plan, phase)); Current(d', plan) && Consistent(d')
  {
    hide Sound, PhaseFits;
    var d' := SaveJournal(d, Journal(plan, phase));
    SoundFrame(d, d', plan);
    FitsFrame(d, d', plan, phase);
    ConsistentIf(d', plan);
  }

  /** Changing only root, registry, pending or the highest version seen keeps the plan current. */
  lemma CurrentFrame(d: Disk, d': Disk, plan: Plan)
    requires Current(d, plan)
    requires d'.transactions == d.transactions && d'.current == d.current && d'.stages == d.stages
    requires d'.pending == None || Blocked(d', plan)
    ensures Current(d', plan)
    ensures PhaseFits(d', plan, d.transactions[plan.id].journal.value.phase) ==> Consistent(d')
  {
    hide Sound, PhaseFits;
    SoundFrame(d, d', plan);
    if PhaseFits(d', plan, d.transactions[plan.id].journal.value.phase) {
      ConsistentIf(d', plan);
    }
  }

  /** A consistent disk stays consistent when something unrelated to the current transaction changes. */
  lemma Unrelated(d: Disk, d': Disk)
    requires Consistent(d)
    requires d'.root == d.root && d'.registry == d.registry && d'.current == d.current && d'.pending == d.pending
    requires forall t | t in d.stages :: t in d'.stages && d'.stages[t] == d.stages[t]
    requires d.current.Some? ==>
      d.current.value in d'.transactions && d'.transactions[d.current.value] == d.transactions[d.current.value]
    ensures Consistent(d')
  {
    hide Sound, PhaseFits;
    if d.current.Some? {
      var j := CurrentJournal(d).value;
      SoundFrame(d, d', j.plan);
      FitsFrame(d, d', j.plan, j.phase);
      ConsistentIf(d', j.plan);
    }
  }

  // ------------------------------------------------------------------ comparing two roots

  predicate SameAt(a: map<Path, Content>, b: map<Path, Content>, p: Path) {
    (p in a <==> p in b) && (p in a ==> a[p] == b[p])
  }

  /** Paths that no operation names are as they were. */
  ghost predicate Untouched(a: map<Path, Content>, b: map<Path, Content>, ops: seq<Operation>) {
    forall p :: Touches(ops, p) || SameAt(a, b, p)
  }

  lemma UntouchedTransitive(a: map<Path, Content>, b: map<Path, Content>, c: map<Path, Content>, ops: seq<Operation>)
    requires Untouched(a, b, ops) && Untouched(b, c, ops)
    ensures Untouched(a, c, ops)
  {
    forall p ensures Touches(ops, p) || SameAt(a, c, p) {
      if !Touches(ops, p) {
        assert SameAt(a, b, p) && SameAt(b, c, p);
      }
    }
  }

  /** All old again, and nothing else touched: the very same files. */
  lemma SameRoot(a: map<Path, Content>, b: map<Path, Content>, ops: seq<Operation>)
    requires AllOld(a, ops) && AllOld(b, ops) && Untouched(a, b, ops)
    ensures a == b
  {
    forall p ensures SameAt(a, b, p) {
      if Touches(ops, p) {
        var i :| 0 <= i < |ops| && ops[i].path == p;
        assert Holds(a, ops[i].path, ops[i].before) && Holds(b, ops[i].path, ops[i].before);
      }
    }
    assert a.Keys == b.Keys by {
      forall p ensures p in a.Keys <==> p in b.Keys {
        assert SameAt(a, b, p);
      }
    }
    forall p | p in a ensures a[p] == b[p] {
      assert SameAt(a, b, p);
    }
  }

  /** Changing the path of operation i leaves every other operation's facts alone. */
  lemma OneChange(a: map<Path, Content>, b: map<Path, Content>, ops: seq<Operation>, i: nat)
    requires i < |ops| && forall p | p != ops[i].path :: SameAt(a, b, p)
    requires forall k | 0 <= k < |ops| && k != i :: ops[k].path != ops[i].path
    ensures Untouched(a, b, ops)
    ensures forall k | 0 <= k < |ops| && k != i ::
      && (Holds(a, ops[k].path, ops[k].before) <==> Holds(b, ops[k].path, ops[k].before))
      && (Holds(a, ops[k].path, ops[k].after) <==> Holds(b, ops[k].path, ops[k].after))
  {
    assert Touches(ops, ops[i].path);
    forall k | 0 <= k < |ops| && k != i ensures SameAt(a, b, ops[k].path) {
    }
  }

  // ------------------------------------------------------------------ when recovery can work

  /** The exact condition under which an undisturbed recovery of this transaction goes through. */
  ghost predicate Recoverable(d: Disk)
    requires Consistent(d)
  {
    && d.current.Some?
    && var j := CurrentJournal(d).value;
       j.phase == Preparing || Saved(d, j.plan)
  }

  /** Startup is blocked and recovery cannot go through. */
  ghost predicate Stranded(d: Disk) {
    Consistent(d) && d.current.Some? && d.pending.Some? && !Recoverable(d)
  }
}
