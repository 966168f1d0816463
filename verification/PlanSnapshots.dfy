/**
 * The client's view of task plans: each snapshot of a plan run that it reads is checked against the last one that it
 * accepted for this run, and refused when it does not continue it. What accepted snapshots have in common over any
 * calls, and where the chain of review packets is allowed to start over.
 */
module PlanSnapshots {
  import opened Values

  // ------------------------------------------------------------------ data

  /** A command id; that of a resumed step is a digest over the run, the step and the attempt. */
  datatype Command = Issued(name: string) | Retry(runId: string, step: Option<string>)

  datatype Verdict = Success | Failure | Cancelled

  /** One settled step of the history. */
  datatype Settled = Settled(step: Option<string>, execution: Option<Command>, verdict: Verdict,
                             byAgent: bool, inputCompleted: bool, verification: Option<string>)

  /** The values of `status` and `runner_state`. */
  datatype Phase =
    | Ready | Pending | Dispatching | Waiting | PausedUncertain | CancelRequested
    | Completed | Failed | Stopped

  datatype Reason = GroundingRequired | VerificationRequired | ExecutionPending | OtherReason(name: string)

  /** What binds a packet to its run. */
  datatype Scope = Scope(runId: string, planId: string, planHash: string, target: string, owner: string,
                         directory: string)

  /** What may never change within a run; `rest` stands for the fields that are only compared. */
  datatype Binding = Binding(scope: Scope, startId: string, policy: string, rest: string)

  datatype Wait = Wait(id: string, runId: string, step: Option<string>, command: Option<Command>,
                       reason: Option<Reason>)

  datatype Ticket = Ticket(execution: Option<Command>, step: Option<string>)

  datatype Ref = Ref(path: string, hash: string)

  /** What a packet with a manual observation says about the packets before it. */
  datatype Chain = Chain(revision: int, ancestors: seq<string>, previousHash: string, basisHash: string,
                         basisRound: int, observed: string)

  datatype Kind =
    | Early                      // about a field, or about an action before it is dispatched
    | Review(version: int)
    | Observed(chain: Chain)     // the third version: with manual observations

  /** A review packet; `sealed` says that its digests, paths and shape are right by themselves. */
  datatype Packet = Packet(
    kind: Kind, hash: string, sealed: bool, scope: Scope, step: Option<string>, execution: Option<Command>,
    waitId: Option<string>, round: int, after: Option<string>, inputStatus: string, executed: Option<bool>,
    reason: string, inputRefs: Option<seq<Ref>>, evidenceRefs: seq<Ref>)

  /** `shaped` covers types and constants, `grounded` the evidence of a wait for grounding. */
  datatype Snapshot = Snapshot(
    shaped: bool, binding: Binding, history: seq<Settled>, status: Phase, runner: Phase, step: Option<string>,
    active: Option<Command>, reason: Option<Reason>, wait: Option<Wait>, pending: Option<Ticket>, grounded: bool,
    packet: Option<Packet>, observing: bool, planned: int, succeeded: int, attempts: map<string, int>,
    resumes: seq<Packet>)
  {
    function RunId(): string { binding.scope.runId }
  }

  /** A snapshot that was accepted, and whether its wait was found to be reviewed. */
  datatype Known = Known(snapshot: Snapshot, reviewed: bool)

  // ------------------------------------------------------------------ packets

  function Revision(p: Packet): int {
    if p.kind.Observed? then p.kind.chain.revision else 0
  }

  function Ancestors(p: Packet): seq<string> {
    if p.kind.Observed? then p.kind.chain.ancestors else []
  }

  function InputRefs(p: Packet): seq<Ref> {
    if p.inputRefs.Some? then p.inputRefs.value else p.evidenceRefs
  }

  predicate Distinct(hashes: seq<string>) {
    forall i, j | 0 <= i < j < |hashes| :: hashes[i] != hashes[j]
  }

  /** The first check of `_validate_manual_packet_progress`, which looks at the packet alone. */
  predicate WellChained(p: Packet)
    requires p.kind.Observed?
  {
    var chain := p.kind.chain;
    && 1 <= chain.revision <= 2 && |chain.ancestors| == chain.revision
    && Distinct(chain.ancestors) && p.hash !in chain.ancestors
    && chain.previousHash == chain.ancestors[|chain.ancestors| - 1]
    && chain.basisHash == chain.ancestors[0] && chain.basisRound == p.round
    && p.inputRefs.Some? && exists ref :: ref in p.inputRefs.value && ref.hash == chain.observed
  }

  /** Its second check: the packet continues another one, whose evidence it keeps. */
  predicate Extends(prior: Packet, p: Packet) {
    && 0 <= Revision(prior) < Revision(p) == |Ancestors(p)|
    && Ancestors(p)[..Revision(prior)] == Ancestors(prior) && Ancestors(p)[Revision(prior)] == prior.hash
    && p.after == prior.after && p.round == prior.round && p.inputStatus == prior.inputStatus
    && p.executed == prior.executed && p.waitId == prior.waitId && p.execution == prior.execution
    && (forall ref | ref in InputRefs(prior) :: ref in InputRefs(p))
    && forall ref | ref in prior.evidenceRefs :: ref in p.evidenceRefs
  }

  predicate RoundFits(p: Packet) {
    match p.kind
    case Early => p.round == 0
    case Review(version) =>
      if version == 1 then p.round == 0
      else if version == 2 then 0 <= p.round <= 2
      else version == 4 && 0 <= p.round <= 1
    case Observed(_) => 0 <= p.round <= 2
  }

  /** The packet belongs to the ticket and the run of its snapshot. */
  predicate PacketBound(v: Snapshot, p: Packet) {
    && p.sealed && RoundFits(p) && v.reason == Some(VerificationRequired)
    && p.execution.Some? && p.execution == v.active && p.step == v.step
    && if p.kind.Early? then
         && v.status == Pending && v.runner == Waiting && v.pending == Some(Ticket(p.execution, p.step))
         && p.scope.runId == v.RunId() && p.scope.planHash == v.binding.scope.planHash
         && p.scope.directory == v.binding.scope.directory && p.scope.target == v.binding.scope.target
       else
         p.scope == v.binding.scope && v.wait.Some? && p.waitId == Some(v.wait.value.id)
  }

  /** An early packet whose input has meanwhile been completed may be followed by an ordinary one. */
  predicate FieldCompleted(prior: Packet, p: Packet) {
    && prior.kind.Early? && p.inputStatus == "completed" && p.step == prior.step && p.execution == prior.execution
    && p.scope.runId == prior.scope.runId && p.scope.planHash == prior.scope.planHash
    && p.scope.directory == prior.scope.directory
  }

  predicate PacketFollows(before: Option<Packet>, p: Packet, resumed: bool) {
    match p.kind
    case Early => before == None || before == Some(p)
    case Review(_) => before == None || before == Some(p) || resumed || FieldCompleted(before.value, p)
    case Observed(_) => WellChained(p) && (before == None || before == Some(p) || Extends(before.value, p))
  }

  // ------------------------------------------------------------------ the checks of one snapshot

  /** The command id of the waiting step is another one, although no step was settled meanwhile. */
  predicate TicketMoved(v: Snapshot, before: Snapshot) {
    |v.history| == |before.history| && v.active.Some? && before.active.Some? && v.active != before.active
  }

  /** It is that of the one retry of a step that was blocked before its action and then resumed by a caller. */
  predicate Resumed(v: Snapshot, before: Snapshot) {
    && TicketMoved(v, before) && v.binding.policy == "intervention_v1"
    && before.packet.Some? && before.packet.value.reason == "blocked_before_dispatch"
    && before.packet.value.executed == Some(false) && before.packet.value.after == None
    && v.step == before.step && v.step.Some? && v.step.value in v.attempts && v.attempts[v.step.value] == 1
    && v.active == Some(Retry(v.RunId(), before.step)) && before.packet.value in v.resumes
  }

  /** The wait is still there, but its step has just been settled by the caller's own review. */
  predicate Reviewed(v: Snapshot, before: Option<Known>) {
    && before.Some? && v.wait.Some? && v.runner == Waiting && v.status in {Ready, Completed, Failed}
    && v.pending == None && v.reason == Some(VerificationRequired) && v.history != []
    && before.value.snapshot.wait == v.wait
    && v.wait.value.step.Some? && v.wait.value.command.Some? && v.wait.value.reason.Some?
    && (|v.history| == |before.value.snapshot.history| + 1
        || (before.value.reviewed && v.history == before.value.snapshot.history))
    && var last := v.history[|v.history| - 1];
       last.step == v.wait.value.step && last.execution == v.wait.value.command && last.byAgent
       && last.inputCompleted && last.verification.Some?
  }

  predicate Continues(v: Snapshot, before: Option<Known>) {
    before.Some? ==>
      && before.value.snapshot.history <= v.history
      && (TicketMoved(v, before.value.snapshot) ==> Resumed(v, before.value.snapshot))
  }

  predicate PhasesFit(v: Snapshot) {
    && v.status in {Ready, Pending, PausedUncertain, CancelRequested, Completed, Failed, Stopped}
    && v.runner in {Ready, Dispatching, Waiting, CancelRequested, Completed, Failed, Stopped}
    && (v.runner == Waiting ==> v.reason.Some?)
  }

  predicate WaitFits(v: Snapshot, reviewed: bool) {
    v.wait.Some? ==>
      var wait := v.wait.value;
      && wait.id != "" && wait.runId == v.RunId() && wait.reason == v.reason && wait.command == v.active
      && (reviewed || wait.step == v.step)
  }

  predicate TicketFits(v: Snapshot, reviewed: bool) {
    && (v.reason.Some? && !v.reason.value.OtherReason? ==>
      v.wait.Some? && v.active.Some? && (reviewed || v.pending == Some(Ticket(v.active, v.step))))
    && (v.reason == Some(GroundingRequired) ==> v.grounded)
  }

  predicate PacketFits(v: Snapshot, before: Option<Known>) {
    v.packet.Some? ==>
      && PacketBound(v, v.packet.value)
      && PacketFollows(if before.Some? then before.value.snapshot.packet else None, v.packet.value,
                       before.Some? && Resumed(v, before.value.snapshot))
  }

  predicate ObservationFits(v: Snapshot) {
    v.observing ==>
      && v.packet == None && v.reason == Some(VerificationRequired) && v.pending.Some? && v.runner == Waiting
      && v.status in {Pending, PausedUncertain}
  }

  predicate Final(phase: Phase) { phase in {Completed, Failed, Stopped} }

  /** Completion is believed only with every planned step recorded as a success. */
  predicate Proven(v: Snapshot) {
    && v.step == None && 1 <= v.planned == |v.history| == v.succeeded
    && forall i | 0 <= i < |v.history| :: v.history[i].verdict == Success
  }

  predicate EndFits(v: Snapshot, reviewed: bool) {
    Final(v.status) || Final(v.runner) ==>
      && (reviewed || (v.status == v.runner && v.wait == None && v.pending == None && v.active == None))
      && (v.status == Completed ==> Proven(v))
  }

  /** `_plan_snapshot` accepts: `known` is the binding stored for the run, `before` the last accepted snapshot. */
  predicate Acceptable(v: Snapshot, runId: Option<string>, startId: Option<string>, known: Option<Binding>,
                       before: Option<Known>)
  {
    && v.shaped && runId in {None, Some(v.RunId())} && startId in {None, Some(v.binding.startId)}
    && known in {None, Some(v.binding)} && Continues(v, before) && PhasesFit(v)
    && WaitFits(v, Reviewed(v, before)) && TicketFits(v, Reviewed(v, before)) && PacketFits(v, before)
    && ObservationFits(v) && EndFits(v, Reviewed(v, before))
  }

  // ------------------------------------------------------------------ one snapshot after another

  /** What an accepted snapshot has to do with the one accepted before it for the same run. */
  ghost predicate Step(a: Snapshot, b: Snapshot) {
    && b.binding == a.binding && a.history <= b.history && (TicketMoved(b, a) ==> Resumed(b, a))
    && (b.packet.Some? ==> PacketFollows(a.packet, b.packet.value, Resumed(b, a)))
  }

  /** The step settled last is this one, with this command, after its input and with a verification by the caller. */
  predicate JustSettled(v: Snapshot, step: Option<string>, command: Option<Command>) {
    && v.history != [] && step.Some? && command.Some?
    && var last := v.history[|v.history| - 1];
       last.step == step && last.execution == command && last.byAgent && last.inputCompleted && last.verification.Some?
  }

  /** A wait is about the command of its run, and about its step or the one that its caller has just settled. */
  ghost predicate WaitSound(v: Snapshot) {
    && (v.runner == Waiting ==> v.reason.Some?) && (v.reason == Some(GroundingRequired) ==> v.grounded)
    && (v.wait.Some? ==>
      && v.wait.value.id != "" && v.wait.value.runId == v.RunId()
      && v.wait.value.reason == v.reason && v.wait.value.command == v.active
      && (v.wait.value.step == v.step || JustSettled(v, v.wait.value.step, v.active)))
    && (v.reason in {Some(GroundingRequired), Some(VerificationRequired), Some(ExecutionPending)} ==>
      && v.wait.Some? && v.active.Some?
      && (v.pending == Some(Ticket(v.active, v.step))
          || (v.pending == None && JustSettled(v, v.wait.value.step, v.active))))
  }

  /** A packet is about the command of its snapshot, and one after the action about its wait and its run. */
  ghost predicate PacketSound(v: Snapshot, p: Packet) {
    && p.sealed && p.execution == v.active && v.active.Some? && p.step == v.step
    && v.reason == Some(VerificationRequired)
    && p.scope.runId == v.RunId() && p.scope.planHash == v.binding.scope.planHash
    && p.scope.directory == v.binding.scope.directory && p.scope.target == v.binding.scope.target && 0 <= p.round <= 2
    && (p.kind.Early? || p.kind == Review(1) ==> p.round == 0) && (p.kind == Review(4) ==> p.round <= 1)
    && (p.kind.Review? ==> p.kind.version in {1, 2, 4})
    && (p.kind.Early? ==> v.pending == Some(Ticket(v.active, v.step)) && v.status == Pending && v.runner == Waiting)
    && (!p.kind.Early? ==> p.scope == v.binding.scope && v.wait.Some? && p.waitId == Some(v.wait.value.id))
    && (p.kind.Observed? ==> NamesItsBasis(p))
  }

  /** The first packet with observations names its basis, the second one its basis and its predecessor. */
  ghost predicate NamesItsBasis(p: Packet)
    requires p.kind.Observed?
  {
    var chain := p.kind.chain;
    && (if chain.revision == 1 then chain.ancestors == [chain.basisHash] && chain.previousHash == chain.basisHash
        else && chain.revision == 2 && chain.ancestors == [chain.basisHash, chain.previousHash]
             && chain.previousHash != chain.basisHash)
    && p.hash !in {chain.basisHash, chain.previousHash} && chain.basisRound == p.round
    && p.inputRefs.Some? && exists ref :: ref in p.inputRefs.value && ref.hash == chain.observed
  }

  lemma WellChainedMeans(p: Packet)
    requires p.kind.Observed?
    ensures WellChained(p) <==> NamesItsBasis(p)
  {
    var chain := p.kind.chain;
    if WellChained(p) {
      assert chain.ancestors ==
        if chain.revision == 1 then [chain.basisHash] else [chain.basisHash, chain.previousHash];
    }
  }

  /** What every accepted snapshot satisfies by itself. */
  ghost predicate Sound(v: Snapshot) {
    && (v.status == Completed ==> Proven(v)) && WaitSound(v)
    && (v.packet.Some? ==> PacketSound(v, v.packet.value))
  }

  lemma AcceptableIsSound(v: Snapshot, runId: Option<string>, startId: Option<string>, known: Option<Binding>,
                          before: Option<Known>)
    requires Acceptable(v, runId, startId, known, before)
    ensures Sound(v)
  {
    assert WaitSound(v);
    if v.packet.Some? && v.packet.value.kind.Observed? {
      WellChainedMeans(v.packet.value);
      hide WellChained, NamesItsBasis, Extends;
    }
  }

  ghost predicate Linked(s: seq<Snapshot>) {
    && (forall i | 0 <= i < |s| :: Sound(s[i]))
    && forall i | 0 < i < |s| :: Step(s[i - 1], s[i])
  }

  lemma AcceptableIsLinked(s: seq<Snapshot>, v: Snapshot, runId: Option<string>, startId: Option<string>,
                           known: Option<Binding>, before: Option<Known>)
    requires Linked(s) && Acceptable(v, runId, startId, known, before)
    requires if s == [] then before == None && known == None
             else before.Some? && before.value.snapshot == s[|s| - 1] && known == Some(s[|s| - 1].binding)
    ensures Linked(s + [v])
  {
    AcceptableIsSound(v, runId, startId, known, before);
    hide Sound, PacketFollows, Resumed, Reviewed, WaitFits, TicketFits, PacketBound;
  }

  /** The binding is constant and the histories are prefixes of each other. */
  lemma {:induction false} HistoryGrows(s: seq<Snapshot>, i: nat, j: nat)
    requires Linked(s) && i <= j < |s|
    ensures s[i].binding == s[j].binding && s[i].history <= s[j].history
    decreases j
  {
    if i < j {
      HistoryGrows(s, i, j - 1);
    }
  }

  /** One packet is the other, or is named by it after all that it names, keeps its evidence and is about the same. */
  ghost predicate Descends(a: Packet, b: Packet) {
    || a == b
    || (&& Ancestors(a) + [a.hash] <= Ancestors(b)
        && (forall ref | ref in a.evidenceRefs :: ref in b.evidenceRefs)
        && (forall ref | ref in InputRefs(a) :: ref in InputRefs(b))
        && a.execution == b.execution && a.executed == b.executed && a.waitId == b.waitId
        && a.after == b.after && a.round == b.round && a.inputStatus == b.inputStatus)
  }

  /** For packets that name their basis, the second check says exactly this. */
  lemma ExtendsMeans(a: Packet, b: Packet)
    requires (a.kind.Observed? ==> NamesItsBasis(a)) && b.kind.Observed? && NamesItsBasis(b)
    ensures Descends(a, b) <==> a == b || Extends(a, b)
  {
    var whole := Ancestors(a) + [a.hash];
    if whole <= Ancestors(b) {
      assert Ancestors(b)[..Revision(a)] == Ancestors(a) && Ancestors(b)[Revision(a)] == whole[Revision(a)];
    }
    if Extends(a, b) {
      assert whole == Ancestors(b)[..Revision(a) + 1];
    }
  }

  /** No snapshot of the stretch comes without its packet. */
  ghost predicate WithPackets(s: seq<Snapshot>, i: nat, j: nat)
    requires i <= j < |s|
  {
    forall k | i <= k <= j :: s[k].packet.Some?
  }

  /** No packet of an ordinary review is new in the stretch; such a packet names no packet before it. */
  ghost predicate Unbroken(s: seq<Snapshot>, i: nat, j: nat)
    requires i <= j < |s| && WithPackets(s, i, j)
  {
    forall k | i < k <= j && s[k].packet.value.kind.Review? :: s[k].packet == s[k - 1].packet
  }

  ghost predicate SameStep(s: seq<Snapshot>, i: nat, j: nat)
    requires i <= j < |s|
  {
    forall k | i <= k <= j :: s[k].step == s[i].step
  }

  /** Digests name packets. */
  ghost predicate DigestsDiffer(s: seq<Snapshot>) {
    forall i, j | 0 <= i < |s| && 0 <= j < |s| && s[i].packet.Some? && s[j].packet.Some?
      && s[i].packet.value.hash == s[j].packet.value.hash :: s[i].packet == s[j].packet
  }

  lemma PacketStep(s: seq<Snapshot>, k: nat)
    requires Linked(s) && 0 < k < |s| && s[k - 1].packet.Some? && s[k].packet.Some?
    ensures s[k].binding == s[k - 1].binding
    ensures s[k].active == s[k - 1].active || (s[k - 1].step == s[k].step
      && s[k].active == Some(Retry(s[k].RunId(), s[k].step)) && s[k].packet.value.kind.Review?)
    ensures s[k].packet.value.kind.Early? ==> s[k].packet == s[k - 1].packet
    ensures Descends(s[k - 1].packet.value, s[k].packet.value) <==>
      (s[k].packet.value.kind.Review? ==> s[k].packet == s[k - 1].packet)
    ensures !s[k - 1].packet.value.kind.Early? ==>
      (Descends(s[k - 1].packet.value, s[k].packet.value) <==> s[k].active == s[k - 1].active)
  {
    assert Sound(s[k - 1]) && Sound(s[k]) && Step(s[k - 1], s[k]);
    if s[k].packet.value.kind.Observed? {
      ExtendsMeans(s[k - 1].packet.value, s[k].packet.value);
    }
    hide Linked, WellChained, NamesItsBasis, WaitSound;
  }

  lemma DescendsOn(a: Packet, b: Packet, c: Packet)
    requires Descends(a, b) && Descends(b, c)
    ensures Descends(a, c)
  {
    if a != b && b != c {
      assert Ancestors(a) + [a.hash] <= Ancestors(b) <= Ancestors(b) + [b.hash] <= Ancestors(c);
    }
  }

  /** As long as no snapshot comes without its packet and no ordinary review is new, the packets form one chain. */
  lemma {:induction false} PacketsDescend(s: seq<Snapshot>, i: nat, j: nat)
    requires Linked(s) && i <= j < |s| && WithPackets(s, i, j) && Unbroken(s, i, j)
    ensures Descends(s[i].packet.value, s[j].packet.value)
    decreases j
  {
    hide Linked, Descends;
    if i < j {
      PacketsDescend(s, i, j - 1);
      PacketStep(s, j);
      DescendsOn(s[i].packet.value, s[j - 1].packet.value, s[j].packet.value);
    } else {
      DescendsFromItself(s[i].packet.value);
    }
  }

  lemma DescendsFromItself(p: Packet)
    ensures Descends(p, p)
  {
  }

  lemma DescendantsShareTheTicket(a: Packet, b: Packet)
    requires Descends(a, b)
    ensures a.execution == b.execution
  {
  }

  /**
   * While one step is shown with its packet, a packet that is not early is named by a later one if and only if the
   * command is still the same: resuming the step starts a new chain, and nothing else does.
   */
  lemma {:induction false} PacketsDescendIf(s: seq<Snapshot>, i: nat, j: nat)
    requires Linked(s) && i <= j < |s| && WithPackets(s, i, j) && SameStep(s, i, j)
    requires !s[i].packet.value.kind.Early?
    ensures !s[j].packet.value.kind.Early? && s[j].RunId() == s[i].RunId()
    ensures s[j].active in {s[i].active, Some(Retry(s[i].RunId(), s[i].step))}
    ensures Descends(s[i].packet.value, s[j].packet.value) <==> s[j].active == s[i].active
    decreases j
  {
    ActiveIsBound(s, i);
    ActiveIsBound(s, j);
    hide Linked, Descends;
    var a, c := s[i].packet.value, s[j].packet.value;
    if Descends(a, c) {
      DescendantsShareTheTicket(a, c);
    }
    if i < j {
      PacketsDescendIf(s, i, j - 1);
      PacketStep(s, j);
      if s[j].active == s[i].active {
        DescendsOn(a, s[j - 1].packet.value, c);
      }
    } else {
      DescendsFromItself(a);
    }
  }

  lemma ActiveIsBound(s: seq<Snapshot>, k: nat)
    requires Linked(s) && k < |s| && s[k].packet.Some?
    ensures s[k].active == s[k].packet.value.execution
  {
    assert Sound(s[k]);
  }

  /** Once an ordinary review is shown, every later packet is one or names one as its first ancestor. */
  lemma {:induction false} FirstAncestorIsReview(s: seq<Snapshot>, i: nat, j: nat, k: nat) returns (m: nat)
    requires Linked(s) && i < k <= j < |s| && WithPackets(s, i, j) && s[k].packet.value.kind.Review?
    ensures k <= m <= j && s[m].packet.value.kind.Review? && !s[j].packet.value.kind.Early?
    ensures s[j].packet == s[m].packet
      || (s[j].packet.value.kind.Observed? && Ancestors(s[j].packet.value) != []
          && Ancestors(s[j].packet.value)[0] == s[m].packet.value.hash)
    decreases j
  {
    if k == j || s[j].packet.value.kind.Review? {
      m := j;
    } else {
      m := FirstAncestorIsReview(s, i, j - 1, k);
      PacketStep(s, j);
      hide Linked;
    }
  }

  /** A packet about a field or before an action is named exactly until an ordinary review takes its place. */
  lemma EarlyDescendsIf(s: seq<Snapshot>, i: nat, j: nat)
    requires Linked(s) && i <= j < |s| && WithPackets(s, i, j)
    requires s[i].packet.value.kind.Early? && DigestsDiffer(s)
    ensures Descends(s[i].packet.value, s[j].packet.value) <==>
      forall k | i < k <= j :: !s[k].packet.value.kind.Review?
  {
    if k :| i < k <= j && s[k].packet.value.kind.Review? {
      var m := FirstAncestorIsReview(s, i, j, k);
      hide Linked;
      assert !Descends(s[i].packet.value, s[j].packet.value);
    } else {
      PacketsDescend(s, i, j);
    }
  }

  /**
   * One poll: after a snapshot without a packet, the checks accept every well-formed packet with observations if
   * they accept one, whatever it says about earlier packets; after a snapshot with one, exactly those that name it.
   */
  lemma ChainIsForgotten(v: Snapshot, runId: Option<string>, startId: Option<string>, known: Option<Binding>,
                         before: Option<Known>, p: Packet)
    requires Acceptable(v, runId, startId, known, before) && v.packet.Some? && v.packet.value.kind.Observed?
    requires p.kind.Observed? && PacketBound(v, p) && (before.Some? ==> Sound(before.value.snapshot))
    ensures before == None || before.value.snapshot.packet == None ==>
      (Acceptable(v.(packet := Some(p)), runId, startId, known, before) <==> NamesItsBasis(p))
    ensures before.Some? && before.value.snapshot.packet.Some? ==>
      (Acceptable(v.(packet := Some(p)), runId, startId, known, before)
       <==> NamesItsBasis(p) && Descends(before.value.snapshot.packet.value, p))
  {
    PacketDecides(v, runId, startId, known, before, p);
    WellChainedMeans(p);
    if NamesItsBasis(p) && before.Some? && before.value.snapshot.packet.Some? {
      ExtendsMeans(before.value.snapshot.packet.value, p);
    }
    hide Sound, NamesItsBasis, Descends, Acceptable, WellChained, Extends;
  }

  /** Another well-formed packet in an accepted snapshot: only whether it follows the last packet decides. */
  lemma PacketDecides(v: Snapshot, runId: Option<string>, startId: Option<string>, known: Option<Binding>,
                      before: Option<Known>, p: Packet)
    requires Acceptable(v, runId, startId, known, before) && v.packet.Some? && p.kind.Observed? && PacketBound(v, p)
    ensures Acceptable(v.(packet := Some(p)), runId, startId, known, before) <==>
      PacketFollows(if before.Some? then before.value.snapshot.packet else None, p, false)
  {
    var w := v.(packet := Some(p));
    assert Reviewed(w, before) == Reviewed(v, before) && PhasesFit(w) && EndFits(w, Reviewed(w, before)) by {
      hide Continues, PacketBound, PacketFollows, WellChained, Extends, Resumed;
    }
    assert Continues(w, before) by {
      hide Reviewed, PacketFits, PacketBound, PacketFollows, WellChained, Extends;
    }
    assert PacketBound(w, p) by {
      hide Continues, Reviewed, PacketFollows, WellChained, Extends, Resumed;
    }
    hide Reviewed, Continues, PacketBound, WellChained, Extends, Resumed, Proven;
  }

  /** A stretch of snapshots that all wait for the same step, with nothing settled meanwhile. */
  ghost predicate Stays(s: seq<Snapshot>, i: nat, j: nat)
    requires i <= j < |s|
  {
    forall k | i <= k <= j :: |s[k].history| == |s[i].history| && s[k].step == s[i].step && s[k].active.Some?
  }

  /** The step is resumed: its packet showed that the action was blocked before it was sent, and it is resumed once. */
  predicate ResumedOnce(a: Snapshot, b: Snapshot) {
    && a.packet.Some? && a.packet.value.executed == Some(false) && a.packet.value.after == None
    && a.packet.value.reason == "blocked_before_dispatch" && a.packet.value in b.resumes
    && b.binding.policy == "intervention_v1" && b.step == a.step && b.active == Some(Retry(b.RunId(), a.step))
    && a.step.Some? && a.step.value in b.attempts && b.attempts[a.step.value] == 1
  }

  /** An ordinary packet takes the place of another one only when the step is resumed or its field is filled in. */
  predicate MayReplace(a: Snapshot, b: Snapshot, prior: Packet, p: Packet) {
    || p == prior || !p.kind.Review? || ResumedOnce(a, b)
    || (prior.kind.Early? && p.inputStatus == "completed" && p.step == prior.step && p.execution == prior.execution)
  }

  ghost predicate Replaced(a: Snapshot, b: Snapshot) {
    a.packet.Some? && b.packet.Some? ==> MayReplace(a, b, a.packet.value, b.packet.value)
  }

  /** The command may change once, to that of the only retry, and only after proof that nothing was executed. */
  ghost predicate TicketKept(s: seq<Snapshot>, i: nat, j: nat)
    requires i <= j < |s|
  {
    s[j].active != s[i].active ==>
      && s[j].active == Some(Retry(s[i].RunId(), s[i].step))
      && exists k :: i <= k < j && ResumedOnce(s[k], s[k + 1])
  }

  /** The command of a waiting step changes at most once, to that of its only retry. */
  lemma {:induction false} TicketIsKept(s: seq<Snapshot>, i: nat, j: nat)
    requires Linked(s) && i <= j < |s| && Stays(s, i, j)
    ensures TicketKept(s, i, j)
    decreases j
  {
    if i < j {
      TicketIsKept(s, i, j - 1);
      HistoryGrows(s, i, j - 1);
      assert Step(s[j - 1], s[j]);
      if s[j].active != s[j - 1].active {
        assert ResumedOnce(s[j - 1], s[j]);
      }
      hide Linked, Sound, Extends, WellChained;
    }
  }

  /** When exactly a packet is named by a later one, if no snapshot between them comes without its packet. */
  ghost predicate PacketsChained(s: seq<Snapshot>, i: nat, j: nat)
    requires i <= j < |s| && WithPackets(s, i, j)
  {
    var named := Descends(s[i].packet.value, s[j].packet.value);
    && (Unbroken(s, i, j) ==> named)
    && (!s[i].packet.value.kind.Early? && SameStep(s, i, j) ==> (named <==> s[j].active == s[i].active))
    && (s[i].packet.value.kind.Early? && DigestsDiffer(s) ==>
      (named <==> forall k | i < k <= j :: !s[k].packet.value.kind.Review?))
  }

  lemma PacketsAreChained(s: seq<Snapshot>, i: nat, j: nat)
    requires Linked(s) && i <= j < |s| && WithPackets(s, i, j)
    ensures PacketsChained(s, i, j)
  {
    hide Linked, Descends, Unbroken, SameStep, DigestsDiffer;
    if Unbroken(s, i, j) {
      PacketsDescend(s, i, j);
    }
    if s[i].packet.value.kind.Early? {
      if DigestsDiffer(s) {
        EarlyDescendsIf(s, i, j);
      }
    } else if SameStep(s, i, j) {
      PacketsDescendIf(s, i, j);
    }
  }

  /** What is promised of all snapshots accepted of one run, not only of neighbours. */
  ghost predicate Chained(s: seq<Snapshot>) {
    && (forall i | 0 <= i < |s| :: Sound(s[i]))
    && (forall i | 0 < i < |s| :: Replaced(s[i - 1], s[i]))
    && forall i, j | 0 <= i <= j < |s| ::
      && s[i].binding == s[j].binding && s[i].history <= s[j].history
      && (WithPackets(s, i, j) ==> PacketsChained(s, i, j))
      && (Stays(s, i, j) ==> TicketKept(s, i, j))
  }

  lemma StepReplaces(a: Snapshot, b: Snapshot)
    requires Step(a, b)
    ensures Replaced(a, b)
  {
    hide Extends, WellChained;
  }

  lemma LinkedIsChained(s: seq<Snapshot>)
    requires Linked(s)
    ensures Chained(s)
  {
    forall i | 0 < i < |s| ensures Replaced(s[i - 1], s[i]) {
      StepReplaces(s[i - 1], s[i]);
    }
    hide Step, Sound, Replaced;
    forall i, j | 0 <= i <= j < |s|
      ensures s[i].binding == s[j].binding && s[i].history <= s[j].history
      ensures WithPackets(s, i, j) ==> PacketsChained(s, i, j)
      ensures Stays(s, i, j) ==> TicketKept(s, i, j)
    {
      hide PacketsChained, Stays, WithPackets, Linked, TicketKept;
      HistoryGrows(s, i, j);
      if WithPackets(s, i, j) {
        PacketsAreChained(s, i, j);
      }
      if Stays(s, i, j) {
        TicketIsKept(s, i, j);
      }
    }
    hide PacketsChained, Stays, WithPackets, TicketKept;
  }

  /**
   * A snapshot that was accepted is accepted again, provided the client remembers that its wait was reviewed; the
   * snapshot alone does not say so, and then it is refused exactly when the wait was reviewed.
   */
  lemma RereadingIsAccepted(v: Snapshot, runId: Option<string>, startId: Option<string>, known: Option<Binding>,
                            before: Option<Known>)
    requires Acceptable(v, runId, startId, known, before)
    ensures Acceptable(v, runId, startId, Some(v.binding), Some(Known(v, Reviewed(v, before))))
    ensures Acceptable(v, runId, startId, Some(v.binding), Some(Known(v, false))) <==> !Reviewed(v, before)
  {
  }

  // ------------------------------------------------------------------ the client

  /** What one poll of a run brings. */
  datatype Read =
    | Projection(snapshot: Option<Snapshot>, usable: bool)   // the host's status, and whether it can be believed
    | Receipt(snapshot: Option<Snapshot>)                    // the result of the request, None while it is pending
    | Silence                                                // a time-out or an unknown result

  /** Nothing that was accepted is forgotten. */
  ghost predicate Grows(a: map<string, seq<Snapshot>>, b: map<string, seq<Snapshot>>) {
    forall run | run in a :: run in b && a[run] <= b[run]
  }

  /** What the client stores of a run is the last snapshot it accepted. */
  ghost predicate Remembers(bindings: map<string, Binding>, progress: map<string, Known>,
                            accepted: map<string, seq<Snapshot>>)
  {
    && bindings.Keys == accepted.Keys && progress.Keys == accepted.Keys
    && forall run | run in accepted ::
      var s := accepted[run];
      && s != [] && Linked(s) && progress[run].snapshot == s[|s| - 1] && bindings[run] == s[|s| - 1].binding
      && s[|s| - 1].RunId() == run
  }

  lemma RemembersMore(bindings: map<string, Binding>, progress: map<string, Known>,
                      accepted: map<string, seq<Snapshot>>, v: Snapshot, reviewed: bool, more: seq<Snapshot>)
    requires Remembers(bindings, progress, accepted) && more != [] && more[|more| - 1] == v && Linked(more)
    ensures Remembers(bindings[v.RunId() := v.binding], progress[v.RunId() := Known(v, reviewed)],
                      accepted[v.RunId() := more])
  {
  }

  lemma LastIsRemembered(bindings: map<string, Binding>, progress: map<string, Known>,
                         accepted: map<string, seq<Snapshot>>, run: string)
    requires Remembers(bindings, progress, accepted)
    ensures run in bindings <==> run in accepted
    ensures run in progress <==> run in accepted
    ensures if run in accepted then
        var s := accepted[run];
        && s != [] && Linked(s) && progress[run].snapshot == s[|s| - 1] && bindings[run] == s[|s| - 1].binding
        && s[|s| - 1].RunId() == run
      else Linked([])
  {
  }

  lemma IdentityIsChecked(v: Snapshot, runId: Option<string>, startId: Option<string>, known: Option<Binding>,
                          before: Option<Known>)
    requires Acceptable(v, runId, startId, known, before)
    ensures runId in {None, Some(v.RunId())}
  {
  }

  function Find<T>(m: map<string, T>, key: string): Option<T> {
    if key in m then Some(m[key]) else None
  }

  class PlanClient {
    var bindings: map<string, Binding>
    var progress: map<string, Known>
    ghost var accepted: map<string, seq<Snapshot>>

    constructor ()
      ensures Valid() && accepted == map[]
    {
      bindings, progress, accepted := map[], map[], map[];
    }

    ghost predicate Valid()
      reads this
    {
      Remembers(bindings, progress, accepted)
    }

    ghost function Accepted(run: string): seq<Snapshot>
      reads this
    {
      if run in accepted then accepted[run] else []
    }

    /** `_plan_snapshot`; the caller may give the snapshot it read last instead of what is stored. */
    method PlanSnapshot(v: Snapshot, runId: Option<string>, startId: Option<string>, previous: Option<Known>)
      returns (ok: bool)
      requires Valid()
      requires previous.Some? ==>
        && previous.value.snapshot.RunId() in progress
        && progress[previous.value.snapshot.RunId()].snapshot == previous.value.snapshot
        && previous.value.snapshot.RunId() in {v.RunId(), if runId.Some? then runId.value else v.RunId()}
      modifies this
      ensures Valid() && Grows(old(accepted), accepted)
      ensures ok <==> Acceptable(v, runId, startId, Find(old(bindings), v.RunId()),
                                 if previous.Some? then previous else Find(old(progress), v.RunId()))
      ensures !ok ==> accepted == old(accepted) && progress == old(progress) && bindings == old(bindings)
      ensures ok ==> accepted == old(accepted)[v.RunId() := old(Accepted(v.RunId())) + [v]]
      ensures ok ==>
        && bindings == old(bindings)[v.RunId() := v.binding]
        && progress == old(progress)[v.RunId() := Known(v, Reviewed(v,
          if previous.Some? then previous else Find(old(progress), v.RunId())))]
    {
      hide Acceptable, Reviewed, Linked, Remembers;
      var before := if previous.Some? then previous else Find(progress, v.RunId());
      ok := Acceptable(v, runId, startId, Find(bindings, v.RunId()), before);
      if ok {
        IdentityIsChecked(v, runId, startId, Find(bindings, v.RunId()), before);
        LastIsRemembered(bindings, progress, accepted, v.RunId());
        AcceptableIsLinked(Accepted(v.RunId()), v, runId, startId, Find(bindings, v.RunId()), before);
        var reviewed := Reviewed(v, before);
        RemembersMore(bindings, progress, accepted, v, reviewed, Accepted(v.RunId()) + [v]);
        bindings := bindings[v.RunId() := v.binding];
        progress := progress[v.RunId() := Known(v, reviewed)];
        accepted := accepted[v.RunId() := Accepted(v.RunId()) + [v]];
      }
    }

    /**
     * `run_plan`: polls until the run needs its caller. A usable projection is checked twice, the second time
     * against itself.
     */
    method RunPlan(runId: Option<string>, startId: Option<string>, polls: seq<Read>) returns (raised: bool)
      requires Valid()
      modifies this
      ensures Valid() && Grows(old(accepted), accepted)
    {
      hide Acceptable, Reviewed, Linked, Remembers, NeedsCaller;
      var run, previous := runId, if runId.Some? then Find(progress, runId.value) else None;
      if runId.Some? {
        LastIsRemembered(bindings, progress, accepted, runId.value);
      }
      for i := 0 to |polls|
        invariant Valid() && Grows(old(accepted), accepted)
        invariant previous.Some? ==>
          && run == Some(previous.value.snapshot.RunId()) && run.value in progress
          && progress[run.value].snapshot == previous.value.snapshot
      {
        if polls[i].Silence? {
          return false;
        }
        if polls[i].snapshot.None? {
          if polls[i].Projection? && !polls[i].usable {
            return false;
          }
        } else {
          var v := polls[i].snapshot.value;
          var ok := PlanSnapshot(v, run, startId, previous);
          if !ok {
            return true;
          }
          if polls[i].Projection? {
            if !polls[i].usable {
              return false;
            }
            ok := PlanSnapshot(v, run, startId, Some(Known(v, false)));
            if !ok {
              return true;
            }
          }
          run, previous := Some(v.RunId()), Some(Known(v, false));
          if NeedsCaller(v, progress[v.RunId()].reviewed) {
            return false;
          }
        }
      }
      raised := false;
    }

    /** Any calls, each of which polls any number of times: whatever is accepted of a run forms one chain. */
    method Drive(calls: seq<(Option<string>, Option<string>, seq<Read>)>)
      requires Valid()
      modifies this
      ensures Valid() && Grows(old(accepted), accepted)
      ensures forall run | run in accepted :: Chained(accepted[run])
    {
      for i := 0 to |calls|
        invariant Valid() && Grows(old(accepted), accepted)
      {
        var _ := RunPlan(calls[i].0, calls[i].1, calls[i].2);
      }
      forall run | run in accepted ensures Chained(accepted[run]) {
        LinkedIsChained(accepted[run]);
      }
    }
  }

  /** The call returns: the run is over, its wait was reviewed, or it waits for something else than its execution. */
  predicate NeedsCaller(v: Snapshot, reviewed: bool) {
    || Final(v.runner) || reviewed
    || (v.reason.Some? && v.reason != Some(ExecutionPending) && !v.observing
        && v.status != CancelRequested && v.runner != CancelRequested)
  }
  // ------------------------------------------------------------------ where the chain of packets starts over

  /** A snapshot of a step that waits for its review, with the packet to review if there is one. */
  function WaitingFor(command: Command, packet: Option<Packet>, resumes: seq<Packet>): Snapshot {
    var scope := Scope("run", "plan", "0", "window", "owner", "directory");
    Snapshot(true, Binding(scope, "start", "intervention_v1", ""), [], Pending, Waiting, Some("step"), Some(command),
             Some(VerificationRequired),
             Some(Wait("wait", "run", Some("step"), Some(command), Some(VerificationRequired))),
             Some(Ticket(Some(command), Some("step"))), true, packet, false, 1, 0, map["step" := 1], resumes)
  }

  /** A packet of that step, which was blocked before its action. */
  function PacketOf(kind: Kind, hash: string, command: Command): Packet {
    var scope := Scope("run", "plan", "0", "window", "owner", "directory");
    var evidence := [Ref("image", "1")];
    Packet(kind, hash, true, scope, Some("step"), Some(command), Some("wait"), 0, None, "completed", Some(false),
           "blocked_before_dispatch", Some(evidence), evidence)
  }

  /** A packet with one observation after the packet with this digest. */
  function ObservedAfter(ancestor: string, hash: string, command: Command): Packet {
    PacketOf(Observed(Chain(1, [ancestor], ancestor, ancestor, 0, "1")), hash, command)
  }

  lemma PacketOfIsBound(kind: Kind, hash: string, command: Command, resumes: seq<Packet>)
    requires RoundFits(PacketOf(kind, hash, command))
    ensures var p := PacketOf(kind, hash, command);
      PacketBound(WaitingFor(command, Some(p), resumes), p)
  {
  }

  lemma ObservedIsWellChained(ancestor: string, hash: string, command: Command)
    requires ancestor != hash
    ensures WellChained(ObservedAfter(ancestor, hash, command))
  {
    assert ObservedAfter(ancestor, hash, command).inputRefs.value[0] == Ref("image", "1");
  }

  /** Each of the three is accepted after the one before it, and no step is settled yet. */
  predicate InTurn(x: Snapshot, y: Snapshot, z: Snapshot) {
    && x.history == y.history == z.history == []
    && Acceptable(x, Some("run"), None, None, None)
    && Acceptable(y, Some("run"), None, Some(x.binding), Some(Known(x, false)))
    && Acceptable(z, Some("run"), None, Some(y.binding), Some(Known(y, false)))
  }

  lemma WaitingIsAcceptable(command: Command, packet: Option<Packet>, resumes: seq<Packet>, known: Option<Binding>,
                            before: Option<Known>)
    requires known in {None, Some(WaitingFor(command, packet, resumes).binding)}
    requires packet.Some? ==> PacketBound(WaitingFor(command, packet, resumes), packet.value)
    requires before.Some? ==> before.value.snapshot.history == []
    requires before.Some? && TicketMoved(WaitingFor(command, packet, resumes), before.value.snapshot) ==>
      Resumed(WaitingFor(command, packet, resumes), before.value.snapshot)
    requires packet.Some? ==>
      PacketFollows(if before.Some? then before.value.snapshot.packet else None, packet.value,
        before.Some? && Resumed(WaitingFor(command, packet, resumes), before.value.snapshot))
    ensures Acceptable(WaitingFor(command, packet, resumes), Some("run"), None, known, before)
  {
    hide PacketBound, PacketFollows, Resumed;
  }

  const COMMAND := Issued("command")
  const AGAIN := Retry("run", Some("step"))

  /** The same wait is read without its packet in between. */
  lemma GapInTurn() returns (x: Snapshot, y: Snapshot, z: Snapshot)
    ensures InTurn(x, y, z) && x.packet.Some? && y.packet == None && z.packet.Some?
    ensures z.active == x.active && !x.packet.value.kind.Early? && !Descends(x.packet.value, z.packet.value)
  {
    var a, b := ObservedAfter("a", "b", COMMAND), ObservedAfter("c", "d", COMMAND);
    x, y, z := WaitingFor(COMMAND, Some(a), []), WaitingFor(COMMAND, None, []), WaitingFor(COMMAND, Some(b), []);
    ObservedIsWellChained("a", "b", COMMAND);
    ObservedIsWellChained("c", "d", COMMAND);
    PacketOfIsBound(a.kind, "b", COMMAND, []);
    PacketOfIsBound(b.kind, "d", COMMAND, []);
    hide PacketBound, WellChained, Acceptable;
    WaitingIsAcceptable(COMMAND, Some(a), [], None, None);
    WaitingIsAcceptable(COMMAND, None, [], Some(x.binding), Some(Known(x, false)));
    WaitingIsAcceptable(COMMAND, Some(b), [], Some(y.binding), Some(Known(y, false)));
  }

  /** An early packet gives way to an ordinary one, and the next packet does not know it. */
  lemma FieldInTurn() returns (x: Snapshot, y: Snapshot, z: Snapshot)
    ensures InTurn(x, y, z) && x.packet.Some? && y.packet.Some? && z.packet.Some?
    ensures x.packet.value.kind.Early? && x.step == y.step == z.step && x.active == y.active == z.active
    ensures !Descends(x.packet.value, z.packet.value)
  {
    var e, r, o := PacketOf(Early, "e", COMMAND), PacketOf(Review(1), "r", COMMAND), ObservedAfter("r", "o", COMMAND);
    x, y := WaitingFor(COMMAND, Some(e), []), WaitingFor(COMMAND, Some(r), []);
    z := WaitingFor(COMMAND, Some(o), []);
    ObservedIsWellChained("r", "o", COMMAND);
    PacketOfIsBound(Early, "e", COMMAND, []);
    PacketOfIsBound(Review(1), "r", COMMAND, []);
    PacketOfIsBound(o.kind, "o", COMMAND, []);
    hide PacketBound, WellChained, Acceptable;
    WaitingIsAcceptable(COMMAND, Some(e), [], None, None);
    WaitingIsAcceptable(COMMAND, Some(r), [], Some(x.binding), Some(Known(x, false)));
    WaitingIsAcceptable(COMMAND, Some(o), [], Some(y.binding), Some(Known(y, false)));
  }

  /** The step is resumed after its first packet, and the next packet with observations does not know that packet. */
  lemma RetryInTurn() returns (x: Snapshot, y: Snapshot, z: Snapshot)
    ensures InTurn(x, y, z) && x.packet.Some? && y.packet.Some? && z.packet.Some?
    ensures x.packet.value.kind.Observed? && x.step == y.step == z.step && x.active != y.active == z.active
    ensures !Descends(x.packet.value, z.packet.value)
  {
    var a, r, o := ObservedAfter("a", "b", COMMAND), PacketOf(Review(1), "r", AGAIN), ObservedAfter("r", "o", AGAIN);
    x, y := WaitingFor(COMMAND, Some(a), []), WaitingFor(AGAIN, Some(r), [a]);
    z := WaitingFor(AGAIN, Some(o), [a]);
    ObservedIsWellChained("a", "b", COMMAND);
    ObservedIsWellChained("r", "o", AGAIN);
    PacketOfIsBound(a.kind, "b", COMMAND, []);
    PacketOfIsBound(Review(1), "r", AGAIN, [a]);
    PacketOfIsBound(o.kind, "o", AGAIN, [a]);
    assert Resumed(y, x);
    hide PacketBound, WellChained, Acceptable, Resumed;
    WaitingIsAcceptable(COMMAND, Some(a), [], None, None);
    WaitingIsAcceptable(AGAIN, Some(r), [a], Some(x.binding), Some(Known(x, false)));
    WaitingIsAcceptable(AGAIN, Some(o), [a], Some(y.binding), Some(Known(y, false)));
  }

  /** A client reads one more snapshot of a run in which no step is settled yet. */
  method ReadNext(client: PlanClient, run: string, v: Snapshot)
    requires client.Valid() && v.history == []
    requires Acceptable(v, Some(run), None, Find(client.bindings, run), Find(client.progress, run))
    modifies client
    ensures client.Valid() && client.accepted == old(client.accepted)[run := old(client.Accepted(run)) + [v]]
    ensures Find(client.bindings, run) == Some(v.binding) && Find(client.progress, run) == Some(Known(v, false))
  {
    IdentityIsChecked(v, Some(run), None, Find(client.bindings, run), Find(client.progress, run));
    hide Acceptable, Linked, Remembers;
    var _ := client.PlanSnapshot(v, Some(run), None, None);
  }

  /** A new client that reads three such snapshots has accepted them all. */
  method ReadInTurn(x: Snapshot, y: Snapshot, z: Snapshot) returns (client: PlanClient)
    requires InTurn(x, y, z)
    ensures fresh(client) && client.Valid() && client.accepted == map["run" := [x, y, z]]
  {
    hide Acceptable, Linked, Remembers;
    client := new PlanClient();
    LastIsRemembered(client.bindings, client.progress, client.accepted, "run");
    ReadNext(client, "run", x);
    assert client.Accepted("run") == [x];
    ReadNext(client, "run", y);
    assert client.Accepted("run") == [x, y];
    ReadNext(client, "run", z);
    assert client.Accepted("run") == [x, y, z];
  }
}
