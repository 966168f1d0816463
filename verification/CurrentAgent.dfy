/**
 * The click session of the current Agent: prepare, ground, continue, verify, complete, with every
 * transmission possibly timing out, failing, or being answered by an unexpected receipt.
 *
 * `log` records what was transmitted, which commands had a terminal receipt, which were decisively
 * judged, and when the session was closed.  Orderly(log) is what every run keeps.
 */
module CurrentAgent {
  import opened Values

  datatype Phase =
    | Idle | Preparing | PendingReceipt | ResultUnknown | Running | ReviewRequired
    | ImageRequired | AwaitingGrounding | GroundingReady | GroundingRejected
    | Cancelling | CancelledPhase | VerificationRequired | Verified | CompletedPhase

  datatype Purpose = Prepare | Resolve | Continue | Cancel | StatusQuery | Setup

  datatype RuntimeStatus =
    | Completed | Failed | Cancelled | Rejected | AwaitingGroundingStatus | RunningStatus
    | AwaitingReview | OtherStatus
  {
    predicate Terminal() { Completed? || Failed? || Cancelled? }
  }

  datatype Verdict = Success | Failure | Uncertain

  datatype Outer = Outer(purpose: Purpose, selects: bool, resume: Phase)

  /** The pending grounding of a receipt, or the hand-off of a resolve, as far as the client binds it. */
  datatype Grounding = Grounding(request: string, capture: string, sameWindow: bool, image: bool, imageIntact: bool)

  datatype Body =
    | NoBody
    | HandOff(grounding: Grounding, ready: bool)
    | AgentCommand(command: string, status: RuntimeStatus, cancelRequested: bool, executed: Option<bool>,
                   dispatchUnknown: bool, pendingGrounding: Option<Grounding>, afterImage: bool, afterIntact: bool)

  datatype ReceiptStatus = StillPending | Unknown | NotFound | Returned

  datatype Receipt = Receipt(request: string, status: ReceiptStatus, workerUnknown: bool,
                             windowMatches: bool, body: Body)

  /** The outcome of one call on the connection. */
  datatype Reply =
    | Answer(receipt: Receipt)
    | Refusal(definite: bool)       // `definite`: accepted and action_executed are both false
    | Timeout
    | Broken                        // any other exception

  datatype Mark =
    | Sent(id: string, purpose: Purpose)
    | TerminalReceipt(command: string)   // a terminal status, or a definite rejection of the click
    | Decided(command: string)           // a verdict other than `uncertain`
    | Closed                             // cancelled or completed

  ghost function Marks(log: seq<Mark>): set<Mark> {
    set m | m in log
  }

  /** May `next` follow a log with these marks? */
  ghost predicate MayFollow(marks: set<Mark>, next: Mark) {
    match next
    case Sent(id, purpose) =>
      && (forall m | m in marks && m.Sent? :: m.id != id)
      && (purpose in {Prepare, Resolve, Continue} ==> Closed !in marks)
      && (purpose == Prepare ==> AllSettled(marks))
    case TerminalReceipt(command) => Sent(command, Prepare) in marks
    case Decided(command) => TerminalReceipt(command) in marks
    case Closed => true
  }

  /** Every click so far had a terminal receipt and a decisive verdict. */
  ghost predicate AllSettled(marks: set<Mark>) {
    forall c | Sent(c, Prepare) in marks :: TerminalReceipt(c) in marks && Decided(c) in marks
  }

  /**
   * No outer id is transmitted twice; a click follows another only once that one had a terminal receipt and
   * a decisive verdict; and after cancel or complete no prepare, resolve or continue is transmitted.
   */
  ghost predicate Orderly(log: seq<Mark>) {
    forall i | 0 <= i < |log| :: MayFollow(Marks(log[..i]), log[i])
  }

  lemma OrderlyGrows(log: seq<Mark>, next: Mark)
    requires Orderly(log) && MayFollow(Marks(log), next)
    ensures Orderly(log + [next]) && Marks(log + [next]) == Marks(log) + {next}
  {
    hide MayFollow;
    forall i | 0 <= i < |log| + 1 ensures MayFollow(Marks((log + [next])[..i]), (log + [next])[i]) {
      if i < |log| {
        assert (log + [next])[..i] == log[..i];
      } else {
        assert (log + [next])[..i] == log;
      }
    }
  }

  /** Only these transmissions were added. */
  predicate OnlySends(before: set<Mark>, after: set<Mark>, sends: set<Mark>) {
    before <= after && forall m | m in after && m.Sent? :: m in before || m in sends
  }

  lemma Earlier(log: seq<Mark>, bound: nat, mark: Mark) returns (at: nat)
    requires bound <= |log| && mark in Marks(log[..bound])
    ensures at < bound && log[at] == mark
  {
    at :| 0 <= at < bound && log[..bound][at] == mark;
  }

  /** Between two clicks lie a terminal receipt of the first and then a decisive verdict on it. */
  lemma ClicksAreSeparated(log: seq<Mark>, i: nat, j: nat, first: string, second: string)
    requires Orderly(log) && i < j < |log| && log[i] == Sent(first, Prepare) && log[j] == Sent(second, Prepare)
    ensures exists k, m :: i < k < m < j && log[k] == TerminalReceipt(first) && log[m] == Decided(first)
  {
    assert Sent(first, Prepare) in Marks(log[..j]) by {
      assert log[..j][i] == Sent(first, Prepare);
    }
    assert MayFollow(Marks(log[..j]), log[j]);
    var m := Earlier(log, j, Decided(first));
    assert MayFollow(Marks(log[..m]), log[m]);
    var k := Earlier(log, m, TerminalReceipt(first));
    assert MayFollow(Marks(log[..k]), log[k]);
    var h := Earlier(log, k, Sent(first, Prepare));
    SentTwice(log, h, i);
  }

  lemma SentOnce(log: seq<Mark>, i: nat, j: nat)
    requires Orderly(log) && i < j < |log| && log[i].Sent? && log[j].Sent?
    ensures log[i].id != log[j].id
  {
    assert MayFollow(Marks(log[..j]), log[j]);
    assert log[..j][i] in Marks(log[..j]);
  }

  lemma SentTwice(log: seq<Mark>, i: nat, j: nat)
    requires Orderly(log) && i < |log| && j < |log| && log[i].Sent? && log[j].Sent? && log[i].id == log[j].id
    ensures i == j
  {
    hide Orderly;
    if i < j {
      SentOnce(log, i, j);
    } else if j < i {
      SentOnce(log, j, i);
    }
  }

  /** The state of one click; a new click starts from a fresh one. */
  datatype AgentState = AgentState(
    phase: Phase,
    commandId: Option<string>,
    pending: Option<string>,             // pending_request_id; its purpose is in `requests`
    runtimeStatus: Option<RuntimeStatus>,
    runtimeTerminal: bool,
    executed: Option<bool>,
    groundingRequest: Option<string>,
    capture: string,
    originalImage: bool,
    afterImage: bool,
    resolvedStatus: Option<bool>,        // Some(true) once a resolve made the grounding ready
    cancelRequested: bool,
    verdict: Option<Verdict>,
    completed: bool,
    unclear: bool)                       // what the last report left open; no branch of the client reads it

  function Fresh(commandId: Option<string>, phase: Phase): AgentState {
    AgentState(phase, commandId, None, None, false, None, None, "", false, false, None, false, None, false,
               false)
  }

  /** The same click, with nothing taken back. */
  predicate SameClick(before: AgentState, after: AgentState) {
    && after.commandId == before.commandId && after.completed == before.completed && after.verdict == before.verdict
    && (before.runtimeTerminal ==> after.runtimeTerminal)
    && (before.cancelRequested ==> after.cancelRequested)
  }

  /** What a phase promises about the current command. */
  ghost predicate Backs(p: Phase, commandId: Option<string>, marks: set<Mark>) {
    && (p == Idle ==> commandId == None)
    && (p == Verified ==>
      commandId.Some? && TerminalReceipt(commandId.value) in marks && Decided(commandId.value) in marks)
  }

  /** The current command was transmitted. */
  ghost predicate Issued(commandId: Option<string>, marks: set<Mark>) {
    commandId.Some? ==> Sent(commandId.value, Prepare) in marks
  }

  /** What the state and the reserved outer ids promise about the log. */
  ghost predicate Grounds(s: AgentState, ids: set<string>, log: seq<Mark>, marks: set<Mark>) {
    && Orderly(log) && marks == Marks(log)
    && (forall m | m in marks && m.Sent? :: m.id in ids)
    && (Closed in marks <==> s.cancelRequested || s.completed)
    && (forall c | Sent(c, Prepare) in marks && s.commandId != Some(c) ::
      TerminalReceipt(c) in marks && Decided(c) in marks)
    && (s.runtimeTerminal <==> s.commandId.Some? && TerminalReceipt(s.commandId.value) in marks)
    && (s.verdict.Some? && s.verdict != Some(Uncertain) ==> s.commandId.Some? && Decided(s.commandId.value) in marks)
  }

  /** A terminal report that does not say whether the click was executed. */
  predicate LeavesOpen(body: Body) {
    body.AgentCommand? && body.status.Terminal() && (body.executed == None || body.dispatchUnknown)
  }

  /** Reading this request's receipt ends in a new report on the command, or in the phase `result_unknown`. */
  predicate Rereads(outer: Outer) {
    outer.purpose != Resolve && (outer.purpose == Setup ==> outer.resume == ResultUnknown)
  }

  /** After such a report the phase is `result_unknown`, unless a request is pending, and then that will decide. */
  predicate Cautious(s: AgentState, requests: map<string, Outer>) {
    s.unclear ==>
      && s.commandId.Some? && (s.pending == None ==> s.phase == ResultUnknown)
      && (s.pending.Some? ==> s.pending.value in requests && Rereads(requests[s.pending.value]))
  }

  /** Even while a request is pending. */
  predicate Guarded(s: AgentState) {
    s.unclear ==> s.phase == ResultUnknown
  }

  /** The reply says that the request is still pending. */
  predicate SaysPending(reply: Reply) {
    reply.Answer? && reply.receipt.status == StillPending
  }

  /** The reply is the receipt of this request with a terminal report on the command, and its after-image is intact. */
  predicate Reports(reply: Reply, id: string, command: Option<string>) {
    && reply.Answer? && reply.receipt.request == id && reply.receipt.status == Returned && !reply.receipt.workerUnknown
    && var body := reply.receipt.body;
       body.AgentCommand? && command == Some(body.command) && body.status.Terminal()
       && (body.afterImage ==> body.afterIntact)
  }

  /** The report is adopted: its facts are stored, and unknown execution outweighs everything. */
  predicate Adopts(after: AgentState, body: Body)
    requires body.AgentCommand?
  {
    && after.runtimeTerminal && after.pending == None && after.runtimeStatus == Some(body.status)
    && after.executed == body.executed && after.unclear == (body.executed == None || body.dispatchUnknown)
    && (after.phase == ResultUnknown <==> body.executed == None || body.dispatchUnknown)
  }

  /** The promise between two calls. */
  ghost predicate Fits(s: AgentState, requests: map<string, Outer>, log: seq<Mark>, marks: set<Mark>) {
    && Grounds(s, requests.Keys, log, marks) && Issued(s.commandId, marks) && Backs(s.phase, s.commandId, marks)
    && (s.pending.Some? ==> s.pending.value in requests && Backs(requests[s.pending.value].resume, s.commandId, marks))
    && Cautious(s, requests)
  }

  /** Inside a receipt: the phase may be anything, and `id` can still be made pending again. */
  ghost predicate Holds(s: AgentState, requests: map<string, Outer>, id: string, log: seq<Mark>, marks: set<Mark>) {
    && Grounds(s, requests.Keys, log, marks) && Issued(s.commandId, marks)
    && id in requests && Backs(requests[id].resume, s.commandId, marks)
    && (s.unclear ==> s.commandId.Some? && Rereads(requests[id]))
  }

  /** An accepted verdict; a decisive one leaves its mark. */
  lemma VerdictFits(s: AgentState, judged: AgentState, requests: map<string, Outer>, log: seq<Mark>, marks: set<Mark>)
    requires Fits(s, requests, log, marks) && s.runtimeTerminal && s.phase != ResultUnknown && judged.verdict.Some?
    requires judged == s.(verdict := judged.verdict,
      phase := if judged.verdict == Some(Uncertain) then VerificationRequired else Verified)
    ensures s.commandId.Some?
    ensures judged.verdict == Some(Uncertain) ==> Fits(judged, requests, log, marks)
    ensures judged.verdict != Some(Uncertain) ==>
      Fits(judged, requests, log + [Decided(s.commandId.value)], marks + {Decided(s.commandId.value)})
  {
    hide Orderly, Marks, Grounds;
    GroundsFacts(s, requests.Keys, log, marks);
    if judged.verdict == Some(Uncertain) {
      GroundsChange(s, judged, requests.Keys, requests.Keys, log, marks);
    } else {
      var decided := Decided(s.commandId.value);
      GroundsGrows(s, s, requests.Keys, log, marks, decided);
      GroundsChange(s, judged, requests.Keys, requests.Keys, log + [decided], marks + {decided});
    }
  }

  /** After a report that leaves the execution open, only a pending request leads out of the phase. */
  lemma UnclearWaits(s: AgentState, requests: map<string, Outer>, log: seq<Mark>, marks: set<Mark>)
    requires Fits(s, requests, log, marks)
    ensures s.unclear ==> s.commandId.Some? && (s.pending == None ==> s.phase == ResultUnknown)
  {
    hide Grounds, Backs, Issued;
  }

  lemma FitsBacks(s: AgentState, requests: map<string, Outer>, log: seq<Mark>, marks: set<Mark>)
    requires Fits(s, requests, log, marks)
    ensures Backs(s.phase, s.commandId, marks)
  {
    hide Grounds, Backs, Issued;
  }

  /** A pending receipt can be received. */
  lemma FitsHolds(s: AgentState, requests: map<string, Outer>, id: string, log: seq<Mark>, marks: set<Mark>)
    requires Fits(s, requests, log, marks) && s.pending == Some(id)
    ensures Holds(s, requests, id, log, marks) && id in requests
  {
    hide Grounds, Backs, Issued;
  }

  lemma HoldsChange(s: AgentState, s': AgentState, requests: map<string, Outer>, id: string, log: seq<Mark>,
                    marks: set<Mark>)
    requires Holds(s, requests, id, log, marks) && s'.commandId == s.commandId && s'.unclear == s.unclear
    requires s'.cancelRequested == s.cancelRequested && s'.completed == s.completed
    requires s'.runtimeTerminal == s.runtimeTerminal && s'.verdict == s.verdict
    ensures Holds(s', requests, id, log, marks)
  {
    hide Backs, Issued;
    GroundsChange(s, s', requests.Keys, requests.Keys, log, marks);
    hide Grounds;
  }

  /** What is pending while a report is open leads back to the phase `result_unknown` or to another report. */
  lemma HoldsRereads(s: AgentState, requests: map<string, Outer>, id: string, log: seq<Mark>, marks: set<Mark>)
    requires Holds(s, requests, id, log, marks)
    ensures id in requests && Backs(requests[id].resume, s.commandId, marks)
    ensures s.unclear ==> s.commandId.Some? && Rereads(requests[id])
  {
    hide Grounds, Backs, Issued, Rereads;
  }

  lemma GroundsFacts(s: AgentState, ids: set<string>, log: seq<Mark>, marks: set<Mark>)
    requires Grounds(s, ids, log, marks)
    ensures Orderly(log)
    ensures forall m | m in marks && m.Sent? :: m.id in ids
    ensures Closed in marks <==> s.cancelRequested || s.completed
    ensures s.runtimeTerminal <==> s.commandId.Some? && TerminalReceipt(s.commandId.value) in marks
    ensures s.verdict.Some? && s.verdict != Some(Uncertain) ==> s.commandId.Some? && Decided(s.commandId.value) in marks
  {
    hide Orderly, Marks;
  }

  /** A change of the state that the marks already back. */
  lemma GroundsChange(s: AgentState, s': AgentState, ids: set<string>, ids': set<string>, log: seq<Mark>,
                      marks: set<Mark>)
    requires Grounds(s, ids, log, marks) && ids <= ids' && s'.commandId == s.commandId
    requires s'.cancelRequested || s'.completed <==> s.cancelRequested || s.completed
    requires s'.runtimeTerminal ==>
      s.runtimeTerminal || (s.commandId.Some? && TerminalReceipt(s.commandId.value) in marks)
    requires s.runtimeTerminal ==> s'.runtimeTerminal
    requires s'.verdict in {s.verdict, None, Some(Uncertain)}
      || (s.commandId.Some? && Decided(s.commandId.value) in marks)
    ensures Grounds(s', ids', log, marks)
  {
    hide Orderly, Marks;
  }

  /** One more mark. */
  lemma GroundsGrows(s: AgentState, s': AgentState, ids: set<string>, log: seq<Mark>, marks: set<Mark>, mark: Mark)
    requires Grounds(s, ids, log, marks) && MayFollow(marks, mark)
    requires mark.Sent? ==> mark.id in ids && (mark.purpose == Prepare ==> s.commandId == Some(mark.id))
    requires s' == match mark
      case Closed => s.(cancelRequested := s'.cancelRequested, completed := s'.completed)
      case TerminalReceipt(_) => s.(runtimeTerminal := true)
      case _ => s
    requires mark == Closed ==> s'.cancelRequested || s'.completed
    requires mark.TerminalReceipt? ==> s.commandId == Some(mark.command)
    ensures Grounds(s', ids, log + [mark], marks + {mark})
  {
    hide Orderly, Marks, MayFollow;
    assert marks == Marks(log);
    OrderlyGrows(log, mark);
  }

  lemma BacksGrows(p: Phase, commandId: Option<string>, marks: set<Mark>, more: set<Mark>)
    requires marks <= more
    ensures Backs(p, commandId, marks) ==> Backs(p, commandId, more)
    ensures Issued(commandId, marks) ==> Issued(commandId, more)
  {
  }

  /** A verified or not yet used session may be reset for the next click. */
  lemma ResetGrounds(s: AgentState, ids: set<string>, log: seq<Mark>, marks: set<Mark>, next: string)
    requires Grounds(s, ids, log, marks) && next !in ids && !s.cancelRequested && !s.completed
    requires s.phase in {Idle, Verified} && Backs(s.phase, s.commandId, marks)
    ensures Grounds(Fresh(Some(next), Preparing), ids, log, marks) && AllSettled(marks) && Closed !in marks
  {
    if TerminalReceipt(next) in marks {
      TerminalIsSent(log, next);
    }
    hide Orderly, Marks;
  }

  lemma TerminalIsSent(log: seq<Mark>, command: string)
    requires Orderly(log) && TerminalReceipt(command) in Marks(log)
    ensures Sent(command, Prepare) in Marks(log)
  {
    assert log[..|log|] == log;
    var at := Earlier(log, |log|, TerminalReceipt(command));
    assert MayFollow(Marks(log[..at]), log[at]);
    var before := Earlier(log, at, Sent(command, Prepare));
  }

  /** A verified command has its terminal receipt. */
  lemma VerifiedIsTerminal(s: AgentState, requests: map<string, Outer>, log: seq<Mark>, marks: set<Mark>)
    requires Fits(s, requests, log, marks) && s.phase == Verified
    ensures s.runtimeTerminal && s.commandId.Some?
  {
    hide Orderly, Marks;
  }

  /** The phase after a terminal status. */
  function TerminalPhase(body: Body, verdict: Option<Verdict>, previous: Option<RuntimeStatus>): Phase
    requires body.AgentCommand?
  {
    if body.executed == None || body.dispatchUnknown then ResultUnknown
    else if verdict.Some? && previous == Some(body.status) then
      if verdict == Some(Uncertain) then VerificationRequired else Verified
    else if body.status == Cancelled && body.executed == Some(false) then CancelledPhase
    else VerificationRequired
  }

  /** The phase after a terminal report is backed by the marks. */
  lemma TerminalBacks(s: AgentState, requests: map<string, Outer>, id: string, log: seq<Mark>, marks: set<Mark>,
                      body: Body, previous: Option<RuntimeStatus>)
    requires Holds(s, requests, id, log, marks) && s.runtimeTerminal && body.AgentCommand?
    ensures Backs(TerminalPhase(body, s.verdict, previous), s.commandId, marks)
    ensures body.status.Terminal() && LeavesOpen(body) ==>
      TerminalPhase(body, s.verdict, previous) == ResultUnknown
  {
    GroundsFacts(s, requests.Keys, log, marks);
    hide Grounds, Orderly, Marks;
  }

  /** The phase of a command that waits for a grounding. */
  function GroundingPhase(s: AgentState): Phase {
    if s.resolvedStatus == Some(true) then GroundingReady
    else if s.resolvedStatus.Some? then GroundingRejected
    else if s.originalImage then AwaitingGrounding else ImageRequired
  }

  predicate Decisive(verdict: Option<Verdict>) {
    verdict.Some? && verdict != Some(Uncertain)
  }

  /** Reading the pending receipt will restore the verified phase. */
  predicate Restores(s: AgentState, requests: map<string, Outer>) {
    && s.pending.Some? && s.pending.value in requests
    && requests[s.pending.value].purpose == Setup && requests[s.pending.value].resume == Verified
  }

  /** The phase says verified, and the latest verdict is not decisive. */
  predicate Stale(s: AgentState) {
    s.phase == Verified && !Decisive(s.verdict)
  }

  /** One receipt away from that. */
  predicate Loaded(s: AgentState, requests: map<string, Outer>) {
    Restores(s, requests) && !Decisive(s.verdict)
  }

  predicate Clean(s: AgentState, requests: map<string, Outer>) {
    !Stale(s) && !Loaded(s, requests)
  }

  /** The reply is the resolved receipt of the pending setup command. */
  predicate ReadsBack(s: AgentState, requests: map<string, Outer>, reply: Reply) {
    && reply.Answer? && s.pending == Some(reply.receipt.request) && reply.receipt.request in requests
    && reply.receipt.status == Returned
    && (requests[reply.receipt.request].selects ==> reply.receipt.windowMatches)
  }

  /** The state of a click that was definitely refused. */
  function Refused(s: AgentState): AgentState {
    s.(phase := VerificationRequired, pending := None, runtimeStatus := Some(Rejected), runtimeTerminal := true,
       executed := Some(false))
  }

  /** What reading the receipt of a pending request changes, while it is unresolved or belongs to a setup command. */
  predicate ReadBack(before: AgentState, after: AgentState, requests: map<string, Outer>, receipt: Receipt)
    requires before.pending.Some? && before.pending.value in requests
  {
    var outer := requests[before.pending.value];
    receipt.request == before.pending.value ==>
      && (receipt.status == StillPending ==> after == before.(phase := PendingReceipt))
      && (receipt.status == Returned && outer.purpose == Setup && (outer.selects ==> receipt.windowMatches) ==>
           after == before.(phase := outer.resume, pending := None))
  }

  class CurrentAgentClient {
    var state: AgentState
    var requests: map<string, Outer>
    var clickCommands: set<string>
    var resolvedResult: Option<string>
    ghost var log: seq<Mark>
    ghost var marks: set<Mark>               // the marks in `log`
    ghost var undercuts: nat                 // uncertain verdicts accepted while a receipt could restore `verified`
    ghost var blind: nat                     // verdicts accepted although it was open whether the click was executed

    constructor ()
      ensures Valid() && log == [] && state == Fresh(None, Idle) && requests == map[] && clickCommands == {}
      ensures Clean(state, requests) && undercuts == 0 && blind == 0
    {
      state, requests, clickCommands, resolvedResult, log, marks := Fresh(None, Idle), map[], {}, None, [], {};
      undercuts, blind := 0, 0;
    }

    ghost predicate Valid()
      reads this
    {
      Fits(state, requests, log, marks)
    }

    ghost predicate Receiving(id: string)
      reads this
    {
      Holds(state, requests, id, log, marks)
    }

    /** `_unknown` */
    method MarkUnknown(id: string)
      requires Receiving(id)
      modifies `state
      ensures Valid() && state == old(state).(phase := ResultUnknown, pending := Some(id))
      ensures SameClick(old(state), state)
    {
      hide Grounds;
      GroundsChange(state, state.(phase := ResultUnknown, pending := Some(id)), requests.Keys, requests.Keys, log,
                    marks);
      state := state.(phase := ResultUnknown, pending := Some(id));
    }

    /** The session is closed for input: a cancel was requested, here or by the Runtime. */
    method RequestCancel(ghost id: string)
      requires Receiving(id)
      modifies `state, `log, `marks
      ensures Receiving(id) && state == old(state).(cancelRequested := true)
      ensures marks == if old(state).cancelRequested then old(marks) else old(marks) + {Closed}
    {
      hide Grounds, Backs, Issued;
      if !state.cancelRequested {
        GroundsGrows(state, state.(cancelRequested := true), requests.Keys, log, marks, Closed);
        BacksGrows(requests[id].resume, state.commandId, marks, marks + {Closed});
        state := state.(cancelRequested := true);
        log, marks := log + [Closed], marks + {Closed};
      }
    }

    /** The current command has its terminal receipt. */
    method BecomeTerminal(command: string, ghost id: string)
      requires Receiving(id) && state.commandId == Some(command)
      modifies `state, `log, `marks
      ensures Receiving(id) && state == old(state).(runtimeTerminal := true)
      ensures marks == old(marks) + {TerminalReceipt(command)}
    {
      hide Grounds, Backs;
      GroundsGrows(state, state.(runtimeTerminal := true), requests.Keys, log, marks, TerminalReceipt(command));
      BacksGrows(requests[id].resume, state.commandId, marks, marks + {TerminalReceipt(command)});
      log, marks := log + [TerminalReceipt(command)], marks + {TerminalReceipt(command)};
      state := state.(runtimeTerminal := true);
    }

    // ---------------------------------------------------------------- receipts

    /** `_bind_grounding`; false stands for a refused binding. */
    method BindGrounding(g: Grounding) returns (ok: bool)
      modifies `state, `resolvedResult
      ensures state == old(state).(groundingRequest := state.groundingRequest, capture := state.capture,
                                   originalImage := state.originalImage, resolvedStatus := state.resolvedStatus)
      ensures ok ==> state.groundingRequest == Some(g.request) && state.capture == g.capture
      ensures ok <==>
        && g.sameWindow && (g.image ==> g.imageIntact)
        && if old(state).groundingRequest == Some(g.request) then old(state).capture == g.capture
           else old(state).groundingRequest == None
      ensures old(state).groundingRequest == Some(g.request) ==> state.resolvedStatus == old(state).resolvedStatus
      ensures ok && old(state).groundingRequest == Some(g.request) ==> g.capture == old(state).capture
      ensures ok && old(state).groundingRequest == Some(g.request) ==>
        state.originalImage == (old(state).originalImage || g.image) && resolvedResult == old(resolvedResult)
      ensures ok && old(state).groundingRequest != Some(g.request) ==>
        old(state).groundingRequest == None && resolvedResult == None && state.resolvedStatus == None
          && state.originalImage == g.image
    {
      var known := state.groundingRequest == Some(g.request);
      if if known then state.capture != g.capture else state.groundingRequest.Some? {
        return false;
      }
      if !known {
        resolvedResult := None;
      }
      state := state.(groundingRequest := Some(g.request), capture := g.capture,
                      resolvedStatus := if known then state.resolvedStatus else None,
                      originalImage := known && state.originalImage);
      if !g.sameWindow || (g.image && !g.imageIntact) {
        return false;
      }
      state := state.(originalImage := state.originalImage || g.image);
      ok := true;
    }

    /** `_consume`; false stands for an exception, after which the caller marks the request unknown. */
    method Consume(receipt: Receipt, id: string) returns (ok: bool)
      requires Valid() && state.pending == Some(id)
      modifies `state, `resolvedResult, `log, `marks
      ensures Receiving(id) && SameClick(old(state), state) && OnlySends(old(marks), marks, {})
      ensures ok ==> Valid() && state.pending in {None, Some(id)} && receipt.request == id
      ensures receipt.request != id ==> !ok && state == old(state) && marks == old(marks)
      ensures ok && state.phase == Verified ==>
        Decisive(state.verdict) || (Restores(old(state), requests) && ReadsBack(old(state), requests, Answer(receipt)))
      ensures ok && receipt.status != Returned ==>
        state == old(state).(phase := if receipt.status == StillPending then PendingReceipt else ResultUnknown)
      ensures ok && receipt.status == Returned && requests[id].purpose == Setup ==>
        state == old(state).(phase := requests[id].resume, pending := None)
      ensures receipt.request == id && (receipt.status != Returned || requests[id].purpose == Setup) ==>
        ok == (receipt.status == Returned && requests[id].selects ==> receipt.windowMatches)
      ensures ok && receipt.status != StillPending ==> Guarded(state)
      ensures requests[id].purpose !in {Setup, Resolve} && Reports(Answer(receipt), id, old(state).commandId) ==>
        ok && Adopts(state, receipt.body)
    {
      hide Grounds, Orderly, Marks, OnlySends, Backs, Issued, Fits, Holds, Adopts, Rereads,
        SameClick, Guarded, Decisive;
      FitsHolds(state, requests, id, log, marks);
      OnlySendsNothing(marks);
      SameClickItself(state);
      if receipt.request != id {
        return false;
      }
      if receipt.status != Returned {
        ok := ConsumeWaiting(receipt.status, id);
      } else if requests[id].purpose == Setup {
        ok := ConsumeSetup(receipt, id);
      } else {
        ok := ConsumeResult(receipt, id);
      }
    }

    /** No result yet, or an unknown one: the request stays pending. */
    method ConsumeWaiting(status: ReceiptStatus, id: string) returns (ok: bool)
      requires Receiving(id) && state.pending == Some(id) && status != Returned
      modifies `state
      ensures ok && Valid() && Receiving(id) && SameClick(old(state), state)
      ensures state == old(state).(phase := if status == StillPending then PendingReceipt else ResultUnknown)
      ensures status != StillPending ==> Guarded(state)
    {
      hide Grounds, Orderly, Marks, Backs, Issued, Fits, Holds;
      var waiting := if status == StillPending then PendingReceipt else ResultUnknown;
      FreshBacks(state.commandId, waiting, marks);
      ok := SetPhase(waiting, Some(id), id);
    }

    /** The receipt of a setup command restores the phase it was sent in. */
    method ConsumeSetup(receipt: Receipt, id: string) returns (ok: bool)
      requires Receiving(id) && state.pending == Some(id) && requests[id].purpose == Setup
      modifies `state
      ensures Receiving(id) && ok == (requests[id].selects ==> receipt.windowMatches)
      ensures SameClick(old(state), state)
      ensures state == old(state).(phase := if ok then requests[id].resume else old(state).phase, pending := None)
      ensures ok ==> Valid() && Guarded(state)
    {
      hide Grounds, Orderly, Marks, Backs, Issued, Fits, Holds;
      HoldsRereads(state, requests, id, log, marks);
      ok := !requests[id].selects || receipt.windowMatches;
      var _ := SetPhase(if ok then requests[id].resume else state.phase, None, id);
    }

    /** The answers that speak about a grounding or about the current command. */
    method ConsumeResult(receipt: Receipt, id: string) returns (ok: bool)
      requires Receiving(id) && state.pending == Some(id) && requests[id].purpose != Setup
      modifies `state, `resolvedResult, `log, `marks
      ensures Receiving(id) && SameClick(old(state), state) && OnlySends(old(marks), marks, {})
      ensures ok ==> Valid() && state.pending in {None, Some(id)}
      ensures ok && state.phase == Verified ==> Decisive(state.verdict)
      ensures ok && requests[id].purpose == Resolve ==> receipt.body.HandOff?
      ensures ok && requests[id].purpose != Resolve ==>
        receipt.body.AgentCommand? && state.commandId == Some(receipt.body.command)
      ensures ok ==> Guarded(state)
      ensures ok && requests[id].purpose != Resolve ==>
        && (receipt.workerUnknown <==> state.pending == Some(id))
        && (receipt.workerUnknown ==> state.phase == ResultUnknown)
      ensures requests[id].purpose != Resolve && Reports(Answer(receipt), receipt.request, old(state).commandId) ==>
        receipt.status == Returned ==> ok && Adopts(state, receipt.body)
    {
      hide Grounds, Orderly, Marks, OnlySends, Backs, Issued, Fits, Holds, Adopts;
      HoldsRereads(state, requests, id, log, marks);
      OnlySendsNothing(marks);
      var _ := SetPhase(state.phase, None, id);
      if requests[id].purpose == Resolve {
        ok := ConsumeHandOff(receipt.body, id);
      } else if !receipt.body.AgentCommand? || state.commandId != Some(receipt.body.command) {
        ok := false;
      } else if receipt.workerUnknown {
        MarkUnknown(id);
        FitsHolds(state, requests, id, log, marks);
        ok := true;
      } else {
        ok := ConsumeCommand(receipt.body, id);
      }
    }

    /** Nothing but the phase and the pending receipt change. */
    method SetPhase(p: Phase, pending: Option<string>, ghost id: string) returns (ok: bool)
      requires Receiving(id) && pending in {None, Some(id)}
      modifies `state
      ensures ok && Receiving(id) && state == old(state).(phase := p, pending := pending)
      ensures Backs(p, state.commandId, marks) && (state.unclear && pending == None ==> p == ResultUnknown) ==> Valid()
    {
      hide Grounds;
      GroundsChange(state, state.(phase := p, pending := pending), requests.Keys, requests.Keys, log, marks);
      state := state.(phase := p, pending := pending);
      ok := true;
    }

    /** The answer to a resolve: the hand-off must belong to the pending grounding. */
    method ConsumeHandOff(body: Body, ghost id: string) returns (ok: bool)
      requires Receiving(id) && state.pending == None && requests[id].purpose == Resolve
      modifies `state, `resolvedResult
      ensures Receiving(id) && SameClick(old(state), state)
      ensures ok ==>
        && Valid() && state.pending == None && body.HandOff?
        && old(state).groundingRequest == Some(body.grounding.request)
      ensures ok ==> state.phase == (if body.ready then GroundingReady else GroundingRejected)
      ensures !state.unclear
    {
      hide Grounds;
      if !body.HandOff? || state.groundingRequest != Some(body.grounding.request) {
        return false;
      }
      ok := BindGrounding(body.grounding);
      GroundsChange(old(state), state, requests.Keys, requests.Keys, log, marks);
      if ok {
        state := state.(resolvedStatus := Some(body.ready));
        GroundsChange(old(state), state, requests.Keys, requests.Keys, log, marks);
        var _ := SetPhase(if body.ready then GroundingReady else GroundingRejected, None, id);
      }
    }

    /** The part of `_consume` that adopts the Runtime's report on the current command. */
    method ConsumeCommand(body: Body, ghost id: string) returns (ok: bool)
      requires Receiving(id) && body.AgentCommand? && state.commandId == Some(body.command) && state.pending == None
      requires requests[id].purpose !in {Setup, Resolve}
      modifies `state, `resolvedResult, `log, `marks
      ensures Receiving(id) && SameClick(old(state), state) && OnlySends(old(marks), marks, {})
      ensures state.cancelRequested <==> old(state).cancelRequested || body.cancelRequested
      ensures ok ==> Valid() && state.pending == None && state.runtimeStatus == Some(body.status)
      ensures ok && body.status.Terminal() ==> state.runtimeTerminal
      ensures ok && state.phase == Verified ==>
        old(state).verdict !in {None, Some(Uncertain)} && old(state).runtimeStatus == Some(body.status)
      ensures state.unclear <==> body.status.Terminal() && (body.executed == None || body.dispatchUnknown)
      // a terminal status, in plain terms: unknown execution, else a verdict given before, else the caller must judge
      ensures ok && body.status.Terminal() ==>
        var known := body.executed.Some? && !body.dispatchUnknown;
        var judged := old(state).verdict.Some? && old(state).runtimeStatus == Some(body.status);
        var harmless := body.status == Cancelled && body.executed == Some(false);
        && (state.phase == ResultUnknown <==> !known)
        && (state.phase == Verified <==> known && judged && old(state).verdict != Some(Uncertain))
        && (state.phase == CancelledPhase <==> known && !judged && harmless)
        && (state.phase == VerificationRequired <==>
              known && if judged then old(state).verdict == Some(Uncertain) else !harmless)
      ensures ok ==> Guarded(state)
      ensures body.status.Terminal() && (body.afterImage ==> body.afterIntact) ==> ok && Adopts(state, body)
    {
      hide Grounds, Orderly, Marks, OnlySends, Issued, Backs, Fits;
      var previous := state.runtimeStatus;
      NoteReport(body, id);
      if body.status.Terminal() {
        OnlySendsMark(old(marks), marks, TerminalReceipt(body.command));
        ok := AdoptTerminal(body, previous, id);
      } else {
        ok := AdoptProgress(body, id);
      }
    }

    /** What every report says: the status, whether input was executed, and whether a cancel was requested. */
    method NoteReport(body: Body, ghost id: string)
      requires Receiving(id) && body.AgentCommand? && state.commandId == Some(body.command)
      requires requests[id].purpose !in {Setup, Resolve}
      modifies `state, `log, `marks
      ensures Receiving(id) && OnlySends(old(marks), marks, {})
      ensures state == old(state).(runtimeStatus := Some(body.status), executed := body.executed,
                                   unclear := LeavesOpen(body),
                                   cancelRequested := old(state).cancelRequested || body.cancelRequested)
    {
      hide Grounds, Orderly, Marks, OnlySends, Issued, Backs;
      OnlySendsNothing(marks);
      var after := state.(
        runtimeStatus := Some(body.status), executed := body.executed, unclear := LeavesOpen(body));
      GroundsChange(state, after, requests.Keys, requests.Keys, log, marks);
      state := after;
      if body.cancelRequested {
        OnlySendsMark(marks, marks, Closed);
        RequestCancel(id);
      }
    }

    /** A terminal status: bind the after-image and decide whether a verdict given before still stands. */
    method AdoptTerminal(body: Body, previous: Option<RuntimeStatus>, ghost id: string) returns (ok: bool)
      requires Receiving(id) && body.AgentCommand? && state.commandId == Some(body.command) && state.pending == None
      requires body.status.Terminal() && state.unclear == LeavesOpen(body)
      modifies `state, `log, `marks
      ensures Receiving(id) && marks == old(marks) + {TerminalReceipt(body.command)}
      ensures state == old(state).(runtimeTerminal := true, afterImage := state.afterImage,
                                   groundingRequest := state.groundingRequest, phase := state.phase)
      ensures ok ==> state.groundingRequest == None && state.afterImage == (old(state).afterImage || body.afterImage)
      ensures ok <==> body.afterImage ==> body.afterIntact
      ensures ok ==> Valid() && state.phase == TerminalPhase(body, state.verdict, previous)
      ensures ok && state.phase == Verified ==>
        state.verdict !in {None, Some(Uncertain)} && previous == Some(body.status)
    {
      hide Grounds, Issued, Fits, Holds, Orderly, Marks;
      BecomeTerminal(body.command, id);
      if body.afterImage && !body.afterIntact {
        return false;
      }
      TerminalBacks(state, requests, id, log, marks, body, previous);
      var after := state.(afterImage := state.afterImage || body.afterImage, groundingRequest := None);
      HoldsChange(state, after, requests, id, log, marks);
      state := after;
      ok := SetPhase(TerminalPhase(body, state.verdict, previous), None, id);
    }

    /** A status that is not terminal; a cancel outweighs a pending grounding. */
    method AdoptProgress(body: Body, ghost id: string) returns (ok: bool)
      requires Receiving(id) && body.AgentCommand? && state.pending == None && !state.unclear
      modifies `state, `resolvedResult
      ensures Receiving(id) && SameClick(old(state), state) && state.cancelRequested == old(state).cancelRequested
      ensures state.runtimeStatus == old(state).runtimeStatus && !state.unclear
      ensures ok ==>
        && Valid() && state.pending == None
        && state.phase !in {Idle, Verified, CancelledPhase, CompletedPhase}
      ensures ok && state.cancelRequested ==> state.phase == Cancelling
      ensures ok && !state.cancelRequested ==>
        && (body.status == RunningStatus <==> state.phase == Running)
        && (body.status == AwaitingReview <==> state.phase == ReviewRequired)
        && (body.status == AwaitingGroundingStatus <==>
          state.phase in {GroundingReady, GroundingRejected, AwaitingGrounding, ImageRequired})
      ensures ok && !state.cancelRequested && body.status == AwaitingGroundingStatus ==>
        && (state.phase == GroundingReady <==> state.resolvedStatus == Some(true))
        && (state.phase == GroundingRejected <==> state.resolvedStatus.Some? && !state.resolvedStatus.value)
        && (state.phase == AwaitingGrounding <==> state.resolvedStatus == None && state.originalImage)
        && (state.phase == ImageRequired <==> state.resolvedStatus == None && !state.originalImage)
      ensures ok && state.phase == GroundingReady ==> old(state).resolvedStatus == Some(true)
      ensures state.cancelRequested || body.status in {RunningStatus, AwaitingReview} ==> ok
    {
      hide Grounds;
      if state.cancelRequested {
        ok := SetPhase(Cancelling, None, id);
      } else if body.status == AwaitingGroundingStatus {
        ok := AwaitGrounding(body.pendingGrounding, id);
      } else if body.status == RunningStatus {
        GroundsChange(state, state.(groundingRequest := None), requests.Keys, requests.Keys, log, marks);
        state := state.(groundingRequest := None);
        ok := SetPhase(Running, None, id);
      } else if body.status == AwaitingReview {
        ok := SetPhase(ReviewRequired, None, id);
      } else {
        ok := false;
      }
    }

    /** The phase that waits for a grounding depends on what was bound and resolved so far. */
    method AwaitGrounding(g: Option<Grounding>, ghost id: string) returns (ok: bool)
      requires Receiving(id) && state.pending == None && !state.unclear
      modifies `state, `resolvedResult
      ensures Receiving(id)
      ensures state == old(state).(groundingRequest := state.groundingRequest, capture := state.capture,
                                   phase := state.phase, originalImage := state.originalImage,
                                   resolvedStatus := state.resolvedStatus)
      ensures ok ==> Valid() && g.Some? && state.groundingRequest == Some(g.value.request)
      ensures ok ==>
        && state.phase in {GroundingReady, GroundingRejected, AwaitingGrounding, ImageRequired}
        && (state.phase == GroundingReady <==> state.resolvedStatus == Some(true))
        && (state.phase == GroundingRejected <==> state.resolvedStatus.Some? && !state.resolvedStatus.value)
        && (state.phase == AwaitingGrounding <==> state.resolvedStatus == None && state.originalImage)
        && (state.phase == ImageRequired <==> state.resolvedStatus == None && !state.originalImage)
      ensures ok && state.resolvedStatus.Some? ==> state.resolvedStatus == old(state).resolvedStatus
    {
      hide Grounds;
      if g == None {
        return false;
      }
      ok := BindGrounding(g.value);
      GroundsChange(old(state), state, requests.Keys, requests.Keys, log, marks);
      if ok {
        var _ := SetPhase(GroundingPhase(state), None, id);
      }
    }

    // ---------------------------------------------------------------- sending

    /** May a transmission of this purpose follow? */
    ghost predicate MaySend(purpose: Purpose, id: string)
      reads this
    {
      && Grounds(state, requests.Keys, log, marks) && Backs(state.phase, state.commandId, marks)
        && state.pending == None && Cautious(state, requests)
      && (purpose in {Prepare, Resolve} ==> !state.unclear)
      && (purpose == Prepare || Issued(state.commandId, marks))
      && (purpose in {Prepare, Resolve, Continue} ==> Closed !in marks)
      && (purpose == Prepare ==> state.commandId == Some(id) && id !in requests && AllSettled(marks))
    }

    /** `_send`: reserve the outer id, transmit once, and adopt whatever comes back. */
    method Send(purpose: Purpose, selects: bool, id: string, reply: Reply) returns (transmitted: bool, raised: bool)
      requires MaySend(purpose, id)
      modifies `state, `requests, `resolvedResult, `log, `marks
      ensures Valid() && transmitted == (id !in old(requests)) && (!transmitted ==> raised)
      ensures SameClick(old(state), state) && (Clean(old(state), old(requests)) ==> Clean(state, requests))
      ensures transmitted && purpose == Prepare && reply == Refusal(true) ==> raised && state == Refused(old(state))
      ensures reply in {Broken, Refusal(true), Refusal(false)} ==> raised
      ensures !transmitted ==> marks == old(marks) && state == old(state) && requests == old(requests)
      ensures transmitted ==>
        && Sent(id, purpose) in marks
        && requests == old(requests)[id := Outer(purpose, selects, old(state).phase)]
      ensures OnlySends(old(marks), marks, if transmitted then {Sent(id, purpose)} else {})
      ensures transmitted && reply in {Timeout, Broken, Refusal(false)} ==>
        state == old(state).(phase := ResultUnknown, pending := Some(id))
      ensures transmitted && SaysPending(reply) && reply.receipt.request == id ==>
        !raised && state == old(state).(phase := PendingReceipt, pending := Some(id))
      ensures !SaysPending(reply) ==> Guarded(state)
    {
      hide Orderly, Marks, Grounds, Backs, MayFollow, Issued, AllSettled;
      if id in requests {
        return false, true;
      }
      transmitted := true;
      Reserve(purpose, selects, id);
      raised := ReceiveReply(purpose, id, reply);
    }

    /** The id is reserved before the transmission, together with the phase a setup command returns to. */
    method Reserve(purpose: Purpose, selects: bool, id: string)
      requires MaySend(purpose, id) && id !in requests
      modifies `requests, `state, `log, `marks
      ensures Valid() && state == old(state).(pending := Some(id))
      ensures purpose == Prepare ==> state.commandId == Some(id)
      ensures requests == old(requests)[id := Outer(purpose, selects, state.phase)]
      ensures marks == old(marks) + {Sent(id, purpose)}
      ensures Guarded(state) && (purpose == Prepare ==> !state.unclear)
    {
      hide Orderly, Marks, Grounds, AllSettled, Backs;
      GroundsFacts(state, requests.Keys, log, marks);
      requests := requests[id := Outer(purpose, selects, state.phase)];
      assert requests.Keys == old(requests.Keys) + {id};
      GroundsChange(state, state.(pending := Some(id)), old(requests.Keys), requests.Keys, log, marks);
      state := state.(pending := Some(id));
      GroundsGrows(state, state, requests.Keys, log, marks, Sent(id, purpose));
      BacksGrows(state.phase, state.commandId, marks, marks + {Sent(id, purpose)});
      log, marks := log + [Sent(id, purpose)], marks + {Sent(id, purpose)};
    }

    /** What comes back from a transmission: only a definite refusal or a receipt resolves it. */
    method ReceiveReply(purpose: Purpose, id: string, reply: Reply) returns (raised: bool)
      requires Valid() && state.pending == Some(id) && (purpose == Prepare ==> state.commandId == Some(id))
      requires Guarded(state) && (purpose == Prepare ==> !state.unclear)
      modifies `state, `resolvedResult, `log, `marks
      ensures Valid() && SameClick(old(state), state) && OnlySends(old(marks), marks, {})
      ensures reply in {Timeout, Broken, Refusal(false)} ==> state == old(state).(phase := ResultUnknown)
      ensures reply == Refusal(true) && purpose != Prepare ==> state == old(state).(pending := None)
      ensures reply == Refusal(true) && purpose == Prepare ==> state == Refused(old(state))
      ensures Clean(old(state), requests) ==> Clean(state, requests)
      ensures reply in {Broken, Refusal(true), Refusal(false)} ==> raised
      ensures reply == Timeout ==> !raised
      ensures SaysPending(reply) && reply.receipt.request == id ==>
        !raised && state == old(state).(phase := PendingReceipt)
      ensures !SaysPending(reply) ==> Guarded(state)
    {
      hide Orderly, Marks, Grounds, OnlySends, Issued, Fits, Holds;
      FitsHolds(state, requests, id, log, marks);
      FitsBacks(state, requests, log, marks);
      OnlySendsNothing(marks);
      raised := reply != Timeout;
      match reply {
        case Answer(receipt) =>
          var ok := Consume(receipt, id);
          raised := !ok;
          if !ok {
            MarkUnknown(id);
          }
        case Refusal(definite) =>
          if !definite {
            MarkUnknown(id);
          } else if purpose == Prepare {
            Reject(id);
          } else {
            var _ := SetPhase(state.phase, None, id);
          }
        case Timeout => MarkUnknown(id);
        case Broken => MarkUnknown(id);
      }
    }

    /** The click was definitely refused: nothing was executed, and the caller must judge it. */
    method Reject(id: string)
      requires Receiving(id) && state.commandId == Some(id) && !state.unclear
      modifies `state, `log, `marks
      ensures Valid() && SameClick(old(state), state) && OnlySends(old(marks), marks, {})
      ensures state == Refused(old(state))
    {
      hide Grounds, Orderly, Marks, OnlySends, Issued;
      OnlySendsMark(marks, marks, TerminalReceipt(id));
      BecomeTerminal(id, id);
      var after := state.(runtimeStatus := Some(Rejected), executed := Some(false));
      GroundsChange(state, after, requests.Keys, requests.Keys, log, marks);
      state := after;
      var _ := SetPhase(VerificationRequired, None, id);
    }

    /** `_read_pending`: read the original receipt again; nothing is transmitted twice. */
    method ReadPending(reply: Reply) returns (raised: bool)
      requires Valid() && state.pending.Some?
      modifies `state, `resolvedResult, `log, `marks
      ensures Valid() && SameClick(old(state), state) && OnlySends(old(marks), marks, {})
      ensures !reply.Answer? ==> state == old(state).(phase := ResultUnknown) && raised == (reply != Timeout)
      ensures reply.Answer? ==> ReadBack(old(state), state, requests, reply.receipt)
      ensures Clean(old(state), requests) ==> Clean(state, requests)
      ensures Stale(state) <==> Loaded(old(state), requests) && ReadsBack(old(state), requests, reply)
      ensures raised ==> state.pending == old(state).pending && state.phase == ResultUnknown
      ensures !SaysPending(reply) ==> Guarded(state)
      ensures requests[old(state).pending.value].purpose !in {Setup, Resolve} ==>
        Reports(reply, old(state).pending.value, old(state).commandId) ==> Adopts(state, reply.receipt.body)
    {
      hide Orderly, Marks, Grounds, OnlySends, Backs, Issued, Fits, Holds, Adopts, SameClick;
      OnlySendsNothing(marks);
      SameClickItself(state);
      var id := state.pending.value;
      FitsHolds(state, requests, id, log, marks);
      var ok := false;
      if reply.Answer? {
        ok := Consume(reply.receipt, id);
      }
      if !ok {
        ghost var middle := state;
        MarkUnknown(id);
        SameClickOn(old(state), middle, state);
      }
      raised := !ok && reply != Timeout;
    }

    // ---------------------------------------------------------------- the caller's operations

    /** `_require_new_input` */
    predicate NewInputAllowed()
      reads this
    {
      !state.completed && !state.cancelRequested && state.pending == None && state.phase in {Idle, Verified}
    }

    /** `_agent_status_locked` */
    method AgentStatus(id: string, reply: Reply) returns (raised: bool)
      requires Valid()
      modifies `state, `requests, `resolvedResult, `log, `marks
      ensures Valid() && SameClick(old(state), state)
      ensures OnlySends(old(marks), marks, {Sent(id, StatusQuery)})
      ensures old(state).completed ==> state == old(state)
      ensures old(state).completed || old(state).pending.Some? || old(state).commandId == None ==>
        OnlySends(old(marks), marks, {}) && requests == old(requests)
      ensures Clean(old(state), old(requests)) ==> Clean(state, requests)
      ensures !Stale(old(state)) ==> (Stale(state) <==>
        !old(state).completed && Loaded(old(state), old(requests)) && ReadsBack(old(state), old(requests), reply))
      ensures !old(state).completed && old(state).pending.Some? && reply.Answer? ==>
        requests == old(requests) && ReadBack(old(state), state, requests, reply.receipt)
      ensures !old(state).completed && old(state).pending == None && old(state).commandId.Some? ==>
        id !in old(requests) && SaysPending(reply) && reply.receipt.request == id ==>
        state == old(state).(phase := PendingReceipt, pending := Some(id))
      ensures Guarded(old(state)) && !SaysPending(reply) ==> Guarded(state)
      ensures !old(state).completed && old(state).pending.Some? && old(state).pending.value in old(requests) ==>
        old(requests)[old(state).pending.value].purpose !in {Setup, Resolve} ==>
        Reports(reply, old(state).pending.value, old(state).commandId) ==> Adopts(state, reply.receipt.body)
    {
      hide Orderly, Marks, Grounds, Backs;
      OnlySendsNothing(marks);
      raised := false;
      if state.completed {
        return;
      }
      if state.pending.Some? {
        raised := ReadPending(reply);
      } else if state.commandId.Some? {
        var transmitted;
        transmitted, raised := Send(StatusQuery, false, id, reply);
      }
    }

    /**
     * `agent_prepare`; `statusId` is used when the admission receipt carried no deliverable image. `wellFormed`
     * stands for the checks of the command and the capabilities, `permitted` for those of the action permission.
     */
    method AgentPrepare(id: string, wellFormed: bool, permitted: bool, sameCommand: bool, reply: Reply,
                        statusId: string, statusReply: Reply)
      requires Valid()
      modifies `state, `requests, `clickCommands, `resolvedResult, `log, `marks
      ensures Valid() && old(marks) <= marks
      ensures Sent(id, Prepare) in marks && Sent(id, Prepare) !in old(marks) <==>
        old(MayPrepare(id, wellFormed, permitted))
      ensures OnlySends(old(marks), marks, {Sent(id, Prepare), Sent(statusId, StatusQuery)})
      ensures old(MayPrepare(id, wellFormed, permitted)) && reply == Refusal(true) ==>
        && state == Refused(Fresh(Some(id), Preparing))
        && requests == old(requests)[id := Outer(Prepare, false, Preparing)]
      ensures old(MayPrepare(id, wellFormed, permitted)) && reply == Timeout ==>
        && state == Fresh(Some(id), ResultUnknown).(pending := Some(id))
        && requests == old(requests)[id := Outer(Prepare, false, Preparing)]
      ensures Clean(old(state), old(requests)) ==> Clean(state, requests)
      ensures Guarded(old(state)) && !SaysPending(reply) && !SaysPending(statusReply) ==> Guarded(state)
      ensures old(state).unclear ==> Sent(id, Prepare) in marks ==> Sent(id, Prepare) in old(marks)
    {
      hide Orderly, Marks, Grounds, Backs, Issued;
      GroundsFacts(state, requests.Keys, log, marks);
      if !wellFormed {
        return;
      }
      if id in clickCommands {
        if sameCommand && state.commandId == Some(id) {
          var _ := AgentStatus(statusId, statusReply);
        }
        return;
      }
      if !NewInputAllowed() || !permitted || id in requests {
        return;
      }
      ResetGrounds(state, requests.Keys, log, marks, id);
      FreshBacks(Some(id), Preparing, marks);
      state, resolvedResult, clickCommands := Fresh(Some(id), Preparing), None, clickCommands + {id};
      var _, raised := Send(Prepare, false, id, reply);
      if !raised && state.phase == ImageRequired {
        var _ := AgentStatus(statusId, statusReply);
      }
    }

    /** A click is transmitted exactly then. */
    predicate MayPrepare(id: string, wellFormed: bool, permitted: bool)
      reads this
    {
      NewInputAllowed() && wellFormed && permitted && id !in clickCommands && id !in requests
    }

    /** `agent_resolve`; `valid` says that the result is a visual grounding of the bound capture. */
    method AgentResolve(result: string, valid: bool, id: string, intact: bool, reply: Reply)
      requires Valid()
      modifies `state, `requests, `resolvedResult, `log, `marks
      ensures Valid() && old(marks) <= marks
      ensures Sent(id, Resolve) in marks && Sent(id, Resolve) !in old(marks) <==>
        && !old(state).cancelRequested && !old(state).completed && old(state).pending == None
        && old(state).phase in {AwaitingGrounding, GroundingReady, GroundingRejected} && old(state).originalImage
        && valid && old(resolvedResult) == None && id !in old(requests) && intact
      ensures OnlySends(old(marks), marks, {Sent(id, Resolve)})
      ensures Clean(old(state), old(requests)) ==> Clean(state, requests)
      ensures Guarded(old(state)) && !SaysPending(reply) ==> Guarded(state)
    {
      hide Orderly, Marks, Grounds, Backs, Issued;
      GroundsFacts(state, requests.Keys, log, marks);
      if state.cancelRequested || state.completed || state.pending.Some? {
        return;
      }
      if state.phase !in {AwaitingGrounding, GroundingReady, GroundingRejected} || !state.originalImage {
        return;
      }
      if !valid || resolvedResult.Some? || id in requests || !intact {
        return; // an equal result only reads the last receipt, a different one is refused
      }
      resolvedResult := Some(result);
      var _, _ := Send(Resolve, false, id, reply);
    }

    /** `agent_continue` */
    method AgentContinue(id: string, intact: bool, reply: Reply)
      requires Valid()
      modifies `state, `requests, `resolvedResult, `log, `marks
      ensures Valid() && old(marks) <= marks
      ensures Sent(id, Continue) in marks && Sent(id, Continue) !in old(marks) <==>
        && !old(state).cancelRequested && !old(state).completed && old(state).pending == None
        && old(state).phase == GroundingReady && id !in old(requests) && intact
      ensures OnlySends(old(marks), marks, {Sent(id, Continue)})
      ensures Clean(old(state), old(requests)) ==> Clean(state, requests)
      ensures Guarded(old(state)) && !SaysPending(reply) ==> Guarded(state)
    {
      hide Orderly, Marks, Grounds, Backs, Issued;
      GroundsFacts(state, requests.Keys, log, marks);
      if state.completed || state.cancelRequested || state.pending.Some? || state.phase != GroundingReady || !intact {
        return;
      }
      var _, _ := Send(Continue, false, id, reply);
    }

    /** `agent_cancel`, then status queries until the command is terminal or the time is over. */
    method AgentCancel(id: string, reply: Reply, pendingReply: Reply, polls: seq<(string, Reply)>)
      requires Valid()
      modifies `state, `requests, `resolvedResult, `log, `marks
      ensures Valid() && old(marks) <= marks
      ensures Clean(old(state), old(requests)) ==> Clean(state, requests)
      ensures !Stale(old(state)) ==> (Stale(state) <==>
        && !old(state).completed && Loaded(old(state), old(requests))
        && ReadsBack(old(state), old(requests), pendingReply))
      ensures old(state).pending == None && !old(state).runtimeTerminal && !old(state).cancelRequested ==>
        reply in {Broken, Refusal(true), Refusal(false)} ==> OnlySends(old(marks), marks, {Sent(id, Cancel)})
      ensures forall m | m in marks && m.Sent? && m !in old(marks) :: m.purpose in {Cancel, StatusQuery}
      ensures Guarded(old(state)) && !SaysPending(reply) && !SaysPending(pendingReply) ==>
        (forall q | q in polls :: !SaysPending(q.1)) ==> Guarded(state)
      ensures !old(state).completed && old(state).pending == None ==>
        id !in old(requests) || old(state).runtimeTerminal ==> state.cancelRequested
    {
      hide Orderly, Marks, Grounds, Backs, Issued, Fits;
      if state.completed {
        return;
      }
      if state.pending.Some? {
        var stopped := ReadPending(pendingReply);
        if stopped || state.pending.Some? {
          return;
        }
      }
      CancelCommand(id, reply, polls);
    }

    /** `agent_cancel` once nothing is pending. */
    method CancelCommand(id: string, reply: Reply, polls: seq<(string, Reply)>)
      requires Valid() && state.pending == None && !state.completed
      modifies `state, `requests, `resolvedResult, `log, `marks
      ensures Valid() && old(marks) <= marks
      ensures if Stale(old(state)) then Stale(state) else Clean(state, requests)
      ensures !old(state).runtimeTerminal && !old(state).cancelRequested ==>
        reply in {Broken, Refusal(true), Refusal(false)} ==> OnlySends(old(marks), marks, {Sent(id, Cancel)})
      ensures forall m | m in marks && m.Sent? && m !in old(marks) :: m.purpose in {Cancel, StatusQuery}
      ensures !SaysPending(reply) && (forall q | q in polls :: !SaysPending(q.1)) ==> Guarded(state)
      ensures id !in old(requests) || old(state).runtimeTerminal ==> state.cancelRequested
      ensures old(state).commandId == None || old(state).cancelRequested || old(state).runtimeTerminal ==>
        state.cancelRequested && Sent(id, Cancel) !in marks - old(marks)
      ensures old(state).commandId.Some? && !old(state).cancelRequested && !old(state).runtimeTerminal
              && id in old(requests) ==>
        state == old(state) && marks == old(marks)
    {
      hide Orderly, Marks, Grounds, Backs, Issued, Fits;
      UnclearWaits(state, requests, log, marks);
      if Stale(state) {
        VerifiedIsTerminal(state, requests, log, marks);
      }
      var already := state.cancelRequested;
      if state.commandId.Some? && !state.runtimeTerminal && !already && id in requests {
        return; // current_agent_outer_request_id_reused
      }
      CloseForInput();
      if state.commandId == None {
        return;
      }
      if !state.runtimeTerminal && !already {
        CloseableSends(id);
        var _, raised := Send(Cancel, false, id, reply);
        if raised {
          return;
        }
      }
      PollUntilTerminal(polls);
    }

    /** Status queries, until the command is terminal, its result is unknown, or a query raises. */
    method PollUntilTerminal(polls: seq<(string, Reply)>)
      requires Valid() && state.cancelRequested
      modifies `state, `requests, `resolvedResult, `log, `marks
      ensures Valid() && state.cancelRequested && old(marks) <= marks
      ensures Clean(old(state), old(requests)) ==> Clean(state, requests)
      ensures old(state).runtimeTerminal ==> state == old(state) && requests == old(requests) && marks == old(marks)
      ensures forall m | m in marks && m.Sent? && m !in old(marks) :: m.purpose == StatusQuery
      ensures Guarded(old(state)) && (forall q | q in polls :: !SaysPending(q.1)) ==> Guarded(state)
    {
      hide Orderly, Marks, Grounds, Backs, Issued, Fits;
      for i := 0 to |polls|
        invariant Valid() && state.cancelRequested && old(marks) <= marks
        invariant Clean(old(state), old(requests)) ==> Clean(state, requests)
        invariant old(state).runtimeTerminal ==>
          state == old(state) && requests == old(requests) && marks == old(marks)
        invariant forall m | m in marks && m.Sent? && m !in old(marks) :: m.purpose == StatusQuery
        invariant Guarded(old(state)) && (forall q | q in polls :: !SaysPending(q.1)) ==> Guarded(state)
      {
        if state.runtimeTerminal || state.phase == ResultUnknown {
          break;
        }
        assert polls[i] in polls;
        var raised := AgentStatus(polls[i].0, polls[i].1);
        if raised {
          break;
        }
      }
    }

    lemma CloseableSends(id: string)
      requires Valid() && state.pending == None
      ensures MaySend(Cancel, id)
    {
      hide Grounds;
    }

    /** The cancel is recorded before it is transmitted; with no command yet the session is just cancelled. */
    method CloseForInput()
      requires Valid() && state.pending == None
      modifies `state, `log, `marks
      ensures Valid()
      ensures state == old(state).(
        cancelRequested := true, phase := if state.commandId == None then CancelledPhase else old(state).phase)
      ensures marks == if old(state).cancelRequested then old(marks) else old(marks) + {Closed}
    {
      hide Grounds, Orderly, Marks;
      var phase := if state.commandId == None then CancelledPhase else state.phase;
      if state.cancelRequested {
        GroundsChange(state, state.(phase := phase), requests.Keys, requests.Keys, log, marks);
        state := state.(phase := phase);
      } else {
        GroundsGrows(state, state.(cancelRequested := true), requests.Keys, log, marks, Closed);
        state := state.(cancelRequested := true);
        log, marks := log + [Closed], marks + {Closed};
        GroundsChange(state, state.(phase := phase), requests.Keys, requests.Keys, log, marks);
        state := state.(phase := phase);
      }
    }

    /** `agent_verify`; `bound` says that the evidence names the after-image and that its file is intact. */
    method AgentVerify(judgment: Verdict, bound: bool) returns (accepted: bool)
      requires Valid()
      modifies `state, `log, `marks, `undercuts, `blind
      ensures Valid() && OnlySends(old(marks), marks, {})
      ensures blind == old(blind) + if accepted && old(state).unclear then 1 else 0
      ensures old(state).unclear && (old(state).pending == None || Guarded(old(state))) ==> !accepted
      ensures Guarded(old(state)) ==> Guarded(state)
      ensures undercuts ==
        old(undercuts) + if accepted && judgment == Uncertain && Restores(old(state), requests) then 1 else 0
      ensures undercuts > old(undercuts) ==> Loaded(state, requests)
      ensures Clean(old(state), requests) && undercuts == old(undercuts) ==> Clean(state, requests)
      ensures accepted <==>
        && !old(state).completed && old(state).runtimeTerminal && old(state).phase != ResultUnknown
        && (judgment == Success ==> old(state).runtimeStatus == Some(Completed) && old(state).executed == Some(true))
        && (judgment != Uncertain && old(state).executed == Some(true) ==> old(state).afterImage && bound)
      ensures state == if accepted
        then old(state).(
          verdict := Some(judgment), phase := if judgment == Uncertain then VerificationRequired else Verified)
        else old(state)
    {
      hide Orderly, Marks, Grounds, Fits;
      OnlySendsNothing(marks);
      UnclearWaits(state, requests, log, marks);
      if state.completed || !state.runtimeTerminal || state.phase == ResultUnknown {
        return false;
      }
      if judgment == Success && (state.runtimeStatus != Some(Completed) || state.executed != Some(true)) {
        return false;
      }
      if judgment != Uncertain && state.executed == Some(true) && (!state.afterImage || !bound) {
        return false;
      }
      var judged := state.(
        verdict := Some(judgment), phase := if judgment == Uncertain then VerificationRequired else Verified);
      VerdictFits(state, judged, requests, log, marks);
      if judgment != Uncertain {
        log, marks := log + [Decided(state.commandId.value)], marks + {Decided(state.commandId.value)};
      }
      if state.unclear {
        blind := blind + 1;
      }
      if judgment == Uncertain && Restores(state, requests) {
        undercuts := undercuts + 1;
      }
      state := judged;
      accepted := true;
    }

    /** `agent_complete` */
    method AgentComplete() returns (done: bool)
      requires Valid()
      modifies `state, `log, `marks
      ensures Valid() && OnlySends(old(marks), marks, {})
      ensures done <==>
        old(state).completed || (old(state).pending == None && old(state).phase in {Idle, Verified, CancelledPhase})
      ensures done ==> state.completed
      ensures Clean(old(state), requests) ==> Clean(state, requests)
      ensures Guarded(old(state)) ==> Guarded(state)
    {
      hide Orderly, Marks, Grounds;
      if state.completed {
        return true;
      }
      if state.pending.Some? || state.phase !in {Idle, Verified, CancelledPhase} {
        return false;
      }
      GroundsGrows(state, state.(completed := true), requests.Keys, log, marks, Closed);
      log, marks := log + [Closed], marks + {Closed};
      GroundsChange(state.(completed := true), state.(completed := true, phase := CompletedPhase),
                    requests.Keys, requests.Keys, log, marks);
      state := state.(completed := true, phase := CompletedPhase);
      done := true;
    }

    /**
     * The read and setup commands of `call`; `select` needs what a new click needs. `permitted` stands for the
     * checks of the arguments and of the permission.
     */
    method SetupCall(id: string, selects: bool, permitted: bool, reply: Reply)
      requires Valid()
      modifies `state, `requests, `resolvedResult, `log, `marks
      ensures Valid() && old(marks) <= marks
      ensures Clean(old(state), old(requests)) ==> Clean(state, requests)
      ensures Sent(id, Setup) in marks && Sent(id, Setup) !in old(marks) <==>
        permitted && !old(state).completed && (selects ==> old(NewInputAllowed())) && old(state).pending == None
          && id !in old(requests)
      ensures OnlySends(old(marks), marks, {Sent(id, Setup)})
      ensures Guarded(old(state)) && !SaysPending(reply) ==> Guarded(state)
      ensures Sent(id, Setup) !in old(marks) && Sent(id, Setup) in marks && reply == Timeout ==>
        && state == old(state).(phase := ResultUnknown, pending := Some(id))
        && requests == old(requests)[id := Outer(Setup, selects, old(state).phase)]
    {
      hide Orderly, Marks, Grounds, Backs, Issued;
      GroundsFacts(state, requests.Keys, log, marks);
      if !permitted || state.completed || (selects && !NewInputAllowed()) || state.pending.Some? {
        return;
      }
      var _, _ := Send(Setup, selects, id, reply);
    }

    /**
     * The verified phase does not say that the last verdict is decisive: a setup command whose receipt was late
     * restores it after an `uncertain` verdict. What it does say is in `Backs`.
     */
    method VerdictGoesStale(id: string)
      requires Valid() && state.phase == Verified && state.pending == None
      requires !state.completed && id !in requests
      modifies this
      ensures Valid() && state == old(state).(verdict := Some(Uncertain)) && Stale(state)
      ensures undercuts == old(undercuts) + 1
    {
      hide Orderly, Marks, Grounds, Backs, Issued;
      GroundsFacts(state, requests.Keys, log, marks);
      VerifiedIsTerminal(state, requests, log, marks);
      SetupCall(id, false, true, Timeout);
      var _ := AgentStatus("", Answer(Receipt(id, StillPending, false, false, NoBody)));
      var accepted := AgentVerify(Uncertain, false);
      var _ := AgentStatus("", Answer(Receipt(id, Returned, false, false, NoBody)));
    }

    /**
     * Any sequence of calls with any replies keeps the session orderly. The phase `verified` means a decisive
     * latest verdict as long as no uncertain verdict was accepted while a receipt could still restore the phase.
     */
    method Run(calls: seq<Call>) returns (ghost history: seq<(AgentState, set<Mark>)>)
      requires Valid()
      modifies this
      ensures Valid() && Orderly(log) && old(marks) <= marks && old(undercuts) <= undercuts
      ensures Clean(old(state), old(requests)) && undercuts == old(undercuts) ==> Clean(state, requests)
      ensures |history| == |calls| + 1 && history[0] == (old(state), old(marks)) && history[|calls|] == (state, marks)
      // no click is sent while it is open whether the last one was executed, and a verdict only after a reply that
      // said nothing but that some request was still pending
      ensures forall i | 0 <= i < |calls| :: NoClickInDoubt(history[i], history[i + 1])
      ensures Guarded(old(state)) && (forall c | c in calls :: !HearsPending(c)) ==>
        Guarded(state) && blind == old(blind)
    {
      hide Orderly, Marks, Fits, Clean, Guarded, SaysPending;
      history := [(state, marks)];
      for i := 0 to |calls|
        invariant Valid() && old(marks) <= marks && old(undercuts) <= undercuts
        invariant Clean(old(state), old(requests)) && undercuts == old(undercuts) ==> Clean(state, requests)
        invariant |history| == i + 1 && history[0] == (old(state), old(marks)) && history[i] == (state, marks)
        invariant forall k | 0 <= k < i :: NoClickInDoubt(history[k], history[k + 1])
        invariant Guarded(old(state)) && (forall c | c in calls :: !HearsPending(c)) ==>
          Guarded(state) && blind == old(blind)
      {
        assert calls[i] in calls;
        Take(calls[i]);
        history := history + [(state, marks)];
      }
      assert Orderly(log) by { FitsIsOrderly(state, requests, log, marks); }
    }

    /** One call of the caller. */
    method Take(call: Call)
      requires Valid()
      modifies this
      ensures Valid() && old(marks) <= marks && old(undercuts) <= undercuts
      ensures Clean(old(state), old(requests)) && undercuts == old(undercuts) ==> Clean(state, requests)
      ensures NoClickInDoubt((old(state), old(marks)), (state, marks))
      ensures Guarded(old(state)) && !HearsPending(call) ==> Guarded(state) && blind == old(blind)
    {
      hide Orderly, Marks, Fits, Clean, SaysPending;
      match call {
        case DoPrepare(id, wellFormed, permitted, sameCommand, reply, statusId, statusReply) =>
          AgentPrepare(id, wellFormed, permitted, sameCommand, reply, statusId, statusReply);
        case DoResolve(result, valid, id, intact, reply) => AgentResolve(result, valid, id, intact, reply);
        case DoContinue(id, intact, reply) => AgentContinue(id, intact, reply);
        case DoStatus(id, reply) => var _ := AgentStatus(id, reply);
        case DoCancel(id, reply, pendingReply, polls) => AgentCancel(id, reply, pendingReply, polls);
        case DoVerify(judgment, bound) => var _ := AgentVerify(judgment, bound);
        case DoComplete => var _ := AgentComplete();
        case DoSetup(id, selects, permitted, reply) => SetupCall(id, selects, permitted, reply);
      }
    }
  }

  /** While the last report leaves the execution open, no click is transmitted. */
  ghost predicate NoClickInDoubt(a: (AgentState, set<Mark>), b: (AgentState, set<Mark>)) {
    a.0.unclear ==> forall id | Sent(id, Prepare) in b.1 :: Sent(id, Prepare) in a.1
  }

  /** Some reply of the call says only that the request is still pending. */
  predicate HearsPending(call: Call) {
    match call
    case DoPrepare(_, _, _, _, reply, _, statusReply) => SaysPending(reply) || SaysPending(statusReply)
    case DoResolve(_, _, _, _, reply) => SaysPending(reply)
    case DoContinue(_, _, reply) => SaysPending(reply)
    case DoStatus(_, reply) => SaysPending(reply)
    case DoCancel(_, reply, pendingReply, polls) =>
      SaysPending(reply) || SaysPending(pendingReply) || exists q :: q in polls && SaysPending(q.1)
    case DoVerify(_, _) => false
    case DoComplete => false
    case DoSetup(_, _, _, reply) => SaysPending(reply)
  }

  /**
   * The gate against verdicts on an open execution has this gap: the terminal report leaves the execution open, a
   * status query is still pending, and a verdict is accepted.
   */
  method VerdictInDoubt(click: string, query: string) returns (client: CurrentAgentClient)
    requires click != query
    ensures client.Valid() && client.state.unclear && client.state.phase == Verified && client.blind == 1
    ensures client.state.pending == Some(query)
  {
    hide Orderly, Marks, Grounds, Backs, Issued;
    client := new CurrentAgentClient();
    var body := AgentCommand(click, Failed, false, None, false, None, false, true);
    client.AgentPrepare(click, true, true, false, Timeout, query, Timeout);
    var _ := client.AgentStatus("", Answer(Receipt(click, Returned, false, true, body)));
    var _ := client.AgentStatus(query, Answer(Receipt(query, StillPending, false, true, NoBody)));
    var accepted := client.AgentVerify(Failure, false);
  }

  /** From a new session: a refused click, judged a failure, then a late receipt after an uncertain verdict. */
  method StaleFromTheStart(click: string, setup: string, status: string) returns (client: CurrentAgentClient)
    requires click != setup
    ensures client.Valid() && Stale(client.state) && client.undercuts == 1
  {
    hide Orderly, Marks, Grounds, Backs, Issued;
    client := new CurrentAgentClient();
    client.AgentPrepare(click, true, true, false, Refusal(true), status, Timeout);
    var accepted := client.AgentVerify(Failure, false);
    client.VerdictGoesStale(setup);
  }

  lemma FitsIsOrderly(s: AgentState, requests: map<string, Outer>, log: seq<Mark>, marks: set<Mark>)
    requires Fits(s, requests, log, marks)
    ensures Orderly(log)
  {
    hide Orderly;
  }

  lemma FreshBacks(commandId: Option<string>, p: Phase, marks: set<Mark>)
    ensures p !in {Idle, Verified} ==> Backs(p, commandId, marks)
  {
  }

  lemma SameClickOn(a: AgentState, b: AgentState, c: AgentState)
    requires SameClick(a, b) && SameClick(b, c)
    ensures SameClick(a, c)
  {
  }

  lemma SameClickItself(s: AgentState)
    ensures SameClick(s, s)
  {
  }

  lemma OnlySendsNothing(marks: set<Mark>)
    ensures OnlySends(marks, marks, {})
  {
  }

  lemma OnlySendsMark(before: set<Mark>, now: set<Mark>, mark: Mark)
    requires OnlySends(before, now, {}) && !mark.Sent?
    ensures OnlySends(before, now + {mark}, {})
  {
  }

  datatype Call =
    | DoPrepare(id: string, wellFormed: bool, permitted: bool, sameCommand: bool, reply: Reply,
                statusId: string, statusReply: Reply)
    | DoResolve(result: string, valid: bool, id: string, intact: bool, reply: Reply)
    | DoContinue(id: string, intact: bool, reply: Reply)
    | DoStatus(id: string, reply: Reply)
    | DoCancel(id: string, reply: Reply, pendingReply: Reply, polls: seq<(string, Reply)>)
    | DoVerify(judgment: Verdict, bound: bool)
    | DoComplete
    | DoSetup(id: string, selects: bool, permitted: bool, reply: Reply)
}
