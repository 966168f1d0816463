/**
 * The ledger of action learning: sessions bound to runtime sessions, records of what was seen before an action,
 * and one event for each terminal receipt. Every write replaces the whole file under an exclusive lock, after the
 * snapshot a caller verified without the lock was found unchanged.
 */
module LearningLedger {
  import opened PathOrder
  import opened Values

  datatype Status = Active | Finished

  datatype Before = Before(runtime: string, observation: string, content: string)

  /** A verified terminal receipt; the whole value stands for its content digest. */
  datatype Receipt = Receipt(id: string, runtime: string, observation: string, body: string)

  /** The hash of these three identifies an event. */
  datatype EventId = EventId(learning: string, receiptId: string, digest: Receipt)

  datatype Event = Event(id: EventId, learning: string, before: Before, receipt: Receipt)

  datatype Session = Session(
    learning: string, runtime: string, status: Status, revision: nat,
    pending: map<string, Before>, events: map<EventId, Event>, receipts: map<string, Receipt>)

  datatype Ledger = Ledger(revision: nat, sessions: map<string, Session>, bindings: map<string, string>)

  datatype Error = Retry | Conflict | Unbound | Gaps | NotEmpty | WriteFailed

  // ---------------------------------------------------------------- `_validate_ledger`

  predicate SessionAccepted(learning: string, s: Session) {
    && s.learning == learning && s.revision >= 1 && (s.status == Finished ==> s.pending == map[])
    && (forall o | o in s.pending :: s.pending[o].observation == o && s.pending[o].runtime == s.runtime)
    && (forall e | e in s.events :: EventAccepted(learning, s, e))
    && (forall id | id in s.receipts :: EventId(learning, id, s.receipts[id]) in s.events)
  }

  /** The event is filed under its own identity, and its receipt is the one bound to the receipt id. */
  predicate EventAccepted(learning: string, s: Session, e: EventId)
    requires e in s.events
  {
    var event := s.events[e];
    && event.id == e && event.learning == learning && e == EventId(learning, event.receipt.id, event.receipt)
    && event.receipt.runtime == s.runtime && event.before.runtime == s.runtime
    && event.before.observation == event.receipt.observation
    && event.receipt.id in s.receipts && s.receipts[event.receipt.id] == event.receipt
  }

  predicate Bound(ledger: Ledger, learning: string) {
    && learning in ledger.sessions && ledger.sessions[learning].status == Active
    && ledger.sessions[learning].runtime in ledger.bindings
    && ledger.bindings[ledger.sessions[learning].runtime] == learning
  }

  /** The order in which a dictionary lists the sessions: sorted when it was read, the new one last before a write. */
  predicate Lists(order: seq<string>, ledger: Ledger) {
    && (forall l | l in ledger.sessions :: l in order) && (forall l | l in order :: l in ledger.sessions)
    && forall i, j | 0 <= i < j < |order| :: order[i] != order[j]
  }

  /** A dictionary from runtime to active session keeps, of several sessions of one runtime, the last. */
  predicate Accepted(ledger: Ledger, order: seq<string>)
    requires Lists(order, ledger)
  {
    && (forall l | l in ledger.sessions :: SessionAccepted(l, ledger.sessions[l]))
    && (forall r | r in ledger.bindings ::
      Bound(ledger, ledger.bindings[r]) && ledger.sessions[ledger.bindings[r]].runtime == r)
    && forall i | 0 <= i < |order| && ledger.sessions[order[i]].status == Active ::
      && ledger.sessions[order[i]].runtime in ledger.bindings
      && forall j | 0 <= j < |order| && order[j] == ledger.bindings[ledger.sessions[order[i]].runtime] :: i <= j
  }

  // ---------------------------------------------------------------- what every reachable ledger keeps

  /** Accepted, and every active session is the one its runtime is bound to. */
  predicate Sound(ledger: Ledger) {
    && (forall l | l in ledger.sessions :: SessionAccepted(l, ledger.sessions[l]))
    && (forall r | r in ledger.bindings ::
      Bound(ledger, ledger.bindings[r]) && ledger.sessions[ledger.bindings[r]].runtime == r)
    && forall l | l in ledger.sessions && ledger.sessions[l].status == Active :: Bound(ledger, l)
  }

  lemma SoundIsAccepted(ledger: Ledger, order: seq<string>)
    requires Sound(ledger) && Lists(order, ledger)
    ensures Accepted(ledger, order)
  {
    hide SessionAccepted;
    forall i | 0 <= i < |order| && ledger.sessions[order[i]].status == Active
      ensures ledger.sessions[order[i]].runtime in ledger.bindings
      ensures forall j | 0 <= j < |order| && order[j] == ledger.bindings[ledger.sessions[order[i]].runtime] :: i <= j
    {
      assert Bound(ledger, order[i]);
    }
  }

  /** Active sessions and bound runtimes correspond one to one. */
  lemma BindingsAreBijective(ledger: Ledger)
    requires Sound(ledger)
    ensures RuntimesDiffer(ledger)
    ensures forall r :: r in ledger.bindings <==> RuntimeIsActive(ledger, r)
  {
    hide SessionAccepted;
    forall r | RuntimeIsActive(ledger, r) ensures r in ledger.bindings {
      var l :| l in ledger.sessions && ledger.sessions[l].status == Active && ledger.sessions[l].runtime == r;
      assert Bound(ledger, l);
    }
    forall l, m | l in ledger.sessions && m in ledger.sessions && ledger.sessions[l].status == Active
        && ledger.sessions[m].status == Active && ledger.sessions[l].runtime == ledger.sessions[m].runtime
      ensures l == m
    {
      assert Bound(ledger, l) && Bound(ledger, m);
    }
  }

  predicate RuntimeIsActive(ledger: Ledger, r: string) {
    exists l | l in ledger.sessions :: ledger.sessions[l].status == Active && ledger.sessions[l].runtime == r
  }

  /** No two active sessions have the same runtime. */
  predicate RuntimesDiffer(ledger: Ledger) {
    forall l, m | l in ledger.sessions && m in ledger.sessions && ledger.sessions[l].status == Active
      && ledger.sessions[m].status == Active && ledger.sessions[l].runtime == ledger.sessions[m].runtime :: l == m
  }

  /** What the validator accepts is sound exactly when no two active sessions share a runtime. */
  lemma AcceptedIsSoundIf(ledger: Ledger, order: seq<string>)
    requires Lists(order, ledger) && Accepted(ledger, order)
    ensures Sound(ledger) <==> RuntimesDiffer(ledger)
  {
    hide SessionAccepted;
    if Sound(ledger) {
      BindingsAreBijective(ledger);
    }
    if RuntimesDiffer(ledger) {
      forall l | l in ledger.sessions && ledger.sessions[l].status == Active ensures Bound(ledger, l) {
        var i :| 0 <= i < |order| && order[i] == l;
        assert Bound(ledger, ledger.bindings[ledger.sessions[order[i]].runtime]);
      }
    }
  }

  /** The validator alone does not give that: it accepts two active sessions of one runtime. */
  lemma ValidatorIsWeaker() returns (ledger: Ledger, order: seq<string>)
    ensures Lists(order, ledger) && (forall i, j | 0 <= i < j < |order| :: PathOrder.Before(order[i], order[j]))
    ensures Accepted(ledger, order) && !Sound(ledger)
  {
    var a := Session("a", "r", Active, 1, map[], map[], map[]);
    var b := Session("b", "r", Active, 1, map[], map[], map[]);
    ledger, order := Ledger(2, map["a" := a, "b" := b], map["r" := "b"]), ["a", "b"];
    assert order[0] == "a" && order[1] == "b";
    assert PathOrder.Before("a", "b");
    assert ledger.bindings[ledger.sessions["a"].runtime] == "b";
    assert !Bound(ledger, "a");
  }

  lemma AcceptedFacts(learning: string, s: Session)
    requires SessionAccepted(learning, s)
    ensures s.learning == learning && (s.status == Finished ==> s.pending == map[])
  {
  }

  /** In one session a receipt id has at most one event. */
  lemma OneEventPerReceipt(learning: string, s: Session, e: EventId, f: EventId)
    requires SessionAccepted(learning, s) && e in s.events && f in s.events
    requires s.events[e].receipt.id == s.events[f].receipt.id
    ensures e == f && s.events[e] == s.events[f]
  {
    assert EventAccepted(learning, s, e) && EventAccepted(learning, s, f);
  }

  /** An event joins what was seen before an action with the receipt of that action, and is filed under both. */
  lemma EventsAreBound(ledger: Ledger, learning: string, e: EventId)
    requires Sound(ledger) && learning in ledger.sessions && e in ledger.sessions[learning].events
    ensures var s := ledger.sessions[learning];
      var event := s.events[e];
      && event == Event(e, learning, event.before, event.receipt)
      && e == EventId(learning, event.receipt.id, event.receipt)
      && event.before.observation == event.receipt.observation
      && event.before.runtime == event.receipt.runtime == s.runtime
      && event.receipt.id in s.receipts && s.receipts[event.receipt.id] == event.receipt && s.revision >= 1
  {
    assert SessionAccepted(learning, ledger.sessions[learning]);
    assert EventAccepted(learning, ledger.sessions[learning], e);
    hide Bound, Sound;
  }

  /** What may happen to a session: it grows while active, and is frozen once finished. */
  predicate SessionGrows(s: Session, t: Session) {
    && t.learning == s.learning && t.runtime == s.runtime
    && (s.status == Finished ==> t == s)
    && (forall e | e in s.events :: e in t.events && t.events[e] == s.events[e])
    && s.receipts.Keys <= t.receipts.Keys
    && s.revision <= t.revision <= s.revision + 1 && (t.revision == s.revision ==> t == s)
  }

  /** No event is ever changed or dropped, and the session stays with its runtime. */
  ghost predicate EventsKept(s: Session, t: Session) {
    && t.learning == s.learning && t.runtime == s.runtime
    && forall e | e in s.events :: e in t.events && t.events[e] == s.events[e]
  }

  /** One call: nothing is written, or the revision rises by one and only one session changes. */
  predicate Grows(a: Ledger, b: Ledger) {
    a == b ||
    (&& b.revision == a.revision + 1 && a.sessions.Keys <= b.sessions.Keys
     && (forall l | l in a.sessions :: SessionGrows(a.sessions[l], b.sessions[l]))
     && exists l | l in b.sessions :: b.sessions - {l} == a.sessions - {l})
  }

  /** This session replaces its earlier value, and the bindings stay. */
  function Updated(ledger: Ledger, s: Session): Ledger {
    Ledger(ledger.revision + 1, ledger.sessions[s.learning := s], ledger.bindings)
  }

  lemma UpdatedIsSound(ledger: Ledger, s: Session)
    requires Sound(ledger) && s.learning in ledger.sessions && SessionGrows(ledger.sessions[s.learning], s)
    requires SessionAccepted(s.learning, s) && s.status == ledger.sessions[s.learning].status
    ensures Sound(Updated(ledger, s)) && Grows(ledger, Updated(ledger, s))
  {
    hide SessionAccepted;
    var after := Updated(ledger, s);
    forall l | Bound(ledger, l) ensures Bound(after, l) {
    }
    forall l | l in ledger.sessions ensures SessionGrows(ledger.sessions[l], after.sessions[l]) {
    }
    assert after.sessions - {s.learning} == ledger.sessions - {s.learning};
  }

  /** A gap whose receipt was already recorded: a second record before the same observation. */
  predicate StuckGap(ledger: Ledger, learning: string, observation: string, receipt: Receipt) {
    && Bound(ledger, learning) && observation in ledger.sessions[learning].pending
    && receipt.id in ledger.sessions[learning].receipts
  }

  class ActionLearningRecorder {
    var file: Ledger

    constructor ()
      ensures Valid() && file == Ledger(0, map[], map[])
    {
      file := Ledger(0, map[], map[]);
    }

    predicate Valid()
      reads this
    {
      Sound(file)
    }

    /** `_locked_ledger` followed by `_write_ledger`: the write happens only on the verified snapshot. */
    method Write(ledger: Ledger, fails: bool) returns (error: Option<Error>)
      requires Sound(ledger)
      modifies this
      ensures file == if fails then old(file) else ledger
      ensures error == if fails then Some(WriteFailed) else None
    {
      forall order | Lists(order, ledger) ensures Accepted(ledger, order) {
        SoundIsAccepted(ledger, order); // so that the validator lets it pass
      }
      if fails {
        return Some(WriteFailed);
      }
      file := ledger;
      error := None;
    }

    /** `start_learning_session` */
    method Start(learning: string, runtime: string, verified: Ledger, fails: bool) returns (error: Option<Error>)
      requires Valid()
      modifies this
      ensures Valid() && Grows(old(file), file)
      ensures error == None ==> Bound(file, learning) && file.sessions[learning].runtime == runtime
      ensures file != old(file) ==>
        OnlyChanged(old(file), file, learning) && file.bindings == old(file).bindings[runtime := learning]
      ensures file != old(file) ==> Opened(file, learning, runtime)
      ensures file != old(file) <==>
        !fails && verified == old(file) && learning !in old(file).sessions && runtime !in old(file).bindings
      ensures verified == old(file) && runtime in old(file).bindings && old(file).bindings[runtime] != learning ==>
        error == Some(Conflict)
      ensures verified != old(file) <==> error == Some(Retry)
      ensures error == None <==>
        && verified == old(file)
        && if learning in old(file).sessions
           then old(file).sessions[learning].runtime == runtime && old(file).sessions[learning].status == Active
           else runtime !in old(file).bindings && !fails
    {
      hide SessionAccepted, Grows;
      NothingGrows(file);
      if file != verified {
        return Some(Retry);
      }
      if runtime in file.bindings && file.bindings[runtime] != learning {
        return Some(Conflict);
      }
      if learning in file.sessions {
        if file.sessions[learning].runtime != runtime || file.sessions[learning].status != Active {
          return Some(Conflict);
        }
        return None;
      }
      var session := Session(learning, runtime, Active, 1, map[], map[], map[]);
      var after := Ledger(file.revision + 1, file.sessions[learning := session], file.bindings[runtime := learning]);
      StartIsSound(file, session);
      error := Write(after, fails);
    }

    /** `finish_learning_session` */
    method Finish(learning: string, runtime: string, requireEmpty: bool, verified: Ledger, fails: bool)
      returns (error: Option<Error>)
      requires Valid()
      modifies this
      ensures Valid() && Grows(old(file), file)
      ensures error == None ==> learning in file.sessions && file.sessions[learning].status == Finished
      ensures error == None ==> verified == old(file) && MayFinish(old(file), learning, runtime, requireEmpty)
      ensures verified == old(file) && MayFinish(old(file), learning, runtime, requireEmpty) ==>
        error == None || (fails && old(file).sessions[learning].status == Active)
      ensures error == None && old(file).sessions[learning].status == Active ==>
        file.bindings == old(file).bindings - {runtime} && file.revision == old(file).revision + 1
      ensures error != None || old(file).sessions[learning].status == Finished ==> file == old(file)
      ensures OnlyChanged(old(file), file, learning)
      ensures file != old(file) ==> Closed(old(file), file, learning)
    {
      hide SessionAccepted;
      if file != verified {
        return Some(Retry);
      }
      if learning !in file.sessions || file.sessions[learning].runtime != runtime {
        return Some(Unbound);
      }
      var session := file.sessions[learning];
      AcceptedFacts(learning, session);
      if requireEmpty && (session.events != map[] || session.pending != map[]) {
        return Some(NotEmpty);
      }
      if session.status == Finished {
        return None;
      }
      if session.pending != map[] {
        return Some(Gaps);
      }
      assert Bound(file, learning);
      var finished := session.(status := Finished, revision := session.revision + 1);
      var after := Ledger(file.revision + 1, file.sessions[learning := finished], file.bindings - {runtime});
      FinishIsSound(file, learning);
      error := Write(after, fails);
    }

    /** `record_before`; the result says whether the record is pending. */
    method RecordBefore(before: Before, verified: Ledger, fails: bool) returns (error: Option<Error>, recorded: bool)
      requires Valid()
      modifies this
      ensures Valid() && Grows(old(file), file) && file.bindings == old(file).bindings
      ensures recorded ==> error == None && IsPending(file, before)
      ensures verified != old(file) <==> error == Some(Retry)
      ensures error == Some(Conflict) <==> verified == old(file) && Differs(old(file), before)
      ensures before.runtime !in old(file).bindings ==> file == old(file) && !recorded
      ensures verified == old(file) && !fails && IsFree(old(file), before) ==> recorded && file != old(file)
      ensures file != old(file) ==> Noted(old(file), file, old(file).bindings[before.runtime], before)
      ensures file != old(file) ==> OnlyChanged(old(file), file, old(file).bindings[before.runtime])
      ensures forall l | l in old(file).sessions ::
        l in file.sessions && Extends(old(file).sessions[l], file.sessions[l])
    {
      hide SessionAccepted;
      if file != verified {
        return Some(Retry), false;
      }
      if before.runtime !in file.bindings {
        return None, false;
      }
      var learning := file.bindings[before.runtime];
      assert Bound(file, learning);
      var session := file.sessions[learning];
      if before.observation in session.pending {
        recorded := session.pending[before.observation] == before;
        return if recorded then None else Some(Conflict), recorded;
      }
      AcceptedFacts(learning, session);
      var after := session.(pending := session.pending[before.observation := before], revision := session.revision + 1);
      BeforeIsSound(learning, session, before);
      UpdatedIsSound(file, after);
      error := Write(Updated(file, after), fails);
      recorded := error == None;
    }

    /** `observe_terminal_receipt` */
    method Observe(receipt: Receipt, verified: Ledger, fails: bool) returns (error: Option<Error>)
      requires Valid()
      modifies this
      ensures Valid() && Grows(old(file), file) && file.bindings == old(file).bindings
      ensures file != old(file) <==> !fails && verified == old(file) && Awaited(old(file), receipt)
      ensures file != old(file) ==> Recorded(old(file), file, old(file).bindings[receipt.runtime], receipt)
      ensures file != old(file) ==> OnlyChanged(old(file), file, old(file).bindings[receipt.runtime])
      ensures Unique(old(file)) ==>
        (Unique(file) <==> !(!fails && verified == old(file) && Repeats(old(file), receipt)))
      ensures verified != old(file) <==> error == Some(Retry)
      ensures error == Some(Conflict) <==> verified == old(file) && Contradicts(old(file), receipt)
    {
      hide SessionAccepted, Unique;
      if file != verified {
        return Some(Retry);
      }
      if receipt.runtime !in file.bindings {
        return None;
      }
      var learning := file.bindings[receipt.runtime];
      assert Bound(file, learning);
      var session := file.sessions[learning];
      if receipt.observation !in session.pending {
        return None;
      }
      EventIffReceipt(learning, session, receipt);
      if receipt.id in session.receipts && session.receipts[receipt.id] != receipt {
        return Some(Conflict);
      }
      var id := EventId(learning, receipt.id, receipt);
      var event := Event(id, learning, session.pending[receipt.observation], receipt);
      AcceptedFacts(learning, session);
      if id in session.events {
        EventsAreBound(file, learning, id);
        // an equal event drops the pending record in memory only
        return if session.events[id] != event then Some(Conflict) else None;
      }
      var after := session.(
        receipts := session.receipts[receipt.id := receipt], events := session.events[id := event],
        pending := session.pending - {receipt.observation}, revision := session.revision + 1);
      EventIsSound(learning, session, receipt);
      UpdatedIsSound(file, after);
      if Unique(file) {
        UniqueUnlessRepeated(file, Updated(file, after), receipt);
      }
      error := Write(Updated(file, after), fails);
    }

    /** One call. */
    method Step(call: Call, ghost stuck: Option<(string, string, Receipt)>)
      requires Valid()
      requires stuck.Some? ==> StuckGap(file, stuck.value.0, stuck.value.1, stuck.value.2)
      requires stuck.Some? && call.DoObserve? ==>
        call.receipt.runtime == file.sessions[stuck.value.0].runtime && call.receipt.observation == stuck.value.1 ==>
        call.receipt.id == stuck.value.2.id
      modifies this
      ensures Valid() && Grows(old(file), file)
      ensures stuck.Some? ==> StuckGap(file, stuck.value.0, stuck.value.1, stuck.value.2)
      ensures Unique(old(file)) ==> (Unique(file) <==> !MakesSecond(old(file), call))
    {
      hide Sound, Grows, StuckGap, Bound, Unique;
      if stuck.Some? {
        StuckIsKnown(file, stuck.value.0, stuck.value.1, stuck.value.2);
      }
      match call {
        case DoStart(learning, runtime, verified, fails) =>
          var _ := Start(learning, runtime, verified, fails);
          if stuck.Some? && file != old(file) {
            Untouched(old(file), file, learning, stuck.value.0);
          }
          if file != old(file) {
            UniqueKept(old(file), file, learning);
          }
        case DoFinish(learning, runtime, empty, verified, fails) =>
          var _ := Finish(learning, runtime, empty, verified, fails);
          if stuck.Some? && learning != stuck.value.0 {
            Untouched(old(file), file, learning, stuck.value.0);
          }
          if file != old(file) {
            UniqueKept(old(file), file, learning);
          }
        case DoBefore(record, verified, fails) =>
          var _, _ := RecordBefore(record, verified, fails);
          if file != old(file) {
            UniqueKept(old(file), file, old(file).bindings[record.runtime]);
          }
        case DoObserve(receipt, verified, fails) =>
          var _ := Observe(receipt, verified, fails);
          if stuck.Some? && file != old(file) && old(file).bindings[receipt.runtime] != stuck.value.0 {
            Untouched(old(file), file, old(file).bindings[receipt.runtime], stuck.value.0);
          }
      }
      if stuck.Some? {
        StuckSurvives(old(file), file, stuck.value.0, stuck.value.1, stuck.value.2);
      }
    }

    /**
     * Any calls, each with whatever snapshot its caller verified, keep the ledger sound. A gap stays while no
     * other receipt arrives for its observation, however often the recorded one is delivered again. A receipt id
     * gets events in two sessions exactly when some call makes the second one. `versions` are the successive files.
     */
    method Run(calls: seq<Call>, ghost stuck: Option<(string, string, Receipt)>) returns (versions: seq<Ledger>)
      requires Valid()
      requires stuck.Some? ==> StuckGap(file, stuck.value.0, stuck.value.1, stuck.value.2)
      requires stuck.Some? ==> forall c | c in calls && c.DoObserve? ::
        c.receipt.runtime == file.sessions[stuck.value.0].runtime && c.receipt.observation == stuck.value.1 ==>
        c.receipt.id == stuck.value.2.id
      modifies this
      ensures Valid() && |versions| == |calls| + 1 && versions[0] == old(file) && versions[|calls|] == file
      ensures forall i | 0 <= i < |calls| :: Grows(versions[i], versions[i + 1])
      ensures forall i | 0 <= i < |calls| :: WritesOnce(versions[i], versions[i + 1])
      ensures forall l | l in old(file).sessions ::
        l in file.sessions && EventsKept(old(file).sessions[l], file.sessions[l])
      ensures Unique(old(file)) ==>
        (Unique(file) <==> forall i | 0 <= i < |calls| :: !MakesSecond(versions[i], calls[i]))
      ensures forall l | l in old(file).sessions && old(file).sessions[l].status == Finished ::
        l in file.sessions && file.sessions[l] == old(file).sessions[l]
      ensures stuck.Some? ==> StuckGap(file, stuck.value.0, stuck.value.1, stuck.value.2)
    {
      hide Sound, Grows, Unique, MakesSecond, WritesOnce, EventsKept;
      versions := [file];
      KeptItself(file);
      for i := 0 to |calls|
        invariant Valid() && |versions| == i + 1 && versions[0] == old(file) && versions[i] == file
        invariant forall k | 0 <= k < i :: Grows(versions[k], versions[k + 1])
        invariant forall k | 0 <= k < i :: WritesOnce(versions[k], versions[k + 1])
        invariant forall l | l in old(file).sessions ::
          l in file.sessions && EventsKept(old(file).sessions[l], file.sessions[l])
        invariant Unique(old(file)) ==> (Unique(file) <==> forall k | 0 <= k < i :: !MakesSecond(versions[k], calls[k]))
        invariant forall l | l in old(file).sessions && old(file).sessions[l].status == Finished ::
          l in file.sessions && file.sessions[l] == old(file).sessions[l]
        invariant stuck.Some? ==> StuckGap(file, stuck.value.0, stuck.value.1, stuck.value.2)
        invariant stuck.Some? ==> file.sessions[stuck.value.0].runtime == old(file).sessions[stuck.value.0].runtime
      {
        ghost var before := file;
        assert calls[i] in calls;
        Step(calls[i], stuck);
        GrowsKeeps(before, file);
        KeptOn(old(file), before, file);
        if !Unique(before) {
          TwiceStaysTwice(before, file);
        }
        versions := versions + [file];
      }
    }
  }

  /**
   * Not every gap can be cleared: a second record for an observation whose receipt was already turned into an
   * event stays pending, since the duplicate delivery drops it in memory only.
   */
  method DuplicateLeavesGap(learning: string, before: Before, receipt: Receipt)
    returns (recorder: ActionLearningRecorder)
    requires receipt.runtime == before.runtime && receipt.observation == before.observation
    ensures recorder.Valid() && StuckGap(recorder.file, learning, before.observation, receipt)
  {
    hide Sound, Grows, SessionAccepted;
    recorder := new ActionLearningRecorder();
    var _ := recorder.Start(learning, before.runtime, recorder.file, false);
    var _, _ := recorder.RecordBefore(before, recorder.file, false);
    var _ := recorder.Observe(receipt, recorder.file, false);
    var _, _ := recorder.RecordBefore(before, recorder.file, false);
    var _ := recorder.Observe(receipt, recorder.file, false);
  }

  predicate HasEvent(ledger: Ledger, learning: string, receipt: Receipt) {
    learning in ledger.sessions && EventId(learning, receipt.id, receipt) in ledger.sessions[learning].events
  }

  lemma EventKept(a: Ledger, b: Ledger, learning: string, receipt: Receipt)
    requires Grows(a, b) && HasEvent(a, learning, receipt)
    ensures HasEvent(b, learning, receipt)
  {
    GrowsKeeps(a, b);
    assert SessionGrows(a.sessions[learning], b.sessions[learning]);
  }

  /** One event per receipt holds within a session only: a later session of the same runtime makes another. */
  method SecondSessionSecondEvent(first: string, second: string, before: Before, receipt: Receipt)
    returns (recorder: ActionLearningRecorder)
    requires first != second && receipt.runtime == before.runtime && receipt.observation == before.observation
    ensures recorder.Valid() && HasEvent(recorder.file, first, receipt) && HasEvent(recorder.file, second, receipt)
  {
    hide Sound, Grows, SessionAccepted, HasEvent;
    recorder := new ActionLearningRecorder();
    ghost var empty := recorder.file;
    RecordOnce(recorder, first, before, receipt);
    Untouched(empty, recorder.file, first, second);
    ghost var recorded := recorder.file;
    var _ := recorder.Finish(first, before.runtime, false, recorder.file, false);
    EventKept(recorded, recorder.file, first, receipt);
    Untouched(recorded, recorder.file, first, second);
    recorded := recorder.file;
    RecordOnce(recorder, second, before, receipt);
    Untouched(recorded, recorder.file, second, first);
    EventKeptThroughout(recorded, recorder.file, first, receipt);
  }

  /** A new session that records one action and its receipt, and has no gap. */
  method RecordOnce(recorder: ActionLearningRecorder, learning: string, before: Before, receipt: Receipt)
    requires recorder.Valid() && learning !in recorder.file.sessions && before.runtime !in recorder.file.bindings
    requires receipt.runtime == before.runtime && receipt.observation == before.observation
    modifies recorder
    ensures recorder.Valid() && HasEvent(recorder.file, learning, receipt)
    ensures learning in recorder.file.sessions && MayFinish(recorder.file, learning, before.runtime, false)
    ensures recorder.file.sessions[learning].status == Active
      && OnlyChanged(old(recorder.file), recorder.file, learning)
    ensures recorder.file.bindings == old(recorder.file).bindings[before.runtime := learning]
  {
    hide Sound, Grows, SessionAccepted;
    var _ := recorder.Start(learning, before.runtime, recorder.file, false);
    var _, _ := recorder.RecordBefore(before, recorder.file, false);
    var _ := recorder.Observe(receipt, recorder.file, false);
  }

  lemma EventKeptThroughout(a: Ledger, b: Ledger, learning: string, receipt: Receipt)
    requires HasEvent(a, learning, receipt) && learning in b.sessions && b.sessions[learning] == a.sessions[learning]
    ensures HasEvent(b, learning, receipt)
  {
  }

  datatype Call =
    | DoStart(learning: string, runtime: string, verified: Ledger, fails: bool)
    | DoFinish(learning: string, runtime: string, empty: bool, verified: Ledger, fails: bool)
    | DoBefore(record: Before, verified: Ledger, fails: bool)
    | DoObserve(receipt: Receipt, verified: Ledger, fails: bool)

  predicate MayFinish(ledger: Ledger, learning: string, runtime: string, requireEmpty: bool) {
    && learning in ledger.sessions && ledger.sessions[learning].runtime == runtime
    && (requireEmpty ==> ledger.sessions[learning].events == map[])
    && ledger.sessions[learning].pending == map[]
  }

  /** A new session with nothing recorded. */
  predicate Opened(ledger: Ledger, learning: string, runtime: string) {
    learning in ledger.sessions
      && ledger.sessions[learning] == Session(learning, runtime, Active, 1, map[], map[], map[])
  }

  /** Only this record was added. */
  predicate Noted(a: Ledger, b: Ledger, learning: string, before: Before) {
    && learning in a.sessions && learning in b.sessions && before.observation !in a.sessions[learning].pending
    && var s := a.sessions[learning];
    b.sessions[learning] == s.(pending := s.pending[before.observation := before], revision := s.revision + 1)
  }

  /** The bound session has no record for this observation. */
  predicate IsFree(ledger: Ledger, before: Before) {
    && before.runtime in ledger.bindings && ledger.bindings[before.runtime] in ledger.sessions
    && before.observation !in ledger.sessions[ledger.bindings[before.runtime]].pending
  }

  /** The bound session has another record for this observation. */
  predicate Differs(ledger: Ledger, before: Before) {
    && before.runtime in ledger.bindings && ledger.bindings[before.runtime] in ledger.sessions
    && var pending := ledger.sessions[ledger.bindings[before.runtime]].pending;
    before.observation in pending && pending[before.observation] != before
  }

  /** The bound session waits for this observation, but has another receipt or another record under this id. */
  predicate Contradicts(ledger: Ledger, receipt: Receipt) {
    && receipt.runtime in ledger.bindings && ledger.bindings[receipt.runtime] in ledger.sessions
    && var learning := ledger.bindings[receipt.runtime];
    && var s := ledger.sessions[learning];
    && var id := EventId(learning, receipt.id, receipt);
    && receipt.observation in s.pending && receipt.id in s.receipts
    && (id in s.events ==> s.events[id].before != s.pending[receipt.observation])
  }

  predicate IsPending(ledger: Ledger, before: Before) {
    && before.runtime in ledger.bindings && ledger.bindings[before.runtime] in ledger.sessions
    && var pending := ledger.sessions[ledger.bindings[before.runtime]].pending;
    before.observation in pending && pending[before.observation] == before
  }

  /** The session is finished, and keeps what it recorded. */
  predicate Closed(a: Ledger, b: Ledger, learning: string) {
    && learning in a.sessions && learning in b.sessions
    && b.sessions[learning] == a.sessions[learning].(status := Finished, revision := a.sessions[learning].revision + 1)
  }

  /** Records may be added, nothing else. */
  predicate Extends(s: Session, t: Session) {
    && t.receipts == s.receipts && t.events == s.events && t.status == s.status && t.runtime == s.runtime
    && forall o | o in s.pending :: o in t.pending && t.pending[o] == s.pending[o]
  }

  /** The bound session waits for this observation and has no receipt under this id yet. */
  predicate Awaited(ledger: Ledger, receipt: Receipt) {
    && receipt.runtime in ledger.bindings && ledger.bindings[receipt.runtime] in ledger.sessions
    && receipt.observation in ledger.sessions[ledger.bindings[receipt.runtime]].pending
    && receipt.id !in ledger.sessions[ledger.bindings[receipt.runtime]].receipts
  }

  /** The pending record and the receipt became the session's one event for this receipt id. */
  predicate Recorded(a: Ledger, b: Ledger, learning: string, receipt: Receipt) {
    && learning in a.sessions && learning in b.sessions && receipt.observation in a.sessions[learning].pending
    && var s, t := a.sessions[learning], b.sessions[learning];
    && t.pending == s.pending - {receipt.observation}
    && var id := EventId(learning, receipt.id, receipt);
    && id !in s.events && t.events == s.events[id := Event(id, learning, s.pending[receipt.observation], receipt)]
    && t.receipts == s.receipts[receipt.id := receipt]
    && t.learning == s.learning && t.runtime == s.runtime && t.status == s.status && t.revision == s.revision + 1
  }

  /** No receipt id has an event in two sessions. */
  predicate Unique(ledger: Ledger) {
    forall l, m, id | l in ledger.sessions && m in ledger.sessions
      && id in ledger.sessions[l].receipts && id in ledger.sessions[m].receipts :: l == m
  }

  /** The delivery is awaited, and some other session already has an event of the receipt. */
  predicate Repeats(ledger: Ledger, receipt: Receipt) {
    Awaited(ledger, receipt) && exists l | l in ledger.sessions :: receipt.id in ledger.sessions[l].receipts
  }

  /** The call makes an event of a receipt that already has one in another session. */
  predicate MakesSecond(ledger: Ledger, call: Call) {
    call.DoObserve? && !call.fails && call.verified == ledger && Repeats(ledger, call.receipt)
  }

  /** Sessions that record no receipt leave the receipts unique. */
  lemma UniqueKept(a: Ledger, b: Ledger, learning: string)
    requires OnlyChanged(a, b, learning) && learning in b.sessions
    requires b.sessions[learning].receipts == if learning in a.sessions then a.sessions[learning].receipts else map[]
    ensures Unique(a) ==> Unique(b)
  {
    forall l | l != learning
      ensures l in b.sessions <==> l in a.sessions
      ensures l in a.sessions ==> b.sessions[l] == a.sessions[l]
    {
      Untouched(a, b, learning, l);
    }
  }

  lemma TwiceStaysTwice(a: Ledger, b: Ledger)
    requires Grows(a, b) && !Unique(a)
    ensures !Unique(b)
  {
    GrowsKeeps(a, b);
    hide Grows;
    var l, m, id :| l in a.sessions && m in a.sessions && l != m
      && id in a.sessions[l].receipts && id in a.sessions[m].receipts;
    assert SessionGrows(a.sessions[l], b.sessions[l]) && SessionGrows(a.sessions[m], b.sessions[m]);
    assert id in b.sessions[l].receipts && id in b.sessions[m].receipts;
  }

  lemma UniqueUnlessRepeated(a: Ledger, b: Ledger, receipt: Receipt)
    requires Awaited(a, receipt) && Recorded(a, b, a.bindings[receipt.runtime], receipt)
    requires OnlyChanged(a, b, a.bindings[receipt.runtime]) && Unique(a)
    ensures Unique(b) <==> !Repeats(a, receipt)
  {
    var learning := a.bindings[receipt.runtime];
    forall l | l != learning
      ensures l in b.sessions <==> l in a.sessions
      ensures l in a.sessions ==> b.sessions[l] == a.sessions[l]
    {
      Untouched(a, b, learning, l);
    }
    hide OnlyChanged;
    if Repeats(a, receipt) {
      var l :| l in a.sessions && receipt.id in a.sessions[l].receipts;
      assert l != learning && receipt.id in b.sessions[l].receipts && receipt.id in b.sessions[learning].receipts;
    }
  }

  /** Nothing, or a new revision in which one session differs. */
  ghost predicate WritesOnce(a: Ledger, b: Ledger) {
    a == b || (b.revision == a.revision + 1 && exists l :: OnlyChanged(a, b, l))
  }

  predicate OnlyChanged(a: Ledger, b: Ledger, learning: string) {
    b.sessions - {learning} == a.sessions - {learning}
  }

  lemma StuckIsKnown(ledger: Ledger, learning: string, observation: string, receipt: Receipt)
    requires Sound(ledger) && StuckGap(ledger, learning, observation, receipt)
    ensures learning in ledger.sessions && ledger.sessions[learning].status == Active
    ensures observation in ledger.sessions[learning].pending && receipt.id in ledger.sessions[learning].receipts
    ensures ledger.sessions[learning].runtime in ledger.bindings
      && ledger.bindings[ledger.sessions[learning].runtime] == learning
    ensures forall r | r in ledger.bindings && ledger.bindings[r] == learning :: r == ledger.sessions[learning].runtime
    ensures forall l | l in ledger.sessions && l != learning && ledger.sessions[l].status == Active ::
      ledger.sessions[l].runtime != ledger.sessions[learning].runtime
  {
    hide SessionAccepted;
    BindingsAreBijective(ledger);
  }

  /** The session and its binding are as before, or it only gained records. */
  predicate Kept(a: Ledger, b: Ledger, learning: string, observation: string) {
    && learning in a.sessions && learning in b.sessions
    && var s, t := a.sessions[learning], b.sessions[learning];
    && t.runtime == s.runtime && t.status == s.status && s.receipts.Keys <= t.receipts.Keys
    && (observation in s.pending ==> observation in t.pending)
    && (s.runtime in a.bindings && a.bindings[s.runtime] == learning ==>
      s.runtime in b.bindings && b.bindings[s.runtime] == learning)
  }

  lemma StuckSurvives(a: Ledger, b: Ledger, learning: string, observation: string, receipt: Receipt)
    requires StuckGap(a, learning, observation, receipt) && Kept(a, b, learning, observation)
    ensures StuckGap(b, learning, observation, receipt)
  {
  }

  lemma Untouched(a: Ledger, b: Ledger, learning: string, other: string)
    requires OnlyChanged(a, b, learning) && other != learning
    ensures other in b.sessions <==> other in a.sessions
    ensures other in a.sessions ==> b.sessions[other] == a.sessions[other]
  {
    assert other in a.sessions - {learning} <==> other in b.sessions - {learning};
    if other in a.sessions {
      assert (b.sessions - {learning})[other] == (a.sessions - {learning})[other];
    }
  }

  lemma KeptItself(a: Ledger)
    ensures forall l | l in a.sessions :: EventsKept(a.sessions[l], a.sessions[l])
  {
  }

  lemma KeptOn(a: Ledger, b: Ledger, c: Ledger)
    requires forall l | l in a.sessions :: l in b.sessions && EventsKept(a.sessions[l], b.sessions[l])
    requires forall l | l in b.sessions :: l in c.sessions && EventsKept(b.sessions[l], c.sessions[l])
    ensures forall l | l in a.sessions :: l in c.sessions && EventsKept(a.sessions[l], c.sessions[l])
  {
  }

  lemma NothingGrows(ledger: Ledger)
    ensures Grows(ledger, ledger)
  {
  }

  lemma StartIsSound(ledger: Ledger, s: Session)
    requires Sound(ledger) && s.learning !in ledger.sessions && s.runtime !in ledger.bindings
    requires s == Session(s.learning, s.runtime, Active, 1, map[], map[], map[])
    ensures var after := Ledger(
        ledger.revision + 1, ledger.sessions[s.learning := s], ledger.bindings[s.runtime := s.learning]);
      Sound(after) && Grows(ledger, after)
  {
    assert SessionAccepted(s.learning, s);
    hide SessionAccepted;
    var after := Ledger(
        ledger.revision + 1, ledger.sessions[s.learning := s], ledger.bindings[s.runtime := s.learning]);
    forall l | Bound(ledger, l) ensures Bound(after, l) {
    }
    assert Bound(after, s.learning);
    assert after.sessions - {s.learning} == ledger.sessions - {s.learning};
  }

  lemma FinishIsSound(ledger: Ledger, learning: string)
    requires Sound(ledger) && Bound(ledger, learning) && ledger.sessions[learning].pending == map[]
    ensures var s := ledger.sessions[learning];
      var finished := s.(status := Finished, revision := s.revision + 1);
      var after := Ledger(ledger.revision + 1, ledger.sessions[learning := finished], ledger.bindings - {s.runtime});
      Sound(after) && Grows(ledger, after)
  {
    hide SessionAccepted;
    var s := ledger.sessions[learning];
    var t := s.(status := Finished, revision := s.revision + 1);
    var after := Ledger(ledger.revision + 1, ledger.sessions[learning := t], ledger.bindings - {s.runtime});
    FinishedIsAccepted(learning, s);
    forall l | Bound(ledger, l) && l != learning ensures Bound(after, l) {
    }
    assert after.sessions - {learning} == ledger.sessions - {learning};
    assert SessionGrows(s, t);
  }

  lemma FinishedIsAccepted(learning: string, s: Session)
    requires SessionAccepted(learning, s) && s.pending == map[]
    ensures SessionAccepted(learning, s.(status := Finished, revision := s.revision + 1))
  {
    var t := s.(status := Finished, revision := s.revision + 1);
    forall e | e in t.events ensures EventAccepted(learning, t, e) {
      assert EventAccepted(learning, s, e);
    }
  }

  lemma BeforeIsSound(learning: string, s: Session, before: Before)
    requires SessionAccepted(learning, s) && s.status == Active && before.runtime == s.runtime
    ensures SessionAccepted(learning,
      s.(pending := s.pending[before.observation := before], revision := s.revision + 1))
  {
    var t := s.(pending := s.pending[before.observation := before], revision := s.revision + 1);
    forall e | e in t.events ensures EventAccepted(learning, t, e) {
      assert EventAccepted(learning, s, e);
    }
  }

  lemma EventIffReceipt(learning: string, s: Session, receipt: Receipt)
    requires SessionAccepted(learning, s)
    ensures EventId(learning, receipt.id, receipt) in s.events <==>
      receipt.id in s.receipts && s.receipts[receipt.id] == receipt
  {
    if EventId(learning, receipt.id, receipt) in s.events {
      assert EventAccepted(learning, s, EventId(learning, receipt.id, receipt));
    }
  }

  lemma EventIsSound(learning: string, s: Session, receipt: Receipt)
    requires SessionAccepted(learning, s) && s.status == Active && receipt.observation in s.pending
    requires receipt.id !in s.receipts && receipt.runtime == s.runtime
    ensures var id := EventId(learning, receipt.id, receipt);
      var event := Event(id, learning, s.pending[receipt.observation], receipt);
      id !in s.events && SessionAccepted(learning, s.(
        receipts := s.receipts[receipt.id := receipt], events := s.events[id := event],
        pending := s.pending - {receipt.observation}, revision := s.revision + 1))
  {
    var id := EventId(learning, receipt.id, receipt);
    EventIffReceipt(learning, s, receipt);
    var event := Event(id, learning, s.pending[receipt.observation], receipt);
    var t := s.(receipts := s.receipts[receipt.id := receipt], events := s.events[id := event],
                pending := s.pending - {receipt.observation}, revision := s.revision + 1);
    forall e | e in t.events ensures EventAccepted(learning, t, e) {
      if e != id {
        assert EventAccepted(learning, s, e);
      }
    }
  }

  lemma GrowsKeeps(a: Ledger, b: Ledger)
    requires Grows(a, b)
    ensures a.revision <= b.revision <= a.revision + 1 && (a == b <==> a.revision == b.revision)
    ensures forall l | l in a.sessions ::
      l in b.sessions && SessionGrows(a.sessions[l], b.sessions[l]) && EventsKept(a.sessions[l], b.sessions[l])
    ensures WritesOnce(a, b)
  {
    if a != b {
      var l :| l in b.sessions && b.sessions - {l} == a.sessions - {l};
      assert OnlyChanged(a, b, l);
    }
    if a == b {
      forall l | l in a.sessions ensures SessionGrows(a.sessions[l], b.sessions[l]) {
      }
    }
  }
}
