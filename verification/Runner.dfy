/**
 * The benchmark runner in executing mode: a loop over the frozen tasks of one output directory that may crash
 * anywhere and be resumed any number of times, while processes in other directories use the same budget. It must
 * never send the same request twice.
 */
module Runner {
  import opened Values
  import opened Budget
  import opened Sharing

  const RESERVE_TOKENS: nat := 1_000_000

  datatype Task = Task(id: string, requestHash: string)

  /** A saved receipt; `usage` is what its recorded response reports, if it reports any. */
  datatype Receipt = Receipt(requestHash: string, usage: Option<Settlement>)

  datatype Status = Received | Unknown | BudgetExceeded | BudgetOverrun

  datatype Row = Row(task: Task, usage: Option<Settlement>, status: Status)

  /** What the provider answers: nothing (a timeout or a transport error), or a response. */
  datatype Reply = NoReply | Response(usage: Option<Settlement>) {
    function Usage(): Option<Settlement> {
      if Response? then usage else None
    }
  }

  datatype Crash = Nowhere | AfterReserve | AfterDispatch | AfterSend | AfterResponse | AfterReceipt

  /**
   * Everything the environment decides about one task of one run; the moves are those of processes in other
   * directories, before the reservation, before the send and before the settlement.
   */
  datatype Turn = Turn(before: seq<Move>, reserveCut: Cut, between: seq<Move>, crash: Crash, reply: Reply,
                       after: seq<Move>, settleCut: Cut)

  /** No other process touches the budget meanwhile. */
  predicate Quiet(turn: Turn) {
    turn.before == [] && turn.between == [] && turn.after == []
  }

  predicate DistinctTasks(tasks: seq<Task>) {
    forall i, j | 0 <= i < |tasks| && 0 <= j < |tasks| && i != j :: tasks[i].id != tasks[j].id
  }

  /** The files of an output directory. */
  datatype Files = Files(
    dispatches: map<string, Task>,
    responses: set<string>,            // raw responses on disk
    receipts: map<string, Receipt>)

  /** The dispatch record comes before the send, the raw response before the receipt that counts it. */
  ghost predicate Filed(f: Files, directory: nat, sent: seq<Sending>, reserved: set<string>) {
    && (forall id | id in f.dispatches :: f.dispatches[id].id == id && id in reserved)
    && (forall s | s in sent && s.directory == directory :: s.id in f.dispatches)
    && (forall id | id in f.responses :: Sending(directory, id) in sent)
    && forall id | id in f.receipts ::
      Sending(directory, id) in sent && (f.receipts[id].usage.Some? ==> id in f.responses)
  }

  lemma FiledGrows(f: Files, directory: nat, sent: seq<Sending>, reserved: set<string>,
                   sent': seq<Sending>, reserved': set<string>)
    requires Filed(f, directory, sent, reserved) && reserved <= reserved' && OthersSent(sent, sent', directory)
    ensures Filed(f, directory, sent', reserved')
  {
  }

  lemma DispatchIsFiled(f: Files, directory: nat, sent: seq<Sending>, reserved: set<string>, task: Task)
    requires Filed(f, directory, sent, reserved) && task.id in reserved
    ensures Filed(f.(dispatches := f.dispatches[task.id := task]), directory, sent, reserved)
  {
  }

  lemma SendIsFiled(f: Files, directory: nat, sent: seq<Sending>, reserved: set<string>, id: string)
    requires Filed(f, directory, sent, reserved) && id in f.dispatches
    ensures Filed(f, directory, sent + [Sending(directory, id)], reserved)
  {
  }

  lemma ResponseIsFiled(f: Files, directory: nat, sent: seq<Sending>, reserved: set<string>, id: string)
    requires Filed(f, directory, sent, reserved) && Sending(directory, id) in sent
    ensures Filed(f.(responses := f.responses + {id}), directory, sent, reserved)
  {
  }

  lemma ReceiptIsFiled(f: Files, directory: nat, sent: seq<Sending>, reserved: set<string>, id: string,
                       receipt: Receipt)
    requires Filed(f, directory, sent, reserved) && Sending(directory, id) in sent
    requires receipt.usage.Some? ==> id in f.responses
    ensures Filed(f.(receipts := f.receipts[id := receipt]), directory, sent, reserved)
  {
  }

  /** Files of other tasks are as before. */
  ghost predicate OtherFilesKept(a: Files, b: Files, id: string) {
    forall k | k != id ::
      && (k in b.receipts <==> k in a.receipts) && (k in a.receipts ==> b.receipts[k] == a.receipts[k])
      && (k in b.dispatches <==> k in a.dispatches) && (k in a.dispatches ==> b.dispatches[k] == a.dispatches[k])
      && (k in b.responses <==> k in a.responses)
  }

  /** The usage can be settled: nothing else has been. */
  predicate Payable(state: State, id: string, usage: Option<Settlement>) {
    usage.Some? ==>
      HashText(usage.value.response) && id in state.requests && state.requests[id].settlement in {None, usage}
  }

  /** The task is new, or reserved without a receipt, or saved with its receipt, and what is on file belongs to it. */
  ghost predicate OnFile(books: Result<State>, f: Files, task: Task) {
    && books.Ok?
    && if task.id in f.receipts then
         EntryMatches(books.value, task) && f.receipts[task.id].requestHash == task.requestHash
       else if task.id in books.value.requests then
         EntryMatches(books.value, task) && (task.id in f.dispatches ==> f.dispatches[task.id] == task)
       else task.id !in f.dispatches && task.id !in f.responses
  }

  /** And a usage that was saved can be settled. */
  ghost predicate Resumable(books: Result<State>, f: Files, task: Task) {
    OnFile(books, f, task) && (task.id in f.receipts ==> Payable(books.value, task.id, f.receipts[task.id].usage))
  }

  /** The ids and hashes are well formed, and a response that is read reports a well-formed hash. */
  predicate Fits(task: Task, turn: Turn) {
    && RequestId(task.id) && HashText(task.requestHash)
    && (turn.reply.Usage().Some? ==> HashText(turn.reply.Usage().value.response))
  }

  lemma PaidIsResumable(state: State, f: Files, task: Task)
    requires Resumable(Ok(state), f, task) && task.id in f.receipts && f.receipts[task.id].usage.Some?
    ensures Resumable(Ok(Paid(state, task.id, f.receipts[task.id].usage.value)), f, task)
  {
  }

  /** The row of a resumable task in an undisturbed turn, before its usage is settled. */
  function Expected(state: State, f: Files, task: Task, turn: Turn): Row {
    if task.id in f.receipts then Row(task, f.receipts[task.id].usage, Received)
    else if task.id in state.requests then Row(task, None, Unknown)
    else FreshRow(state, task, turn)
  }

  /**
   * What the row of such a task says after the run: a saved receipt its usage, a reservation without receipt that
   * nothing is known, and a new task what the provider reported, unless the budget was exceeded.
   */
  ghost predicate RowTells(books: Result<State>, f: Files, task: Task, turn: Turn, row: Row)
    requires books.Ok?
  {
    && row.task == task
    && if task.id in f.receipts then
         && row.usage == f.receipts[task.id].usage
         && row.status ==
              if row.usage.Some? && row.usage.value.Total() > RESERVE_TOKENS then BudgetOverrun else Received
       else if task.id in books.value.requests then row.usage == None && row.status == Unknown
       else
         || (row.usage == None && row.status == BudgetExceeded)
         || (row.usage == turn.reply.Usage() && row.status ==
              if row.usage.Some? && row.usage.value.Total() > RESERVE_TOKENS then BudgetOverrun else Received)
  }

  /** Nothing will go wrong in this run, and no other process interferes. */
  ghost predicate AllReady(tasks: seq<Task>, turns: seq<Turn>)
    requires |turns| == |tasks|
  {
    forall k | 0 <= k < |tasks| :: Quiet(turns[k]) && Ready(tasks[k], turns[k])
  }

  /** Every task can be resumed, if the journal can be read at all. */
  ghost predicate AllResumable(books: Result<State>, f: Files, tasks: seq<Task>) {
    books.Ok? ==> forall k | 0 <= k < |tasks| :: Resumable(books, f, tasks[k])
  }

  lemma StillResumable(a: Result<State>, f: Files, b: Result<State>, g: Files, tasks: seq<Task>, i: nat)
    requires i < |tasks| && DistinctTasks(tasks) && AllResumable(a, f, tasks)
    requires b.Ok? ==> Advanced(a, b, tasks[i].id) && (Resumable(a, f, tasks[i]) ==> Resumable(b, g, tasks[i]))
    requires OtherFilesKept(f, g, tasks[i].id)
    ensures AllResumable(b, g, tasks)
  {
    if b.Ok? {
      forall k | 0 <= k < |tasks| ensures Resumable(b, g, tasks[k]) {
        assert Resumable(a, f, tasks[k]);
      }
    }
  }

  /**
   * How far an undisturbed run has come: the tasks that have their rows could be resumed, their rows tell what was
   * known before the run and what was reported in it, and for the others nothing has changed.
   */
  ghost predicate SoFar(a: Result<State>, f: Files, b: Result<State>, g: Files, tasks: seq<Task>, turns: seq<Turn>,
                        rows: seq<Row>)
  {
    && |rows| <= |tasks| == |turns| && a.Ok? && b.Ok?
    && (forall k | 0 <= k < |rows| :: Resumable(a, f, tasks[k]) && RowTells(a, f, tasks[k], turns[k], rows[k]))
    && forall k | |rows| <= k < |tasks| ::
      && (Resumable(a, f, tasks[k]) <==> Resumable(b, g, tasks[k]))
      && (tasks[k].id in a.value.requests <==> tasks[k].id in b.value.requests)
      && (tasks[k].id in f.receipts <==> tasks[k].id in g.receipts)
      && (tasks[k].id in f.receipts ==> f.receipts[tasks[k].id] == g.receipts[tasks[k].id])
  }

  lemma NothingSoFar(a: Result<State>, f: Files, tasks: seq<Task>, turns: seq<Turn>)
    requires a.Ok? && |turns| == |tasks|
    ensures SoFar(a, f, a, f, tasks, turns, [])
  {
    hide Resumable;
  }

  lemma SoFarIsReadable(a: Result<State>, f: Files, b: Result<State>, g: Files, tasks: seq<Task>, turns: seq<Turn>,
                        rows: seq<Row>)
    requires SoFar(a, f, b, g, tasks, turns, rows)
    ensures b.Ok?
  {
  }

  lemma ResumableIsReadable(books: Result<State>, f: Files, task: Task)
    requires Resumable(books, f, task)
    ensures books.Ok?
  {
  }

  lemma NothingBooked(books: Result<State>, tasks: seq<Task>)
    ensures BookedSoFar(books, books, tasks, [])
  {
  }

  lemma MoreSoFar(a: Result<State>, f: Files, b: Result<State>, g: Files, c: Result<State>, h: Files,
                  tasks: seq<Task>, turns: seq<Turn>, rows: seq<Row>, row: Row)
    requires SoFar(a, f, b, g, tasks, turns, rows) && |rows| < |tasks| && DistinctTasks(tasks)
    requires Advanced(b, c, tasks[|rows|].id) && OtherFilesKept(g, h, tasks[|rows|].id)
    requires Resumable(b, g, tasks[|rows|]) && RowTells(b, g, tasks[|rows|], turns[|rows|], row)
    ensures SoFar(a, f, c, h, tasks, turns, rows + [row])
  {
    var i := |rows|;
    forall k | i < k < |tasks| ensures Resumable(b, g, tasks[k]) <==> Resumable(c, h, tasks[k]) {
      assert tasks[k].id != tasks[i].id;
      OthersResumable(b, g, c, h, tasks[k], tasks[i].id);
    }
    hide Resumable;
    forall k | 0 <= k <= i
      ensures Resumable(a, f, tasks[k]) && RowTells(a, f, tasks[k], turns[k], (rows + [row])[k])
    {
    }
  }

  lemma OthersResumable(a: Result<State>, f: Files, b: Result<State>, g: Files, task: Task, id: string)
    requires Advanced(a, b, id) && OtherFilesKept(f, g, id) && task.id != id
    ensures Resumable(a, f, task) <==> Resumable(b, g, task)
  {
  }

  lemma NotResumable(a: Result<State>, f: Files, b: Result<State>, g: Files, tasks: seq<Task>, turns: seq<Turn>,
                     rows: seq<Row>)
    requires SoFar(a, f, b, g, tasks, turns, rows) && |rows| < |tasks| && !Resumable(b, g, tasks[|rows|])
    ensures !(forall k | 0 <= k < |tasks| :: Resumable(a, f, tasks[k]))
  {
    assert !Resumable(a, f, tasks[|rows|]);
    hide Resumable;
  }

  /** All rows are there: every task could be resumed, and every row tells. */
  lemma AllSoFar(a: Result<State>, f: Files, b: Result<State>, g: Files, tasks: seq<Task>, turns: seq<Turn>,
                 rows: seq<Row>)
    requires SoFar(a, f, b, g, tasks, turns, rows) && |rows| == |tasks|
    ensures forall k | 0 <= k < |tasks| :: Resumable(a, f, tasks[k]) && RowTells(a, f, tasks[k], turns[k], rows[k])
  {
    hide Resumable, RowTells;
  }

  /** The books of the tasks that have their rows, and whose they are. */
  ghost predicate BookedSoFar(a: Result<State>, b: Result<State>, tasks: seq<Task>, rows: seq<Row>) {
    && |rows| <= |tasks|
    && if rows == [] then a == b
       else b.Ok? && Complete(tasks[..|rows|], rows, b.value) && SameOwner(a, b, tasks)
  }

  lemma MoreBooked(a: Result<State>, b: Result<State>, c: Result<State>, tasks: seq<Task>, rows: seq<Row>, row: Row)
    requires BookedSoFar(a, b, tasks, rows) && |rows| < |tasks| && DistinctTasks(tasks)
    requires Advanced(b, c, tasks[|rows|].id) && row.task == tasks[|rows|] && RowBooked(row, c.value)
    ensures BookedSoFar(a, c, tasks, rows + [row])
  {
    OwnerKept(b, c, tasks, |rows|);
    CompleteMore(tasks, rows, row, |rows|, b.value, c.value);
    hide Own, RowBooked, Complete, OthersKept;
  }

  lemma AllBooked(a: Result<State>, b: Result<State>, tasks: seq<Task>, rows: seq<Row>)
    requires BookedSoFar(a, b, tasks, rows) && |rows| == |tasks| && b.Ok?
    ensures Complete(tasks, rows, b.value) && SameOwner(a, b, tasks)
  {
    assert tasks[..|tasks|] == tasks;
  }

  lemma GrantIsReserved(sent: seq<Sending>, granted: set<Sending>, reserved: set<string>, g: Sending)
    requires AtMostOnce(sent, granted, reserved) && g in granted
    ensures g.id in reserved
  {
  }

  class BenchmarkRunner {
    const shared: SharedBudget
    const directory: nat
    var files: Files

    /** A new output directory on any budget, however much is booked in it already. */
    constructor (shared: SharedBudget, directory: nat)
      requires shared.Valid() && forall s | s in shared.sent :: s.directory != directory
      ensures this.shared == shared && this.directory == directory && files == Files(map[], {}, map[]) && Consistent()
      ensures shared.budget.journal == [Init(shared.budget.limit)] ==> OwnBooks()
    {
      this.shared, this.directory, files := shared, directory, Files(map[], {}, map[]);
      new;
      assert shared.budget.journal[..1] == [shared.budget.journal[0]];
    }

    function Books(): Result<State>
      reads this, shared, shared.budget
    {
      shared.budget.Contents()
    }

    /** What every sequence of crashed and resumed runs keeps, whatever the other processes do. */
    ghost predicate Consistent()
      reads this, shared, shared.budget
    {
      shared.Valid() && Filed(files, directory, shared.sent, Reserved(shared.budget.journal))
    }

    /** The journal is this directory's own: every settlement comes from a receipt saved here. */
    ghost predicate OwnBooks()
      reads this, shared, shared.budget
    {
      Books().Ok? ==> Settled(Books().value, files.receipts)
    }

    /** The other processes move. */
    method Interrupt(moves: seq<Move>)
      requires Consistent()
      modifies shared, shared.budget
      ensures Consistent() && SameGrants(old(shared.granted), shared.granted, directory)
      ensures OthersSent(old(shared.sent), shared.sent, directory)
      ensures Reserved(old(shared.budget.journal)) <= Reserved(shared.budget.journal)
      ensures moves == [] ==>
        Books() == old(Books()) && shared.sent == old(shared.sent) && shared.granted == old(shared.granted)
    {
      hide Filed, Reserved, AtMostOnce;
      shared.Others(directory, moves);
      FiledGrows(files, directory, old(shared.sent), Reserved(old(shared.budget.journal)),
                 shared.sent, Reserved(shared.budget.journal));
    }

    /** The entry check made before a saved dispatch, response or receipt is believed. */
    method Matches(task: Task) returns (r: Result<bool>)
      ensures r == (if Books().Err? then Err(Books().error) else Ok(EntryMatches(Books().value, task)))
    {
      var read := shared.budget.ReadState();
      r := match read case Err(error) => Err(error) case Ok(state) => Ok(EntryMatches(state, task));
    }

    /** From the fresh reservation to the saved receipt; None stands for a crash or an error. */
    method Send(task: Task, turn: Turn) returns (receipt: Option<Receipt>)
      requires Consistent() && Sending(directory, task.id) in shared.granted && task.id !in files.receipts
      modifies this, shared
      ensures Consistent() && Books() == old(Books()) && OtherFilesKept(old(files), files, task.id)
      ensures old(OwnBooks()) ==> OwnBooks()
      ensures shared.sent in {old(shared.sent), old(shared.sent) + [Sending(directory, task.id)]}
      ensures receipt.Some? ==>
        && turn.crash in {Nowhere, AfterReceipt} && receipt.value == Receipt(task.requestHash, turn.reply.Usage())
        && files.receipts == old(files).receipts[task.id := receipt.value]
        && shared.sent == old(shared.sent) + [Sending(directory, task.id)]
      ensures turn.crash == Nowhere && task.id !in old(files).dispatches && task.id !in old(files).responses ==>
        receipt.Some?
      ensures receipt.Some? ==> receipt.value.usage == match turn.reply case NoReply => None case Response(u) => u
      ensures task.id in old(files).dispatches ==>
        receipt == None && files == old(files) && shared.sent == old(shared.sent)
      ensures Unpaid(Books(), task.id) && EntryMatches(Books().value, task) && task.id !in old(files).dispatches ==>
        Fits(task, turn) ==> Resumable(Books(), files, task)
    {
      hide AtMostOnce, Reserved, Filed, Settled, ReserveOutcome;
      ghost var reserved := Reserved(shared.budget.journal);
      receipt := None;
      if turn.crash == AfterReserve || task.id in files.dispatches {
        return;
      }
      GrantIsReserved(shared.sent, shared.granted, reserved, Sending(directory, task.id));
      DispatchIsFiled(files, directory, shared.sent, reserved, task);
      files := files.(dispatches := files.dispatches[task.id := task]);
      if turn.crash == AfterDispatch {
        return;
      }
      SendIsFiled(files, directory, shared.sent, reserved, task.id);
      shared.Transmit(directory, task.id);
      receipt := Record(task, turn);
    }

    /** The answer of the provider: the raw response, if there is one, and then the receipt. */
    method Record(task: Task, turn: Turn) returns (receipt: Option<Receipt>)
      requires Consistent() && Sending(directory, task.id) in shared.sent && task.id !in files.receipts
      modifies this
      ensures Consistent() && OtherFilesKept(old(files), files, task.id)
      ensures old(OwnBooks()) ==> OwnBooks()
      ensures receipt.Some? ==>
        && turn.crash !in {AfterSend, AfterResponse} && receipt.value == Receipt(task.requestHash, turn.reply.Usage())
        && files.receipts == old(files).receipts[task.id := receipt.value]
      ensures turn.crash == Nowhere && task.id !in old(files).responses ==> receipt.Some?
      ensures receipt.Some? ==> receipt.value.usage == match turn.reply case NoReply => None case Response(u) => u
      ensures task.id in old(files).responses ==> receipt == None && files == old(files)
      ensures Unpaid(Books(), task.id) && EntryMatches(Books().value, task) && Fits(task, turn) ==>
        task.id in old(files).dispatches && old(files).dispatches[task.id] == task ==>
        Resumable(Books(), files, task)
    {
      hide AtMostOnce, Reserved, Filed, Settled, ReserveOutcome;
      ghost var reserved, before := Reserved(shared.budget.journal), files.receipts;
      receipt := None;
      if turn.crash == AfterSend || task.id in files.responses {
        return;
      }
      if turn.reply.Response? {
        ResponseIsFiled(files, directory, shared.sent, reserved, task.id);
        files := files.(responses := files.responses + {task.id});
      }
      if turn.crash == AfterResponse {
        return;
      }
      receipt := Some(Receipt(task.requestHash, turn.reply.Usage()));
      ReceiptIsFiled(files, directory, shared.sent, reserved, task.id, receipt.value);
      files := files.(receipts := files.receipts[task.id := receipt.value]);
      if Books().Ok? && Settled(Books().value, before) {
        ReceiptKeepsSettled(Books().value, before, task.id, receipt.value);
      }
    }

    /** The row of one task before its usage is settled. */
    method Collect(task: Task, turn: Turn) returns (r: Result<Row>)
      requires Consistent()
      modifies this, shared, shared.budget
      ensures Consistent() && old(shared.sent) <= shared.sent && OtherFilesKept(old(files), files, task.id)
      ensures task.id in Reserved(old(shared.budget.journal)) ==> OthersSent(old(shared.sent), shared.sent, directory)
      ensures r.Ok? ==> r.value.task == task && Reports(r.value, files.receipts)
      ensures Quiet(turn) && old(OwnBooks()) ==> OwnBooks()
      ensures Quiet(turn) && r.Ok? ==>
        Advanced(old(Books()), Books(), task.id) && RowKnown(r.value, Books().value, files.receipts)
      ensures Quiet(turn) && Books().Ok? ==>
        && Advanced(old(Books()), Books(), task.id)
        && (Fits(task, turn) && Resumable(old(Books()), old(files), task) ==> Resumable(Books(), files, task))
      ensures Quiet(turn) && r.Ok? ==> OnFile(old(Books()), old(files), task)
      ensures r.Ok? && task.id in old(files).receipts ==>
        && files == old(files) && r.value.usage == files.receipts[task.id].usage
        && (Quiet(turn) ==> Books() == old(Books()))
      ensures Quiet(turn) && Ready(task, turn) && Resumable(old(Books()), old(files), task) ==>
        && r.Ok? && Books().Ok? && r.value == Expected(old(Books()).value, old(files), task, turn)
        && Payable(Books().value, task.id, r.value.usage)
        && (r.value.usage.Some? ==> EntryMatches(Books().value, task))
        && shared.sent == old(shared.sent)
             + if task.id in old(Books()).value.requests then [] else Sends(r.value, directory)
    {
      hide Filed, RequestId, HashText, AtMostOnce, Reserved;
      Interrupt(turn.before);
      NothingAdvances(Books(), task.id);
      if task.id in files.receipts {
        var matches := Matches(task);
        if matches != Ok(true) || files.receipts[task.id].requestHash != task.requestHash {
          return Err(if matches.Err? then matches.error else Conflict);
        }
        return Ok(Row(task, files.receipts[task.id].usage, Received));
      }
      if task.id in files.dispatches || task.id in files.responses {
        var matches := Matches(task);
        if matches != Ok(true) || (task.id in files.dispatches && files.dispatches[task.id] != task) {
          return Err(if matches.Err? then matches.error else Conflict);
        }
      }
      r := Dispatch(task, turn);
    }

    /** The reservation of one task; whatever becomes of it, nothing is settled by it. */
    method Book(task: Task, cut: Cut) returns (r: Result<bool>)
      requires Consistent()
      modifies shared, shared.budget
      ensures Consistent() && shared.sent == old(shared.sent) && (old(OwnBooks()) ==> OwnBooks())
      ensures r == Ok(true) ==>
        && Sending(directory, task.id) in shared.granted && task.id !in Reserved(old(shared.budget.journal))
        && Unpaid(Books(), task.id) && old(Books()).Ok? && task.id !in old(Books()).value.requests
      ensures r.Ok? ==> Advanced(old(Books()), Books(), task.id) && EntryMatches(Books().value, task)
      ensures r == Ok(false) ==> Books() == old(Books())
      ensures r == Err(Exceeded) ==>
        Advanced(old(Books()), Books(), task.id) && task.id !in Books().value.requests
      ensures cut == Whole ==> r == ReserveOutcome(old(Books()), task.id, RESERVE_TOKENS, task.requestHash)
      ensures Books().Ok? ==>
        && Advanced(old(Books()), Books(), task.id)
        && (Books() == old(Books())
            || (task.id !in old(Books()).value.requests && EntryMatches(Books().value, task)))
    {
      hide Filed, RequestId, HashText, AtMostOnce, Reserved, Settled, OthersKept, ReserveOutcome;
      ghost var before := Books();
      NothingAdvances(before, task.id);
      if before.Ok? && task.id !in before.value.requests {
        AddedAdvances(before.value, task, files.receipts);
      }
      r := shared.Reserve(directory, task.id, RESERVE_TOKENS, task.requestHash, cut);
      FiledGrows(files, directory, shared.sent, Reserved(old(shared.budget.journal)),
                 shared.sent, Reserved(shared.budget.journal));
      assert r in {Ok(true), Ok(false)} || r.Err? by {
        if r.Ok? {
          assert r == Ok(r.value) && (r.value || !r.value);
        }
      }
    }

    /** Reserving, and sending only on a reservation that is fresh. */
    method Dispatch(task: Task, turn: Turn) returns (r: Result<Row>)
      requires Consistent() && task.id !in files.receipts
      modifies this, shared, shared.budget
      ensures Consistent() && old(shared.sent) <= shared.sent && OtherFilesKept(old(files), files, task.id)
      ensures task.id in Reserved(old(shared.budget.journal)) ==> OthersSent(old(shared.sent), shared.sent, directory)
      ensures r.Ok? ==> r.value.task == task && Reports(r.value, files.receipts)
      ensures Quiet(turn) && old(OwnBooks()) ==> OwnBooks()
      ensures Quiet(turn) && r.Ok? ==>
        Advanced(old(Books()), Books(), task.id) && RowKnown(r.value, Books().value, files.receipts)
      ensures Quiet(turn) && Books().Ok? ==>
        && Advanced(old(Books()), Books(), task.id)
        && (Fits(task, turn) && Resumable(old(Books()), old(files), task) ==> Resumable(Books(), files, task))
      ensures Quiet(turn) && r.Ok? ==> task.id in old(Books()).value.requests ==> EntryMatches(old(Books()).value, task)
      ensures Quiet(turn) && Ready(task, turn) && Resumable(old(Books()), old(files), task) ==>
        && r.Ok? && Books().Ok? && r.value == Expected(old(Books()).value, old(files), task, turn)
        && Payable(Books().value, task.id, r.value.usage)
        && (r.value.usage.Some? ==> EntryMatches(Books().value, task))
        && shared.sent == old(shared.sent)
             + if task.id in old(Books()).value.requests then [] else Sends(r.value, directory)
    {
      hide Filed, RequestId, HashText, AtMostOnce, Reserved, Settled, OthersKept, AfterCut, Added;
      var reserved := Book(task, turn.reserveCut);
      match reserved {
        case Err(error) =>
          r := if error == Exceeded then Ok(Row(task, None, BudgetExceeded)) else Err(error);
        case Ok(isNew) =>
          if !isNew {
            return Ok(Row(task, None, Unknown));
          }
          Interrupt(turn.between);
          var receipt := Send(task, turn);
          if receipt == None || turn.crash == AfterReceipt {
            return Err(Crashed);
          }
          r := Ok(Row(task, receipt.value.usage, Received));
      }
    }

    /** One turn of the loop: the row, and the settlement of the usage it reports. */
    method RunTask(task: Task, turn: Turn) returns (r: Result<Row>)
      requires Consistent()
      modifies this, shared, shared.budget
      ensures Consistent() && old(shared.sent) <= shared.sent && OtherFilesKept(old(files), files, task.id)
      ensures task.id in Reserved(old(shared.budget.journal)) ==> OthersSent(old(shared.sent), shared.sent, directory)
      ensures r.Ok? ==> r.value.task == task
      ensures r.Ok? && r.value.usage.Some? ==> Books().Ok? && UsageBooked(r.value, Books().value)
      ensures Quiet(turn) && old(OwnBooks()) ==> OwnBooks()
      ensures Quiet(turn) && r.Ok? ==> Advanced(old(Books()), Books(), task.id)
      ensures Quiet(turn) && old(OwnBooks()) && r.Ok? ==> RowBooked(r.value, Books().value)
      ensures Quiet(turn) && Books().Ok? ==>
        && Advanced(old(Books()), Books(), task.id)
        && (Fits(task, turn) && Resumable(old(Books()), old(files), task) ==> Resumable(Books(), files, task))
      ensures Quiet(turn) && Ready(task, turn) ==> (r.Ok? <==> Resumable(old(Books()), old(files), task))
      ensures Quiet(turn) && Ready(task, turn) && Resumable(old(Books()), old(files), task) ==>
        && r.Ok? && RowTells(old(Books()), old(files), task, turn, r.value)
        && (r.value.status == BudgetExceeded <==>
          && task.id !in old(Books()).value.requests
          && (old(Books()).value.halted
              || old(Books()).value.spent + old(Books()).value.reserved + RESERVE_TOKENS > old(Books()).value.limit))
    {
      hide Filed, RequestId, HashText, AtMostOnce, Reserved;
      r := Collect(task, turn);
      hide Settled, OthersKept, RowKnown, RowBooked, Paid, OnFile, Payable;
      if r.Err? {
        return;
      }
      if r.value.usage == None {
        if Quiet(turn) && old(OwnBooks()) {
          UnpaidIsBooked(Books().value, r.value, files.receipts);
        }
        return;
      }
      Interrupt(turn.after);
      ghost var before := Books();
      r := SettleRow(r.value, turn.settleCut);
      if Quiet(turn) && Books().Ok? {
        OthersKeptOn(old(Books()).value, before.value, Books().value, task.id);
      }
    }

    /** The settlement of the usage that a row reports; an overrun is booked and shown in the row. */
    method SettleRow(row: Row, cut: Cut) returns (r: Result<Row>)
      requires Consistent() && row.usage.Some? && Reports(row, files.receipts)
      modifies shared.budget
      ensures Consistent() && (old(OwnBooks()) ==> OwnBooks())
      ensures Reserved(old(shared.budget.journal)) == Reserved(shared.budget.journal)
      ensures r.Ok? ==>
        && r.value in {row, row.(status := BudgetOverrun)}
        && old(Books()).Ok? && Books().Ok? && UsageBooked(r.value, Books().value)
        && (RowKnown(row, old(Books()).value, files.receipts) ==> RowBooked(r.value, Books().value))
      ensures Books().Ok? ==>
        && Advanced(old(Books()), Books(), row.task.id)
        && (Resumable(old(Books()), files, row.task) ==> Resumable(Books(), files, row.task))
      ensures cut == Whole && r.Ok? ==> Payable(old(Books()).value, row.task.id, row.usage)
      ensures cut == Whole && old(Books()).Ok? && RequestId(row.task.id) ==>
        Payable(old(Books()).value, row.task.id, row.usage) && EntryMatches(old(Books()).value, row.task) ==>
        r == Ok(if row.usage.value.Total() > RESERVE_TOKENS then row.(status := BudgetOverrun) else row)
    {
      ghost var before := Books();
      NothingAdvances(before, row.task.id);
      if before.Ok? && row.task.id in before.value.requests {
        PaidIsBooked(before.value, row, files.receipts);
        if Resumable(before, files, row.task) {
          PaidIsResumable(before.value, files, row.task);
        }
      }
      hide Filed, RequestId, HashText, AtMostOnce, Reserved, Settled, OthersKept, RowKnown, RowBooked, Paid, OnFile;
      var settled := shared.budget.Settle(row.task.id, row.usage.value, cut);
      match settled {
        case Ok(_) => r := Ok(row);
        case Err(error) => r := if error == Overrun then Ok(row.(status := BudgetOverrun)) else Err(error);
      }
    }

    /**
     * One run over all tasks; Err stands for a crash or an error that ends the process. Undisturbed, it completes
     * exactly when every task can be resumed.
     */
    method Run(tasks: seq<Task>, turns: seq<Turn>) returns (r: Result<seq<Row>>)
      requires Consistent() && DistinctTasks(tasks) && |turns| == |tasks|
      modifies this, shared, shared.budget
      ensures Consistent() && old(shared.sent) <= shared.sent
      ensures old(OwnBooks()) && (forall turn | turn in turns :: Quiet(turn)) ==> OwnBooks()
      ensures old(OwnBooks()) && (forall turn | turn in turns :: Quiet(turn)) && r.Ok? ==>
        && old(Books()).Ok? && Books().Ok? && Complete(tasks, r.value, Books().value)
        && (Own(old(Books()).value, tasks) <==> Own(Books().value, tasks))
        && (Own(old(Books()).value, tasks) ==> Books().value.Committed() == Cost(r.value))
      ensures AllReady(tasks, turns) ==>
        && (r.Ok? <==> old(Books()).Ok? && forall k | 0 <= k < |tasks| :: Resumable(old(Books()), old(files), tasks[k]))
        && (r.Ok? ==> |r.value| == |tasks| && forall k | 0 <= k < |tasks| ::
              RowTells(old(Books()), old(files), tasks[k], turns[k], r.value[k]))
      ensures (forall k | 0 <= k < |tasks| :: Quiet(turns[k]) && Fits(tasks[k], turns[k])) ==>
        && (AllResumable(old(Books()), old(files), tasks) ==> AllResumable(Books(), files, tasks))
        && (Books().Ok? ==> old(Books()).Ok?)
    {
      hide Filed, RequestId, HashText, AtMostOnce, Reserved, Settled, RowBooked, Quiet, Resumable, Ready, OthersKept,
        OtherFilesKept, Own, SoFar, BookedSoFar, RowTells, Fits, AllResumable, OnFile, Payable, EntryMatches, Complete;
      ghost var own := OwnBooks() && forall turn | turn in turns :: Quiet(turn);
      ghost var ready := AllReady(tasks, turns);
      ghost var calm := forall k | 0 <= k < |tasks| :: Quiet(turns[k]) && Fits(tasks[k], turns[k]);
      ghost var resumable := AllResumable(Books(), files, tasks);
      NothingBooked(Books(), tasks);
      if Books().Ok? {
        NothingSoFar(Books(), files, tasks, turns);
      }
      var rows: seq<Row> := [];
      for i := 0 to |tasks|
        invariant Consistent() && |rows| == i && old(shared.sent) <= shared.sent
        invariant own ==> OwnBooks() && BookedSoFar(old(Books()), Books(), tasks, rows)
        invariant calm ==> (resumable ==> AllResumable(Books(), files, tasks)) && (Books().Ok? ==> old(Books()).Ok?)
        invariant ready && old(Books()).Ok? ==> SoFar(old(Books()), old(files), Books(), files, tasks, turns, rows)
        invariant ready && old(Books()).Err? ==> i == 0 && Books() == old(Books())
      {
        assert turns[i] in turns;
        ghost var before, filesBefore := Books(), files;
        var row := RunTask(tasks[i], turns[i]);
        if calm && resumable {
          StillResumable(before, filesBefore, Books(), files, tasks, i);
        }
        if row.Err? {
          if ready && old(Books()).Ok? {
            NotResumable(old(Books()), old(files), before, filesBefore, tasks, turns, rows);
          }
          return Err(row.error);
        }
        if own {
          MoreBooked(old(Books()), before, Books(), tasks, rows, row.value);
        }
        if ready {
          ResumableIsReadable(before, filesBefore, tasks[i]);
          MoreSoFar(old(Books()), old(files), before, filesBefore, Books(), files, tasks, turns, rows, row.value);
        }
        rows := rows + [row.value];
      }
      if ready && old(Books()).Ok? {
        AllSoFar(old(Books()), old(files), Books(), files, tasks, turns, rows);
        SoFarIsReadable(old(Books()), old(files), Books(), files, tasks, turns, rows);
      }
      var read := shared.budget.ReadState();
      if read.Err? {
        return Err(read.error);
      }
      if own {
        AllBooked(old(Books()), Books(), tasks, rows);
        CommittedIsCost(shared.budget.journal, tasks, rows);
      }
      r := Ok(rows);
    }

    /**
     * Runs of one task list that are cut short anywhere, and then an undisturbed one: it completes, unless a crash
     * has left a journal that nobody can read.
     */
    method ResumeAfterCrashes(tasks: seq<Task>, attempts: seq<seq<Turn>>, last: seq<Turn>)
      returns (r: Result<seq<Row>>)
      requires Consistent() && DistinctTasks(tasks) && |last| == |tasks| && AllResumable(Books(), files, tasks)
      requires forall turns | turns in attempts ::
        |turns| == |tasks| && forall k | 0 <= k < |tasks| :: Quiet(turns[k]) && Fits(tasks[k], turns[k])
      requires forall k | 0 <= k < |tasks| :: Quiet(last[k]) && Ready(tasks[k], last[k])
      modifies this, shared, shared.budget
      ensures Consistent() && DistinctIds(shared.sent) && AllResumable(Books(), files, tasks)
      ensures r.Ok? ==> |r.value| == |tasks|
      ensures r.Err? ==> Books().Err?
    {
      hide Filed, Reserved, Fits, Quiet, RequestId, HashText, Resumable;
      for n := 0 to |attempts|
        invariant Consistent() && AllResumable(Books(), files, tasks)
      {
        assert attempts[n] in attempts;
        var _ := Run(tasks, attempts[n]);
      }
      forall k | 0 <= k < |tasks| ensures Fits(tasks[k], last[k]) {
        ReadyFits(tasks[k], last[k]);
      }
      r := Run(tasks, last);
    }

    /** Any sequence of runs, each cut short anywhere, while others use the budget: no request id is ever sent twice. */
    method RunAgain(scripts: seq<(seq<Task>, seq<Turn>)>)
      requires Consistent()
      requires forall k | 0 <= k < |scripts| :: DistinctTasks(scripts[k].0) && |scripts[k].1| == |scripts[k].0|
      modifies this, shared, shared.budget
      ensures Consistent() && DistinctIds(shared.sent) && old(shared.sent) <= shared.sent
    {
      for k := 0 to |scripts|
        invariant Consistent() && old(shared.sent) <= shared.sent
      {
        var _ := Run(scripts[k].0, scripts[k].1);
      }
    }
  }

  /** A well-formed task in a turn without a fault. */
  predicate Ready(task: Task, turn: Turn) {
    && RequestId(task.id) && HashText(task.requestHash)
    && turn.reserveCut == Whole && turn.crash == Nowhere && turn.settleCut == Whole
    && (turn.reply.Usage().Some? ==> HashText(turn.reply.Usage().value.response))
  }

  lemma ReadyFits(task: Task, turn: Turn)
    requires Ready(task, turn)
    ensures Fits(task, turn)
  {
  }

  /** The row of a task that is sent for the first time, or that the budget no longer admits. */
  function FreshRow(state: State, task: Task, turn: Turn): Row {
    if state.halted || state.Committed() + RESERVE_TOKENS > state.limit then Row(task, None, BudgetExceeded)
    else Row(task, turn.reply.Usage(), Received)
  }

  /** A fresh row was sent once, unless the budget no longer admitted it. */
  function Sends(row: Row, directory: nat): seq<Sending> {
    if row.status == BudgetExceeded then [] else [Sending(directory, row.task.id)]
  }

  predicate EntryMatches(state: State, task: Task) {
    && task.id in state.requests && state.requests[task.id].amount == RESERVE_TOKENS
    && state.requests[task.id].requestHash == task.requestHash
  }

  ghost predicate Settled(state: State, receipts: map<string, Receipt>) {
    forall id | id in state.requests && state.requests[id].settlement.Some? ::
      id in receipts && receipts[id].usage == state.requests[id].settlement
  }

  lemma ReceiptKeepsSettled(state: State, before: map<string, Receipt>, id: string, receipt: Receipt)
    requires Settled(state, before) && id !in before
    ensures Settled(state, before[id := receipt])
  {
  }

  /** No request but this one has changed. */
  ghost predicate OthersKept(a: State, b: State, id: string) {
    forall k | k != id ::
      (k in a.requests <==> k in b.requests) && (k in a.requests ==> a.requests[k] == b.requests[k])
  }

  lemma OthersKeptOn(a: State, b: State, c: State, id: string)
    requires OthersKept(a, b, id) && OthersKept(b, c, id)
    ensures OthersKept(a, c, id)
  {
  }

  /** A request that was reserved and not settled yet. */
  ghost predicate Unpaid(books: Result<State>, id: string) {
    books.Ok? && id in books.value.requests && books.value.requests[id].settlement == None
  }

  lemma NothingAdvances(books: Result<State>, id: string)
    ensures books.Ok? ==> Advanced(books, books, id)
  {
  }

  /** Both times the journal can be read, and no other request has changed. */
  ghost predicate Advanced(a: Result<State>, b: Result<State>, id: string) {
    a.Ok? && b.Ok? && OthersKept(a.value, b.value, id)
  }

  /** A fresh reservation settles nothing, so books that were backed by receipts still are. */
  lemma AddedAdvances(state: State, task: Task, receipts: map<string, Receipt>)
    requires task.id !in state.requests
    ensures var after := Added(state, task.id, RESERVE_TOKENS, task.requestHash);
      OthersKept(state, after, task.id) && EntryMatches(after, task)
        && (Settled(state, receipts) ==> Settled(after, receipts))
  {
  }

  /** A row without usage is booked as an unsettled reservation, since a settlement would have its receipt here. */
  lemma UnpaidIsBooked(state: State, row: Row, receipts: map<string, Receipt>)
    requires RowKnown(row, state, receipts) && row.usage == None && Settled(state, receipts)
    ensures RowBooked(row, state)
  {
  }

  /** Settling the usage that a receipt reports books exactly the row, overrun or not. */
  lemma PaidIsBooked(state: State, row: Row, receipts: map<string, Receipt>)
    requires row.usage.Some? && Reports(row, receipts) && row.task.id in state.requests
    ensures state.requests[row.task.id].settlement in {None, row.usage} ==>
      var after := Paid(state, row.task.id, row.usage.value);
      && (Settled(state, receipts) ==> Settled(after, receipts)) && OthersKept(state, after, row.task.id)
      && UsageBooked(row, after) && UsageBooked(row.(status := BudgetOverrun), after)
      && (RowKnown(row, state, receipts) ==> RowBooked(row, after) && RowBooked(row.(status := BudgetOverrun), after))
  {
  }

  /** The usage of the row is what its receipt reports. */
  ghost predicate Reports(row: Row, receipts: map<string, Receipt>) {
    row.usage.Some? ==>
      row.status != BudgetExceeded && row.task.id in receipts && receipts[row.task.id].usage == row.usage
  }

  function UsageIn(receipts: map<string, Receipt>, id: string): Option<Settlement> {
    if id in receipts then receipts[id].usage else None
  }

  /** The row tells what the journal and the receipt say, but its usage may still have to be settled. */
  ghost predicate RowKnown(row: Row, state: State, receipts: map<string, Receipt>) {
    if row.status == BudgetExceeded then row.task.id !in state.requests && row.usage == None
    else EntryMatches(state, row.task) && row.usage == UsageIn(receipts, row.task.id)
  }

  ghost predicate UsageBooked(row: Row, state: State) {
    row.task.id in state.requests && state.requests[row.task.id].settlement == row.usage
  }

  /** The journal books exactly what the row reports. */
  ghost predicate RowBooked(row: Row, state: State) {
    if row.status == BudgetExceeded then row.task.id !in state.requests && row.usage == None
    else EntryMatches(state, row.task) && state.requests[row.task.id].settlement == row.usage
  }

  ghost predicate Complete(tasks: seq<Task>, rows: seq<Row>, state: State) {
    && |rows| == |tasks|
    && forall i | 0 <= i < |rows| :: rows[i].task == tasks[i] && RowBooked(rows[i], state)
  }

  lemma CompleteMore(tasks: seq<Task>, rows: seq<Row>, row: Row, i: nat, before: State, state: State)
    requires i < |tasks| && |rows| == i && DistinctTasks(tasks) && row.task == tasks[i] && RowBooked(row, state)
    requires i > 0 ==> Complete(tasks[..i], rows, before) && OthersKept(before, state, tasks[i].id)
    ensures Complete(tasks[..i + 1], rows + [row], state)
  {
  }

  /** The journal holds requests of these tasks only. */
  ghost predicate Own(state: State, tasks: seq<Task>) {
    forall id | id in state.requests :: exists i :: 0 <= i < |tasks| && tasks[i].id == id
  }

  /** Both times the journal can be read, and it holds requests of these tasks only, or both times of others too. */
  ghost predicate SameOwner(a: Result<State>, b: Result<State>, tasks: seq<Task>) {
    a.Ok? && b.Ok? && (Own(a.value, tasks) <==> Own(b.value, tasks))
  }

  lemma OwnerKept(a: Result<State>, b: Result<State>, tasks: seq<Task>, i: nat)
    requires i < |tasks| && Advanced(a, b, tasks[i].id)
    ensures SameOwner(a, b, tasks)
  {
  }

  function RowCost(row: Row): nat {
    if row.status == BudgetExceeded then 0
    else if row.usage.Some? then row.usage.value.Total()
    else RESERVE_TOKENS
  }

  function Cost(rows: seq<Row>): nat {
    if rows == [] then 0 else Cost(rows[..|rows| - 1]) + RowCost(rows[|rows| - 1])
  }

  /** Every token committed in the journal is reported usage or the fixed reserve of a row without usage. */
  lemma {:induction false} CostIsWeight(requests: map<string, Entry>, rows: seq<Row>)
    requires forall i, j | 0 <= i < |rows| && 0 <= j < |rows| && i != j :: rows[i].task.id != rows[j].task.id
    requires forall id | id in requests :: exists i :: 0 <= i < |rows| && rows[i].task.id == id
    requires forall i | 0 <= i < |rows| ::
      RowCost(rows[i]) == if rows[i].task.id in requests then Weight(requests[rows[i].task.id]) else 0
    ensures Sum(requests, Weight) == Cost(rows)
  {
    if rows == [] {
      assert requests == map[];
    } else {
      var last := rows[|rows| - 1];
      var id, rest := last.task.id, rows[..|rows| - 1];
      forall k | k in requests - {id} ensures exists i :: 0 <= i < |rest| && rest[i].task.id == k {
        var i :| 0 <= i < |rows| && rows[i].task.id == k;
        assert rest[i].task.id == k;
      }
      CostIsWeight(requests - {id}, rest);
      if id in requests {
        SumSplit(requests, Weight, id);
      } else {
        assert requests - {id} == requests;
      }
    }
  }

  lemma {:induction false} CommittedIsCost(journal: seq<Event>, tasks: seq<Task>, rows: seq<Row>)
    requires Meaning(journal).Some? && DistinctTasks(tasks)
    requires |rows| == |tasks| && (tasks != [] ==> Complete(tasks, rows, Meaning(journal).value))
    ensures Own(Meaning(journal).value, tasks) ==> Meaning(journal).value.Committed() == Cost(rows)
  {
    var state := Meaning(journal).value;
    JournalBalances(journal);
    if Own(state, tasks) {
      forall id | id in state.requests ensures exists i :: 0 <= i < |rows| && rows[i].task.id == id {
        var i :| 0 <= i < |tasks| && tasks[i].id == id;
        assert rows[i].task.id == id;
      }
      CostIsWeight(state.requests, rows);
    }
  }
}
