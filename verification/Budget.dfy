/**
 * The token budget: a journal of events, replayed on every access, and a head that pins its exact
 * content, so a journal that was cut short or half written is refused instead of believed.
 *
 * The head holds the digest of the journal's bytes; with an injective digest and an injective JSON
 * encoder the head is modelled as the list of events it was computed over.
 */
module Budget {
  import opened Values

  const MAX_TOKENS: nat := 5_000_000

  datatype Settlement = Settlement(input: nat, output: nat, response: string) {
    function Total(): nat { input + output }
  }

  datatype Entry = Entry(amount: nat, requestHash: string, settlement: Option<Settlement>)

  datatype Event =
    | Init(limit: nat)
    | Reserve(id: string, amount: nat, requestHash: string)
    | Settle(id: string, settlement: Settlement)

  datatype State = State(limit: nat, spent: nat, reserved: int, halted: bool, requests: map<string, Entry>) {
    function Committed(): int { spent + reserved }
  }

  /** `_request_id`: not blank and at most 256 characters long. */
  predicate RequestId(id: string) {
    |id| <= 256 && !Blank(id)
  }

  predicate HashText(h: string) {
    |h| == 64 && forall i | 0 <= i < 64 :: '0' <= h[i] <= '9' || 'a' <= h[i] <= 'f'
  }

  /** Which arguments are well formed. */
  lemma ArgumentRules(id: string, h: string)
    ensures RequestId(id) <==> (exists i :: 0 <= i < |id| <= 256 && !IsSpace(id[i]))
    ensures HashText(h) <==> |h| == 64 && forall c | c in h :: c in "0123456789abcdef"
  {
    if c :| c in id && !IsSpace(c) {
      var i :| 0 <= i < |id| && id[i] == c;
    }
    if HashText(h) {
      forall c | c in h ensures c in "0123456789abcdef" {
        HexDigits(c);
      }
    }
    if forall c | c in h :: c in "0123456789abcdef" {
      forall i | 0 <= i < |h| ensures '0' <= h[i] <= '9' || 'a' <= h[i] <= 'f' {
        HexDigits(h[i]);
      }
    }
    hide IsSpace;
  }

  lemma HexDigits(c: char)
    ensures c in "0123456789abcdef" <==> '0' <= c <= '9' || 'a' <= c <= 'f'
  {
    var digits := "0123456789abcdef";
    if '0' <= c <= '9' {
      assert digits[c as int - '0' as int] == c;
    } else if 'a' <= c <= 'f' {
      assert digits[10 + (c as int - 'a' as int)] == c;
    }
  }

  // ------------------------------------------------------------------ replaying one event

  /** `_replay`: None stands for a journal error. */
  function Replay(state: State, event: Event): Option<State> {
    match event
    case Init(_) => None
    case Reserve(id, amount, requestHash) =>
      if !RequestId(id) || !HashText(requestHash) || id in state.requests || state.halted
         || state.Committed() + amount > state.limit
      then None
      else Some(state.(reserved := state.reserved + amount,
                       requests := state.requests[id := Entry(amount, requestHash, None)]))
    case Settle(id, settlement) =>
      if !RequestId(id) || !HashText(settlement.response) || id !in state.requests
         || state.requests[id].settlement.Some?
      then None
      else
        var entry := state.requests[id];
        Some(state.(spent := state.spent + settlement.Total(),
                    reserved := state.reserved - entry.amount,
                    halted := state.halted || settlement.Total() > entry.amount,
                    requests := state.requests[id := entry.(settlement := Some(settlement))]))
  }

  /** What a journal means: None if it does not start with a valid `init` or some event is refused. */
  function Meaning(events: seq<Event>): Option<State> {
    if events == [] then None
    else if |events| == 1 then
      if events[0].Init? && events[0].limit <= MAX_TOKENS
      then Some(State(events[0].limit, 0, 0, false, map[])) else None
    else
      var before := Meaning(events[..|events| - 1]);
      if before == None then None else Replay(before.value, events[|events| - 1])
  }

  // ------------------------------------------------------------------ accounting

  function Weight(entry: Entry): nat {
    match entry.settlement
    case None => entry.amount
    case Some(settlement) => settlement.Total()
  }

  function Excess(entry: Entry): nat {
    match entry.settlement
    case None => 0
    case Some(settlement) => if settlement.Total() > entry.amount then settlement.Total() - entry.amount else 0
  }

  function Unsettled(entry: Entry): nat {
    if entry.settlement == None then entry.amount else 0
  }

  /** The sum of a measure over all requests. */
  ghost function Sum(requests: map<string, Entry>, measure: Entry -> nat): nat {
    if requests == map[] then 0
    else
      var id :| id in requests;
      measure(requests[id]) + Sum(requests - {id}, measure)
  }

  lemma {:induction false} SumSplit(requests: map<string, Entry>, measure: Entry -> nat, id: string)
    requires id in requests
    ensures Sum(requests, measure) == measure(requests[id]) + Sum(requests - {id}, measure)
    decreases |requests|
  {
    var first :| first in requests
      && Sum(requests, measure) == measure(requests[first]) + Sum(requests - {first}, measure);
    if first != id {
      var rest := requests - {first};
      assert id in rest && rest - {id} == (requests - {id}) - {first};
      SumSplit(rest, measure, id);
      SumSplit(requests - {id}, measure, first);
    }
  }

  lemma SumUpdate(requests: map<string, Entry>, measure: Entry -> nat, id: string, entry: Entry)
    ensures Sum(requests[id := entry], measure)
         == Sum(requests, measure) + measure(entry) - (if id in requests then measure(requests[id]) else 0)
  {
    SumSplit(requests[id := entry], measure, id);
    assert requests[id := entry] - {id} == requests - {id};
    if id in requests {
      SumSplit(requests, measure, id);
    } else {
      assert requests - {id} == requests;
    }
  }

  /** The books of a state balance. */
  ghost predicate Balanced(state: State) {
    && state.reserved == Sum(state.requests, Unsettled)
    && state.Committed() == Sum(state.requests, Weight)
    && state.Committed() <= state.limit + Sum(state.requests, Excess)
    && (!state.halted ==> state.Committed() <= state.limit && Sum(state.requests, Excess) == 0)
    && (state.halted <==> exists id :: id in state.requests && Excess(state.requests[id]) > 0)
    && state.limit <= MAX_TOKENS
    && (forall id | id in state.requests :: RequestId(id))
  }

  /**
   * In every journal that replays: what is committed is the settled totals plus the unsettled amounts, it
   * exceeds the limit by no more than the overruns, and not at all until one has happened; and the
   * halted flag means exactly that some request has overrun.
   */
  lemma {:induction false} JournalBalances(events: seq<Event>)
    requires Meaning(events).Some?
    ensures Balanced(Meaning(events).value)
    decreases |events|
  {
    if |events| > 1 {
      var before := Meaning(events[..|events| - 1]).value;
      JournalBalances(events[..|events| - 1]);
      match events[|events| - 1] {
        case Reserve(id, amount, requestHash) => ReserveBalances(before, id, amount, requestHash);
        case Settle(id, settlement) => SettleBalances(before, id, settlement);
      }
    }
  }

  lemma SumsUpdate(state: State, id: string, entry: Entry)
    ensures var prior := if id in state.requests then Some(state.requests[id]) else None;
      var after := state.requests[id := entry];
      && Sum(after, Unsettled) ==
        Sum(state.requests, Unsettled) + Unsettled(entry) - (if prior.Some? then Unsettled(prior.value) else 0)
      && Sum(after, Weight) ==
        Sum(state.requests, Weight) + Weight(entry) - (if prior.Some? then Weight(prior.value) else 0)
      && Sum(after, Excess) ==
        Sum(state.requests, Excess) + Excess(entry) - (if prior.Some? then Excess(prior.value) else 0)
  {
    SumUpdate(state.requests, Unsettled, id, entry);
    SumUpdate(state.requests, Weight, id, entry);
    SumUpdate(state.requests, Excess, id, entry);
  }

  lemma ReserveBalances(state: State, id: string, amount: nat, requestHash: string)
    requires Balanced(state) && Replay(state, Reserve(id, amount, requestHash)).Some?
    ensures Balanced(Replay(state, Reserve(id, amount, requestHash)).value)
  {
    hide Sum, RequestId, HashText;
    var after := Replay(state, Reserve(id, amount, requestHash)).value;
    SumsUpdate(state, id, Entry(amount, requestHash, None));
    forall k | k in after.requests ensures Excess(after.requests[k]) == 0 {
      if k != id {
        assert k in state.requests;
      }
    }
  }

  lemma SettleBalances(state: State, id: string, settlement: Settlement)
    requires Balanced(state) && Replay(state, Settle(id, settlement)).Some?
    ensures Balanced(Replay(state, Settle(id, settlement)).value)
  {
    hide Sum, RequestId, HashText;
    var entry := state.requests[id];
    var after := Replay(state, Settle(id, settlement)).value;
    SumsUpdate(state, id, entry.(settlement := Some(settlement)));
    if after.halted {
      if settlement.Total() > entry.amount {
        assert Excess(after.requests[id]) > 0;
      } else {
        var k :| k in state.requests && Excess(state.requests[k]) > 0;
        assert k != id && Excess(after.requests[k]) > 0;
      }
    }
    forall k | k in after.requests && Excess(after.requests[k]) > 0 ensures after.halted {
      if k != id {
        assert Excess(state.requests[k]) > 0;
      }
    }
  }

  // ------------------------------------------------------------------ the journal file

  datatype Error = InvalidArgument | JournalError | Conflict | Exceeded | Overrun | Crashed

  datatype Result<T> = Ok(value: T) | Err(error: Error)

  /** Where a crash or an error cuts `_append` short; after the head, only an error is left to be raised. */
  datatype Cut = Whole | BeforeLine | InsideLine | BeforeHead | InsideHead | AfterHead

  /** What the budget can be read as, once an append was cut there. */
  function AfterCut(cut: Cut, before: Result<State>, after: Result<State>): Result<State> {
    match cut
    case BeforeLine => before
    case Whole | AfterHead => after
    case InsideLine | BeforeHead | InsideHead => Err(JournalError)
  }

  /** The ids that were ever reserved, whether or not the journal can still be read. */
  function Reserved(events: seq<Event>): set<string> {
    if events == [] then {}
    else
      var last := events[|events| - 1];
      Reserved(events[..|events| - 1]) + if last.Reserve? then {last.id} else {}
  }

  lemma {:induction false} RequestsAreReserved(events: seq<Event>)
    requires Meaning(events).Some?
    ensures Meaning(events).value.requests.Keys == Reserved(events)
    decreases |events|
  {
    if |events| > 1 {
      RequestsAreReserved(events[..|events| - 1]);
    } else {
      assert events[..|events| - 1] == [];
    }
  }

  lemma MeaningOfAppend(events: seq<Event>, event: Event)
    requires events != []
    ensures Meaning(events + [event]) ==
      if Meaning(events) == None then None else Replay(Meaning(events).value, event)
    ensures Reserved(events + [event]) == Reserved(events) + if event.Reserve? then {event.id} else {}
  {
    assert (events + [event])[..|events|] == events;
  }

  class TokenBudget {
    const limit: nat
    var journal: seq<Event>        // complete lines; empty while the file does not exist
    var torn: bool                 // the last line is incomplete
    var head: Option<seq<Event>>   // None while the lock file holds no valid head

    /** What a read under the lock makes of the files: the replayed state, or an error. */
    function Contents(): Result<State>
      reads this
    {
      if journal == [] || torn || head != Some(journal) || Meaning(journal) == None then Err(JournalError)
      else if Meaning(journal).value.limit != limit then Err(Conflict)
      else Ok(Meaning(journal).value)
    }

    /** A new budget file. */
    constructor (limit: nat)
      requires limit <= MAX_TOKENS
      ensures this.limit == limit && journal == [Init(limit)] && Contents() == Ok(State(limit, 0, 0, false, map[]))
    {
      this.limit := limit;
      journal, torn, head := [Init(limit)], false, Some([Init(limit)]);
    }

    /** `_read_state`: replay the journal from its first event. */
    method ReadState() returns (r: Result<State>)
      ensures r == Contents()
    {
      if journal == [] || torn || head != Some(journal) {
        return Err(JournalError);
      }
      if !journal[0].Init? || journal[0].limit > MAX_TOKENS {
        FirstEventDecides(journal);
        return Err(JournalError);
      }
      var state := State(journal[0].limit, 0, 0, false, map[]);
      assert journal[..1] == [journal[0]];
      for i := 1 to |journal|
        invariant Meaning(journal[..i]) == Some(state)
      {
        assert journal[..i + 1] == journal[..i] + [journal[i]];
        MeaningOfAppend(journal[..i], journal[i]);
        var next := Replay(state, journal[i]);
        if next == None {
          RefusedStaysRefused(journal, i + 1);
          return Err(JournalError);
        }
        state := next.value;
      }
      assert journal[..|journal|] == journal;
      return if state.limit != limit then Err(Conflict) else Ok(state);
    }

    /**
     * `_append`: the line, then the head. A cut in between leaves a budget nobody can use again; an error after the
     * complete head, which is never shorter than the one it replaces, leaves the event valid.
     */
    method Append(event: Event, cut: Cut)
      requires journal != []
      modifies this
      ensures cut in {Whole, AfterHead} ==>
        journal == old(journal) + [event] && torn == old(torn) && head == Some(journal)
      ensures cut == BeforeLine ==> journal == old(journal) && torn == old(torn) && head == old(head)
      ensures cut in {InsideLine, BeforeHead, InsideHead} && old(head) == Some(old(journal)) ==>
        Contents() == Err(JournalError)
      ensures old(Contents()).Ok? && Replay(old(Contents()).value, event).Some? ==>
        Replay(old(Contents()).value, event).value.limit == limit ==>
        Contents() == AfterCut(cut, old(Contents()), Ok(Replay(old(Contents()).value, event).value))
      ensures event.Reserve? && cut in {Whole, AfterHead} ==> event.id in Reserved(journal)
      ensures Reserved(old(journal)) <= Reserved(journal) && journal != []
      ensures !event.Reserve? ==> Reserved(journal) == Reserved(old(journal))
    {
      MeaningOfAppend(journal, event);
      match cut {
        case BeforeLine =>
        case InsideLine => torn := true;
        case BeforeHead => journal := journal + [event];
        case InsideHead => journal := journal + [event]; head := None;
        case Whole | AfterHead => journal := journal + [event]; head := Some(journal);
      }
    }

    /**
     * `reserve`.  True is returned at most once for an id, and only together with a durable reservation
     * that replay accepts with exactly the state computed here.
     */
    method Reserve(id: string, amount: nat, requestHash: string, cut: Cut) returns (r: Result<bool>)
      requires journal != []
      modifies this
      ensures journal != [] && Reserved(old(journal)) <= Reserved(journal)
      ensures r == Ok(true) ==>
        && old(Contents()).Ok? && id !in Reserved(old(journal)) && id in Reserved(journal)
        && id !in old(Contents()).value.requests
        && Contents() == Ok(Added(old(Contents()).value, id, amount, requestHash))
      ensures r == Ok(false) ==>
        && Contents() == old(Contents()) && Contents().Ok? && id in Contents().value.requests
        && Contents().value.requests[id].amount == amount && Contents().value.requests[id].requestHash == requestHash
      ensures r.Err? && r.error != Crashed ==> Contents() == old(Contents()) && journal == old(journal)
      ensures r == Err(Exceeded) ==> Contents().Ok? && id !in Contents().value.requests
      ensures r == Err(Crashed) ==>
        && cut != Whole && old(Contents()).Ok? && id !in old(Contents()).value.requests
        && Contents() == AfterCut(cut, old(Contents()), Ok(Added(old(Contents()).value, id, amount, requestHash)))
      ensures cut == Whole ==> r == ReserveOutcome(old(Contents()), id, amount, requestHash)
      // undisturbed, on a budget that can be read and for well-formed arguments, the answer is decided by the books
      ensures old(Contents()).Ok? && RequestId(id) && HashText(requestHash) ==>
        var state := old(Contents()).value;
        && (r == Ok(false) <==>
          id in state.requests && state.requests[id].amount == amount && state.requests[id].requestHash == requestHash)
        && (r == Err(Conflict) <==>
          && id in state.requests
          && (state.requests[id].amount != amount || state.requests[id].requestHash != requestHash))
        && (r == Err(Exceeded) <==>
          id !in state.requests && (state.halted || state.spent + state.reserved + amount > state.limit))
        && (r in {Ok(true), Err(Crashed)} <==>
          id !in state.requests && !state.halted && state.spent + state.reserved + amount <= state.limit)
        && (r == Err(Crashed) ==> cut != Whole) && (r == Ok(true) ==> cut == Whole)
    {
      hide Meaning, Reserved, RequestId, HashText;
      if !RequestId(id) || !HashText(requestHash) {
        return Err(InvalidArgument);
      }
      var read := ReadState();
      if read.Err? {
        return Err(read.error);
      }
      var state := read.value;
      RequestsAreReserved(journal);
      if id in state.requests {
        return if state.requests[id].amount != amount || state.requests[id].requestHash != requestHash
          then Err(Conflict) else Ok(false);
      }
      if state.halted || state.Committed() + amount > limit {
        return Err(Exceeded);
      }
      Append(Event.Reserve(id, amount, requestHash), cut);
      r := if cut == Whole then Ok(true) else Err(Crashed);
    }

    /** `settle`.  A settlement is recorded once; an overrun is recorded and then reported. */
    method Settle(id: string, settlement: Settlement, cut: Cut) returns (r: Result<bool>)
      requires journal != []
      modifies this
      ensures journal != [] && Reserved(journal) == Reserved(old(journal))
      ensures (r.Ok? || r == Err(Overrun)) ==>
        && old(Contents()).Ok? && id in old(Contents()).value.requests
        && Contents() == Ok(Paid(old(Contents()).value, id, settlement))
        && (r == Err(Overrun) <==> settlement.Total() > old(Contents()).value.requests[id].amount)
        && old(Contents()).value.requests[id].settlement in {None, Some(settlement)}
      ensures r == Err(Crashed) ==>
        && cut != Whole && old(Contents()).Ok? && id in old(Contents()).value.requests
        && old(Contents()).value.requests[id].settlement == None
        && Contents() == AfterCut(cut, old(Contents()), Ok(Paid(old(Contents()).value, id, settlement)))
      ensures r.Err? && r.error !in {Crashed, Overrun} ==> Contents() == old(Contents()) && journal == old(journal)
      ensures cut == Whole ==> r == SettleOutcome(old(Contents()), id, settlement)
      ensures old(Contents()).Ok? && RequestId(id) && HashText(settlement.response) ==>
        var requests := old(Contents()).value.requests;
        && (r == Err(Conflict) <==>
          id !in requests || (requests[id].settlement.Some? && requests[id].settlement.value != settlement))
        && (r == Ok(false) <==>
          && id in requests && requests[id].settlement == Some(settlement)
          && settlement.input + settlement.output <= requests[id].amount)
        && (r == Ok(true) ==> requests[id].settlement == None && cut == Whole)
    {
      hide Meaning, Reserved, RequestId, HashText;
      if !RequestId(id) || !HashText(settlement.response) {
        return Err(InvalidArgument);
      }
      var read := ReadState();
      if read.Err? {
        return Err(read.error);
      }
      var state := read.value;
      if id !in state.requests {
        return Err(Conflict);
      }
      var entry := state.requests[id];
      var firstTime := entry.settlement == None;
      if !firstTime && entry.settlement != Some(settlement) {
        return Err(Conflict);
      }
      if firstTime {
        Append(Event.Settle(id, settlement), cut);
        if cut != Whole {
          return Err(Crashed);
        }
      }
      r := if settlement.Total() > entry.amount then Err(Overrun) else Ok(firstTime);
    }
  }

  /** Reserving again with the same arguments answers false and leaves the books alone. */
  method ReserveTwice(budget: TokenBudget, id: string, amount: nat, requestHash: string)
    returns (first: Result<bool>, second: Result<bool>)
    requires budget.journal != []
    modifies budget
    ensures first == Ok(true) ==>
      && second == Ok(false) && old(budget.Contents()).Ok?
      && budget.Contents() == Ok(Added(old(budget.Contents()).value, id, amount, requestHash))
    ensures first != Ok(true) ==> second == first && budget.Contents() == old(budget.Contents())
  {
    hide RequestId, HashText, Reserved, Meaning;
    first := budget.Reserve(id, amount, requestHash, Whole);
    second := budget.Reserve(id, amount, requestHash, Whole);
  }

  /** Settling again with the same usage books nothing more, and reports an overrun again. */
  method SettleTwice(budget: TokenBudget, id: string, settlement: Settlement)
    returns (first: Result<bool>, second: Result<bool>)
    requires budget.journal != []
    modifies budget
    ensures first == Ok(true) ==> second == Ok(false)
    ensures first != Ok(true) ==> second == first
    ensures first.Ok? || first == Err(Overrun) ==>
      && old(budget.Contents()).Ok? && id in old(budget.Contents()).value.requests
      && budget.Contents() == Ok(Paid(old(budget.Contents()).value, id, settlement))
    ensures first.Err? && first != Err(Overrun) ==> budget.Contents() == old(budget.Contents())
  {
    hide RequestId, HashText, Reserved, Meaning;
    first := budget.Settle(id, settlement, Whole);
    second := budget.Settle(id, settlement, Whole);
  }

  /** The state after a fresh reservation. */
  function Added(state: State, id: string, amount: nat, requestHash: string): State {
    state.(reserved := state.reserved + amount, requests := state.requests[id := Entry(amount, requestHash, None)])
  }

  /** The state once the request is settled; settling it again changes nothing. */
  function Paid(state: State, id: string, settlement: Settlement): State
    requires id in state.requests
  {
    if state.requests[id].settlement.Some? then state
    else
      var entry := state.requests[id];
      state.(spent := state.spent + settlement.Total(), reserved := state.reserved - entry.amount,
             halted := state.halted || settlement.Total() > entry.amount,
             requests := state.requests[id := entry.(settlement := Some(settlement))])
  }

  function ReserveOutcome(read: Result<State>, id: string, amount: nat, requestHash: string): Result<bool> {
    if !RequestId(id) || !HashText(requestHash) then Err(InvalidArgument)
    else match read
      case Err(error) => Err(error)
      case Ok(state) =>
        if id in state.requests then
          if state.requests[id].amount == amount && state.requests[id].requestHash == requestHash
          then Ok(false) else Err(Conflict)
        else if state.halted || state.Committed() + amount > state.limit then Err(Exceeded)
        else Ok(true)
  }

  function SettleOutcome(read: Result<State>, id: string, settlement: Settlement): Result<bool> {
    if !RequestId(id) || !HashText(settlement.response) then Err(InvalidArgument)
    else match read
      case Err(error) => Err(error)
      case Ok(state) =>
        if id !in state.requests then Err(Conflict)
        else
          var entry := state.requests[id];
          if entry.settlement.Some? && entry.settlement != Some(settlement) then Err(Conflict)
          else if settlement.Total() > entry.amount then Err(Overrun)
          else Ok(entry.settlement == None)
  }

  lemma FirstEventDecides(events: seq<Event>)
    requires events != [] && (!events[0].Init? || events[0].limit > MAX_TOKENS)
    ensures Meaning(events) == None
    decreases |events|
  {
    if |events| > 1 {
      FirstEventDecides(events[..|events| - 1]);
    }
  }

  lemma {:induction false} RefusedStaysRefused(events: seq<Event>, n: nat)
    requires 0 < n <= |events| && Meaning(events[..n]) == None
    ensures Meaning(events) == None
    decreases |events|
  {
    if n == |events| {
      assert events[..n] == events;
    } else {
      assert events[..|events| - 1][..n] == events[..n];
      RefusedStaysRefused(events[..|events| - 1], n);
    }
  }
}
