/**
 * One budget journal shared by any number of output directories, each with its own process. A process that gets a
 * fresh reservation is granted one transmission of that request id. `sent` is everything that any of them handed
 * to the HTTP client.
 */
module Sharing {
  import opened Budget

  /** A transmission, or the right to one, of a process in an output directory. */
  datatype Sending = Sending(directory: nat, id: string)

  /** What a process of some directory does to the shared budget, in any order with those of the others. */
  datatype Move =
    | ReserveBy(directory: nat, id: string, amount: nat, requestHash: string, cut: Cut)
    | SendBy(directory: nat, id: string)
    | SettleBy(id: string, settlement: Settlement, cut: Cut)

  ghost predicate DistinctIds(sent: seq<Sending>) {
    forall i, j | 0 <= i < j < |sent| :: sent[i].id != sent[j].id
  }

  /** No request id was sent twice, every id that was sent or may still be sent is reserved, and no id is both. */
  ghost predicate AtMostOnce(sent: seq<Sending>, granted: set<Sending>, reserved: set<string>) {
    && DistinctIds(sent) && (forall s | s in sent :: s.id in reserved)
    && (forall g | g in granted :: g.id in reserved && forall s | s in sent :: s.id != g.id)
    && forall g, h | g in granted && h in granted && g.id == h.id :: g == h
  }

  lemma GrantFits(sent: seq<Sending>, granted: set<Sending>, reserved: set<string>, more: set<string>, g: Sending)
    requires AtMostOnce(sent, granted, reserved) && g.id !in reserved && reserved <= more && g.id in more
    ensures AtMostOnce(sent, granted + {g}, more)
  {
  }

  lemma SendFits(sent: seq<Sending>, granted: set<Sending>, reserved: set<string>, g: Sending)
    requires AtMostOnce(sent, granted, reserved) && g in granted
    ensures AtMostOnce(sent + [g], granted - {g}, reserved)
  {
  }

  lemma ReservedFits(sent: seq<Sending>, granted: set<Sending>, reserved: set<string>, more: set<string>)
    requires AtMostOnce(sent, granted, reserved) && reserved <= more
    ensures AtMostOnce(sent, granted, more)
  {
  }

  /** Nothing of this directory was added. */
  ghost predicate OthersSent(before: seq<Sending>, after: seq<Sending>, me: nat) {
    && before <= after && forall s | s in after && s.directory == me :: s in before
  }

  /** The grants of this directory are the same. */
  ghost predicate SameGrants(before: set<Sending>, after: set<Sending>, me: nat) {
    forall g: Sending | g.directory == me :: g in before <==> g in after
  }

  class SharedBudget {
    const budget: TokenBudget
    var sent: seq<Sending>
    var granted: set<Sending>

    constructor (budget: TokenBudget)
      requires budget.journal != []
      ensures this.budget == budget && sent == [] && granted == {} && Valid()
    {
      this.budget, sent, granted := budget, [], {};
    }

    ghost predicate Valid()
      reads this, budget
    {
      budget.journal != [] && AtMostOnce(sent, granted, Reserved(budget.journal))
    }

    /** A process reserves; only a fresh reservation grants a transmission. */
    method Reserve(directory: nat, id: string, amount: nat, requestHash: string, cut: Cut) returns (r: Result<bool>)
      requires Valid()
      modifies this, budget
      ensures Valid() && Reserved(old(budget.journal)) <= Reserved(budget.journal)
      ensures sent == old(sent) && granted == old(granted) + if r == Ok(true) then {Sending(directory, id)} else {}
      ensures r == Ok(true) ==>
        && old(budget.Contents()).Ok? && id !in old(budget.Contents()).value.requests
        && id !in Reserved(old(budget.journal))
        && budget.Contents() == Ok(Added(old(budget.Contents()).value, id, amount, requestHash))
      ensures r == Ok(false) ==>
        && budget.Contents() == old(budget.Contents()) && budget.Contents().Ok?
        && id in budget.Contents().value.requests
        && budget.Contents().value.requests[id].amount == amount
        && budget.Contents().value.requests[id].requestHash == requestHash
      ensures r.Err? && r.error != Crashed ==> budget.Contents() == old(budget.Contents())
      ensures r == Err(Exceeded) ==> budget.Contents().Ok? && id !in budget.Contents().value.requests
      ensures r == Err(Crashed) ==>
        && cut != Whole && old(budget.Contents()).Ok? && id !in old(budget.Contents()).value.requests
        && budget.Contents() ==
          AfterCut(cut, old(budget.Contents()), Ok(Added(old(budget.Contents()).value, id, amount, requestHash)))
      ensures cut == Whole ==> r == ReserveOutcome(old(budget.Contents()), id, amount, requestHash)
    {
      hide AtMostOnce, RequestId, HashText, ReserveOutcome, Reserved;
      ghost var before := Reserved(budget.journal);
      r := budget.Reserve(id, amount, requestHash, cut);
      if r == Ok(true) {
        GrantFits(sent, granted, before, Reserved(budget.journal), Sending(directory, id));
        granted := granted + {Sending(directory, id)};
      } else {
        ReservedFits(sent, granted, before, Reserved(budget.journal));
      }
    }

    /** The one transmission that a grant allows. */
    method Transmit(directory: nat, id: string)
      requires Valid() && Sending(directory, id) in granted
      modifies this
      ensures Valid() && sent == old(sent) + [Sending(directory, id)]
        && granted == old(granted) - {Sending(directory, id)}
    {
      hide AtMostOnce;
      SendFits(sent, granted, Reserved(budget.journal), Sending(directory, id));
      sent, granted := sent + [Sending(directory, id)], granted - {Sending(directory, id)};
    }

    /**
     * Any moves of the processes in other directories; a move without its grant is ignored, and a process may
     * stop after any of its moves.
     */
    method Others(me: nat, moves: seq<Move>)
      requires Valid()
      modifies this, budget
      ensures Valid() && Reserved(old(budget.journal)) <= Reserved(budget.journal)
      ensures OthersSent(old(sent), sent, me) && SameGrants(old(granted), granted, me)
      ensures moves == [] ==>
        budget.Contents() == old(budget.Contents()) && sent == old(sent) && granted == old(granted)
        && budget.journal == old(budget.journal)
    {
      hide AtMostOnce, Reserved;
      for i := 0 to |moves|
        invariant Valid() && Reserved(old(budget.journal)) <= Reserved(budget.journal)
        invariant OthersSent(old(sent), sent, me) && SameGrants(old(granted), granted, me)
        invariant i == 0 ==>
          budget.Contents() == old(budget.Contents()) && sent == old(sent) && granted == old(granted)
          && budget.journal == old(budget.journal)
      {
        if moves[i].SettleBy? || moves[i].directory != me {
          Make(moves[i], me);
        }
      }
    }

    /** One move of one process, which touches neither the sends nor the grants of a directory that is not its own. */
    method Make(move: Move, ghost me: nat)
      requires Valid()
      modifies this, budget
      ensures Valid() && Reserved(old(budget.journal)) <= Reserved(budget.journal) && old(sent) <= sent
      ensures move.SettleBy? || move.directory != me ==>
        OthersSent(old(sent), sent, me) && SameGrants(old(granted), granted, me)
    {
      hide AtMostOnce, Reserved, RequestId, HashText, ReserveOutcome, SettleOutcome;
      match move {
        case ReserveBy(directory, id, amount, requestHash, cut) =>
          var _ := Reserve(directory, id, amount, requestHash, cut);
        case SendBy(directory, id) =>
          if Sending(directory, id) in granted {
            Transmit(directory, id);
          }
        case SettleBy(id, settlement, cut) => var _ := budget.Settle(id, settlement, cut);
      }
    }
  }

  /** Any interleaving of any processes in any directories: no request id is ever sent twice. */
  method RunTogether(shared: SharedBudget, moves: seq<Move>)
    requires shared.Valid()
    modifies shared, shared.budget
    ensures shared.Valid() && DistinctIds(shared.sent) && old(shared.sent) <= shared.sent
    ensures forall s | s in shared.sent :: s.id in Reserved(shared.budget.journal)
  {
    hide Reserved, DistinctIds;
    for i := 0 to |moves|
      invariant shared.Valid() && old(shared.sent) <= shared.sent
    {
      shared.Make(moves[i], 0);
    }
  }
}
