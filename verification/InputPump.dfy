/**
 * The pump that feeds a child's standard input: the bridge submits frames to a bounded queue and may close it, one
 * writer thread takes frames out and writes them in pieces. Any interleaving of the two keeps the bytes in order.
 */
module InputPump {
  type Bytes = seq<int>

  const CAPACITY: nat := 4

  /** Where the writer stands. */
  datatype Writer =
    | Waiting                    // about to take a frame
    | SawEmpty                   // found no frame, about to look whether the input is closed
    | Writing(remaining: Bytes)
    | Closed                     // the stream is closed

  function Joined(frames: seq<Bytes>): Bytes {
    if frames == [] then [] else frames[0] + Joined(frames[1..])
  }

  lemma {:induction false} JoinedSnoc(frames: seq<Bytes>, frame: Bytes)
    ensures Joined(frames + [frame]) == Joined(frames) + frame
  {
    if frames == [] {
      assert [] + [frame] == [frame] && [frame][1..] == [];
    } else {
      assert (frames + [frame])[1..] == frames[1..] + [frame];
      JoinedSnoc(frames[1..], frame);
    }
  }

  lemma Regroup(a: Bytes, b: Bytes, c: Bytes)
    ensures a + (b + c) == (a + b) + c
  {
  }

  function Least(a: nat, b: nat): nat {
    if a < b then a else b
  }

  datatype Move =
    | Submit(frame: Bytes)
    | Finish
    | Stop                       // `shutdown`, once the writer did not end by itself
    | Take                       // the writer's next step outside a frame
    | Write(wanted: nat)         // the stream takes up to this many bytes; 0: a write or flush fails

  class Pump {
    var pending: seq<Bytes>
    var finishing: bool
    var stopping: bool
    var failed: bool
    var writer: Writer
    var delivered: Bytes               // what the child's stdin received
    ghost var submitted: seq<Bytes>    // the frames that were accepted

    constructor ()
      ensures Valid() && delivered == [] && submitted == [] && writer == Waiting && !finishing && !stopping && !failed
      ensures pending == []
    {
      pending, finishing, stopping, failed, writer, delivered, submitted := [], false, false, false, Waiting, [], [];
    }

    function InHand(): Bytes
      reads this
    {
      if writer.Writing? then writer.remaining else []
    }

    /** Until the stream is closed, what is not delivered yet is in the writer's hand or in the queue, in order. */
    ghost predicate Valid()
      reads this
    {
      && |pending| <= CAPACITY && delivered <= Joined(submitted)
      && (writer != Closed ==> Joined(submitted) == delivered + InHand() + Joined(pending))
      && (writer == Closed && !failed && !stopping ==> finishing && Joined(submitted) == delivered + Joined(pending))
    }

    /** `submit`; false stands for a refused frame. */
    method SubmitFrame(frame: Bytes) returns (ok: bool)
      requires Valid()
      modifies this
      ensures Valid() && delivered == old(delivered) && writer == old(writer)
      ensures ok <==> !old(finishing) && |old(pending)| < CAPACITY
      ensures submitted == old(submitted) + (if ok then [frame] else [])
      ensures pending == old(pending) + (if ok then [frame] else [])
      ensures finishing == old(finishing) && stopping == old(stopping) && failed == old(failed)
    {
      if finishing || |pending| == CAPACITY {
        return false;
      }
      JoinedSnoc(pending, frame);
      JoinedSnoc(submitted, frame);
      Regroup(delivered + InHand(), Joined(pending), frame);
      Regroup(delivered, Joined(pending), frame);
      pending, submitted := pending + [frame], submitted + [frame];
      ok := true;
    }

    /** One step of `_write` outside a frame. */
    method TakeStep()
      requires Valid()
      modifies `pending, `writer
      ensures Valid()
      ensures writer == Closed && old(writer) != Closed ==>
        (stopping && old(writer) == Waiting) || (finishing && old(writer) == SawEmpty)
      ensures old(writer) == Waiting && !stopping ==>
        writer == (if old(pending) == [] then SawEmpty else Writing(old(pending)[0]))
      ensures pending ==
        if old(pending) != [] && old(writer) == Waiting && !stopping then old(pending)[1..] else old(pending)
      ensures old(writer) == SawEmpty ==> writer == if finishing then Closed else Waiting
      ensures old(writer).Writing? || old(writer).Closed? ==> writer == old(writer)
      ensures old(writer) == Waiting && stopping ==> writer == Closed
    {
      match writer {
        case Waiting =>
          if stopping {
            writer := Closed;
          } else if pending == [] {
            writer := SawEmpty;
          } else {
            Regroup(delivered, pending[0], Joined(pending[1..]));
            writer, pending := Writing(pending[0]), pending[1..];
          }
        case SawEmpty => writer := if finishing then Closed else Waiting;
        case Writing(_) =>
        case Closed =>
      }
    }

    /** One partial write of the frame in hand, or the flush after its last byte. */
    method WriteStep(wanted: nat)
      requires Valid()
      modifies `writer, `failed, `delivered
      ensures Valid() && old(delivered) <= delivered
      ensures !old(writer).Writing? ==> writer == old(writer) && delivered == old(delivered) && failed == old(failed)
      ensures old(writer).Writing? ==> delivered + InHand() <= old(delivered) + old(writer).remaining
      ensures old(writer).Writing? && !stopping && wanted > 0 && old(writer).remaining != [] ==>
        writer.Writing? && |delivered| == |old(delivered)| + Least(wanted, |old(writer).remaining|)
      ensures old(writer) == Writing([]) && !stopping && wanted > 0 ==> writer == Waiting
      ensures failed == (old(failed) || (wanted == 0 && old(writer).Writing?))
      ensures old(writer).Writing? ==>
        (writer == Closed <==> wanted == 0 || stopping) && (writer == Waiting ==> old(writer).remaining == [])
    {
      if !writer.Writing? {
        return;
      }
      var remaining := writer.remaining;
      if wanted == 0 {
        writer, failed := Closed, true;
        return;
      }
      if remaining == [] || stopping {
        writer := if stopping then Closed else Waiting;
        return;
      }
      var written := Least(wanted, |remaining|);
      assert remaining == remaining[..written] + remaining[written..];
      Regroup(delivered, remaining[..written], remaining[written..]);
      delivered, writer := delivered + remaining[..written], Writing(remaining[written..]);
    }

    /** Any interleaving: the child sees a prefix of the accepted frames, whatever was submitted, closed or stopped. */
    method Run(moves: seq<Move>)
      requires Valid()
      modifies this
      ensures Valid() && old(delivered) <= delivered <= Joined(submitted) && old(submitted) <= submitted
    {
      for i := 0 to |moves|
        invariant Valid() && old(delivered) <= delivered && old(submitted) <= submitted
      {
        Step(moves[i]);
      }
    }

    /** One move of the bridge or of the writer. */
    method Step(move: Move)
      requires Valid()
      modifies this
      ensures Valid() && old(delivered) <= delivered && old(submitted) <= submitted
      ensures old(finishing) ==> finishing && submitted == old(submitted)
      ensures old(failed) ==> failed
      ensures old(stopping) ==> stopping
      ensures old(finishing) && old(writer) == SawEmpty ==>
        writer in {SawEmpty, Closed} && pending == old(pending) && failed == old(failed)
      ensures old(finishing) && old(pending) == [] ==> pending == []
      ensures old(finishing) && old(writer) != SawEmpty && writer == SawEmpty ==> pending == []
      ensures writer == Closed && old(writer) !in {SawEmpty, Closed} ==> failed || stopping
      ensures old(writer) == Closed ==> writer == Closed && (old(finishing) ==> pending == old(pending))
    {
      match move {
        case Submit(frame) => var _ := SubmitFrame(frame);
        case Finish => finishing := true;
        case Stop => finishing, stopping := true, true;
        case Take => TakeStep();
        case Write(wanted) => WriteStep(wanted);
      }
    }

    /**
     * Closing drains the queue, unless it comes right after the writer found the queue empty and a frame was
     * submitted in between: when the writer ends without failure or stop, everything arrived exactly if the input
     * was not closed in that moment. Nothing that happens after the close matters.
     */
    method FinishAndDrain(moves: seq<Move>)
      requires Valid() && !finishing && !stopping && !failed && writer != Closed
      modifies this
      ensures Valid() && finishing && submitted == old(submitted)
      ensures writer == Closed && !failed && !stopping ==>
        (delivered == Joined(submitted) <==> !(old(writer) == SawEmpty && Joined(old(pending)) != []))
    {
      finishing := true;
      for i := 0 to |moves|
        invariant Valid() && finishing && submitted == old(submitted)
        invariant old(writer) == SawEmpty ==> writer in {SawEmpty, Closed} && pending == old(pending)
        invariant old(writer) != SawEmpty && (writer == SawEmpty || (writer == Closed && !failed && !stopping)) ==>
          pending == []
      {
        Step(moves[i]);
      }
      if writer == Closed && !failed && !stopping {
        assert |Joined(submitted)| == |delivered| + |Joined(pending)|;
      }
    }
  }

  /**
   * Closing does not drain: the writer finds the queue empty, a frame is submitted and the input closed, and the
   * writer then sees the closed input and ends with the frame still queued.
   */
  method LastFrameIsLost(frame: Bytes) returns (pump: Pump)
    requires frame != []
    ensures pump.Valid() && pump.writer == Closed && !pump.failed && !pump.stopping
    ensures pump.submitted == [frame] && pump.delivered == []
  {
    pump := new Pump();
    pump.TakeStep();
    var _ := pump.SubmitFrame(frame);
    pump.finishing := true;
    pump.TakeStep();
  }
}
