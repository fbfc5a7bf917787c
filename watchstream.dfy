/**
 * The delivery loop `watchAdapter` (pkg/state/protobuf/client/client.go):
 * frames are turned into state events and sent to the subscriber until end
 * of stream, a receive or decode failure (which sends one Errored event), or
 * a send the subscriber's context cancelled.
 */
module WatchStream {
  import opened Wrappers
  import opened Errors
  import opened Wire

  /**
   * The outcome of the k-th send of the loop: true when the event reached the
   * subscriber, false when the send was cancelled. Sends beyond the given
   * outcomes succeed.
   */
  predicate Accepted(accepted: seq<bool>, k: nat)
  {
    k >= |accepted| || accepted[k]
  }

  /** The event the adapter itself sends when receiving or decoding fails. */
  function ErroredEvent(e: Cause): Event
  {
    Event(Errored, None, None, Some(e))
  }

  /** Frame k is a message whose event decodes, so the loop forwards it. */
  predicate Forwardable(frames: seq<Frame<WireEvent>>, codec: Codec, skip: bool, k: nat)
  {
    k < |frames| && frames[k].Msg? && DecodeEvent(frames[k].msg, codec, skip).Success?
  }

  /** The event that a forwardable frame becomes. */
  function ForwardedAt(frames: seq<Frame<WireEvent>>, codec: Codec, skip: bool, k: nat): Event
    requires Forwardable(frames, codec, skip, k)
  {
    DecodeEvent(frames[k].msg, codec, skip).value
  }

  /**
   * The events the loop delivers from frame i on. In the loop the k-th send
   * always belongs to the k-th frame: each forwarded frame is sent once, and the
   * error send happens at the frame that failed.
   */
  function Delivered(frames: seq<Frame<WireEvent>>, accepted: seq<bool>, codec: Codec, skip: bool, i: nat): seq<Event>
    decreases |frames| - i
  {
    if Forwardable(frames, codec, skip, i) then
      if Accepted(accepted, i) then [ForwardedAt(frames, codec, skip, i)] + Delivered(frames, accepted, codec, skip, i + 1)
      else []
    else if StopError(frames, codec, skip, i).Some? && Accepted(accepted, i) then
      [ErroredEvent(StopError(frames, codec, skip, i).value)]
    else []
  }

  /** The index of the first frame at or after i that the loop does not forward. */
  function Stop(frames: seq<Frame<WireEvent>>, codec: Codec, skip: bool, i: nat): (n: nat)
    ensures i <= n
    ensures n == i || n <= |frames|
    ensures forall k :: i <= k < n ==> Forwardable(frames, codec, skip, k)
    ensures !Forwardable(frames, codec, skip, n)
    decreases |frames| - i
  {
    if Forwardable(frames, codec, skip, i) then Stop(frames, codec, skip, i + 1) else i
  }

  /** The failure carried by the frame that ends the loop: none for end of stream. */
  function StopError(frames: seq<Frame<WireEvent>>, codec: Codec, skip: bool, n: nat): Option<Cause>
  {
    match Recv(frames, n)
    case Eof => None
    case RecvErr(e) => Some(e)
    case Msg(m) => if DecodeEvent(m, codec, skip).Failure? then Some(DecodeEvent(m, codec, skip).error) else None
  }

  /**
   * The frame at which forwarding ends, from frame i on: the first frame that
   * either does not decode into an event or whose send is cancelled. It never
   * lies beyond the stopping frame.
   */
  function Cut(frames: seq<Frame<WireEvent>>, accepted: seq<bool>, codec: Codec, skip: bool, i: nat): (c: nat)
    ensures i <= c
    decreases |frames| - i
  {
    if Forwardable(frames, codec, skip, i) && Accepted(accepted, i) then Cut(frames, accepted, codec, skip, i + 1) else i
  }

  /**
   * Forwarding ends at the first frame that is not both forwardable and
   * accepted, and never beyond the stopping frame.
   */
  lemma {:induction false} CutBounds(frames: seq<Frame<WireEvent>>, accepted: seq<bool>, codec: Codec, skip: bool, i: nat)
    ensures var c := Cut(frames, accepted, codec, skip, i);
            && i <= c <= Stop(frames, codec, skip, i)
            && (forall k :: i <= k < c ==> Forwardable(frames, codec, skip, k) && Accepted(accepted, k))
            && !(Forwardable(frames, codec, skip, c) && Accepted(accepted, c))
    decreases |frames| - i
  {
    if Forwardable(frames, codec, skip, i) && Accepted(accepted, i) {
      CutBounds(frames, accepted, codec, skip, i + 1);
    }
  }

  /**
   * Whether the loop ends at frame c with an Errored event of its own: the
   * frame failed (a receive or decode failure, not end of stream) and the
   * error send was not cancelled.
   */
  predicate Trailer(frames: seq<Frame<WireEvent>>, accepted: seq<bool>, codec: Codec, skip: bool, c: nat)
  {
    !Forwardable(frames, codec, skip, c) && Accepted(accepted, c) && StopError(frames, codec, skip, c).Some?
  }

  /**
   * The delivered events in closed form. With c the frame where forwarding
   * ends: the forwarded events of frames i..c come first, in order; then, if
   * frame c failed and its send went through, exactly one adapter-generated
   * Errored event carrying that failure; nothing else.
   */
  lemma {:induction false} DeliveredClosedForm(frames: seq<Frame<WireEvent>>, accepted: seq<bool>, codec: Codec, skip: bool, i: nat)
    ensures forall k :: i <= k < Cut(frames, accepted, codec, skip, i) ==> Forwardable(frames, codec, skip, k)
    ensures var c := Cut(frames, accepted, codec, skip, i);
            var r := Delivered(frames, accepted, codec, skip, i);
            && |r| == c - i + (if Trailer(frames, accepted, codec, skip, c) then 1 else 0)
            && (forall k :: i <= k < c ==> r[k - i] == ForwardedAt(frames, codec, skip, k))
            && (Trailer(frames, accepted, codec, skip, c) ==> r[c - i] == ErroredEvent(StopError(frames, codec, skip, c).value))
    decreases |frames| - i
  {
    CutBounds(frames, accepted, codec, skip, i);
    if Forwardable(frames, codec, skip, i) && Accepted(accepted, i) {
      DeliveredClosedForm(frames, accepted, codec, skip, i + 1);
      var rest := Delivered(frames, accepted, codec, skip, i + 1);
      assert Delivered(frames, accepted, codec, skip, i) == [ForwardedAt(frames, codec, skip, i)] + rest;
      assert Cut(frames, accepted, codec, skip, i) == Cut(frames, accepted, codec, skip, i + 1);
    } else {
      assert Cut(frames, accepted, codec, skip, i) == i;
    }
  }

  /**
   * One step of the loop at frame i: what is delivered from i on and where
   * forwarding ends, by the kind of the received frame.
   */
  lemma LoopStep(frames: seq<Frame<WireEvent>>, accepted: seq<bool>, codec: Codec, skip: bool, i: nat)
    ensures var frame := Recv(frames, i);
            var d := Delivered(frames, accepted, codec, skip, i);
            var c := Cut(frames, accepted, codec, skip, i);
            && (frame.Eof? ==> d == [] && c == i)
            && (frame.RecvErr? ==> d == (if Accepted(accepted, i) then [ErroredEvent(frame.err)] else []) && c == i)
            && (frame.Msg? && DecodeEvent(frame.msg, codec, skip).Failure? ==>
                  d == (if Accepted(accepted, i) then [ErroredEvent(DecodeEvent(frame.msg, codec, skip).error)] else [])
                  && c == i)
            && (frame.Msg? && DecodeEvent(frame.msg, codec, skip).Success? && !Accepted(accepted, i) ==>
                  d == [] && c == i)
            && (frame.Msg? && DecodeEvent(frame.msg, codec, skip).Success? && Accepted(accepted, i) ==>
                  d == [DecodeEvent(frame.msg, codec, skip).value] + Delivered(frames, accepted, codec, skip, i + 1)
                  && c == Cut(frames, accepted, codec, skip, i + 1))
  {
  }

  /**
   * `sendError`: the k-th send carries an Errored event with the failure, and
   * reaches the subscriber unless it is cancelled.
   */
  method SendError(delivered: seq<Event>, e: Cause, accepted: seq<bool>, k: nat) returns (delivered': seq<Event>)
    ensures delivered' == delivered + (if Accepted(accepted, k) then [ErroredEvent(e)] else [])
  {
    delivered' := delivered;
    if Accepted(accepted, k) {
      delivered' := delivered' + [ErroredEvent(e)];
    }
  }

  /**
   * The loop itself: receive a frame, stop quietly at end of stream, send one
   * Errored event and stop on a receive or decode failure, otherwise build
   * the event (DecodeEvent) and send it, stopping when the send is cancelled.
   * `received` is the number of `Recv` calls made: the loop reads up to the
   * frame where forwarding ends and no further.
   */
  method WatchAdapter(frames: seq<Frame<WireEvent>>, codec: Codec, skip: bool, accepted: seq<bool>)
    returns (delivered: seq<Event>, received: nat)
    ensures delivered == Delivered(frames, accepted, codec, skip, 0)
    ensures received == Cut(frames, accepted, codec, skip, 0) + 1
  {
    delivered := [];
    var i := 0;
    while true
      invariant i <= |frames|
      invariant delivered + Delivered(frames, accepted, codec, skip, i) == Delivered(frames, accepted, codec, skip, 0)
      invariant Cut(frames, accepted, codec, skip, i) == Cut(frames, accepted, codec, skip, 0)
      decreases |frames| - i
    {
      LoopStep(frames, accepted, codec, skip, i);
      var frame := Recv(frames, i);
      received := i + 1;
      if frame.Eof? {
        return;
      }
      if frame.RecvErr? {
        delivered := SendError(delivered, frame.err, accepted, i);
        return;
      }
      var decoded := DecodeEvent(frame.msg, codec, skip);
      if decoded.Failure? {
        delivered := SendError(delivered, decoded.error, accepted, i);
        return;
      }
      var event := decoded.value;
      if !Accepted(accepted, i) {
        return;
      }
      ghost var rest := Delivered(frames, accepted, codec, skip, i + 1);
      assert (delivered + [event]) + rest == delivered + ([event] + rest);
      delivered := delivered + [event];
      i := i + 1;
    }
  }

  /** End of stream adds no event: everything delivered is a forwarded frame. */
  lemma EndOfStreamIsQuiet(frames: seq<Frame<WireEvent>>, accepted: seq<bool>, codec: Codec, skip: bool)
    requires StopError(frames, codec, skip, Stop(frames, codec, skip, 0)).None?
    ensures var r := Delivered(frames, accepted, codec, skip, 0);
            && |r| <= Stop(frames, codec, skip, 0)
            && forall k :: 0 <= k < |r| ==> r[k] == ForwardedAt(frames, codec, skip, k)
  {
    DeliveredClosedForm(frames, accepted, codec, skip, 0);
    CutBounds(frames, accepted, codec, skip, 0);
  }

  /**
   * A receive or decode failure, when the subscriber takes every event,
   * ends the stream with exactly one Errored event carrying the failure,
   * after all forwarded events.
   */
  lemma FailureEndsWithOneErrored(frames: seq<Frame<WireEvent>>, accepted: seq<bool>, codec: Codec, skip: bool, e: Cause)
    requires StopError(frames, codec, skip, Stop(frames, codec, skip, 0)) == Some(e)
    requires forall k :: 0 <= k <= Stop(frames, codec, skip, 0) ==> Accepted(accepted, k)
    ensures var n := Stop(frames, codec, skip, 0);
            var r := Delivered(frames, accepted, codec, skip, 0);
            && |r| == n + 1
            && r[n] == ErroredEvent(e)
            && forall k :: 0 <= k < n ==> r[k] == ForwardedAt(frames, codec, skip, k)
  {
    DeliveredClosedForm(frames, accepted, codec, skip, 0);
    CutBounds(frames, accepted, codec, skip, 0);
    var n := Stop(frames, codec, skip, 0);
    var c := Cut(frames, accepted, codec, skip, 0);
    assert Accepted(accepted, c);
    assert !Forwardable(frames, codec, skip, c);
    assert c == n;
  }

  /** A cancelled k-th send ends delivery: at most k events reach the subscriber. */
  lemma CancelledSendStops(frames: seq<Frame<WireEvent>>, accepted: seq<bool>, codec: Codec, skip: bool, k: nat)
    requires !Accepted(accepted, k)
    ensures |Delivered(frames, accepted, codec, skip, 0)| <= k
  {
    DeliveredClosedForm(frames, accepted, codec, skip, 0);
    CutBounds(frames, accepted, codec, skip, 0);
    assert Cut(frames, accepted, codec, skip, 0) <= k;
  }

  /**
   * A server-sent ERRORED frame is forwarded like any other event and does
   * not end the loop: the next forwardable frame is still delivered.
   */
  lemma ServerErroredIsForwarded(frames: seq<Frame<WireEvent>>, accepted: seq<bool>, codec: Codec, skip: bool, k: nat)
    requires k + 1 < Stop(frames, codec, skip, 0)
    requires frames[k].Msg? && frames[k].msg.eventType == ERRORED
    requires forall j :: 0 <= j <= k + 1 ==> Accepted(accepted, j)
    ensures var r := Delivered(frames, accepted, codec, skip, 0);
            && k + 1 < |r|
            && r[k].eventType == Errored
            && r[k + 1] == ForwardedAt(frames, codec, skip, k + 1)
  {
    DeliveredClosedForm(frames, accepted, codec, skip, 0);
    CutBounds(frames, accepted, codec, skip, 0);
    assert Cut(frames, accepted, codec, skip, 0) > k + 1;
    assert Forwardable(frames, codec, skip, k);
    DecodeEventFields(frames[k].msg, codec, skip);
    var d := DecodeEvent(frames[k].msg, codec, skip);
    assert d.Success? && d.value.eventType == Errored;
    assert Delivered(frames, accepted, codec, skip, 0)[k] == ForwardedAt(frames, codec, skip, k);
  }
}
