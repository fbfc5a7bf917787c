/**
 * The receive loop of `Adapter.List` (pkg/state/protobuf/client/client.go):
 * frames are decoded one by one into the list until end of stream, a
 * receive error or a decode error.
 */
module ListStream {
  import opened Wrappers
  import opened Errors
  import opened Wire

  /** What the loop returns: the items collected so far and the error that stopped it, if any. */
  datatype Listing = Listing(items: seq<Resource>, err: Option<Cause>)

  /** Frame k is a message whose resource decodes. */
  predicate Loadable(frames: seq<Frame<WireResource>>, codec: Codec, skip: bool, k: nat)
  {
    k < |frames| && frames[k].Msg? && DecodeResource(frames[k].msg, codec, skip).Success?
  }

  /** The item that a loadable frame contributes. */
  function ItemAt(frames: seq<Frame<WireResource>>, codec: Codec, skip: bool, k: nat): Resource
    requires Loadable(frames, codec, skip, k)
  {
    DecodeResource(frames[k].msg, codec, skip).value
  }

  /** The listing the loop builds from frame i on. */
  function Collect(frames: seq<Frame<WireResource>>, codec: Codec, skip: bool, i: nat): Listing
    decreases |frames| - i
  {
    if i >= |frames| then Listing([], None)
    else
      match frames[i]
      case Eof => Listing([], None)
      case RecvErr(e) => Listing([], Some(e))
      case Msg(w) =>
        match DecodeResource(w, codec, skip)
        case Failure(e) => Listing([], Some(e))
        case Success(r) =>
          var rest := Collect(frames, codec, skip, i + 1);
          Listing([r] + rest.items, rest.err)
  }

  /** The index of the first frame at or after i that ends the loop. */
  function Stop(frames: seq<Frame<WireResource>>, codec: Codec, skip: bool, i: nat): (n: nat)
    ensures i <= n
    ensures n == i || n <= |frames|
    ensures forall k :: i <= k < n ==> Loadable(frames, codec, skip, k)
    ensures !Loadable(frames, codec, skip, n)
    decreases |frames| - i
  {
    if Loadable(frames, codec, skip, i) then Stop(frames, codec, skip, i + 1) else i
  }

  /** The error carried by the frame that ends the loop: none for end of stream. */
  function StopError(frames: seq<Frame<WireResource>>, codec: Codec, skip: bool, n: nat): Option<Cause>
  {
    match Recv(frames, n)
    case Eof => None
    case RecvErr(e) => Some(e)
    case Msg(w) => if DecodeResource(w, codec, skip).Failure? then Some(DecodeResource(w, codec, skip).error) else None
  }

  /**
   * The listing in closed form: the items are those of the frames before the
   * stopping frame, in receive order, and the error is the stopping frame's.
   */
  lemma {:induction false} CollectClosedForm(frames: seq<Frame<WireResource>>, codec: Codec, skip: bool, i: nat)
    ensures var n := Stop(frames, codec, skip, i);
            var l := Collect(frames, codec, skip, i);
            && |l.items| == n - i
            && (forall k :: i <= k < n ==> l.items[k - i] == ItemAt(frames, codec, skip, k))
            && l.err == StopError(frames, codec, skip, n)
    decreases |frames| - i
  {
    if Loadable(frames, codec, skip, i) {
      CollectClosedForm(frames, codec, skip, i + 1);
      var rest := Collect(frames, codec, skip, i + 1);
      assert Collect(frames, codec, skip, i) == Listing([ItemAt(frames, codec, skip, i)] + rest.items, rest.err);
    }
  }

  /** One step of the loop: a loadable frame adds its item and moves on, any other frame ends the listing. */
  lemma CollectStep(frames: seq<Frame<WireResource>>, codec: Codec, skip: bool, i: nat)
    ensures Loadable(frames, codec, skip, i) ==>
              && Stop(frames, codec, skip, i) == Stop(frames, codec, skip, i + 1)
              && Collect(frames, codec, skip, i) ==
                 Listing([ItemAt(frames, codec, skip, i)] + Collect(frames, codec, skip, i + 1).items,
                         Collect(frames, codec, skip, i + 1).err)
    ensures !Loadable(frames, codec, skip, i) ==>
              && Stop(frames, codec, skip, i) == i
              && Collect(frames, codec, skip, i) == Listing([], StopError(frames, codec, skip, i))
  {
  }

  /**
   * The loop of `List`. `received` is the number of `Recv` calls made: the
   * loop reads up to the stopping frame and no further.
   */
  method ReceiveList(frames: seq<Frame<WireResource>>, codec: Codec, skip: bool)
    returns (items: seq<Resource>, err: Option<Cause>, received: nat)
    ensures Listing(items, err) == Collect(frames, codec, skip, 0)
    ensures received == Stop(frames, codec, skip, 0) + 1
  {
    items := [];
    var i := 0;
    while true
      invariant i <= |frames|
      invariant Stop(frames, codec, skip, i) == Stop(frames, codec, skip, 0)
      invariant Collect(frames, codec, skip, 0) ==
                Listing(items + Collect(frames, codec, skip, i).items, Collect(frames, codec, skip, i).err)
      decreases |frames| - i
    {
      CollectStep(frames, codec, skip, i);
      var frame := Recv(frames, i);
      received := i + 1;
      if frame.Eof? {
        err := None;
        return;
      }
      if frame.RecvErr? {
        err := Some(frame.err);
        return;
      }
      var r := DecodeResource(frame.msg, codec, skip);
      if r.Failure? {
        err := Some(r.error);
        return;
      }
      assert ItemAt(frames, codec, skip, i) == r.value;
      ghost var rest := Collect(frames, codec, skip, i + 1);
      assert (items + [r.value]) + rest.items == items + ([r.value] + rest.items);
      items := items + [r.value];
      i := i + 1;
    }
  }

  /** List on a stream that ends cleanly returns every decoded item and no error. */
  lemma ListOfCleanStream(frames: seq<Frame<WireResource>>, codec: Codec, skip: bool)
    requires forall k :: 0 <= k < |frames| ==> Loadable(frames, codec, skip, k)
    ensures Collect(frames, codec, skip, 0).err == None
    ensures |Collect(frames, codec, skip, 0).items| == |frames|
    ensures forall k :: 0 <= k < |frames| ==> Collect(frames, codec, skip, 0).items[k] == ItemAt(frames, codec, skip, k)
  {
    CollectClosedForm(frames, codec, skip, 0);
  }
}
