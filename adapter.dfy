/**
 * The operations of the remote state adapter (`Adapter` in
 * pkg/state/protobuf/client/client.go) with the transport reduced to its
 * outcomes: the server's reply or error for a call, and the stream of frames
 * for List and Watch. Each operation translates those outcomes into what the
 * store contract returns.
 */
module Adapter {
  import opened Wrappers
  import opened Errors
  import opened Wire
  import ListStream
  import WatchStream
  import opened ResourceMetadata

  /** A resource pointer (namespace, type, id) and a resource kind (namespace, type). */
  datatype Pointer = Pointer(namespace: string, typ: string, id: string)
  datatype Kind = Kind(namespace: string, typ: string)

  /** A label query term as given by the caller, and the translated wire query. */
  datatype LabelTerm = LabelTerm(key: string, values: seq<string>)
  datatype WireLabelQuery = WireLabelQuery(terms: seq<LabelTerm>)

  /** `transformLabelQuery`, defined outside the adapter; it may fail. */
  type LabelQueryTranslation = seq<LabelTerm> -> Result<WireLabelQuery, Cause>

  /**
   * Go's `int32(x)` on an integer: the low 32 bits read as a two's
   * complement number.
   */
  function ToInt32(x: int): (r: int)
    ensures -0x8000_0000 <= r < 0x8000_0000
    ensures (x - r) % 0x1_0000_0000 == 0
  {
    var low := x % 0x1_0000_0000;
    if low < 0x8000_0000 then low else low - 0x1_0000_0000
  }

  /** A tail count that fits in 32 bits reaches the server unchanged. */
  lemma ToInt32Identity(x: int)
    requires -0x8000_0000 <= x < 0x8000_0000
    ensures ToInt32(x) == x
  {
    var r := ToInt32(x);
    assert -0x1_0000_0000 < x - r < 0x1_0000_0000;
  }

  /** The label query sent to the server: none without terms, else the translation or its error. */
  function WireLabelQueryFor(terms: seq<LabelTerm>, translate: LabelQueryTranslation): (r: Result<Option<WireLabelQuery>, Cause>)
    ensures |terms| == 0 ==> r == Success(None)
    ensures |terms| > 0 && translate(terms).Success? ==> r == Success(Some(translate(terms).value))
    ensures |terms| > 0 && translate(terms).Failure? ==> r == Failure(translate(terms).error)
  {
    if |terms| == 0 then Success(None)
    else match translate(terms)
      case Success(q) => Success(Some(q))
      case Failure(e) => Failure(e)
  }

  /**
   * Get: a transport error goes through the lookup table; a reply is decoded,
   * generically only when `skip` (SkipProtobufUnmarshal) is set; a decode
   * error is returned as it is.
   */
  function Get(reply: Result<WireResource, Cause>, codec: Codec, skip: bool): (r: Result<Resource, Error>)
    ensures r.Failure? && IsNotFound(r.error) <==> reply.Failure? && CodeOf(reply.error) == NotFound
    ensures r.Failure? ==> !IsConflict(r.error)
    ensures reply.Failure? ==> r == Failure(MapLookupError(reply.error))
    ensures reply.Success? ==>
              match DecodeResource(reply.value, codec, skip)
              case Success(x) => r == Success(x)
              case Failure(e) => r == Failure(Passed(e))
  {
    match reply
    case Failure(e) => Failure(MapLookupError(e))
    case Success(w) =>
      match DecodeResource(w, codec, skip)
      case Failure(e) => Failure(Passed(e))
      case Success(x) => Success(x)
  }

  /** The wire form of a List request. */
  datatype ListRequest = ListRequest(namespace: string, typ: string, labelQuery: Option<WireLabelQuery>)

  /**
   * List: a label query that cannot be translated fails before anything is
   * sent; an error opening the stream goes through the lookup table; then the
   * receive loop runs and its error, if any, is returned as it is, together
   * with the items collected before it.
   */
  method List(kind: Kind, terms: seq<LabelTerm>, translate: LabelQueryTranslation, skip: bool,
              openErr: Option<Cause>, frames: seq<Frame<WireResource>>, codec: Codec)
    returns (request: Option<ListRequest>, items: seq<Resource>, err: Option<Error>)
    ensures WireLabelQueryFor(terms, translate).Failure? ==>
              request == None && items == [] && err == Some(Passed(WireLabelQueryFor(terms, translate).error))
    ensures WireLabelQueryFor(terms, translate).Success? ==>
              request == Some(ListRequest(kind.namespace, kind.typ, WireLabelQueryFor(terms, translate).value))
    ensures WireLabelQueryFor(terms, translate).Success? && openErr.Some? ==>
              items == [] && err == Some(MapLookupError(openErr.value))
    ensures WireLabelQueryFor(terms, translate).Success? && openErr.None? ==>
              var l := ListStream.Collect(frames, codec, skip, 0);
              items == l.items && err == (if l.err.Some? then Some(Passed(l.err.value)) else None)
  {
    var labelQuery := WireLabelQueryFor(terms, translate);
    if labelQuery.Failure? {
      return None, [], Some(Passed(labelQuery.error));
    }
    request := Some(ListRequest(kind.namespace, kind.typ, labelQuery.value));
    if openErr.Some? {
      return request, [], Some(MapLookupError(openErr.value));
    }
    var e, received;
    items, e, received := ListStream.ReceiveList(frames, codec, skip);
    err := if e.Some? then Some(Passed(e.value)) else None;
  }

  /** Turns an optional raw error into an optional returned-as-is error. */
  function PassedIfAny(e: Option<Cause>): (r: Option<Error>)
    ensures r.None? <==> e.None?
    ensures e.Some? ==> r == Some(Passed(e.value))
  {
    if e.Some? then Some(Passed(e.value)) else None
  }

  /**
   * Create: `encoded` is the outcome of `protobuf.FromResource` followed by
   * `Marshal` on the caller's resource and `reply` the server's answer. An
   * encoding error is returned as it is; a transport error goes through the
   * Create table; on success the server's metadata is copied back onto
   * `target` and the copy's error, if any, is returned.
   */
  method Create(target: Metadata, encoded: Result<Blob, Cause>, reply: Result<WireResource, Cause>, h: MetadataHelpers)
    returns (err: Option<Error>)
    modifies target`version, target`updated, target`owner
    ensures encoded.Failure? ==> err == Some(Passed(encoded.error)) && target.Value() == old(target.Value())
    ensures encoded.Success? && reply.Failure? ==>
              err == Some(MapCreateError(reply.error)) && target.Value() == old(target.Value())
    ensures encoded.Success? && reply.Success? ==>
              var c := CopiedBack(old(target.Value()), reply.value.metadata, h);
              target.Value() == c.metadata && err == PassedIfAny(c.err)
  {
    if encoded.Failure? {
      return Some(Passed(encoded.error));
    }
    if reply.Failure? {
      return Some(MapCreateError(reply.error));
    }
    var e := UpdateResourceMetadata(reply.value.metadata, target, h);
    err := PassedIfAny(e);
  }

  /** Update: as Create, with the Update table. */
  method Update(target: Metadata, encoded: Result<Blob, Cause>, reply: Result<WireResource, Cause>, h: MetadataHelpers)
    returns (err: Option<Error>)
    modifies target`version, target`updated, target`owner
    ensures encoded.Failure? ==> err == Some(Passed(encoded.error)) && target.Value() == old(target.Value())
    ensures encoded.Success? && reply.Failure? ==>
              err == Some(MapUpdateError(reply.error)) && target.Value() == old(target.Value())
    ensures encoded.Success? && reply.Success? ==>
              var c := CopiedBack(old(target.Value()), reply.value.metadata, h);
              target.Value() == c.metadata && err == PassedIfAny(c.err)
  {
    if encoded.Failure? {
      return Some(Passed(encoded.error));
    }
    if reply.Failure? {
      return Some(MapUpdateError(reply.error));
    }
    var e := UpdateResourceMetadata(reply.value.metadata, target, h);
    err := PassedIfAny(e);
  }

  /** Destroy: success is nil, a transport error goes through the Destroy table. */
  function Destroy(reply: Option<Cause>): (r: Option<Error>)
    ensures r.None? <==> reply.None?
    ensures reply.Some? ==> r == Some(MapDestroyError(reply.value))
  {
    if reply.Some? then Some(MapDestroyError(reply.value)) else None
  }

  /** The wire form of a Watch request. */
  datatype WatchRequest = WatchRequest(
    namespace: string,
    typ: string,
    id: Option<string>,
    bootstrapContents: bool,
    tailEvents: int,
    labelQuery: Option<WireLabelQuery>,
    apiVersion: int)

  /**
   * The outcome of the first, handshake `Recv`: any message confirms the
   * stream and is dropped; end of stream and receive errors are errors.
   */
  function HandshakeError(frames: seq<Frame<WireEvent>>): (r: Option<Cause>)
    ensures r.None? <==> Recv(frames, 0).Msg?
    ensures Recv(frames, 0).Eof? ==> r == Some(EndOfStream)
    ensures Recv(frames, 0).RecvErr? ==> r == Some(Recv(frames, 0).err)
  {
    match Recv(frames, 0)
    case Eof => Some(EndOfStream)
    case RecvErr(e) => Some(e)
    case Msg(_) => None
  }

  /**
   * Opens the stream (`openErr` is the error of the Watch call, if any),
   * consumes the handshake frame and, when both succeeded, starts delivery
   * on the remaining frames; errors are returned as they are.
   */
  method StartWatch(openErr: Option<Cause>, frames: seq<Frame<WireEvent>>, codec: Codec, skip: bool, accepted: seq<bool>)
    returns (err: Option<Cause>, delivered: seq<Event>)
    ensures openErr.Some? ==> err == openErr && delivered == []
    ensures openErr.None? && HandshakeError(frames).Some? ==> err == HandshakeError(frames) && delivered == []
    ensures openErr.None? && HandshakeError(frames).None? ==>
              err.None? && delivered == WatchStream.Delivered(frames[1..], accepted, codec, skip, 0)
  {
    if openErr.Some? {
      return openErr, [];
    }
    var handshake := Recv(frames, 0);
    if !handshake.Msg? {
      return HandshakeError(frames), [];
    }
    err := None;
    var received;
    delivered, received := WatchStream.WatchAdapter(frames[1..], codec, skip, accepted);
  }

  /**
   * Watch of one resource: the request names the resource, asks for API
   * version 1 and carries the tail count narrowed to 32 bits.
   */
  method Watch(pointer: Pointer, tailEvents: int, skip: bool,
               openErr: Option<Cause>, frames: seq<Frame<WireEvent>>, codec: Codec, accepted: seq<bool>)
    returns (request: WatchRequest, err: Option<Cause>, delivered: seq<Event>)
    ensures request == WatchRequest(pointer.namespace, pointer.typ, Some(pointer.id), false, ToInt32(tailEvents), None, 1)
    ensures openErr.Some? ==> err == openErr && delivered == []
    ensures openErr.None? && HandshakeError(frames).Some? ==> err == HandshakeError(frames) && delivered == []
    ensures openErr.None? && HandshakeError(frames).None? ==>
              err.None? && delivered == WatchStream.Delivered(frames[1..], accepted, codec, skip, 0)
  {
    request := WatchRequest(pointer.namespace, pointer.typ, Some(pointer.id), false, ToInt32(tailEvents), None, 1);
    err, delivered := StartWatch(openErr, frames, codec, skip, accepted);
  }

  /**
   * WatchKind: a label query that cannot be translated fails before anything
   * is sent; otherwise the request names the kind, carries the bootstrap flag,
   * the narrowed tail count and the label query, and the stream starts as for
   * Watch.
   */
  method WatchKind(kind: Kind, bootstrapContents: bool, tailEvents: int, terms: seq<LabelTerm>,
                   translate: LabelQueryTranslation, skip: bool,
                   openErr: Option<Cause>, frames: seq<Frame<WireEvent>>, codec: Codec, accepted: seq<bool>)
    returns (request: Option<WatchRequest>, err: Option<Cause>, delivered: seq<Event>)
    ensures WireLabelQueryFor(terms, translate).Failure? ==>
              request == None && err == Some(WireLabelQueryFor(terms, translate).error) && delivered == []
    ensures WireLabelQueryFor(terms, translate).Success? ==>
              request == Some(WatchRequest(kind.namespace, kind.typ, None, bootstrapContents, ToInt32(tailEvents),
                                           WireLabelQueryFor(terms, translate).value, 1))
    ensures WireLabelQueryFor(terms, translate).Success? && openErr.Some? ==> err == openErr && delivered == []
    ensures WireLabelQueryFor(terms, translate).Success? && openErr.None? && HandshakeError(frames).Some? ==>
              err == HandshakeError(frames) && delivered == []
    ensures WireLabelQueryFor(terms, translate).Success? && openErr.None? && HandshakeError(frames).None? ==>
              err.None? && delivered == WatchStream.Delivered(frames[1..], accepted, codec, skip, 0)
  {
    var labelQuery := WireLabelQueryFor(terms, translate);
    if labelQuery.Failure? {
      return None, Some(labelQuery.error), [];
    }
    request := Some(WatchRequest(kind.namespace, kind.typ, None, bootstrapContents, ToInt32(tailEvents), labelQuery.value, 1));
    err, delivered := StartWatch(openErr, frames, codec, skip, accepted);
  }
}
