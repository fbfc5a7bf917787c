/**
 * What the remote state adapter receives from the server and what it hands
 * to its callers: wire resources and events, decoded resources and state
 * events, frame streams, and the decoding of one resource and of one event
 * (pkg/state/protobuf/client/client.go).
 */
module Wire {
  import opened Wrappers
  import opened Errors

  type Blob = seq<bv8>

  /** `updated` is treated as an opaque point in time. */
  datatype Timestamp = Timestamp(seconds: int, nanos: int)

  /** The metadata part of a wire resource (`v1alpha1.Metadata`). */
  datatype WireMetadata = WireMetadata(
    namespace: string,
    typ: string,
    id: string,
    version: string,
    owner: string,
    updated: Timestamp)

  /** A resource as it travels on the wire (`v1alpha1.Resource`). */
  datatype WireResource = WireResource(metadata: WireMetadata, spec: Blob)

  /** A decoded resource, the generic protobuf form or a typed one, as the codec built it. */
  datatype Resource = Resource(metadata: WireMetadata, spec: Blob)

  /**
   * The two decoding steps, both defined outside the adapter and both
   * possibly failing: `protobuf.Unmarshal` builds the generic protobuf
   * resource and `protobuf.UnmarshalResource` rebuilds the typed resource
   * from it.
   */
  datatype Codec = Codec(
    unmarshal: WireResource -> Result<Resource, Cause>,
    unmarshalResource: Resource -> Result<Resource, Cause>)

  /**
   * Decoding one resource: the generic decode, then the typed
   * reconstruction unless `skip` (SkipProtobufUnmarshal) is set.
   */
  function DecodeResource(w: WireResource, codec: Codec, skip: bool): (r: Result<Resource, Cause>)
    ensures codec.unmarshal(w).Failure? ==> r == Failure(codec.unmarshal(w).error)
    ensures skip ==> r == codec.unmarshal(w)
    ensures !skip && codec.unmarshal(w).Success? ==> r == codec.unmarshalResource(codec.unmarshal(w).value)
  {
    match codec.unmarshal(w)
    case Failure(e) => Failure(e)
    case Success(u) => if skip then Success(u) else codec.unmarshalResource(u)
  }

  /**
   * With `skip` set the typed reconstruction is never consulted: two codecs
   * that agree on the generic decode give the same result.
   */
  lemma SkipBypassesReconstruction(w: WireResource, c1: Codec, c2: Codec)
    requires c1.unmarshal(w) == c2.unmarshal(w)
    ensures DecodeResource(w, c1, true) == DecodeResource(w, c2, true)
  {
  }

  /** The event types on the wire (`v1alpha1.EventType`). */
  datatype WireEventType = CREATED | UPDATED | DESTROYED | BOOTSTRAPPED | ERRORED

  /** The event types of the state package (`state.EventType`). */
  datatype EventType = Created | Updated | Destroyed | Bootstrapped | Errored

  /** The translation of a wire event type, the switch in watchAdapter. */
  function StateEventType(w: WireEventType): (t: EventType)
    ensures WireEventTypeOf(t) == w
  {
    match w
    case CREATED => Created
    case UPDATED => Updated
    case DESTROYED => Destroyed
    case BOOTSTRAPPED => Bootstrapped
    case ERRORED => Errored
  }

  /** The same correspondence read the other way, from state type to wire type. */
  function WireEventTypeOf(t: EventType): WireEventType
  {
    match t
    case Created => CREATED
    case Updated => UPDATED
    case Destroyed => DESTROYED
    case Bootstrapped => BOOTSTRAPPED
    case Errored => ERRORED
  }

  /** The translation is onto: every state event type comes from exactly one wire type. */
  lemma StateEventTypeOnto(t: EventType)
    ensures StateEventType(WireEventTypeOf(t)) == t
  {
  }

  /** A watch event on the wire: type, optional resource, optional old resource, optional error text. */
  datatype WireEvent = WireEvent(
    eventType: WireEventType,
    resource: Option<WireResource>,
    oldResource: Option<WireResource>,
    error: Option<string>)

  /** A `state.Event` delivered to the subscriber. */
  datatype Event = Event(
    eventType: EventType,
    resource: Option<Resource>,
    oldResource: Option<Resource>,
    error: Option<Cause>)

  /**
   * An error `Recv` can return other than io.EOF: `errors.Is(err, io.EOF)` is
   * checked first, so io.EOF is always the `Eof` frame.
   */
  type RecvCause = c: Cause | !c.EndOfStream? witness Text("")

  /** One received frame: end of stream, a receive error other than io.EOF, or a message. */
  datatype Frame<M> = Eof | RecvErr(err: RecvCause) | Msg(msg: M)

  /** The i-th call of `Recv` on a stream whose frames are `frames`; a stream that ran out is closed. */
  function Recv<M>(frames: seq<Frame<M>>, i: nat): Frame<M>
  {
    if i < |frames| then frames[i] else Eof
  }

  /** True when the optional wire resource is absent or decodes. */
  predicate DecodesIfPresent(w: Option<WireResource>, codec: Codec, skip: bool)
  {
    w.Some? ==> DecodeResource(w.value, codec, skip).Success?
  }

  /** The decoded form of a wire resource that is present and decodes. */
  function Decoded(w: Option<WireResource>, codec: Codec, skip: bool): Option<Resource>
    requires DecodesIfPresent(w, codec, skip)
  {
    if w.Some? then Some(DecodeResource(w.value, codec, skip).value) else None
  }

  /**
   * Building a state event from a wire event: the type is translated, the
   * resource and then the old resource are decoded (the first failure wins),
   * and an error text becomes an error with that text.
   */
  function DecodeEvent(m: WireEvent, codec: Codec, skip: bool): Result<Event, Cause>
  {
    if !DecodesIfPresent(m.resource, codec, skip) then
      Failure(DecodeResource(m.resource.value, codec, skip).error)
    else if !DecodesIfPresent(m.oldResource, codec, skip) then
      Failure(DecodeResource(m.oldResource.value, codec, skip).error)
    else
      var error := if m.error.Some? then Some(Text(m.error.value)) else None;
      Success(Event(StateEventType(m.eventType), Decoded(m.resource, codec, skip),
                    Decoded(m.oldResource, codec, skip), error))
  }

  /**
   * What a decoded event carries: the translated type; a resource exactly
   * when the frame carried one, and then its decoding; likewise the old
   * resource; an error exactly when the frame carried an error text, with
   * that text. Decoding fails exactly when a carried resource fails to
   * decode, with the resource's failure taking precedence.
   */
  lemma DecodeEventFields(m: WireEvent, codec: Codec, skip: bool)
    ensures var r := DecodeEvent(m, codec, skip);
            && (r.Success? <==> DecodesIfPresent(m.resource, codec, skip) && DecodesIfPresent(m.oldResource, codec, skip))
            && (r.Success? ==>
                  && r.value.eventType == StateEventType(m.eventType)
                  && (r.value.resource.Some? <==> m.resource.Some?)
                  && r.value.resource == Decoded(m.resource, codec, skip)
                  && (r.value.oldResource.Some? <==> m.oldResource.Some?)
                  && r.value.oldResource == Decoded(m.oldResource, codec, skip)
                  && (r.value.error.Some? <==> m.error.Some?)
                  && (m.error.Some? ==> r.value.error.value == Text(m.error.value)))
            && (!DecodesIfPresent(m.resource, codec, skip) ==>
                  r == Failure(DecodeResource(m.resource.value, codec, skip).error))
            && (DecodesIfPresent(m.resource, codec, skip) && !DecodesIfPresent(m.oldResource, codec, skip) ==>
                  r == Failure(DecodeResource(m.oldResource.value, codec, skip).error))
  {
  }
}
