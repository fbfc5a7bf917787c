# Remote state adapter and transform controller options, in Dafny

This project models two pieces of a controller runtime.

- **The remote state adapter** (`pkg/state/protobuf/client/client.go`). This client-side store forwards Get, List, Create,
  Update, Destroy, Watch and WatchKind to a gRPC state server. It translates what comes back into the store's
  contract:
  - transport status codes become store error kinds, through one table per operation;
  - a List stream is folded into a list;
  - a Watch stream is first confirmed by one handshake frame; after that, a delivery loop (`watchAdapter`) turns frames
    into state events for the subscriber;
  - after Create and Update, the server-assigned version, updated time and owner are copied back onto the caller's
    resource (`updateResourceMetadata`).
- **The transform controller's options** (`pkg/controller/generic/transform/options.go`). This is a configuration
  record changed in place by functional options:
  - list options append;
  - scalar options overwrite;
  - two finalizer policies are mutually exclusive, and requesting the second one panics.

The transport is reduced to its outcomes:
- the reply or error of a call;
- a finite sequence of received frames (`Eof`, `RecvErr(e)` or `Msg(m)`), where reading past its end behaves like end of
  stream; `Recv` returning io.EOF is the `Eof` frame, and the error of `RecvErr` is any other error (`Wire.RecvCause`
  excludes io.EOF), as `errors.Is(err, io.EOF)` is tested first at client.go:117 and 372;
- a sequence of send outcomes, where the k-th send of the delivery loop succeeds unless it was cancelled.

Decoding (`protobuf.Unmarshal`, `UnmarshalResource`), `resource.ParseVersion`, the owner check of `SetOwner` and
`transformLabelQuery` are defined outside the modelled files. They are function-valued parameters that may fail.

Files and modules:
- `wrappers.dfy`: `Option` and `Result`.
- `errors.dfy` (`Errors`): status codes, error values (`Cause`), store error kinds, and the four translation tables.
- `wire.dfy` (`Wire`): wire resources and events, and the decoding of one resource and of one event.
- `liststream.dfy` (`ListStream`): the List receive loop and its specification.
- `watchstream.dfy` (`WatchStream`): the `watchAdapter` loop and its specification.
- `metadata.dfy` (`ResourceMetadata`): the caller's metadata as an object with setters, and `updateResourceMetadata`.
- `adapter.dfy` (`Adapter`): the adapter operations, built from the pieces above.
- `options.dfy` (`TransformOptions`): the options record as a class, and a value-level specification of applying
  options.

The two loops are methods proved against recursive specification functions. Closed-form lemmas then describe those
functions element by element. Both objects the source changes in place are classes: the resource metadata and
`ControllerOptions`. The methods of these classes are tied to value-level functions (`CopiedBack`, `Applied`). The
source's guarantees are proved as lemmas about those functions.

A send cancelled by the context ends the delivery loop, and nothing more is sent (client.go:439-441,
`WatchStream.CancelledSendStops`). A receive error caused by cancellation goes through the error send like any other
receive error (client.go:374-377). That send uses the same cancelled context, so the Errored event is delivered only
if the send still goes through; in the model this is the send's outcome in `accepted` (`WatchStream.SendError`).

## Model

| member | source | states |
|---|---|---|
| Errors.CodeOf | pkg/state/protobuf/client/client.go:55 | `status.Code(err)`: the code of an error carrying a gRPC status, Unknown for any other error; each table below is a case analysis on it |
| Errors.MapLookupError | pkg/state/protobuf/client/client.go:55-60 | Get and List tables: the result wraps the original error; it is not-found exactly when the status code is NotFound, and it is never a conflict |
| Errors.MapCreateError | pkg/state/protobuf/client/client.go:171-180 | Create table: not-found iff NotFound; a conflict iff PermissionDenied or AlreadyExists; an owner conflict (also a conflict) iff PermissionDenied; never a phase conflict; the original error is kept |
| Errors.MapUpdateError | pkg/state/protobuf/client/client.go:222-233 | Update table: not-found iff NotFound; a conflict iff PermissionDenied, InvalidArgument or FailedPrecondition; an owner conflict iff PermissionDenied; a phase conflict iff InvalidArgument |
| Errors.MapDestroyError | pkg/state/protobuf/client/client.go:260-269 | Destroy table: not-found iff NotFound; a conflict iff PermissionDenied or FailedPrecondition; an owner conflict iff PermissionDenied; never a phase conflict, so InvalidArgument and AlreadyExists pass through |
| Errors.NonStatusErrorsPassThrough | pkg/state/protobuf/client/client.go:55-60 | an error without a gRPC status (status.Code gives Unknown) is returned unchanged by all four tables |
| Errors.UpdateTableExtendsCreateTable | pkg/state/protobuf/client/client.go:171-233 | the Update table agrees with the Create table except on AlreadyExists, InvalidArgument and FailedPrecondition; AlreadyExists is a conflict for Create and passes through Update |
| Wire.DecodeResource | pkg/state/protobuf/client/client.go:63-72 | a generic-decode failure is returned as it is; with skip set the generic decoding is the result; otherwise the typed reconstruction of the decoded resource is the result |
| Wire.SkipBypassesReconstruction | pkg/state/protobuf/client/client.go:68-70 | with skip set, the typed reconstruction is never consulted: two codecs that differ only in it decode alike |
| Wire.StateEventType | pkg/state/protobuf/client/client.go:382-393 | each of the five wire event types maps to the state event type of the same name (WireEventTypeOf inverts it) |
| Wire.StateEventTypeOnto | pkg/state/protobuf/client/client.go:382-393 | every state event type is the image of its same-named wire type, so the mapping is a bijection |
| Wire.DecodeEvent | pkg/state/protobuf/client/client.go:380-437 | builds the state event of one frame, stopping at the first decode failure; its properties are those of DecodeEventFields |
| Wire.DecodeEventFields | pkg/state/protobuf/client/client.go:380-437 | building an event fails iff a carried resource or old resource fails to decode, and the resource's failure takes precedence; on success the type is translated, Resource is set iff the frame carried one, Old is set iff the frame carried one, and Error is set iff the frame carried an error text, with that text |
| ListStream.Stop | pkg/state/protobuf/client/client.go:113-140 | the first frame the List loop does not append: every frame before it decodes, and it does not |
| ListStream.CollectClosedForm | pkg/state/protobuf/client/client.go:111-140 | List returns the decodings of the frames before the stop frame, in receive order, together with the stop frame's error (none at end of stream) |
| ListStream.ReceiveList | pkg/state/protobuf/client/client.go:111-140 | the receive loop returns exactly the listing its specification gives, and it receives nothing after the stop frame |
| ListStream.ListOfCleanStream | pkg/state/protobuf/client/client.go:117-118 | a stream of decodable messages followed by end of stream lists the decoding of every message, in receive order, with no error |
| WatchStream.Stop | pkg/state/protobuf/client/client.go:368-443 | the first frame the delivery loop does not forward: every frame before it decodes into an event, and it does not |
| WatchStream.CutBounds | pkg/state/protobuf/client/client.go:368-443 | the frame where forwarding ends (Cut): every earlier frame is forwardable and its send is accepted; the frame itself is not both; it never lies beyond the stop frame |
| WatchStream.ErroredEvent | pkg/state/protobuf/client/client.go:361-364 | the event `sendError` sends: type Errored, the failure as its error, no resource and no old resource |
| WatchStream.DeliveredClosedForm | pkg/state/protobuf/client/client.go:358-443 | the delivered events are the decoded events of the frames before the cut, in order; then exactly one adapter Errored event carrying the failure, if the cut frame failed and its error send was accepted; nothing else |
| WatchStream.SendError | pkg/state/protobuf/client/client.go:359-366 | the error send adds one Errored event carrying the failure exactly when that send is not cancelled, and nothing otherwise |
| WatchStream.WatchAdapter | pkg/state/protobuf/client/client.go:358-443 | the delivery loop sends exactly the events its specification gives, and it makes exactly one `Recv` call more than the number of frames it forwards: nothing is received after the frame where forwarding ends, a cancelled send included |
| WatchStream.EndOfStreamIsQuiet | pkg/state/protobuf/client/client.go:372-373 | when the stream ends at end of stream, no extra event is added: every delivered event is a forwarded frame |
| WatchStream.FailureEndsWithOneErrored | pkg/state/protobuf/client/client.go:359-433 | a receive or decode failure with every send accepted delivers all forwarded events followed by exactly one Errored event with that failure, as the last event |
| WatchStream.CancelledSendStops | pkg/state/protobuf/client/client.go:439-441 | if the k-th send is cancelled, at most k events are delivered |
| WatchStream.ServerErroredIsForwarded | pkg/state/protobuf/client/client.go:391-441 | a server-sent ERRORED frame is delivered as an Errored event, and the loop goes on to deliver the next frame |
| ResourceMetadata.CopiedBack | pkg/state/protobuf/client/client.go:445-456 | a version parse failure returns that error with the metadata untouched; otherwise version and updated time become the server's, the owner becomes the server's iff SetOwner accepts it, and its verdict is the error; identity, phase and finalizers never change |
| ResourceMetadata.Metadata.SetOwner | pkg/state/protobuf/client/client.go:455 | returns the owner verdict; the owner changes to the requested one exactly when there is no error |
| ResourceMetadata.UpdateResourceMetadata | pkg/state/protobuf/client/client.go:445-456 | the new state of the target and the returned error are those CopiedBack gives, and only version, updated and owner may change |
| Adapter.ToInt32 | pkg/state/protobuf/client/client.go:293 | Go's int32 conversion: the result is in the 32-bit range and agrees with the input modulo 2^32 |
| Adapter.ToInt32Identity | pkg/state/protobuf/client/client.go:293 | a tail count within 32 bits reaches the server unchanged |
| Adapter.WireLabelQueryFor | pkg/state/protobuf/client/client.go:83-92 | no label query without terms; otherwise the translation, or its error |
| Adapter.Get | pkg/state/protobuf/client/client.go:48-73 | a not-found error iff the transport error's code is NotFound; never a conflict; transport errors go through the lookup table; a reply gives its decoding, or the decode error as it is |
| Adapter.List | pkg/state/protobuf/client/client.go:76-141 | a failed label query translation returns its error and sends nothing; an open error goes through the lookup table and gives no items; otherwise the items and the error of the receive loop, with the error returned as it is |
| Adapter.Create | pkg/state/protobuf/client/client.go:146-184 | an encoding error is returned untouched; a transport error goes through the Create table and leaves the resource unchanged; on success the result and the new metadata are those of updateResourceMetadata |
| Adapter.Update | pkg/state/protobuf/client/client.go:191-237 | as Create, with the Update table |
| Adapter.Destroy | pkg/state/protobuf/client/client.go:259-272 | nil exactly on success; a transport error goes through the Destroy table |
| Adapter.HandshakeError | pkg/state/protobuf/client/client.go:301-305 | the handshake succeeds exactly when the first frame is a message; end of stream becomes io.EOF; a receive error is returned |
| Adapter.StartWatch | pkg/state/protobuf/client/client.go:297-309 | an open or handshake error is returned and nothing is delivered; otherwise delivery runs on the frames after the first one |
| Adapter.Watch | pkg/state/protobuf/client/client.go:281-310 | the request names the resource, asks for API version 1 and carries the tail count narrowed to 32 bits; the handshake and delivery are those of StartWatch |
| Adapter.WatchKind | pkg/state/protobuf/client/client.go:313-355 | a failed label query translation is returned before anything is sent; otherwise the request carries the kind, the bootstrap flag, the narrowed tail count and the label query; then as Watch |
| TransformOptions.Applied | pkg/controller/generic/transform/options.go:36-116 | applying one option panics exactly in the mutual-exclusion case; otherwise every field other than the option's own is unchanged, and exclusivity of the two policies is kept |
| TransformOptions.LastFor | pkg/controller/generic/transform/options.go:87-116 | an option is found exactly when some option names the field; the one found names the field and no later option names it, so it is the last |
| TransformOptions.FlagOptionsIdempotent | pkg/controller/generic/transform/options.go:59-81 | applying a flag option twice gives the same result as applying it once |
| TransformOptions.PanicIsFinal | pkg/controller/generic/transform/options.go:59-81 | once an option panics, no later option runs: the whole sequence panics |
| TransformOptions.ApplyAllPreservesExclusive | pkg/controller/generic/transform/options.go:56-81 | applying any sequence of options that completes keeps the two policies exclusive |
| TransformOptions.NeverBothPolicies | pkg/controller/generic/transform/options.go:56-81 | from the zero value, inputFinalizers and ignoreTearingDownInputs are never both true after options that complete |
| TransformOptions.BothPoliciesPanic | pkg/controller/generic/transform/options.go:59-81 | a sequence that requests both policies, in either order, panics |
| TransformOptions.SetFlagPanics | pkg/controller/generic/transform/options.go:59-81 | once one policy is set, any later request for the other panics |
| TransformOptions.ApplyAllIsSummary | pkg/controller/generic/transform/options.go:36-116 | a completed sequence yields each list as the old list followed by its options' arguments in order; each scalar holds the value of the last option naming it; each flag is set iff it was set or was requested |
| TransformOptions.ControllerOptions.constructor | pkg/controller/generic/transform/options.go:17-28 | the options start as the zero value |
| TransformOptions.ControllerOptions.AddInputListOptions | pkg/controller/generic/transform/options.go:36-40 | the list becomes the old list followed by the arguments; nothing else changes |
| TransformOptions.ControllerOptions.AddExtraInputs | pkg/controller/generic/transform/options.go:43-47 | the extra inputs become the old ones followed by the arguments; nothing else changes |
| TransformOptions.ControllerOptions.AddExtraOutputs | pkg/controller/generic/transform/options.go:50-54 | the extra outputs become the old ones followed by the arguments; nothing else changes |
| TransformOptions.ControllerOptions.EnableInputFinalizers | pkg/controller/generic/transform/options.go:59-67 | panics exactly when ignoreTearingDownInputs is set; otherwise sets inputFinalizers and changes nothing else |
| TransformOptions.ControllerOptions.EnableIgnoreTearingDownInputs | pkg/controller/generic/transform/options.go:73-81 | panics exactly when inputFinalizers is set; otherwise sets ignoreTearingDownInputs and changes nothing else |
| TransformOptions.ControllerOptions.SetExtraEventChannel | pkg/controller/generic/transform/options.go:87-91 | overwrites the extra event channel; nothing else changes |
| TransformOptions.ControllerOptions.SetOnShutdownCallback | pkg/controller/generic/transform/options.go:97-101 | overwrites the shutdown callback; nothing else changes |
| TransformOptions.ControllerOptions.SetOutputKind | pkg/controller/generic/transform/options.go:104-108 | overwrites the primary output kind; nothing else changes |
| TransformOptions.ControllerOptions.SetRequeueInterval | pkg/controller/generic/transform/options.go:112-116 | overwrites the requeue interval; nothing else changes |
| TransformOptions.ControllerOptions.Apply | pkg/controller/generic/transform/options.go:30-31 | calling an option on the record panics exactly as Applied says and otherwise leaves the record equal to Applied's result |

## Left out

- The gRPC client, the context and the goroutine that runs `watchAdapter` are not modelled. A call's outcome, the frames
  of a stream and the outcome of each `channel.SendWithContext` are parameters, so concurrency and timing are absent.
- The delivery loop runs to completion before Watch returns in the model. In the source it runs on its own goroutine.
- `protobuf.Unmarshal`, `UnmarshalResource`, `FromResource` with `Marshal`, `transformLabelQuery` and
  `resource.ParseVersion` are defined outside the modelled files. They are function-valued parameters that may fail.
- `Metadata.SetOwner` is defined outside the modelled files. It is a verdict function of the current and the requested
  owner; an error leaves the owner as it was.
- `transformIDQuery` and the ID query are defined outside the modelled files. They are not part of the List and Watch
  requests in the model.
- The Get, Create, Update and Destroy requests are not built in the model. The owner and expected-phase options they
  carry only reach the server, so only their replies are modelled.
- The updated timestamp is an opaque value. `AsTime` conversion is not modelled.
- Wire event type values outside the five named ones are not modelled. The state event type's zero value is defined
  outside the modelled files.
- Nil messages are not modelled. The nil-safe getters on a missing metadata, and a nil `msg.Event`, have no
  counterpart.
- `ListStream.ReceiveList`: the `received` count exists only in the model, to state that nothing after the stop frame
  is received.
- `WatchStream.WatchAdapter`: the `received` count exists only in the model, to state that nothing after the frame
  where forwarding ends is received.
- `ControllerOptions.Apply` and the other option methods return a panic flag and leave the record untouched, instead of
  unwinding the stack.
- The store's own rules (version bumping, finalizer-gated destroy, owner checks) and the transform controller's
  reconcile loop are not part of this model.
- `pkg/state/impl/inmem/errors_test.go`, `state.IsNotFoundError` and `state.IsConflictError` are not part of this model. The store error
  kinds are a datatype with classification predicates instead.
- `pkg/resource/rtestutils/assertions.go`, `pkg/state/registry/resource.go` and `pkg/state/conformance/resources.go`
  are not part of this model. They are test harnesses and thin wrappers around helpers defined elsewhere.
