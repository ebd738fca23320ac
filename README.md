# EventStoreDB Node.js client: persistent-subscription stream and value types

This project models two parts of the EventStoreDB Node.js client in Dafny.

- **The persistent-subscription object** (`TwoWaySubscription`). The server
  first sends a confirmation and then events over a gRPC duplex stream. The
  consumer acknowledges events (ack) or rejects them (nack) by id, and can
  unsubscribe. Module `Subscription` models the stream abstractly:
  - the settled result of the promise that creates it (`StreamState`);
  - the sequence of requests written to it (`outbound`);
  - a flag recording that `cancel` was issued;
  - the signals and errors emitted to the consumer, tied by the invariant
    `Valid()` to the responses and transport errors received so far.
- **The client's value types** (`src/types.ts`). Module `Types` models the
  tagged unions for expected revisions, payloads, read directions, stream
  revisions and log positions as datatypes. `TypeName()` returns the
  `__typename` tag. `EventDataBuilder` is a class whose `EventId` updates
  the builder in place. `EventData` is a class with fields that are set once.

Module `Wrappers` holds `Option` and `Result`.

Behaviour worth knowing, as the code has it:
- An ack or nack argument given as a string is used as it is. For an event,
  the id of its link wins over the id of the event. `??` falls through only
  when the link is missing, so an event whose link has an empty id is
  refused, even when the event itself has an id.
- Every id is collected before the stream is awaited. An argument without an
  id therefore rejects the call with `MissingId` and nothing is written. This
  holds even when the stream could not be created.
- If the stream cannot be created, that failure is emitted once, as it is.
  Errors on an open stream go through `convertToCommandError`, except
  CANCELLED, which is swallowed.
- Each successful `ack` or `nack` call writes exactly one request. An `ack`
  with no arguments writes an ack request with no ids.

## Model

| member | source | states |
|---|---|---|
| `Types.Exact` | src/types.ts:39-44 | `Revision.exact(n)` is tagged `exact` and carries `n` |
| `Types.RevisionTagDiscriminates` | src/types.ts:3-37 | the tag decides the variant: two revisions share a tag exactly when they are the same one of `any`/`stream_exists`/`no_stream` or both are exact |
| `Types.StreamConstructorsCarry` | src/types.ts:168-213 | `StreamExact(n)` carries `n` under tag `exact`; `StreamPosition(pos)` carries `pos` unchanged under tag `position`; the tags `start`, `end` and `exact` tell the three stream revisions apart |
| `Types.EventDataBuilder.constructor` | src/types.ts:75-83 | stores event type, payload and optional id as given |
| `Types.EventDataBuilder.Json` | src/types.ts:86-93 | a fresh builder with the given type, a `json` payload wrapping the value, and no id |
| `Types.EventDataBuilder.Binary` | src/types.ts:95-102 | a fresh builder with the given type, a `binary` payload wrapping the bytes, and no id |
| `Types.EventDataBuilder.EventId` | src/types.ts:104-107 | sets the id, returns the same builder, and leaves type and payload unchanged |
| `Types.EventDataBuilder.Build` | src/types.ts:109-112 | the event has the builder's type and payload; its id is the set id when there is one (even an empty one), otherwise the freshly drawn UUID |
| `Types.EventData.constructor` | src/types.ts:120-128 | stores event type, payload and id as given |
| `Types.EventData.Json` | src/types.ts:130-133 | gives the same builder as `EventDataBuilder.Json` |
| `Types.EventData.Binary` | src/types.ts:135-137 | gives the same builder as `EventDataBuilder.Binary` |
| `Types.BuildWithLastId` | src/types.ts:104-112 | in a chain of two `eventId` calls the last id wins over the fresh UUID, and type and payload reach the event unchanged |
| `Subscription.ResolveId` | src/utils/TwoWaySubscription.ts:63-67 | a string argument is used verbatim; for an event, the link id takes precedence over the event id; a missing or empty id resolves to nothing, which makes the call throw |
| `Subscription.CollectIds` | src/utils/TwoWaySubscription.ts:62-71 | succeeds exactly when every argument has an id, and then returns one id per argument in call order; otherwise fails with `MissingId` |
| `Subscription.StringIdsVerbatim` | src/utils/TwoWaySubscription.ts:62-71 | acking non-empty string ids sends exactly those ids, in the order given |
| `Subscription.ToAction` | src/utils/TwoWaySubscription.ts:93-106 | every consumer action maps to a protocol action other than the unset default |
| `Subscription.ToActionBijective` | src/utils/TwoWaySubscription.ts:93-106 | park/retry/skip/stop map one-to-one onto PARK/RETRY/SKIP/STOP, and every protocol action other than the default is reached |
| `Subscription.Transform` | src/utils/TwoWaySubscription.ts:44-56 | a confirming response raises the confirmation signal first; an event-bearing response yields exactly one output, its converted event; any other response yields nothing |
| `Subscription.TransformAllInOrder` | src/utils/TwoWaySubscription.ts:44-56 | over any sequence of responses, the consumer gets the converted events of the event-bearing responses once each and in receipt order, and one confirmation per confirming response |
| `Subscription.OnError` | src/utils/TwoWaySubscription.ts:33-37 | a CANCELLED error emits nothing; any other error is emitted converted |
| `Subscription.EmittedErrorsExact` | src/utils/TwoWaySubscription.ts:33-37 | over any sequence of stream errors, only converted errors are emitted; each non-cancellation error is emitted exactly as often as it occurred; a cancellation never is |
| `Subscription.TwoWaySubscription.constructor` | src/utils/TwoWaySubscription.ts:24-42 | starts with nothing written or emitted; when the stream cannot be obtained, that failure is the one error emitted, unconverted |
| `Subscription.TwoWaySubscription.Receive` | src/utils/TwoWaySubscription.ts:44-56 | appends the response's signals to what was emitted before, keeping the emitted signals equal to the transform of everything received |
| `Subscription.TwoWaySubscription.OnStreamError` | src/utils/TwoWaySubscription.ts:33-37 | appends the converted error unless it is CANCELLED, keeping the emitted errors equal to the filter of everything received |
| `Subscription.TwoWaySubscription.Ack` | src/utils/TwoWaySubscription.ts:58-83 | an argument without an id rejects with `MissingId` and writes nothing; otherwise, if the stream could not be obtained, the call rejects with that failure; otherwise exactly one ack request, with the ids in call order, is appended after the earlier requests |
| `Subscription.TwoWaySubscription.Nack` | src/utils/TwoWaySubscription.ts:85-131 | as `Ack`, but the one request appended is a nack carrying the mapped action, the reason unchanged, and the ids in call order |
| `Subscription.TwoWaySubscription.Unsubscribe` | src/utils/TwoWaySubscription.ts:133-144 | on an obtained stream, issues cancel and resolves, however often it is called; if the stream could not be obtained, rejects with that failure and cancels nothing |
| `Subscription.ConfirmThenThreeEvents` | src/utils/TwoWaySubscription.ts:44-56 | after a confirmation and three event-bearing responses, the consumer has the confirmation and then the three converted events, once each and in order |
| `Subscription.AckTwoThenRetryOne` | src/utils/TwoWaySubscription.ts:58-131 | acking two ids in one call and then nacking a third with `retry` leaves the stream with one ack for both ids, in call order, followed by one retry nack carrying the reason |

## Left out

- Numbers: JavaScript `number` fields (revisions, commit and prepare positions) are unbounded integers, and a JSON number is an exact real. Floating-point precision loss is not modelled.
- `convertGrpcEvent` lives in `src/utils/index`, which is not part of this model. It is the parameter `convert`, about which nothing is assumed.
- `convertToCommandError` lives in `src/utils/index`, which is not part of this model. It is the constructor `CommandError(cause)`.
- `createUUID` lives in `src/utils/index`, which is not part of this model. Requests carry the id strings passed to it.
- `uuid()` draws a random id. It is the `freshId` parameter of `Build`, so the model does not capture that two builds without an id get different ids.
- The gRPC plumbing is not modelled: piping, `Transform` back-pressure, `setImmediate` scheduling and the callback of `stream.write`.
- `Ack` and `Nack` resolve once the request is appended to `outbound`. They do not wait for the write callback.
- A synchronous throw from `stream.write`, which the source turns into a rejection through `convertToCommandError`, is not modelled. Whether and when the transport throws is not visible here.
- What the transport does with writes after `cancel` is not modelled. The model keeps appending them to `outbound`, as the source keeps calling `write`.
- `Receive` and `OnStreamError` require an obtained stream. Responses and stream errors arrive only through the pipe that `initialize` sets up on it.
- The protocol schema of a read response is not part of this model. A response may carry a confirmation, an event, both or neither; the code tests the two independently, and so does `Transform`.
- `Credentials` (src/types.ts:60-68) holds a user name and password and has no behaviour.
- `EventDataBuilder`'s constructor is private in TypeScript. Dafny has no private members, so here it can be called directly.
- `PersistentAction`, `ResolvedEvent` and the recorded event are defined outside the shown files. They are modelled as a closed four-valued action and as records that keep only the optional link and event ids.
- Reconnection, channel management and node selection are not part of this model. No implementation of them is among the modelled files.
- The generated protobuf codec (generated/monitoring_pb.js) is not modelled. It delegates all encoding to an external library.
- The code has no subscription phases. It does not refuse acks after `unsubscribe`, and it does not coalesce acks, so each call writes one request. `unsubscribe` first awaits the stream, so it rejects when the stream could never be obtained.
- Json payloads: a json payload is TypeScript `any`; the model narrows it to JSON documents (null, booleans, real numbers, strings, arrays, objects). The client never inspects the payload.
