/** The client side of a persistent subscription: a duplex stream on which
    the server sends a confirmation and then events, and the consumer
    acknowledges (ack) or rejects (nack) them by id.

    The transport is abstract. `createGRPCStream()` has settled once and for
    all into a `StreamState`; what the subscription writes is the sequence
    `outbound`; what the server sends is fed in, response by response and
    error by error, through `Receive` and `OnStreamError`. */
module Subscription {
  import opened Wrappers

  // ---------------------------------------------------------------------
  // Values on the wire and at the API
  // ---------------------------------------------------------------------

  /** What the consumer asks the server to do with an event it rejects. */
  datatype PersistentAction = Park | Retry | Skip | Stop

  /** The action field of a Nack request. `ActionUnset` is the default a
      freshly made Nack message holds before its action is set. */
  datatype Action = ActionUnset | ActionPark | ActionRetry | ActionSkip | ActionStop

  /** A recorded event; only its id matters to this component. */
  datatype RecordedEvent = RecordedEvent(id: string)

  /** A delivered event: the event itself and, when it was reached through a
      link, the link event. Either may be absent. */
  datatype ResolvedEvent = ResolvedEvent(event: Option<RecordedEvent>, link: Option<RecordedEvent>)

  /** One argument of `ack` / `nack`: an id given as a string, or an event. */
  datatype EventRef = ById(id: string) | ByEvent(resolved: ResolvedEvent)

  /** A request written to the server. A request carries either an ack or a
      nack, never both. Ids are the strings passed to `createUUID`. */
  datatype ReadReq =
    | AckReq(ids: seq<string>)
    | NackReq(ids: seq<string>, action: Action, reason: string)

  /** The event part of a response, before `convertGrpcEvent`. */
  datatype WireEvent = WireEvent(event: Option<RecordedEvent>, link: Option<RecordedEvent>)

  /** A server response: it may hold a subscription confirmation, an event,
      or neither; the two are looked at independently. */
  datatype ReadResp = ReadResp(hasConfirmation: bool, event: Option<WireEvent>)

  /** What the subscription emits to its consumer, in emission order: the
      "confirmation" signal, or an event pushed downstream. */
  datatype Signal = Confirmation | Delivered(event: ResolvedEvent)

  /** An error reported by the transport on the open stream. */
  datatype ServiceError = ServiceError(code: int, details: string)

  /** The gRPC status code CANCELLED. */
  const CANCELLED: int := 1

  /** Errors the subscription emits or rejects a call with. */
  datatype SubscriptionError =
      /** `convertToCommandError(cause)` */
    | CommandError(cause: ServiceError)
      /** the rejection of `createGRPCStream()`, passed on unconverted */
    | StreamUnavailable(reason: string)
      /** "Attempted to ack an event with no id" */
    | MissingId

  /** How the promise for the duplex stream settled. */
  datatype StreamState = Opened | OpenFailed(reason: string)

  /** How a call's promise settles. */
  datatype Outcome = Resolved | Rejected(error: SubscriptionError)

  // ---------------------------------------------------------------------
  // Outbound: resolving ids and mapping actions
  // ---------------------------------------------------------------------

  /** The id `ack` and `nack` send for one argument, or None where they
      throw. A string is taken as it is; an event gives its link's id when it
      has a link (even an empty one: `??` only skips a missing link), else its
      own event's id. A missing id and the empty string are both refused. */
  function ResolveId(e: EventRef): (r: Option<string>)
    ensures r.Some? ==> r.value != ""
    ensures e.ById? ==> r == (if e.id == "" then None else Some(e.id))
    ensures e.ByEvent? && e.resolved.link.Some? ==>
              r == (if e.resolved.link.value.id == "" then None else Some(e.resolved.link.value.id))
    ensures e.ByEvent? && e.resolved.link.None? && e.resolved.event.Some? ==>
              r == (if e.resolved.event.value.id == "" then None else Some(e.resolved.event.value.id))
    ensures e.ByEvent? && e.resolved.link.None? && e.resolved.event.None? ==> r.None?
  {
    var raw :=
      match e
      case ById(s) => Some(s)
      case ByEvent(ResolvedEvent(event, link)) =>
        if link.Some? then Some(link.value.id)
        else if event.Some? then Some(event.value.id)
        else None;
    if raw.None? || raw.value == "" then None else raw
  }

  /** Every argument yields an id, so the call does not throw. */
  predicate AllResolve(events: seq<EventRef>)
  {
    forall i :: 0 <= i < |events| ==> ResolveId(events[i]).Some?
  }

  /** The ids of the arguments, one per argument and in call order. */
  function ResolvedIds(events: seq<EventRef>): seq<string>
    requires AllResolve(events)
  {
    seq(|events|, i requires 0 <= i < |events| => ResolveId(events[i]).value)
  }

  /** Ids given as non-empty strings are sent verbatim, in the given order. */
  lemma StringIdsVerbatim(ids: seq<string>)
    requires forall i :: 0 <= i < |ids| ==> ids[i] != ""
    ensures AllResolve(seq(|ids|, i requires 0 <= i < |ids| => ById(ids[i])))
    ensures ResolvedIds(seq(|ids|, i requires 0 <= i < |ids| => ById(ids[i]))) == ids
  {
  }

  /** The loop shared by `ack` and `nack`: resolve each argument in turn and
      add its id, stopping with `MissingId` at the first one without an id. */
  method CollectIds(events: seq<EventRef>) returns (r: Result<seq<string>, SubscriptionError>)
    ensures r.Success? <==> AllResolve(events)
    ensures r.Success? ==> r.value == ResolvedIds(events)
    ensures r.Failure? ==> r.error == MissingId
  {
    var ids: seq<string> := [];
    var i := 0;
    while i < |events|
      invariant 0 <= i <= |events|
      invariant |ids| == i
      invariant forall k :: 0 <= k < i ==> ResolveId(events[k]) == Some(ids[k])
    {
      var id := ResolveId(events[i]);
      if id.None? {
        return Failure(MissingId);
      }
      ids := ids + [id.value];
      i := i + 1;
    }
    r := Success(ids);
  }

  /** The `switch` of `nack`: each consumer action has its own protocol
      action, and none is left at the default. */
  function ToAction(a: PersistentAction): (r: Action)
    ensures r != ActionUnset
  {
    match a
    case Park => ActionPark
    case Retry => ActionRetry
    case Skip => ActionSkip
    case Stop => ActionStop
  }

  /** The mapping is one-to-one and reaches every protocol action except
      the default. */
  lemma ToActionBijective(a: PersistentAction, b: PersistentAction, r: Action)
    ensures ToAction(a) == ToAction(b) ==> a == b
    ensures r != ActionUnset ==> exists p :: ToAction(p) == r
  {
    match r
    case ActionUnset =>
    case ActionPark => assert ToAction(Park) == r;
    case ActionRetry => assert ToAction(Retry) == r;
    case ActionSkip => assert ToAction(Skip) == r;
    case ActionStop => assert ToAction(Stop) == r;
  }

  // ---------------------------------------------------------------------
  // Inbound: `_transform` and the error handler
  // ---------------------------------------------------------------------

  /** What `_transform` emits for one response: the confirmation signal when
      the response holds a confirmation, then the converted event when it
      holds one. `convert` stands for `convertGrpcEvent`. */
  function Transform(resp: ReadResp, convert: WireEvent -> ResolvedEvent): (out: seq<Signal>)
    ensures |out| == (if resp.hasConfirmation then 1 else 0) + (if resp.event.Some? then 1 else 0)
    ensures Confirmation in out <==> resp.hasConfirmation
    ensures resp.hasConfirmation ==> out[0] == Confirmation
    ensures resp.event.Some? ==> out[|out| - 1] == Delivered(convert(resp.event.value))
  {
    (if resp.hasConfirmation then [Confirmation] else [])
      + (if resp.event.Some? then [Delivered(convert(resp.event.value))] else [])
  }

  /** Everything emitted for a sequence of responses, handled one after the
      other in receipt order. */
  function TransformAll(resps: seq<ReadResp>, convert: WireEvent -> ResolvedEvent): seq<Signal>
  {
    if resps == [] then []
    else TransformAll(resps[..|resps| - 1], convert) + Transform(resps[|resps| - 1], convert)
  }

  /** The events among the emitted signals, in emission order: what a
      consumer reading the subscription as a stream of objects sees. */
  function Events(signals: seq<Signal>): seq<ResolvedEvent>
  {
    if signals == [] then []
    else (if signals[0].Delivered? then [signals[0].event] else []) + Events(signals[1..])
  }

  /** The number of confirmation signals. */
  function Confirmations(signals: seq<Signal>): nat
  {
    if signals == [] then 0
    else (if signals[0] == Confirmation then 1 else 0) + Confirmations(signals[1..])
  }

  /** Reference definition: the converted events of the event-bearing
      responses, in receipt order. */
  function DeliveredEvents(resps: seq<ReadResp>, convert: WireEvent -> ResolvedEvent): seq<ResolvedEvent>
  {
    if resps == [] then []
    else (if resps[0].event.Some? then [convert(resps[0].event.value)] else [])
           + DeliveredEvents(resps[1..], convert)
  }

  /** Reference definition: the number of responses holding a confirmation. */
  function ConfirmingResponses(resps: seq<ReadResp>): nat
  {
    if resps == [] then 0
    else (if resps[0].hasConfirmation then 1 else 0) + ConfirmingResponses(resps[1..])
  }

  lemma {:induction false} EventsAppend(a: seq<Signal>, b: seq<Signal>)
    ensures Events(a + b) == Events(a) + Events(b)
    ensures Confirmations(a + b) == Confirmations(a) + Confirmations(b)
  {
    if a != [] {
      assert (a + b)[1..] == a[1..] + b;
      EventsAppend(a[1..], b);
    } else {
      assert a + b == b;
    }
  }

  lemma {:induction false} DeliveredEventsSnoc(resps: seq<ReadResp>, last: ReadResp, convert: WireEvent -> ResolvedEvent)
    ensures DeliveredEvents(resps + [last], convert)
            == DeliveredEvents(resps, convert) + (if last.event.Some? then [convert(last.event.value)] else [])
    ensures ConfirmingResponses(resps + [last])
            == ConfirmingResponses(resps) + (if last.hasConfirmation then 1 else 0)
  {
    if resps == [] {
      assert [] + [last] == [last];
      assert [last][1..] == [];
    } else {
      assert (resps + [last])[1..] == resps[1..] + [last];
      DeliveredEventsSnoc(resps[1..], last, convert);
    }
  }

  /** Over any sequence of responses, the consumer receives exactly the
      converted events of the event-bearing responses, once each and in
      receipt order, and one confirmation signal per confirming response. */
  lemma {:induction false} TransformAllInOrder(resps: seq<ReadResp>, convert: WireEvent -> ResolvedEvent)
    ensures Events(TransformAll(resps, convert)) == DeliveredEvents(resps, convert)
    ensures Confirmations(TransformAll(resps, convert)) == ConfirmingResponses(resps)
  {
    if resps != [] {
      var init, last := resps[..|resps| - 1], resps[|resps| - 1];
      assert resps == init + [last];
      TransformAllInOrder(init, convert);
      EventsAppend(TransformAll(init, convert), Transform(last, convert));
      DeliveredEventsSnoc(init, last, convert);
      TransformEvents(last, convert);
    }
  }

  /** The signals of one response hold its converted event, if any, and
      one confirmation when it confirms. */
  lemma TransformEvents(resp: ReadResp, convert: WireEvent -> ResolvedEvent)
    ensures Events(Transform(resp, convert))
            == (if resp.event.Some? then [convert(resp.event.value)] else [])
    ensures Confirmations(Transform(resp, convert)) == (if resp.hasConfirmation then 1 else 0)
  {
    var c: seq<Signal> := if resp.hasConfirmation then [Confirmation] else [];
    var d: seq<Signal> := if resp.event.Some? then [Delivered(convert(resp.event.value))] else [];
    EventsAppend(c, d);
    if c != [] { assert c[1..] == []; }
    if d != [] { assert d[1..] == []; }
  }

  /** The stream's "error" handler: a CANCELLED error is swallowed, any
      other error is converted and emitted. */
  function OnError(err: ServiceError): (r: Option<SubscriptionError>)
    ensures r.None? <==> err.code == CANCELLED
    ensures r.Some? ==> r.value.CommandError? && r.value.cause == err
  {
    if err.code == CANCELLED then None else Some(CommandError(err))
  }

  /** Everything the handler emits for a sequence of stream errors. */
  function EmittedErrors(errs: seq<ServiceError>): seq<SubscriptionError>
  {
    if errs == [] then []
    else
      EmittedErrors(errs[..|errs| - 1])
        + (match OnError(errs[|errs| - 1]) case Some(e) => [e] case None => [])
  }

  /** Only converted errors are emitted, and each error that is not a
      cancellation is emitted exactly as often as it occurred; a
      cancellation is never emitted. */
  lemma {:induction false} EmittedErrorsExact(errs: seq<ServiceError>)
    ensures forall i :: 0 <= i < |EmittedErrors(errs)| ==>
              EmittedErrors(errs)[i].CommandError? && EmittedErrors(errs)[i].cause.code != CANCELLED
    ensures forall err: ServiceError :: err.code != CANCELLED ==>
              multiset(EmittedErrors(errs))[CommandError(err)] == multiset(errs)[err]
    ensures forall err: ServiceError :: err.code == CANCELLED ==>
              multiset(EmittedErrors(errs))[CommandError(err)] == 0
  {
    if errs != [] {
      var init, last := errs[..|errs| - 1], errs[|errs| - 1];
      assert errs == init + [last];
      EmittedErrorsExact(init);
    }
  }

  // ---------------------------------------------------------------------
  // The subscription object
  // ---------------------------------------------------------------------

  class TwoWaySubscription {
    /** How `createGRPCStream()` settled. */
    const stream: StreamState
    /** `convertGrpcEvent`. */
    const convert: WireEvent -> ResolvedEvent

    /** Requests written to the stream, oldest first. */
    var outbound: seq<ReadReq>
    /** Whether `cancel` has been issued on the stream. */
    var cancelled: bool
    /** Confirmation signals and events emitted to the consumer. */
    var signals: seq<Signal>
    /** Errors emitted to the consumer. */
    var errors: seq<SubscriptionError>

    /** Responses and stream errors received so far. */
    ghost var received: seq<ReadResp>
    ghost var streamErrors: seq<ServiceError>

    /** The emitted signals and errors are exactly what the handlers make of
        what has been received; without a stream nothing is received, nothing
        is written or cancelled, and the one error emitted is the failure to
        obtain it. */
    ghost predicate Valid()
      reads this
    {
      signals == TransformAll(received, convert)
      && (stream.Opened? ==> errors == EmittedErrors(streamErrors))
      && (stream.OpenFailed? ==>
            received == [] && streamErrors == [] && errors == [StreamUnavailable(stream.reason)]
            && outbound == [] && !cancelled)
    }

    /** The constructor together with `initialize`: when the stream cannot
        be obtained, that failure is emitted as an error, unconverted. */
    constructor (stream: StreamState, convert: WireEvent -> ResolvedEvent)
      ensures Valid()
      ensures this.stream == stream && this.convert == convert
      ensures outbound == [] && !cancelled && signals == [] && received == [] && streamErrors == []
      ensures errors == (if stream.OpenFailed? then [StreamUnavailable(stream.reason)] else [])
    {
      this.stream := stream;
      this.convert := convert;
      outbound := [];
      cancelled := false;
      signals := [];
      received := [];
      streamErrors := [];
      errors := if stream.OpenFailed? then [StreamUnavailable(stream.reason)] else [];
    }

    /** `_transform`, called by the pipe for each response. */
    method Receive(resp: ReadResp)
      requires Valid() && stream.Opened?
      modifies this`signals, this`received
      ensures Valid()
      ensures received == old(received) + [resp]
      ensures signals == old(signals) + Transform(resp, convert)
    {
      assert (received + [resp])[..|received|] == received;
      received := received + [resp];
      signals := signals + Transform(resp, convert);
    }

    /** The "error" handler installed by `initialize` on the stream. */
    method OnStreamError(err: ServiceError)
      requires Valid() && stream.Opened?
      modifies this`errors, this`streamErrors
      ensures Valid()
      ensures streamErrors == old(streamErrors) + [err]
      ensures errors == old(errors) + (if err.code == CANCELLED then [] else [CommandError(err)])
    {
      assert (streamErrors + [err])[..|streamErrors|] == streamErrors;
      streamErrors := streamErrors + [err];
      if err.code != CANCELLED {
        errors := errors + [CommandError(err)];
      }
    }

    /** `ack`: all ids are collected before anything is written, so an
        argument without an id rejects the call and writes nothing; then the
        stream is awaited, and one ack request holding the ids in call order
        is appended to what was written before. */
    method Ack(events: seq<EventRef>) returns (r: Outcome)
      requires Valid()
      modifies this`outbound
      ensures Valid()
      ensures !AllResolve(events) ==> r == Rejected(MissingId) && outbound == old(outbound)
      ensures AllResolve(events) && stream.OpenFailed? ==>
                r == Rejected(StreamUnavailable(stream.reason)) && outbound == old(outbound)
      ensures AllResolve(events) && stream.Opened? ==>
                r == Resolved && outbound == old(outbound) + [AckReq(ResolvedIds(events))]
    {
      var ids := CollectIds(events);
      if ids.Failure? {
        return Rejected(ids.error);
      }
      var req := AckReq(ids.value);
      if stream.OpenFailed? {
        return Rejected(StreamUnavailable(stream.reason));
      }
      outbound := outbound + [req];
      r := Resolved;
    }

    /** `nack`: like `ack`, with the action mapped one-to-one to its protocol
        value and the reason passed through unchanged. */
    method Nack(action: PersistentAction, reason: string, events: seq<EventRef>) returns (r: Outcome)
      requires Valid()
      modifies this`outbound
      ensures Valid()
      ensures !AllResolve(events) ==> r == Rejected(MissingId) && outbound == old(outbound)
      ensures AllResolve(events) && stream.OpenFailed? ==>
                r == Rejected(StreamUnavailable(stream.reason)) && outbound == old(outbound)
      ensures AllResolve(events) && stream.Opened? ==>
                r == Resolved
                && outbound == old(outbound) + [NackReq(ResolvedIds(events), ToAction(action), reason)]
    {
      var protocolAction := ToAction(action);
      var ids := CollectIds(events);
      if ids.Failure? {
        return Rejected(ids.error);
      }
      var req := NackReq(ids.value, protocolAction, reason);
      if stream.OpenFailed? {
        return Rejected(StreamUnavailable(stream.reason));
      }
      outbound := outbound + [req];
      r := Resolved;
    }

    /** `unsubscribe`: once the stream is obtained, cancel it and resolve;
        the call can be repeated. Awaiting a stream that could not be
        obtained rejects with that failure, and nothing is cancelled. */
    method Unsubscribe() returns (r: Outcome)
      requires Valid()
      modifies this`cancelled
      ensures Valid()
      ensures stream.Opened? ==> r == Resolved && cancelled
      ensures stream.OpenFailed? ==>
                r == Rejected(StreamUnavailable(stream.reason)) && cancelled == old(cancelled)
    {
      if stream.OpenFailed? {
        return Rejected(StreamUnavailable(stream.reason));
      }
      cancelled := true;
      r := Resolved;
    }
  }

  /** A consumer's session, inbound: the server confirms and sends three
      events; the three events are emitted once each and in order after the
      confirmation. */
  method ConfirmThenThreeEvents(convert: WireEvent -> ResolvedEvent, w1: WireEvent, w2: WireEvent, w3: WireEvent)
    returns (signals: seq<Signal>)
    ensures signals == [Confirmation, Delivered(convert(w1)), Delivered(convert(w2)), Delivered(convert(w3))]
  {
    var sub := new TwoWaySubscription(Opened, convert);
    sub.Receive(ReadResp(true, None));
    assert sub.signals == [Confirmation];
    sub.Receive(ReadResp(false, Some(w1)));
    assert sub.signals == [Confirmation, Delivered(convert(w1))];
    sub.Receive(ReadResp(false, Some(w2)));
    assert sub.signals == [Confirmation, Delivered(convert(w1)), Delivered(convert(w2))];
    sub.Receive(ReadResp(false, Some(w3)));
    signals := sub.signals;
  }

  /** A consumer's session, outbound: the consumer acks the first and the
      third event in one call and asks for the second to be retried; the
      stream receives one ack for both ids followed by one nack. */
  method AckTwoThenRetryOne(convert: WireEvent -> ResolvedEvent, id1: string, id2: string, id3: string, reason: string)
    returns (outbound: seq<ReadReq>)
    requires id1 != "" && id2 != "" && id3 != ""
    ensures outbound == [AckReq([id1, id3]), NackReq([id2], ActionRetry, reason)]
  {
    var sub := new TwoWaySubscription(Opened, convert);
    var acked := [ById(id1), ById(id3)];
    assert ResolveId(acked[0]) == Some(id1) && ResolveId(acked[1]) == Some(id3);
    assert ResolvedIds(acked) == [id1, id3];
    var r1 := sub.Ack(acked);
    var nacked := [ById(id2)];
    assert ResolveId(nacked[0]) == Some(id2);
    assert ResolvedIds(nacked) == [id2];
    var r2 := sub.Nack(Retry, reason, nacked);
    outbound := sub.outbound;
  }
}
