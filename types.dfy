/** Value types of the client: the tagged unions that address revisions,
    read directions and positions, the event payloads, and the builder that
    produces the events an append sends. Every TypeScript union is
    discriminated by its `__typename` field; here each union is a datatype
    and `TypeName()` gives back the tag the TypeScript object carries. */
module Types {
  import opened Wrappers

  /** The revision an append expects the target stream to be at. */
  datatype IRevision = Any | StreamExists | NoStream | ExactRevision(revision: int)
  {
    function TypeName(): string
    {
      match this
      case Any => "any"
      case StreamExists => "stream_exists"
      case NoStream => "no_stream"
      case ExactRevision(_) => "exact"
    }
  }

  /** `Revision.exact`: the one expected revision that carries a number. */
  function Exact(revision: int): (r: IRevision)
    ensures r.TypeName() == "exact" && r.revision == revision
  {
    ExactRevision(revision)
  }

  /** The tag decides the variant: two revisions share a tag exactly when
      they are the same payload-free constant or both are exact revisions. */
  lemma RevisionTagDiscriminates(a: IRevision, b: IRevision)
    ensures a.TypeName() == b.TypeName() <==> a == b || (a.ExactRevision? && b.ExactRevision?)
    ensures a.ExactRevision? <==> a.TypeName() == "exact"
  {
  }

  /** An event body: a JSON document or raw bytes. */
  datatype Payload = JsonPayload(json: JsonValue) | BinaryPayload(bytes: seq<Byte>)
  {
    function TypeName(): string
    {
      match this
      case JsonPayload(_) => "json"
      case BinaryPayload(_) => "binary"
    }
  }

  /** One element of a `Uint8Array`. */
  newtype Byte = x: int | 0 <= x < 256

  /** A JSON document: the payload of a json event is never inspected by
      the client, so any document may stand here. */
  datatype JsonValue =
    | JsonNull
    | JsonBool(b: bool)
    | JsonNumber(n: real)
    | JsonString(s: string)
    | JsonArray(items: seq<JsonValue>)
    | JsonObject(members: seq<(string, JsonValue)>)

  /** The direction of a read. `Forward` and `ReadDirection.Forward` (and
      likewise `Backward`) are the same value. */
  datatype Direction = Forward | Backward
  {
    function TypeName(): string
    {
      match this
      case Forward => "forward"
      case Backward => "backward"
    }
  }

  /** Where a read of one stream starts. The constructor `StreamExact`
      stands for the TypeScript function of that name. */
  datatype StreamRevision = StreamStart | StreamEnd | StreamExact(revision: int)
  {
    function TypeName(): string
    {
      match this
      case StreamStart => "start"
      case StreamEnd => "end"
      case StreamExact(_) => "exact"
    }
  }

  /** A position in the global log. */
  datatype Position = Position(commit: int, prepare: int)

  /** Where a read of the whole log starts. The constructor stands for the
      TypeScript function `StreamPosition`. */
  datatype StreamPosition = StreamPosition(position: Position)
  {
    function TypeName(): string
    {
      "position"
    }
  }

  /** `StreamExact(n)` and `StreamPosition(pos)` carry their argument
      unchanged under their tag, and the tags of the three stream revisions
      tell them apart. */
  lemma StreamConstructorsCarry(n: int, pos: Position, s: StreamRevision)
    ensures StreamExact(n).TypeName() == "exact" && StreamExact(n).revision == n
    ensures StreamPosition(pos).TypeName() == "position" && StreamPosition(pos).position == pos
    ensures s.StreamExact? <==> s.TypeName() == "exact"
    ensures s == StreamStart <==> s.TypeName() == "start"
    ensures s == StreamEnd <==> s.TypeName() == "end"
  {
  }

  /** An event ready to be appended. Its fields are set once, by the
      constructor. */
  class EventData {
    const eventType: string
    const payload: Payload
    const id: string

    constructor (eventType: string, payload: Payload, id: string)
      ensures this.eventType == eventType && this.payload == payload && this.id == id
    {
      this.eventType := eventType;
      this.payload := payload;
      this.id := id;
    }

    /** `EventData.json`: the same builder `EventDataBuilder.json` makes. */
    static method Json(eventType: string, obj: JsonValue) returns (b: EventDataBuilder)
      ensures fresh(b)
      ensures b.eventType == eventType && b.payload == JsonPayload(obj) && b.id == None
    {
      b := EventDataBuilder.Json(eventType, obj);
    }

    /** `EventData.binary`: the same builder `EventDataBuilder.binary` makes. */
    static method Binary(eventType: string, buffer: seq<Byte>) returns (b: EventDataBuilder)
      ensures fresh(b)
      ensures b.eventType == eventType && b.payload == BinaryPayload(buffer) && b.id == None
    {
      b := EventDataBuilder.Binary(eventType, buffer);
    }
  }

  /** Collects the parts of an event; the id is optional until `Build`. */
  class EventDataBuilder {
    var eventType: string
    var payload: Payload
    var id: Option<string>

    /** Private in TypeScript: only the two factories below call it. */
    constructor (eventType: string, payload: Payload, id: Option<string>)
      ensures this.eventType == eventType && this.payload == payload && this.id == id
    {
      this.eventType := eventType;
      this.payload := payload;
      this.id := id;
    }

    /** A builder for a json event, with no id yet. */
    static method Json(eventType: string, obj: JsonValue) returns (b: EventDataBuilder)
      ensures fresh(b)
      ensures b.eventType == eventType && b.payload == JsonPayload(obj) && b.id == None
    {
      b := new EventDataBuilder(eventType, JsonPayload(obj), None);
    }

    /** A builder for a binary event, with no id yet. */
    static method Binary(eventType: string, buffer: seq<Byte>) returns (b: EventDataBuilder)
      ensures fresh(b)
      ensures b.eventType == eventType && b.payload == BinaryPayload(buffer) && b.id == None
    {
      b := new EventDataBuilder(eventType, BinaryPayload(buffer), None);
    }

    /** Sets the id in place and returns the builder itself, so that calls
        chain; event type and payload are untouched. */
    method EventId(newId: string) returns (self: EventDataBuilder)
      modifies this`id
      ensures self == this
      ensures id == Some(newId)
      ensures eventType == old(eventType) && payload == old(payload)
    {
      id := Some(newId);
      self := this;
    }

    /** The event described so far. `freshId` stands for the random UUID
        drawn when no id was set; a set id is used even when it is empty. */
    method Build(freshId: string) returns (e: EventData)
      ensures e.eventType == eventType && e.payload == payload
      ensures id.Some? ==> e.id == id.value
      ensures id.None? ==> e.id == freshId
    {
      var chosen := if id != None then id.value else freshId;
      e := new EventData(eventType, payload, chosen);
    }
  }

  /** The usual chain `EventData.json(t, obj).eventId(a).eventId(b).build()`:
      the last id given wins, whatever UUID would have been drawn, and type
      and payload reach the event unchanged. */
  method BuildWithLastId(eventType: string, obj: JsonValue, first: string, last: string, freshId: string)
    returns (e: EventData)
    ensures e.id == last
    ensures e.eventType == eventType && e.payload == JsonPayload(obj)
  {
    var b := EventData.Json(eventType, obj);
    b := b.EventId(first);
    b := b.EventId(last);
    e := b.Build(freshId);
  }
}
