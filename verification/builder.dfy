/** The declarative side of the typed pub/sub builder: event descriptors,
    channel descriptors and schemas (packages/ably-builder/builder/index.ts). */
module Builder {
  import opened Wrappers
  import opened Ably

  /** The error a validator throws on a payload that does not conform. */
  datatype ZodError = ZodError(message: string)

  /** A validator's `parse`: the validated value, or the error it throws. */
  type Validator = Value -> Result<Value, ZodError>

  /** `EventBuilder<T>`: how a raw provider message becomes an event's data. */
  datatype EventBuilder = EventBuilder(parse: Message -> Result<Value, ZodError>)

  /** `ChannelBuilder<Args, Events>`: the addressing function turning call
      arguments into name segments, and the declared events by name. */
  datatype ChannelBuilder<!A> = ChannelBuilder(data: A -> seq<string>, events: map<string, EventBuilder>)

  /** `Schema`: channel descriptors by channel key. */
  type Schema<!A> = map<string, ChannelBuilder<A>>

  /** What a caller operation can fail with: a TypeError from calling a member
      that is not a function, or the provider's rejection of a publish. */
  datatype Failure = NotAFunction(member: string) | Rejected(info: ErrorInfo)

  /** What calling `c.get(args)` throws on a channel object whose events are
      named `events`: an event named `get` or `channelName` replaces that
      built-in (events are spread last), and calling it, directly or as
      `this.channelName` inside `get`, is calling a non-function. */
  function GetFailure(events: set<string>): (f: Option<Failure>)
    ensures f.None? <==> "get" !in events && "channelName" !in events
    ensures "get" in events ==> f == Some(NotAFunction("get"))
    ensures "get" !in events && "channelName" in events ==> f == Some(NotAFunction("channelName"))
  {
    if "get" in events then Some(NotAFunction("get"))
    else if "channelName" in events then Some(NotAFunction("channelName"))
    else None
  }

  /** `a.channel(data, events)` */
  function Channel<A>(data: A -> seq<string>, events: map<string, EventBuilder>): (c: ChannelBuilder<A>)
    ensures c.data == data && c.events == events
  {
    ChannelBuilder(data, events)
  }

  /** `a.event(schema)` */
  function Event(schema: Validator): (e: EventBuilder)
    ensures forall raw :: e.parse(raw) == schema(raw.data)
  {
    EventBuilder((raw: Message) => schema(raw.data))
  }

  /** An event's parse looks at the payload only: two messages that carry the
      same data parse alike, whatever their names and envelopes. */
  lemma EventParseReadsOnlyData(schema: Validator, m1: Message, m2: Message)
    requires m1.data == m2.data
    ensures Event(schema).parse(m1) == Event(schema).parse(m2)
  {
  }

  /** A validator failure surfaces unchanged from the event's parse. */
  lemma EventParsePropagatesFailure(schema: Validator, raw: Message)
    requires schema(raw.data).Err?
    ensures Event(schema).parse(raw) == Err(schema(raw.data).error)
  {
  }

  /** Built-in members of a realtime channel object and of a REST channel object. */
  const RealtimeChannelBuiltins: set<string> := {"useChannel", "useCallback", "channelName", "get"}
  const RestChannelBuiltins: set<string> := {"channelName", "get"}
}
