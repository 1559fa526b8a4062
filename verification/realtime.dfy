/** The realtime caller factory (packages/ably-builder/builder/realtime.ts):
    channel objects with name computation, channel lookup, subscription and a
    dispatcher, and per-event parse/publish/subscribe. */
module Realtime {
  import opened Wrappers
  import opened Text
  import opened Ably
  import opened Builder

  /** A realtime event object: the descriptor's `parse`, and `publish` and
      `useChannel` bound to the event's name (see Publish and UseEventChannel). */
  datatype RealtimeEvent = RealtimeEvent(name: string, parse: Message -> Result<Value, ZodError>)

  /** The object `buildRealtimeChannel` returns for the channel `key`. */
  datatype RealtimeChannel<!A> = RealtimeChannel(key: string, builder: ChannelBuilder<A>, events: map<string, RealtimeEvent>)

  /** `{ enabled?: boolean }` */
  datatype ConnectParams = ConnectParams(enabled: Option<bool>)

  /** The listener a subscription hands to the provider: the channel-wide
      dispatcher, or the wrapper of one event's `useChannel`. */
  datatype Listener =
    | Dispatcher(events: map<string, EventBuilder>)
    | EventListener(parse: Message -> Result<Value, ZodError>)

  /** What a listener does with one raw message: logs and drops it, calls the
      application callback once with `msg`, or throws the validator's error. */
  datatype Delivery = Dropped(log: string) | Delivered(msg: Message) | Threw(error: ZodError)

  /** A member of a channel object, as property access finds it. */
  datatype Member = ChannelNameFn | GetFn | UseChannelFn | UseCallbackFn | EventObject(event: RealtimeEvent)

  function BuildRealtimeChannel<A>(channel: ChannelBuilder<A>, key: string): RealtimeChannel<A>
  {
    RealtimeChannel(key, channel, map n | n in channel.events :: RealtimeEvent(n, channel.events[n].parse))
  }

  /** `realtime(ably, schema)` */
  function Caller<A>(schema: Schema<A>): (caller: map<string, RealtimeChannel<A>>)
    ensures caller.Keys == schema.Keys
    ensures forall k :: k in caller ==>
      caller[k].key == k && caller[k].builder == schema[k] && caller[k].events.Keys == schema[k].events.Keys
    ensures forall k, n :: k in caller && n in caller[k].events ==>
      caller[k].events[n].name == n && caller[k].events[n].parse == schema[k].events[n].parse
  {
    map k | k in schema :: BuildRealtimeChannel(schema[k], k)
  }

  /** A member of a realtime event object: its `parse`, and `publish` and
      `useChannel` bound to the event's name. */
  datatype EventMember =
    | ParseMember(parse: Message -> Result<Value, ZodError>)
    | PublishMember(name: string)
    | UseChannelMember(name: string)

  /** Property access on a realtime event object. */
  function EventLookup(e: RealtimeEvent, member: string): (m: Option<EventMember>)
    ensures m.Some? <==> member == "parse" || member == "publish" || member == "useChannel"
    ensures member == "parse" ==> m == Some(ParseMember(e.parse))
    ensures member == "publish" ==> m == Some(PublishMember(e.name))
    ensures member == "useChannel" ==> m == Some(UseChannelMember(e.name))
  {
    if member == "parse" then Some(ParseMember(e.parse))
    else if member == "publish" then Some(PublishMember(e.name))
    else if member == "useChannel" then Some(UseChannelMember(e.name))
    else None
  }

  /** The property names of a channel object. */
  function Members<A>(c: RealtimeChannel<A>): set<string>
  {
    RealtimeChannelBuiltins + c.events.Keys
  }

  /** Property access on a channel object: events are spread after the
      built-ins, so an event wins over a built-in of the same name. */
  function Lookup<A>(c: RealtimeChannel<A>, member: string): (m: Option<Member>)
    ensures m.Some? <==> member in Members(c)
    ensures member in c.events ==> m == Some(EventObject(c.events[member]))
    ensures m.Some? && m.value.EventObject? ==> member in c.events
  {
    if member in c.events then Some(EventObject(c.events[member]))
    else if member == "channelName" then Some(ChannelNameFn)
    else if member == "get" then Some(GetFn)
    else if member == "useChannel" then Some(UseChannelFn)
    else if member == "useCallback" then Some(UseCallbackFn)
    else None
  }

  /** The built-in `channelName(args)`: the key and the addressing segments,
      in order, joined with ":". */
  function ChannelName<A>(c: RealtimeChannel<A>, args: A): (name: string)
    ensures c.key <= name
    ensures c.builder.data(args) == [] ==> name == c.key
    ensures c.builder.data(args) != [] ==> |name| > |c.key| && name[|c.key|] == ':'
  {
    var segments := c.builder.data(args);
    assert segments != [] ==> Join([c.key] + segments, ":") == c.key + ":" + Join(segments, ":") by {
      if segments != [] {
        JoinCons(c.key, segments, ":");
      }
    }
    Join([c.key] + segments, ":")
  }

  /** The channel name is the key alone, or the key, a colon and the joined segments. */
  lemma ChannelNameShape<A>(c: RealtimeChannel<A>, args: A)
    ensures var segments := c.builder.data(args);
      ChannelName(c, args) == if segments == [] then c.key else c.key + ":" + Join(segments, ":")
  {
    var segments := c.builder.data(args);
    if segments != [] {
      JoinCons(c.key, segments, ":");
    }
  }

  /** `c.get(args)`: the provider's handle for `channelName(args)`. */
  method Get<A>(client: RealtimeClient<Listener>, c: RealtimeChannel<A>, args: A)
    returns (r: Result<ChannelHandle, Failure>)
    modifies client`channels
    ensures GetFailure(c.events.Keys).Some? ==>
      r == Err(GetFailure(c.events.Keys).value) && client.channels == old(client.channels)
    ensures GetFailure(c.events.Keys).None? ==>
      r == Ok(ChannelHandle(ChannelName(c, args))) && client.channels == old(client.channels) + {ChannelName(c, args)}
  {
    var failure := GetFailure(c.events.Keys);
    if failure.Some? {
      return Err(failure.value);
    }
    var h := client.Get(ChannelName(c, args));
    r := Ok(h);
  }

  /** `c[event].publish(args, data)`: publishes `data`, unchanged, under the
      event's name on `c.get(args)`. */
  method Publish<A>(client: RealtimeClient<Listener>, c: RealtimeChannel<A>, event: string, args: A, data: Value)
    returns (r: Outcome<Failure>)
    requires event in c.events
    modifies client`channels, client`published
    ensures GetFailure(c.events.Keys).Some? ==>
      && r == Fail(GetFailure(c.events.Keys).value)
      && client.channels == old(client.channels) && client.published == old(client.published)
    ensures GetFailure(c.events.Keys).None? ==>
      && client.channels == old(client.channels) + {ChannelName(c, args)}
      && r == (if client.failure.None? then Pass else Fail(Rejected(client.failure.value)))
      && client.published == if r.Pass?
                             then old(client.published) + [Publication(ChannelName(c, args), c.events[event].name, data)]
                             else old(client.published)
  {
    var h := Get(client, c, args);
    if h.Err? {
      return Fail(h.error);
    }
    var sent := client.Publish(h.value, c.events[event].name, data);
    r := if sent.Pass? then Pass else Fail(Rejected(sent.error));
  }

  /** `c.useChannel(args, params, callback)`, mounted once: gets the channel
      named `channelName(args)` and, unless disabled, subscribes the
      dispatcher to all of its messages. */
  method UseChannel<A>(client: RealtimeClient<Listener>, c: RealtimeChannel<A>, args: A, params: ConnectParams)
    returns (r: Result<ChannelHandle, Failure>)
    modifies client`channels, client`subscriptions
    ensures r == if "useChannel" in c.events then Err(NotAFunction("useChannel"))
                 else if "channelName" in c.events then Err(NotAFunction("channelName"))
                 else if "useCallback" in c.events then Err(NotAFunction("useCallback"))
                 else Ok(ChannelHandle(ChannelName(c, args)))
    ensures r.Err? ==> client.channels == old(client.channels) && client.subscriptions == old(client.subscriptions)
    ensures r.Ok? ==>
      && client.channels == old(client.channels) + {ChannelName(c, args)}
      && client.subscriptions == old(client.subscriptions) +
           if params.enabled.GetOr(true) then [Subscription(ChannelName(c, args), None, Dispatcher(c.builder.events))] else []
  {
    if "useChannel" in c.events {
      return Err(NotAFunction("useChannel"));
    } else if "channelName" in c.events {
      return Err(NotAFunction("channelName"));
    } else if "useCallback" in c.events {
      return Err(NotAFunction("useCallback"));
    }
    var h := client.Get(ChannelName(c, args));
    if params.enabled.GetOr(true) {
      client.Subscribe(h, None, Dispatcher(c.builder.events));
    }
    r := Ok(h);
  }

  /** `c[event].useChannel(args, params, callback)`, mounted once: like the
      channel's, but filtered to the one event name and parsing with that
      event's descriptor. */
  method UseEventChannel<A>(client: RealtimeClient<Listener>, c: RealtimeChannel<A>, event: string, args: A, params: ConnectParams)
    returns (r: Result<ChannelHandle, Failure>)
    requires event in c.events
    modifies client`channels, client`subscriptions
    ensures r == if "channelName" in c.events then Err(NotAFunction("channelName")) else Ok(ChannelHandle(ChannelName(c, args)))
    ensures r.Err? ==> client.channels == old(client.channels) && client.subscriptions == old(client.subscriptions)
    ensures r.Ok? ==>
      && client.channels == old(client.channels) + {ChannelName(c, args)}
      && client.subscriptions == old(client.subscriptions) +
           if params.enabled.GetOr(true)
           then [Subscription(ChannelName(c, args), Some([c.events[event].name]), EventListener(c.events[event].parse))]
           else []
  {
    if "channelName" in c.events {
      return Err(NotAFunction("channelName"));
    }
    var h := client.Get(ChannelName(c, args));
    if params.enabled.GetOr(true) {
      client.Subscribe(h, Some([c.events[event].name]), EventListener(c.events[event].parse));
    }
    r := Ok(h);
  }

  /** The log line for an undeclared event (spelling as in the source). */
  function UnknownEventLog(name: string): string
  {
    "Unkown event: " + name
  }

  /** The dispatcher `c.useCallback(callback)` builds, applied to one raw message. */
  function Dispatch(events: map<string, EventBuilder>, raw: Message): (d: Delivery)
    ensures d.Dropped? <==> raw.name !in events
    ensures d.Dropped? ==> d.log == UnknownEventLog(raw.name)
    ensures d.Delivered? ==>
      raw.name in events && d.msg.name == raw.name && d.msg.meta == raw.meta
      && events[raw.name].parse(raw) == Ok(d.msg.data)
    ensures d.Threw? ==> raw.name in events && events[raw.name].parse(raw) == Err(d.error)
  {
    if raw.name !in events then Dropped(UnknownEventLog(raw.name))
    else match events[raw.name].parse(raw)
      case Ok(v) => Delivered(raw.(data := v))
      case Err(e) => Threw(e)
  }

  /** A listener applied to one raw message. */
  function Listen(l: Listener, raw: Message): (d: Delivery)
    ensures d.Dropped? ==> l.Dispatcher? && raw.name !in l.events
    ensures d.Delivered? ==> d.msg.name == raw.name && d.msg.meta == raw.meta
    ensures l.EventListener? ==>
      (d.Delivered? <==> l.parse(raw).Ok?) && (d.Delivered? ==> d.msg.data == l.parse(raw).value)
  {
    match l
    case Dispatcher(events) => Dispatch(events, raw)
    case EventListener(parse) =>
      match parse(raw)
      case Ok(v) => Delivered(raw.(data := v))
      case Err(e) => Threw(e)
  }

  /** What a subscription does with a message published on `channel`: nothing
      when the provider does not route it there, else its listener's outcome. */
  function Receive(s: Subscription<Listener>, channel: string, raw: Message): (d: Option<Delivery>)
    ensures d.Some? <==> Matches(s, channel, raw)
  {
    if Matches(s, channel, raw) then Some(Listen(s.listener, raw)) else None
  }

  /** The messages the application callback receives, in order, for a stream
      of raw messages (a throwing parse skips that message only). With
      CallbacksOne and CallbacksAppend this pins the sequence down: each
      delivered message reaches the callback once, in stream order. */
  function Callbacks(l: Listener, raws: seq<Message>): (cbs: seq<Message>)
    ensures |cbs| <= |raws|
    ensures forall j :: 0 <= j < |cbs| ==> exists i :: 0 <= i < |raws| && Listen(l, raws[i]) == Delivered(cbs[j])
    decreases |raws|
  {
    if |raws| == 0 then []
    else
      var rest := Callbacks(l, raws[1..]);
      assert forall j :: 0 <= j < |rest| ==> exists i :: 0 <= i < |raws| && Listen(l, raws[i]) == Delivered(rest[j]) by {
        forall j | 0 <= j < |rest| ensures exists i :: 0 <= i < |raws| && Listen(l, raws[i]) == Delivered(rest[j]) {
          var i :| 0 <= i < |raws[1..]| && Listen(l, raws[1..][i]) == Delivered(rest[j]);
          assert raws[1..][i] == raws[i + 1];
        }
      }
      match Listen(l, raws[0])
      case Delivered(m) => [m] + rest
      case _ => rest
  }

  /** One raw message reaches the callback exactly when its listener
      delivers it, and then once. */
  lemma CallbacksOne(l: Listener, raw: Message)
    ensures Callbacks(l, [raw]) == if Listen(l, raw).Delivered? then [Listen(l, raw).msg] else []
  {
    assert [raw][1..] == [];
  }

  /** The callbacks of two consecutive streams are those of the first, then
      those of the second. */
  lemma {:induction false} CallbacksAppend(l: Listener, a: seq<Message>, b: seq<Message>)
    ensures Callbacks(l, a + b) == Callbacks(l, a) + Callbacks(l, b)
    decreases |a|
  {
    if |a| == 0 {
      assert a + b == b;
    } else {
      assert (a + b)[1..] == a[1..] + b;
      assert (a + b)[0] == a[0];
      CallbacksAppend(l, a[1..], b);
    }
  }

  /** The dispatcher never hands the callback an undeclared event: every
      message it delivers names a declared event, keeps a raw message's name
      and envelope, and carries that event's parse of it. */
  lemma DispatcherDeliversOnlyDeclared(events: map<string, EventBuilder>, raws: seq<Message>)
    ensures forall m :: m in Callbacks(Dispatcher(events), raws) ==>
      m.name in events &&
      exists i :: 0 <= i < |raws| && raws[i].name == m.name && raws[i].meta == m.meta && events[m.name].parse(raws[i]) == Ok(m.data)
  {
    var cbs := Callbacks(Dispatcher(events), raws);
    forall m | m in cbs
      ensures m.name in events
      ensures exists i :: 0 <= i < |raws| && raws[i].name == m.name && raws[i].meta == m.meta && events[m.name].parse(raws[i]) == Ok(m.data)
    {
      var j :| 0 <= j < |cbs| && cbs[j] == m;
      var i :| 0 <= i < |raws| && Listen(Dispatcher(events), raws[i]) == Delivered(cbs[j]);
    }
  }

  /** A per-event subscription only ever fires for its own event, and hands the
      callback the raw message with its data replaced by the event's parse. */
  lemma EventSubscriptionDeliversOwnEvent(channel: string, name: string,
                                          parse: Message -> Result<Value, ZodError>, at: string, raw: Message)
    requires Receive(Subscription(channel, Some([name]), EventListener(parse)), at, raw).Some?
    ensures at == channel && raw.name == name
    ensures parse(raw).Ok? ==>
      Receive(Subscription(channel, Some([name]), EventListener(parse)), at, raw) == Some(Delivered(raw.(data := parse(raw).value)))
  {
  }

  /** A raw message naming an event the channel does not declare reaches no
      callback, and produces only the log line, for every such name. */
  lemma UnknownEventScenario(events: map<string, EventBuilder>, raw: Message)
    requires raw.name !in events
    ensures Listen(Dispatcher(events), raw) == Dropped("Unkown event: " + raw.name)
    ensures Callbacks(Dispatcher(events), [raw]) == []
  {
    CallbacksOne(Dispatcher(events), raw);
  }
}
