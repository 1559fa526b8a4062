/** The REST caller factory (packages/ably-builder/builder/rest.ts): the
    publish-only surface over a one-shot provider connection. */
module Rest {
  import opened Wrappers
  import opened Text
  import opened Ably
  import opened Builder

  /** A REST event object: the descriptor's own `parse`, and `publish` bound
      to the event's name (see Publish). */
  datatype RestEvent = RestEvent(name: string, parse: Message -> Result<Value, ZodError>)

  /** The object `buildRestChannel` returns for the channel `key`. */
  datatype RestChannel<!A> = RestChannel(key: string, builder: ChannelBuilder<A>, events: map<string, RestEvent>)

  /** A member of a REST channel object, as property access finds it. */
  datatype Member = ChannelNameFn | GetFn | EventObject(event: RestEvent)

  function BuildRestChannel<A>(channel: ChannelBuilder<A>, key: string): RestChannel<A>
  {
    RestChannel(key, channel, map n | n in channel.events :: RestEvent(n, channel.events[n].parse))
  }

  /** `rest(ably, schema)` */
  function Caller<A>(schema: Schema<A>): (caller: map<string, RestChannel<A>>)
    ensures caller.Keys == schema.Keys
    ensures forall k :: k in caller ==>
      caller[k].key == k && caller[k].builder == schema[k] && caller[k].events.Keys == schema[k].events.Keys
    ensures forall k, n :: k in caller && n in caller[k].events ==>
      caller[k].events[n].name == n && caller[k].events[n].parse == schema[k].events[n].parse
  {
    map k | k in schema :: BuildRestChannel(schema[k], k)
  }

  /** A member of a REST event object: its `parse`, and `publish` bound to
      the event's name. */
  datatype EventMember =
    | ParseMember(parse: Message -> Result<Value, ZodError>)
    | PublishMember(name: string)

  /** Property access on a REST event object. */
  function EventLookup(e: RestEvent, member: string): (m: Option<EventMember>)
    ensures m.Some? <==> member == "parse" || member == "publish"
    ensures member == "parse" ==> m == Some(ParseMember(e.parse))
    ensures member == "publish" ==> m == Some(PublishMember(e.name))
  {
    if member == "parse" then Some(ParseMember(e.parse))
    else if member == "publish" then Some(PublishMember(e.name))
    else None
  }

  /** The property names of a REST channel object: no subscription members. */
  function Members<A>(c: RestChannel<A>): set<string>
  {
    RestChannelBuiltins + c.events.Keys
  }

  /** Property access on a REST channel object; events win over built-ins. */
  function Lookup<A>(c: RestChannel<A>, member: string): (m: Option<Member>)
    ensures m.Some? <==> member in Members(c)
    ensures member in c.events ==> m == Some(EventObject(c.events[member]))
    ensures m.Some? && m.value.EventObject? ==> member in c.events
  {
    if member in c.events then Some(EventObject(c.events[member]))
    else if member == "channelName" then Some(ChannelNameFn)
    else if member == "get" then Some(GetFn)
    else None
  }

  /** The built-in `channelName(args)`: the key and the addressing segments,
      in order, joined with ":". */
  function ChannelName<A>(c: RestChannel<A>, args: A): (name: string)
    ensures c.key <= name
    ensures c.builder.data(args) == [] ==> name == c.key
    ensures c.builder.data(args) != [] ==> |name| > |c.key| && name[|c.key|] == ':'
  {
    var segments := c.builder.data(args);
    assert segments != [] ==> Join([c.key] + segments, ":") == c.key + ":" + Join(segments, ":") by {
      if segments != [] {
        JoinCons(c.key, segments, ":");
      }
    }
    Join([c.key] + segments, ":")
  }

  /** `c.get(args)` */
  method Get<A>(client: RestClient, c: RestChannel<A>, args: A) returns (r: Result<ChannelHandle, Failure>)
    modifies client`channels
    ensures GetFailure(c.events.Keys).Some? ==>
      r == Err(GetFailure(c.events.Keys).value) && client.channels == old(client.channels)
    ensures GetFailure(c.events.Keys).None? ==>
      r == Ok(ChannelHandle(ChannelName(c, args))) && client.channels == old(client.channels) + {ChannelName(c, args)}
  {
    var failure := GetFailure(c.events.Keys);
    if failure.Some? {
      return Err(failure.value);
    }
    var h := client.Get(ChannelName(c, args));
    r := Ok(h);
  }

  /** `c[event].publish(args, data)` */
  method Publish<A>(client: RestClient, c: RestChannel<A>, event: string, args: A, data: Value)
    returns (r: Outcome<Failure>)
    requires event in c.events
    modifies client`channels, client`published
    ensures GetFailure(c.events.Keys).Some? ==>
      && r == Fail(GetFailure(c.events.Keys).value)
      && client.channels == old(client.channels) && client.published == old(client.published)
    ensures GetFailure(c.events.Keys).None? ==>
      && client.channels == old(client.channels) + {ChannelName(c, args)}
      && r == (if client.failure.None? then Pass else Fail(Rejected(client.failure.value)))
      && client.published == if r.Pass?
                             then old(client.published) + [Publication(ChannelName(c, args), c.events[event].name, data)]
                             else old(client.published)
  {
    var h := Get(client, c, args);
    if h.Err? {
      return Fail(h.error);
    }
    var sent := client.Publish(h.value, c.events[event].name, data);
    r := if sent.Pass? then Pass else Fail(Rejected(sent.error));
  }
}
