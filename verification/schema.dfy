/** The application's concrete channel schema (packages/server/ably/schema.ts):
    a private channel per user, a channel per group and a channel per chat. */
module AppSchema {
  import opened Wrappers
  import opened Text
  import opened Ably
  import opened Builder
  import Realtime
  import Rest
  import Modes

  /** The single element of a channel's argument tuple: a client or chat
      channel id (string) or a group id (integer). */
  datatype Arg = Id(s: string) | GroupId(n: int)

  /** The argument as it appears in a channel name (`${x}`, and what `join`
      does with a non-string element). */
  function Render(a: Arg): string
  {
    match a
    case Id(s) => s
    case GroupId(n) => Decimal(n)
  }

  /** The three addressing lambdas `([clientId]) => [clientId]`,
      `([group]) => [`${group}`]` and `([channel]) => [channel]`: each yields
      its one argument, as a string, as the only segment. */
  function OneSegment(a: Arg): (segments: seq<string>)
    ensures |segments| == 1 && segments[0] == Render(a)
  {
    [Render(a)]
  }

  /** Which arguments each channel's parameter type admits. */
  predicate Fits(key: string, a: Arg)
  {
    if key == "group" then a.GroupId? else a.Id?
  }

  /** `z.custom<T>()` without a check function: accepts any value unchanged. */
  function Custom(v: Value): (r: Result<Value, ZodError>)
    ensures r.Ok? && r.value == v
  {
    Ok(v)
  }

  /** `z.object({ user: z.custom() })`: requires a plain object, keeps its
      `user` property when present and strips every other property. */
  function UserObject(v: Value): (r: Result<Value, ZodError>)
    ensures r.Ok? <==> v.Obj?
    ensures r.Ok? ==> r.value.Obj? && r.value.fields.Keys == v.fields.Keys * {"user"}
    ensures r.Ok? ==> forall k :: k in r.value.fields ==> r.value.fields[k] == v.fields[k]
  {
    match v
    case Obj(fields) => Ok(Obj(if "user" in fields then map["user" := fields["user"]] else map[]))
    case _ => Err(ZodError("Expected object"))
  }

  const PrivateEvents: map<string, EventBuilder> := map[
    "group_created" := Event(Custom),
    "group_removed" := Event(Custom),
    "open_dm" := Event(Custom),
    "close_dm" := Event(Custom)
  ]

  const GroupEvents: map<string, EventBuilder> := map[
    "group_updated" := Event(Custom),
    "group_deleted" := Event(Custom)
  ]

  const ChatEvents: map<string, EventBuilder> := map[
    "typing" := Event(UserObject),
    "message_sent" := Event(Custom),
    "message_updated" := Event(Custom),
    "message_deleted" := Event(Custom)
  ]

  const ServerSchema: Schema<Arg> := map[
    "private" := Channel(OneSegment, PrivateEvents),
    "group" := Channel(OneSegment, GroupEvents),
    "chat" := Channel(OneSegment, ChatEvents)
  ]

  /** The physical channel name the realtime caller computes. */
  function NameOf(key: string, a: Arg): string
    requires key in ServerSchema
  {
    Realtime.ChannelName(Realtime.Caller(ServerSchema)[key], a)
  }

  /** The channels and the events each declares. */
  lemma Declarations()
    ensures ServerSchema.Keys == {"private", "group", "chat"}
    ensures ServerSchema["private"].events.Keys == {"group_created", "group_removed", "open_dm", "close_dm"}
    ensures ServerSchema["group"].events.Keys == {"group_updated", "group_deleted"}
    ensures ServerSchema["chat"].events.Keys == {"typing", "message_sent", "message_updated", "message_deleted"}
  {
  }

  /** No event name shadows a built-in member of either caller, so every
      `get`, `channelName` and `useChannel` call reaches the built-in. */
  lemma NoShadowedBuiltins(key: string)
    requires key in ServerSchema
    ensures ServerSchema[key].events.Keys !! RealtimeChannelBuiltins
    ensures GetFailure(ServerSchema[key].events.Keys).None?
  {
  }

  /** Every channel key is colon-free and addressed by a single segment. */
  lemma ServerChannel(key: string)
    requires key in ServerSchema
    ensures ':' !in key
    ensures ServerSchema[key].data == OneSegment
  {
  }

  /** A channel's name is its key, a colon, and the rendered argument. */
  lemma NameIsKeyColonArg(key: string, a: Arg)
    requires key in ServerSchema
    ensures NameOf(key, a) == key + ":" + Render(a)
  {
    var c := Realtime.Caller(ServerSchema)[key];
    ServerChannel(key);
    assert c.key == key && c.builder.data == OneSegment;
    Realtime.ChannelNameShape(c, a);
  }

  /** The private channel of a user is "private:" + the user's id. */
  lemma PrivateChannelName(clientId: string)
    ensures NameOf("private", Id(clientId)) == "private:" + clientId
  {
    NameIsKeyColonArg("private", Id(clientId));
  }

  /** The channel of a group is "group:" + the decimal group id. */
  lemma GroupChannelName(groupId: int)
    ensures NameOf("group", GroupId(groupId)) == "group:" + Decimal(groupId)
  {
    NameIsKeyColonArg("group", GroupId(groupId));
  }

  /** The channel of a chat is "chat:" + the chat's id. */
  lemma ChatChannelName(channelId: string)
    ensures NameOf("chat", Id(channelId)) == "chat:" + channelId
  {
    NameIsKeyColonArg("chat", Id(channelId));
  }

  /** Distinct channels, or one channel with distinct well-typed arguments,
      never share a physical name. */
  lemma NamesAreUnique(k1: string, a1: Arg, k2: string, a2: Arg)
    requires k1 in ServerSchema && k2 in ServerSchema
    requires Fits(k1, a1) && Fits(k2, a2)
    requires NameOf(k1, a1) == NameOf(k2, a2)
    ensures k1 == k2 && a1 == a2
  {
    NameIsKeyColonArg(k1, a1);
    NameIsKeyColonArg(k2, a2);
    ServerChannel(k1);
    ServerChannel(k2);
    assert k1 + [':'] + Render(a1) == k2 + [':'] + Render(a2);
    SeparatorSplitsUniquely(k1, Render(a1), k2, Render(a2), ':');
    if a1.GroupId? {
      DecimalInjective(a1.n, a2.n);
    }
  }

  /** `typing` data must be an object; what survives is its `user`. Every other
      event accepts its data as is. */
  lemma Validation(key: string, event: string, raw: Message)
    requires key in ServerSchema && event in ServerSchema[key].events
    ensures event != "typing" ==> ServerSchema[key].events[event].parse(raw) == Ok(raw.data)
    ensures key == "chat" && event == "typing" ==>
      match raw.data
      case Obj(fields) =>
        ServerSchema[key].events[event].parse(raw).Ok? &&
        ServerSchema[key].events[event].parse(raw).value == Obj(map k | k in fields && k == "user" :: fields[k])
      case _ => ServerSchema[key].events[event].parse(raw).Err?
  {
    if key == "chat" && event == "typing" {
      match raw.data
      case Obj(fields) =>
        assert (if "user" in fields then map["user" := fields["user"]] else map[])
            == map k | k in fields && k == "user" :: fields[k];
      case _ =>
    }
  }

  /** The REST caller's `chat` channel declares `typing` under its own name,
      and `get` cannot fail on it. */
  lemma RestChatChannel()
    ensures "chat" in Rest.Caller(ServerSchema)
    ensures var c := Rest.Caller(ServerSchema)["chat"];
      && "typing" in c.events && c.events["typing"].name == "typing"
      && GetFailure(c.events.Keys).None?
  {
    NoShadowedBuiltins("chat");
  }

  /** Chat "c1" is the channel "chat:c1" in both callers. */
  lemma ChatC1Name()
    ensures "chat" in Rest.Caller(ServerSchema)
    ensures NameOf("chat", Id("c1")) == "chat:c1"
    ensures Rest.ChannelName(Rest.Caller(ServerSchema)["chat"], Id("c1")) == "chat:c1"
  {
    ChatChannelName("c1");
    Modes.ChannelNamesAgree(ServerSchema, "chat", Id("c1"));
  }

  /** Publishing a typing notice on chat "c1" through the REST caller sends the
      payload, unchanged, as event "typing" on channel "chat:c1". */
  method TypingPublishScenario() returns (log: seq<Publication>)
    ensures var user := Obj(map["id" := Str("u1"), "name" := Str("Bob"), "image" := Null]);
      log == [Publication("chat:c1", "typing", Obj(map["user" := user]))]
  {
    var user := Obj(map["id" := Str("u1"), "name" := Str("Bob"), "image" := Null]);
    var client := new RestClient(None);
    RestChatChannel();
    ChatC1Name();
    var chat := Rest.Caller(ServerSchema)["chat"];
    var r := Rest.Publish(client, chat, "typing", Id("c1"), Obj(map["user" := user]));
    log := client.published;
  }
}
