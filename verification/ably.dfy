/** The part of the hosted pub/sub provider's client library that the
    builder consumes: messages, channel handles obtained by name, publishing
    and subscribing. The provider itself is not modelled; each client records
    what was asked of it. */
module Ably {
  import opened Wrappers

  /** A JSON-like message payload. */
  datatype Value =
    | Null
    | Bool(b: bool)
    | Num(n: int)
    | Str(s: string)
    | Arr(items: seq<Value>)
    | Obj(fields: map<string, Value>)

  /** `Types.Message`: the event name, the payload, and the remaining envelope
      fields (id, clientId, connectionId, timestamp, ...) by name. */
  datatype Message = Message(name: string, data: Value, meta: map<string, Value>)

  /** The provider's error object, with which a publish promise rejects. */
  datatype ErrorInfo = ErrorInfo(code: int, message: string)

  /** A channel handle; the provider hands out one handle per channel name. */
  datatype ChannelHandle = ChannelHandle(name: string)

  /** One call of `channel.publish(name, data)` on the channel named `channel`. */
  datatype Publication = Publication(channel: string, name: string, data: Value)

  /** One call of `channel.subscribe([events,] listener)`; `filter` is the list
      of event names when one was given. */
  datatype Subscription<L> = Subscription(channel: string, filter: Option<seq<string>>, listener: L)

  /** The provider calls a subscription's listener for a message published on
      `channel` exactly when the channel matches and the filter, if any,
      names the message's event. */
  predicate Matches<L>(s: Subscription<L>, channel: string, m: Message)
  {
    s.channel == channel && (s.filter.None? || m.name in s.filter.value)
  }

  /** `Types.RealtimePromise`: a live connection. `failure`, when present, is
      the error every publish currently rejects with (no connection). */
  class RealtimeClient<L> {
    var channels: set<string>
    var published: seq<Publication>
    var subscriptions: seq<Subscription<L>>
    var failure: Option<ErrorInfo>

    constructor (failure: Option<ErrorInfo>)
      ensures channels == {} && published == [] && subscriptions == []
      ensures this.failure == failure
    {
      channels, published, subscriptions := {}, [], [];
      this.failure := failure;
    }

    /** `channels.get(name)`: creates the channel on first use, returns the
        same handle for the same name afterwards. */
    method Get(name: string) returns (h: ChannelHandle)
      modifies this`channels
      ensures h.name == name
      ensures channels == old(channels) + {name}
    {
      channels := channels + {name};
      h := ChannelHandle(name);
    }

    /** `channel.publish(name, data)`: records the publication, or rejects
        with the current failure and records nothing. */
    method Publish(h: ChannelHandle, name: string, data: Value) returns (r: Outcome<ErrorInfo>)
      modifies this`published
      ensures r == if failure.None? then Pass else Fail(failure.value)
      ensures published == if r.Pass? then old(published) + [Publication(h.name, name, data)] else old(published)
    {
      if failure.None? {
        published := published + [Publication(h.name, name, data)];
        r := Pass;
      } else {
        r := Fail(failure.value);
      }
    }

    /** `channel.subscribe(filter, listener)` or `channel.subscribe(listener)`. */
    method Subscribe(h: ChannelHandle, filter: Option<seq<string>>, listener: L)
      modifies this`subscriptions
      ensures subscriptions == old(subscriptions) + [Subscription(h.name, filter, listener)]
    {
      subscriptions := subscriptions + [Subscription(h.name, filter, listener)];
    }
  }

  /** `Types.RestPromise`: a one-shot connection; it can publish but offers no
      subscription. */
  class RestClient {
    var channels: set<string>
    var published: seq<Publication>
    var failure: Option<ErrorInfo>

    constructor (failure: Option<ErrorInfo>)
      ensures channels == {} && published == [] && this.failure == failure
    {
      channels, published := {}, [];
      this.failure := failure;
    }

    method Get(name: string) returns (h: ChannelHandle)
      modifies this`channels
      ensures h.name == name
      ensures channels == old(channels) + {name}
    {
      channels := channels + {name};
      h := ChannelHandle(name);
    }

    method Publish(h: ChannelHandle, name: string, data: Value) returns (r: Outcome<ErrorInfo>)
      modifies this`published
      ensures r == if failure.None? then Pass else Fail(failure.value)
      ensures published == if r.Pass? then old(published) + [Publication(h.name, name, data)] else old(published)
    {
      if failure.None? {
        published := published + [Publication(h.name, name, data)];
        r := Pass;
      } else {
        r := Fail(failure.value);
      }
    }
  }
}
