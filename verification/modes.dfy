/** What the realtime and REST callers built from one schema have in common. */
module Modes {
  import opened Wrappers
  import opened Builder
  import Realtime
  import Rest

  /** Both callers compute the same physical channel name for the same channel
      key and arguments, so a REST publish reaches realtime subscribers. */
  lemma ChannelNamesAgree<A>(schema: Schema<A>, key: string, args: A)
    requires key in schema
    ensures key in Realtime.Caller(schema) && key in Rest.Caller(schema)
    ensures Realtime.ChannelName(Realtime.Caller(schema)[key], args) == Rest.ChannelName(Rest.Caller(schema)[key], args)
  {
  }

  /** Both callers expose the same events, with the descriptor's parse. */
  lemma EventsAgree<A>(schema: Schema<A>, key: string, event: string)
    requires key in schema && event in schema[key].events
    ensures key in Realtime.Caller(schema) && key in Rest.Caller(schema)
    ensures event in Realtime.Caller(schema)[key].events && event in Rest.Caller(schema)[key].events
    ensures Realtime.Caller(schema)[key].events[event].parse == Rest.Caller(schema)[key].events[event].parse
    ensures Realtime.Caller(schema)[key].events[event].name == Rest.Caller(schema)[key].events[event].name == event
  {
  }

  /** A REST channel object has every member of the realtime one except the
      subscription members. */
  lemma RestMembersAreRealtimeWithoutSubscription<A>(schema: Schema<A>, key: string)
    requires key in schema
    requires "useChannel" !in schema[key].events && "useCallback" !in schema[key].events
    ensures key in Realtime.Caller(schema) && key in Rest.Caller(schema)
    ensures Rest.Members(Rest.Caller(schema)[key]) == Realtime.Members(Realtime.Caller(schema)[key]) - {"useChannel", "useCallback"}
  {
  }

  /** A REST event object has every member of the realtime one except
      `useChannel`; `parse` is the descriptor's in both, and `publish` is bound
      to the same event name. */
  lemma RestEventIsRealtimeEventWithoutSubscription<A>(schema: Schema<A>, key: string, event: string, member: string)
    requires key in schema && event in schema[key].events
    ensures key in Realtime.Caller(schema) && key in Rest.Caller(schema)
    ensures event in Realtime.Caller(schema)[key].events && event in Rest.Caller(schema)[key].events
    ensures var rt := Realtime.EventLookup(Realtime.Caller(schema)[key].events[event], member);
      var rs := Rest.EventLookup(Rest.Caller(schema)[key].events[event], member);
      && (rs.Some? <==> rt.Some? && member != "useChannel")
      && (member == "parse" ==> rs == Some(Rest.ParseMember(schema[key].events[event].parse))
                                && rt == Some(Realtime.ParseMember(schema[key].events[event].parse)))
      && (member == "publish" ==> rs == Some(Rest.PublishMember(event)) && rt == Some(Realtime.PublishMember(event)))
  {
  }
}
