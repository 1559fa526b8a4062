/** The client-side query cache the settings panels read and update: one
    list per group id, filled by a query that runs only for a signed-in user
    and rewritten by the mutations' success handlers through `setData`. */
module QueryCache {
  import opened Wrappers

  /** `useSession().status` */
  datatype SessionStatus = Authenticated | Loading | Unauthenticated

  /** `{ enabled: status === "authenticated" }` */
  predicate Enabled(status: SessionStatus)
  {
    status == Authenticated
  }

  /** The cached list for a group, if any. */
  function Get<T>(entries: map<int, seq<T>>, groupId: int): (r: Option<seq<T>>)
    ensures r.Some? <==> groupId in entries
    ensures r.Some? ==> r.value == entries[groupId]
  {
    if groupId in entries then Some(entries[groupId]) else None
  }

  /** The lists cached for one query procedure, by group id. */
  class Cache<T> {
    var entries: map<int, seq<T>>

    constructor ()
      ensures entries == map[]
    {
      entries := map[];
    }

    /** The query for `groupId` completing with `fetched`: stored only when
        the query is enabled, otherwise the cache is left alone. */
    method Fetch(status: SessionStatus, groupId: int, fetched: seq<T>)
      modifies this
      ensures Enabled(status) ==> entries == old(entries)[groupId := fetched]
      ensures !Enabled(status) ==> entries == old(entries)
    {
      if Enabled(status) {
        entries := entries[groupId := fetched];
      }
    }

    /** `setData({ groupId }, updater)`: the updater sees the current list or
        its absence; an absent result leaves the cache as it was. */
    method SetData(groupId: int, updater: Option<seq<T>> -> Option<seq<T>>)
      modifies this
      ensures updater(Get(old(entries), groupId)).None? ==> entries == old(entries)
      ensures updater(Get(old(entries), groupId)).Some? ==>
        entries == old(entries)[groupId := updater(Get(old(entries), groupId)).value]
    {
      var next := updater(Get(entries, groupId));
      if next.Some? {
        entries := entries[groupId := next.value];
      }
    }
  }
}
