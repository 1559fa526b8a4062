# disclown core, modelled in Dafny

This project models the data-handling core of disclown, a chat application.
It covers five parts:

- **The typed pub/sub builder.** A schema declares channels. Each channel has an
  addressing function and a set of named events, each with a validator. From
  one schema the builder makes two callers:
  - a realtime caller, which computes channel names, gets channels, publishes,
    subscribes and dispatches incoming messages;
  - a REST caller, which only publishes.
- **The application's own schema.** It has a `private` channel per user, a
  `group` channel per group and a `chat` channel per chat, with their events.
- **Chat widgets.** These are:
  - the typing indicator, with its list of typing users and its 5-second pruning;
  - the avatar, with its initials and alternative text;
  - how an attachment is shown, through a Cloudinary image loader or as a link card.
- **Group settings panels.** Invitation links, the member list with the
  kick rule, and how mutations rewrite the cached invitation and member lists.
- **The server's rate limiter.** How a client is fingerprinted from its
  forwarded-for header, and when a request is blocked.

One module per source file:

| module | file |
|---|---|
| `Builder` | `builder/index.ts` |
| `Realtime` | `builder/realtime.ts` |
| `Rest` | `builder/rest.ts` |
| `Modes` | realtime and REST callers side by side |
| `AppSchema` | `server/ably/schema.ts` |
| `Typing` | `TypingIndicator.tsx` |
| `Avatar` | `avatar.tsx` |
| `Attachment` | `AttachmentItem.tsx` |
| `Invite` | `settings/invite.tsx` |
| `Members` | `settings/members.tsx` |
| `RateLimit` | `redis/ratelimit.ts` |

The supporting modules are:

- `Wrappers` for the option and result types;
- `Text` for the JavaScript string operations used: `join`, integer to decimal
  text and back, the first piece of `split` (`BeforeFirst`), `includes`
  (`Contains`, via `OccursAt`), and what follows the first occurrence of a
  character (`AfterFirst`), which reads the source path back out of a loader URL;
- `Lists` for `Array.prototype.filter` and its laws;
- `Ably` for the pub/sub provider's client as a recording class;
- `Users` for the user profile record;
- `QueryCache` for the client query cache, keyed by group id.

Where code changes state in place, the model does too:

- the typing list is a `seq` field of `Typing.TypingStatus`, changed by `Add` and `Prune`;
- the provider clients record channels, publications and subscriptions in fields;
- the query cache is a `map` field that `SetData` rewrites;
- the image load state is a field that moves from `Loading` to `Loaded`.

Each such method states its new state in terms of a function of the old state.
Separate lemmas state what those functions promise.

Two details of the dispatcher are kept exactly as the code has them:

- **Invalid data on a declared event.** The dispatcher at
  `packages/ably-builder/builder/realtime.ts:94-98` calls the event's `parse`
  unguarded, so a validator failure reaches the provider's listener call.
  `Realtime.Dispatch` has a `Threw` outcome for it. Only undeclared event names
  are dropped, with a log line.
- **Spelling of the log line.** It reads "Unkown event: …", and the model keeps
  that spelling.

## Model

| member | source | states |
|---|---|---|
| Builder.Channel | packages/ably-builder/builder/index.ts:113-121 | the channel descriptor carries exactly the given addressing function and event map |
| Builder.Event | packages/ably-builder/builder/index.ts:124-130 | an event's parse of any raw message is the validator applied to that message's data |
| Builder.EventParseReadsOnlyData | packages/ably-builder/builder/index.ts:126-128 | two messages with the same data parse alike, whatever their names and envelopes |
| Builder.EventParsePropagatesFailure | packages/ably-builder/builder/index.ts:127 | a validator error comes out of the event's parse unchanged (nothing is caught) |
| Builder.GetFailure | packages/ably-builder/builder/realtime.ts:73-75 | `get` fails exactly when an event shadows `get` or `channelName`; the error is "not a function" for `get` when it is shadowed, else for `channelName` |
| Realtime.Caller | packages/ably-builder/builder/realtime.ts:21-26 | the caller has exactly the schema's keys; each channel carries its own key and descriptor, and events with their own names and the descriptor's parse |
| Realtime.Lookup | packages/ably-builder/builder/realtime.ts:69-103 | the members are the four built-ins plus the events, and an event name always resolves to the event, over a same-named built-in |
| Realtime.EventLookup | packages/ably-builder/builder/realtime.ts:38-63 | a realtime event object has exactly `parse` (the descriptor's), `publish` and `useChannel` (both bound to the event's name) |
| Realtime.ChannelName | packages/ably-builder/builder/realtime.ts:70-72 | the name starts with the channel key; it is the key alone without segments, else a ":" follows the key |
| Realtime.ChannelNameShape | packages/ably-builder/builder/realtime.ts:70-72 | the channel name is the key, then ":" and the addressing segments joined by ":" (the key alone without segments) |
| Realtime.Get | packages/ably-builder/builder/realtime.ts:73-75 | the provider is asked for exactly the channel `channelName(args)`; with a shadowed built-in it fails and nothing is asked |
| Realtime.Publish | packages/ably-builder/builder/realtime.ts:40-42 | one publication of the data, unchanged, under the event's name on `channelName(args)`, unless the get fails or the provider rejects |
| Realtime.UseChannel | packages/ably-builder/builder/realtime.ts:76-84 | the channel is got and, unless `enabled` is false, one unfiltered subscription with the channel's dispatcher is added; shadowed built-ins fail first |
| Realtime.UseEventChannel | packages/ably-builder/builder/realtime.ts:43-62 | the subscription is on `channelName(args)`, filtered to exactly the event's name, with the event's parse |
| Realtime.Dispatch | packages/ably-builder/builder/realtime.ts:85-101 | dropped iff the name is undeclared, with the log line "Unkown event: <name>"; otherwise delivered with the raw name and envelope and the event's parsed data, or the parse error is thrown |
| Realtime.Listen | packages/ably-builder/builder/realtime.ts:53-58 | a per-event listener delivers iff the event's parse succeeds, with the parsed data; every delivery keeps the raw name and envelope; only the dispatcher drops, and only undeclared names |
| Realtime.Receive | packages/ably-builder/builder/realtime.ts:46-51 | a subscription reacts to a message iff the channel matches and its filter, if any, names the event |
| Realtime.Callbacks | packages/ably-builder/builder/realtime.ts:85-101 | over a stream of messages, every callback invocation is the delivery of one of the raw messages, and there are no more invocations than messages |
| Realtime.CallbacksOne | packages/ably-builder/builder/realtime.ts:86-98 | one raw message reaches the callback exactly when its listener delivers it, and then once |
| Realtime.CallbacksAppend | packages/ably-builder/builder/realtime.ts:86-98 | the callbacks of two consecutive streams are the first's followed by the second's, so deliveries keep the stream's order |
| Realtime.DispatcherDeliversOnlyDeclared | packages/ably-builder/builder/realtime.ts:87-98 | every message the callback receives names a declared event and carries a raw message's name, envelope and parsed data |
| Realtime.EventSubscriptionDeliversOwnEvent | packages/ably-builder/builder/realtime.ts:46-59 | a per-event subscription fires only on its channel for its event and hands over the raw message with parsed data |
| Realtime.UnknownEventScenario | packages/ably-builder/builder/realtime.ts:89-92 | for every undeclared event name, the dispatcher yields only the log line "Unkown event: <name>" and no callback |
| Rest.Caller | packages/ably-builder/builder/rest.ts:54-59 | the REST caller has exactly the schema's keys, each channel with its key, and events with their names and the descriptor's own parse |
| Rest.Lookup | packages/ably-builder/builder/rest.ts:35-43 | the members are `channelName`, `get` and the events only, and events override same-named built-ins |
| Rest.EventLookup | packages/ably-builder/builder/rest.ts:22-29 | a REST event object has exactly `parse` (the descriptor's) and `publish` (bound to the event's name) |
| Rest.ChannelName | packages/ably-builder/builder/rest.ts:36-38 | the name starts with the channel key; it is the key alone without segments, else a ":" follows the key |
| Rest.Get | packages/ably-builder/builder/rest.ts:39-41 | the provider is asked for exactly the channel `channelName(args)`, or the shadowing error is returned |
| Rest.Publish | packages/ably-builder/builder/rest.ts:24-28 | one publication of the unchanged data under the event's name on `channelName(args)`, unless get fails or the provider rejects |
| Modes.ChannelNamesAgree | packages/ably-builder/builder/rest.ts:36-38 | the realtime and REST callers compute the same name for the same key and arguments |
| Modes.EventsAgree | packages/ably-builder/builder/rest.ts:20-32 | both callers expose each declared event under its own name with the same parse |
| Modes.RestMembersAreRealtimeWithoutSubscription | packages/ably-builder/builder/rest.ts:35-43 | when no event is named `useChannel` or `useCallback`, a REST channel's members are the realtime channel's members minus those two |
| Modes.RestEventIsRealtimeEventWithoutSubscription | packages/ably-builder/builder/index.ts:42-55 | a REST event object has every member of the realtime one except `useChannel`, with the same `parse` and `publish` bound to the same event name |
| AppSchema.Custom | packages/server/ably/schema.ts:28-34 | `z.custom()` without a check accepts every value unchanged |
| AppSchema.UserObject | packages/server/ably/schema.ts:48-50 | accepts exactly the objects; the result keeps the `user` property if present and no other key, with its value unchanged |
| AppSchema.OneSegment | packages/server/ably/schema.ts:26-46 | each addressing function yields exactly one segment: its argument rendered as text |
| AppSchema.Declarations | packages/server/ably/schema.ts:22-69 | exactly the channels private, group, chat, with exactly their four, two and four events |
| AppSchema.NoShadowedBuiltins | packages/server/ably/schema.ts:22-69 | no declared event shadows a channel built-in, so `get` never fails on this schema |
| AppSchema.NameIsKeyColonArg | packages/server/ably/schema.ts:26-46 | a channel's name is its key, ":" and its rendered argument |
| AppSchema.ServerChannel | packages/server/ably/schema.ts:26-46 | every channel key is colon-free and addressed by exactly one segment |
| AppSchema.PrivateChannelName | packages/server/ably/schema.ts:26 | the private channel of a user is "private:" + the user's id |
| AppSchema.GroupChannelName | packages/server/ably/schema.ts:38 | the channel of a group is "group:" + the group id in decimal |
| AppSchema.ChatChannelName | packages/server/ably/schema.ts:46 | the channel of a chat is "chat:" + the chat id |
| AppSchema.ChatC1Name | packages/server/ably/schema.ts:46 | chat "c1" is the channel "chat:c1" in both the realtime and the REST caller |
| AppSchema.RestChatChannel | packages/server/ably/schema.ts:46-50 | the REST `chat` channel declares `typing` under its own name, and `get` cannot fail on it |
| AppSchema.NamesAreUnique | packages/server/ably/schema.ts:22-69 | equal names imply the same channel key and the same well-typed argument |
| AppSchema.Validation | packages/server/ably/schema.ts:48-50 | `typing` accepts only an object and keeps only its `user`; every other event passes its data unchanged |
| AppSchema.TypingPublishScenario | packages/server/ably/schema.ts:46-50 | publishing a typing notice for chat "c1" over REST logs exactly one publication on "chat:c1" named "typing" |
| Typing.TypingStatus.constructor | apps/web/components/chat/TypingIndicator.tsx:13 | the list starts empty (and so with unique users) |
| Typing.TypingStatus.Add | apps/web/components/chat/TypingIndicator.tsx:33-43 | the list becomes the add-updater's result and user ids stay unique |
| Typing.TypingStatus.Prune | apps/web/components/chat/TypingIndicator.tsx:17-23 | the list becomes the timer updater's result and user ids stay unique |
| Typing.Added | apps/web/components/chat/TypingIndicator.tsx:40-42 | the old list is a prefix of the new one, at most one entry longer, and the user is then present |
| Typing.Pruned | apps/web/components/chat/TypingIndicator.tsx:22 | no entry is added, and every entry kept was in the list and is stamped at or after now − 5000 |
| Typing.AddedKeepsUsersUnique | apps/web/components/chat/TypingIndicator.tsx:40-42 | adding never creates a second entry for a user id |
| Typing.AddedEffect | apps/web/components/chat/TypingIndicator.tsx:40-42 | an absent user is appended once at the end, stamped now, earlier entries untouched; a present user leaves the list (and old timestamp) as is |
| Typing.PrunedKeepsExactlyRecent | apps/web/components/chat/TypingIndicator.tsx:18-22 | a tick keeps exactly the entries stamped at or after now − 5000, adds none, and keeps order (it distributes over concatenation) |
| Typing.PrunedKeepsFreshAdd | apps/web/components/chat/TypingIndicator.tsx:22 | a notice added at t survives every tick at or before t + 5000 (inclusive boundary) |
| Typing.PruneIdempotent | apps/web/components/chat/TypingIndicator.tsx:22 | two ticks at the same time equal one |
| Typing.Indicator | apps/web/components/chat/TypingIndicator.tsx:47-59 | nothing for an empty list, else exactly one avatar per entry, avatar i being the small avatar of entry i's image and name |
| Typing.IndicatorAvatars | apps/web/components/chat/TypingIndicator.tsx:52-58 | avatar i shows entry i's image iff the user has one, with that source and the user's name as alternative text, and the first initial of the name |
| Avatar.SplitWhitespace | packages/ui/components/avatar.tsx:68 | splitting on `\s` yields at least one piece |
| Avatar.InitialsAreWordStarts | packages/ui/components/avatar.tsx:67-70 | first characters of the pieces, joined, are exactly the non-whitespace characters that start the string or follow whitespace |
| Avatar.WordStartsHaveNoWhitespace | packages/ui/components/avatar.tsx:68-69 | the word starts contain no whitespace character |
| Avatar.FallbackText | packages/ui/components/avatar.tsx:64-72 | absent iff the fallback is absent; at most one character for the small sizes; always a prefix of the pieces' first characters |
| Avatar.FallbackTextSpec | packages/ui/components/avatar.tsx:64-72 | absent iff the fallback is absent; small sizes exactly the first initial (empty without initials); other sizes all initials; never whitespace |
| Avatar.Render | packages/ui/components/avatar.tsx:81-89 | an image iff `src` is given, with alt text fallback, else alt, else "avatar"; the fallback text is the initials |
| RateLimit.Fingerprint | packages/server/redis/ratelimit.ts:27-35 | the fingerprint is never empty |
| RateLimit.FingerprintSpec | packages/server/redis/ratelimit.ts:28-34 | string header: the part before its first ", "; array: the part of its first element before its first ", " (the other elements are ignored), "127.0.0.1" for an empty array; absent or empty header: the socket address; empty candidate: "127.0.0.1"; header results contain no ", " |
| Text.BeforeFirst | packages/server/redis/ratelimit.ts:30-32 | the first piece of `split(/, /)` is a prefix with no earlier separator, ending at the string's end or at a separator |
| RateLimit.CreateStore | packages/server/redis/ratelimit.ts:9-17 | no store iff in development; otherwise a sliding window of `max` tokens whose window text reads back as `windowMs` ms |
| RateLimit.IsBlocked | packages/server/redis/ratelimit.ts:18-23 | not blocked iff there is no store or the limit check succeeded; otherwise the limit, remaining and reset fields |
| RateLimit.DevelopmentNeverBlocks | packages/server/redis/ratelimit.ts:10 | in development no request is ever blocked |
| Attachment.ShowsImage | apps/web/components/chat/AttachmentItem.tsx:23-28 | an attachment shown as an image has type "image", both dimensions and a URL starting with the Cloudinary upload prefix |
| Attachment.Render | apps/web/components/chat/AttachmentItem.tsx:21-52 | image iff type "image", both dimensions and the Cloudinary prefix (and the URL decodes); alt is the name, src the decoded URL past the prefix; else a link card to the URL with the name and a byte caption that reads back as the size |
| Attachment.Slice | apps/web/components/chat/AttachmentItem.tsx:50-52 | `slice(start)` is the suffix from `start`, or empty past the end |
| Attachment.CaptionRoundTrip | apps/web/components/chat/AttachmentItem.tsx:42 | the "<bytes> Bytes" caption reads back as the byte count |
| Attachment.QualityText | apps/web/components/chat/AttachmentItem.tsx:69 | "auto" iff the quality is absent or zero, otherwise decimal text reading back as the quality |
| Attachment.ParamsShape | apps/web/components/chat/AttachmentItem.tsx:69-71 | the parameters are "c_limit,w_<width>,q_<quality>" and contain no "/" |
| Attachment.Loader | apps/web/components/chat/AttachmentItem.tsx:68-72 | the loaded URL is the upload prefix, then "c_limit,w_<width>,q_<quality or auto>", then "/" and the source path |
| Attachment.LoaderRoundTrip | apps/web/components/chat/AttachmentItem.tsx:68-72 | the loader URL starts with the prefix; up to its first "/" after the prefix come exactly the parameters for the width and quality, and after that "/" the source path |
| Attachment.LoaderParamsReadBack | apps/web/components/chat/AttachmentItem.tsx:69-71 | the width reads back from the URL's parameters, and so does the quality unless it is "auto" (absent or zero) |
| Attachment.ImageServedFromUploadedPath | apps/web/components/chat/AttachmentItem.tsx:50-72 | for an unescaped image URL, the loader at any width serves the uploaded path |
| Attachment.ImageLoad.constructor | apps/web/components/chat/AttachmentItem.tsx:49 | the load state starts as loading |
| Attachment.ImageLoad.OnLoadingComplete | apps/web/components/chat/AttachmentItem.tsx:73 | completing the load sets the state to loaded |
| QueryCache.Cache.Fetch | apps/web/components/chat/settings/members.tsx:22-25 | the fetched list is stored only when the session is authenticated, otherwise the cache is unchanged |
| QueryCache.Cache.SetData | apps/web/components/chat/settings/invite.tsx:130-132 | the group's entry becomes the updater's result, and an absent result leaves the cache unchanged |
| Invite.InviteUrl | apps/web/components/chat/settings/invite.tsx:188-190 | the link starts with "https://disclown.vercel.app/invite/" followed by exactly the code's length |
| Invite.InviteUrlRoundTrip | apps/web/components/chat/settings/invite.tsx:188-190 | the code reads back from its link, so distinct codes give distinct links |
| Invite.PublicInviteUrl | apps/web/components/chat/settings/invite.tsx:102 | the public link carries "@" + the group's unique name as its code |
| Invite.PrivateInviteUrl | apps/web/components/chat/settings/invite.tsx:160 | the private link carries the invitation's code |
| Invite.PublicAndPrivateLinksDiffer | apps/web/components/chat/settings/invite.tsx:102 | the public link differs from any private link whose code does not start with "@" |
| Invite.AfterCreate | apps/web/components/chat/settings/invite.tsx:33-35 | a present list gains the new invitation at the end with earlier entries unchanged; an absent list stays absent |
| Invite.AfterDelete | apps/web/components/chat/settings/invite.tsx:130-132 | an absent list stays absent, a present one stays present |
| Invite.AfterDeleteSpec | apps/web/components/chat/settings/invite.tsx:131 | no invitation with the deleted code remains, exactly the others are kept, in order |
| Invite.DeleteUndoesCreate | apps/web/components/chat/settings/invite.tsx:33-35 | deleting a just-created invitation with a fresh code restores the previous list |
| Invite.Rows | apps/web/components/chat/settings/invite.tsx:69-79 | a public-link row first iff the group is public, then one row per cached invitation in order with its code and link |
| Invite.OnCreated | apps/web/components/chat/settings/invite.tsx:31-37 | the group's cached list becomes the create updater's result; an uncached group is untouched |
| Invite.OnDeleted | apps/web/components/chat/settings/invite.tsx:128-134 | the group's cached list becomes the delete updater's result; an uncached group is untouched |
| Members.CanKick | apps/web/components/chat/settings/members.tsx:38 | only an administrator may kick, and never the session user |
| Members.CanKickSpec | apps/web/components/chat/settings/members.tsx:38 | a non-admin kicks no one; an admin kicks everyone but the session user (everyone when there is no session data) |
| Members.AfterKick | apps/web/components/chat/settings/members.tsx:69-71 | an absent list stays absent, a present one stays present |
| Members.AfterKickSpec | apps/web/components/chat/settings/members.tsx:69-71 | exactly the kicked user's entries are removed, the rest kept in order; kicking twice equals once |
| Members.KickOfNonMember | apps/web/components/chat/settings/members.tsx:70 | kicking a user not in the list leaves it unchanged |
| Members.Render | apps/web/components/chat/settings/members.tsx:29-41 | placeholders iff loading; otherwise one row per member in order, with the kick button per the kick rule and the avatar image iff the user has one |
| Members.KickButtons | apps/web/components/chat/settings/members.tsx:95 | a non-admin sees no kick button, and the session user's own row never has one |
| Members.OnKicked | apps/web/components/chat/settings/members.tsx:67-73 | the group's cached list becomes the kick updater's result; an uncached group is untouched |

## Left out

- The React hooks in `packages/ably-builder/hooks.ts`:
  - mounting, unmounting and re-subscription on dependency change;
  - the asynchronous, un-awaited subscribe.
  Each `useChannel` is modelled as one mount that gets the channel and adds one subscription.
- React `useCallback` memoisation and dependency arrays. The wrapped function is the plain dispatcher or per-event listener.
- The builder namespace `a` (packages/ably-builder/builder/index.ts:133). It is a plain object holding the two constructors, modelled as `Builder.Channel` and `Builder.Event`.
- The pub/sub provider. It is reduced to what its clients are asked:
  - channel gets, publications, subscriptions;
  - a standing failure with which publishes reject.
  Connection state, retries and the network are not modelled. `publish` resolving later is modelled as an immediate outcome.
- The validator library. It is reduced to the two validators the schema uses:
  - `z.custom()` without a check accepts anything unchanged;
  - `z.object({ user })` needs an object, keeps `user` when present and strips other keys.
  Its error messages are not modelled.
- The JavaScript property lookup quirk of `channel.events[raw.name]`. Inherited keys such as `toString` would be found on a plain object. Events are a finite map of declared names.
- `console.error` is modelled as the log string carried by a dropped delivery.
- Message names are always strings; a missing `name` is not modelled.
- The static TypeScript types of channel arguments are modelled as `AppSchema.Fits`.
- JavaScript numbers are modelled as integers, so `${n}` and `join` are integer-to-decimal conversion. Fractions, `NaN` and exponent notation are not modelled.
- Strings are sequences of Unicode scalar values rather than UTF-16 code units. `charAt(0)` of an astral character would be half a surrogate pair in the source.
- Time in the typing list is integer milliseconds. `setInterval` and `Date.now()` become an explicit `Prune(now)`. `setSeconds(getSeconds() - 5)` is taken as exactly 5000 ms earlier; local-time daylight-saving edge cases are not modelled.
- `decodeURIComponent` is a parameter of `Attachment.Render`. `None` stands for the `URIError` it throws.
- The rate-limit store is not modelled:
  - `store.limit(fingerprint)` is not computed; its answer is a parameter of `RateLimit.IsBlocked`;
  - the Redis connection is not modelled;
  - the `pending` promise among the answer's fields is not modelled.
- Query cache internals are not modelled:
  - fetching, retries, loading flags and staleness;
  - the member panel's loading flag is a parameter of `Members.Render`.
  The cache is one list per group id, filled by `Fetch` and rewritten by `SetData`.
- Copy-to-clipboard buttons, the public/private switch and its update mutation, and all styling and layout are not modelled.
- Realtime.Callbacks: its own contract states only that every callback comes from one of the raw messages; that every delivered message reaches the callback once, in order, is stated by `Realtime.CallbacksOne` and `Realtime.CallbacksAppend`.
- An exception a listener throws is taken to be caught by the provider, which then goes on with the next message. So `Realtime.Callbacks` loses only the message whose parse threw. The provider's event emitter is not part of this model.
- The hook `useChannel` in `packages/ably-builder/hooks.ts:29-30` gets its channel from the globally configured client (`assertConfiguration()`). The model uses the client the caller was built with, treating the two as the same client.
- The event and channel surfaces are otherwise structural: a realtime event is a `Realtime.RealtimeEvent` with `Realtime.Publish` and `Realtime.UseEventChannel`, a REST event a `Rest.RestEvent` with `Rest.Publish`.
