/** Client fingerprinting and the blocking decision of the request rate
    limiter (packages/server/redis/ratelimit.ts). The limit store itself is an
    external service: its answer for a fingerprint is a parameter. */
module RateLimit {
  import opened Wrappers
  import opened Text

  /** The `x-forwarded-for` request header: absent, one value, or a list. */
  datatype ForwardedFor = Absent | Single(value: string) | Multiple(values: seq<string>)

  /** The address used when no other is known. */
  const Loopback: string := "127.0.0.1"

  /** The address list separator of `x-forwarded-for`. */
  const ListSeparator: string := ", "

  /** `getFingerprintFromIP(req)`: `remoteAddress` is the socket's peer address. */
  function Fingerprint(forwarded: ForwardedFor, remoteAddress: Option<string>): (ip: string)
    ensures ip != ""
  {
    var candidate := match forwarded
      case Absent => remoteAddress
      case Single(v) => if v == "" then remoteAddress else Some(BeforeFirst(v, ListSeparator))
      case Multiple(vs) => if |vs| == 0 then None else Some(BeforeFirst(vs[0], ListSeparator));
    if candidate.Some? && candidate.value != "" then candidate.value else Loopback
  }

  /** A non-empty header string gives the address before its first ", "; a list
      gives the same from its first element alone; neither ever contains ", ".
      An absent or empty header falls back to the socket address, and an empty
      or missing candidate to the loopback address. */
  lemma FingerprintSpec(forwarded: ForwardedFor, remoteAddress: Option<string>)
    ensures forwarded.Single? && forwarded.value != "" ==>
      var first := BeforeFirst(forwarded.value, ListSeparator);
      && Fingerprint(forwarded, remoteAddress) == (if first != "" then first else Loopback)
      && forwarded.value[..|first|] == first
      && (first == forwarded.value || forwarded.value[|first|..|first| + 2] == ListSeparator)
      && !Contains(Fingerprint(forwarded, remoteAddress), ListSeparator)
    ensures forwarded.Multiple? && forwarded.values != [] ==>
      && var first := BeforeFirst(forwarded.values[0], ListSeparator);
      && Fingerprint(forwarded, remoteAddress) == (if first != "" then first else Loopback)
      && (forall other: seq<string>, ra: Option<string> ::
            Fingerprint(Multiple([forwarded.values[0]] + other), ra) == Fingerprint(forwarded, remoteAddress))
      && !Contains(Fingerprint(forwarded, remoteAddress), ListSeparator)
    ensures forwarded.Multiple? && forwarded.values == [] ==> Fingerprint(forwarded, remoteAddress) == Loopback
    ensures forwarded.Absent? || forwarded == Single("") ==>
      Fingerprint(forwarded, remoteAddress) ==
        if remoteAddress.Some? && remoteAddress.value != "" then remoteAddress.value else Loopback
  {
    assert !Contains(Loopback, ListSeparator) by {
      forall i: nat | i <= |Loopback| ensures !OccursAt(Loopback, ListSeparator, i) {
        assert ' ' !in Loopback;
        if i + 2 <= |Loopback| {
          assert Loopback[i + 1] in Loopback;
        }
      }
    }
    match forwarded
    case Single(v) =>
      if v != "" {
        BeforeFirstHasNoSeparator(v, ListSeparator);
      }
    case Multiple(vs) =>
      if vs != [] {
        BeforeFirstHasNoSeparator(vs[0], ListSeparator);
      }
    case Absent =>
  }

  /** The answer of the store's `limit(fingerprint)`. */
  datatype LimitResponse = LimitResponse(success: bool, limit: int, remaining: int, reset: int)

  /** The details returned for a blocked request: the response without `success`. */
  datatype Blocked = Blocked(limit: int, remaining: int, reset: int)

  /** A sliding-window limiter of `tokens` requests per `window`. */
  datatype Store = SlidingWindow(tokens: int, window: string)

  /** The limiter's `store` factory: none in development. */
  function CreateStore(nodeEnv: string, max: int, windowMs: int): (s: Option<Store>)
    ensures s.None? <==> nodeEnv == "development"
    ensures s.Some? ==> s.value.tokens == max && WindowMs(s.value.window) == Some(windowMs)
  {
    if nodeEnv == "development" then None
    else
      var window := Decimal(windowMs) + " ms";
      DecimalRoundTrip(windowMs);
      assert window[..|window| - 3] == Decimal(windowMs);
      Some(SlidingWindow(max, window))
  }

  /** Reads a window written as a decimal count followed by " ms". */
  function WindowMs(window: string): Option<int>
  {
    if |window| >= 4 && window[|window| - 3..] == " ms" then
      var count := window[..|window| - 3];
      if forall i :: 0 <= i < |count| ==> IsDigit(count[i]) || (i == 0 && count[i] == '-') then
        Some(DecimalValue(count))
      else None
    else None
  }

  /** `isBlocked(store, fingerprint)`, where `response` is what the store answers. */
  function IsBlocked(store: Option<Store>, response: LimitResponse): (blocked: Option<Blocked>)
    ensures blocked.None? <==> store.None? || response.success
    ensures blocked.Some? ==> blocked.value == Blocked(response.limit, response.remaining, response.reset)
  {
    if store.None? then None
    else if response.success then None
    else Some(Blocked(response.limit, response.remaining, response.reset))
  }

  /** In development nothing is ever blocked, whatever the limits and answers. */
  lemma DevelopmentNeverBlocks(max: int, windowMs: int, response: LimitResponse)
    ensures IsBlocked(CreateStore("development", max, windowMs), response).None?
  {
  }
}
