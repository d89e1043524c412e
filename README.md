# Independent Reserve streaming client — Dafny model

A model of the in-memory state of `IndependentReserveWebSocketClient` in
`ir_client.py`: the client of the Independent Reserve market-data WebSocket
feed. The client keeps three caches (`tickers`, `order_books`,
`recent_trades`) and a set of active channel subscriptions. It also holds the
socket it writes subscribe messages to. The model covers three parts:

- **Message router** (`_handle_message`). A decoded inbound frame is dropped
  when it is an error frame (`e == "error"`), when its channel `n` or payload
  `o` is absent or falsy, or when its channel has no known prefix. Otherwise
  the payload is written into the cache the prefix picks (`ticker`,
  `orderbook`, `recenttrades`). The key is the payload's
  `PrimaryCurrencyCode` and `SecondaryCurrencyCode`, lower-cased and
  concatenated.
- **Cache reads** (`get_latest_*`). A lookup under the same lower-cased key;
  a miss gives `None`.
- **Subscription bookkeeping**. `subscribe_*` builds the channel
  `<kind>-<primary><secondary>` in lower case. `_subscribe` sends one
  `{"m": "subscribe", "n": <channel>}` unless the channel is already active
  or there is no socket. `_resubscribe_all` replays a snapshot of the active
  set and stops at the first send that fails with a closed connection.

Modules, leaf first:

- `Wrappers` (wrappers.dfy): `Option`, the `None`/value result of a lookup.
- `Ascii` (ascii.dfy): ASCII lower-casing, case-insensitive equality, `startswith`.
- `Json` (json.dfy): decoded JSON values, Python truthiness, reading the two currency codes.
- `Protocol` (protocol.dfy): channel kinds and names, the cache key, outbound subscribe messages.
- `Router` (router.dfy): frames, the routing decision, the caches as a value, and the lemmas about routing and reads. `RouterScenario` in the same file replays the frames of `tests/test_ir_client.py`.
- `Subscriptions` (subscriptions.dfy): the subscription state as a value, what one subscribe and one replay do to it, and their lemmas.
- `Client` (client.dfy): the class `IndependentReserveClient`. Its fields are the source's fields. Its methods change them in place and are proved against the functions of `Router` and `Subscriptions`.

Modelling choices:

- A frame is `Frame(e, n, o)`. Each entry may be absent, and each holds a JSON value, so `not channel` and `not payload` follow Python's truthiness (numbers are finite reals; see "## Left out"). A JSON `null` payload is falsy.
- The socket is a flag `hasSocket` (`self.websocket is not None`) and a log `sent` of the messages written to it.
- A send's outcome is an input. `Subscribe` takes `sendOk`; when the send fails, the exception propagates before the channel is added, and the method returns `raised`. `ResubscribeAll` takes `sendsBeforeClose`: the sends numbered below it succeed, and the next one fails with a closed connection.
- `list(self.active_subscriptions)` is `ListOf`. It returns some duplicate-free listing of the set, picked arbitrarily, and `ResubscribeAll` returns the snapshot it replayed.
- `Consistent` is an invariant kept by every method: every sent message is a subscribe for an active channel, and every active channel has had a subscribe sent. It holds because nothing in the source ever removes a channel.
- The client has no subscription expiry or refresh timestamps, no periodic sweeper, no unsubscribe, no signed private channels and no balance handling. The line after the `recenttrades` branch (ir_client.py:79) is only a comment, and the model has none of these either.

## Model

| member | source | states |
|---|---|---|
| `Ascii.Lower` | ir_client.py:71 | lower-casing keeps the length and lower-cases each character on its own |
| `Ascii.EqualIgnoringCaseIffLowerEqual` | ir_client.py:129 | two strings lower-case to the same string exactly when they are case variants of each other, character by character (both directions) |
| `Json.CodedPayloadIsTruthy` | ir_client.py:66 | a payload that carries both currency codes is never rejected as falsy |
| `Protocol.KindOf` | ir_client.py:70-77 | the router picks kind `k` exactly when the channel starts with the prefix of `k` |
| `Protocol.PrefixesExclusive` | ir_client.py:70-77 | no channel starts with two of the three prefixes, so the order of the `elif` tests does not matter |
| `Protocol.SubscribeAll` | ir_client.py:118-121 | the replay messages are one subscribe per channel, at the channel's position |
| `Protocol.InstrumentKeyIgnoresCase` | ir_client.py:129 | case variants of a currency pair give the same cache key |
| `Protocol.ChannelIgnoresCase` | ir_client.py:97-110 | case variants of a currency pair give the same channel name, for each kind |
| `Protocol.ChannelRoutesToItsKind` | ir_client.py:99 | a channel built by `subscribe_<kind>` is routed back to the cache of that kind |
| `Protocol.ChannelsOfDistinctKindsDiffer` | ir_client.py:97-110 | channels of two different kinds are never equal, whatever the pairs |
| `Router.Caches.Put` | ir_client.py:72 | a write changes one entry of one cache and leaves the other two caches alone |
| `Router.ErrorFrameIsDropped` | ir_client.py:58-61 | an error frame is handed to `_handle_error`, which only logs; the call returns normally and leaves all three caches unchanged |
| `Router.MalformedFrameIsDropped` | ir_client.py:63-68 | a frame whose channel or payload is absent or falsy leaves all caches unchanged |
| `Router.UnknownChannelIsDropped` | ir_client.py:70-79 | a frame on a channel with none of the three prefixes leaves all caches unchanged |
| `Router.KnownChannelStores` | ir_client.py:70-78 | a frame on a channel with the prefix of `k` sets `cache_k[lower(P) + lower(S)] := payload`, with P and S from the payload, not the channel; the other caches are unchanged |
| `Router.StoredFrameIsReadBack` | ir_client.py:127-140 | after such a frame, reading kind `k` with any case variant of (P, S) returns exactly that payload |
| `Router.PutTwice` | ir_client.py:72 | writing a key twice keeps only the second value |
| `Router.LaterFrameOverwrites` | ir_client.py:70-78 | a later frame for the same kind and key leaves no trace of the earlier one |
| `Router.ReadAfterOneFrame` | ir_client.py:127-140 | a read after one frame returns that frame's payload if it was stored under the key read, and otherwise what the read returned before |
| `Router.ReadSeesLastWrite` | ir_client.py:127-140 | after any stream of frames, a read returns the payload of the last frame stored under that kind and key, or the earlier value when there is none |
| `Router.NeverWrittenReadsNone` | ir_client.py:130 | from empty caches, a key that no frame wrote reads as `None` |
| `RouterScenario.TestFramesAreCached` | tests/test_ir_client.py:16-36 | after the test's ticker, order-book, recent-trades and error frames, the caches hold exactly `xbtusd`, `ethaud` and `btcusd` with their whole payloads |
| `Subscriptions.AfterSubscribe` | ir_client.py:86-95 | a subscribe keeps the socket flag and adds at most the channel it was given |
| `Subscriptions.SubscribeSendsAtMostOnce` | ir_client.py:86-95 | an active channel or a missing socket means no send and no change; otherwise a successful send appends exactly one subscribe and adds the channel |
| `Subscriptions.SubscribeIsIdempotent` | ir_client.py:88-89 | once a subscribe has succeeded, a repeated subscribe to the channel changes nothing |
| `Subscriptions.CaseVariantSubscribeSendsOnce` | ir_client.py:97-110 | subscribing to a pair and then to a case variant of it sends one message in all |
| `Subscriptions.FreshSessionIsConsistent` | ir_client.py:25-27 | the initial empty state satisfies the bookkeeping invariant |
| `Subscriptions.SubscribePreservesConsistent` | ir_client.py:91-94 | a subscribe keeps the invariant that sent channels and active channels coincide |
| `Subscriptions.AfterResubscribe` | ir_client.py:112-125 | a replay never changes the active set or the socket flag, and only appends to the sent log |
| `Subscriptions.ResubscribeWithoutWorkIsNoOp` | ir_client.py:114-115 | with no socket or no active channel, a replay changes nothing |
| `Subscriptions.ResubscribeFollowsSnapshot` | ir_client.py:118-125 | the replay sends `min(k, snapshot length)` messages when the first `k` sends succeed, the i-th a subscribe to the i-th snapshot channel, and nothing after the first failure |
| `Subscriptions.EnumerationLength` | ir_client.py:118 | a duplicate-free listing of the active set is as long as the set |
| `Subscriptions.DistinctChannelsSubscribedOnce` | ir_client.py:118-121 | replaying a duplicate-free listing sends each listed channel exactly once and no other channel |
| `Subscriptions.CompleteReplaySubscribesEachChannelOnce` | ir_client.py:112-125 | when no send fails, the replay sends exactly one subscribe for each active channel and nothing else |
| `Subscriptions.ResubscribePreservesConsistent` | ir_client.py:112-125 | a replay keeps the bookkeeping invariant |
| `Client.IndependentReserveClient.constructor` | ir_client.py:15-27 | the client starts with empty caches, no subscriptions, no socket, nothing sent and not running |
| `Client.IndependentReserveClient.Attach` | ir_client.py:39 | the connection loop stores the open socket |
| `Client.IndependentReserveClient.HandleMessage` | ir_client.py:56-79 | handling a frame updates the caches as the router decides and leaves subscriptions, socket and sent log unchanged |
| `Client.IndependentReserveClient.Subscribe` | ir_client.py:86-95 | the new state is the one `AfterSubscribe` gives, the call raises exactly when its one send fails, and the invariant is kept |
| `Client.IndependentReserveClient.SubscribeTicker` | ir_client.py:97-100 | subscribes to `ticker-` + lower(primary) + lower(secondary) |
| `Client.IndependentReserveClient.SubscribeOrderBook` | ir_client.py:102-105 | subscribes to `orderbook-` + lower(primary) + lower(secondary) |
| `Client.IndependentReserveClient.SubscribeRecentTrades` | ir_client.py:107-110 | subscribes to `recenttrades-` + lower(primary) + lower(secondary) |
| `Client.IndependentReserveClient.ListOf` | ir_client.py:118 | the snapshot lists every channel of the set exactly once |
| `Client.IndependentReserveClient.ResubscribeAll` | ir_client.py:112-125 | replays a listing of the active set as `AfterResubscribe` describes; the active set is untouched and the invariant is kept |
| `Client.IndependentReserveClient.GetLatestTicker` | ir_client.py:127-130 | the ticker read is the cache read of the router model, on which the round-trip lemmas are proved |
| `Client.IndependentReserveClient.GetLatestOrderBook` | ir_client.py:132-135 | the order-book read is the cache read of the router model |
| `Client.IndependentReserveClient.GetLatestRecentTrades` | ir_client.py:137-140 | the recent-trades read is the cache read of the router model |
| `Client.IndependentReserveClient.Stop` | ir_client.py:142-144 | clears the running flag and changes nothing else |

## Left out

- The `connect` loop (ir_client.py:29-54) is network I/O and async control flow: opening the socket, the `async for` read loop, the 5-second reconnect delay and the retry after an exception. Only its assignment `self.websocket = websocket` is modelled, as `Attach`. The source never resets `websocket` to `None` after a lost connection, and the model has no operation that clears `hasSocket` either. A send into such a stale socket is a failed send (`sendOk == false`).
- JSON text is not modelled (`json.loads`, `json.dumps`, the `JSONDecodeError` branch). Frames and outbound messages are datatypes. A decoded frame that is not a JSON object is not modelled.
- Frames on which the router raises are excluded by `HandleMessage`'s precondition `Routable`; exception propagation is not modelled. These are a known channel whose payload lacks a string `PrimaryCurrencyCode` or `SecondaryCurrencyCode`, and a truthy channel that is not a string.
- `ResubscribeAll` models only the `ConnectionClosed` failure that the source catches; any other exception from a send is not modelled.
- Logging, `dotenv`, the endpoint URL and the API key and secret (ir_client.py:9-18) are not modelled; no send path uses the key or secret.
- Concurrency is not modelled: each call runs to completion before the next one. In the source, two concurrent `_subscribe` calls for one channel could both send, because the channel is added only after the awaited send.
- Python's set iteration order is not modelled: `ListOf` picks some listing.
- Python's Unicode `str.lower()` is not modelled: only ASCII letters are lower-cased.
- JSON numbers are modelled as reals: `NaN`, `Infinity` and `-Infinity`, which `json.loads` accepts, are not modelled. A frame carrying one as its channel or payload is dropped or raises in the source either way, so no cache is affected.
- The text `_handle_error` logs (ir_client.py:81-84) is not modelled, with the rest of the logging; its effect on the client state, none, is `ErrorFrameIsDropped`.
- `running` is only cleared by `Stop`; nothing in the model reads it, because the loop that tests it is left out.
- server.py (the tool-listing and tool-dispatch layer) and tests/test_server.py are not part of this model.
