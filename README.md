# Panda client core, modelled in Dafny

This project models the core of the Panda client for the Discord gateway and REST API:

* **The gateway coordinator in `Client`** (src/client/mod.rs). `start` sends IDENTIFY and spawns a heartbeater. It then classifies each inbound event:
  * Ready records the session id and spawns the ready handler's task, if one is registered.
  * Every other routed dispatch spawns its handler's task, if one is registered.
  * `InvalidSession(b)` stores the resumable flag.
  * `Close(AuthenticationFailed)` ends `start` with that error.
  * Any other `Close` runs `reconnect`. `reconnect` closes the channels and reopens the gateway. It then sends RESUME with the gateway's last sequence if the session is resumable. Otherwise it sends IDENTIFY and marks the session resumable again.
  * Reconnect requests, heartbeat acknowledgements and other events are only logged.
* **The `Session` record** (src/client/session.rs). It holds the session id and the resumable flag, with their getters and setters.
* **`encode`**: the percent-encoder for emoji in reaction URIs. It keeps the unreserved characters of RFC 3986 section 2.3 and writes every other byte as a section 2.1 `%XX` triplet with upper-case hex digits.
* **The REST requests** the `Session` HTTP methods build: verb, URI and rate-limit key.

Layout:

| file | module | role |
|---|---|---|
| wrappers.dfy | `Wrappers` | `Option`, `Result` |
| models.dfy | `Models` | commands, events, dispatch kinds, handler slots, configuration, errors |
| client_spec.dfy | `ClientSpec` | the coordinator as pure transitions (`Step`, `Run`, `Start`, `Reconnect`, …) and the lemmas about them |
| client.dfy | `Client` | class `Client`: one method per source operation, each proved to follow its `ClientSpec` transition; two end-to-end scenarios |
| session.dfy | `Session` | class `Session` |
| percent_encoding.dfy | `PercentEncoding` | `Encode` (the byte loop), its specification `PercentEncode`, a percent-decoder, and their properties |
| routes.dfy | `Routes` | rate-limit keys and request paths of the REST operations |

How the pieces are represented:

* The gateway connection is not part of this model. Its state is a generation counter, which `reconnect` increments, plus the heartbeat interval of the current connection.
* Each inbound event comes paired with what the gateway would do if that event led to a reconnect (`ClientSpec.Tick`). That is whether `close_channels` succeeds, the `Option<u64>` last sequence `gateway.reconnect()` returns, and the new heartbeat interval.
* A heartbeater is a record of the generation whose channel it holds and its interval. When `close_channels` succeeds, every heartbeater of the current generation stops.
* `start` loops forever in the source. Here it runs over a finite event sequence and returns `None` when the sequence runs out, or `Some(AuthenticationFailed)`.

The REST paths follow the source literally, quirks included:
* `get_message` uses `/channel/` (singular).
* `edit_message` posts to `/channels/{id}/messages` with no message id.
* `edit_channel_permissions` issues a GET whose overwrite id is the empty string.

A failed `close_channels` is only logged, and `reconnect` carries on (src/client/mod.rs:227-232). The doc comment at src/client/mod.rs:286-287 says a heartbeater ends when its gateway channel closes. Whether the old channel still closes after a failed `close_channels` depends on `gateway.reconnect()` (src/client/mod.rs:235), and the gateway module is not part of this model. The model assumes that only a successful `close_channels` stops the old heartbeater. Under that assumption, `ClientSpec.ReconnectLeaksWhenCloseFails` shows two heartbeaters running after a failed close. Whatever the outcome of the close, `ClientSpec.ReconnectBindsOneHeartbeater` shows that exactly one heartbeater holds the new connection's channel.

## Model

| member | source | states |
|---|---|---|
| `ClientSpec.NormalizeToken` | src/client/mod.rs:66-70 | the stored token always starts with "Bot " and ends with the token given |
| `ClientSpec.NormalizeTokenFixedPoints` | src/client/mod.rs:68-70 | a token is unchanged exactly when it already starts with "Bot "; any other token becomes exactly "Bot " + token |
| `ClientSpec.NormalizeTokenIdempotent` | src/client/mod.rs:68-70 | normalising twice is normalising once |
| `ClientSpec.UnbindStopsOnlyGeneration` | src/client/mod.rs:286-296 | closing a generation's channels stops exactly that generation's heartbeaters and no others |
| `ClientSpec.ReadyRecordsSessionId` | src/client/mod.rs:94-99 | a Ready dispatch sets the session id whether or not a handler is registered, spawns the ready task only if one is, and changes nothing else |
| `ClientSpec.RoutedDispatchOnlySpawns` | src/client/mod.rs:105-193 | any other routed dispatch spawns its handler's task exactly when the slot is filled, and changes nothing else |
| `ClientSpec.InvalidSessionOnlySetsFlag` | src/client/mod.rs:198-200 | `InvalidSession(b)` sets resumable to `b`; no command, no other change |
| `ClientSpec.LoggedEventsChangeNothing` | src/client/mod.rs:193-216 | Reconnect, HeartbeatACK, unrouted dispatches and unhandled events leave the state unchanged and do not stop the loop |
| `ClientSpec.AuthenticationFailureIsFatal` | src/client/mod.rs:202-211 | `Close(AuthenticationFailed)` ends the loop with that error and the state untouched: no channel close, no reconnect, no command |
| `ClientSpec.RunFailsOnlyOnAuthentication` | src/client/mod.rs:202-214 | the only error the loop ever returns is `AuthenticationFailed` |
| `ClientSpec.RunExtendsOutbound` | src/client/mod.rs:248-284 | the loop only appends commands: everything sent stays sent, in order |
| `ClientSpec.StartSendsIdentifyFirst` | src/client/mod.rs:85-90 | from an idle client, the first command is IDENTIFY with shard [shard id, shard count], and exactly one heartbeater is spawned |
| `ClientSpec.RecoverableCloseResumes` | src/client/mod.rs:235-239 | a non-fatal close of a resumable session appends exactly one RESUME with the token, the session id and the gateway's last sequence; it stays resumable and a new generation starts |
| `ClientSpec.RecoverableCloseReidentifies` | src/client/mod.rs:241-245 | a non-fatal close of a non-resumable session appends exactly one IDENTIFY and sets resumable back to true |
| `ClientSpec.ReconnectBindsOneHeartbeater` | src/client/mod.rs:225-246 | after any reconnect, exactly one heartbeater holds the new connection's channel and none holds a later one, even when closing failed |
| `ClientSpec.ReconnectKeepsOneHeartbeater` | src/client/mod.rs:226-245 | when closing succeeds, a client with one heartbeater again has exactly one, on the new connection and with its interval |
| `ClientSpec.ReconnectLeaksWhenCloseFails` | src/client/mod.rs:227-232 | when closing fails, the old heartbeater keeps running beside the new one |
| `ClientSpec.StepKeepsCurrentHeartbeaterUnique` | src/client/mod.rs:90-217 | every turn of the loop keeps exactly one heartbeater on the current connection |
| `ClientSpec.RunKeepsCurrentHeartbeaterUnique` | src/client/mod.rs:90-219 | the same holds over any event stream |
| `ClientSpec.StartKeepsOneCurrentHeartbeater` | src/client/mod.rs:85-222 | after `start` from a fresh client, exactly one heartbeater holds the current connection's channel, whatever the event stream |
| `ClientSpec.RunKeepsOneHeartbeater` | src/client/mod.rs:90-219 | after any number of reconnects whose channels close, exactly one heartbeater runs: none duplicated, none leaked |
| `ClientSpec.ResumableUntilRevoked` | src/client/mod.rs:198-245 | a resumable session stays resumable through any stream without `InvalidSession(false)` |
| `ClientSpec.RevocationThenCloseIdentifies` | src/client/mod.rs:198-245 | `InvalidSession(false)` followed by a close sends IDENTIFY, never RESUME, and resuming is allowed again |
| `Client.Client.constructor` | src/client/mod.rs:62-79 | the client stores the normalised token, shares it with a fresh session, and starts with no id, resumable, no command, no heartbeater, no handler |
| `Client.Client.New` | src/client/mod.rs:62-79 | a failed gateway connection's error is returned unchanged; otherwise a fresh client holding the normalised token and the given configuration, whose fresh session carries that token, in that initial state |
| `Client.Client.Register` | src/client/mod.rs:36-48 | registering a handler fills its slot |
| `Client.Client.SpawnHeartbeater` | src/client/mod.rs:286-296 | adds one heartbeater bound to the current connection and its interval |
| `Client.Client.CleanConnect` | src/client/mod.rs:248-267 | appends the IDENTIFY built from token and configuration, then spawns one heartbeater |
| `Client.Client.ResumeConnect` | src/client/mod.rs:269-284 | appends RESUME with token, stored session id and given sequence, then spawns one heartbeater |
| `Client.Client.CloseChannels` | src/client/mod.rs:226-232 | on success, stops the current generation's heartbeaters; on failure, changes nothing |
| `Client.Client.ReopenGateway` | src/client/mod.rs:234-235 | starts a new connection generation with its own interval and returns the last sequence |
| `Client.Client.Reconnect` | src/client/mod.rs:225-246 | follows `ClientSpec.Reconnect`: close, reopen, then RESUME or IDENTIFY and resumable again |
| `Client.Client.HandleEvent` | src/client/mod.rs:26-34 | spawns a handler task exactly when its slot is filled |
| `Client.Client.Receive` | src/client/mod.rs:91-217 | one turn of the loop follows `ClientSpec.Step` |
| `Client.Client.Start` | src/client/mod.rs:85-222 | the whole of `start` over a finite stream follows `ClientSpec.Start` |
| `Client.ReadyScenario` | src/client/mod.rs:85-104 | connect, then Ready("abc123"): the id is recorded, only IDENTIFY was sent, one heartbeater runs with the connection's interval |
| `Client.ResumeScenario` | src/client/mod.rs:202-246 | after Ready("abc123") and a connection reset with last sequence 57, the second command is RESUME for "abc123" from 57 |
| `Session.Session.constructor` | src/client/session.rs:30-37 | a fresh session has an empty id and is resumable |
| `Session.Session.SetResumable` | src/client/session.rs:39-42 | stores the flag and leaves the id unchanged |
| `Session.Session.IsResumable` | src/client/session.rs:44-47 | returns the stored flag |
| `Session.Session.SetId` | src/client/session.rs:49-53 | stores the id and leaves the flag unchanged |
| `Session.Session.Id` | src/client/session.rs:55-59 | returns the stored id |
| `Session.SettersRoundTrip` | src/client/session.rs:39-59 | after `set_id(s)` and `set_resumable(b)`, the getters return `s` and `b` |
| `PercentEncoding.Hex` | src/client/session.rs:518 | each digit of `{:02X}` is an upper-case hex digit whose value is the nibble |
| `PercentEncoding.EncodeByte` | src/client/session.rs:513-519 | an unreserved byte is copied; any other byte becomes '%' and two upper-case hex digits whose value is the byte |
| `PercentEncoding.Encode` | src/client/session.rs:510-522 | the byte loop produces exactly `PercentEncode` of its input |
| `PercentEncoding.PercentEncodeAppend` | src/client/session.rs:512-520 | byte order is preserved: encoding a concatenation concatenates the encodings |
| `PercentEncoding.EncodedLengthIsSum` | src/client/session.rs:510-522 | the output length is the sum of 1 per unreserved byte and 3 per escaped byte |
| `PercentEncoding.EncodedIsUrlSafe` | src/client/session.rs:510-522 | the output holds only unreserved characters and '%' |
| `PercentEncoding.EncodedHasNoDelimiters` | src/client/session.rs:257-267 | the encoded emoji holds none of / ? # & @ :, so it stays one segment of a reaction URI |
| `PercentEncoding.EncodeUnreservedIsIdentity` | src/client/session.rs:515 | an all-unreserved input is copied unchanged |
| `PercentEncoding.DecodeEncode` | src/client/session.rs:510-522 | a percent-decoder recovers the original bytes |
| `PercentEncoding.PercentEncodeInjective` | src/client/session.rs:510-522 | distinct byte sequences have distinct encodings |
| `Routes.RateLimitKey` | src/client/session.rs:68-506 | reaction operations use "channel:" + id + ":emoji"; every other operation uses "channels:" + id |
| `Routes.RequestFor` | src/client/session.rs:68-506 | every URI starts with the base URL, and the request carries the operation's rate-limit key |
| `Routes.KeyFamiliesDisjoint` | src/client/session.rs:269-270 | a "channel:…:emoji" key never equals a "channels:" key, for any two channels |
| `Routes.ChannelsKeyInjective` | src/client/session.rs:72-73 | different channels get different "channels:" buckets |
| `Routes.EmojiKeyInjective` | src/client/session.rs:269-270 | different channels get different emoji buckets |
| `Routes.SameBucket` | src/client/session.rs:68-506 | two operations share a bucket exactly when they name the same channel and are both reaction operations or both not; message id and verb play no part |
| `Routes.PathNamesChannel` | src/client/session.rs:207-213 | every path starts with "/channels/" + channel id, except `get_message`, which starts with "/channel/" + channel id |

## Left out

- Asynchronous I/O and concurrency are not modelled. This covers the `GatewayConnection` internals, the `HttpClient` verbs, channel `send`/`next`, `task::spawn` and the heartbeater's timer. The modules that hold them are not part of this model. Gateway outcomes enter as inputs (`ClientSpec.GatewayReconnect`). Spawned tasks are recorded as values: handler slots and heartbeater records.
- The heartbeats themselves (the commands a heartbeater sends) are not modelled, because the heartbeat module is not part of this model. Only the heartbeaters' lifetimes are.
- A failed send of IDENTIFY or RESUME (the `expect` panics) is not modelled. Every send is taken to succeed.
- When the inbound stream yields no event (`next()` returns `None`), `start` polls again forever. The model ends the loop when its finite event sequence runs out.
- Per-bucket rate-limit admission, waiting and retry are not modelled: they live in the http module. Only the key derivation is modelled.
- Sequence-number tracking and its monotonicity are not modelled: they live in the gateway module. The last sequence is an input to a reconnect.
- JSON request bodies and response decoding (`serde_json`, `res.json().unwrap()`) are not modelled. Requests carry verb, URI and rate-limit key only.
- The `Mutex` around the session id and the atomic resumable flag are plain fields.
- The per-kind `on_*` methods generated by macro are modelled as one `Register` over handler slots. Handler functions and event payloads are not kept, except Ready's session id.
- The values of `Config::new_default` and of `DISCORD_URL` are defined outside the modelled files. They are parameters.
- The conversion of `encode`'s `&str` argument to UTF-8 bytes is not modelled. `Encode` takes the bytes.
- Event variants beyond those `start` names are represented by `Hello`. Error variants other than `AuthenticationFailed` are one `OtherError`.
- src/lib.rs only re-exports modules and wraps `Client::new`, and src/models/gateway/events/guild_role_update.rs is a plain data record. Neither has behaviour to verify. `new_with_config` has an empty body.
