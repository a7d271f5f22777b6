# bhaicord, modelled in Dafny

This project models the core of bhaicord, a small asynchronous Discord bot
library written in Python. The model covers these parts:

- **The gateway connection** (`Gateway`). It covers the opcodes, the identify,
  resume and heartbeat frames, and the zlib-stream marker test. `DiscordWebSocket`
  is a class. Its fields (sequence, heartbeat interval, session id, reconnect
  flag, latency) are updated in place by each received frame.
- **The bounded user and message caches** (`LookupCache`, `UserBase`,
  `MessageBase`). Each is an insertion-ordered dict with evict-first-inserted.
  The message cache's eviction deletes with the whole key list as the key, as the
  code does.
- **The event registry of the client** (`BotClient`). It covers name
  normalisation, one primary handler per event, ordered listeners, routing of
  `ready` and `message_create`, and the one-slot `wait_for` future.
- **The embed builder** (`Embeds`). It covers the attrs component classes, the
  in-place field list with Python indexing, the colour check, `to_dict` and
  `from_dict`.
- **Argument normalisation and URLs** (`MessageBase`, `WebhookBase`, `Webhooks`,
  `Http`, `ImageBase`):
  - message send and edit, webhook send and delete;
  - REST URL and status handling, the multipart `attachments` list;
  - CDN image URLs.
- **Small pure rules** (`Intents`, `Utils`, and the model constructors in
  `Users`, `Messages`, `Channels`, `Roles`, `Emojis`, `Presences` and `Files`).
  These cover defaults, enum validation and string formatting.

Python's own semantics are modelled in shared modules:

- `Wrappers`: an `Option` type, and a `Result` type whose error names the Python
  exception class.
- `PyValues`: a JSON-like `Value`, truthiness, `str()`, `int()`, `v[key]`,
  `v.get(key, default)` and iteration.
- `PyDict`: insertion-ordered dicts in which re-assigning a key keeps its place.
- `PyLists`: Python list indexing with negative indices, `pop`, and
  `[f(x) for x in xs]` stopping at the first exception.
- `PyStrings`: `startswith`, `lower`, `str(int)`, `int(str)`, `hex`, `split`,
  `join` and `strip`.

I/O is never modelled. The network, inflating, JSON decoding and the clock are
parameters:

- a decoded payload is handed to `HandleFrame`;
- a fetched object, or the exception building it, is handed to the cache
  functions;
- the server's status is handed to `Request`;
- the current time is handed to `SendHeartbeat` and `HandleFrame`.

The global current client appears as a `client: bool` parameter, which is true
when a client exists. Every operation that calls `get_client()` takes it, and
fails with ClientNotFound at that call when it is false.

## Model

| member | source | states |
|---|---|---|
| Gateway.Decompress | bhaicord/websocket.py:112-128 | A payload is produced exactly when the message is at least 4 bytes long and ends in `00 00 FF FF`; the payload is then the whole message, with no accumulation of fragments |
| Gateway.Identify | bhaicord/websocket.py:82-98 | The identify frame has op 2, and its `d` carries the token, the intents and a null presence |
| Gateway.Resume | bhaicord/websocket.py:100-110 | The resume frame has op 6, and its `d` carries the token, the session id and the sequence given |
| Gateway.Heartbeat | bhaicord/websocket.py:130-141 | The heartbeat frame is exactly `{op: 1, d: sequence}` |
| Gateway.StartActions | bhaicord/websocket.py:194-205 | `start` always connects; it sends one more frame, the resume frame built from the current fields, exactly when a Reconnect happened before |
| Gateway.Receive | bhaicord/websocket.py:157-192 | One pass of the loop: a close frame only marks the socket closed and any non-binary message leaves the fields as they were, without raising; a binary message without the zlib marker or that does not decode raises and changes nothing; no message touches the time of the last heartbeat |
| Gateway.OnPayload | bhaicord/websocket.py:168-192 | A decoded payload sets `has_disconnected` exactly when it is a Reconnect (or it was already set), and a Reconnect never raises; only a Reconnect reopens or closes the socket; no payload touches the time of the last heartbeat |
| Gateway.OnHello | bhaicord/websocket.py:174-176 | Hello changes no field but the heartbeat interval |
| Gateway.OnDispatch | bhaicord/websocket.py:178-182 | A dispatch changes no field but the session id |
| Gateway.OnAck | bhaicord/websocket.py:184-186 | A heartbeat acknowledgement changes no field but the latency |
| Gateway.OnReconnect | bhaicord/websocket.py:188-192 | Reconnect never raises; it marks the socket disconnected, and the socket ends open after `start` runs again; no other field changes |
| Gateway.Dispatched | bhaicord/websocket.py:178-182 | A dispatch raises what the awaited event handler raised; otherwise it is forwarded |
| Gateway.Drive | bhaicord/websocket.py:157-192 | The read loop over a run of messages keeps the time of the last heartbeat, and never raises on a run without binary messages |
| Gateway.SequenceTracksLastFrame | bhaicord/websocket.py:171-172 | Every frame with a `d` entry overwrites `sequence` with its `s`, null when absent, whatever its opcode and even when handling it later raises |
| Gateway.HelloIdentifies | bhaicord/websocket.py:174-176 | Hello stores `d.heartbeat_interval` and answers with exactly one identify frame |
| Gateway.OnlyReadySetsSession | bhaicord/websocket.py:178-182 | The session id changes only on a READY dispatch, and then to the id that dispatch carries, whether or not the event handler then raises |
| Gateway.ReadyStoresSession | bhaicord/websocket.py:178-182 | A READY dispatch carrying `session_id` stores it, whether or not the event handler then raises, and is forwarded when the handler returns |
| Gateway.OnlyHelloSetsInterval | bhaicord/websocket.py:174-176 | Only Hello changes the heartbeat interval |
| Gateway.DispatchForwarded | bhaicord/websocket.py:178-182 | A dispatch succeeds exactly when it has a `t`, a READY carries `session_id`, and the event handler returns; it is then forwarded exactly once, with its `t` and `d`; a non-READY dispatch changes no field but `sequence` |
| Gateway.HandlerErrorPropagates | bhaicord/websocket.py:178-182 | A dispatch whose event handler raises ends the pass with that exception, and a READY has stored its session id before it |
| Gateway.AckMeasuresLatency | bhaicord/websocket.py:184-186 | A heartbeat acknowledgement before the interval is known changes nothing but `sequence`; once it is known, it raises TypeError while no heartbeat has been sent, and otherwise sets `latency` to the milliseconds since the last heartbeat and nothing else; that latency is non-negative when the clock has not gone back |
| Gateway.OnlyAckSetsLatency | bhaicord/websocket.py:184-186 | Only a heartbeat acknowledgement changes the latency, over a whole pass of the read loop |
| Gateway.PayloadOnlyAckSetsLatency | bhaicord/websocket.py:184-186 | Only a heartbeat acknowledgement changes the latency of a decoded payload |
| Gateway.OtherOpcodesIgnored | bhaicord/websocket.py:171-192 | A frame whose opcode is none of Hello, Dispatch, Heartbeat ACK and Reconnect changes nothing but `sequence` and raises nothing |
| Gateway.InvalidSessionIgnored | bhaicord/websocket.py:171-192 | An Invalid Session frame (op 9) changes nothing but `sequence` and raises nothing |
| Gateway.ReconnectResumes | bhaicord/websocket.py:188-192 | Reconnect closes the socket, opens a new one and sends a resume frame with the current session id and the Reconnect frame's own sequence; `has_disconnected` becomes true |
| Gateway.ErrorsChangeOnlySequence | bhaicord/websocket.py:157-192 | A message whose handling raises leaves every field except `sequence` and `session_id` unchanged, and changes `session_id` only when it is a READY dispatch whose event handler raised that exception |
| Gateway.DriveStopsAtError | bhaicord/websocket.py:157-192 | The read loop ends with the first exception, from the frame or from the event handler: a run in which message i raises ends with message i's outcome, and nothing after it is handled |
| Gateway.DriveAppend | bhaicord/websocket.py:157-192 | Reading `a + b` is reading `a`, then, unless that raised, reading `b` from the fields `a` left, with the actions of both in order |
| Gateway.DriveSessionFromReady | bhaicord/websocket.py:178-182 | After any run of messages, the session id is the initial one or one carried by a received dispatch |
| Gateway.DiscordWebSocket.constructor | bhaicord/websocket.py:67-80 | A new socket has no interval, sequence, session id or latency, and has not disconnected |
| Gateway.DiscordWebSocket.Start | bhaicord/websocket.py:194-205 | Marks the new socket open and returns `StartActions` of the fields before the call; no other field is reset |
| Gateway.DiscordWebSocket.SendHeartbeat | bhaicord/websocket.py:130-141 | Sends the heartbeat frame and records the time only when the socket is open; a closed socket changes nothing; before any socket exists the call raises AttributeError |
| Gateway.DiscordWebSocket.HandleFrame | bhaicord/websocket.py:157-192 | The result and the new fields are exactly those of `Receive` for the message, its decoding and the event handler's outcome, so every lemma about `Receive` holds of the object |
| Gateway.DiscordWebSocket.HandlePayload | bhaicord/websocket.py:168-192 | The result and the new fields are exactly those of `OnPayload`, including a READY whose handler raises after the session id is stored |
| Gateway.DiscordWebSocket.HandleHello | bhaicord/websocket.py:174-176 | The result and the new fields are exactly those of `OnHello` |
| Gateway.DiscordWebSocket.HandleDispatch | bhaicord/websocket.py:178-182 | The result and the new fields are exactly those of `OnDispatch`, the session id stored before the handler's exception |
| Gateway.DiscordWebSocket.HandleAck | bhaicord/websocket.py:184-186 | The result and the new fields are exactly those of `OnAck` |
| Gateway.DiscordWebSocket.Run | bhaicord/websocket.py:151-192 | The loop's result and final fields are exactly those of `Drive`: messages are handled in order until one raises, from the frame or from the event handler; a close frame does not end the loop, since `while self.sock` tests only that a socket object exists |
| LookupCache.DistinctCard | bhaicord/APIBase/user_base.py:32 | A key order without repeats is as long as its set of keys |
| LookupCache.SizeIsEntryCount | bhaicord/APIBase/user_base.py:32 | `len(cache)` counts the entries of a valid cache |
| LookupCache.EvictFirst | bhaicord/APIBase/user_base.py:33-35 | Removing the first key of `keys()` drops the earliest-inserted key; an empty cache raises IndexError |
| LookupCache.InsertValid | bhaicord/APIBase/user_base.py:40 | `cache[k] = v` keeps the cache valid, maps `k` to `v`, keeps every other entry, and grows the size only for a new key |
| LookupCache.EvictFirstValid | bhaicord/APIBase/user_base.py:33-35 | Eviction keeps the cache valid, removes exactly the earliest key, keeps every other entry and shrinks the size by one |
| LookupCache.Cache.constructor | bhaicord/client.py:40-41 | A new cache is empty and valid |
| LookupCache.Cache.Get | bhaicord/APIBase/user_base.py:27 | `cache.get(k)` finds a value exactly when `k` is present, and then the stored value |
| LookupCache.Cache.Length | bhaicord/APIBase/user_base.py:32 | `len(cache)` is the number of entries |
| LookupCache.Cache.Put | bhaicord/APIBase/user_base.py:40 | The new contents are the old ones with `k` assigned, keeping insertion order |
| LookupCache.Cache.DeleteFirst | bhaicord/APIBase/user_base.py:33-35 | The new contents are those after evicting the earliest key; an empty cache raises and is unchanged |
| UserBase.HitReturnsCached | bhaicord/APIBase/user_base.py:27-30 | A hit returns the cached user, requests nothing and leaves the cache unchanged |
| UserBase.MissOnFullCacheEvictsEarliest | bhaicord/APIBase/user_base.py:32-38 | A miss on a full cache removes exactly the earliest-inserted user before the request; every other user stays unless the response reuses its id |
| UserBase.FailedFetchStillEvicts | bhaicord/APIBase/user_base.py:32-38 | A failed fetch after eviction leaves one user fewer and adds none |
| UserBase.StoredUnderResponseId | bhaicord/APIBase/user_base.py:37-42 | A successful miss returns the fetched user and stores it under the response's id, not the requested one |
| UserBase.StaysWithinBound | bhaicord/APIBase/user_base.py:32-40 | A valid cache within a bound of at least one stays valid and within the bound after any call |
| UserBase.EmptyZeroSizedCacheFails | bhaicord/APIBase/user_base.py:32-33 | With bound zero and an empty cache, a miss raises IndexError while picking the key to evict, before any request |
| UserBase.FetchUser | bhaicord/APIBase/user_base.py:11-42 | A request is made only with a client and on a miss, for `/users/{id}`; a successful result without a request is a hit that leaves the cache unchanged |
| UserBase.NoClientFetchesNothing | bhaicord/APIBase/user_base.py:25 | Without a client the fetch raises ClientNotFound, requests nothing and leaves the cache unchanged |
| UserBase.FetchUserBase | bhaicord/APIBase/user_base.py:11-42 | The method on the client's cache gives the result, request and new contents of the specification `FetchUser` |
| MessageBase.EmbedDicts | bhaicord/APIBase/message_base.py:54 | One `to_dict` result per embed, in order |
| MessageBase.CreateMessage | bhaicord/APIBase/message_base.py:12-58 | Fails exactly without a client or when both embed forms or both file forms are given; otherwise a POST of a dict payload with a file list to `/channels/{id}/messages` |
| MessageBase.EditMessage | bhaicord/APIBase/message_base.py:63-94 | Fails exactly without a client or when both embed forms are given; otherwise a PATCH of a dict payload with no files |
| MessageBase.DeleteMessage | bhaicord/APIBase/message_base.py:97-103 | Succeeds exactly with a client, as a DELETE with no payload and no files |
| MessageBase.CreateMessageArguments | bhaicord/APIBase/message_base.py:23-58 | Without a client `create_message` raises ClientNotFound first; with one it raises exactly when embed and embeds, or file and files, are both given; otherwise it POSTs a payload with the content as a string (None kept), the tts flag, the embeds' dicts in order (a single embed as a one-element list), `{}` for absent allowed mentions, and the files as a list |
| MessageBase.CreateMessagePrepared | bhaicord/APIBase/message_base.py:48-58 | A message that passes the checks can always be prepared by `request`, at `/channels/{id}/messages`, as multipart exactly when there is a file |
| MessageBase.EditMessageArguments | bhaicord/APIBase/message_base.py:74-94 | Without a client `edit_message` raises ClientNotFound first; with one it raises exactly when both embed and embeds are given; otherwise the PATCH carries the content as a string (None kept), the embeds' dicts and the allowed mentions as given |
| MessageBase.EditMessageSent | bhaicord/APIBase/message_base.py:86-94 | `request` adds the leading slash the edit URL lacks, and the edit goes as JSON |
| MessageBase.ChannelsPathSlash | bhaicord/http.py:128-131 | A `channels/...` URL reaches `api_url + "/channels/..."` |
| MessageBase.DeleteMessageSendsNoBody | bhaicord/APIBase/message_base.py:97-103 | Without a client the call raises ClientNotFound; with one the DELETE goes to `/channels/{c}/messages/{m}` with no body |
| MessageBase.MessageHit | bhaicord/APIBase/message_base.py:107-115 | A hit, looked up by the int value of the id, returns the cached message without a request |
| MessageBase.StoredUnderRequestedId | bhaicord/APIBase/message_base.py:122-130 | A successful miss below the bound stores the message under the requested, int-converted id and returns it |
| MessageBase.FullCacheMissAlwaysFails | bhaicord/APIBase/message_base.py:117-120 | As written, every miss on a full cache raises TypeError, requests nothing and leaves the cache unchanged |
| MessageBase.FullCacheCounterexample | bhaicord/APIBase/message_base.py:117-120 | A cache of size one holding message 1 can never fetch message 2 |
| MessageBase.IntendedFetchSucceedsWithinBound | bhaicord/APIBase/message_base.py:117-120 | With the earliest key evicted, a miss on a full cache does reach the server, returns its message, and keeps the cache valid and within the bound |
| MessageBase.FetchMessageBase | bhaicord/APIBase/message_base.py:106-130 | The method on the client's message cache gives the result, request and new contents of the specification `FetchMessage` |
| MessageBase.FetchMessage | bhaicord/APIBase/message_base.py:106-130 | A request is made only with a client, both ids converted, a miss and a cache below the bound, for the message's endpoint; the cache changes only when such a request succeeds |
| MessageBase.FetchMessageChecksIdsFirst | bhaicord/APIBase/message_base.py:106-110 | The message id is converted first, then the channel id, then the client is looked up; each failure leaves the cache unchanged and requests nothing |
| MessageBase.FetchMessageIntended | bhaicord/APIBase/message_base.py:106-130 | The corrected fetch requests only with a client, converted ids and a miss; a successful result without a request is a hit on the converted id that leaves the cache unchanged |
| BotClient.AddOn | bhaicord/client.py:51-57 | The result always starts with "on_"; it is the name itself when the name already did, else "on_" plus the name |
| BotClient.AddOnIdempotent | bhaicord/client.py:51-57 | Normalising twice is normalising once |
| BotClient.AddOnSameKey | bhaicord/client.py:51-57 | Two names share a key exactly when they agree once the optional prefix is removed |
| BotClient.Scheduled | bhaicord/client.py:118-130 | The primary handler is scheduled first, then each listener in registration order, all with the same event object |
| BotClient.UnregisteredIgnored | bhaicord/client.py:132-135 | An event whose normalised lower-case name is not registered schedules nothing |
| BotClient.RoutedEventsScheduleAll | bhaicord/client.py:137-159 | For `ready` and `message_create` in any letter case, the handler and each listener run exactly once with the same object; any other registered event schedules nothing |
| BotClient.Dispatched | bhaicord/client.py:137-159 | The handler raises exactly when the event is registered, routed (`ready` or `message_create`) and building its object raised, with that exception; every scheduled task gets the object built |
| BotClient.Latency | bhaicord/client.py:59-69 | The client's latency is 0 until the socket has one, and otherwise the socket's |
| BotClient.Future.constructor | bhaicord/client.py:237 | A new future is pending |
| BotClient.Future.SetResult | bhaicord/client.py:149-153 | Only a pending future takes a result; a second resolution is refused and changes nothing |
| BotClient.Future.Cancel | bhaicord/client.py:244 | A timeout cancels a pending future and leaves a finished one alone |
| BotClient.Client.constructor | bhaicord/client.py:27-46 | A new client has no events, no pending `wait_for` future, the placeholder token and no event loop |
| BotClient.Client.Event | bhaicord/client.py:71-87 | A non-coroutine or an already registered name raises, with `events` unchanged; otherwise exactly one entry, with no listeners, is added under the normalised name and the others are untouched |
| BotClient.Client.Listen | bhaicord/client.py:89-112 | A name without a primary handler raises "event not found"; a non-coroutine raises; otherwise the listener is appended at the end of that event's list only |
| BotClient.Client.EventHandler | bhaicord/client.py:114-159 | Schedules what `Dispatched` says; a `message_create` resolves the pending `wait_for` future at most once |
| BotClient.Client.WaitFor | bhaicord/client.py:230-244 | Before `run` has taken an event loop it raises AttributeError and changes nothing; afterwards a fresh pending future replaces whatever the slot held; the events are untouched |
| BotClient.Client.Run | bhaicord/client.py:167-178 | Keeps the token and takes the event loop, leaving the events and the waiting future as they were |
| Embeds.Construct | bhaicord/models/embed.py:30-135 | Keyword construction of an attrs class succeeds exactly when every keyword is an attribute and every required attribute is given; it then holds each given value and None elsewhere, and raises TypeError otherwise |
| Embeds.CallWithKwargs | bhaicord/models/embed.py:198 | `Cls(**v)` raises unless `v` is a dict |
| Embeds.MakeOptionalWith | bhaicord/utils.py:115-133 | `make_optional(Cls, kwargs=v)` is the instance, or None when construction raises; a None `v` calls the class with no arguments |
| Wrappers.ToOption | bhaicord/utils.py:127-133 | `make_optional` on an int conversion: the converted value when it succeeds, None exactly when it raises |
| Embeds.ObjToDictKeepsPublic | bhaicord/utils.py:38-52 | `from_obj_to_dict` keeps every attribute of an object whose names are public and distinct, in order |
| Embeds.ConstructRoundTrip | bhaicord/utils.py:22-52 | An attrs instance converted by `from_obj_to_dict` and passed back to its class is rebuilt unchanged |
| Embeds.SpecsPublicDistinct | bhaicord/models/embed.py:30-106 | EmbedFooter's and EmbedField's attribute names are public and distinct |
| Embeds.Footer | bhaicord/models/embed.py:288-292 | The footer `set_footer` builds is a valid EmbedFooter construction |
| Embeds.Media | bhaicord/models/embed.py:266-271 | The image and thumbnail the setters build are valid constructions of their classes |
| Embeds.Provider | bhaicord/models/embed.py:248 | The provider `set_provider` builds is a valid EmbedProvider construction |
| Embeds.Author | bhaicord/models/embed.py:336-340 | The author `set_author` builds is a valid EmbedAuthor construction |
| Embeds.Field | bhaicord/models/embed.py:361 | A field built from a name, a value and an inline flag is a valid EmbedField construction |
| PyStrings.Strip | bhaicord/models/embed.py:397-398 | `strip(c)` returns the middle run of the string that starts after its leading `c`s, begins and ends with another character, and leaves only `c`s after it |
| Embeds.StripKey | bhaicord/models/embed.py:397-398 | A stripped key never starts with "_", a public key is kept as it is, and a private key loses exactly its leading underscores and keeps a middle run of what follows |
| Embeds.ObjectDicts | bhaicord/models/embed.py:400-406 | A list attribute of any mix becomes the dicts of its object elements, in order (`AsDicts` of `Objects`) |
| Embeds.Objects | bhaicord/models/embed.py:403 | Keeps exactly the object elements of a list |
| Embeds.AsDicts | bhaicord/models/embed.py:403 | One dict per object, in order, each the object's public attributes |
| Embeds.ObjectsOfObjects | bhaicord/models/embed.py:400-406 | A list made only of objects keeps every element |
| Embeds.PrivateKeysMatchFromDict | bhaicord/models/embed.py:176-200 | The seven private component attributes are emitted under the keys `from_dict` reads: "fields", "thumbnail", "image", "video", "provider", "author" and "footer" |
| Embeds.EmbedDictKeysPublic | bhaicord/models/embed.py:391-413 | No key of `to_dict`'s result starts with an underscore |
| Embeds.EmbedDictEntries | bhaicord/models/embed.py:391-413 | With distinct stripped names, `to_dict` has one key per attribute, in attribute order, holding the converted value |
| Embeds.ObjectDictsOfObjects | bhaicord/models/embed.py:400-406 | A list of any mix keeps its object elements in order, each turned into a dict, and drops the rest; a list of objects keeps them all, one with no objects becomes empty |
| Embeds.ChosenColor | bhaicord/models/embed.py:155-161 | Giving both color and colour raises; otherwise the colour is whichever was given, or None |
| Embeds.InitialState | bhaicord/models/embed.py:152-173 | A new embed has no fields, empty components, no `colour` attribute and no type |
| Embeds.FieldsFrom | bhaicord/models/embed.py:197-198 | A successful build gives one field per input element |
| Embeds.FromDictState | bhaicord/models/embed.py:176-200 | `from_dict` succeeds only on a dict |
| Embeds.FromDictColour | bhaicord/models/embed.py:184-185 | `from_dict` sets both `color` and `colour` from "color" |
| Embeds.FieldsFromInOrder | bhaicord/models/embed.py:197-198 | The fields are built in input order, and one element that is not valid EmbedField arguments makes the call raise |
| Embeds.FromDictAbsentComponents | bhaicord/models/embed.py:188-193 | With no components given, thumbnail, image, video, author and footer are None, but the provider is an EmbedProvider with both attributes None |
| Embeds.FieldsRoundTrip | bhaicord/models/embed.py:197-198 | Fields written by `to_dict` are read back unchanged by `from_dict` |
| Embeds.FieldRoundTrip | bhaicord/models/embed.py:360-385 | Every field `add_field` or `edit_field` builds survives `to_dict` and `from_dict` |
| Embeds.FooterLostByFromDict | bhaicord/models/embed.py:193 | As written, a footer that `to_dict` produced from `set_footer` is read back as None |
| Embeds.FooterFromDict | bhaicord/models/embed.py:193 | As written the footer is None or an EmbedAuthor; a None footer and any footer dict with a `text` key are read as None |
| Embeds.FooterFromDictIntended | bhaicord/models/embed.py:193 | Read with EmbedFooter, a footer dict gives an instance exactly when it has `text` and only EmbedFooter's keys, and the instance holds those attributes |
| Embeds.FooterRoundTripIntended | bhaicord/models/embed.py:193 | Read with EmbedFooter, a footer survives `to_dict` and `from_dict` |
| Embeds.FieldsFromFailsOnPrefix | bhaicord/models/embed.py:197-198 | Once a prefix of the list fails, the whole list fails with the same error |
| Embeds.Embed.constructor | bhaicord/models/embed.py:179 | An instance holds exactly the state it was created with |
| Embeds.Embed.New | bhaicord/models/embed.py:141-173 | The constructor raises exactly when `ChosenColor` does; otherwise the new embed holds `InitialState` with the chosen colour |
| Embeds.Embed.FromDict | bhaicord/models/embed.py:175-200 | Fails as `FromDictState` fails; otherwise a fresh embed holds the `FromDictState` result |
| Embeds.Embed.SetProvider | bhaicord/models/embed.py:237-249 | Replaces only the provider and returns the embed itself |
| Embeds.Embed.SetImage | bhaicord/models/embed.py:251-272 | Replaces only the image, keeping the url as given, and returns the embed itself |
| Embeds.Embed.SetFooter | bhaicord/models/embed.py:274-294 | Replaces only the footer, with `str(text)`, and returns the embed itself |
| Embeds.Embed.SetThumbnail | bhaicord/models/embed.py:296-318 | Replaces only the thumbnail, with `str(url)`, and returns the embed itself |
| Embeds.Embed.SetAuthor | bhaicord/models/embed.py:320-342 | Replaces only the author, with `str(name)`, and returns the embed itself |
| Embeds.Embed.AddField | bhaicord/models/embed.py:344-363 | Appends exactly one field, with string name and value and a bool inline, keeps the earlier fields and returns the embed itself |
| Embeds.Embed.DeleteField | bhaicord/models/embed.py:365-371 | Removes the field at a valid Python index (negative from the end); out of range the embed is unchanged |
| Embeds.Embed.EditField | bhaicord/models/embed.py:373-389 | Replaces only the field at a valid Python index and returns the embed; out of range it returns None and changes nothing |
| Embeds.Embed.ToDict | bhaicord/models/embed.py:391-413 | The result is `EmbedDict` of the embed's attributes, whose properties are the lemmas above |
| Embeds.Embed.ConvertValue | bhaicord/models/embed.py:400-406 | The inner loop gives a list attribute as the dicts of its object elements, an object as its dict, and any other value unchanged |
| Files.ContentOf | bhaicord/models/file.py:26-36 | A string source is its own content; only a source that is neither text, string nor binary has none |
| Files.NewFile | bhaicord/models/file.py:7-36 | `filename` defaults to "no_file_name.txt" and `description` to None; the content is computed from the source |
| Files.ToDict | bhaicord/models/file.py:38-43 | Exactly the keys id, filename and description, in that order, holding the index, the name and the description |
| Files.NewAttachment | bhaicord/models/file.py:46-57 | An attachment is read exactly when the dict has `id` and `filename` (KeyError otherwise, TypeError for a non-dict); every other field is None when absent |
| Files.AttachmentOfFileDict | bhaicord/models/file.py:38-57 | An attachment read back from a file's `to_dict` has that index, name and description and nothing else |
| Http.Writer.constructor | bhaicord/http.py:19-20 | A new writer's buffer is empty |
| Http.Writer.Write | bhaicord/http.py:22-23 | Appends the data after the previous contents, which are kept |
| Http.AuthHeaders | bhaicord/http.py:44-48 | Authorization is "Bot " plus the token, Accept is JSON, and there are exactly three headers |
| Http.NormalisedUrl | bhaicord/http.py:128-129 | The URL always starts with "/"; a "/" is added exactly when missing |
| Http.NormalisedUrlIdempotent | bhaicord/http.py:128-131 | Normalising is idempotent, and a URL with or without its leading slash reaches the same endpoint |
| Http.Attachments | bhaicord/http.py:74-75 | One attachment description per file, in order, with the file's index as id |
| Http.MultipartPayload | bhaicord/http.py:66-75 | Only a dict payload can take the attachments list; a string payload raises AttributeError in `json.load` |
| Http.MultipartPayloadAttachments | bhaicord/http.py:69-75 | Attachment i has id i and the i-th file's name and description, and every other payload key keeps its value |
| Http.MultipartHandler | bhaicord/http.py:51-95 | The loop builds exactly `MultipartPayload` |
| Http.Prepare | bhaicord/http.py:128-139 | The endpoint is `api_url` plus the normalised URL; the content type is multipart exactly when there are files; preparing fails only for files with a non-dict payload |
| Http.Respond | bhaicord/http.py:148-158 | 204 returns None, a status of 400 or more raises "HTTP error", and any other status returns the response |
| Http.SentOnlyWithSession | bhaicord/http.py:141-158 | A call is sent exactly when its payload can be prepared and a session exists; without a session it raises |
| Http.Requested | bhaicord/http.py:101-158 | A call succeeds only with a session and a status below 400, and what is sent is exactly the prepared call |
| Http.HTTPClient.constructor | bhaicord/http.py:33-36 | A new client has its token and API URL and no session |
| Http.HTTPClient.Authenticate | bhaicord/http.py:38-48 | The session carries the headers of `AuthHeaders` |
| Http.HTTPClient.Request | bhaicord/http.py:101-158 | What is sent and what is returned are those of the specification `Requested` |
| ImageBase.MakeImageUrlCases | bhaicord/APIBase/image_base.py:30-55 | The size check decides first (SizeOutOfBounds iff the size is below 16 or above 4096); no hash and no tag gives None; no hash with a tag gives the default avatar at `tag % 5`, in 0..4; a hash gets ".gif" exactly when it starts with "a_"; the flag picks the avatar or banner template with the size |
| ImageBase.MakeImageUrl | bhaicord/APIBase/image_base.py:5-55 | Raises SizeOutOfBounds exactly when the size is outside 16..4096; a URL is the default avatar exactly when there is no hash |
| ImageBase.MakeApplicationImage | bhaicord/APIBase/image_base.py:58-66 | A URL exactly when there is a hash: the CDN URL, "/app-icons/{id}/{hash}.png" |
| ImageBase.MakeRoleIcon | bhaicord/APIBase/image_base.py:69-73 | A URL exactly when there is an icon: the CDN URL, "/role-icons/{id}/{icon}.png" |
| ImageBase.IconUrlsShape | bhaicord/APIBase/image_base.py:58-73 | Both icon URLs start with the CDN URL, end in ".png" and differ only in their directory |
| Intents.FlagsAreDistinctBits | bhaicord/intents.py:2-19 | Every intent is a single bit other than bit 15, and no two intents share a bit or a name |
| Intents.PrivilegedEntries | bhaicord/intents.py:2-42 | The two names `standard()` skips are exactly table entries 1 (GUILD_MEMBERS) and 8 (GUILD_PRESENCES) |
| Intents.OrOfAppend | bhaicord/intents.py:26-31 | The OR over two tables is the OR of their ORs |
| Intents.OrOfOrderIndependent | bhaicord/intents.py:26-31 | The mask is the same for any two tables that are permutations of each other, and so does not depend on the order the table is walked |
| Intents.OrOfPermutation | bhaicord/intents.py:26-31 | Two tables with the same entries in any order give the same mask |
| Intents.StandardKeepsUnprivileged | bhaicord/intents.py:38-44 | `standard()` walks exactly the entries that are not privileged |
| Intents.StandardCounts | bhaicord/intents.py:38-44 | `standard()` keeps each non-privileged entry as many times as it occurs and drops every privileged one |
| Intents.StandardPermutation | bhaicord/intents.py:33-44 | `standard()` gives the same mask for any two tables that are permutations of each other |
| Intents.AllValue | bhaicord/intents.py:21-31 | The OR of all flags is 0x17FFF, bits 0 to 14 and 16 |
| Intents.StandardStep | bhaicord/intents.py:40-43 | Each entry is ORed in unless it is GUILD_MEMBERS or GUILD_PRESENCES |
| Intents.OrStandardOfStandard | bhaicord/intents.py:38-44 | Skipping the privileged names while walking the table gives the same mask as OR-ing the kept entries |
| Intents.StandardFirstHalf | bhaicord/intents.py:38-44 | Walking the first eight entries gives 0xFD: GUILD_MEMBERS is skipped |
| Intents.StandardSecondHalf | bhaicord/intents.py:38-44 | The whole table gives 0x17EFD: GUILD_PRESENCES is skipped too |
| Intents.StandardValue | bhaicord/intents.py:33-44 | `standard()` is `all()` with bits 1 and 8 cleared, 0x17EFD, and so a subset of `all()` |
| Intents.OrFlags | bhaicord/intents.py:26-31 | The loop over any table leaves the OR of all its flags |
| Intents.OrStandardFlags | bhaicord/intents.py:38-44 | The loop over any table, skipping the privileged names, leaves the OR of the kept flags |
| Intents.All | bhaicord/intents.py:21-31 | `all()` returns the OR of every flag, 0x17FFF |
| Intents.StandardMask | bhaicord/intents.py:33-44 | `standard()` returns the OR of the non-privileged flags, 0x17EFD |
| Utils.AddExt | bhaicord/utils.py:87-92 | The hash is kept in front; the extension is ".gif" exactly when the hash starts with "a_", else ".png" |
| Utils.SnowflakeMs | bhaicord/utils.py:95-109 | Converts exactly when `int(snowflake)` does; the milliseconds are the snowflake's bits above 22 plus the Discord epoch 1420070400000 |
| Utils.SnowflakeTimestamp | bhaicord/utils.py:109 | A snowflake built from a timestamp and any low 22 bits gives back that timestamp, whether passed as an int or a string |
| Utils.ObjToDictLookup | bhaicord/utils.py:38-52 | The result holds exactly the attributes that are neither private nor ignored, each with its value |
| Utils.ObjToDict | bhaicord/utils.py:38-52 | Every key of the result is public and not ignored |
| Utils.IsObject | bhaicord/utils.py:136-138 | None, booleans, numbers, strings, lists and dicts are not objects |
| Utils.FromObjToDict | bhaicord/utils.py:22-52 | A non-object raises AttributeError; an object gives the dict of `ObjToDict`, with `ignore` defaulting to empty |
| Utils.RenderedDropsNone | bhaicord/utils.py:189-196 | With `allow_none` false the None-valued pairs are dropped; with it true there is one part per pair |
| Utils.RenderedParts | bhaicord/utils.py:167-170 | With None allowed, part i is the i-th name, "=", and `check` of its value; a string value is shown between single quotes |
| Utils.WithoutNoneKeeps | bhaicord/utils.py:191-194 | Leaving out None keeps exactly the pairs whose value is not None |
| Utils.SelectedMembers | bhaicord/utils.py:180-187 | All attributes keeps every one; choosing by name keeps exactly the named ones |
| Utils.ReprOf | bhaicord/utils.py:143-198 | Raises Exception exactly when both or neither of `all_attributes` and `attributes` are used; otherwise raises AttributeError exactly when `self.__dict__ or self.__slots__` does; otherwise the text has the form "<ClassName ...>" |
| Utils.AttrsOf | bhaicord/utils.py:180 | `self.__dict__ or self.__slots__`: AttributeError without a `__dict__`, or with an empty one and no `__slots__`; otherwise the non-empty `__dict__`, else the slots |
| Utils.ReprOfText | bhaicord/utils.py:178-198 | The repr is `<` the class name, a space, the `name=value` parts joined by single spaces, then `>`; part i renders the i-th chosen pair (`Selected`, then `WithoutNone` when None is not allowed), and the chosen pairs are exactly those selected by name (or all) whose value is not None unless None is allowed |
| Utils.GenerateRepr | bhaicord/utils.py:143-198 | The loops compute exactly `ReprOf` |
| Webhooks.WebhookTypeOf | bhaicord/models/webhook.py:21-24 | A value is accepted exactly when it is 1, 2 or 3 (True counting as 1), giving the member with that value; ValueError otherwise |
| Webhooks.WebhookTypeRoundTrip | bhaicord/models/webhook.py:21-27 | Each member is found again from its value, and `str` gives distinct names |
| Webhooks.NonEmpty | bhaicord/models/webhook.py:82 | No kept segment is empty |
| Webhooks.NonEmptyAppend | bhaicord/models/webhook.py:82 | Filtering distributes over concatenation |
| Webhooks.ParseWebhookUrl | bhaicord/models/webhook.py:82-87 | Parsing succeeds exactly when there are two non-empty segments; the token is the last and the id the one before; otherwise it raises "Does not seem to be a right url" |
| Webhooks.NonEmptyFrom | bhaicord/models/webhook.py:82 | The kept segments are among the original ones |
| Webhooks.SplitWebhookUrl | bhaicord/models/webhook.py:82 | Splitting `prefix/id/token` gives the prefix's parts, then the id and the token |
| Webhooks.WebhookUrlRoundTrip | bhaicord/models/webhook.py:79-87 | A URL ending in `/{id}/{token}`, with or without a trailing slash, gives back that token and id |
| Webhooks.NewWebhook | bhaicord/models/webhook.py:44-87 | `Webhook(url)` succeeds exactly when the URL parses, keeping the URL and the id as a string |
| Webhooks.FromData | bhaicord/models/webhook.py:52-72 | Succeeds exactly when `id` converts with `int` and `type` is a webhook type; optional ids are ints or None, and the user is the one read from `user`, or None when reading it fails |
| Webhooks.FromDataOptionalIds | bhaicord/models/webhook.py:58-66 | Absent optional ids are None, and a type outside 1..3 is refused |
| Webhooks.Send | bhaicord/models/webhook.py:133-167 | Sending posts to the endpoint built from the webhook's own id and token |
| Webhooks.DeleteMessageUrl | bhaicord/models/webhook.py:272-292 | Raises TypeError exactly when no id and no token is truthy and the message or the webhook is missing |
| Webhooks.DeleteMessageEndpoint | bhaicord/models/webhook.py:272-292 | Explicit arguments win whenever any is truthy; otherwise the objects' ids are used; `?thread_id=` appears exactly when the thread id is truthy |
| Webhooks.DeleteThroughUrlWebhook | bhaicord/models/webhook.py:276-285 | Deleting through a webhook made from its URL reaches `/webhooks/{id}/{token}/messages/{m}` with the parsed id and token |
| WebhookBase.WaitFalseStillWaits | bhaicord/APIBase/webhook_base.py:55-58 | With the default `wait=False` the endpoint still ends in "?wait=true" |
| WebhookBase.SendEndpointThreadSuffix | bhaicord/APIBase/webhook_base.py:55-61 | The endpoint is the path, then the wait part, then `&thread_id=<id>` exactly when the thread id is an int or a string, so the thread part always ends the endpoint |
| WebhookBase.ThreadWithoutWait | bhaicord/APIBase/webhook_base.py:57-61 | With `wait=None` and an int thread id, the query starts with "&" right after the path: `/webhooks/{id}/{token}&thread_id={t}` |
| WebhookBase.SendEndpoint | bhaicord/APIBase/webhook_base.py:55-61 | The endpoint starts with `/webhooks/{id}/{token}`, and "?wait=true" follows exactly when `wait` is a bool |
| WebhookBase.AsyncSend | bhaicord/APIBase/webhook_base.py:13-90 | Raises exactly when both embed forms or both file forms are given; otherwise a POST to `{api_url}/` plus the endpoint |
| WebhookBase.SendEndpointIntendedQuery | bhaicord/APIBase/webhook_base.py:55-61 | The corrected endpoint asks to wait exactly when `wait` is True, and its query always starts with "?" |
| WebhookBase.AsyncSendArguments | bhaicord/APIBase/webhook_base.py:31-86 | Raises exactly when an item is given both singly and as a list; otherwise it posts to `{api_url}/` plus the endpoint, as multipart exactly when there is a file, with the content as a string, the embeds' dicts and `{}` for absent allowed mentions |
| WebhookBase.SendData | bhaicord/APIBase/webhook_base.py:63-70 | The JSON payload has exactly the keys content, username, avatar_url, tts, embeds and allowed_mentions, in that order |
| WebhookBase.SendDataKeys | bhaicord/APIBase/webhook_base.py:52-70 | The payload holds the content as a string or None, the embeds' dicts and `{}` for absent allowed mentions |
| WebhookBase.SendResult | bhaicord/APIBase/webhook_base.py:87-90 | 204 gives None; any other status gives the message built from the body, with no status check |
| Users.PremiumTypeOf | bhaicord/models/user.py:81 | The member with that value 0, 1 or 2, or None |
| Users.ReadUser | bhaicord/models/user.py:57-83 | `id`, `username`, `discriminator` and `avatar` are required and `id` goes through `int`; the avatar hash is the `avatar` value; `bot` is the key's value when present and False otherwise, every other attribute its key's value or None, `premium_type` read through `PremiumType` when present, and the member data is `{}` when None |
| Users.UserStrReadBack | bhaicord/models/user.py:85-86 | `str(user)` reads back: when the discriminator's text has no "#", splitting at the last "#" gives the username and the discriminator |
| Users.MentionHoldsId | bhaicord/models/user.py:94-106 | The mention is "<@", the id, ">", and the id can be read back from it |
| Users.Mention | bhaicord/models/user.py:94-106 | A mention is at least three characters, starts with "<@" and ends with ">" |
| Users.SameUser | bhaicord/models/user.py:91-92 | Equality holds for a user and itself, and equal users have the same mention |
| Users.IsPremium | bhaicord/models/user.py:206-216 | As written, no user is premium |
| Users.EqualityIgnoresOtherFields | bhaicord/models/user.py:91-92 | Users read from data with the same id are equal, whatever else differs |
| Users.IsPremiumNeverHolds | bhaicord/models/user.py:206-216 | As written, no user is premium, Nitro subscribers included |
| Users.IsPremiumIntended | bhaicord/models/user.py:206-216 | The corrected test holds exactly for the members NitroClassic and Nitro |
| Users.IsPremiumIntendedFromData | bhaicord/models/user.py:206-216 | The corrected test holds exactly when the data's premium type is 1 or 2 |
| Users.BannerColor | bhaicord/models/user.py:180-204 | None without an accent colour; the hex string when `into_hex` is truthy; else the int |
| Users.BannerColorHex | bhaicord/models/user.py:201-202 | The hex form is "0x" followed by lower-case hex digits |
| Users.DisplayName | bhaicord/models/user.py:218-221 | The member nick when truthy, else the username |
| Users.DisplayNameWithoutMember | bhaicord/models/user.py:59-62 | A user read without member data shows its username |
| Users.User.constructor | bhaicord/models/user.py:64-65 | Both image sizes start at 4096 |
| Users.User.New | bhaicord/models/user.py:57-83 | Fails as `ReadUser` fails; otherwise a fresh user holds its data with both sizes 4096 |
| Users.User.SetAvatarSize | bhaicord/models/user.py:108-114 | Sets the avatar size; the banner size is unchanged |
| Users.User.SetBannerSize | bhaicord/models/user.py:116-122 | Sets the banner size; the avatar size is unchanged |
| Users.User.MakeImage | bhaicord/models/user.py:124-148 | A discriminator `int` refuses raises that error; otherwise the image raises SizeOutOfBounds exactly when the avatar or banner size is outside 16..4096 |
| Users.User.AvatarUrl | bhaicord/models/user.py:148-160 | The avatar URL is the default avatar exactly when there is no avatar hash; with one it is the avatar template at the avatar size; it succeeds whenever the discriminator is an int, the size is in bounds and the hash is None or a string |
| Users.User.DefaultAvatarUrl | bhaicord/models/user.py:162-165 | The default avatar is picked by the discriminator modulo 5, and is produced whenever the discriminator is an int and the avatar size is in bounds |
| Users.User.BannerUrl | bhaicord/models/user.py:167-178 | Without a banner hash the URL is the default avatar, not None; with one it is the banner template at the banner size |
| Users.User.ImagesUseTheirOwnSize | bhaicord/models/user.py:124-178 | An avatar URL uses the avatar size and a banner URL the banner size; the default avatar is picked by the discriminator modulo 5 |
| Users.DefaultSizesInBounds | bhaicord/models/user.py:64-65 | The default size is within the bounds `make_image_url` checks |
| Messages.MessageTypeOf | bhaicord/models/message.py:33-56 | A value is accepted exactly when it is 0-12 or 14-23; ValueError otherwise |
| Messages.GuildId | bhaicord/models/message.py:186-189 | An absent or null guild id is None; a present one goes through `int` |
| Messages.ReadHeader | bhaicord/models/message.py:184-204 | `id` and `channel_id` go through `int`; the author is a user read with the member data |
| Messages.ReadLists | bhaicord/models/message.py:205-215 | Each list is built element by element in order; one element that fails makes the message fail |
| Messages.ReadTail | bhaicord/models/message.py:225-228 | The type must be a `MessageTypes` value |
| Messages.ReadMessage | bhaicord/models/message.py:182-255 | A message read from data has `id` and `channel_id` converted with `int`, the guild id None or converted, the author read with the member data, `content`, `tts` and `mention_everyone` as given, a `MessageTypes` type, and `pinned` and `webhook_id` as given; anything but a dict is refused |
| Messages.MessageTypeChecked | bhaicord/models/message.py:228 | A message of type 13 cannot be read, and every message read has a valid type |
| Messages.MentionRolesConverted | bhaicord/models/message.py:206 | A role id that `int` refuses makes the message fail; otherwise the role ids are the given ones converted, in order |
| Messages.ChannelMentionsBreakMessages | bhaicord/models/message.py:208-211 | A message that mentions any channel cannot be read |
| Messages.MessageIds | bhaicord/models/message.py:184-195 | `id` and `channel_id` are converted with `int`, a present guild id too, an absent one is None, and the author is read with the member data |
| Messages.ExplicitZeroIds | bhaicord/models/message.py:309-377 | `edit`, `pin` and `unpin` use the message's ids only in place of None, so an explicit 0 is kept; `crosspost` replaces every falsy id; `pin` is a PUT and `unpin` a DELETE on `/channels/{c}/pins/{m}` |
| Messages.InstanceRequests | bhaicord/models/message.py:262-393 | `send` posts to the given channel, or the message's own for a falsy one, and raises as `create_message` does; `delete` is the DELETE of this message; every one raises ClientNotFound without a client; `crosspost` otherwise posts to the crosspost endpoint |
| Messages.DistinctIds | bhaicord/models/message.py:420 | Each id once, and exactly the given ids |
| Messages.BulkDeleteSendsEachIdOnce | bhaicord/models/message.py:395-434 | No ids sends nothing, client or not; otherwise ClientNotFound without a client, and with one a POST in which each requested id appears exactly once and nothing else does; the channel and guild fall back to the message's when the arguments are falsy |
| Messages.Send | bhaicord/models/message.py:262-290 | Fails exactly without a client or with both embed or both file forms; otherwise a POST to the given channel, or the message's own for a falsy one |
| Messages.Delete | bhaicord/models/message.py:292-307 | Succeeds exactly with a client, as a DELETE with no body |
| Messages.Edit | bhaicord/models/message.py:309-335 | Fails exactly without a client or with both embed forms; otherwise a PATCH with no files |
| Messages.Pin | bhaicord/models/message.py:337-356 | Succeeds exactly with a client, else ClientNotFound; a PUT with no body and no files |
| Messages.Unpin | bhaicord/models/message.py:358-377 | Succeeds exactly with a client, else ClientNotFound; a DELETE at the URL `pin` uses |
| Messages.Crosspost | bhaicord/models/message.py:379-393 | Succeeds exactly with a client, else ClientNotFound; a POST with no body |
| Messages.BulkDelete | bhaicord/models/message.py:395-434 | Raises exactly when ids are given and there is no client; a request is made exactly when ids are given, as a POST with a dict payload |
| Channels.ChannelTypeOf | bhaicord/models/channel.py:15-27 | A value is accepted exactly when it is 0-5 or 10-15; ValueError otherwise |
| Channels.ChannelTypeRoundTrip | bhaicord/models/channel.py:15-30 | Each member is found again from its value, and `str` gives distinct names |
| Channels.ReadChannel | bhaicord/models/channel.py:34-86 | `id` and `type` are required, every optional id goes through `make_optional(int, ...)`, and each recipient is a user |
| Channels.ChannelDefaults | bhaicord/models/channel.py:34-86 | A present `type` that is not a channel type makes the read fail; in a channel that reads, absent counters are -1, `nsfw` is False, the overwrites `[]`, and each optional id is the int or None |
| Channels.ChannelRecipients | bhaicord/models/channel.py:53 | The recipients are the users read from the entries, in order |
| Channels.ChannelSend | bhaicord/models/channel.py:88-109 | A message is sent to this channel, addressed by its id as given |
| Channels.Copied | bhaicord/utils.py:78-80 | The decorator copies exactly the entries whose key is not ignored |
| Channels.CopiedAppend | bhaicord/utils.py:78-80 | Copying keeps the order: two runs of entries are copied as the copy of the first followed by the copy of the second |
| Channels.CopiedSingle | bhaicord/utils.py:78-80 | One entry is copied exactly when its key is not ignored |
| Channels.Decorated | bhaicord/utils.py:76-80 | The `setattr` loop raises AttributeError exactly when the dict has a `channel_id` key (a property without a setter); otherwise it copies every key but `id`, `guild_id` and `type`, and a `data` key replaces the wrapped dict |
| Channels.NewChannelMention | bhaicord/models/channel.py:118-123 | As written, a call with only a positional dict raises AttributeError, both or neither argument raise TypeError, and a keyword `data` dict goes through the decorator's `setattr` loop (`Decorated`) |
| Channels.PositionalMentionFails | bhaicord/utils.py:73-82 | As written no positional call succeeds; the corrected constructor accepts both call forms alike and copies every key except `id`, `guild_id` and `type` |
| Channels.NewChannelMentionIntended | bhaicord/utils.py:73-82 | The corrected constructor succeeds exactly when one argument is given, it is a dict, and it has no `channel_id` key; the dict then goes through the same `setattr` loop |
| Channels.ChannelIdKeyRaises | bhaicord/models/channel.py:118-128 | A dict with a `channel_id` key cannot be wrapped under either constructor: AttributeError |
| Channels.DataKeyReplacesDict | bhaicord/models/channel.py:118-128 | A `data` key replaces the wrapped dict, so the accessors read the inner dict: `{"id": a, "data": {"id": b}}` has channel id b |
| Channels.MentionChannelId | bhaicord/models/channel.py:125-128 | The channel id is `int` of the stored `id`; an absent id is `int(None)`, a TypeError |
| Channels.MentionGuildId | bhaicord/models/channel.py:130-133 | The guild id is `int` of the stored `guild_id` |
| Channels.MentionType | bhaicord/models/channel.py:135-139 | A type read is the channel type whose value is `int` of the stored `type`; an absent type is `int(None)`, a TypeError |
| Channels.MentionAccessors | bhaicord/models/channel.py:125-139 | The accessors read back the ids and the type a mention was built from |
| Roles.ReadRoleTags | bhaicord/models/role.py:16-28 | Tags are read exactly from a dict |
| Roles.PremiumSubscriberMarker | bhaicord/models/role.py:28-32 | A role is a premium subscriber role exactly when its tags have the key with a null value |
| Roles.IsPremiumSubscriber | bhaicord/models/role.py:30-32 | The default marker 0, used when the tags have no `premium_subscriber` key, is not a premium subscriber |
| Roles.TagIdsCoincide | bhaicord/models/role.py:20-26 | As written the bot id and the integration id are always equal; with only a `bot_id` key both are None |
| Roles.ReadRoleTagsIntended | bhaicord/models/role.py:16-28 | Tags are read exactly from a dict |
| Roles.TagIdsIntended | bhaicord/models/role.py:20-26 | The corrected reader finds a bot role's bot id and an integration role's integration id, and keeps the subscriber marker |
| Roles.ReadRole | bhaicord/models/role.py:42-54 | Reads exactly when the data is a dict whose permissions go through `int`; every attribute is its key's value when present, and otherwise `position` is 0, `managed` and `mentionable` False and the rest None; a present `permissions` is its `int`, an absent one 0; `colour` equals `color`; unreadable tags are None |
| Roles.IconUrl | bhaicord/models/role.py:61-64 | None exactly without an icon; else the role-icon URL of the role's id |
| Roles.RoleIconUrl | bhaicord/models/role.py:61-64 | A role read without an icon has no URL; one with a hash gets "/role-icons/{id}/{hash}.png" under the CDN |
| Emojis.EmojiId | bhaicord/models/emoji.py:23-26 | A falsy id is kept as it is; a truthy one goes through `int` |
| Emojis.ReadEmoji | bhaicord/models/emoji.py:22-38 | `require_colons`, `managed` and `animated` default to False, `available` to True; a user that cannot be read is None |
| Emojis.EmojiRoles | bhaicord/models/emoji.py:30 | The roles are those read from the entries, in order; one unreadable role makes the emoji fail |
| Emojis.EmojiForms | bhaicord/models/emoji.py:40-52 | The text form starts with "<a:" exactly when animated and ends with the id and ">"; the URL is under "/emojis/{id}." and is a GIF exactly when animated |
| Emojis.EmojiStr | bhaicord/models/emoji.py:40-43 | The text form is wrapped in "<" and ">" |
| Emojis.EmojiUrl | bhaicord/models/emoji.py:48-52 | The URL is on the CDN |
| Emojis.ReadReaction | bhaicord/models/emoji.py:55-61 | Reads exactly from a dict; `count` defaults to 1, an emoji that cannot be built is None, and `me` defaults to None |
| Presences.NewActivity | bhaicord/models/presence.py:18-29 | As written the initialiser takes only the type: at most one positional argument, which becomes the type (2, listening, by default); a second one or a `name` keyword raises TypeError; `name` is never set |
| Presences.SetName | bhaicord/models/presence.py:18-28 | Assigning `name` after construction sets it and leaves the type as it was |
| Presences.ActivityDict | bhaicord/models/presence.py:31-42 | Succeeds exactly when a name was assigned, and raises AttributeError otherwise |
| Presences.ActivityDictHasNoType | bhaicord/models/presence.py:31-42 | As written, an activity dict has no "type" key; it holds the name under "name" and the type under "value", and a member and its int give the same dict |
| Presences.ConstructedActivityHasNoName | bhaicord/models/presence.py:18-42 | No activity the initialiser builds can be turned into a dict, nor can a presence holding it; `Activity("Chess")` makes "Chess" the type and `Activity(name="Chess")` raises |
| Presences.NewActivityIntended | bhaicord/models/presence.py:18-29 | With `name` declared as an attribute, the initialiser stores the name and the type given, 2 by default |
| Presences.ActivityDictIntended | bhaicord/models/presence.py:31-42 | The corrected dict succeeds exactly when a name is present |
| Presences.ActivityDictIntendedType | bhaicord/models/presence.py:31-42 | The corrected dict holds the name, and the type's int under "type"; a new activity is type 2 |
| Presences.IntendedActivityDict | bhaicord/models/presence.py:18-42 | With the corrected initialiser, every activity built from a name gives a dict with that name and its type |
| Presences.DefaultPresence | bhaicord/models/presence.py:45-50 | A default presence has no activities and the status "online" |
| Presences.ActivityDicts | bhaicord/models/presence.py:56 | The list comprehension succeeds exactly when every activity has a name, giving one dict per activity in order, and raises AttributeError otherwise |
| Presences.PresenceDict | bhaicord/models/presence.py:52-57 | Succeeds exactly when there are activities and all have names; the default None raises TypeError and a nameless activity AttributeError |
| Presences.PresenceDictActivities | bhaicord/models/presence.py:52-57 | A presence that turns into a dict gives its status and one activity dict per activity, in order; the default presence does not |

## Left out

- Inflating the zlib stream and parsing and serialising JSON are not modelled. A decoded payload, or the exception decoding raised, is a parameter.
- The WebSocket transport, aiohttp sessions and the `MultipartWriter` internals are not modelled. Only the URL, content-type, payload and status decisions are.
- asyncio scheduling is not modelled: `create_task`, the keep-alive task spawned per frame and its `sleep`, and the `wait_for` timeout. Scheduling is represented as an ordered list of tasks.
- Floating point and `datetime` are not modelled. Latency is a real number computed from a clock parameter, and the timestamps of messages, channels and snowflakes are left out; `snowflake_to_date` stops at its integer milliseconds.
- `File.content` reading from text and binary file objects is an opaque source: only the string case is exact.
- The avatar, banner and default-avatar URL templates are in a file that is not part of this model. They appear as a structured `ImageUrl` naming the template and its arguments.
- `PyStrings.Lower` folds ASCII letters only; Unicode case folding is not modelled.
- `PyValues.ToInt` accepts an optional sign and decimal digits. Surrounding whitespace and underscores, which Python's `int` accepts, are not modelled.
- `Messages.DistinctIds` lists the ids in order of first occurrence. Python's set iteration order is not modelled.
- `Messages.ReadMessage`: these fields are not read: `member` beyond its use for the author, `embeds`, `reactions`, `activity`, `application`, `message_reference`, `interaction`, `sticker_items`, the timestamps, and the other fields after `type`.
- `Messages.Send`, `Messages.Delete`: `delete_after` and `delay` need timers and are not modelled.
- `Channels.ReadChannel`: `last_pin_timestamp` needs datetime parsing and is not modelled.
- The `__repr__` of `User` and `Message` is not modelled.
- Webhook operations that are a single HTTP call are not modelled: `from_id`, `from_token`, `create`, `edit`, `delete_by_id`, `delete_by_token` and `edit_message`.
- Guilds, the ready and typing-start events, `color.py` (random numbers), `channel_base.py` and `role_base.py` are not part of this model.
- The client's event handler is not run by the gateway model: what awaiting it gives for a dispatch (nothing, or the exception it raised) is the `handled` part of each `Gateway.Incoming`. What the handler itself does is `BotClient.Dispatched`.
- `Gateway.Drive` and `Gateway.DiscordWebSocket.Run` read a finite run of messages; a socket that never raises keeps reading forever, and the model describes every finite prefix of that.
- `BotClient.Client.Run` models only what `run` stores on the client; logging in over HTTP, starting the gateway and the keyboard-interrupt shutdown are I/O on the event loop and are not modelled.
- The global current client is a `client: bool` parameter, and its HTTP client is a session parameter.
- `Presences.Presence`: `activities` is an optional list of activities. Any other value a caller might store there is not modelled.
- `BotClient.Dispatched`: a handler or listener that cannot take the event object (wrong arity) raises TypeError at the call, before its task is created; the model assumes every registered callable takes one argument, so "raises exactly when" leaves that case out.
- `BotClient.Latency`: when the socket's latency is exactly 0.0 the result is 0 in both readings, and the contract leaves that case unstated.
- The user flags enum and `Connection` in `user.py` are not part of this model.
- `Channels.Decorated`: only `channel_id` is treated as an attribute that refuses `setattr`. A key naming some other read-only attribute of a Python object, such as a dunder name, is copied like any other key.

## Findings

| source | as written | input that shows it | evidently intended | confidence | as-written member | corrected member |
|---|---|---|---|---|---|---|
| bhaicord/APIBase/message_base.py:117-120 | The eviction deletes `list(cache.keys())` itself as a key, which raises TypeError (a list is unhashable) | A cache of size 1 holding message 1, then fetching message 2 | Delete the first key, as `user_base.py` does | not executed | MessageBase.FullCacheCounterexample | MessageBase.IntendedFetchSucceedsWithinBound |
| bhaicord/models/embed.py:193 | The footer is parsed with `EmbedAuthor`, which needs `name` and refuses `text` | `from_dict(to_dict())` of an embed after `set_footer("x")` | Parse the footer with `EmbedFooter` | not executed | Embeds.FooterLostByFromDict | Embeds.FooterRoundTripIntended |
| bhaicord/APIBase/webhook_base.py:55-58 | `?wait=true` is appended whenever `wait` is a bool, False included | `async_send(wait=False)`, the default | Append it only when `wait` is True | not executed | WebhookBase.WaitFalseStillWaits | WebhookBase.SendEndpointIntendedQuery |
| bhaicord/models/user.py:206-216 | `is_premium` compares a `PremiumTypes` member with the ints 1 and 2, which is never equal | A user whose data has `premium_type: 2` | Compare the member's value, or the members themselves | not executed | Users.IsPremiumNeverHolds | Users.IsPremiumIntendedFromData |
| bhaicord/utils.py:76-80 | The decorator takes the dict only from the keyword `data`, so the positional call in `message.py:208-211` reads `.items()` of None | A message whose `mention_channels` holds one channel | Take the dict from the positional argument as well | not executed | Channels.PositionalMentionFails | Channels.NewChannelMentionIntended |
| bhaicord/models/role.py:20-26 | `bot_id` and `integration_id` are both read from `"id"` | Tags `{"bot_id": 5}` give no bot id | Read `"bot_id"` and `"integration_id"` | not executed | Roles.TagIdsCoincide | Roles.TagIdsIntended |
| bhaicord/models/presence.py:39-42 | `Activity.to_dict` puts the type under the key `"value"` | An activity whose `name` was assigned after construction, e.g. `a = Activity(3); a.name = "Chess"` | Use the key `"type"` that the gateway expects | not executed | Presences.ActivityDictHasNoType | Presences.ActivityDictIntendedType |
| bhaicord/models/presence.py:18-29 | `name: str` is a bare annotation, which `@attr.s` ignores, so the initialiser is `__init__(self, type=2)` and never sets `name` | `Activity("Chess")` stores "Chess" as the type, and its `to_dict()` raises AttributeError; `Activity(name="Chess")` raises TypeError | Declare `name = attr.ib()` so the initialiser is `Activity(name, type=2)` | not executed | Presences.ConstructedActivityHasNoName | Presences.IntendedActivityDict |
