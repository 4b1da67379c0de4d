# runelite-cc-bridge relay core, modelled in Dafny

The relay accepts WebSocket connections from RuneLite game clients. It forwards each
clan-chat (CC) message to the Discord channels subscribed to the message's CC. Alongside
that it runs two timers. The heartbeat timer terminates connections that stopped answering
pings. The presence timer counts connections per declared CC and reports the CCs that
went silent since its last run.

The model keeps the relay's state in one class, `Relay.Relay`:

- `subscriptions`: the value under the store's `"subscriptions"` key. It is `None` until
  the first subscribe. Each CC maps to the keys of its `{channelId: true}` object, in
  JavaScript's enumeration order.
- `previous`: the value under the `"connections"` key, the last presence snapshot.
- `clients`: `wss.clients`, a set of `Connections.Connection` objects. Each object has the
  two fields the relay sets in place, `alive` (`ws.isAlive`) and `cc` (`ws.cc`).
- `sent`: the log of posts attempted on Discord, each marked delivered or failed.

The pure parts are functions with their lemmas:

- `Subscriptions`: the store value that `subscribe` writes and `getChannels` reads.
- `Heartbeat`: the flag machine of one connection, and which event sequences terminate it.
- `Presence`: the census a presence tick should compute and the "no longer live" diff.
- `Routing`: the posts made for one chat message.

Three modelling choices follow the code as written:

- Routing uses only the frame's `sender` field (index.js:113). The CC a connection
  declared with `CC_CHANGE` is not consulted.
- The presence count includes every open client whose `cc` is truthy, alive or not
  (index.js:178-182). It does not count only alive connections.
- Liveness is a single boolean. "Terminated" is leaving `clients`, written `None` in
  `Heartbeat.Step`.

## Model

| member | source | states |
|---|---|---|
| Subscriptions.AddKey | index.js:29-32 | Setting `obj[channelId] = true` yields exactly the old keys plus the channel. Old keys keep their order, so the old list is a prefix. Keys stay distinct. |
| Subscriptions.Channels | index.js:38-44 | `getChannels(cc)` lists exactly the channels stored for `cc`. With no mapping stored, or `cc` absent, it is empty. On a well-formed store each channel appears once. |
| Subscriptions.Subscribe | index.js:25-33 | The mapping written back contains `cc` with `ch` plus every channel `cc` had. A missing mapping starts empty. Every other CC is present and unchanged exactly when it was stored. Well-formedness is kept. |
| Subscriptions.SubscribeThenChannels | index.js:25-44 | Reading back after `subscribe(cc, ch)`: `cc` lists its old channels in order, then `ch` if it was new. Every other CC lists what it listed before. |
| Subscriptions.SubscribeIdempotent | index.js:29-32 | Subscribing the same `(cc, ch)` twice writes the same mapping as once. |
| Subscriptions.SubscribeIsolation | index.js:22-35 | Two serialised subscribes to different CCs give the same mapping in either order, and both channels are visible. |
| Heartbeat.Step | index.js:136-167 | A pong leaves the connection alive. A tick terminates it exactly when it is not alive. Otherwise the tick clears the flag. |
| Heartbeat.TerminatedIff | index.js:136-168 | Over any sequence of ticks and pongs, a connection is terminated exactly when two ticks arrive with no pong between them. A cleared flag counts as one tick already seen. |
| Heartbeat.NeverPongedTerminatedBySecondTick | index.js:158-167 | A connection last marked alive survives the next tick with its flag cleared, and is terminated by the one after. |
| Connections.Connection.constructor | index.js:136-137 | An accepted connection starts alive with no CC. |
| Presence.LiveIffDeclared | index.js:179-180 | A non-empty CC is in the live set exactly when some connection declares it. |
| Presence.CensusAdd | index.js:178-182 | Counting one more connection adds one to its CC's count when the CC is truthy, starting from 0 when absent. Otherwise the count is unchanged. |
| Presence.CensusPositive | index.js:178-185 | Every CC in a census is non-empty with a count of at least one. So `!connections[cc]` holds exactly for CCs the census lacks. |
| Presence.CountLive | index.js:177-182 | The counting loop returns exactly the census: each truthy declared CC mapped to the number of clients declaring it. |
| Presence.NoLongerLive | index.js:184-188 | A CC is reported exactly when the previous snapshot holds it (none when nothing is stored) and its current count is missing or zero. |
| Presence.NoLongerLiveIff | index.js:176-188 | Measured against the connections, a CC is reported exactly when the previous snapshot holds it and no open connection declares it now. The empty CC is always reported, since it is never counted. |
| Presence.ReportedOnce | index.js:184-190 | A CC reported on one tick is not reported again on the next tick, because the stored census no longer holds it. |
| Presence.SteadyReportsNothing | index.js:176-190 | A tick whose connections match the stored census reports nothing. |
| Routing.Deliveries | index.js:113-128 | One post per subscribed channel, in order, each with the same text. Each post is marked failed exactly when that channel rejected it, independently of the others. |
| Routing.OnePostPerChannel | index.js:113-127 | With distinct channels, every subscribed channel receives a post and no two posts go to the same channel. |
| Relay.Relay.constructor | index.js:19 | The relay starts with the stored subscriptions and snapshot, no clients and no posts. |
| Relay.Relay.Subscribe | index.js:22-36 | The stored mapping becomes `Subscriptions.Subscribe` of the old one, and the store stays well-formed. |
| Relay.Relay.SubscribeCommand | index.js:88-98 | The slash command subscribes its origin channel. It replies `subscribed channel to CC "<cc>"`. |
| Relay.Relay.Connect | index.js:136-138 | A new, alive connection without a CC joins the clients, and nothing else changes. |
| Relay.Relay.Close | index.js:153-155 | Closing removes exactly that connection from the clients. Closing one that is not held is harmless. |
| Relay.Relay.OnPong | index.js:138 | A pong moves the flag as `Heartbeat.Step` says, to alive. |
| Relay.Relay.RouteChat | index.js:108-129 | The post log grows by exactly `Deliveries(getChannels(sender), Line(name, content), failing)`, where `Routing.Line` is the text `[name]: content` (index.js:120). A failed post does not stop the rest. No channel gets two posts for one message. |
| Relay.Relay.ChangeCc | index.js:130-133 | `CC_CHANGE` sets the connection's CC, last write wins, and changes nothing else. |
| Relay.Relay.OnMessage | index.js:141-151 | `CHAT_MESSAGE` frames are routed, with no channel posted twice, and `CC_CHANGE` frames set the CC. Frames of any other type change nothing. |
| Relay.Relay.PingTick | index.js:158-168 | Each client follows one `Heartbeat.Step` on a tick. Clients not alive are removed. The rest stay, with their flag cleared, and are exactly the pinged set. CCs are untouched. |
| Relay.Relay.PresenceTick | index.js:175-191 | The stored snapshot becomes the census of the current clients. The reported CCs are `NoLongerLive` of the old snapshot against that census. |

## Left out

- The Express app, the `/interactions` endpoint, Discord request verification and the
  `PING` interaction (index.js:59-101): HTTP plumbing and a foreign library. Only the
  `subscribe` command's effect and reply are modelled, as `SubscribeCommand`.
- commands.js (`HasGuildCommands`, `SUBSCRIBE_COMMAND`) and the start-up registration
  (index.js:198-207): Discord REST calls and a static descriptor.
- The hard-coded development subscription (index.js:56): start-up data, not behaviour.
- The Replit database, the `async-mutex` lock and `setInterval`. The store is replaced by
  the `subscriptions` and `previous` fields. Each write is immediate, including the
  un-awaited `updateLiveConnections`. `subscribe` runs as one atomic step. Each timer
  firing is one method call. Interleavings of asynchronous handlers are not modelled.
- Store errors: `rdb.get`/`rdb.set` are taken to succeed, so the model has no StoreError path.
- WebSocket transport: `JSON.parse` of frames, `ws.ping()`, `ws.terminate()` and
  `console.log`. A frame arrives already parsed as `Frame`, and a malformed frame is not
  modelled. `terminate` is immediate removal from `clients`. A ping is membership in the
  set `PingTick` returns. The reports of `PresenceTick` are a returned set, so the order
  of the log lines is not kept.
- Relay.Relay.Close: the close handler itself only logs. The removal from `wss.clients`
  is done by the ws library and is modelled as part of closing.
- The Discord POST: its outcome is the parameter `failing`, the channels whose post fails
  this time. The `tts`/`allow_mentions` body fields are constant and not recorded.
- Frame fields that no handler uses (`timestamp`, `messageType`, `guest`) are not carried.
  Frame fields are modelled as strings. JavaScript `undefined` or non-string values, such
  as a numeric `cc` or a missing `sender`, are not modelled.
- JavaScript objects are modelled as maps, so prototype-inherited keys are not modelled.
  A CC named like an `Object.prototype` member (`constructor`, `toString`) is treated as
  an ordinary key.
- Subscriptions.Channels: enumeration order is insertion order. JavaScript lists
  array-index-like keys (decimal strings below 2^32 - 1) first, in numeric order. Discord
  channel ids are larger than that, so the model does not reorder them.
