# offscreen-webrtc relay: a Dafny model

This project models the logic inside `background.js` of the offscreen-webrtc browser
extension. One script runs in three contexts:

- In the **service worker** it is a relay. On a toolbar click it checks the tab's
  origin against the manifest's `externally_connectable.matches`. If the origin is
  allowed, it relays session descriptions between the web page (the "local" port)
  and the offscreen document (the "remote" port). Later it hands over the payload
  and echoes keep-alive pings.
- In the **offscreen document** it is the offer side of a WebRTC peer connection.
  Once the data channel opens, it moves the payload onto the channel.
- In the **web page** it is the answer side.

Every browser API is treated as an opaque event whose result arrives as a parameter.
This covers `RTCPeerConnection`, `chrome.offscreen`, `chrome.scripting`,
`chrome.runtime`, file storage and `fetch`. Each handler is one atomic step of a
single-threaded event loop.

Modules:

- `Text`: `indexOf` and `includes`.
- `Sdp`: the end-of-candidates rule. It adds the Trickle ICE attribute of
  section 8.2 of RFC 8840 when it is missing.
- `Origins`: the `matches` merge (`[...new Set(...)]`) and the `.some(... includes ...)`
  origin test.
- `Signaling`: the relay's one-shot slots, as a pure state machine with lemmas
  over runs of events.
- `Worker`: the service worker's handlers, as specification functions and a
  `ServiceWorker` class whose methods are proved against them.
- `Offscreen`: `ArrayBuffer.transfer`, the buffer and stream transfer traces, and
  the offer endpoint as a class.
- `Page`: the answer endpoint as a class.

Some behaviours of the code that a reader might not expect, all of which the
model keeps:

- The relay slots are promises, so the **first** value written wins. A later
  description for the same role is ignored.
- Any number of `'get-local'` / `'get-remote'` requests may wait on a slot. Each
  is answered once when the slot fills. None is rejected.
- A port disconnect is not handled. Re-arming the relay on a new click orphans
  the requests still waiting on the old promises, and they never complete.
- The offer endpoint posts its description to the relay only when it had to
  append `a=end-of-candidates` itself. If the browser already emitted the
  attribute, nothing is posted. `Offscreen.OfferEndpoint.OnGatheringComplete`
  states this.
- The origin test is a substring test. A pattern for `https://example.com/*`
  also authorises `https://example.co` (`Origins.SubstringTestAdmitsPrefixOrigin`).

## Model

| member | source | states |
|---|---|---|
| `Text.IndexOf` | background.js:78 | returns -1 exactly when the pattern occurs nowhere; otherwise an index where it occurs, with no earlier occurrence |
| `Text.Includes` | background.js:193-195 | holds exactly when the pattern occurs somewhere in the string |
| `Sdp.WithEndOfCandidates` | background.js:386-388 | the result always contains `a=end-of-candidates` and extends the input; it equals the input when the attribute is present, and is the input followed by `a=end-of-candidates\r\n` otherwise |
| `Sdp.Idempotent` | background.js:318-319 | normalising an already normalised description changes nothing |
| `Sdp.SessionDescription.AppendEndOfCandidatesIfMissing` | background.js:78-80 | the in-place `sdp +=` update: reports whether it appended, which happens exactly when the attribute was missing; the new text is the normalised old text and contains the attribute |
| `Origins.Dedup` | background.js:41-49 | `[...new Set(s)]` has no duplicates, holds exactly the strings of `s`, and is no longer than `s` |
| `Origins.DedupKeepsFirstOccurrenceOrder` | background.js:40-49 | the de-duplicated list orders strings by their first occurrence in the input |
| `Origins.DedupExtends` | background.js:44-47 | existing matches keep their order at the front of the merged list |
| `Origins.DedupOfDistinct` | background.js:40-49 | a duplicate-free list is left unchanged by the rebuild |
| `Origins.MergeMatches` | background.js:40-49 | the rebuilt `matches` has no duplicates. Without `unset` it holds exactly the existing and the added patterns, with the existing ones first, and every pattern sits in the order of its first occurrence in existing-then-added. With `unset` it is the de-duplicated added list, in first-occurrence order, so existing patterns not re-added are dropped |
| `Origins.IsAuthorized` | background.js:192-196 | true exactly when some match contains the origin as a substring |
| `Origins.ApprovedOriginIsAuthorized` | background.js:197-205 | merging the `<origin>/*` pattern the dialog is invoked with authorises that origin |
| `Origins.MergeKeepsAuthorized` | background.js:44-47 | a merge without `unset` never withdraws an origin's authorisation |
| `Origins.PrefixOfAuthorizedIsAuthorized` | background.js:192-196 | for every list and origin, the substring test authorises every prefix of an authorised origin |
| `Origins.SubstringTestAdmitsPrefixOrigin` | background.js:193-195 | as a consequence, a pattern for `https://example.com/*` authorises `https://example.co` |
| `Signaling.Step` | background.js:154-176 | every relay event keeps "no request waits on a filled slot", and never removes anything already posted to either port |
| `Signaling.RunKeepsValid` | background.js:163-175 | every run of relay events keeps "no request waits on a filled slot" |
| `Signaling.FirstWriteWins` | background.js:159-166 | until the next re-arm, each slot holds its first written value: the first remote-port message, and the first `{local}` description on the local port; later writes have no effect |
| `Signaling.StepPostsFromSlots` | background.js:167-175 | one event posts to the remote port only the local slot's value, and to the local port only the remote slot's value |
| `Signaling.RemotePortGetsLocalSlot` | background.js:167-169 | until the next re-arm, the remote port receives only the local slot's value, and nothing while that slot is empty |
| `Signaling.LocalPortGetsRemoteSlot` | background.js:171-174 | until the next re-arm, the local port receives only the remote slot's value, and nothing while that slot is empty |
| `Signaling.StepAccountsRequests` | background.js:163-175 | while connected, one event either answers or queues exactly the `'get-local'` / `'get-remote'` request it carries, and no other |
| `Signaling.EveryRequestAnsweredOnce` | background.js:167-175 | while connected and not re-armed, every `'get-local'` / `'get-remote'` is either answered by exactly one post or still waiting; once the slot is filled, none waits |
| `Signaling.RequestBeforeOfferIsServed` | background.js:171-174 | a `'get-remote'` issued before the offer arrives is answered with exactly that offer |
| `Worker.Clicked` | background.js:180-233 | once the origin test has run, the offscreen document exists afterwards iff the origin was allowed. If allowed, the relay is armed, with listener registered and fresh empty slots. Otherwise, when the dialog cannot be injected, only the offscreen document is closed and the marker and reload flag stay; a `'click'` result stores the tab id and requests a reload, and any other result only removes the marker |
| `Worker.OnClicked` | background.js:179-240 | the offscreen document exists after a click iff some match contains the tab's origin, and the relay is re-armed exactly then |
| `Worker.OnInstalled` | background.js:138-152 | without a marker, or when the marked tab no longer exists, only the offscreen document is closed and the marker stays. For a tab whose origin is authorised, the marker is consumed and the relay path runs. For one whose origin is not, the dialog branch runs again: nothing is opened, the relay is untouched, `'click'` stores the marker again and reloads, any other result removes it |
| `Worker.OnMessage` | background.js:254-280 | `'start'` with a successful fetch gets the body, deregisters the relay and resets both ports, keeping the slots, waiting requests and posts, and clears the marker; a failed fetch changes nothing and sends no reply; any other message gets exactly one `null` and changes nothing else |
| `Worker.ApprovedClickResumesOnRelayPath` | background.js:206-213 | after an approved dialog and the reload, the stored marker brings the click back, and the origin, now in `matches`, takes the relay path |
| `Worker.PingsOnlyEcho` | background.js:276-279 | a run of non-`'start'` messages gets one `null` reply each and leaves the relay, the marker and the offscreen document as they were |
| `Worker.ServiceWorker.constructor` | background.js:6-13 | the script starts with an unarmed relay, both ports `null` and no replies |
| `Worker.ServiceWorker.FlushWaiting` | background.js:168-174 | each listener awaiting a slot posts its value once to its port, and only while the ports are set |
| `Worker.ServiceWorker.ArmRelay` | background.js:220-223 | `handleSignaling` is registered and both slots are replaced by fresh, empty ones with no waiting requests; nothing else changes |
| `Worker.ServiceWorker.RecordDialogResult` | background.js:206-218 | a `'click'` result stores the tab id and requests a reload; any other result removes the marker; nothing else changes |
| `Worker.ServiceWorker.HandleClick` | background.js:179-240 | the new state is `OnClicked` of the old one |
| `Worker.ServiceWorker.CloseOffscreen` | background.js:138-152 | the new state is `OnInstalled` of the old one |
| `Worker.ServiceWorker.HandleSignaling` | background.js:154-158 | the ports are set only when `handleSignaling` is registered; nothing else changes |
| `Worker.ServiceWorker.HandleRemotePort` | background.js:159-161 | the first remote-port message fills the remote slot and is posted once for each waiting `'get-remote'` |
| `Worker.ServiceWorker.HandleLocalPort` | background.js:163-176 | a `{local}` description fills the local slot once; each `'get-local'` / `'get-remote'` is answered from a filled slot or waits |
| `Worker.ServiceWorker.HandleMessage` | background.js:254-280 | the new state is `OnMessage` of the old one |
| `Offscreen.Resized` | background.js:353 | `transfer(n)` yields exactly `n` bytes: the old ones, then zeros; with the buffer's own length it yields the bytes unchanged |
| `Offscreen.ArrayBuffer.Transfer` | background.js:353 | a live buffer's bytes are moved out and the buffer is left detached and empty; a detached buffer throws and is unchanged |
| `Offscreen.PumpedShape` | background.js:361-368 | each written chunk is sent and immediately followed by one ping |
| `Offscreen.StreamTraceShape` | background.js:361-374 | N chunks give exactly N sends in pull order, each followed by one ping. Then come the channel close, the connection close and the document close, in that order |
| `Offscreen.PumpedCarriesChunks` | background.js:362-368 | the sends of the written chunks carry exactly those chunks, and the worker receives one `null` per chunk |
| `Offscreen.StreamSendsEveryChunkOnce` | background.js:359-376 | the payloads sent by a whole stream transfer are exactly the pulled chunks in order; the worker receives exactly one `null` per chunk |
| `Offscreen.BufferSendsOnceWithoutPing` | background.js:350-358 | buffer mode sends exactly one payload and pings the worker never |
| `Offscreen.KeepAliveDuringStream` | background.js:366-367 | each stream ping gets one `null` reply from the worker, and the relay and the rest of the worker's state are left untouched |
| `Offscreen.OfferEndpoint.OnOfferCreated` | background.js:384-389 | the offer is normalised in place and becomes the local description, which carries the attribute |
| `Offscreen.OfferEndpoint.OnGatheringComplete` | background.js:315-339 | the description is normalised in place. It is posted as `{remote, sdp}`, and the answer listener registered, exactly when the attribute had to be appended |
| `Offscreen.OfferEndpoint.OnRelayMessage` | background.js:324-336 | the first relay message after registration becomes the answer; the listener is then removed |
| `Offscreen.OfferEndpoint.OnChannelOpen` | background.js:346-379 | opening the channel posts `'start'` to the worker |
| `Offscreen.OfferEndpoint.SendBuffer` | background.js:350-358 | buffer mode emits one send of the buffer's bytes and then the document close; the buffer is left detached and empty |
| `Offscreen.WriteChunks` | background.js:362-368 | the emitted effects are the send-then-ping trace of the chunks' original bytes, in pull order; every chunk's buffer is left detached with length 0 |
| `Offscreen.AbortedStreamClosesNothing` | background.js:359-376 | a stream that errors emits only sends and pings, carrying exactly the pulled chunks; nothing is closed, since the sink has no `abort` |
| `Offscreen.OfferEndpoint.EndPipe` | background.js:369-374 | after the last write, a closed stream appends the channel, connection and document closes in that order; an errored one appends nothing; nothing else changes |
| `Offscreen.OfferEndpoint.PipeStream` | background.js:359-376 | a stream that closes gives the stream trace of the chunks' original bytes; one that errors gives only their sends and pings, with no closes; every chunk's buffer is left detached with length 0 |
| `Offscreen.OfferEndpoint.OnWorkerMessage` | background.js:349-378 | a buffer takes buffer mode, a stream takes stream mode (closing or erroring), and `null` keep-alive replies are ignored |
| `Page.AnswerEndpoint.constructor` | background.js:119-127 | connecting posts `'get-remote'` and registers the one-shot listener for the offer |
| `Page.AnswerEndpoint.OnRelayMessage` | background.js:120-124 | the first relay message becomes the offer; the listener is then removed |
| `Page.AnswerEndpoint.OnGatheringComplete` | background.js:76-92 | the description is normalised in place. The answer `{local, sdp}`, carrying the attribute, is posted, and then `'get-local'` |
| `Page.Delivered` | background.js:159-175 | once the ports are connected, any events carrying one `'get-local'`, one `'get-remote'`, an offer and an answer deliver exactly the offer to the local port and the answer to the remote port |
| `Page.NegotiationDeliversBothDescriptions` | background.js:159-175 | in one negotiation through the relay, whether the offer reaches the relay before or after `'get-remote'`, the page receives the normalised offer once and the offscreen document the normalised answer once |

## Left out

- Browser APIs are not modelled; their outcomes are parameters or events. This covers
  `RTCPeerConnection` (offer and answer creation, applying descriptions, ICE, DTLS
  and SCTP), `chrome.offscreen`, `chrome.scripting.executeScript`,
  `chrome.runtime.connect`, `chrome.runtime.reload`, `chrome.tabs.get` and the
  `URL` parser.
- The notification permission, the directory picker and the `manifest.json`
  read, `JSON.parse`/`JSON.stringify` and write in `setExternallyConnectable`
  (background.js:20-39, 50-59) are I/O with human interaction. Only the list merge
  is modelled. If permission is refused, the injected promise never settles and
  the click never continues; this is not modelled.
- The origin-private directory is modelled as one optional tab id (the marker
  file). "The directory is non-empty" is read as "the marker is present".
- `fetch` of the payload and the `'fetch'` proxy handler (background.js:257-264,
  282-296) are network I/O. The payload body is an opaque reply, and whether the
  fetch resolves is a parameter of `Worker.OnMessage`.
- Service-worker `install`/`activate` handling and the diagnostic state-change
  logging (background.js:70-74, 246-252, 309-313) have no behaviour to state.
- The page's wait after `'get-local'` (background.js:86-92) never registers its
  listener. Only the post is modelled.
- Timing and interleaving across contexts are not modelled. A stream transfer is
  one atomic step, and a promise's continuations run at the step that settles it.
- `Worker.ServiceWorker.HandleSignaling`: registering `handleSignaling` twice is
  modelled as registering it once. The identity of the replaced ports is not
  modelled, only whether `globalThis.signaling` holds ports. A post made after the
  ports were reset to `null` throws and is modelled as dropped. A port
  disconnect is not an event of the model: a post to a port whose other end is
  gone (the offscreen document closed by a later click, which keeps the ports
  connected) is recorded in the relay's output as delivered, where the browser
  throws and delivers nothing.
- `Offscreen.OfferEndpoint.PipeStream`: requires that the stream yields each chunk
  in its own buffer, not yet transferred. A repeated or already detached buffer
  makes the source throw, which aborts the pipe. That error path is modelled only
  for a single `ArrayBuffer.Transfer`. A `channel.send` that throws also aborts
  the pipe, after that chunk's buffer was transferred and without the closes; the
  model has the stream itself error only between chunks, and sends never fail.
- `Worker.OnMessages`: a run of messages is modelled with every fetch succeeding;
  the failing fetch is stated for one message by `Worker.OnMessage`.
- `Sdp.SessionDescription.AppendEndOfCandidatesIfMissing`: the model assumes the
  browser keeps the assignment to a description's `sdp`. Whether a given browser
  lets a read-only `localDescription.sdp` be reassigned is outside the model.
- The data channel's delivery guarantees belong to the transport and are not
  modelled.
