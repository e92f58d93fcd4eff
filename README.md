# TeaTime host ↔ engine bridge, modelled in Dafny

TeaTime is a web page that embeds a Unity WebGL build (the "engine") and
chats with the AI characters inside it. This project models the bridge
between the two and the views built on top of it.

- **The bridge** is the `useUnityBridge` hook. It has five parts:
  - an event bus (`on`/`off`/`emit`);
  - an outbound queue for intents sent before the engine is loaded;
  - a transport adapter: a direct `SendMessage` call, or `postMessage` to the iframe;
  - an inbound deduplicator with a 5000 ms window;
  - the connection lifecycle: a ready handshake, a 30 s timeout and a bounded polling fallback.
- **The engine-side example script** is `ConvaiWebBridgeExample`. It answers the intents the page injects.
- **The two chat views** are the desktop `ChatContainer` and the mobile `ChatOverlay`.
- **The small widgets** are the desktop `ChatInput` line, the mobile `FloatingButtons` and the page shell `App`.
- **The API configuration** is in `config/api.ts`.

Each source file has its own module:

| module | file | models |
|---|---|---|
| `Wrappers`, `Text`, `Js` | `wrappers.dfy`, `text.dfy`, `js.dfy` | `Option`; JavaScript's `trim`, `toString` and `padStart`; JavaScript values with truthiness, `\|\|`, `?.` and `${}` |
| `EventBus` | `event_bus.dfy` | the listener registry and one emission |
| `Dedup` | `dedup.dfy` | the processed-key set as a function of the arrival history, and the class `Deduplicator` |
| `Handshake` | `handshake.dfy` | the lifecycle phases and the polling bound |
| `Transport` | `transport.dfy` | one delivery attempt, and flushing a queue |
| `UnityBridge` | `bridge.dfy` | the class `Bridge`, holding the hook's refs and state. Timers and browser events are methods the environment calls |
| `ConvaiPeer` | `peer.dfy` | the engine script: the pure dispatch table, and the class `WebBridgePeer` |
| `ChatModel` | `chat_model.dfy` | the message list and the payload normalisation both chat views share |
| `ChatPanel` | `chat_container.dfy` | the desktop panel: a pure `OnOutput` and the class `ChatContainer` |
| `ChatOverlayView` | `chat_overlay.dfy` | the mobile overlay: a pure `OverlayOnOutput` and the class `ChatOverlay` |
| `ChatInputBox` | `chat_input.dfy` | the desktop input line |
| `FloatingVoice` | `floating_buttons.dfy` | the long-press voice button with named timer handles |
| `AppShell` | `app.dfy` | the session clock display, the device classification and the shell's flags |
| `ApiConfig` | `api.dfy` | the backend base URL and the build/title/debug settings |

Inputs the code reads from its surroundings become parameters:

- `stamp`: the `Date.now()`/`Math.random()` part of a new message id;
- `pick`: the index `Random.Range` draws;
- `env`: what the browser can reach;
- `confirmed`: the answer to the confirmation dialog;
- `elapsedMs` and `time`: clock readings.

Three behaviours of the code are easy to misread, and the model keeps them as written:

- `sendToUnity` returns `false` when it queues an intent because the engine is not loaded yet (frontend/src/hooks/useUnityBridge.ts:231-236).
- The connection status is only ever set to `connecting` or `connected`; nothing sets it to `disconnected` (frontend/src/hooks/useUnityBridge.ts:362, 386, 428, 442).
- When the polling fallback fails, the bridge still connects, with `hasUnityInstance` false (frontend/src/hooks/useUnityBridge.ts:431-444).

## Model

| member | source | states |
|---|---|---|
| Text.TrimSpec | frontend/src/hooks/useUnityBridge.ts:274-278 | over ECMAScript's WhiteSpace and LineTerminator characters (the ASCII ones, U+00A0, U+1680, U+2000-U+200A, U+2028, U+2029, U+202F, U+205F, U+3000, U+FEFF), `trim` yields the empty string exactly for an all-whitespace text; otherwise the result is the inner slice of the input, with no whitespace at either end and only whitespace cut away |
| Text.UnicodeSpacesTrimmed | frontend/src/hooks/useUnityBridge.ts:274-278 | the full-width space an input method types is blank, so `sendText` refuses it; no-break spaces and byte-order marks are trimmed away |
| Text.TrimIdempotent | frontend/src/hooks/useUnityBridge.ts:274-278 | trimming an already trimmed text changes nothing, so a view's trimmed line reaches the engine unchanged |
| Text.Utf16LengthAppend | frontend/src/components/ChatUI/ChatInput.tsx:28 | `length` in UTF-16 units adds up over a concatenation |
| Text.Utf16LengthBmp | frontend/src/components/ChatUI/ChatInput.tsx:28 | `length` equals the number of characters exactly when none lies outside the Basic Multilingual Plane |
| Text.DecimalSpec | frontend/src/components/ChatUI/ChatContainer.tsx:73 | `n.toString()` is a non-empty digit string without a leading zero that denotes `n` |
| Text.PadStart | frontend/src/App.tsx:118 | `padStart(width, c)` has length max(len, width), ends with the original string and is filled with `c` in front |
| Js.Or | frontend/src/components/ChatUI/ChatContainer.tsx:168 | `a \|\| b` is truthy exactly when one of the operands is |
| EventBus.IndexOf | frontend/src/hooks/useUnityBridge.ts:48 | `indexOf` is -1 exactly when the listener is absent, otherwise the position of its first occurrence |
| EventBus.RegisterSpec | frontend/src/hooks/useUnityBridge.ts:34-43 | `on` appends the listener to its event's list (creating the list) and leaves every other event's list alone |
| EventBus.UnregisterSpec | frontend/src/hooks/useUnityBridge.ts:45-53 | `off` removes the first registration from its event's list only; an unknown event or listener changes nothing |
| EventBus.RemoveFirstSpec | frontend/src/hooks/useUnityBridge.ts:47-51 | the guarded `splice` drops exactly the first occurrence and leaves the list alone when the listener is absent |
| EventBus.RemoveFirstCount | frontend/src/hooks/useUnityBridge.ts:47-51 | removal takes exactly one copy of the listener out of the multiset of registrations |
| EventBus.RemoveFirstUndoesAppend | frontend/src/hooks/useUnityBridge.ts:34-53 | `on` followed by `off` of a listener that was not registered restores the list |
| EventBus.RemoveFirstKeepsOthers | frontend/src/hooks/useUnityBridge.ts:45-53 | removal keeps the relative order of all other registrations |
| EventBus.FanoutReachesEveryListener | frontend/src/hooks/useUnityBridge.ts:55-67 | an emission invokes every listener exactly once, in registration order, and one that throws does not stop the rest |
| Dedup.DedupKey | frontend/src/hooks/useUnityBridge.ts:76-81 | the key is `${type}_${npcName \|\| ''}_${trimmed content}`; there is no key (the handler throws) exactly when `content` is neither a string nor nullish |
| Dedup.Expire | frontend/src/hooks/useUnityBridge.ts:92-94 | at time `now` the processed set holds exactly the keys whose deletion timer has not fired yet |
| Dedup.ExpireTwice | frontend/src/hooks/useUnityBridge.ts:92-94 | deletion timers firing at a later time subsume those of an earlier one |
| Dedup.LiveIff | frontend/src/hooks/useUnityBridge.ts:84-94 | a key is in the processed set exactly when an emitted output with that key arrived less than 5000 ms ago |
| Dedup.PublishedIff | frontend/src/hooks/useUnityBridge.ts:84-94 | an output is emitted exactly when no earlier emitted output with the same key arrived less than 5000 ms before it |
| Dedup.DuplicateWithinWindowDropped | frontend/src/hooks/useUnityBridge.ts:84-86 | a second output with the same key inside the window is dropped |
| Dedup.Deduplicator.constructor | frontend/src/hooks/useUnityBridge.ts:30 | the processed set starts empty at clock 0 |
| Dedup.Deduplicator.Admit | frontend/src/hooks/useUnityBridge.ts:84-94 | `has`/`add`: the output goes on exactly when its key is not processed, and its key is then kept until now + 5000; the table stays the function of the history |
| Dedup.Deduplicator.Advance | frontend/src/hooks/useUnityBridge.ts:92-94 | advancing the clock fires exactly the deletion timers that are due |
| Handshake.Probe | frontend/src/hooks/useUnityBridge.ts:178-207 | a visible instance settles as found; otherwise the 150th probe settles as not found and an earlier one keeps polling with the count increased |
| Handshake.SettledIsFinal | frontend/src/hooks/useUnityBridge.ts:372-397 | once connected, no late ready message, timeout or poll changes the state (listener removed, timeout cleared) |
| Handshake.PollingSettles | frontend/src/hooks/useUnityBridge.ts:167-223 | polling always settles within 150 probes, and it counts as found exactly when one probe saw the instance |
| Handshake.TimeoutAlwaysConnects | frontend/src/hooks/useUnityBridge.ts:414-447 | after the 30 s timeout the bridge always reaches the connected state, whatever the engine does |
| Transport.Deliver | frontend/src/hooks/useUnityBridge.ts:243-269 | with an instance the intent goes by `SendMessage('ConvaiGRPCWebAPI','InjectWebInput')`, otherwise by `postMessage` to the iframe; with neither there is no target, and a throwing call is a failure |
| Transport.FlushDeliversInOrder | frontend/src/hooks/useUnityBridge.ts:344-356 | flushing over a working transport hands every queued intent to the engine exactly once, in submission order; over a missing or failing one it hands over nothing |
| UnityBridge.OutputEvents | frontend/src/hooks/useUnityBridge.ts:97-111 | an admitted payload is emitted as `unity-output`, then `unity-${type}`, and once more as `unity-${type}` exactly for `user_text`, `npc_text` and `talking_status` |
| UnityBridge.Bridge.constructor | frontend/src/hooks/useUnityBridge.ts:20-31 | the initial status is not loaded, not recording, `connecting`, no instance, nothing queued; bus, queue and processed set are empty |
| UnityBridge.Bridge.On | frontend/src/hooks/useUnityBridge.ts:34-43 | the registry becomes the registration of the listener (see EventBus.RegisterSpec) |
| UnityBridge.Bridge.Off | frontend/src/hooks/useUnityBridge.ts:45-53 | the registry loses the first registration of the listener (see EventBus.UnregisterSpec) |
| UnityBridge.Bridge.Emit | frontend/src/hooks/useUnityBridge.ts:55-67 | the invocations made are the fan-out to the event's listeners in order, throwing ones included |
| UnityBridge.Bridge.Transmit | frontend/src/hooks/useUnityBridge.ts:238-269 | one attempt: success exactly when delivered; the engine receives the message, and the bus sees `message-sent`, `send-error` or nothing when there is no target |
| UnityBridge.Bridge.SendToUnity | frontend/src/hooks/useUnityBridge.ts:226-270 | before loading the intent is queued, counted and `false` returned; afterwards it is transmitted at once; every submitted intent is either handed over or queued, never both, in order |
| UnityBridge.Bridge.TransmitAll | frontend/src/hooks/useUnityBridge.ts:351-353 | the queued intents go through the transport one by one, in order |
| UnityBridge.Bridge.ProcessMessageQueue | frontend/src/hooks/useUnityBridge.ts:344-357 | when loaded, the queue is snapshotted, emptied and flushed in order, and the count becomes 0 whatever the outcomes; before loading nothing changes |
| UnityBridge.Bridge.EmitEach | frontend/src/hooks/useUnityBridge.ts:97-111 | an admitted payload's emissions are the fan-outs of its event names in order |
| UnityBridge.Bridge.HandleUnityOutput | frontend/src/hooks/useUnityBridge.ts:70-112 | null, non-object and key-less payloads are dropped; a payload whose key is processed is dropped; otherwise its key is kept 5000 ms and it is emitted under every name of OutputEvents |
| UnityBridge.Bridge.AdvanceClock | frontend/src/hooks/useUnityBridge.ts:92-94 | the due deletion timers of the processed set fire |
| UnityBridge.Bridge.Settle | frontend/src/hooks/useUnityBridge.ts:380-394 | connecting sets loaded and `connected` (announced on the bus), flushes the queue in order, then emits `unity-connected` |
| UnityBridge.Bridge.SettleAsWritten | frontend/src/hooks/useUnityBridge.ts:343-362 | as written, settling sends none of the queued intents, the remount empties the queue while `queuedMessages` keeps its count, and the status reads `connecting` again |
| UnityBridge.Bridge.InitUnityBridge | frontend/src/hooks/useUnityBridge.ts:360-414 | the first run announces `connecting` and arms the handshake; later runs change nothing |
| UnityBridge.Bridge.CheckUnity | frontend/src/hooks/useUnityBridge.ts:178-217 | one probe: the new phase is Handshake.Probe's; only settling changes the status, queue and bus |
| UnityBridge.Bridge.OnHandshakeTimeout | frontend/src/hooks/useUnityBridge.ts:414-447 | while waiting: without an iframe it connects as not found at once, otherwise it makes the first probe; in any other phase nothing changes |
| UnityBridge.Bridge.OnPollTimer | frontend/src/hooks/useUnityBridge.ts:207 | while polling the next probe runs; otherwise nothing changes |
| UnityBridge.Bridge.OnReadyMessage | frontend/src/hooks/useUnityBridge.ts:367-397 | while waiting, `UNITY_READY` connects with an instance and flushes the queue in order; at any other time nothing changes |
| UnityBridge.Bridge.OnOutputMessage | frontend/src/hooks/useUnityBridge.ts:398-407 | a `UNITY_OUTPUT` payload reaching both window listeners is still emitted at most once; before initialisation nothing happens |
| UnityBridge.Bridge.DelayedFlush | frontend/src/hooks/useUnityBridge.ts:494-502 | after the corrected settle the delayed flush finds the queue drained and changes nothing |
| UnityBridge.Bridge.SendText | frontend/src/hooks/useUnityBridge.ts:273-283 | blank text is refused with no effect; otherwise the trimmed text is sent as a `text` intent |
| UnityBridge.Bridge.StartVoice | frontend/src/hooks/useUnityBridge.ts:286-317 | the recording flag is set, whatever the outcome, and a `voice_start` intent is sent |
| UnityBridge.Bridge.StopVoice | frontend/src/hooks/useUnityBridge.ts:320-335 | the recording flag is cleared, whatever the outcome, and a `voice_stop` intent is sent |
| ConvaiPeer.ReplyChoices | ConvaiWebBridgeExample.cs:226-241 | a reply is one of exactly five strings; picks 0 and 4 embed the input, the other three do not depend on it |
| ConvaiPeer.ReplyNotBlank | ConvaiWebBridgeExample.cs:231-237 | no reply is blank |
| ConvaiPeer.DispatchSpec | ConvaiWebBridgeExample.cs:139-219 | text is echoed as `user_text` from `User` and answered by one `npc_text` from `AI Assistant`; `voice_start` reports the assistant silent; `voice_stop` echoes the fixed transcription and answers it; anything else produces nothing |
| ConvaiPeer.PageInputsAreDispatched | ConvaiWebBridgeExample.cs:139-170 | every intent the page sends is dispatched (at least one output), and text keeps its content |
| ConvaiPeer.TalkingStatusPayload | ConvaiWebBridgeExample.cs:289-303 | the talking flag travels only in `additionalData.isTalking`, and the content is `开始说话` exactly when it is set |
| ConvaiPeer.PermissionOutputsSpec | ConvaiWebBridgeExample.cs:340-356 | one `system_info` output from `System` for `granted`, `denied` and `not_supported`, none for any other result |
| ConvaiPeer.WebBridgePeer.constructor | ConvaiWebBridgeExample.cs:17-21 | the Inspector's heartbeat interval is kept, the page function starts unavailable and the heartbeat clock at 0 |
| ConvaiPeer.WebBridgePeer.Forward | ConvaiWebBridgeExample.cs:249-282 | an output reaches the page exactly in a WebGL build whose page function is available |
| ConvaiPeer.WebBridgePeer.InitializeWebBridge | ConvaiWebBridgeExample.cs:95-132 | a WebGL build records the page function's availability and announces `system_ready`; otherwise nothing changes |
| ConvaiPeer.WebBridgePeer.InjectWebInput | ConvaiWebBridgeExample.cs:139-170 | the page receives exactly the dispatch table's outputs, in order, when forwarding is on |
| ConvaiPeer.WebBridgePeer.HandleTextInput | ConvaiWebBridgeExample.cs:176-186 | the echo from `User` and then the reply |
| ConvaiPeer.WebBridgePeer.HandleTextReply | ConvaiWebBridgeExample.cs:205-219 | the echo under the given speaker and then the reply to the same text |
| ConvaiPeer.WebBridgePeer.OnMicrophonePermissionResult | ConvaiWebBridgeExample.cs:340-356 | the page receives the permission notice for the result, if any |
| ConvaiPeer.WebBridgePeer.TestWebCommunication | ConvaiWebBridgeExample.cs:362-365 | one test `system_info` output from `Test System` |
| ConvaiPeer.WebBridgePeer.SendHeartbeat | ConvaiWebBridgeExample.cs:326-334 | a WebGL build re-reads the page function's availability |
| ConvaiPeer.WebBridgePeer.Update | ConvaiWebBridgeExample.cs:82-90 | a heartbeat happens exactly when more than `heartbeatInterval` seconds passed since the last one, which restarts the interval |
| ChatModel.UpdateMessageStatusSpec | frontend/src/components/ChatUI/ChatContainer.tsx:60-66 | the status update changes only the status of the entries with that id; an unknown id changes nothing |
| ChatModel.AddMessageKeepsViewIds | frontend/src/components/ChatUI/ChatContainer.tsx:27-33 | `addMessage` appends under a fresh `msg_` id, so every id in a list is one the views issue |
| ChatModel.ClockIdIsNoViewId | frontend/src/components/ChatUI/ChatContainer.tsx:73 | a `Date.now().toString()` id is never one the views issue |
| ChatModel.SendTextAsWrittenStaysPending | frontend/src/components/ChatUI/ChatContainer.tsx:69-92 | as written, the sent line is appended and stays `pending` whatever the bridge answered |
| ChatModel.SendTextMarksEntry | frontend/src/components/ChatUI/ChatContainer.tsx:69-92 | corrected send: blank text changes nothing; otherwise exactly one user entry with the trimmed text is appended, marked `sent` or `error` by the outcome |
| ChatModel.SendTextKeepsViewIds | frontend/src/components/ChatUI/ChatContainer.tsx:69-92 | a send keeps every id view-issued |
| ChatModel.NpcNameSpec | frontend/src/components/ChatUI/ChatContainer.tsx:168 | the speaker is the first truthy of `npcName`, `npc`, `characterName`, `name`, else `NPC`, and is always truthy |
| ChatModel.FirstTextSpec | frontend/src/components/ChatUI/ChatContainer.tsx:169-188 | the text is empty exactly when no candidate is a non-blank string, else the trimmed earliest such candidate |
| ChatModel.NpcTextTrimmed | frontend/src/components/ChatUI/ChatContainer.tsx:176-179 | the extracted text is already trimmed |
| ChatModel.PickNpcText | frontend/src/components/ChatUI/ChatContainer.tsx:169-188 | the loop with its early return computes the text the candidate order defines |
| ChatModel.NormalizedTypeSpec | frontend/src/components/ChatUI/ChatContainer.tsx:192 | a truthy `type` is kept; without one the payload is `npc_text` exactly when it has text |
| ChatModel.RecentDuplicateAt | frontend/src/components/ChatUI/ChatContainer.tsx:202-203 | the duplicate check looks exactly at the last three positions |
| ChatModel.AppendNpcUnlessRecentSpec | frontend/src/components/ChatUI/ChatContainer.tsx:201-217 | the NPC line is appended exactly when none of the last three entries is the same line, and that is the only change |
| ChatModel.AppendNpcKeepsViewIds | frontend/src/components/ChatUI/ChatContainer.tsx:201-217 | the NPC append keeps every id view-issued |
| ChatModel.AppendNpcUnlessRecentIdempotent | frontend/src/components/ChatUI/ChatContainer.tsx:201-206 | the same line delivered again, under any new id, changes nothing |
| ChatPanel.TalkingFlagAsWrittenMissesPeer | frontend/src/components/ChatUI/ChatContainer.tsx:251-254 | as written the flag is false for every talking status the engine script sends |
| ChatPanel.TalkingFlagFollowsPeer | frontend/src/components/ChatUI/ChatContainer.tsx:251-254 | corrected: a talking status from the engine script sets the panel flag to exactly the value sent and changes nothing else |
| ChatModel.ResendableAppend | frontend/src/components/ChatUI/ChatContainer.tsx:289-292 | queuing a non-empty trimmed transcript keeps every pending re-send non-empty and trimmed |
| ChatModel.ResendableTail | frontend/src/components/ChatUI/ChatContainer.tsx:290-292 | the transcript a re-send timer fires with is non-blank and trimmed, and the remaining ones stay so |
| ChatPanel.OnOutputKeepsInvariant | frontend/src/components/ChatUI/ChatContainer.tsx:164-359 | every output keeps the ids view-issued and every pending re-send a non-empty trimmed transcript |
| ChatPanel.NpcTextEvent | frontend/src/components/ChatUI/ChatContainer.tsx:196-245 | `npc_text` changes only the list: one entry with the text (`未知回复` when none) exactly when the last three entries lack that line |
| ChatPanel.NpcTextRedelivered | frontend/src/components/ChatUI/ChatContainer.tsx:201-206 | handling an `npc_text` output a second time changes nothing |
| ChatPanel.OtherEvents | frontend/src/components/ChatUI/ChatContainer.tsx:247-357 | `user_text` and untyped text-less payloads change nothing, `talking_status` only the flag (corrected: read from `additionalData.isTalking`, see Findings), and an unlisted type with text adds an NPC entry without the duplicate check |
| ChatPanel.VoiceTranscriptEvent | frontend/src/components/ChatUI/ChatContainer.tsx:256-295 | a transcript with text shows as the user's line after a microphone sign and is queued for re-sending; without text nothing changes |
| ChatPanel.OutputReachesPanel | frontend/src/components/ChatUI/ChatContainer.tsx:362-363 | the handler runs three times for an admitted `npc_text`, twice for type `output` and once for any other output |
| ChatPanel.BusDeliveryShownOnce | frontend/src/components/ChatUI/ChatContainer.tsx:362-363 | the bridge's own fan-out of an admitted payload whose type is not `output` (three deliveries for `npc_text`, one otherwise) is shown once |
| ChatPanel.OutputTypeShownTwice | frontend/src/components/ChatUI/ChatContainer.tsx:336-357 | a payload of type `output` with text reaches the panel twice and is shown twice |
| ChatPanel.TranscriptRedeliveredTwice | frontend/src/components/ChatUI/ChatContainer.tsx:256-295 | a transcript delivered twice is shown twice and queued for re-sending twice |
| ChatPanel.PeerOutputNormalises | frontend/src/components/ChatUI/ChatContainer.tsx:190-192 | the engine script's outputs read back with their trimmed content as text, their name as speaker and their type kept |
| ChatPanel.PeerReplyShown | frontend/src/components/ChatUI/ChatContainer.tsx:196-217 | the engine's reply to a line shows as one `AI Assistant` entry with the trimmed reply, unless it is among the last three |
| ChatPanel.ChatContainer.constructor | frontend/src/components/ChatUI/ChatContainer.tsx:362-381 | mounting registers the handler under `unity-output` then `unity-npc_text`, and the list holds the welcome entry |
| ChatPanel.ChatContainer.Unmount | frontend/src/components/ChatUI/ChatContainer.tsx:366-369 | unmounting removes both registrations |
| ChatPanel.ChatContainer.OnUnityOutput | frontend/src/components/ChatUI/ChatContainer.tsx:164-359 | the handler's new state is `OnOutput` of the old one (with the corrected talking flag, see Findings), and the panel invariant holds |
| ChatPanel.ChatContainer.FireResend | frontend/src/components/ChatUI/ChatContainer.tsx:291-293 | the oldest pending transcript is sent as text through the bridge |
| ChatPanel.ChatContainer.HandleSendText | frontend/src/components/ChatUI/ChatContainer.tsx:69-92 | blank text does nothing; otherwise the trimmed text goes to the bridge and the list becomes the corrected send |
| ChatPanel.ChatContainer.HandleStartVoice | frontend/src/components/ChatUI/ChatContainer.tsx:95-121 | `voice_start` goes to the bridge, with recording set, and one notice of success or failure is added |
| ChatPanel.ChatContainer.HandleStopVoice | frontend/src/components/ChatUI/ChatContainer.tsx:123-147 | `voice_stop` goes to the bridge, with recording cleared, and one notice of success or failure is added |
| ChatPanel.ChatContainer.HandleClearChat | frontend/src/components/ChatUI/ChatContainer.tsx:150-160 | a confirmed clear leaves only the welcome entry; otherwise nothing changes |
| ChatOverlayView.OverlayOnOutputKeepsInvariant | frontend/src/components/Mobile/ChatOverlay.tsx:103-174 | every output keeps ids view-issued and pending re-sends trimmed and non-empty |
| ChatOverlayView.OverlayOnOutputSpec | frontend/src/components/Mobile/ChatOverlay.tsx:121-173 | only an `npc_text` line with text (appended unless among the last three) and a voice transcript with text (shown and queued) change the overlay |
| ChatOverlayView.OverlayRedelivered | frontend/src/components/Mobile/ChatOverlay.tsx:130-138 | an `npc_text` output handled again changes nothing |
| ChatOverlayView.OverlayShownOnce | frontend/src/components/Mobile/ChatOverlay.tsx:176-177 | the overlay is reached as often as the panel, and the bridge's own fan-out of an admitted payload whose type is not `output` is shown once |
| ChatOverlayView.OverlayAgreesWithPanel | frontend/src/components/Mobile/ChatOverlay.tsx:126-154 | on an `npc_text` with text overlay and panel make the same change; without text the panel shows `未知回复` and the overlay nothing |
| ChatOverlayView.ChatOverlay.constructor | frontend/src/components/Mobile/ChatOverlay.tsx:176-196 | mounting registers the handler under both names and starts with the welcome entry |
| ChatOverlayView.ChatOverlay.Unmount | frontend/src/components/Mobile/ChatOverlay.tsx:179-182 | unmounting removes both registrations |
| ChatOverlayView.ChatOverlay.SetInputText | frontend/src/components/Mobile/ChatOverlay.tsx:280 | typing replaces the input text |
| ChatOverlayView.ChatOverlay.HandleSendText | frontend/src/components/Mobile/ChatOverlay.tsx:44-70 | a blank input does nothing; otherwise the trimmed input is sent, the input cleared and the list becomes the corrected send |
| ChatOverlayView.ChatOverlay.HandleKeyPress | frontend/src/components/Mobile/ChatOverlay.tsx:73-78 | Enter without Shift sends; any other key changes nothing |
| ChatOverlayView.ChatOverlay.HandleVoiceToggle | frontend/src/components/Mobile/ChatOverlay.tsx:81-99 | while recording, stop is sent and the flag cleared whatever the outcome; otherwise start is sent and only success sets the flag and adds `🎤 语音录制中...` |
| ChatOverlayView.ChatOverlay.OnUnityOutput | frontend/src/components/Mobile/ChatOverlay.tsx:103-174 | the handler's new state is `OverlayOnOutput` of the old one, and the invariant holds |
| ChatOverlayView.ChatOverlay.FireResend | frontend/src/components/Mobile/ChatOverlay.tsx:168-170 | the oldest pending transcript is sent as text through the bridge |
| ChatInputBox.CounterWarning | frontend/src/components/ChatUI/ChatInput.tsx:80 | the counter warns exactly above 400 UTF-16 units (80% of 500) |
| ChatInputBox.ChatInput.constructor | frontend/src/components/ChatUI/ChatInput.tsx:20-21 | empty text, counter 0, no requests |
| ChatInputBox.ChatInput.HandleInputChange | frontend/src/components/ChatUI/ChatInput.tsx:26-30 | the text follows the input and the counter is its `length` in UTF-16 units, so the input line stays valid |
| ChatInputBox.MicrophoneCountsTwo | frontend/src/components/ChatUI/ChatInput.tsx:28 | an astral character such as `🎤` is one character but counts two towards the counter |
| ChatInputBox.ChatInput.HandleSendText | frontend/src/components/ChatUI/ChatInput.tsx:32-41 | when sendable the trimmed text is handed up and the input cleared; otherwise nothing changes; handed-up texts are always non-empty and trimmed |
| ChatInputBox.ChatInput.HandleKeyPress | frontend/src/components/ChatUI/ChatInput.tsx:43-48 | Enter without Shift sends; other keys change nothing |
| ChatInputBox.ChatInput.HandleVoiceStart | frontend/src/components/ChatUI/ChatInput.tsx:50-54 | asks for a start unless disabled |
| ChatInputBox.ChatInput.HandleVoiceStop | frontend/src/components/ChatUI/ChatInput.tsx:56-58 | always asks for a stop |
| ChatInputBox.ChatInput.QuickReplyAsWritten | frontend/src/components/ChatUI/ChatInput.tsx:135 | as written a quick reply leaves the counter at 0 beside a non-empty text |
| ChatInputBox.ChatInput.QuickReply | frontend/src/components/ChatUI/ChatInput.tsx:131-135 | corrected: the counter is the quick-reply text's `length` |
| ChatInputBox.QuickReplyCounterAsWritten | frontend/src/components/ChatUI/ChatInput.tsx:135 | clicking `你好` on the empty input shows counter 0 beside two characters |
| ChatInputBox.QuickReplyCounter | frontend/src/components/ChatUI/ChatInput.tsx:131-135 | corrected: the same click shows 2 |
| FloatingVoice.FloatingButtons.constructor | frontend/src/components/Mobile/FloatingButtons.tsx:15-16 | not recording, no timer, no calls |
| FloatingVoice.FloatingButtons.TouchStartAsWritten | frontend/src/components/Mobile/FloatingButtons.tsx:21-35 | as written a press arms a new timer and leaves the previous one armed |
| FloatingVoice.FloatingButtons.TouchStart | frontend/src/components/Mobile/FloatingButtons.tsx:21-35 | corrected: the press clears the timer in the ref first, so only the new timer is armed |
| FloatingVoice.FloatingButtons.Fire | frontend/src/components/Mobile/FloatingButtons.tsx:25-29 | the 500 ms timer starts recording and calls `onVoicePress(true)`; stops always follow starts |
| FloatingVoice.FloatingButtons.TouchEnd | frontend/src/components/Mobile/FloatingButtons.tsx:37-57 | release clears the held timer and stops a running recording with one `onVoicePress(false)`; with no orphaned timer nothing stays armed |
| FloatingVoice.FloatingButtons.TouchCancel | frontend/src/components/Mobile/FloatingButtons.tsx:60-72 | cancel clears and stops exactly as a release |
| FloatingVoice.FloatingButtons.ChatClick | frontend/src/components/Mobile/FloatingButtons.tsx:77-85 | one `onChatOpen` call |
| FloatingVoice.ShortPress | frontend/src/components/Mobile/FloatingButtons.tsx:21-57 | a press released before 500 ms makes no call and leaves no timer |
| FloatingVoice.LongPress | frontend/src/components/Mobile/FloatingButtons.tsx:21-57 | a long press makes exactly one start and one stop |
| FloatingVoice.OrphanedTimerAsWritten | frontend/src/components/Mobile/FloatingButtons.tsx:97-102 | as written two presses and one release leave a timer that starts recording with nothing pressed |
| FloatingVoice.OrphanedTimerCleared | frontend/src/components/Mobile/FloatingButtons.tsx:21-44 | corrected: the same sequence leaves nothing armed and never records |
| AppShell.Pad2 | frontend/src/App.tsx:118 | `padStart(2,'0')` is at least two digits that read back as the number, exactly two below 100 |
| AppShell.Split | frontend/src/App.tsx:113-115 | hours, minutes and seconds recompose the total, with minutes and seconds below 60 |
| AppShell.ShowShort | frontend/src/App.tsx:120 | without hours the display is five characters, `MM:SS`, and reads back as its seconds |
| AppShell.ShowLong | frontend/src/App.tsx:117-118 | with hours the display is `HH:MM:SS` and reads back as its seconds |
| AppShell.FormatDurationRoundTrip | frontend/src/App.tsx:112-121 | the display always reads back as the seconds shown, and is `MM:SS` exactly below one hour |
| AppShell.ClassifySpec | frontend/src/App.tsx:40-54 | portrait and landscape exclude each other, a square window is neither, and mobile-vertical is a portrait window at most 768 wide |
| AppShell.App.constructor | frontend/src/App.tsx:12-24 | duration 0 and every flag false |
| AppShell.App.Tick | frontend/src/App.tsx:27-34 | the duration is the whole seconds elapsed (floor) |
| AppShell.App.CheckDevice | frontend/src/App.tsx:40-90 | the flags follow the window size and are never both set |
| AppShell.App.HandleVoicePress | frontend/src/App.tsx:128-140 | only the recording flag changes |
| AppShell.App.HandleChatOpen | frontend/src/App.tsx:143-146 | the overlay opens |
| AppShell.App.HandleChatClose | frontend/src/App.tsx:149-152 | the overlay closes |
| ApiConfig.ExplicitUrlIgnoresPage | frontend/src/config/api.ts:8-11 | an explicit URL is the base whatever the build and whatever page serves the app |
| ApiConfig.OriginPrefix | frontend/src/config/api.ts:14-27 | without an explicit URL the base starts with the page origin and extends it exactly outside production or on a non-standard port: by `:3001` in development, by the page's port on a non-standard production port |
| ApiConfig.PortIndependence | frontend/src/config/api.ts:17-27 | standard ports are interchangeable with none, and outside production the page's port does not matter |
| ApiConfig.ApiUrl | frontend/src/config/api.ts:52-54 | the URL is the base followed by the endpoint |
| ApiConfig.EnvOr | frontend/src/config/api.ts:41-49 | the build URL and the title are never empty: an explicit value is kept, an unset one gives way to its default |

## Left out

- `reconnect` starts a new handshake without cancelling the old one's timers and listener. Overlapping handshakes are not modelled.
- `testConnection` and `forceConnect` are not modelled. The hook never returns them, so no caller can reach them.
- React's render cycle and stale closures are not modelled, except in `UnityBridge.Bridge.SettleAsWritten` (see Findings). The model has one current state, and it reads the status a callback would read after the latest commit.
- The mount effect's cleanup also clears the listener table when it re-runs. The panels register again on the next render, because their effect depends on the hook's fresh return object; that exchange is not modelled.
- `lastHeartbeat` in the status is not modelled (it holds a clock reading).
- `window.receiveUnityOutput` (`setupGlobalReceiver`) is not modelled. It parses JSON with `JSON.parse`. The model starts from the parsed payload, which the message listeners hand on the same way.
- The AudioContext resume in `startVoice` is not modelled; it is browser I/O.
- Logging, scrolling, keyboard-height tracking, rendering and `navigator.vibrate` are not modelled.
- The `UNITY_PING` post while polling and the attempt-count logging are not modelled.
- JSON serialisation is modelled only as the field values the receiving side reads.
- The `typeof d === 'string'` fallback of `pickNpcText` is not modelled. The handler has already returned for every non-object, so it is unreachable.
- Timestamps and generated ids are not modelled: `stamp` stands for them. Object identity of listeners is modelled as structural equality.
- `requestMicrophonePermission`, `getBrowserInfo`, `checkMicrophoneSupport` and the other browser imports of the engine script are not modelled. They are foreign calls; their answers are parameters.
- The Convai gRPC scripts are not part of this model: `ConvaiGRPCWebAPI_修改建议.cs`, `ConvaiGRPCWebAPI_完整版.cs`, `Unity修改示例.cs`.
- The backend server, `UnityContainer` and `Header` are not part of this model.
- The input's `maxLength` truncation is done by the browser and is not modelled.
- An unset environment variable is modelled as the empty string; both are falsy.
- `ChatInput`'s callbacks are recorded as requests rather than wired to the panel's handlers, which are modelled on their own.
- ConvaiPeer.WebBridgePeer.Update: engine time and `heartbeatInterval` are `real`s; floating-point rounding is not modelled.
- ConvaiPeer.WebBridgePeer.Forward, InitializeWebBridge and SendHeartbeat: in a `UNITY_WEBGL` build ConvaiWebBridgeExample.cs declares both a field (line 21) and an imported method (line 29) named `isWebFunctionAvailable`, which C# rejects (error CS0102), so that branch does not compile as written. The model keeps the field and takes the method's answer as the parameter `available`, as the evidently intended program would.
- ChatPanel.OtherEvents and ChatPanel.ChatContainer.OnUnityOutput: `talking_status` sets the flag from `additionalData.isTalking` (the corrected reading). The code reads `data.isTalking || false`, so a payload with a top-level `isTalking: true` sets the flag in the code and not in the model; the as-written reading is `ChatPanel.TalkingFlagAsWritten` (see Findings).
- `Js.Num` is an unbounded integer: fractions, `NaN` and infinities are not modelled.
- `Js.JsValue` has no arrays. No field the core reads holds one.
- ConvaiPeer.GenerateNpcReply: `Random.Range(0, 5)` is the parameter `pick`, so the model says which replies are possible, not how likely each is.
- UnityBridge.Bridge.DelayedFlush: the 2 s flush is modelled after the corrected settle, which already drained the queue. As written the queue is instead emptied without delivery by the remount (see Findings), so the flush finds nothing to send either way. An intent queued between the status commit and the effect is not modelled.

## Findings

| source | as written | input that shows it | evidently intended | confidence | as-written member | corrected member |
|---|---|---|---|---|---|---|
| frontend/src/components/ChatUI/ChatContainer.tsx:69-92 | the user entry is built with id `Date.now().toString()`; `addMessage` (lines 27-31) replaces it with a `msg_…` id; the status update then looks for the old id and finds nothing (the overlay does the same at ChatOverlay.tsx:44-69) | any non-blank send, e.g. `hi` with the bridge accepting it: the entry stays `pending` | the entry shows `sent` or `error` | high, not executed | ChatModel.SendTextAsWrittenStaysPending | ChatModel.SendTextMarksEntry |
| frontend/src/components/ChatUI/ChatContainer.tsx:251-254 | the talking flag is read from `data.isTalking` | a talking status from the engine script (ConvaiWebBridgeExample.cs:289-303), which carries the flag only in `additionalData.isTalking`: the flag is false and the input is never disabled | read `additionalData.isTalking`, the field the output type declares | high, not executed | ChatPanel.TalkingFlagAsWrittenMissesPeer | ChatPanel.TalkingFlagFollowsPeer |
| frontend/src/hooks/useUnityBridge.ts:465-491 | the handshake's flush runs the `processMessageQueue` of the render that created it, which reads `isUnityLoaded` as false (line 345) and sends nothing; committing `isUnityLoaded` recreates `initUnityBridge` (line 449), so this mount effect's cleanup empties the queue and its re-run sets the status back to `connecting` (line 362) | one `sendText` before the engine is ready, then `UNITY_READY`: the text is never delivered, `queuedMessages` stays 1 and the status reads `connecting` until a second handshake settles | flush the queued intents once the engine is loaded and stay `connected` | medium, not executed (rests on React re-running an effect whose dependencies changed) | UnityBridge.Bridge.SettleAsWritten | UnityBridge.Bridge.Settle |
| frontend/src/components/ChatUI/ChatInput.tsx:135 | a quick reply sets the text but not `charCount` | clicking `你好` on the empty input: the counter shows `0/500` beside two characters | update the counter with the text, as `handleInputChange` does | high, not executed | ChatInputBox.QuickReplyCounterAsWritten | ChatInputBox.QuickReplyCounter |
| frontend/src/components/Mobile/FloatingButtons.tsx:21-35 | a press overwrites the timer ref without clearing the timer it held | touch-start, then mouse-down (line 100) before release, then release: the first timer stays armed and starts recording with nothing pressed | clear the held timer before arming a new one | low, not executed (depends on the browser delivering both events) | FloatingVoice.OrphanedTimerAsWritten | FloatingVoice.OrphanedTimerCleared |
