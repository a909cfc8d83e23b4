# Live market view: subscription registry, dashboard reconciler, rolling chart history

A Dafny model of the client logic that keeps the crypto dashboard's live view consistent:

- **WebSocket service** (`websocket_service.dfy`, module `WebSocket`). It holds a connection flag, the current STOMP client and a registry that maps each topic to its one subscription handle. The pure functions `After*` give the state after each operation. The class `WebSocketService` keeps the same fields, and each method is proved to move them exactly as its function says. `Consistent` is the invariant every method keeps: a connected service has a client, and each registry entry is the handle for its own topic.
- **Dashboard reconciler** (`dashboard.dfy`, module `Dashboard`). It holds the component's state record and the pure updaters it hands to `setState`: the shallow merge, the id-keyed upsert of a streamed snapshot, both bootstrap outcomes and the table selection. It also holds the topic names and the routing of a decoded snapshot to its callback.
- **Dashboard effects** (`dashboard_effects.dfy`, module `DashboardEffects`). The class `DashboardComponent` drives the service. It opens the channel on mount, subscribes the broadcast topic once connected, keeps the selected instrument's narrow topic subscribed and tears everything down on unmount. Its invariant `NarrowBounded` says that at most one narrow topic is registered: the one whose cleanup is pending.
- **Chart history** (`crypto_chart.dfy`, module `CryptoChart`). Two parallel sequences, prices and time labels, are appended to and cut back to their last 20 entries.
- `crypto_data.dfy` holds the instrument record. `wrappers.dfy` holds `Option`. `scenarios.dfy` holds concrete runs of the model.

The model follows the code, including these behaviours a reader may not expect:

- `disconnect` does not cancel a pending reconnect timer (`Scenarios.DisconnectKeepsPendingReconnect`).
- A failed connect keeps the registry, including handles of the failed client. After a connection drop and a successful reconnect, the broadcast topic is therefore still registered on the old client. The dashboard's `subscribe` of it is then a no-op (`Scenarios.DropKeepsStaleHandle`). The old client is gone and the new one never subscribed, so from then on no broadcast frame reaches the dataset upsert (`Scenarios.ReconnectSilencesBroadcast`). On the running component, a reconnect silences a registered broadcast topic and every later event short of unmount keeps it silent (`DashboardEffects.DashboardComponent.OnReconnectTimer`, `Scenarios.DropSilencesDashboard`).
- A failed bootstrap keeps the dataset and selection as they were. A later successful one does not clear the error message (`Scenarios.RetryKeepsError`).
- Selecting an instrument does not check that it is in the dataset.
- The chart history is not reset when the selection changes (`CryptoChart.SelectionKeepsHistory`).
- The narrow-topic callback replaces only the selection, not the dataset row. Until the same snapshot also arrives on the broadcast topic, the selection is ahead of its row (`Dashboard.NarrowDeliveryCanOutrunDataset`, `Dashboard.BroadcastAndNarrowAgree`).
- The component's `connected` flag is set on the first successful connect and is never cleared again.

## Model

| member | source | states |
|---|---|---|
| WebSocket.AfterConnect | frontend/src/services/WebSocketService.js:11-13 | connect installs the new client; the flag, the registry and the pending timers are unchanged |
| WebSocket.AfterConnectSuccess | frontend/src/services/WebSocketService.js:17-21 | the success event sets the flag to true and changes nothing else |
| WebSocket.AfterConnectError | frontend/src/services/WebSocketService.js:22-27 | the error event clears the flag, schedules one more reconnect and leaves the registry untouched |
| WebSocket.AfterReconnectTimer | frontend/src/services/WebSocketService.js:26 | a firing timer is no longer pending and connect runs again with a new client |
| WebSocket.AfterSubscribe | frontend/src/services/WebSocketService.js:31-48 | disconnected: nothing changes; already registered: nothing changes, old handle and callback kept; otherwise exactly one key is added, a handle on the current client, and every old entry stays; consistency is kept |
| WebSocket.AfterUnsubscribe | frontend/src/services/WebSocketService.js:50-56 | the topic's entry goes and every other entry stays; on an absent topic it is a no-op |
| WebSocket.AfterDisconnect | frontend/src/services/WebSocketService.js:58-65 | with a client: the flag drops and the registry empties; without one: nothing changes; pending timers stay |
| WebSocket.HandlerFor | frontend/src/services/WebSocketService.js:37-43 | a frame from a client on a topic reaches the handle's callback exactly when the flag is up, that client is the current one and the topic's handle belongs to it |
| WebSocket.SubscribeRoutes | frontend/src/services/WebSocketService.js:37-43 | a topic newly subscribed while connected hands the current client's frames to the given callback |
| WebSocket.StaleRoutesNothing | frontend/src/services/WebSocketService.js:37-43 | a topic whose handle belongs to a client other than the current one routes no client's frame to any callback |
| WebSocket.ErrorRoutesNothing | frontend/src/services/WebSocketService.js:22-27 | after a failed connect no client's frame reaches any callback |
| WebSocket.DisconnectRoutesNothing | frontend/src/services/WebSocketService.js:58-65 | after disconnect no client's frame reaches any callback |
| WebSocket.SubscribeIdempotent | frontend/src/services/WebSocketService.js:37 | a second subscribe to the same topic, with any callback, leaves the first registration |
| WebSocket.UnsubscribeIdempotent | frontend/src/services/WebSocketService.js:50-56 | unsubscribing twice equals unsubscribing once and leaves no registration |
| WebSocket.DisconnectIdempotent | frontend/src/services/WebSocketService.js:58-65 | a second disconnect changes nothing |
| WebSocket.SubscribeThenUnsubscribe | frontend/src/services/WebSocketService.js:37-56 | subscribing a new topic and unsubscribing it restores the state |
| WebSocket.WebSocketService.constructor | frontend/src/services/WebSocketService.js:5-9 | a new service has no client, is not connected and has an empty registry |
| WebSocket.WebSocketService.Connect | frontend/src/services/WebSocketService.js:11-13 | requires a client never used before and the flag down; the fields move as AfterConnect says; its outcome is now pending; every registered handle becomes stale |
| WebSocket.WebSocketService.OnConnectSuccess | frontend/src/services/WebSocketService.js:17-21 | only while the current client's connect is pending; the fields move as AfterConnectSuccess says and nothing is pending any more |
| WebSocket.WebSocketService.OnConnectError | frontend/src/services/WebSocketService.js:22-27 | only for a pending connect or a live connection; the fields move as AfterConnectError says and nothing is pending any more |
| WebSocket.WebSocketService.OnReconnectTimer | frontend/src/services/WebSocketService.js:26 | with a client never used before and the flag down; the fields move as AfterReconnectTimer says; its outcome is pending; every registered handle becomes stale |
| WebSocket.WebSocketService.Subscribe | frontend/src/services/WebSocketService.js:31-48 | returns true exactly when connected; the fields move as AfterSubscribe says |
| WebSocket.WebSocketService.Unsubscribe | frontend/src/services/WebSocketService.js:50-56 | the fields move as AfterUnsubscribe says |
| WebSocket.WebSocketService.Disconnect | frontend/src/services/WebSocketService.js:58-65 | the fields move as AfterDisconnect says |
| WebSocket.WebSocketService.IsConnected | frontend/src/services/WebSocketService.js:67-69 | returns the flag and modifies nothing |
| Dashboard.UpdateState | frontend/src/components/Dashboard.js:22-24 | each field named in the patch takes its value; every other field keeps its value |
| Dashboard.UpdateStateComposes | frontend/src/components/Dashboard.js:22-24 | two merges equal one merge with the later patch winning; the empty patch is the identity |
| Dashboard.FindIndex | frontend/src/components/Dashboard.js:30 | -1 exactly when no element has the id, otherwise the first position holding it |
| Dashboard.UpdateCryptoData | frontend/src/components/Dashboard.js:27-47 | a known id: same length, that position is the snapshot, all others unchanged; an unknown id: the snapshot is appended; the selection follows exactly when non-null with the same id; loading, error and connected untouched |
| Dashboard.UpdateIds | frontend/src/components/Dashboard.js:30-39 | the ids after an upsert are the old ids, plus the new id at the end if it was not there |
| Dashboard.UpdateKeepsUniqueIds | frontend/src/components/Dashboard.js:30-39 | unique ids stay unique after an upsert |
| Dashboard.UpdateLookup | frontend/src/components/Dashboard.js:30-39 | after an upsert the snapshot's id resolves to the snapshot and every other id resolves as before |
| Dashboard.UpdateKeepsFocusResolved | frontend/src/components/Dashboard.js:27-47 | if the selection is the dataset's snapshot for its id, it still is after an upsert |
| Dashboard.UpdatesKeepUniqueIds | frontend/src/components/Dashboard.js:27-47 | any stream of upserts keeps the ids unique |
| Dashboard.UpdatesFirstSeenOrder | frontend/src/components/Dashboard.js:30-39 | after any stream of upserts the ids are in first-seen order |
| Dashboard.UpdatesLookupLatest | frontend/src/components/Dashboard.js:30-39 | after any stream of upserts each id resolves to its latest snapshot, or to what it resolved to before |
| Dashboard.UpdatesSelectLatest | frontend/src/components/Dashboard.js:43-46 | after any stream of upserts the selection is the latest snapshot with its id; no selection stays none |
| Dashboard.FetchInitialData | frontend/src/components/Dashboard.js:57-74 | success: dataset is the list, first element selected (none if empty), loading off, error kept; failure: fixed message, loading off, dataset and selection kept |
| Dashboard.FetchKeepsFocusResolved | frontend/src/components/Dashboard.js:62-66 | a successful bootstrap leaves the selection resolving to its dataset row |
| Dashboard.HandleSelectCrypto | frontend/src/components/Dashboard.js:115-117 | the selection becomes the clicked instrument and no other field changes |
| Dashboard.SelectKeepsFocusResolved | frontend/src/components/Dashboard.js:115-117 | selecting the dataset's snapshot for an id keeps the selection resolving |
| Dashboard.RowIsLatest | frontend/src/components/Dashboard.js:115-117 | with unique ids, every table row is the snapshot its id resolves to |
| Dashboard.NarrowTopic | frontend/src/components/Dashboard.js:100 | the narrow topic is the prefix "/topic/crypto/" followed by exactly the symbol |
| Dashboard.TopicsDistinct | backend/src/main/java/com/cryptostream/consumer/CryptoDataConsumer.java:24-27 | the broadcast topic is not a narrow topic, and two symbols share a narrow topic only if equal |
| Dashboard.NarrowTopicFor | frontend/src/components/Dashboard.js:99-100 | a narrow topic exists exactly when a selection exists and connected is set, and it is the selection's |
| Dashboard.Deliver | frontend/src/components/Dashboard.js:103-105 | the broadcast callback upserts; the narrow callback replaces only the selection |
| Dashboard.NarrowDeliveryCanOutrunDataset | frontend/src/components/Dashboard.js:103-105 | the narrow callback alone leaves the selection no longer equal to its dataset row |
| Dashboard.BroadcastAndNarrowAgree | frontend/src/components/Dashboard.js:103-105 | once one snapshot has arrived on both topics, in either order, the selection resolves again |
| DashboardEffects.AfterNarrowEffect | frontend/src/components/Dashboard.js:98-112 | the previous cleanup's unsubscribe, then the selection's subscribe, keep consistency and change no connection field |
| DashboardEffects.NarrowEffectKeepsOne | frontend/src/components/Dashboard.js:98-112 | after a re-run at most one narrow topic is registered, and it is the selection's; none while disconnected |
| DashboardEffects.NarrowEffectSwitches | frontend/src/components/Dashboard.js:98-112 | the old narrow topic is gone unless it is the new one; when connected, the new one holds a fresh focus handle; non-narrow entries are untouched |
| DashboardEffects.DashboardComponent.constructor | frontend/src/components/Dashboard.js:10-16 | the initial state record and no pending cleanup |
| DashboardEffects.DashboardComponent.Mount | frontend/src/components/Dashboard.js:87-95 | with a client never used before and the flag down, the service moves as AfterConnect says and its connect is pending |
| DashboardEffects.DashboardComponent.OnFetchResult | frontend/src/components/Dashboard.js:57-74 | the state moves as FetchInitialData says |
| DashboardEffects.DashboardComponent.OnSocketConnected | frontend/src/components/Dashboard.js:77-84 | only while a connect is pending; flag raised, then connected set and the broadcast topic subscribed with the upsert callback; a silenced broadcast topic stays silenced |
| DashboardEffects.DashboardComponent.OnSocketError | frontend/src/services/WebSocketService.js:22-27 | only for a pending connect or a live connection; the service moves as AfterConnectError says; the component's connected flag is untouched; a silenced broadcast topic stays silenced |
| DashboardEffects.DashboardComponent.OnReconnectTimer | frontend/src/services/WebSocketService.js:26 | with a client never used before and the flag down, the service moves as AfterReconnectTimer says; a broadcast topic registered before is silenced from then on |
| DashboardEffects.DashboardComponent.OnFrame | frontend/src/services/WebSocketService.js:38-41 | a frame from a client reaches the topic's callback only when HandlerFor finds one (the live client's own handle), and then the state moves as Deliver says; otherwise nothing changes; while the broadcast topic is silenced its frames change nothing |
| DashboardEffects.DashboardComponent.SelectCrypto | frontend/src/components/Dashboard.js:115-117 | the state moves as HandleSelectCrypto says |
| DashboardEffects.DashboardComponent.RerunNarrowEffect | frontend/src/components/Dashboard.js:98-112 | cleanup then subscribe, as AfterNarrowEffect says; the pending cleanup becomes the selection's topic; at most one narrow topic stays registered; a silenced broadcast topic stays silenced |
| DashboardEffects.DashboardComponent.Unmount | frontend/src/components/Dashboard.js:92-94 | disconnect empties the registry, then the narrow cleanup runs; nothing is left to clean up |
| CryptoChart.AppendSample | frontend/src/components/CryptoChart.js:16-23 | at most 20 entries, the new sample last; below 20 it is exactly prev + [x]; otherwise the last 20 of prev + [x] |
| CryptoChart.OnData | frontend/src/components/CryptoChart.js:13-35 | no snapshot or a null or zero price: nothing changes; otherwise the prices are AppendSample of the old prices and the new price, the labels AppendSample of the old labels and the new label, both ending with the new sample and within 20; equal lengths stay equal |
| CryptoChart.AppendAllKeepsLast | frontend/src/components/CryptoChart.js:16-23 | any run of appends leaves the last 20 of everything appended, in arrival order |
| CryptoChart.TwentyFiveAppends | frontend/src/components/CryptoChart.js:17-20 | from empty, 25 appends leave exactly the last 20 samples in order |
| CryptoChart.StreamAppends | frontend/src/components/CryptoChart.js:13-35 | feeding a stream appends its prices to the price sequence and its labels to the label sequence, one by one |
| CryptoChart.HistoryOverStream | frontend/src/components/CryptoChart.js:13-35 | over any stream of snapshots, prices are the last 20 of old prices plus the priced snapshots' prices, labels the last 20 of old labels plus those snapshots' labels; the two lengths stay equal and within 20 |
| CryptoChart.HistoryFromMount | frontend/src/components/CryptoChart.js:9-35 | from the initial empty sequences the chart holds the last 20 prices and the last 20 labels of the priced snapshots, oldest first |
| CryptoChart.SelectionKeepsHistory | frontend/src/components/CryptoChart.js:13-35 | samples of a previously selected instrument stay when another one's sample arrives |
| Scenarios.BootstrapOne | frontend/src/components/Dashboard.js:62-66 | bootstrapping one instrument selects it, with a dataset of length 1 |
| Scenarios.FailThenRetry | frontend/src/services/WebSocketService.js:15-27 | a failed connect then a successful retry: flag false then true, broadcast held on the retry's client |
| Scenarios.DropKeepsStaleHandle | frontend/src/services/WebSocketService.js:22-27 | after a drop and a reconnect, the broadcast handle stays on the old client |
| Scenarios.ReconnectSilencesBroadcast | frontend/src/services/WebSocketService.js:37-43 | before the drop the first client's broadcast frames reach the upsert; after the drop and reconnect neither client's broadcast frames reach any callback |
| Scenarios.DropSilencesDashboard | frontend/src/services/WebSocketService.js:22-43 | on the component, after mount, connect, drop, reconnect and connect, a broadcast frame from any client leaves the state unchanged, while the new client's frame on a newly selected narrow topic replaces the selection |
| Scenarios.DisconnectKeepsPendingReconnect | frontend/src/services/WebSocketService.js:58-65 | disconnect leaves a scheduled reconnect able to fire and install a new client |
| Scenarios.FocusedUpdateReachesChart | frontend/src/components/Dashboard.js:43-46 | a broadcast snapshot of the selected instrument becomes the selection, and the chart gains its one sample; a fresh chart then holds exactly that price and label |
| Scenarios.RetryKeepsError | frontend/src/components/Dashboard.js:62-66 | a successful bootstrap after a failed one keeps the error message |

## Left out

- The SockJS and STOMP transport. Opening a socket yields an abstract client value. Connect outcomes are events. The transport side of `subscribe`, of a handle's `unsubscribe()` and of `stompClient.disconnect()` is not modelled. The console logging is not modelled. Only the current client, while the flag is up, delivers frames: a client whose connect failed or that was disconnected is taken to deliver none. The order of transport events is constrained by two ghost fields of the service: a success event arrives only for the pending connect, an error only for a pending connect or a live connection, and each connect uses a client never used before.
- A connect while the connection is up. The mount effect runs once and the only timer is scheduled by the error callback, which has already cleared the flag, so `Connect`, `Mount` and both `OnReconnectTimer` methods require the flag to be down. The one trace of the source that breaks this, an unmount and a remount while the first mount's reconnect timer is still pending, is not modelled: there the remount's live client would be replaced while it still delivers.
- The timer's 5-second delay. `setTimeout` is a count of pending reconnects, and a firing timer is an event.
- `JSON.parse` in the frame handler (frontend/src/services/WebSocketService.js:39). This is a foreign call, so frames arrive already decoded as an instrument record. A malformed body throws inside the handler in the source; the model has no such frames.
- The match between the JSON property names the backend writes and the names the frontend reads. The backend renames `price` and `changePercent24h` (backend/src/main/java/com/cryptostream/model/CryptoData.java:19-23), and the model does not check those names.
- The `if (onConnect)` guard. The only caller always passes a callback. The component runs that callback right after the success event.
- When React re-runs an effect. That depends on whether `selectedCrypto` or `connected` is the same object, and the model has no object identity. The host calls `RerunNarrowEffect`, and feeds the chart, whenever they change. Batching of several `setState` calls is also not modelled.
- The axios fetch (frontend/src/components/Dashboard.js:59). This is network I/O; its outcome is `Fetched(list)` or `FetchFailed`.
- All rendering and the `parseFloat`, `toFixed` and `toLocaleString` display code. This is presentation and floating point.
- In the chart, `parseFloat(data.price)` and the `moment(...).format('HH:mm:ss')` label. The decimal is stored as is, and the label as the instant it formats.
- frontend/src/components/CryptoTable.js and frontend/src/App.js. The table's sort and number formatting run on floats, and App.js is static layout.
- The backend services, producer, consumer and controller. These are framework wrappers over HTTP, Kafka and messaging. Only the consumer's topic names are used.
