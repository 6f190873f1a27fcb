# OpenTok React Native bridge (Android): bookkeeping model

This project models the bookkeeping state machine of the Android side of the
OpenTok React Native bridge. Two native modules are covered:

- `OTSessionManager` handles sessions, publishers and subscribers.
- `OTPublisherManager` is the publisher-only module.

The state modelled is what the modules do to their data:

- The keyed tables of the process-wide shared state: sessions, publishers,
  subscribers, subscriber streams, connections, view containers, pending
  connect, disconnect and destroy callbacks, and the `androidOnTop` /
  `androidZOrder` layout options.
- The session module's per-session connection-status map.
- The event-subscription lists that filter what is emitted to JavaScript.

Everything the bridge does to the outside world goes into one ordered,
append-only effect log. An entry is one of three kinds:

- a call on an SDK object (listener registration, connect, publish,
  unpublish, stop capture, …);
- the invocation of a host callback, with its arguments;
- an event emitted to the host.

Files:

- `wrappers.dfy`: the `Option` type.
- `entities.dfy`: SDK handles as values that carry their ids, callbacks,
  payloads, effects, status codes, event names, and how `init` builds a
  publisher.
- `event_lists.dfy`: the subscription lists (`ArrayList` append and
  `remove(Object)`) and the emit filter.
- `shared_state.dfy`: the shared tables (`SharedState`) with their identity
  invariant, and the effect log (`Effects`).
- `session_manager.dfy`: `OTSessionManager`, one method per host request and
  per listener override.
- `publisher_manager.dfy`: `OTPublisherManager`.
- `scenarios.dfy`: request and listener sequences on a fresh bridge, with
  what the host observes at the end.

The state-changing methods use field-level frames (``modifies shared`publishers, world``).
A table a method does not name is unchanged by construction. A method on a
table keeps `Valid()`: every table entry is stored under the id its value
carries.

## Model

All source paths are under `android/src/main/java/com/opentokreactnative/`, written out in full below.

| member | source | states |
|---|---|---|
| Entities.InvocationCount | android/src/main/java/com/opentokreactnative/OTSessionManager.java:117-133 | The number of times a callback is invoked in a log is at most the log's length, and it is zero exactly when no entry of the log invokes that callback. This is the measure behind every "fires exactly once" promise. |
| Entities.NoInvocations | android/src/main/java/com/opentokreactnative/OTSessionManager.java:498-536 | A log made only of SDK calls and emitted events invokes no callback, which is what the teardown of `destroyPublisher` produces. |
| Entities.InvocationCountSingle | android/src/main/java/com/opentokreactnative/OTSessionManager.java:117-133 | A one-entry log invokes a callback once if that entry is its invocation, else never. |
| Entities.InvocationCountAppend | android/src/main/java/com/opentokreactnative/OTSessionManager.java:461-489 | Invocation counts add up over concatenated logs, so each step's contribution can be counted separately. |
| Entities.SessionEventNameDeterminesId | android/src/main/java/com/opentokreactnative/OTSessionManager.java:618-626 | For the same event name, two sessions never share the scoped name `<sessionId>:session:<name>`: equal scoped names imply equal session ids. |
| Entities.PublisherEventNameDeterminesId | android/src/main/java/com/opentokreactnative/OTPublisherManager.java:62-72 | For the same event name, two publishers never share the scoped name `<publisherId>:publisher:<name>`: equal scoped names imply equal publisher ids. |
| Entities.NewPublisher | android/src/main/java/com/opentokreactnative/OTPublisherManager.java:176-212 | The publisher `init` builds carries the requested id, captures the screen exactly when the video source is `"screen"`, and is not attached to any session yet. |
| Entities.InitPublisherCalls | android/src/main/java/com/opentokreactnative/OTSessionManager.java:143-184 | The calls `init` makes are fixed exactly. First comes the screen video type iff the source is `"screen"`, or a camera cycle iff the source is not the screen and the position is `"back"`; the log has five calls iff one of these applies, else four. Then the building module registers as the publisher's listener. Then audio fallback, publish-video and publish-audio from the properties, in that order. No callback is invoked. |
| Entities.SessionEventName | android/src/main/java/com/opentokreactnative/OTSessionManager.java:624 | A session event name is the session id, then `:session:`, then the event's own name, with nothing else. |
| Entities.PublisherEventName | android/src/main/java/com/opentokreactnative/OTPublisherManager.java:65 | A publisher event name is the publisher id, then `:publisher:`, then the event's own name, with nothing else. |
| Entities.SubscriberEventName | android/src/main/java/com/opentokreactnative/OTSessionManager.java:805 | A subscriber event name is `subscriber:` followed by the event's own name; it carries no stream id. |
| EventLists.Contains | android/src/main/java/com/opentokreactnative/OTSessionManager.java:574-581 | The filter's `Utils.contains` holds iff the name is in the list. |
| EventLists.IndexOf | android/src/main/java/com/opentokreactnative/OTSessionManager.java:423-427 | The position `ArrayList.remove(Object)` removes at is the first equal element, or -1 iff the name is absent. |
| EventLists.RemoveFirst | android/src/main/java/com/opentokreactnative/OTSessionManager.java:423-427 | One `remove(name)` leaves the list as it was when the name is absent. Otherwise it cuts out exactly the first occurrence. Either way the multiset loses one copy of the name. |
| EventLists.RemoveEach | android/src/main/java/com/opentokreactnative/OTSessionManager.java:423-427 | The removal loop removes one occurrence per given name: the result's multiset is the old multiset minus the names'. |
| EventLists.RemoveEachSnoc | android/src/main/java/com/opentokreactnative/OTSessionManager.java:423-427 | Removing one more name after a batch is one more `remove` at the end: the loop's step. |
| EventLists.RemoveOneMore | android/src/main/java/com/opentokreactnative/OTSessionManager.java:447-451 | After `i` iterations, iteration `i` extends the batch by name `i`. This is the invariant step of both removal loops. |
| EventLists.MultisetDifferenceTwice | android/src/main/java/com/opentokreactnative/OTSessionManager.java:423-427 | Two successive removals from a multiset equal one removal of their sum. |
| EventLists.AddThenRemoveRestoresMultiset | android/src/main/java/com/opentokreactnative/OTSessionManager.java:411-427 | Subscribing a batch of names and then unsubscribing the same batch restores the subscription multiset. |
| EventLists.AddThenRemoveRestoresList | android/src/main/java/com/opentokreactnative/OTSessionManager.java:411-427 | If none of the names was subscribed before, unsubscribing them after appending removes exactly the appended copies and restores the list, whatever was appended after them. |
| EventLists.ShouldEmit | android/src/main/java/com/opentokreactnative/OTSessionManager.java:574-590 | An event passes the filter iff its full name is in `jsEvents` or in `componentEvents`. |
| EventLists.Delivery | android/src/main/java/com/opentokreactnative/OTSessionManager.java:574-590 | A send appends at most one effect. It appends an effect iff the name is subscribed in either list, and that effect is the event with its payload. |
| EventLists.RemoveOnceKeepsDuplicate | android/src/main/java/com/opentokreactnative/OTSessionManager.java:423-427 | After one `remove`, a name added twice still passes the filter. Precisely, the event passes iff the list held at least two copies or the other list holds the name. |
| SharedRegistry.SharedState.constructor | android/src/main/java/com/opentokreactnative/OTSessionManager.java:66-71 | The shared state both modules reach starts with every table and list empty, which satisfies the identity invariant. |
| SharedRegistry.SharedState.PutPublisher | android/src/main/java/com/opentokreactnative/OTPublisherManager.java:208-209 | `put` overwrites the entry under the publisher's own id and keeps the identity invariant. |
| SharedRegistry.SharedState.RemoveSession | android/src/main/java/com/opentokreactnative/OTSessionManager.java:640 | `remove` drops exactly that key and keeps the identity invariant. |
| SharedRegistry.Effects.constructor | android/src/main/java/com/opentokreactnative/OTSessionManager.java:66-71 | The effect log starts empty: nothing has been called, invoked or emitted. |
| SharedRegistry.SharedState.PutSession | android/src/main/java/com/opentokreactnative/OTSessionManager.java:96 | `put` stores the session under its own id, overwriting, and keeps the identity invariant. |
| SharedRegistry.SharedState.RemovePublisher | android/src/main/java/com/opentokreactnative/OTSessionManager.java:511 | `remove` drops exactly that publisher id and keeps the identity invariant. |
| SharedRegistry.SharedState.PutSubscriber | android/src/main/java/com/opentokreactnative/OTSessionManager.java:254 | `put` stores the subscriber under its stream id, overwriting, and keeps the identity invariant. |
| SharedRegistry.SharedState.RemoveSubscriber | android/src/main/java/com/opentokreactnative/OTSessionManager.java:293 | `remove` drops exactly that stream id from the subscribers and keeps the identity invariant. |
| SharedRegistry.SharedState.PutStream | android/src/main/java/com/opentokreactnative/OTSessionManager.java:650 | `put` stores the stream under its own id, overwriting, and keeps the identity invariant. |
| SharedRegistry.SharedState.RemoveStream | android/src/main/java/com/opentokreactnative/OTSessionManager.java:758 | `remove` drops exactly that stream id from the stream records and keeps the identity invariant. |
| SharedRegistry.SharedState.PutConnection | android/src/main/java/com/opentokreactnative/OTSessionManager.java:711 | `put` stores the connection under its own id, overwriting, and keeps the identity invariant. |
| SharedRegistry.SharedState.RemoveConnection | android/src/main/java/com/opentokreactnative/OTSessionManager.java:722 | `remove` drops exactly that connection id and keeps the identity invariant. |
| SharedRegistry.SharedState.RemovePublisherViewContainer | android/src/main/java/com/opentokreactnative/OTSessionManager.java:519 | `remove` drops exactly that publisher id from the publisher view containers. |
| SharedRegistry.SharedState.RemoveSubscriberViewContainer | android/src/main/java/com/opentokreactnative/OTSessionManager.java:292 | `remove` drops exactly that stream id from the subscriber view containers. |
| SharedRegistry.SharedState.PutConnectCallback | android/src/main/java/com/opentokreactnative/OTSessionManager.java:120 | `put` stores the connect callback under the session id, overwriting. |
| SharedRegistry.SharedState.PutDisconnectCallback | android/src/main/java/com/opentokreactnative/OTSessionManager.java:318 | `put` stores the disconnect callback under the session id, overwriting. |
| SharedRegistry.SharedState.RemoveDisconnectCallback | android/src/main/java/com/opentokreactnative/OTSessionManager.java:642 | `remove` drops exactly that session id from the disconnect callbacks. |
| SharedRegistry.SharedState.PutDestroyedCallback | android/src/main/java/com/opentokreactnative/OTSessionManager.java:533 | `put` stores the destroy callback under the publisher id, overwriting. |
| SharedRegistry.SharedState.PutAndroidOnTop | android/src/main/java/com/opentokreactnative/OTSessionManager.java:101 | `put` stores the on-top option under the session id, overwriting. |
| SharedRegistry.SharedState.PutAndroidZOrder | android/src/main/java/com/opentokreactnative/OTSessionManager.java:106 | `put` stores the z-order option under the session id, overwriting. |
| SessionBridge.SubscriberEvent.Name | android/src/main/java/com/opentokreactnative/OTSessionManager.java:795-1002 | Each subscriber listener's event name is the name of its Java listener method, given per listener (`onConnected` … `onVideoDataReceived`, with `onAudioLevelUpdated` for the audio level); every one starts with `on`. |
| SessionBridge.SubscriberNameDeterminesListener | android/src/main/java/com/opentokreactnative/OTSessionManager.java:795-1002 | Different subscriber listeners emit different names: equal names mean the same listener. |
| SessionBridge.SubscriberEvent.Detail | android/src/main/java/com/opentokreactnative/OTSessionManager.java:795-1002 | The extra payload field is absent exactly for the six listeners that report only the stream. Every other listener carries its own field: the error, the audio or video statistics, the audio level, or the disable/enable reason. |
| SessionBridge.Lookup | android/src/main/java/com/opentokreactnative/OTSessionManager.java:498-536 | A `Map.get` (used for the stream record in `subscribeToStream` and the publisher in `destroyPublisher`) finds a value iff the key is stored, and then returns the stored one; `null` otherwise. |
| SessionBridge.TeardownCalls | android/src/main/java/com/opentokreactnative/OTSessionManager.java:498-536 | Teardown makes no call iff no publisher was found. Otherwise it makes at most two calls and ends with a capture stop; it unpublishes iff the publisher's session id is set and registered, and then the first call unpublishes from exactly that registered session. It makes SDK calls only. |
| SessionBridge.SessionManager.constructor | android/src/main/java/com/opentokreactnative/OTSessionManager.java:58-71 | The session module starts with an empty status map and empty subscription lists of its own, wired to the shared state. |
| SessionBridge.SessionManager.ConnectionStatus | android/src/main/java/com/opentokreactnative/OTSessionManager.java:592-598 | The status of a session never reported on is 0, and otherwise the stored value. Under the map invariant it is one of 0, 1, 3, 6. |
| SessionBridge.SessionManager.SetConnectionStatus | android/src/main/java/com/opentokreactnative/OTSessionManager.java:600-602 | Overwrites one entry, after which `getConnectionStatus` reads the new value. Writing a status code keeps every stored value a status code. |
| SessionBridge.SessionManager.SendEvent | android/src/main/java/com/opentokreactnative/OTSessionManager.java:574-590 | The session module emits iff the name is in its own lists, and changes nothing else. |
| SessionBridge.SessionManager.SetNativeEvents | android/src/main/java/com/opentokreactnative/OTSessionManager.java:411-415 | Appends every name in order, duplicates included. |
| SessionBridge.SessionManager.RemoveNativeEvents | android/src/main/java/com/opentokreactnative/OTSessionManager.java:423-427 | The loop leaves the list equal to one `remove` per name, in order. Its multiset is the old one minus the names. |
| SessionBridge.SessionManager.SetJSComponentEvents | android/src/main/java/com/opentokreactnative/OTSessionManager.java:435-439 | Appends every name in order, duplicates included. |
| SessionBridge.SessionManager.RemoveJSComponentEvents | android/src/main/java/com/opentokreactnative/OTSessionManager.java:447-451 | Removes one occurrence per name, in order. Its multiset is the old one minus the names. |
| SessionBridge.SessionManager.InitSession | android/src/main/java/com/opentokreactnative/OTSessionManager.java:82-107 | Logs this module's registration as the session's listener. Then registers the new session and both layout options under the session id. No other table changes. |
| SessionBridge.SessionManager.Connect | android/src/main/java/com/opentokreactnative/OTSessionManager.java:117-133 | Always stores the callback under the session id. A known session gets exactly one SDK connect call and no invocation. An unknown one gets no SDK call and exactly one invocation of the callback, with the error. |
| SessionBridge.SessionManager.InitPublisher | android/src/main/java/com/opentokreactnative/OTSessionManager.java:143-184 | Stores the new publisher under the publisher id, overwriting. Makes the configuration calls, then invokes the callback once with no arguments. |
| SessionBridge.SessionManager.Publish | android/src/main/java/com/opentokreactnative/OTSessionManager.java:194-217 | A known session and publisher get one publish call, with the publisher now attached to that session, and a no-argument answer. A missing session gives the "no session" error. A missing publisher gives the "no publisher" error. The table is unchanged on both error paths. |
| SessionBridge.SessionManager.SubscribeToStream | android/src/main/java/com/opentokreactnative/OTSessionManager.java:228-264 | Builds a subscriber over the registered stream. Registers this module as its listener and sets its audio and video. Stores it under the stream id whether or not the session exists. Then it either subscribes and answers `(null, streamId)`, or answers with the "no session" error. |
| SessionBridge.SessionManager.RemoveSubscriber | android/src/main/java/com/opentokreactnative/OTSessionManager.java:273-304 | Removes the stream id from subscribers, subscriber view containers and streams, and leaves every other key and table alone. Invokes the callback once with no arguments. |
| SessionBridge.SessionManager.DisconnectSession | android/src/main/java/com/opentokreactnative/OTSessionManager.java:313-323 | Stores the disconnect callback. Makes a disconnect call iff the session is known, and invokes nothing. |
| SessionBridge.SessionManager.PublishAudio | android/src/main/java/com/opentokreactnative/OTSessionManager.java:332-339 | Toggles a known publisher's audio. On an unknown id it does nothing, and it never changes a table. |
| SessionBridge.SessionManager.PublishVideo | android/src/main/java/com/opentokreactnative/OTSessionManager.java:348-355 | Toggles a known publisher's video. On an unknown id it does nothing, and it never changes a table. |
| SessionBridge.SessionManager.SubscribeToAudio | android/src/main/java/com/opentokreactnative/OTSessionManager.java:364-371 | Toggles a known subscriber's audio. On an unknown id it does nothing. |
| SessionBridge.SessionManager.SubscribeToVideo | android/src/main/java/com/opentokreactnative/OTSessionManager.java:380-387 | Toggles a known subscriber's video. On an unknown id it does nothing. |
| SessionBridge.SessionManager.ChangeCameraPosition | android/src/main/java/com/opentokreactnative/OTSessionManager.java:396-403 | Cycles a known publisher's camera, ignoring the requested position. On an unknown id it does nothing. |
| SessionBridge.SessionManager.SendSignal | android/src/main/java/com/opentokreactnative/OTSessionManager.java:461-489 | Sends to the connection iff the session exists and `to` resolves in connections. Broadcasts if only the session exists. Otherwise it answers with the error. In every case the callback fires exactly once. |
| SessionBridge.SessionManager.DestroyPublisher | android/src/main/java/com/opentokreactnative/OTSessionManager.java:498-536 | Removes the publisher and its view container. Unpublishes only from a registered session and stops capture only if the publisher existed. Stores the destroy callback last and invokes nothing. |
| SessionBridge.SessionManager.GetSessionInfo | android/src/main/java/com/opentokreactnative/OTSessionManager.java:545-555 | Answers `null` for an unknown session. Otherwise it answers the session with its id and current status, which is always a status code. |
| SessionBridge.SessionManager.OnSessionError | android/src/main/java/com/opentokreactnative/OTSessionManager.java:618-626 | Sets status 6 iff the error is a connection failure, and emits the error either way. |
| SessionBridge.SessionManager.OnDisconnected | android/src/main/java/com/opentokreactnative/OTSessionManager.java:629-644 | Sets status 0, emits, and invokes the stored disconnect callback at most once. Removes the session and its disconnect callback. The connect-callback table is left untouched. |
| SessionBridge.SessionManager.OnStreamReceived | android/src/main/java/com/opentokreactnative/OTSessionManager.java:647-655 | Registers the stream under its id, then emits. |
| SessionBridge.SessionManager.OnConnected | android/src/main/java/com/opentokreactnative/OTSessionManager.java:658-669 | Sets status 1 and invokes the stored connect callback (if any), which stays stored, then emits. |
| SessionBridge.SessionManager.OnReconnected | android/src/main/java/com/opentokreactnative/OTSessionManager.java:672-676 | Emits only; the status is unchanged, so it stays 3 after a reconnect. |
| SessionBridge.SessionManager.OnReconnecting | android/src/main/java/com/opentokreactnative/OTSessionManager.java:679-684 | Sets status 3 and emits. |
| SessionBridge.SessionManager.OnArchiveStarted | android/src/main/java/com/opentokreactnative/OTSessionManager.java:687-695 | Emits the archive id, its name and the session id; no state changes. |
| SessionBridge.SessionManager.OnArchiveStopped | android/src/main/java/com/opentokreactnative/OTSessionManager.java:698-706 | Emits the archive id with an empty name; no state changes. |
| SessionBridge.SessionManager.OnConnectionCreated | android/src/main/java/com/opentokreactnative/OTSessionManager.java:708-716 | Registers the connection under its id, then emits. |
| SessionBridge.SessionManager.OnConnectionDestroyed | android/src/main/java/com/opentokreactnative/OTSessionManager.java:719-727 | Removes the connection, then emits. |
| SessionBridge.SessionManager.OnStreamDropped | android/src/main/java/com/opentokreactnative/OTSessionManager.java:729-734 | Emits only; the stream record is kept. |
| SessionBridge.SessionManager.OnSignalReceived | android/src/main/java/com/opentokreactnative/OTSessionManager.java:862-873 | Emits the signal, with the sender's connection id only when there is a sender. |
| SessionBridge.SessionManager.OnStreamHasAudioChanged | android/src/main/java/com/opentokreactnative/OTSessionManager.java:1005-1010 | Emits `hasAudio` with the negated flag as old value and the flag as new value. |
| SessionBridge.SessionManager.OnStreamHasVideoChanged | android/src/main/java/com/opentokreactnative/OTSessionManager.java:1012-1017 | Emits `hasVideo` with the negated flag as old value and the flag as new value. |
| SessionBridge.SessionManager.OnStreamVideoDimensionsChanged | android/src/main/java/com/opentokreactnative/OTSessionManager.java:1020-1035 | The old dimensions come from the registered stream, or an empty map if none is registered. The registry is not updated. |
| SessionBridge.SessionManager.OnStreamVideoTypeChanged | android/src/main/java/com/opentokreactnative/OTSessionManager.java:1038-1045 | Emits the notified stream's type as old value and the new type. |
| SessionBridge.SessionManager.OnPublisherStreamCreated | android/src/main/java/com/opentokreactnative/OTSessionManager.java:737-749 | Always registers the stream. Emits only for a non-empty publisher id. |
| SessionBridge.SessionManager.OnPublisherStreamDestroyed | android/src/main/java/com/opentokreactnative/OTSessionManager.java:752-769 | Removes the stream and emits for a non-empty publisher id. Invokes the stored destroy callback without removing it, then removes the publisher. |
| SessionBridge.SessionManager.OnPublisherError | android/src/main/java/com/opentokreactnative/OTSessionManager.java:772-782 | Emits only for a non-empty publisher id; no state changes. |
| SessionBridge.SessionManager.OnPublisherAudioLevelUpdated | android/src/main/java/com/opentokreactnative/OTSessionManager.java:785-792 | Emits the level only for a non-empty publisher id; no state changes. |
| SessionBridge.SessionManager.OnSubscriberEvent | android/src/main/java/com/opentokreactnative/OTSessionManager.java:795-1002 | For every subscriber listener: emits `subscriber:<name>` only for a non-empty stream id. The payload has the registered stream, left out when none is registered, and the event's own field. No state changes. |
| PublisherBridge.PublisherManager.constructor | android/src/main/java/com/opentokreactnative/OTPublisherManager.java:51-54 | The publisher module holds no subscription lists of its own; it is wired to the shared state. |
| PublisherBridge.PublisherManager.ContainsJsOrComponentEvents | android/src/main/java/com/opentokreactnative/OTPublisherManager.java:160-167 | True iff the name is in the shared `jsEvents` or `componentEvents` list. |
| PublisherBridge.PublisherManager.SendEvent | android/src/main/java/com/opentokreactnative/OTPublisherManager.java:144-158 | The publisher module emits iff the name is in a shared list. |
| PublisherBridge.PublisherManager.Init | android/src/main/java/com/opentokreactnative/OTPublisherManager.java:176-212 | Stores the new publisher under the publisher id, overwriting any earlier entry. Invokes the callback once with no arguments, after the configuration calls. |
| PublisherBridge.PublisherManager.PublishAudio | android/src/main/java/com/opentokreactnative/OTPublisherManager.java:116-123 | A no-op on an unknown id; never changes the publisher table. |
| PublisherBridge.PublisherManager.PublishVideo | android/src/main/java/com/opentokreactnative/OTPublisherManager.java:126-133 | A no-op on an unknown id; never changes the publisher table. |
| PublisherBridge.PublisherManager.ChangeCameraPosition | android/src/main/java/com/opentokreactnative/OTPublisherManager.java:136-142 | A no-op on an unknown id, and the requested position is ignored. |
| PublisherBridge.PublisherManager.OnError | android/src/main/java/com/opentokreactnative/OTPublisherManager.java:62-72 | Emits `<publisherId>:publisher:onError` only for a non-empty publisher id; otherwise nothing changes. |
| PublisherBridge.PublisherManager.OnStreamCreated | android/src/main/java/com/opentokreactnative/OTPublisherManager.java:75-85 | Always inserts the stream under its id. Emits only for a non-empty publisher id. |
| PublisherBridge.PublisherManager.OnStreamDestroyed | android/src/main/java/com/opentokreactnative/OTPublisherManager.java:88-104 | Removes the stream and emits for a non-empty id. Invokes the stored destroy callback, leaving it stored, then removes the publisher. |
| PublisherBridge.PublisherManager.OnAudioLevelUpdated | android/src/main/java/com/opentokreactnative/OTPublisherManager.java:107-113 | Emits the level only for a non-empty publisher id; otherwise nothing changes. |
| Scenarios.ConnectedBridge | android/src/main/java/com/opentokreactnative/OTSessionManager.java:82-133 | `initSession`, `connect`, `onConnected` on a fresh bridge leave one session registered, status 1 and the connect callback stored. The log is the listener registration, the connect call, then one invocation. |
| Scenarios.ConnectFlow | android/src/main/java/com/opentokreactnative/OTSessionManager.java:658-669 | After connecting, the status reads 1 and the connect callback has fired exactly once. |
| Scenarios.ConnectUnknownSession | android/src/main/java/com/opentokreactnative/OTSessionManager.java:117-133 | `connect` on an unknown session makes no SDK call, fires the callback exactly once with the error, and still leaves it stored. |
| Scenarios.DisconnectFlow | android/src/main/java/com/opentokreactnative/OTSessionManager.java:629-644 | Connect, then disconnect: the disconnect callback fires exactly once, the status is 0, and the session is gone. The connect callback is still stored. |
| Scenarios.ReconnectFlow | android/src/main/java/com/opentokreactnative/OTSessionManager.java:672-684 | Reconnecting then reconnected leaves the status at 3. |
| Scenarios.InitialisedPublisher | android/src/main/java/com/opentokreactnative/OTPublisherManager.java:176-212 | `init` on a fresh bridge: the publisher is the only entry, and no destroy callback is stored. Every invocation in the log is of `init`'s own callback. |
| Scenarios.ReportTwice | android/src/main/java/com/opentokreactnative/OTPublisherManager.java:88-104 | With the destroy callback stored and nothing subscribed, two stream-destroyed reports append exactly two invocations of that callback. |
| Scenarios.DestroyCallbackRepeats | android/src/main/java/com/opentokreactnative/OTPublisherManager.java:88-104 | `destroyPublisher`, then two stream-destroyed reports that still resolve to the destroyed publisher's id: the destroy callback fires twice. |
| Scenarios.DestroyThenUnidentifiedReport | android/src/main/java/com/opentokreactnative/OTPublisherManager.java:88-104 | `destroyPublisher`, then a stream-destroyed report that resolves to any other id, `""` included: the destroy callback never fires and stays pending. |
| Scenarios.DestroyAfterStreamDestroyed | android/src/main/java/com/opentokreactnative/OTSessionManager.java:498-536 | If the stream is reported destroyed before `destroyPublisher`, `destroyPublisher` does not fire the callback it stores; it stays pending, and the next stream-destroyed report that resolves to the same id fires it once. |
| Scenarios.SubscribeThenUnsubscribe | android/src/main/java/com/opentokreactnative/OTSessionManager.java:411-427 | `setNativeEvents(names)` then `removeNativeEvents(names)` on a fresh module leaves no subscription. |
| Scenarios.SubscriptionIsPerModule | android/src/main/java/com/opentokreactnative/OTPublisherManager.java:152-167 | A name subscribed through the session module is emitted by its listeners. The publisher module's listener drops the same event, because it filters on the shared lists. |
| Scenarios.CountPair | android/src/main/java/com/opentokreactnative/OTSessionManager.java:629-644 | The invocation count of a two-entry log is the sum of its entries' counts. |
| Scenarios.NoOtherInvocation | android/src/main/java/com/opentokreactnative/OTPublisherManager.java:176-212 | A log whose only invocations are of one callback never invokes a different one. |
| Scenarios.PublisherErrorsStayApart | android/src/main/java/com/opentokreactnative/OTSessionManager.java:772-782 | With one publisher's `onError` subscribed, that publisher's error is emitted once and another publisher's error is dropped. |
| Scenarios.SessionErrorsStayApart | android/src/main/java/com/opentokreactnative/OTSessionManager.java:618-626 | With one session's `onError` subscribed, another session's error is dropped and the subscribed session's status is not touched. |

## Where the code and its documented intent differ

The model follows the code as written:

- `destroyPublisher` stores the destroy callback only after teardown, and
  `onStreamDestroyed` invokes it without removing it. The callback is
  therefore not fired exactly once. If the report came first, `destroyPublisher`
  does not fire it; it stays stored and fires on the next stream-destroyed
  report that resolves to that id, even one for a publisher later `init`-ed
  under the same id (`Scenarios.DestroyAfterStreamDestroyed`). After `destroyPublisher` the
  outcome depends on `Utils.getPublisherId`, which is not part of this model:
  if it still answers the destroyed publisher's id, the callback fires on
  every stream-destroyed report that follows
  (`Scenarios.DestroyCallbackRepeats`); if it answers `""` or any other id,
  it never fires (`Scenarios.DestroyThenUnidentifiedReport`).
- `onDisconnected` fetches the disconnect-callback table where the
  connect-callback table was meant (OTSessionManager.java:632). Connect
  callbacks are therefore never cleared (`Scenarios.DisconnectFlow`).
- `onConnected` invokes the connect callback but keeps it stored.
- `onReconnected` does not touch the status, which stays 3
  (`Scenarios.ReconnectFlow`).
- `onStreamDropped` emits but keeps the stream record.
- `onStreamVideoDimensionsChanged` reads the old dimensions from the
  registered stream record. The bridge never writes that record itself; in
  the Java code the record is the SDK's live `Stream` object. Because the
  model keeps handles as snapshots (see "Left out"), it reports the
  registration-time dimensions as the old value on every later change.
- The session module filters events on its own private lists. The publisher
  module filters on the shared lists, which nothing in these two files writes
  to, so its events reach the host only if something outside these modules
  fills those lists (`Scenarios.SubscriptionIsPerModule`).

## Left out

- SDK behaviour (`Session.connect`/`publish`/`subscribe`/`unpublish`/`disconnect`/`sendSignal`, `cycleCamera`, `stopCapture`): recorded only as effect-log entries. The publisher, subscriber and session builders produce plain values (`NewPublisher`, `Subscriber(…)`, `Session(…)`) and are not logged. The one SDK effect modelled is that publishing attaches the publisher to its session, because `destroyPublisher` and the publisher listeners read it back.
- `UiThreadUtil.runOnUiThread` and the thread safety of `ConcurrentHashMap`: each request and listener is one atomic sequential step.
- `EventUtils` payload builders: free constructors of `Payload` / `CallbackArgs`, so payload contents are not modelled beyond their inputs.
- `Utils.getPublisherId`, `Utils.getStreamIdBySubscriber`, `Utils.didConnectionFail`: not part of this model; their results are parameters of the listener methods. Nothing ties the publisher id to the kit or to the publisher table, so whether `getPublisherId` still answers a publisher's id after `destroyPublisher` removed it is left open; the destroy-callback scenarios show both outcomes.
- `String.valueOf(float)` for audio levels: floating point. The level is passed as its text.
- `FrameLayout.removeAllViews` and `getCurrentActivity()`: UI only. The view-container table removals are kept.
- `enableLogs`, `setLogLevel`, `printLogs` and the `logLevel` field: logging side effects only.
- The `ReadableMap` property parsing and the publisher/session builders: the model takes the properties the bridge reads as already-parsed values.
- `getName`: returns the class name, with no bookkeeping.
- The JavaScript components and their tests: UI, outside the Android bridge.
- `null` ids and `null` signal fields beyond the optional `to` and sender: every id is a string.
- `OTPublisherManager`'s own `connectionStatusMap`: declared but never used by its methods.
- Listener dispatch: the model logs which module registers as a handle's listener, but the listener methods do not require that their handle was registered with their own module. Which module receives a handle's callbacks is therefore not enforced; the scenarios call the listener of the module that built the handle.
- SDK handles (`Session`, `Stream`, `Publisher`, `Subscriber`, `Connection`) are value snapshots taken when the bridge stores or receives them. SDK-side mutation of the live objects is not modelled: changed stream dimensions or video type, and any attached session other than the one `publish` sets. Readers of a stored record see the values it had when it was stored.
- SessionBridge.SessionManager.SubscribeToStream: the session the SDK attaches to the new subscriber is not recorded (the stored subscriber's session stays `None`), because nothing in the core reads it back from the stored subscriber.
- SessionBridge.SessionManager.OnDisconnected: the second removal from the disconnect-callback table is modelled as one removal, since a second `remove` of the same key changes nothing.
- SessionBridge.SessionManager.OnDisconnected: "invoked at most once" is stated through the exact log suffix (zero or one invocation entry), not as a separate count.
