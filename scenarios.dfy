/**
 * Whole request/listener sequences run against a fresh bridge (empty shared
 * state, empty effect log, both modules sharing them), each stating what
 * the host observes at the end. These are the cross-call promises of the
 * bridge: which callbacks fire and how often, and what status is left.
 */
module Scenarios {
  import opened Entities
  import opened EventLists
  import opened SharedRegistry
  import opened SessionBridge
  import opened PublisherBridge

  /**
   * `initSession`, `connect`, then the SDK's `onConnected`, on a fresh
   * bridge: the session is registered and reads as connected, the connect
   * callback is stored and has fired once, after the listener registration
   * and the SDK connect call.
   */
  method ConnectedBridge(apiKey: string, sessionId: string, options: SessionOptions, token: string, onConnect: Callback)
    returns (shared: SharedState, world: Effects, sessions: SessionManager)
    ensures fresh(shared) && fresh(world) && fresh(sessions)
    ensures sessions.shared == shared && sessions.world == world && sessions.Valid()
    ensures sessions.jsEvents == [] && sessions.componentEvents == []
    ensures shared.sessions == map[sessionId := Session(apiKey, sessionId)]
    ensures shared.sessionConnectCallbacks == map[sessionId := onConnect]
    ensures sessions.ConnectionStatus(sessionId) == Connected
    ensures world.log == [Call(SetSessionListeners(Session(apiKey, sessionId))),
                          Call(SessionConnect(Session(apiKey, sessionId), token)), Invoked(onConnect, NoArgs)]
  {
    shared := new SharedState();
    world := new Effects();
    sessions := new SessionManager(shared, world);
    var session := Session(apiKey, sessionId);
    sessions.InitSession(apiKey, sessionId, options);
    sessions.Connect(sessionId, token, onConnect);
    assert world.log == [Call(SetSessionListeners(session)), Call(SessionConnect(session, token))];
    sessions.OnConnected(session);
  }

  /** After connecting, the host's connect callback has fired exactly once. */
  method ConnectFlow(apiKey: string, sessionId: string, options: SessionOptions, token: string, callback: Callback)
    returns (status: int, invocations: nat)
    ensures status == Connected
    ensures invocations == 1
  {
    var shared, world, sessions := ConnectedBridge(apiKey, sessionId, options, token, callback);
    var registration := [world.log[0]];
    var connecting := world.log[1..];
    assert world.log == registration + connecting;
    InvocationCountSingle(world.log[0], callback);
    CountPair(connecting, callback);
    InvocationCountAppend(registration, connecting, callback);
    status := sessions.ConnectionStatus(sessionId);
    invocations := InvocationCount(world.log, callback);
  }

  /**
   * `connect` on a session that was never initialised: no SDK call, the
   * callback fires once with the error, and it stays stored, so a later
   * `onConnected` for that id would invoke it a second time.
   */
  method ConnectUnknownSession(sessionId: string, token: string, callback: Callback)
    returns (log: seq<Effect>, stored: bool)
    ensures log == [Invoked(callback, ErrorArg(ConnectError))]
    ensures InvocationCount(log, callback) == 1
    ensures stored
  {
    var shared := new SharedState();
    var world := new Effects();
    var sessions := new SessionManager(shared, world);
    sessions.Connect(sessionId, token, callback);
    log := world.log;
    InvocationCountSingle(log[0], callback);
    stored := sessionId in shared.sessionConnectCallbacks && shared.sessionConnectCallbacks[sessionId] == callback;
  }

  /**
   * Connect and disconnect: `onDisconnected` fires the disconnect callback
   * once, resets the status to 0 and forgets the session and the
   * disconnect callback, while the connect callback stays stored.
   */
  method DisconnectFlow(apiKey: string, sessionId: string, options: SessionOptions, token: string,
                        onConnect: Callback, onDisconnect: Callback)
    returns (status: int, disconnectCalls: nat, connectCallbackLeft: bool, sessionLeft: bool)
    requires onConnect != onDisconnect
    ensures status == Disconnected
    ensures disconnectCalls == 1
    ensures connectCallbackLeft
    ensures !sessionLeft
  {
    var shared, world, sessions := ConnectedBridge(apiKey, sessionId, options, token, onConnect);
    var session := Session(apiKey, sessionId);
    var connected := world.log;
    sessions.DisconnectSession(sessionId, onDisconnect);
    sessions.OnDisconnected(session);
    var closing := [Call(SessionDisconnect(session)), Invoked(onDisconnect, NoArgs)];
    assert world.log == connected + closing;
    NoOtherInvocation(connected, onConnect, onDisconnect);
    CountPair(closing, onDisconnect);
    InvocationCountAppend(connected, closing, onDisconnect);
    status := sessions.ConnectionStatus(sessionId);
    disconnectCalls := InvocationCount(world.log, onDisconnect);
    connectCallbackLeft := sessionId in shared.sessionConnectCallbacks;
    sessionLeft := sessionId in shared.sessions;
  }

  /** Connected, then reconnecting, then reconnected: the status stays at 3. */
  method ReconnectFlow(apiKey: string, sessionId: string, options: SessionOptions, token: string, callback: Callback)
    returns (status: int)
    ensures status == Reconnecting
  {
    var shared, world, sessions := ConnectedBridge(apiKey, sessionId, options, token, callback);
    var session := Session(apiKey, sessionId);
    sessions.OnReconnecting(session);
    sessions.OnReconnected(session);
    status := sessions.ConnectionStatus(sessionId);
  }

  /**
   * `init` through the publisher module on a fresh bridge: the publisher is
   * the only entry of the table, no destroy callback is stored, and no
   * callback but the one given to `init` has been invoked.
   */
  method InitialisedPublisher(publisherId: string, props: PublisherProperties, onInit: Callback)
    returns (shared: SharedState, world: Effects, sessions: SessionManager, publishers: PublisherManager)
    ensures fresh(shared) && fresh(world) && fresh(sessions) && fresh(publishers)
    ensures sessions.shared == shared && sessions.world == world && sessions.Valid()
    ensures publishers.shared == shared && publishers.world == world && publishers.Valid()
    ensures shared.jsEvents == [] && shared.componentEvents == []
    ensures shared.sessions == map[]
    ensures shared.publishers == map[publisherId := NewPublisher(publisherId, props)]
    ensures shared.publisherDestroyedCallbacks == map[]
    ensures forall i :: 0 <= i < |world.log| && world.log[i].Invoked? ==> world.log[i].callback == onInit
  {
    shared := new SharedState();
    world := new Effects();
    sessions := new SessionManager(shared, world);
    publishers := new PublisherManager(shared, world);
    publishers.Init(publisherId, props, onInit);
  }

  /**
   * `init`, `destroyPublisher`, then the SDK reporting the stream destroyed
   * twice: the destroy callback stays stored and fires on both reports.
   * This assumes `Utils.getPublisherId` still answers `publisherId` for the
   * kit after `destroyPublisher` has removed it from the publisher table;
   * `DestroyThenUnidentifiedReport` is the outcome when it answers another id.
   */
  method DestroyCallbackRepeats(publisherId: string, props: PublisherProperties, kit: Publisher, stream: Stream,
                                onInit: Callback, onDestroyed: Callback)
    returns (invocations: nat)
    requires onInit != onDestroyed
    ensures invocations == 2
  {
    var shared, world, sessions, publishers := InitialisedPublisher(publisherId, props, onInit);
    var p := NewPublisher(publisherId, props);
    var setup := world.log;
    NoOtherInvocation(setup, onInit, onDestroyed);
    sessions.DestroyPublisher(publisherId, onDestroyed);
    var teardown := [Call(StopCapture(p))];
    assert world.log == setup + teardown;
    var report := Invoked(onDestroyed, NoArgs);
    var afterDestroy := world.log;
    ReportTwice(shared, world, publishers, kit, stream, publisherId, onDestroyed);
    assert world.log == afterDestroy + [report, report];
    NoInvocations(teardown, onDestroyed);
    CountPair([report, report], onDestroyed);
    InvocationCountAppend(setup, teardown, onDestroyed);
    InvocationCountAppend(afterDestroy, [report, report], onDestroyed);
    invocations := InvocationCount(world.log, onDestroyed);
  }

  /** Two stream-destroyed reports while the destroy callback is stored and nobody subscribed: two invocations. */
  method ReportTwice(shared: SharedState, world: Effects, publishers: PublisherManager, kit: Publisher, stream: Stream,
                     publisherId: string, onDestroyed: Callback)
    requires publishers.shared == shared && publishers.world == world && publishers.Valid()
    requires shared.jsEvents == [] && shared.componentEvents == []
    requires publisherId in shared.publisherDestroyedCallbacks && shared.publisherDestroyedCallbacks[publisherId] == onDestroyed
    modifies shared`subscriberStreams, shared`publishers, world
    ensures world.log == old(world.log) + [Invoked(onDestroyed, NoArgs), Invoked(onDestroyed, NoArgs)]
  {
    var event := PublisherEventName(publisherId, "onStreamDestroyed");
    assert Delivery(shared.jsEvents, shared.componentEvents, event, StreamMap(StreamInfo(stream, kit.sessionId))) == [];
    publishers.OnStreamDestroyed(kit, stream, publisherId);
    publishers.OnStreamDestroyed(kit, stream, publisherId);
  }

  /**
   * `init`, `destroyPublisher`, then a stream-destroyed report whose kit
   * `Utils.getPublisherId` resolves to another id (`""` among them, once the
   * publisher has left the table): the destroy callback never fires and
   * stays pending.
   */
  method DestroyThenUnidentifiedReport(publisherId: string, props: PublisherProperties, kit: Publisher, stream: Stream,
                                       reportedId: string, onInit: Callback, onDestroyed: Callback)
    returns (invocations: nat, pending: bool)
    requires onInit != onDestroyed
    requires reportedId != publisherId
    ensures invocations == 0
    ensures pending
  {
    var shared, world, sessions, publishers := InitialisedPublisher(publisherId, props, onInit);
    var p := NewPublisher(publisherId, props);
    var setup := world.log;
    NoOtherInvocation(setup, onInit, onDestroyed);
    sessions.DestroyPublisher(publisherId, onDestroyed);
    var teardown := [Call(StopCapture(p))];
    assert world.log == setup + teardown;
    assert Delivery(shared.jsEvents, shared.componentEvents, PublisherEventName(reportedId, "onStreamDestroyed"),
                    StreamMap(StreamInfo(stream, kit.sessionId))) == [];
    publishers.OnStreamDestroyed(kit, stream, reportedId);
    assert world.log == setup + teardown;
    NoInvocations(teardown, onDestroyed);
    InvocationCountAppend(setup, teardown, onDestroyed);
    invocations := InvocationCount(world.log, onDestroyed);
    pending := publisherId in shared.publisherDestroyedCallbacks;
  }

  /**
   * The stream is reported destroyed before `destroyPublisher` runs:
   * `destroyPublisher` does not fire the callback it stores, which stays
   * pending, and the next stream-destroyed report that resolves to the same
   * id fires it once.
   */
  method DestroyAfterStreamDestroyed(publisherId: string, props: PublisherProperties, kit: Publisher, stream: Stream,
                                     onInit: Callback, onDestroyed: Callback)
    returns (invocations: nat, pending: bool, laterInvocations: nat)
    requires onInit != onDestroyed
    ensures invocations == 0
    ensures pending
    ensures laterInvocations == 1
  {
    var shared, world, sessions, publishers := InitialisedPublisher(publisherId, props, onInit);
    var setup := world.log;
    assert Delivery(shared.jsEvents, shared.componentEvents, PublisherEventName(publisherId, "onStreamDestroyed"),
                    StreamMap(StreamInfo(stream, kit.sessionId))) == [];
    publishers.OnStreamDestroyed(kit, stream, publisherId);
    assert world.log == setup;
    // The publisher is gone by the time it is destroyed: no teardown calls.
    sessions.DestroyPublisher(publisherId, onDestroyed);
    assert world.log == setup;
    NoOtherInvocation(setup, onInit, onDestroyed);
    invocations := InvocationCount(world.log, onDestroyed);
    pending := publisherId in shared.publisherDestroyedCallbacks;
    publishers.OnStreamDestroyed(kit, stream, publisherId);
    var report := Invoked(onDestroyed, NoArgs);
    assert world.log == setup + [report];
    InvocationCountSingle(report, onDestroyed);
    InvocationCountAppend(setup, [report], onDestroyed);
    laterInvocations := InvocationCount(world.log, onDestroyed);
  }

  /**
   * Subscribing to a list of event names and then unsubscribing the same
   * list leaves no subscription behind.
   */
  method SubscribeThenUnsubscribe(names: seq<string>) returns (left: seq<string>)
    ensures left == []
  {
    var shared := new SharedState();
    var world := new Effects();
    var sessions := new SessionManager(shared, world);
    sessions.SetNativeEvents(names);
    sessions.RemoveNativeEvents(names);
    AddThenRemoveRestoresList([], names, []);
    assert [] + names + [] == names;
    left := sessions.jsEvents;
  }

  /**
   * Subscribing through the session module reaches the session module's
   * listeners only: the same publisher error is emitted by the session
   * module's listener and dropped by the publisher module's, which filters
   * on the shared lists.
   */
  method SubscriptionIsPerModule(kit: Publisher, error: OpentokError, publisherId: string)
    returns (fromSessionModule: seq<Effect>, fromPublisherModule: seq<Effect>)
    requires |publisherId| > 0
    ensures fromSessionModule == [Emitted(PublisherEventName(publisherId, "onError"), ErrorMap(error))]
    ensures fromPublisherModule == []
  {
    var shared := new SharedState();
    var world := new Effects();
    var sessions := new SessionManager(shared, world);
    var publishers := new PublisherManager(shared, world);
    sessions.SetNativeEvents([PublisherEventName(publisherId, "onError")]);
    sessions.OnPublisherError(kit, error, publisherId);
    fromSessionModule := world.log;
    publishers.OnError(kit, error, publisherId);
    fromPublisherModule := world.log[|fromSessionModule|..];
  }

  /** The count of a two-entry log is the sum of its entries' counts. */
  lemma CountPair(log: seq<Effect>, cb: Callback)
    requires |log| == 2
    ensures InvocationCount(log, cb) ==
              (if log[0].Invoked? && log[0].callback == cb then 1 else 0) +
              (if log[1].Invoked? && log[1].callback == cb then 1 else 0)
  {
    InvocationCountSingle(log[0], cb);
    InvocationCountSingle(log[1], cb);
    InvocationCountAppend([log[0]], [log[1]], cb);
    assert log == [log[0]] + [log[1]];
  }

  /** A log whose only invocations are of `own` never invokes another callback. */
  lemma NoOtherInvocation(log: seq<Effect>, own: Callback, other: Callback)
    requires own != other
    requires forall i :: 0 <= i < |log| && log[i].Invoked? ==> log[i].callback == own
    ensures InvocationCount(log, other) == 0
  {
  }

  /**
   * The session module subscribed to one publisher's `onError` delivers
   * that publisher's error and drops another publisher's: the scoped event
   * names keep publishers apart.
   */
  method PublisherErrorsStayApart(subscribed: string, other: string, kit: Publisher, error: OpentokError)
    returns (own: seq<Effect>, foreign: seq<Effect>)
    requires subscribed != "" && other != "" && subscribed != other
    ensures own == [Emitted(PublisherEventName(subscribed, "onError"), ErrorMap(error))]
    ensures foreign == []
  {
    var shared := new SharedState();
    var world := new Effects();
    var sessions := new SessionManager(shared, world);
    sessions.SetNativeEvents([PublisherEventName(subscribed, "onError")]);
    var before := world.log;
    sessions.OnPublisherError(kit, error, other);
    if PublisherEventName(other, "onError") == PublisherEventName(subscribed, "onError") {
      PublisherEventNameDeterminesId(other, subscribed, "onError");
    }
    foreign := world.log[|before|..];
    before := world.log;
    sessions.OnPublisherError(kit, error, subscribed);
    own := world.log[|before|..];
  }

  /**
   * A module subscribed to one session's `onError` drops another session's
   * error: no status other than the failing session's changes, and nothing
   * is emitted.
   */
  method SessionErrorsStayApart(subscribed: string, other: Session, error: OpentokError, connectionFailed: bool)
    returns (foreign: seq<Effect>, status: int)
    requires other.sessionId != subscribed
    ensures foreign == []
    ensures status == Disconnected
  {
    var shared := new SharedState();
    var world := new Effects();
    var sessions := new SessionManager(shared, world);
    sessions.SetNativeEvents([SessionEventName(subscribed, "onError")]);
    var before := world.log;
    sessions.OnSessionError(other, error, connectionFailed);
    if SessionEventName(other.sessionId, "onError") == SessionEventName(subscribed, "onError") {
      SessionEventNameDeterminesId(other.sessionId, subscribed, "onError");
    }
    foreign := world.log[|before|..];
    status := sessions.ConnectionStatus(subscribed);
  }
}
