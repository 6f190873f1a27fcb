/**
 * `OTSessionManager`: the host-facing session module. Its requests register
 * and remove SDK objects in the shared tables and call into the SDK; its
 * listener overrides record what the SDK reports, update the per-session
 * connection status and emit events through its own subscription filter.
 *
 * Each method is one atomic step: the hop to the UI thread that some
 * requests make is not modelled.
 */
module SessionBridge {
  import opened Wrappers
  import opened Entities
  import opened EventLists
  import opened SharedRegistry

  /** The subscriber listener callbacks, all handled alike apart from their name and extra field. */
  datatype SubscriberEvent =
    | SubscriberConnected
    | SubscriberDisconnected
    | SubscriberReconnected
    | SubscriberError(error: OpentokError)
    | AudioStats(audioStats: NetworkStats)
    | VideoStats(videoStats: NetworkStats)
    | SubscriberAudioLevel(audioLevel: string)
    | VideoDisabled(reason: string)
    | VideoEnabled(reason: string)
    | VideoDisableWarning
    | VideoDisableWarningLifted
    | VideoDataReceived
  {
    /** The event name after the `subscriber:` preface: the listener's own name. */
    function Name(): (r: string)
      ensures |r| > 2 && r[..2] == "on"
      ensures SubscriberConnected? ==> r == "onConnected"
      ensures SubscriberDisconnected? ==> r == "onDisconnected"
      ensures SubscriberReconnected? ==> r == "onReconnected"
      ensures SubscriberError? ==> r == "onError"
      ensures AudioStats? ==> r == "onAudioStats"
      ensures VideoStats? ==> r == "onVideoStats"
      ensures SubscriberAudioLevel? ==> r == "onAudioLevelUpdated"
      ensures VideoDisabled? ==> r == "onVideoDisabled"
      ensures VideoEnabled? ==> r == "onVideoEnabled"
      ensures VideoDisableWarning? ==> r == "onVideoDisableWarning"
      ensures VideoDisableWarningLifted? ==> r == "onVideoDisableWarningLifted"
      ensures VideoDataReceived? ==> r == "onVideoDataReceived"
    {
      match this
      case SubscriberConnected => "onConnected"
      case SubscriberDisconnected => "onDisconnected"
      case SubscriberReconnected => "onReconnected"
      case SubscriberError(_) => "onError"
      case AudioStats(_) => "onAudioStats"
      case VideoStats(_) => "onVideoStats"
      case SubscriberAudioLevel(_) => "onAudioLevelUpdated"
      case VideoDisabled(_) => "onVideoDisabled"
      case VideoEnabled(_) => "onVideoEnabled"
      case VideoDisableWarning => "onVideoDisableWarning"
      case VideoDisableWarningLifted => "onVideoDisableWarningLifted"
      case VideoDataReceived => "onVideoDataReceived"
    }

    /**
     * The field the event adds to the payload besides the stream: none for
     * the six listeners that report only the stream.
     */
    function Detail(): (r: SubscriberDetail)
      ensures r == NoDetail <==> (SubscriberConnected? || SubscriberDisconnected? || SubscriberReconnected?
                                  || VideoDisableWarning? || VideoDisableWarningLifted? || VideoDataReceived?)
      ensures SubscriberError? ==> r == ErrorDetail(error)
      ensures VideoDisabled? || VideoEnabled? ==> r == ReasonDetail(reason)
      ensures AudioStats? ==> r == AudioStatsDetail(audioStats)
      ensures VideoStats? ==> r == VideoStatsDetail(videoStats)
      ensures SubscriberAudioLevel? ==> r == AudioLevelDetail(audioLevel)
    {
      match this
      case SubscriberError(e) => ErrorDetail(e)
      case AudioStats(s) => AudioStatsDetail(s)
      case VideoStats(s) => VideoStatsDetail(s)
      case SubscriberAudioLevel(level) => AudioLevelDetail(level)
      case VideoDisabled(reason) => ReasonDetail(reason)
      case VideoEnabled(reason) => ReasonDetail(reason)
      case _ => NoDetail
    }
  }

  /**
   * Different subscriber listeners emit different names: the name tells the
   * host which listener fired.
   */
  lemma SubscriberNameDeterminesListener(a: SubscriberEvent, b: SubscriberEvent)
    requires a.Name() == b.Name()
    ensures a.SubscriberConnected? <==> b.SubscriberConnected?
    ensures a.SubscriberDisconnected? <==> b.SubscriberDisconnected?
    ensures a.SubscriberReconnected? <==> b.SubscriberReconnected?
    ensures a.SubscriberError? <==> b.SubscriberError?
    ensures a.AudioStats? <==> b.AudioStats?
    ensures a.VideoStats? <==> b.VideoStats?
    ensures a.SubscriberAudioLevel? <==> b.SubscriberAudioLevel?
    ensures a.VideoDisabled? <==> b.VideoDisabled?
    ensures a.VideoEnabled? <==> b.VideoEnabled?
    ensures a.VideoDisableWarning? <==> b.VideoDisableWarning?
    ensures a.VideoDisableWarningLifted? <==> b.VideoDisableWarningLifted?
    ensures a.VideoDataReceived? <==> b.VideoDataReceived?
  {
  }

  /** The value stored under `key`, if any: a Java `Map.get`, with `null` as `None`. */
  function Lookup<V>(table: map<string, V>, key: string): (r: Option<V>)
    ensures r.Some? <==> key in table
    ensures r.Some? ==> r.value == table[key]
  {
    if key in table then Some(table[key]) else None
  }

  /**
   * The SDK calls `destroyPublisher` makes on the publisher it found: an
   * unpublish from the session the publisher is attached to, when that
   * session is still registered, then a capture stop. No publisher, no
   * calls; no callback is ever invoked.
   */
  function TeardownCalls(sessions: map<string, Session>, publisher: Option<Publisher>): (calls: seq<Effect>)
    ensures publisher.None? <==> calls == []
    ensures publisher.Some? ==> calls[|calls| - 1] == Call(StopCapture(publisher.value))
    ensures publisher.Some? ==>
              ((exists s :: Call(SessionUnpublish(s, publisher.value)) in calls)
                <==> publisher.value.sessionId.Some? && publisher.value.sessionId.value in sessions)
    ensures forall i :: 0 <= i < |calls| ==> calls[i].Call?
    ensures |calls| <= 2
    ensures publisher.Some? && publisher.value.sessionId.Some? && publisher.value.sessionId.value in sessions ==>
              calls[0] == Call(SessionUnpublish(sessions[publisher.value.sessionId.value], publisher.value))
  {
    match publisher
    case None => []
    case Some(p) =>
      if p.sessionId.Some? && p.sessionId.value in sessions
      then [Call(SessionUnpublish(sessions[p.sessionId.value], p)), Call(StopCapture(p))]
      else [Call(StopCapture(p))]
  }

  class SessionManager {
    const shared: SharedState
    const world: Effects
    var connectionStatusMap: map<string, int>
    var jsEvents: seq<string>
    var componentEvents: seq<string>

    /** Every stored status is one of the four codes the bridge writes. */
    ghost predicate StatusMapValid()
      reads this
    {
      forall s :: s in connectionStatusMap ==> IsStatusCode(connectionStatusMap[s])
    }

    ghost predicate Valid()
      reads this, shared
    {
      StatusMapValid() && shared.Valid()
    }

    constructor (shared: SharedState, world: Effects)
      requires shared.Valid()
      ensures Valid() && this.shared == shared && this.world == world
      ensures connectionStatusMap == map[] && jsEvents == [] && componentEvents == []
    {
      this.shared := shared;
      this.world := world;
      connectionStatusMap := map[];
      jsEvents, componentEvents := [], [];
    }

    // -------------------------------------------------------------------
    // Connection status
    // -------------------------------------------------------------------

    /** `getConnectionStatus`: the stored status, and `Disconnected` for a session never reported on. */
    function ConnectionStatus(sessionId: string): (status: int)
      reads this
      ensures sessionId !in connectionStatusMap ==> status == Disconnected
      ensures sessionId in connectionStatusMap ==> status == connectionStatusMap[sessionId]
      ensures StatusMapValid() ==> IsStatusCode(status)
    {
      if sessionId in connectionStatusMap then connectionStatusMap[sessionId] else Disconnected
    }

    /** `setConnectionStatus`: overwrites the status of one session. */
    method SetConnectionStatus(sessionId: string, status: int)
      modifies this`connectionStatusMap
      ensures connectionStatusMap == old(connectionStatusMap)[sessionId := status]
      ensures ConnectionStatus(sessionId) == status
      ensures old(StatusMapValid()) && IsStatusCode(status) ==> StatusMapValid()
    {
      connectionStatusMap := connectionStatusMap[sessionId := status];
    }

    // -------------------------------------------------------------------
    // Event emission
    // -------------------------------------------------------------------

    /** `sendEventMap` / `sendEventWithString`: emit iff the name is in this module's own lists. */
    method SendEvent(eventName: string, payload: Payload)
      modifies world
      ensures world.log == old(world.log) + Delivery(jsEvents, componentEvents, eventName, payload)
    {
      if ShouldEmit(jsEvents, componentEvents, eventName) {
        world.log := world.log + [Emitted(eventName, payload)];
      }
    }

    /** `setNativeEvents`: appends every name, in order, duplicates included. */
    method SetNativeEvents(events: seq<string>)
      modifies this`jsEvents
      ensures jsEvents == old(jsEvents) + events
    {
      for i := 0 to |events|
        invariant jsEvents == old(jsEvents) + events[..i]
      {
        jsEvents := jsEvents + [events[i]];
      }
      assert events[..|events|] == events;
    }

    /** `removeNativeEvents`: removes one occurrence per name, in order; absent names are skipped. */
    method RemoveNativeEvents(events: seq<string>)
      modifies this`jsEvents
      ensures jsEvents == RemoveEach(old(jsEvents), events)
      ensures multiset(jsEvents) == multiset(old(jsEvents)) - multiset(events)
    {
      ghost var start := jsEvents;
      for i := 0 to |events|
        invariant jsEvents == RemoveEach(start, events[..i])
      {
        RemoveOneMore(start, events, i);
        jsEvents := RemoveFirst(jsEvents, events[i]);
      }
      assert events[..|events|] == events;
    }

    /** `setJSComponentEvents`: appends every name, in order, duplicates included. */
    method SetJSComponentEvents(events: seq<string>)
      modifies this`componentEvents
      ensures componentEvents == old(componentEvents) + events
    {
      for i := 0 to |events|
        invariant componentEvents == old(componentEvents) + events[..i]
      {
        componentEvents := componentEvents + [events[i]];
      }
      assert events[..|events|] == events;
    }

    /** `removeJSComponentEvents`: removes one occurrence per name, in order. */
    method RemoveJSComponentEvents(events: seq<string>)
      modifies this`componentEvents
      ensures componentEvents == RemoveEach(old(componentEvents), events)
      ensures multiset(componentEvents) == multiset(old(componentEvents)) - multiset(events)
    {
      ghost var start := componentEvents;
      for i := 0 to |events|
        invariant componentEvents == RemoveEach(start, events[..i])
      {
        RemoveOneMore(start, events, i);
        componentEvents := RemoveFirst(componentEvents, events[i]);
      }
      assert events[..|events|] == events;
    }

    // -------------------------------------------------------------------
    // Host requests
    // -------------------------------------------------------------------

    /**
     * `initSession`: registers this module as the new session's listener,
     * then stores the session and its two layout options under `sessionId`.
     */
    method InitSession(apiKey: string, sessionId: string, options: SessionOptions)
      requires Valid()
      modifies shared`sessions, shared`androidOnTopMap, shared`androidZOrderMap, world
      ensures Valid()
      ensures world.log == old(world.log) + [Call(SetSessionListeners(Session(apiKey, sessionId)))]
      ensures shared.sessions == old(shared.sessions)[sessionId := Session(apiKey, sessionId)]
      ensures shared.androidOnTopMap == old(shared.androidOnTopMap)[sessionId := options.androidOnTop]
      ensures shared.androidZOrderMap == old(shared.androidZOrderMap)[sessionId := options.androidZOrder]
    {
      world.log := world.log + [Call(SetSessionListeners(Session(apiKey, sessionId)))];
      shared.PutSession(Session(apiKey, sessionId));
      shared.PutAndroidOnTop(sessionId, options.androidOnTop);
      shared.PutAndroidZOrder(sessionId, options.androidZOrder);
    }

    /**
     * `connect`: always stores the callback under `sessionId`; connects a
     * known session (the callback fires later, on `onConnected`) and
     * answers an unknown one at once with an error.
     */
    method Connect(sessionId: string, token: string, callback: Callback)
      requires Valid()
      modifies shared`sessionConnectCallbacks, world
      ensures Valid()
      ensures shared.sessionConnectCallbacks == old(shared.sessionConnectCallbacks)[sessionId := callback]
      ensures sessionId in old(shared.sessions) ==>
                world.log == old(world.log) + [Call(SessionConnect(old(shared.sessions)[sessionId], token))]
      ensures sessionId !in old(shared.sessions) ==>
                world.log == old(world.log) + [Invoked(callback, ErrorArg(ConnectError))]
    {
      shared.PutConnectCallback(sessionId, callback);
      if sessionId in shared.sessions {
        world.log := world.log + [Call(SessionConnect(shared.sessions[sessionId], token))];
      } else {
        world.log := world.log + [Invoked(callback, ErrorArg(ConnectError))];
      }
    }

    /** `initPublisher`: builds a publisher, stores it under `publisherId` (overwriting) and answers with no arguments. */
    method InitPublisher(publisherId: string, props: PublisherProperties, callback: Callback)
      requires Valid()
      modifies shared`publishers, world
      ensures Valid()
      ensures shared.publishers == old(shared.publishers)[publisherId := NewPublisher(publisherId, props)]
      ensures world.log == old(world.log) + InitPublisherCalls(NewPublisher(publisherId, props), props, SessionModule)
                                          + [Invoked(callback, NoArgs)]
    {
      var p := NewPublisher(publisherId, props);
      world.log := world.log + InitPublisherCalls(p, props, SessionModule);
      shared.PutPublisher(p);
      world.log := world.log + [Invoked(callback, NoArgs)];
    }

    /**
     * `publish`: publishes a known publisher into a known session and
     * answers with no arguments; otherwise answers with the error for the
     * first missing object, session first.
     */
    method Publish(sessionId: string, publisherId: string, callback: Callback)
      requires Valid()
      modifies shared`publishers, world
      ensures Valid()
      ensures sessionId in old(shared.sessions) && publisherId in old(shared.publishers) ==>
                var p := old(shared.publishers)[publisherId];
                && shared.publishers == old(shared.publishers)[publisherId := p.(sessionId := Some(sessionId))]
                && world.log == old(world.log) + [Call(SessionPublish(old(shared.sessions)[sessionId], p)),
                                                  Invoked(callback, NoArgs)]
      ensures sessionId in old(shared.sessions) && publisherId !in old(shared.publishers) ==>
                && shared.publishers == old(shared.publishers)
                && world.log == old(world.log) + [Invoked(callback, ErrorArg(PublishNoPublisherError))]
      ensures sessionId !in old(shared.sessions) ==>
                && shared.publishers == old(shared.publishers)
                && world.log == old(world.log) + [Invoked(callback, ErrorArg(PublishNoSessionError))]
    {
      if sessionId in shared.sessions {
        var session := shared.sessions[sessionId];
        if publisherId in shared.publishers {
          var p := shared.publishers[publisherId];
          world.log := world.log + [Call(SessionPublish(session, p))];
          // The SDK attaches the publisher to the session it is published in.
          shared.PutPublisher(p.(sessionId := Some(session.sessionId)));
          world.log := world.log + [Invoked(callback, NoArgs)];
        } else {
          world.log := world.log + [Invoked(callback, ErrorArg(PublishNoPublisherError))];
        }
      } else {
        world.log := world.log + [Invoked(callback, ErrorArg(PublishNoSessionError))];
      }
    }

    /**
     * `subscribeToStream`: builds a subscriber over the registered stream
     * (if any), registers this module as its listener and sets its audio
     * and video, and stores it under `streamId`, replacing any earlier one,
     * whether or not the session exists; then subscribes and answers
     * `(null, streamId)`, or answers with an error. Nothing reads the stored
     * subscriber's session, so the SDK attaching it is not recorded.
     */
    method SubscribeToStream(streamId: string, sessionId: string, props: SubscriberProperties, callback: Callback)
      requires Valid()
      modifies shared`subscribers, world
      ensures Valid()
      ensures var sub := Subscriber(streamId, Lookup(old(shared.subscriberStreams), streamId), None);
              && shared.subscribers == old(shared.subscribers)[streamId := sub]
              && world.log == old(world.log)
                   + [Call(SetSubscriberListeners(sub)),
                      Call(SetSubscribeToAudio(sub, props.subscribeToAudio)), Call(SetSubscribeToVideo(sub, props.subscribeToVideo))]
                   + (if sessionId in old(shared.sessions)
                      then [Call(SessionSubscribe(old(shared.sessions)[sessionId], sub)), Invoked(callback, NullAndStreamId(streamId))]
                      else [Invoked(callback, ErrorArg(SubscribeNoSessionError))])
    {
      var sub := Subscriber(streamId, Lookup(shared.subscriberStreams, streamId), None);
      world.log := world.log + [Call(SetSubscriberListeners(sub)),
                                Call(SetSubscribeToAudio(sub, props.subscribeToAudio)),
                                Call(SetSubscribeToVideo(sub, props.subscribeToVideo))];
      shared.PutSubscriber(sub);
      if sessionId in shared.sessions {
        world.log := world.log + [Call(SessionSubscribe(shared.sessions[sessionId], sub)),
                                  Invoked(callback, NullAndStreamId(streamId))];
      } else {
        world.log := world.log + [Invoked(callback, ErrorArg(SubscribeNoSessionError))];
      }
    }

    /**
     * `removeSubscriber`: drops `streamId` from the subscribers, their view
     * containers and the stream records, then answers with no arguments.
     */
    method RemoveSubscriber(streamId: string, callback: Callback)
      requires Valid()
      modifies shared`subscribers, shared`subscriberViewContainers, shared`subscriberStreams, world
      ensures Valid()
      ensures shared.subscribers == old(shared.subscribers) - {streamId}
      ensures shared.subscriberViewContainers == old(shared.subscriberViewContainers) - {streamId}
      ensures shared.subscriberStreams == old(shared.subscriberStreams) - {streamId}
      ensures world.log == old(world.log) + [Invoked(callback, NoArgs)]
    {
      shared.RemoveSubscriberViewContainer(streamId);
      shared.RemoveSubscriber(streamId);
      shared.RemoveStream(streamId);
      world.log := world.log + [Invoked(callback, NoArgs)];
    }

    /**
     * `disconnectSession`: stores the callback (it fires on
     * `onDisconnected`) and asks a known session to disconnect.
     */
    method DisconnectSession(sessionId: string, callback: Callback)
      requires Valid()
      modifies shared`sessionDisconnectCallbacks, world
      ensures Valid()
      ensures shared.sessionDisconnectCallbacks == old(shared.sessionDisconnectCallbacks)[sessionId := callback]
      ensures world.log == old(world.log) +
                (if sessionId in old(shared.sessions) then [Call(SessionDisconnect(old(shared.sessions)[sessionId]))] else [])
    {
      var known := sessionId in shared.sessions;
      shared.PutDisconnectCallback(sessionId, callback);
      if known {
        world.log := world.log + [Call(SessionDisconnect(shared.sessions[sessionId]))];
      }
    }

    /** `publishAudio`: toggles a known publisher's audio; an unknown id does nothing. */
    method PublishAudio(publisherId: string, publishAudio: bool)
      modifies world
      ensures world.log == old(world.log) +
                (if publisherId in shared.publishers then [Call(SetPublishAudio(shared.publishers[publisherId], publishAudio))] else [])
    {
      if publisherId in shared.publishers {
        world.log := world.log + [Call(SetPublishAudio(shared.publishers[publisherId], publishAudio))];
      }
    }

    /** `publishVideo`: toggles a known publisher's video; an unknown id does nothing. */
    method PublishVideo(publisherId: string, publishVideo: bool)
      modifies world
      ensures world.log == old(world.log) +
                (if publisherId in shared.publishers then [Call(SetPublishVideo(shared.publishers[publisherId], publishVideo))] else [])
    {
      if publisherId in shared.publishers {
        world.log := world.log + [Call(SetPublishVideo(shared.publishers[publisherId], publishVideo))];
      }
    }

    /** `subscribeToAudio`: toggles a known subscriber's audio; an unknown id does nothing. */
    method SubscribeToAudio(streamId: string, subscribeToAudio: bool)
      modifies world
      ensures world.log == old(world.log) +
                (if streamId in shared.subscribers then [Call(SetSubscribeToAudio(shared.subscribers[streamId], subscribeToAudio))] else [])
    {
      if streamId in shared.subscribers {
        world.log := world.log + [Call(SetSubscribeToAudio(shared.subscribers[streamId], subscribeToAudio))];
      }
    }

    /** `subscribeToVideo`: toggles a known subscriber's video; an unknown id does nothing. */
    method SubscribeToVideo(streamId: string, subscribeToVideo: bool)
      modifies world
      ensures world.log == old(world.log) +
                (if streamId in shared.subscribers then [Call(SetSubscribeToVideo(shared.subscribers[streamId], subscribeToVideo))] else [])
    {
      if streamId in shared.subscribers {
        world.log := world.log + [Call(SetSubscribeToVideo(shared.subscribers[streamId], subscribeToVideo))];
      }
    }

    /** `changeCameraPosition`: cycles a known publisher's camera; the requested position is ignored. */
    method ChangeCameraPosition(publisherId: string, cameraPosition: string)
      modifies world
      ensures world.log == old(world.log) +
                (if publisherId in shared.publishers then [Call(CycleCamera(shared.publishers[publisherId]))] else [])
    {
      if publisherId in shared.publishers {
        world.log := world.log + [Call(CycleCamera(shared.publishers[publisherId]))];
      }
    }

    /**
     * `sendSignal`: targets the connection named by `to` when the session
     * exists and `to` resolves, broadcasts when only the session exists, and
     * otherwise answers with an error. The callback fires exactly once.
     */
    method SendSignal(sessionId: string, signal: Signal, callback: Callback)
      modifies world
      ensures InvocationCount(world.log, callback) == InvocationCount(old(world.log), callback) + 1
      ensures sessionId in shared.sessions && signal.to.Some? && signal.to.value in shared.connections ==>
                world.log == old(world.log) + [Call(SendSignalTo(shared.sessions[sessionId], signal.signalType, signal.data,
                                                                 shared.connections[signal.to.value])),
                                               Invoked(callback, NoArgs)]
      ensures sessionId in shared.sessions && !(signal.to.Some? && signal.to.value in shared.connections) ==>
                world.log == old(world.log) + [Call(SendSignalAll(shared.sessions[sessionId], signal.signalType, signal.data)),
                                               Invoked(callback, NoArgs)]
      ensures sessionId !in shared.sessions ==>
                world.log == old(world.log) + [Invoked(callback, ErrorArg(SignalNoSessionError))]
    {
      var connection: Option<Connection> := None;
      if signal.to.Some? && signal.to.value in shared.connections {
        connection := Some(shared.connections[signal.to.value]);
      }
      var added;
      if connection.Some? && sessionId in shared.sessions {
        added := [Call(SendSignalTo(shared.sessions[sessionId], signal.signalType, signal.data, connection.value)),
                  Invoked(callback, NoArgs)];
      } else if sessionId in shared.sessions {
        added := [Call(SendSignalAll(shared.sessions[sessionId], signal.signalType, signal.data)),
                  Invoked(callback, NoArgs)];
      } else {
        added := [Invoked(callback, ErrorArg(SignalNoSessionError))];
      }
      InvocationCountAppend(world.log, added, callback);
      world.log := world.log + added;
    }

    /**
     * `destroyPublisher`: removes the publisher and its view container,
     * unpublishes it from its session when that session is registered,
     * stops its capture when it existed, and only then stores the callback:
     * nothing is invoked here.
     */
    method DestroyPublisher(publisherId: string, callback: Callback)
      requires Valid()
      modifies shared`publishers, shared`publisherViewContainers, shared`publisherDestroyedCallbacks, world
      ensures Valid()
      ensures shared.publishers == old(shared.publishers) - {publisherId}
      ensures shared.publisherViewContainers == old(shared.publisherViewContainers) - {publisherId}
      ensures shared.publisherDestroyedCallbacks == old(shared.publisherDestroyedCallbacks)[publisherId := callback]
      ensures world.log == old(world.log) + TeardownCalls(old(shared.sessions), Lookup(old(shared.publishers), publisherId))
    {
      var publisher := Lookup(shared.publishers, publisherId);
      var calls := TeardownCalls(shared.sessions, publisher);
      shared.RemovePublisher(publisherId);
      shared.RemovePublisherViewContainer(publisherId);
      world.log := world.log + calls;
      shared.PutDestroyedCallback(publisherId, callback);
    }

    /** `getSessionInfo`: answers `null` for an unknown session, else its map with id and connection status. */
    method GetSessionInfo(sessionId: string, callback: Callback)
      requires Valid()
      modifies world
      ensures sessionId !in shared.sessions ==> world.log == old(world.log) + [Invoked(callback, SessionInfoArg(None))]
      ensures sessionId in shared.sessions ==>
                world.log == old(world.log) + [Invoked(callback, SessionInfoArg(Some(
                  SessionInfo(shared.sessions[sessionId], sessionId, ConnectionStatus(sessionId)))))]
      ensures forall info :: Invoked(callback, SessionInfoArg(Some(info))) in world.log[|old(world.log)|..] ==>
                IsStatusCode(info.connectionStatus)
    {
      var info: Option<SessionInfo> := None;
      if sessionId in shared.sessions {
        var session := shared.sessions[sessionId];
        info := Some(SessionInfo(session, session.sessionId, ConnectionStatus(session.sessionId)));
      }
      world.log := world.log + [Invoked(callback, SessionInfoArg(info))];
    }

    // -------------------------------------------------------------------
    // Session listener overrides
    // -------------------------------------------------------------------

    /** `onError(Session, ...)`: a connection failure sets status 6; the error is emitted either way. */
    method OnSessionError(session: Session, error: OpentokError, connectionFailed: bool)
      requires Valid()
      modifies this`connectionStatusMap, world
      ensures Valid()
      ensures connectionStatusMap == if connectionFailed then old(connectionStatusMap)[session.sessionId := ConnectionFailed]
                                     else old(connectionStatusMap)
      ensures world.log == old(world.log) + Delivery(jsEvents, componentEvents,
                                                     SessionEventName(session.sessionId, "onError"), ErrorMap(error))
    {
      if connectionFailed {
        SetConnectionStatus(session.sessionId, ConnectionFailed);
      }
      SendEvent(SessionEventName(session.sessionId, "onError"), ErrorMap(error));
    }

    /**
     * `onDisconnected(Session)`: status 0, the event, the stored disconnect
     * callback (if any), then the session and its disconnect callback are
     * removed. The connect-callback table is left as it was.
     */
    method OnDisconnected(session: Session)
      requires Valid()
      modifies this`connectionStatusMap, shared`sessions, shared`sessionDisconnectCallbacks, world
      ensures Valid()
      ensures connectionStatusMap == old(connectionStatusMap)[session.sessionId := Disconnected]
      ensures shared.sessions == old(shared.sessions) - {session.sessionId}
      ensures shared.sessionDisconnectCallbacks == old(shared.sessionDisconnectCallbacks) - {session.sessionId}
      ensures world.log == old(world.log)
                + Delivery(jsEvents, componentEvents, SessionEventName(session.sessionId, "onDisconnected"), SessionMap(session))
                + (if session.sessionId in old(shared.sessionDisconnectCallbacks)
                   then [Invoked(old(shared.sessionDisconnectCallbacks)[session.sessionId], NoArgs)] else [])
    {
      var sid := session.sessionId;
      var pending := if sid in shared.sessionDisconnectCallbacks then [Invoked(shared.sessionDisconnectCallbacks[sid], NoArgs)] else [];
      SetConnectionStatus(sid, Disconnected);
      SendEvent(SessionEventName(sid, "onDisconnected"), SessionMap(session));
      world.log := world.log + pending;
      shared.RemoveSession(sid);
      // The source removes `sid` from the disconnect table twice (it fetches
      // that table where the connect table was meant); the second removal
      // changes nothing, and the connect table is never cleared.
      shared.RemoveDisconnectCallback(sid);
    }

    /** `onStreamReceived`: registers the stream under its id, then emits. */
    method OnStreamReceived(session: Session, stream: Stream)
      requires Valid()
      modifies shared`subscriberStreams, world
      ensures Valid()
      ensures shared.subscriberStreams == old(shared.subscriberStreams)[stream.streamId := stream]
      ensures world.log == old(world.log) + Delivery(jsEvents, componentEvents,
                SessionEventName(session.sessionId, "onStreamReceived"), StreamMap(StreamInfo(stream, Some(session.sessionId))))
    {
      shared.PutStream(stream);
      SendEvent(SessionEventName(session.sessionId, "onStreamReceived"), StreamMap(StreamInfo(stream, Some(session.sessionId))));
    }

    /**
     * `onConnected(Session)`: status 1, then the stored connect callback (if
     * any) with no arguments, then the event. The callback stays stored.
     */
    method OnConnected(session: Session)
      requires Valid()
      modifies this`connectionStatusMap, world
      ensures Valid()
      ensures connectionStatusMap == old(connectionStatusMap)[session.sessionId := Connected]
      ensures world.log == old(world.log)
                + (if session.sessionId in shared.sessionConnectCallbacks
                   then [Invoked(shared.sessionConnectCallbacks[session.sessionId], NoArgs)] else [])
                + Delivery(jsEvents, componentEvents, SessionEventName(session.sessionId, "onConnected"), SessionMap(session))
    {
      SetConnectionStatus(session.sessionId, Connected);
      if session.sessionId in shared.sessionConnectCallbacks {
        world.log := world.log + [Invoked(shared.sessionConnectCallbacks[session.sessionId], NoArgs)];
      }
      SendEvent(SessionEventName(session.sessionId, "onConnected"), SessionMap(session));
    }

    /** `onReconnected`: emits with no payload; the status is not touched. */
    method OnReconnected(session: Session)
      modifies world
      ensures world.log == old(world.log) + Delivery(jsEvents, componentEvents,
                SessionEventName(session.sessionId, "onReconnected"), Null)
    {
      SendEvent(SessionEventName(session.sessionId, "onReconnected"), Null);
    }

    /** `onReconnecting`: status 3, then emits with no payload. */
    method OnReconnecting(session: Session)
      requires Valid()
      modifies this`connectionStatusMap, world
      ensures Valid()
      ensures connectionStatusMap == old(connectionStatusMap)[session.sessionId := Reconnecting]
      ensures world.log == old(world.log) + Delivery(jsEvents, componentEvents,
                SessionEventName(session.sessionId, "onReconnecting"), Null)
    {
      SetConnectionStatus(session.sessionId, Reconnecting);
      SendEvent(SessionEventName(session.sessionId, "onReconnecting"), Null);
    }

    /** `onArchiveStarted`: emits the archive id, its name and the session id. */
    method OnArchiveStarted(session: Session, id: string, name: string)
      modifies world
      ensures world.log == old(world.log) + Delivery(jsEvents, componentEvents,
                SessionEventName(session.sessionId, "onArchiveStarted"), ArchiveMap(id, name, session.sessionId))
    {
      SendEvent(SessionEventName(session.sessionId, "onArchiveStarted"), ArchiveMap(id, name, session.sessionId));
    }

    /** `onArchiveStopped`: emits the archive id, an empty name and the session id. */
    method OnArchiveStopped(session: Session, id: string)
      modifies world
      ensures world.log == old(world.log) + Delivery(jsEvents, componentEvents,
                SessionEventName(session.sessionId, "onArchiveStopped"), ArchiveMap(id, "", session.sessionId))
    {
      SendEvent(SessionEventName(session.sessionId, "onArchiveStopped"), ArchiveMap(id, "", session.sessionId));
    }

    /** `onConnectionCreated`: registers the connection under its id before emitting. */
    method OnConnectionCreated(session: Session, connection: Connection)
      requires Valid()
      modifies shared`connections, world
      ensures Valid()
      ensures shared.connections == old(shared.connections)[connection.connectionId := connection]
      ensures world.log == old(world.log) + Delivery(jsEvents, componentEvents,
                SessionEventName(session.sessionId, "onConnectionCreated"), ConnectionMap(connection, session.sessionId))
    {
      shared.PutConnection(connection);
      SendEvent(SessionEventName(session.sessionId, "onConnectionCreated"), ConnectionMap(connection, session.sessionId));
    }

    /** `onConnectionDestroyed`: removes the connection before emitting. */
    method OnConnectionDestroyed(session: Session, connection: Connection)
      requires Valid()
      modifies shared`connections, world
      ensures Valid()
      ensures shared.connections == old(shared.connections) - {connection.connectionId}
      ensures world.log == old(world.log) + Delivery(jsEvents, componentEvents,
                SessionEventName(session.sessionId, "onConnectionDestroyed"), ConnectionMap(connection, session.sessionId))
    {
      shared.RemoveConnection(connection.connectionId);
      SendEvent(SessionEventName(session.sessionId, "onConnectionDestroyed"), ConnectionMap(connection, session.sessionId));
    }

    /** `onStreamDropped`: emits only; the stream record is kept. */
    method OnStreamDropped(session: Session, stream: Stream)
      modifies world
      ensures world.log == old(world.log) + Delivery(jsEvents, componentEvents,
                SessionEventName(session.sessionId, "onStreamDropped"), StreamMap(StreamInfo(stream, Some(session.sessionId))))
    {
      SendEvent(SessionEventName(session.sessionId, "onStreamDropped"), StreamMap(StreamInfo(stream, Some(session.sessionId))));
    }

    /** `onSignalReceived`: emits type, data, the sender's connection id only when there is a sender, and the session id. */
    method OnSignalReceived(session: Session, signalType: string, data: string, connection: Option<Connection>)
      modifies world
      ensures world.log == old(world.log) + Delivery(jsEvents, componentEvents,
                SessionEventName(session.sessionId, "onSignalReceived"),
                SignalMap(signalType, data, if connection.Some? then Some(connection.value.connectionId) else None, session.sessionId))
    {
      var from := if connection.Some? then Some(connection.value.connectionId) else None;
      SendEvent(SessionEventName(session.sessionId, "onSignalReceived"), SignalMap(signalType, data, from, session.sessionId));
    }

    /** `onStreamHasAudioChanged`: emits the flag's old (negated) and new value. */
    method OnStreamHasAudioChanged(session: Session, stream: Stream, audio: bool)
      modifies world
      ensures world.log == old(world.log) + Delivery(jsEvents, componentEvents,
                SessionEventName(session.sessionId, "onStreamPropertyChanged"),
                PropertyChanged("hasAudio", Flag(!audio), Flag(audio), stream, session.sessionId))
    {
      SendEvent(SessionEventName(session.sessionId, "onStreamPropertyChanged"),
                PropertyChanged("hasAudio", Flag(!audio), Flag(audio), stream, session.sessionId));
    }

    /** `onStreamHasVideoChanged`: emits the flag's old (negated) and new value. */
    method OnStreamHasVideoChanged(session: Session, stream: Stream, video: bool)
      modifies world
      ensures world.log == old(world.log) + Delivery(jsEvents, componentEvents,
                SessionEventName(session.sessionId, "onStreamPropertyChanged"),
                PropertyChanged("hasVideo", Flag(!video), Flag(video), stream, session.sessionId))
    {
      SendEvent(SessionEventName(session.sessionId, "onStreamPropertyChanged"),
                PropertyChanged("hasVideo", Flag(!video), Flag(video), stream, session.sessionId));
    }

    /**
     * `onStreamVideoDimensionsChanged`: the old dimensions come from the
     * registered stream record (an empty map when there is none); the
     * record itself is not updated.
     */
    method OnStreamVideoDimensionsChanged(session: Session, stream: Stream, width: int, height: int)
      modifies world
      ensures world.log == old(world.log) + Delivery(jsEvents, componentEvents,
                SessionEventName(session.sessionId, "onStreamPropertyChanged"),
                PropertyChanged("videoDimensions",
                  if stream.streamId in shared.subscriberStreams
                  then Dimensions(shared.subscriberStreams[stream.streamId].videoHeight, shared.subscriberStreams[stream.streamId].videoWidth)
                  else NoDimensions,
                  Dimensions(height, width), stream, session.sessionId))
    {
      var oldDimensions := NoDimensions;
      if stream.streamId in shared.subscriberStreams {
        var registered := shared.subscriberStreams[stream.streamId];
        oldDimensions := Dimensions(registered.videoHeight, registered.videoWidth);
      }
      SendEvent(SessionEventName(session.sessionId, "onStreamPropertyChanged"),
                PropertyChanged("videoDimensions", oldDimensions, Dimensions(height, width), stream, session.sessionId));
    }

    /** `onStreamVideoTypeChanged`: the old type is read from the notified stream, not from the registry. */
    method OnStreamVideoTypeChanged(session: Session, stream: Stream, videoType: string)
      modifies world
      ensures world.log == old(world.log) + Delivery(jsEvents, componentEvents,
                SessionEventName(session.sessionId, "onStreamPropertyChanged"),
                PropertyChanged("videoType", VideoType(stream.videoType), VideoType(videoType), stream, session.sessionId))
    {
      SendEvent(SessionEventName(session.sessionId, "onStreamPropertyChanged"),
                PropertyChanged("videoType", VideoType(stream.videoType), VideoType(videoType), stream, session.sessionId));
    }

    // -------------------------------------------------------------------
    // Publisher listener overrides (filtered by this module's own lists)
    // -------------------------------------------------------------------

    /**
     * `onStreamCreated(PublisherKit, ...)`: always registers the stream;
     * emits only when the publisher id is non-empty. `publisherId` is what
     * `Utils.getPublisherId` returns for `kit`.
     */
    method OnPublisherStreamCreated(kit: Publisher, stream: Stream, publisherId: string)
      requires Valid()
      modifies shared`subscriberStreams, world
      ensures Valid()
      ensures shared.subscriberStreams == old(shared.subscriberStreams)[stream.streamId := stream]
      ensures world.log == old(world.log) +
                (if |publisherId| > 0
                 then Delivery(jsEvents, componentEvents, PublisherEventName(publisherId, "onStreamCreated"),
                               StreamMap(StreamInfo(stream, kit.sessionId)))
                 else [])
    {
      shared.PutStream(stream);
      if |publisherId| > 0 {
        SendEvent(PublisherEventName(publisherId, "onStreamCreated"), StreamMap(StreamInfo(stream, kit.sessionId)));
      }
    }

    /**
     * `onStreamDestroyed(PublisherKit, ...)`: removes the stream, emits when
     * the publisher id is non-empty, invokes the stored destroy callback
     * without removing it, then removes the publisher.
     */
    method OnPublisherStreamDestroyed(kit: Publisher, stream: Stream, publisherId: string)
      requires Valid()
      modifies shared`subscriberStreams, shared`publishers, world
      ensures Valid()
      ensures shared.subscriberStreams == old(shared.subscriberStreams) - {stream.streamId}
      ensures shared.publishers == old(shared.publishers) - {publisherId}
      ensures world.log == old(world.log)
                + (if |publisherId| > 0
                   then Delivery(jsEvents, componentEvents, PublisherEventName(publisherId, "onStreamDestroyed"),
                                 StreamMap(StreamInfo(stream, kit.sessionId)))
                   else [])
                + (if publisherId in shared.publisherDestroyedCallbacks
                   then [Invoked(shared.publisherDestroyedCallbacks[publisherId], NoArgs)] else [])
    {
      var event := PublisherEventName(publisherId, "onStreamDestroyed");
      var pending := if publisherId in shared.publisherDestroyedCallbacks
                     then [Invoked(shared.publisherDestroyedCallbacks[publisherId], NoArgs)] else [];
      shared.RemoveStream(stream.streamId);
      if |publisherId| > 0 {
        SendEvent(event, StreamMap(StreamInfo(stream, kit.sessionId)));
      }
      world.log := world.log + pending;
      shared.RemovePublisher(publisherId);
    }

    /** `onError(PublisherKit, ...)`: emits the error when the publisher id is non-empty. */
    method OnPublisherError(kit: Publisher, error: OpentokError, publisherId: string)
      modifies world
      ensures world.log == old(world.log) +
                (if |publisherId| > 0
                 then Delivery(jsEvents, componentEvents, PublisherEventName(publisherId, "onError"), ErrorMap(error))
                 else [])
    {
      if |publisherId| > 0 {
        SendEvent(PublisherEventName(publisherId, "onError"), ErrorMap(error));
      }
    }

    /** `onAudioLevelUpdated(PublisherKit, ...)`: emits the level as text when the publisher id is non-empty. */
    method OnPublisherAudioLevelUpdated(kit: Publisher, audioLevel: string, publisherId: string)
      modifies world
      ensures world.log == old(world.log) +
                (if |publisherId| > 0
                 then Delivery(jsEvents, componentEvents, PublisherEventName(publisherId, "onAudioLevelUpdated"), Text(audioLevel))
                 else [])
    {
      if |publisherId| > 0 {
        SendEvent(PublisherEventName(publisherId, "onAudioLevelUpdated"), Text(audioLevel));
      }
    }

    // -------------------------------------------------------------------
    // Subscriber listener overrides
    // -------------------------------------------------------------------

    /**
     * Every subscriber listener: when the stream id (what
     * `Utils.getStreamIdBySubscriber` returns for `kit`) is non-empty, emits
     * `subscriber:<name>` with the registered stream (left out when none is
     * registered) and the event's own field. The name carries no stream id.
     */
    method OnSubscriberEvent(kit: Subscriber, streamId: string, event: SubscriberEvent)
      modifies world
      ensures world.log == old(world.log) +
                (if |streamId| > 0
                 then Delivery(jsEvents, componentEvents, SubscriberEventName(event.Name()),
                               SubscriberMap(if streamId in shared.subscriberStreams
                                             then Some(StreamInfo(shared.subscriberStreams[streamId], kit.sessionId))
                                             else None,
                                             event.Detail()))
                 else [])
    {
      if |streamId| > 0 {
        var info: Option<StreamInfo> := None;
        if streamId in shared.subscriberStreams {
          info := Some(StreamInfo(shared.subscriberStreams[streamId], kit.sessionId));
        }
        SendEvent(SubscriberEventName(event.Name()), SubscriberMap(info, event.Detail()));
      }
    }
  }
}
