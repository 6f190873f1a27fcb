/**
 * The process-wide shared state both bridge modules reach through
 * `sharedState`: keyed tables of live SDK objects, view containers, pending
 * host callbacks and layout options, plus a pair of event-subscription
 * lists. Alongside it, `Effects` records what the bridge does to the world
 * outside it (the SDK and the host), in order.
 */
module SharedRegistry {
  import opened Wrappers
  import opened Entities

  /** Every outbound effect, in the order the bridge performs them. Only ever appended to. */
  class Effects {
    var log: seq<Effect>

    constructor ()
      ensures log == []
    {
      log := [];
    }
  }

  class SharedState {
    var sessions: map<string, Session>
    var publishers: map<string, Publisher>
    var subscribers: map<string, Subscriber>
    var subscriberStreams: map<string, Stream>
    var connections: map<string, Connection>
    var publisherViewContainers: map<string, ViewContainer>
    var subscriberViewContainers: map<string, ViewContainer>
    var sessionConnectCallbacks: map<string, Callback>
    var sessionDisconnectCallbacks: map<string, Callback>
    var publisherDestroyedCallbacks: map<string, Callback>
    var androidOnTopMap: map<string, string>
    var androidZOrderMap: map<string, string>
    var jsEvents: seq<string>
    var componentEvents: seq<string>

    /**
     * Identity invariant of the registry: every SDK object is stored under
     * the id it carries (a session under its session id, a publisher under
     * its publisher id, a subscriber and a stream under their stream id, a
     * connection under its connection id).
     */
    ghost predicate Valid()
      reads this
    {
      && (forall k :: k in sessions ==> sessions[k].sessionId == k)
      && (forall k :: k in publishers ==> publishers[k].publisherId == k)
      && (forall k :: k in subscribers ==> subscribers[k].streamId == k)
      && (forall k :: k in subscriberStreams ==> subscriberStreams[k].streamId == k)
      && (forall k :: k in connections ==> connections[k].connectionId == k)
    }

    /** Stores a session under its own id. */
    method PutSession(session: Session)
      requires Valid()
      modifies this`sessions
      ensures Valid()
      ensures sessions == old(sessions)[session.sessionId := session]
    {
      sessions := sessions[session.sessionId := session];
    }

    /** Drops the session stored under `sessionId`. */
    method RemoveSession(sessionId: string)
      requires Valid()
      modifies this`sessions
      ensures Valid()
      ensures sessions == old(sessions) - {sessionId}
    {
      sessions := sessions - {sessionId};
    }

    /** Stores a publisher under its own id. */
    method PutPublisher(publisher: Publisher)
      requires Valid()
      modifies this`publishers
      ensures Valid()
      ensures publishers == old(publishers)[publisher.publisherId := publisher]
    {
      publishers := publishers[publisher.publisherId := publisher];
    }

    /** Drops the publisher stored under `publisherId`. */
    method RemovePublisher(publisherId: string)
      requires Valid()
      modifies this`publishers
      ensures Valid()
      ensures publishers == old(publishers) - {publisherId}
    {
      publishers := publishers - {publisherId};
    }

    /** Stores a subscriber under its stream id. */
    method PutSubscriber(subscriber: Subscriber)
      requires Valid()
      modifies this`subscribers
      ensures Valid()
      ensures subscribers == old(subscribers)[subscriber.streamId := subscriber]
    {
      subscribers := subscribers[subscriber.streamId := subscriber];
    }

    /** Drops the subscriber stored under `streamId`. */
    method RemoveSubscriber(streamId: string)
      requires Valid()
      modifies this`subscribers
      ensures Valid()
      ensures subscribers == old(subscribers) - {streamId}
    {
      subscribers := subscribers - {streamId};
    }

    /** Stores a stream under its own id. */
    method PutStream(stream: Stream)
      requires Valid()
      modifies this`subscriberStreams
      ensures Valid()
      ensures subscriberStreams == old(subscriberStreams)[stream.streamId := stream]
    {
      subscriberStreams := subscriberStreams[stream.streamId := stream];
    }

    /** Drops the stream stored under `streamId`. */
    method RemoveStream(streamId: string)
      requires Valid()
      modifies this`subscriberStreams
      ensures Valid()
      ensures subscriberStreams == old(subscriberStreams) - {streamId}
    {
      subscriberStreams := subscriberStreams - {streamId};
    }

    /** Stores a connection under its own id. */
    method PutConnection(connection: Connection)
      requires Valid()
      modifies this`connections
      ensures Valid()
      ensures connections == old(connections)[connection.connectionId := connection]
    {
      connections := connections[connection.connectionId := connection];
    }

    /** Drops the connection stored under `connectionId`. */
    method RemoveConnection(connectionId: string)
      requires Valid()
      modifies this`connections
      ensures Valid()
      ensures connections == old(connections) - {connectionId}
    {
      connections := connections - {connectionId};
    }

    /** Drops the view container of a publisher. */
    method RemovePublisherViewContainer(publisherId: string)
      requires Valid()
      modifies this`publisherViewContainers
      ensures Valid()
      ensures publisherViewContainers == old(publisherViewContainers) - {publisherId}
    {
      publisherViewContainers := publisherViewContainers - {publisherId};
    }

    /** Drops the view container of a subscriber. */
    method RemoveSubscriberViewContainer(streamId: string)
      requires Valid()
      modifies this`subscriberViewContainers
      ensures Valid()
      ensures subscriberViewContainers == old(subscriberViewContainers) - {streamId}
    {
      subscriberViewContainers := subscriberViewContainers - {streamId};
    }

    /** Stores the pending connect callback of a session. */
    method PutConnectCallback(sessionId: string, callback: Callback)
      requires Valid()
      modifies this`sessionConnectCallbacks
      ensures Valid()
      ensures sessionConnectCallbacks == old(sessionConnectCallbacks)[sessionId := callback]
    {
      sessionConnectCallbacks := sessionConnectCallbacks[sessionId := callback];
    }

    /** Stores the pending disconnect callback of a session. */
    method PutDisconnectCallback(sessionId: string, callback: Callback)
      requires Valid()
      modifies this`sessionDisconnectCallbacks
      ensures Valid()
      ensures sessionDisconnectCallbacks == old(sessionDisconnectCallbacks)[sessionId := callback]
    {
      sessionDisconnectCallbacks := sessionDisconnectCallbacks[sessionId := callback];
    }

    /** Drops the pending disconnect callback of a session. */
    method RemoveDisconnectCallback(sessionId: string)
      requires Valid()
      modifies this`sessionDisconnectCallbacks
      ensures Valid()
      ensures sessionDisconnectCallbacks == old(sessionDisconnectCallbacks) - {sessionId}
    {
      sessionDisconnectCallbacks := sessionDisconnectCallbacks - {sessionId};
    }

    /** Stores the destroy callback of a publisher. */
    method PutDestroyedCallback(publisherId: string, callback: Callback)
      requires Valid()
      modifies this`publisherDestroyedCallbacks
      ensures Valid()
      ensures publisherDestroyedCallbacks == old(publisherDestroyedCallbacks)[publisherId := callback]
    {
      publisherDestroyedCallbacks := publisherDestroyedCallbacks[publisherId := callback];
    }

    /** Stores the on-top layout option of a session. */
    method PutAndroidOnTop(sessionId: string, value: string)
      requires Valid()
      modifies this`androidOnTopMap
      ensures Valid()
      ensures androidOnTopMap == old(androidOnTopMap)[sessionId := value]
    {
      androidOnTopMap := androidOnTopMap[sessionId := value];
    }

    /** Stores the z-order layout option of a session. */
    method PutAndroidZOrder(sessionId: string, value: string)
      requires Valid()
      modifies this`androidZOrderMap
      ensures Valid()
      ensures androidZOrderMap == old(androidZOrderMap)[sessionId := value]
    {
      androidZOrderMap := androidZOrderMap[sessionId := value];
    }

    constructor ()
      ensures Valid()
      ensures sessions == map[] && publishers == map[] && subscribers == map[]
      ensures subscriberStreams == map[] && connections == map[]
      ensures publisherViewContainers == map[] && subscriberViewContainers == map[]
      ensures sessionConnectCallbacks == map[] && sessionDisconnectCallbacks == map[] && publisherDestroyedCallbacks == map[]
      ensures androidOnTopMap == map[] && androidZOrderMap == map[]
      ensures jsEvents == [] && componentEvents == []
    {
      sessions, publishers, subscribers, subscriberStreams, connections := map[], map[], map[], map[], map[];
      publisherViewContainers, subscriberViewContainers := map[], map[];
      sessionConnectCallbacks, sessionDisconnectCallbacks, publisherDestroyedCallbacks := map[], map[], map[];
      androidOnTopMap, androidZOrderMap := map[], map[];
      jsEvents, componentEvents := [], [];
    }
  }
}
