/**
 * `OTPublisherManager`: the host-facing publisher module. It creates and
 * configures publishers in the shared table, toggles them, and reports the
 * publisher listener callbacks it is registered for. Unlike the session
 * module it filters events through the subscription lists of the shared
 * state, not through lists of its own.
 */
module PublisherBridge {
  import opened Entities
  import opened EventLists
  import opened SharedRegistry

  class PublisherManager {
    const shared: SharedState
    const world: Effects

    ghost predicate Valid()
      reads shared
    {
      shared.Valid()
    }

    constructor (shared: SharedState, world: Effects)
      requires shared.Valid()
      ensures Valid() && this.shared == shared && this.world == world
    {
      this.shared := shared;
      this.world := world;
    }

    /** `containsJsOrComponentEvents`: the name is subscribed in either shared list. */
    method ContainsJsOrComponentEvents(eventName: string) returns (r: bool)
      ensures r <==> eventName in shared.jsEvents || eventName in shared.componentEvents
    {
      r := Contains(shared.jsEvents, eventName) || Contains(shared.componentEvents, eventName);
    }

    /** `sendEventMap` / `sendEventWithString`: emit iff the name is in a shared list. */
    method SendEvent(eventName: string, payload: Payload)
      modifies world
      ensures world.log == old(world.log) + Delivery(shared.jsEvents, shared.componentEvents, eventName, payload)
    {
      var subscribed := ContainsJsOrComponentEvents(eventName);
      if subscribed {
        world.log := world.log + [Emitted(eventName, payload)];
      }
    }

    /**
     * `init`: builds and configures a publisher, stores it under
     * `publisherId` (overwriting) and answers with no arguments.
     */
    method Init(publisherId: string, props: PublisherProperties, callback: Callback)
      requires Valid()
      modifies shared`publishers, world
      ensures Valid()
      ensures shared.publishers == old(shared.publishers)[publisherId := NewPublisher(publisherId, props)]
      ensures world.log == old(world.log) + InitPublisherCalls(NewPublisher(publisherId, props), props, PublisherModule)
                                          + [Invoked(callback, NoArgs)]
    {
      var p := NewPublisher(publisherId, props);
      world.log := world.log + InitPublisherCalls(p, props, PublisherModule);
      shared.PutPublisher(p);
      world.log := world.log + [Invoked(callback, NoArgs)];
    }

    /** `publishAudio`: toggles a known publisher's audio; an unknown id does nothing. */
    method PublishAudio(publisherId: string, publishAudio: bool)
      modifies world
      ensures world.log == old(world.log) +
                (if publisherId in shared.publishers then [Call(SetPublishAudio(shared.publishers[publisherId], publishAudio))] else [])
    {
      if publisherId in shared.publishers {
        world.log := world.log + [Call(SetPublishAudio(shared.publishers[publisherId], publishAudio))];
      }
    }

    /** `publishVideo`: toggles a known publisher's video; an unknown id does nothing. */
    method PublishVideo(publisherId: string, publishVideo: bool)
      modifies world
      ensures world.log == old(world.log) +
                (if publisherId in shared.publishers then [Call(SetPublishVideo(shared.publishers[publisherId], publishVideo))] else [])
    {
      if publisherId in shared.publishers {
        world.log := world.log + [Call(SetPublishVideo(shared.publishers[publisherId], publishVideo))];
      }
    }

    /** `changeCameraPosition`: cycles a known publisher's camera; the requested position is ignored. */
    method ChangeCameraPosition(publisherId: string, cameraPosition: string)
      modifies world
      ensures world.log == old(world.log) +
                (if publisherId in shared.publishers then [Call(CycleCamera(shared.publishers[publisherId]))] else [])
    {
      if publisherId in shared.publishers {
        world.log := world.log + [Call(CycleCamera(shared.publishers[publisherId]))];
      }
    }

    /** `onError`: emits the error when the publisher id is non-empty. */
    method OnError(kit: Publisher, error: OpentokError, publisherId: string)
      modifies world
      ensures world.log == old(world.log) +
                (if |publisherId| > 0
                 then Delivery(shared.jsEvents, shared.componentEvents, PublisherEventName(publisherId, "onError"), ErrorMap(error))
                 else [])
    {
      if |publisherId| > 0 {
        SendEvent(PublisherEventName(publisherId, "onError"), ErrorMap(error));
      }
    }

    /** `onStreamCreated`: always registers the stream; emits only when the publisher id is non-empty. */
    method OnStreamCreated(kit: Publisher, stream: Stream, publisherId: string)
      requires Valid()
      modifies shared`subscriberStreams, world
      ensures Valid()
      ensures shared.subscriberStreams == old(shared.subscriberStreams)[stream.streamId := stream]
      ensures world.log == old(world.log) +
                (if |publisherId| > 0
                 then Delivery(shared.jsEvents, shared.componentEvents, PublisherEventName(publisherId, "onStreamCreated"),
                               StreamMap(StreamInfo(stream, kit.sessionId)))
                 else [])
    {
      shared.PutStream(stream);
      if |publisherId| > 0 {
        SendEvent(PublisherEventName(publisherId, "onStreamCreated"), StreamMap(StreamInfo(stream, kit.sessionId)));
      }
    }

    /**
     * `onStreamDestroyed`: removes the stream, emits when the publisher id
     * is non-empty, invokes the stored destroy callback without removing
     * it, then removes the publisher.
     */
    method OnStreamDestroyed(kit: Publisher, stream: Stream, publisherId: string)
      requires Valid()
      modifies shared`subscriberStreams, shared`publishers, world
      ensures Valid()
      ensures shared.subscriberStreams == old(shared.subscriberStreams) - {stream.streamId}
      ensures shared.publishers == old(shared.publishers) - {publisherId}
      ensures world.log == old(world.log)
                + (if |publisherId| > 0
                   then Delivery(shared.jsEvents, shared.componentEvents, PublisherEventName(publisherId, "onStreamDestroyed"),
                                 StreamMap(StreamInfo(stream, kit.sessionId)))
                   else [])
                + (if publisherId in shared.publisherDestroyedCallbacks
                   then [Invoked(shared.publisherDestroyedCallbacks[publisherId], NoArgs)] else [])
    {
      var event := PublisherEventName(publisherId, "onStreamDestroyed");
      var pending := if publisherId in shared.publisherDestroyedCallbacks
                     then [Invoked(shared.publisherDestroyedCallbacks[publisherId], NoArgs)] else [];
      shared.RemoveStream(stream.streamId);
      if |publisherId| > 0 {
        SendEvent(event, StreamMap(StreamInfo(stream, kit.sessionId)));
      }
      world.log := world.log + pending;
      shared.RemovePublisher(publisherId);
    }

    /** `onAudioLevelUpdated`: emits the level as text when the publisher id is non-empty. */
    method OnAudioLevelUpdated(kit: Publisher, audioLevel: string, publisherId: string)
      modifies world
      ensures world.log == old(world.log) +
                (if |publisherId| > 0
                 then Delivery(shared.jsEvents, shared.componentEvents, PublisherEventName(publisherId, "onAudioLevelUpdated"),
                               Text(audioLevel))
                 else [])
    {
      if |publisherId| > 0 {
        SendEvent(PublisherEventName(publisherId, "onAudioLevelUpdated"), Text(audioLevel));
      }
    }
  }
}
