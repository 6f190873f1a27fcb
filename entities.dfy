/**
 * The values the bridge stores and exchanges: opaque SDK handles, host
 * callbacks, the payload maps built for events and callbacks, and the
 * outbound effects (SDK calls, callback invocations, emitted events).
 *
 * SDK objects are modelled as values that carry the identifiers the bridge
 * reads from them. The payload builders of `EventUtils` are not part of this
 * model: each one is a free constructor of `Payload` or `CallbackArgs`, so two
 * payloads are equal only when they were built from equal inputs.
 */
module Entities {
  import opened Wrappers

  // ---------------------------------------------------------------------
  // Connection status codes (OTSessionManager.java:621, 633, 660, 681)
  // ---------------------------------------------------------------------

  const Disconnected: int := 0
  const Connected: int := 1
  const Reconnecting: int := 3
  const ConnectionFailed: int := 6

  /** The only values the bridge ever stores in its connection-status map. */
  predicate IsStatusCode(c: int) {
    c == Disconnected || c == Connected || c == Reconnecting || c == ConnectionFailed
  }

  // ---------------------------------------------------------------------
  // SDK handles and host inputs
  // ---------------------------------------------------------------------

  /** Layout options read from the host's session options. */
  datatype SessionOptions = SessionOptions(androidOnTop: string, androidZOrder: string)

  /** A native session, built from an API key and a session id. */
  datatype Session = Session(apiKey: string, sessionId: string)

  /** The publisher properties the bridge itself reads. */
  datatype PublisherProperties = PublisherProperties(
    videoSource: string,
    cameraPosition: string,
    audioFallbackEnabled: bool,
    publishVideo: bool,
    publishAudio: bool)

  /**
   * A native publisher: the id it was created for, whether it captures the
   * screen, and the id of the session it is published to (set by the SDK
   * when the bridge publishes it; `None` until then).
   */
  datatype Publisher = Publisher(publisherId: string, screenCapture: bool, sessionId: Option<string>)

  /** A stream as reported by the SDK. */
  datatype Stream = Stream(streamId: string, videoWidth: int, videoHeight: int, videoType: string)

  datatype SubscriberProperties = SubscriberProperties(subscribeToAudio: bool, subscribeToVideo: bool)

  /**
   * A native subscriber: the stream id it was created for, the stream record
   * it was built from (absent when none was registered), and the session it
   * subscribed through (set by the SDK on subscribe).
   */
  datatype Subscriber = Subscriber(streamId: string, stream: Option<Stream>, sessionId: Option<string>)

  /** A remote connection as reported by the SDK. */
  datatype Connection = Connection(connectionId: string, data: string)

  /** An SDK error: domain, numeric code and message. */
  datatype OpentokError = OpentokError(domain: string, code: int, message: string)

  /** A signal request from the host; `to` is the optional target connection id. */
  datatype Signal = Signal(signalType: string, data: string, to: Option<string>)

  /**
   * The two native modules of the bridge. Each registers itself as the
   * listener of the handles it builds, so the SDK reports a handle's
   * events to the module that built it.
   */
  datatype Module = SessionModule | PublisherModule

  /** An opaque one-shot host callback. */
  datatype Callback = Callback(id: nat)

  /** An opaque native view container registered for a publisher or a subscriber. */
  datatype ViewContainer = ViewContainer(id: nat)

  /** Opaque network statistics handed over by a subscriber. */
  datatype NetworkStats = NetworkStats(id: nat)

  // ---------------------------------------------------------------------
  // Payloads
  // ---------------------------------------------------------------------

  /** `prepareJSStreamMap(stream, session)`: a stream and the id of the session it is seen through. */
  datatype StreamInfo = StreamInfo(stream: Stream, sessionId: Option<string>)

  /** Old and new values carried by a stream-property-changed event. */
  datatype PropertyValue =
    | Flag(on: bool)
    | NoDimensions                      // an empty map: the stream was not registered
    | Dimensions(height: int, width: int)
    | VideoType(name: string)

  /** The extra field a subscriber event carries besides its stream. */
  datatype SubscriberDetail =
    | NoDetail
    | ErrorDetail(error: OpentokError)
    | AudioStatsDetail(audioStats: NetworkStats)
    | VideoStatsDetail(videoStats: NetworkStats)
    | AudioLevelDetail(audioLevel: string)
    | ReasonDetail(reason: string)

  /** The data emitted with an event. */
  datatype Payload =
    | Null
    | Text(text: string)
    | ErrorMap(error: OpentokError)
    | SessionMap(session: Session)
    | StreamMap(info: StreamInfo)
    | ConnectionMap(connection: Connection, sessionId: string)
    | ArchiveMap(archiveId: string, name: string, sessionId: string)
    | SignalMap(signalType: string, data: string, connectionId: Option<string>, sessionId: string)
    | SubscriberMap(stream: Option<StreamInfo>, detail: SubscriberDetail)
    | PropertyChanged(property: string, oldValue: PropertyValue, newValue: PropertyValue, changed: Stream, sessionId: string)

  /** The snapshot `getSessionInfo` hands back for a known session. */
  datatype SessionInfo = SessionInfo(session: Session, sessionId: string, connectionStatus: int)

  /** The arguments a host callback is invoked with. */
  datatype CallbackArgs =
    | NoArgs
    | ErrorArg(message: string)          // `EventUtils.createError(message)`
    | NullAndStreamId(streamId: string)
    | SessionInfoArg(info: Option<SessionInfo>)

  const ConnectError := "Error connecting to session. Could not find native session instance"
  const PublishNoPublisherError := "Error publishing. Could not find native publisher instance."
  const PublishNoSessionError := "Error publishing. Could not find native session instance."
  const SubscribeNoSessionError := "Error subscribing. The native session instance could not be found."
  const SignalNoSessionError := "There was an error sending the signal. The native session instance could not be found."

  // ---------------------------------------------------------------------
  // Outbound effects
  // ---------------------------------------------------------------------

  /** A call the bridge makes on an SDK object. */
  datatype SdkCall =
    | SetSessionListeners(session: Session)                          // the six `set*Listener(this)` of `initSession`
    | SetPublisherListeners(publisher: Publisher, listener: Module)  // `setPublisherListener` and `setAudioLevelListener`
    | SetSubscriberListeners(subscriber: Subscriber)                 // the six `set*Listener(this)` of `subscribeToStream`
    | SessionConnect(session: Session, token: string)
    | SessionDisconnect(session: Session)
    | SessionPublish(session: Session, publisher: Publisher)
    | SessionUnpublish(session: Session, publisher: Publisher)
    | SessionSubscribe(session: Session, subscriber: Subscriber)
    | SendSignalTo(session: Session, signalType: string, data: string, connection: Connection)
    | SendSignalAll(session: Session, signalType: string, data: string)
    | SetVideoTypeScreen(publisher: Publisher)
    | CycleCamera(publisher: Publisher)
    | SetAudioFallbackEnabled(publisher: Publisher, on: bool)
    | SetPublishVideo(publisher: Publisher, on: bool)
    | SetPublishAudio(publisher: Publisher, on: bool)
    | StopCapture(publisher: Publisher)
    | SetSubscribeToAudio(subscriber: Subscriber, on: bool)
    | SetSubscribeToVideo(subscriber: Subscriber, on: bool)

  /** One outbound effect, in the order the bridge performs them. */
  datatype Effect =
    | Call(call: SdkCall)
    | Invoked(callback: Callback, args: CallbackArgs)
    | Emitted(eventName: string, payload: Payload)

  /** How many times `cb` is invoked in `log`, whatever the arguments. */
  function InvocationCount(log: seq<Effect>, cb: Callback): (n: nat)
    ensures n <= |log|
    ensures n == 0 <==> forall i :: 0 <= i < |log| ==> !(log[i].Invoked? && log[i].callback == cb)
  {
    if log == [] then 0
    else (if log[0].Invoked? && log[0].callback == cb then 1 else 0) + InvocationCount(log[1..], cb)
  }

  /** A log made only of SDK calls and emitted events invokes no callback. */
  lemma NoInvocations(log: seq<Effect>, cb: Callback)
    requires forall i :: 0 <= i < |log| ==> !log[i].Invoked?
    ensures InvocationCount(log, cb) == 0
  {
  }

  /** The count of a one-entry log. */
  lemma InvocationCountSingle(e: Effect, cb: Callback)
    ensures InvocationCount([e], cb) == if e.Invoked? && e.callback == cb then 1 else 0
  {
    assert [e][1..] == [];
  }

  /** Invocation counts add up over a concatenation of logs. */
  lemma {:induction false} InvocationCountAppend(a: seq<Effect>, b: seq<Effect>, cb: Callback)
    ensures InvocationCount(a + b, cb) == InvocationCount(a, cb) + InvocationCount(b, cb)
  {
    if a != [] {
      assert (a + b)[1..] == a[1..] + b;
      InvocationCountAppend(a[1..], b, cb);
    } else {
      assert a + b == b;
    }
  }

  // ---------------------------------------------------------------------
  // Event names
  // ---------------------------------------------------------------------

  const SessionPreface := "session:"
  const PublisherPreface := "publisher:"
  const SubscriberPreface := "subscriber:"

  /** `<sessionId>:session:<name>`: the session id, then the `:session:` separator, then the event's own name. */
  function SessionEventName(sessionId: string, name: string): (r: string)
    ensures |r| == |sessionId| + 9 + |name|
    ensures r[..|sessionId|] == sessionId
    ensures r[|sessionId|..|sessionId| + 9] == ":session:"
    ensures r[|sessionId| + 9..] == name
  {
    sessionId + ":" + SessionPreface + name
  }

  /** `<publisherId>:publisher:<name>`: the publisher id, then the `:publisher:` separator, then the event's own name. */
  function PublisherEventName(publisherId: string, name: string): (r: string)
    ensures |r| == |publisherId| + 11 + |name|
    ensures r[..|publisherId|] == publisherId
    ensures r[|publisherId|..|publisherId| + 11] == ":publisher:"
    ensures r[|publisherId| + 11..] == name
  {
    publisherId + ":" + PublisherPreface + name
  }

  /** `subscriber:<name>`: subscriber events carry no stream id, so every stream shares the name. */
  function SubscriberEventName(name: string): (r: string)
    ensures |r| == 11 + |name|
    ensures r[..11] == "subscriber:"
    ensures r[11..] == name
  {
    SubscriberPreface + name
  }

  /**
   * For one and the same event, two sessions never share the scoped name:
   * the session id is recoverable from the name.
   */
  lemma SessionEventNameDeterminesId(a: string, b: string, name: string)
    requires SessionEventName(a, name) == SessionEventName(b, name)
    ensures a == b
  {
    var ea, eb := SessionEventName(a, name), SessionEventName(b, name);
    assert |a| == |b|;
    assert a == ea[..|a|];
    assert b == eb[..|b|];
  }

  /**
   * For one and the same event, two publishers never share the scoped name:
   * the publisher id is recoverable from the name.
   */
  lemma PublisherEventNameDeterminesId(a: string, b: string, name: string)
    requires PublisherEventName(a, name) == PublisherEventName(b, name)
    ensures a == b
  {
    var ea, eb := PublisherEventName(a, name), PublisherEventName(b, name);
    assert |a| == |b|;
    assert a == ea[..|a|];
    assert b == eb[..|b|];
  }

  // ---------------------------------------------------------------------
  // Publisher construction (OTPublisherManager.java:176-212, OTSessionManager.java:143-184)
  // ---------------------------------------------------------------------

  /** The publisher `init` builds: screen capture iff the video source is "screen"; not yet published. */
  function NewPublisher(publisherId: string, props: PublisherProperties): (p: Publisher)
    ensures p.publisherId == publisherId && p.sessionId == None
    ensures p.screenCapture <==> props.videoSource == "screen"
  {
    Publisher(publisherId, props.videoSource == "screen", None)
  }

  /**
   * The SDK calls the `init` of module `owner` makes on a freshly built
   * publisher: the screen video type for a screen source, a camera cycle for
   * a back camera, then `owner` registered as its listener, then audio
   * fallback, video and audio, in that order.
   */
  function InitPublisherCalls(p: Publisher, props: PublisherProperties, owner: Module): (calls: seq<Effect>)
    ensures Call(CycleCamera(p)) in calls <==> props.videoSource != "screen" && props.cameraPosition == "back"
    ensures Call(SetVideoTypeScreen(p)) in calls <==> props.videoSource == "screen"
    ensures |calls| == 5 <==> props.videoSource == "screen" || props.cameraPosition == "back"
    ensures 4 <= |calls| <= 5
    ensures forall i :: 0 <= i < |calls| ==> calls[i].Call?
    ensures calls[|calls| - 4..] == [Call(SetPublisherListeners(p, owner)),
                                     Call(SetAudioFallbackEnabled(p, props.audioFallbackEnabled)),
                                     Call(SetPublishVideo(p, props.publishVideo)),
                                     Call(SetPublishAudio(p, props.publishAudio))]
  {
    var configure := [Call(SetPublisherListeners(p, owner)),
                      Call(SetAudioFallbackEnabled(p, props.audioFallbackEnabled)),
                      Call(SetPublishVideo(p, props.publishVideo)),
                      Call(SetPublishAudio(p, props.publishAudio))];
    assert Call(CycleCamera(p)) !in configure && Call(SetVideoTypeScreen(p)) !in configure;
    if props.videoSource == "screen" then
      var calls := [Call(SetVideoTypeScreen(p))] + configure;
      assert calls[1..] == configure;
      calls
    else if props.cameraPosition == "back" then
      var calls := [Call(CycleCamera(p))] + configure;
      assert calls[1..] == configure;
      calls
    else
      configure
  }
}
