/** The runs of test/functional/test-amp-context.js, end to end on the model: the mock frame whose
    parent's parent is undefined, the frame name `JSON.stringify(generateAttributes('1-291921'))`,
    and replies `'amp-' + JSON.stringify({sentinel, type})` from the target window. The same
    set-up drives the legacy handshake, the `window.context` installer and the AdSense decision. */
module AmpContextScenarios {
  import opened Js
  import opened Text
  import opened Frames
  import opened SentinelFormat
  import opened Protocol
  import ThirdParty = ThirdPartyAmpContext
  import Legacy = A4aAmpContext
  import Adsense = AdsenseA4AConfig

  const TEST_SENTINEL := "1-291921"

  /** The mock creative window and its parent, the page that hosts the ad. */
  const CREATIVE: Win := 0
  const HOST: Win := 1
  const MOCK_FRAMES := WindowGraph(map[CREATIVE := Some(HOST), HOST := None], map[CREATIVE := 2, HOST := 1])

  /** The creative's spies, by identity. */
  const SPY: CallbackId := 1
  const SUCCESS_SPY: CallbackId := 2
  const DENIED_SPY: CallbackId := 3

  /** `generateAttributes(sentinel)._context`. */
  function TestContextFields(sentinel: string): map<string, Value> {
    map["location" := Str("foo.com"), "canonicalUrl" := Str("foo.com"), "clientId" := Str("123"),
        "pageViewId" := Str("1"), "sentinel" := Str(sentinel), "startTime" := Str("0"),
        "referrer" := Str("baz.net")]
  }

  /** `generateAttributes(sentinel)`. */
  function TestAttributes(sentinel: string): Value {
    Obj(map["_context" := Obj(TestContextFields(sentinel))])
  }

  /** The metadata every test expects to find on the context. */
  const TEST_METADATA := ThirdParty.BootContext(
    Some(Str("foo.com")), Some(Str("foo.com")), Some(Str("123")), Some(Str("1")),
    Some(Str(TEST_SENTINEL)), Some(Str("0")), Some(Str("baz.net")))

  /** `{sentinel: '1-291921', type}`. */
  function ReplyPayload(messageType: string): Value {
    Obj(map["sentinel" := Str(TEST_SENTINEL), "type" := Str(messageType)])
  }

  /** The message event the tests hand to the listener: the payload, marked, from the target. */
  function Reply(codec: Codec, messageType: string): Message {
    Message(Some(HOST), MARKER + codec.stringify(ReplyPayload(messageType)))
  }

  /** JSON that round-trips, and a frame name that decodeURI leaves as it is (it has no `%`). */
  ghost predicate TestCodec(codec: Codec) {
    && Lawful(codec)
    && codec.decodeUri(codec.stringify(TestAttributes(TEST_SENTINEL))) == Some(codec.stringify(TestAttributes(TEST_SENTINEL)))
  }

  /** The mock graph is well formed, and the walk from the creative collects `[undefined, parent]`. */
  lemma MockChain()
    ensures MOCK_FRAMES.Valid() && CREATIVE in MOCK_FRAMES.parentOf
    ensures Ancestors(MOCK_FRAMES, Some(CREATIVE)) == [None, Some(HOST)]
  {
    assert MOCK_FRAMES.StepCounted(CREATIVE) && MOCK_FRAMES.StepCounted(HOST);
    assert Ancestors(MOCK_FRAMES, Some(HOST)) == [None] by {
      assert Ancestors(MOCK_FRAMES, None) == [];
    }
  }

  /** A reply from the target with the test sentinel runs the callback registered for its type, with
      the payload itself; a reply for an unregistered type runs nothing. */
  lemma ReplyRouting(codec: Codec, registry: map<string, Callback>, messageType: string)
    requires Lawful(codec)
    ensures RoutedType(codec, Reply(codec, messageType)) == Some(messageType)
    ensures Accepted(codec, Some(HOST), Some(Str(TEST_SENTINEL)), registry, Reply(codec, messageType)) ==
              if messageType in registry then Some((registry[messageType], ReplyPayload(messageType))) else None
  {
    var data := Reply(codec, messageType).data;
    assert data[|MARKER|..] == codec.stringify(ReplyPayload(messageType));
    assert StartsWith(data, MARKER) by { assert data[..|MARKER|] == MARKER; }
    assert codec.parse(codec.stringify(ReplyPayload(messageType))) == Some(ReplyPayload(messageType));
    assert TypeKey(ReplyPayload(messageType)) == Some(messageType);
  }

  /** The tests' frame name reads back as the test metadata, so the constructor returns. */
  lemma TestBootContext(codec: Codec)
    requires TestCodec(codec)
    ensures ThirdParty.ReadBootContext(codec, codec.stringify(TestAttributes(TEST_SENTINEL))) == Normal(TEST_METADATA)
    ensures ThirdParty.Constructs(codec, codec.stringify(TestAttributes(TEST_SENTINEL)))
  {
    var fields := TestContextFields(TEST_SENTINEL);
    ThirdParty.BootContextRoundTrip(codec, codec.stringify(TestAttributes(TEST_SENTINEL)),
                                    map["_context" := Obj(fields)], fields);
  }

  /** "should add metadata to window.context": the seven fields come from the frame name, the
      sentinel's depth 1 selects the parent as the target, and nothing has been posted or logged. */
  method NewTestContext(codec: Codec) returns (context: ThirdParty.AmpContext)
    requires TestCodec(codec)
    ensures fresh(context)
    ensures context.ampWindow == Some(HOST) && context.sentinel == TEST_SENTINEL
    ensures context.location == TEST_METADATA.location && context.canonicalUrl == TEST_METADATA.canonicalUrl
    ensures context.clientId == TEST_METADATA.clientId && context.pageViewId == TEST_METADATA.pageViewId
    ensures context.startTime == TEST_METADATA.startTime && context.referrer == TEST_METADATA.referrer
    ensures context.callbackFor == map[] && context.posted == [] && context.calls == [] && context.errors == []
  {
    var name := codec.stringify(TestAttributes(TEST_SENTINEL));
    MockChain();
    TestSentinelHasDepthOne();
    TestBootContext(codec);
    var created := ThirdParty.NewAmpContext(CREATIVE, MOCK_FRAMES, codec, name);
    context := created.value;
    assert context.sentinel == TEST_SENTINEL;
    assert context.ampWindow == At([None, Some(HOST)], 1);
  }

  /** "should be able to send an intersection observer request": one send-intersections post, one
      call of the spy with the reply's payload, none after the stop closure ran. When the spy throws,
      the listener logs one error naming the type instead of letting it escape. */
  method IntersectionScenario(codec: Codec, spyThrows: bool) returns (posted: seq<Post>, calls: seq<Invocation>, errors: seq<string>)
    requires TestCodec(codec)
    ensures posted == [Post(HOST, Some(Str(TEST_SENTINEL)), SEND_INTERSECTIONS, None)]
    ensures calls == [Invocation(SPY, [Some(ReplyPayload(INTERSECTION))])]
    ensures errors == if spyThrows then [ThirdParty.CALLBACK_ERROR + INTERSECTION] else []
  {
    var context := NewTestContext(codec);
    var stop := context.ObserveIntersection(SPY);
    var reply := Reply(codec, INTERSECTION);
    ReplyRouting(codec, context.callbackFor, INTERSECTION);
    context.HandleMessage(codec, reply, spyThrows);
    context.Stop(stop.value);
    ReplyRouting(codec, context.callbackFor, INTERSECTION);
    context.HandleMessage(codec, reply, spyThrows);
    posted, calls, errors := context.posted, context.calls, context.errors;
  }

  /** "should send a pM and set callback when observePageVisibility()": the same shape for
      send-embed-state and embed-state. */
  method PageVisibilityScenario(codec: Codec) returns (posted: seq<Post>, calls: seq<Invocation>)
    requires TestCodec(codec)
    ensures posted == [Post(HOST, Some(Str(TEST_SENTINEL)), SEND_EMBED_STATE, None)]
    ensures calls == [Invocation(SPY, [Some(ReplyPayload(EMBED_STATE))])]
  {
    var context := NewTestContext(codec);
    var stop := context.ObservePageVisibility(SPY);
    var reply := Reply(codec, EMBED_STATE);
    ReplyRouting(codec, context.callbackFor, EMBED_STATE);
    context.HandleMessage(codec, reply, false);
    context.Stop(stop.value);
    ReplyRouting(codec, context.callbackFor, EMBED_STATE);
    context.HandleMessage(codec, reply, false);
    posted, calls := context.posted, context.calls;
  }

  /** The context of both resize tests: both wrappers registered, then the request, which posts
      embed-size with width 200 and height 100. */
  method NewResizeTestContext(codec: Codec) returns (context: ThirdParty.AmpContext)
    requires TestCodec(codec)
    ensures fresh(context)
    ensures context.ampWindow == Some(HOST) && context.sentinel == TEST_SENTINEL
    ensures context.callbackFor == map[EMBED_SIZE_CHANGED := ResizeForward(SUCCESS_SPY), EMBED_SIZE_DENIED := ResizeForward(DENIED_SPY)]
    ensures context.posted == [Post(HOST, Some(Str(TEST_SENTINEL)), EMBED_SIZE, Some(Size(200, 100)))]
    ensures context.calls == [] && context.errors == []
  {
    context := NewTestContext(codec);
    context.OnResizeSuccess(SUCCESS_SPY);
    context.OnResizeDenied(DENIED_SPY);
    var _ := context.RequestResize(100, 200);
  }

  /** "should call resize success callback on resize success": the size-changed reply reaches the
      success spy only, which the wrapper calls with the reply's `requestedHeight` and
      `requestedWidth`, both undefined in the tests' payload. */
  method ResizeSuccessScenario(codec: Codec) returns (calls: seq<Invocation>)
    requires TestCodec(codec)
    ensures calls == [Invocation(SUCCESS_SPY, [None, None])]
  {
    var context := NewResizeTestContext(codec);
    ReplyRouting(codec, context.callbackFor, EMBED_SIZE_CHANGED);
    ReplyHasNoRequestedSize(EMBED_SIZE_CHANGED);
    context.HandleMessage(codec, Reply(codec, EMBED_SIZE_CHANGED), false);
    calls := context.calls;
  }

  /** "should call resize denied callback on resize denied": the same for the denial spy. */
  method ResizeDeniedScenario(codec: Codec) returns (calls: seq<Invocation>)
    requires TestCodec(codec)
    ensures calls == [Invocation(DENIED_SPY, [None, None])]
  {
    var context := NewResizeTestContext(codec);
    ReplyRouting(codec, context.callbackFor, EMBED_SIZE_DENIED);
    ReplyHasNoRequestedSize(EMBED_SIZE_DENIED);
    context.HandleMessage(codec, Reply(codec, EMBED_SIZE_DENIED), false);
    calls := context.calls;
  }

  /** The tests' replies carry no `requestedHeight` or `requestedWidth`. */
  lemma ReplyHasNoRequestedSize(messageType: string)
    ensures Get(ReplyPayload(messageType), "requestedHeight") == None
    ensures Get(ReplyPayload(messageType), "requestedWidth") == None
  {
    assert "requestedHeight"[0] != "sentinel"[0] && "requestedHeight"[0] != "type"[0];
    assert "requestedWidth"[0] != "sentinel"[0] && "requestedWidth"[0] != "type"[0];
  }

  /** The hash the legacy variant reads its sentinel from. */
  const TEST_HASH := "#amp3pSentinel=1-291921"

  /** The hash parameter's name sits right after the `#` of the test hash. */
  lemma TestHashHasParam()
    ensures HasAt(TEST_HASH, 1, HASH_PARAM)
  {
    var s := TEST_HASH;
    assert |s| == 23;
    forall k | 0 <= k < |HASH_PARAM|
      ensures s[1..1 + |HASH_PARAM|][k] == HASH_PARAM[k]
    {
      assert s[1..1 + |HASH_PARAM|][k] == s[k + 1];
    }
  }

  /** The leftmost match in the test hash starts at 1, after the `#`, and its depth run is `1`. */
  lemma TestHashMatchPosition()
    ensures FirstMatchFrom(TEST_HASH, HASH_PARAM, 0) == Some(1)
    ensures DigitRunEnd(TEST_HASH, 16) == 16 && DigitRunEnd(TEST_HASH, 15) == 16
  {
    var s := TEST_HASH;
    assert !MatchesAt(s, HASH_PARAM, 0) by { assert s[0..|HASH_PARAM|][0] == '#'; }
    TestHashHasParam();
    assert DigitRunEnd(s, 15) == 16 by { assert DigitRunEnd(s, 16) == 16; }
    assert MatchesAt(s, HASH_PARAM, 1);
  }

  /** The digits after the dash run to the end of the test hash. */
  lemma TestHashRandomRun()
    ensures DigitRunEnd(TEST_HASH, 17) == 23
  {
    var s := TEST_HASH;
    assert DigitRunEnd(s, 23) == 23;
    assert DigitRunEnd(s, 22) == 23;
    assert DigitRunEnd(s, 21) == 23;
    assert DigitRunEnd(s, 20) == 23;
    assert DigitRunEnd(s, 19) == 23;
    assert DigitRunEnd(s, 18) == 23;
  }

  /** The hash parameter yields the test sentinel at depth 1; the `#` before it is skipped. */
  lemma TestHashSentinel()
    ensures MatchSentinel(TEST_HASH, HASH_PARAM) == Some(SentinelMatch(TEST_SENTINEL, 1))
  {
    var s := TEST_HASH;
    TestHashMatchPosition();
    TestHashRandomRun();
    assert Captures(s, HASH_PARAM, 1) == SentinelMatch(s[15..23], DecimalValue(s[15..16]));
    assert s[15..23] == TEST_SENTINEL;
    assert s[15..16] == "1";
    assert DecimalValue("1") == 1 by { assert "1"[..0] == ""; }
  }

  /** The legacy context in the mock frame with the test hash talks to the parent. */
  lemma TestHashTarget()
    ensures MOCK_FRAMES.Valid() && CREATIVE in MOCK_FRAMES.parentOf
    ensures Legacy.ResolvedTarget(MOCK_FRAMES, CREATIVE, TEST_HASH) == Some(HOST)
  {
    MockChain();
    TestHashSentinel();
    assert At([None, Some(HOST)], 1) == Some(HOST);
  }

  /** The host's answer to send-embed-context: the metadata and the embed-context type. */
  function EmbedContextPayload(): map<string, Value> {
    TestContextFields(TEST_SENTINEL)["type" := Str(EMBED_CONTEXT)]
  }

  /** Reading the seven metadata properties of that answer gives the test metadata. */
  lemma EmbedContextPayloadFields()
    ensures var p := Obj(EmbedContextPayload());
      && Get(p, "location") == TEST_METADATA.location && Get(p, "canonicalUrl") == TEST_METADATA.canonicalUrl
      && Get(p, "clientId") == TEST_METADATA.clientId && Get(p, "pageViewId") == TEST_METADATA.pageViewId
      && Get(p, "sentinel") == TEST_METADATA.sentinel && Get(p, "startTime") == TEST_METADATA.startTime
      && Get(p, "referrer") == TEST_METADATA.referrer
    ensures "sentinel" in EmbedContextPayload() && EmbedContextPayload()["sentinel"] == Str(TEST_SENTINEL)
    ensures "type" in EmbedContextPayload() && EmbedContextPayload()["type"] == Str(EMBED_CONTEXT)
  {
    var t := "type";
    assert t[0] != "location"[0] && t[0] != "canonicalUrl"[0] && t[0] != "clientId"[0] && t[0] != "pageViewId"[0];
    assert t[0] != "sentinel"[0] && t[0] != "startTime"[0] && t[0] != "referrer"[0];
  }

  /** The legacy context in the mock frame: construction registers the embed-context writer and
      posts one send-embed-context to the parent. */
  method NewLegacyTestContext() returns (context: Legacy.AmpContext)
    ensures fresh(context) && context.Valid()
    ensures context.ampWindow == Some(HOST) && context.sentinel == Some(Str(TEST_SENTINEL))
    ensures context.callbackFor == map[EMBED_CONTEXT := EmbedContextWriter]
    ensures context.posted == [Post(HOST, Some(Str(TEST_SENTINEL)), SEND_EMBED_CONTEXT, None)]
  {
    TestHashTarget();
    TestHashSentinel();
    var created := Legacy.NewAmpContext(CREATIVE, MOCK_FRAMES, TEST_HASH);
    context := created.value;
  }

  /** The legacy handshake: construction posts one send-embed-context to the parent, and the host's
      embed-context reply fills in the seven metadata fields, with the sentinel unchanged. */
  method HandshakeScenario(codec: Codec) returns (posted: seq<Post>, metadata: ThirdParty.BootContext)
    requires Lawful(codec)
    ensures posted == [Post(HOST, Some(Str(TEST_SENTINEL)), SEND_EMBED_CONTEXT, None)]
    ensures metadata == TEST_METADATA
  {
    var context := NewLegacyTestContext();
    EmbedContextPayloadFields();
    var reply := Message(Some(HOST), MARKER + codec.stringify(Obj(EmbedContextPayload())));
    MarkedPayloadIsAccepted(codec, HOST, TEST_SENTINEL, context.callbackFor, EmbedContextPayload(), EMBED_CONTEXT);
    context.HandleMessage(codec, reply);
    posted := context.posted;
    metadata := ThirdParty.BootContext(context.location, context.canonicalUrl, context.clientId,
                                       context.pageViewId, context.sentinel, context.startTime, context.referrer);
  }

  /** Running the legacy script twice in one frame: the first run installs a context and dispatches
      windowContextCreated; the second keeps that same context and dispatches again. */
  method InstallTwiceScenario() returns (dispatched: seq<string>, kept: bool)
    ensures dispatched == [Legacy.CONTEXT_CREATED, Legacy.CONTEXT_CREATED]
    ensures kept
  {
    TestHashTarget();
    var frame := new Legacy.CreativeWindow();
    var _ := frame.InstallContext(CREATIVE, MOCK_FRAMES, TEST_HASH);
    var first := frame.context;
    var _ := frame.InstallContext(CREATIVE, MOCK_FRAMES, TEST_HASH);
    dispatched, kept := frame.dispatched, frame.context == first;
  }

  /** The AdSense decision on a valid page in the experiment, whose page branch the experiment
      service reports as the experiment branch. With `?a4a=2&a4a=1` the leftmost parameter forces
      the experiment branch, the experiment is set up once, and the element is tagged with the
      experiment id; with `&a4a=02` the decision throws before anything is forced, set up or tagged. */
  method AdsenseScenario(forcedParam: bool)
    returns (r: Completion<bool>, forced: map<string, Adsense.Forced>, ids: seq<string>, setUp: nat)
    ensures forcedParam ==> r == Normal(true) && ids == [Adsense.EXPERIMENT_BRANCH] && setUp == 1
    ensures forcedParam ==> forced == map[Adsense.GOOGLE_A4A_EXPT_ID := Adsense.ForcedBranch(Adsense.EXPERIMENT_BRANCH)]
    ensures !forcedParam ==> r == Throw(ReferenceError) && forced == map[] && ids == [] && setUp == 0
  {
    Adsense.LeftmostParameterWins();
    Adsense.UnknownValueThrows();
    var search := if forcedParam then "?a4a=2&a4a=1" else "&a4a=02";
    var win := new Adsense.HostWindow(Some(Adsense.Crypto(true, false)), true, search);
    var element := new Adsense.AdElement();
    r := Adsense.AdsenseIsA4AEnabled(win, false, element, true, Some(Adsense.EXPERIMENT_BRANCH));
    forced, ids, setUp := win.forced, element.experimentIds, |win.setUp|;
  }
}
