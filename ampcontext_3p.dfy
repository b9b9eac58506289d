/** The creative-side context of 3p/ampcontext.js: boot metadata read from the frame's name, the
    sentinel and target window, the type-to-callback registry, the one message listener and the
    channel verbs. Everything outside the frame is a log: `posted` for postMessage calls to the
    target window, `calls` for calls into the creative's functions, `errors` for `user().error`. */
module ThirdPartyAmpContext {
  import opened Js
  import opened Frames
  import opened SentinelFormat
  import opened Protocol

  const MALFORMED_SENTINEL := "Hash does not match amp3pSentinel format"
  const CALLBACK_ERROR := "Error in registered callback "

  /** The seven properties of `_context` in the decoded frame name (`None` is `undefined`). */
  datatype BootContext = BootContext(
    location: Option<Value>,
    canonicalUrl: Option<Value>,
    clientId: Option<Value>,
    pageViewId: Option<Value>,
    sentinel: Option<Value>,
    startTime: Option<Value>,
    referrer: Option<Value>)

  /** The reads of `setupMetadata_`: `JSON.parse(decodeURI(win.name))._context` and its seven
      properties, or the error they throw. */
  function ReadBootContext(codec: Codec, name: string): (r: Completion<BootContext>)
    ensures r == Throw(URIError) <==> codec.decodeUri(name).None?
    ensures r == Throw(SyntaxError) <==> codec.decodeUri(name).Some? && codec.parse(codec.decodeUri(name).value).None?
    ensures r.Throw? ==> r.error in {URIError, SyntaxError, TypeError}
  {
    match codec.decodeUri(name)
    case None => Throw(URIError)
    case Some(text) =>
      match codec.parse(text)
      case None => Throw(SyntaxError)
      case Some(data) =>
        if data == Null then Throw(TypeError)
        else match Get(data, "_context")
          case None => Throw(TypeError)
          case Some(ctx) =>
            if ctx == Null then Throw(TypeError)
            else Normal(BootContext(
              Get(ctx, "location"), Get(ctx, "canonicalUrl"), Get(ctx, "clientId"),
              Get(ctx, "pageViewId"), Get(ctx, "sentinel"), Get(ctx, "startTime"),
              Get(ctx, "referrer")))
  }

  /** `new AmpContext(win)` returns, rather than throws, exactly when the boot data can be read
      and its sentinel is a string (`this.sentinel.match(...)` throws a TypeError otherwise). */
  predicate Constructs(codec: Codec, name: string) {
    var boot := ReadBootContext(codec, name);
    boot.Normal? && boot.value.sentinel.Some? && boot.value.sentinel.value.Str?
  }

  /** What `new AmpContext(win)` throws when it does not construct. */
  function ConstructionError(codec: Codec, name: string): (e: JsError)
    requires !Constructs(codec, name)
    ensures e in {URIError, SyntaxError, TypeError}
  {
    var boot := ReadBootContext(codec, name);
    if boot.Throw? then boot.error else TypeError
  }

  /** The frame name holding `{..., _context: ctx}` as JSON is read back field by field: the seven
      metadata fields are the ones the host put in `_context`. */
  lemma BootContextRoundTrip(codec: Codec, name: string, attributes: map<string, Value>, ctx: map<string, Value>)
    requires Lawful(codec)
    requires "_context" in attributes && attributes["_context"] == Obj(ctx)
    requires codec.decodeUri(name) == Some(codec.stringify(Obj(attributes)))
    ensures ReadBootContext(codec, name) == Normal(BootContext(
      Get(Obj(ctx), "location"), Get(Obj(ctx), "canonicalUrl"), Get(Obj(ctx), "clientId"),
      Get(Obj(ctx), "pageViewId"), Get(Obj(ctx), "sentinel"), Get(Obj(ctx), "startTime"),
      Get(Obj(ctx), "referrer")))
  {
    assert codec.parse(codec.stringify(Obj(attributes))) == Some(Obj(attributes));
  }

  class AmpContext {
    const win: Win
    const frames: WindowGraph

    // Set by the constructor and never reassigned.
    const location: Option<Value>
    const canonicalUrl: Option<Value>
    const clientId: Option<Value>
    const pageViewId: Option<Value>
    const sentinel: string
    const startTime: Option<Value>
    const referrer: Option<Value>

    const depth: Option<nat>
    const ancestors: Option<seq<Option<Win>>>
    const ampWindow: Option<Win>

    /** Whether setupEventListener_ installed the message listener. */
    const listening: bool

    var callbackFor: map<string, Callback>

    var posted: seq<Post>
    var calls: seq<Invocation>
    var errors: seq<string>

    /** The target follows from the sentinel and the window graph (nothing is set when the
        sentinel does not match), and the one listener is installed. */
    ghost predicate Valid() {
      && frames.Valid() && win in frames.parentOf
      && listening
      && match MatchSentinel(sentinel, "")
         case None => depth.None? && ancestors.None? && ampWindow.None?
         case Some(m) =>
           && depth == Some(m.depth)
           && ancestors == Some(Ancestors(frames, Some(win)))
           && ampWindow == At(ancestors.value, m.depth)
    }

    /** The state right after construction from the frame name. */
    ghost predicate Initialized(codec: Codec, name: string)
      reads this
      requires Constructs(codec, name)
    {
      var boot := ReadBootContext(codec, name).value;
      && location == boot.location && canonicalUrl == boot.canonicalUrl
      && clientId == boot.clientId && pageViewId == boot.pageViewId
      && boot.sentinel == Some(Str(sentinel))
      && startTime == boot.startTime && referrer == boot.referrer
      && callbackFor == map[] && posted == [] && calls == []
      && errors == (if MatchSentinel(sentinel, "").None? then [MALFORMED_SENTINEL] else [])
    }

    /** The constructor on its non-throwing path (see `NewAmpContext` for the other). */
    constructor (win: Win, frames: WindowGraph, codec: Codec, name: string)
      requires frames.Valid() && win in frames.parentOf
      requires Constructs(codec, name)
      ensures Valid() && Initialized(codec, name)
      ensures this.win == win && this.frames == frames
    {
      this.win := win;
      this.frames := frames;
      // setupMetadata_
      var boot := ReadBootContext(codec, name).value;
      var s := boot.sentinel.value.s;
      location := boot.location;
      canonicalUrl := boot.canonicalUrl;
      clientId := boot.clientId;
      pageViewId := boot.pageViewId;
      sentinel := s;
      startTime := boot.startTime;
      referrer := boot.referrer;
      var sentinelMatch := MatchSentinel(s, "");
      if sentinelMatch.Some? {
        depth := Some(sentinelMatch.value.depth);
        var chain := CollectAncestors(frames, win);
        ancestors := Some(chain);
        ampWindow := At(chain, sentinelMatch.value.depth);
        errors := [];
      } else {
        depth, ancestors, ampWindow := None, None, None;
        errors := [MALFORMED_SENTINEL];
      }
      // setupEventListener_: installed whether or not the sentinel matched
      listening := true;
      callbackFor, posted, calls := map[], [], [];
    }

    /** registerCallback_: the entry for messageType becomes callback (a second registration
        replaces the first) and every other entry stays; the returned closure deletes the key.
        Its callers register creative callbacks and resize wrappers only; the metadata writer
        belongs to the legacy script. */
    method RegisterCallback(messageType: string, callback: Callback) returns (stop: StopFn)
      requires !callback.EmbedContextWriter?
      modifies this`callbackFor
      ensures callbackFor == old(callbackFor)[messageType := callback]
      ensures stop == StopFn(messageType)
    {
      callbackFor := callbackFor[messageType := callback];
      stop := StopFn(messageType);
    }

    /** Running a closure that registration returned: deletes the key whatever it holds now, so a
        stale closure also removes a newer registration, and a second run changes nothing. */
    method Stop(stop: StopFn)
      modifies this`callbackFor
      ensures callbackFor == old(callbackFor) - {stop.messageType}
    {
      callbackFor := callbackFor - {stop.messageType};
    }

    /** The listener of setupEventListener_ on one message. It runs the callback `Accepted` selects,
        logs an error if that callback throws, and lets nothing escape: a parse failure, a null
        payload and a throwing callback all end in a `catch`. It never changes the registry or posts. */
    method HandleMessage(codec: Codec, msg: Message, callbackThrows: bool)
      modifies this`calls, this`errors
      ensures var accepted := Accepted(codec, ampWindow, Some(Str(sentinel)), callbackFor, msg);
        && calls == old(calls) + (if accepted.Some? then CreativeCalls(accepted.value.0, accepted.value.1) else [])
        && errors == old(errors) + (if accepted.Some? && callbackThrows
                                    then [CALLBACK_ERROR + TypeKey(accepted.value.1).value] else [])
    {
      if msg.source == ampWindow && StartsWith(msg.data, MARKER) {
        // try { JSON.parse(...) } catch: a SyntaxError ends here
        var parsed := codec.parse(msg.data[|MARKER|..]);
        if parsed.Some? && parsed.value != Null {
          var payload := parsed.value;
          var key := TypeKey(payload);
          if Get(payload, "sentinel") == Some(Str(sentinel)) && key.Some? && key.value in callbackFor {
            calls := calls + CreativeCalls(callbackFor[key.value], payload);
            if callbackThrows {
              // the inner catch reports the error and returns
              errors := errors + [CALLBACK_ERROR + key.value];
            }
          }
        }
        // a null payload throws a TypeError at `payload.sentinel`, caught by the same catch
      }
    }

    /** `this.ampWindow.postMessage({sentinel, type, ...}, '*')`: one post to the target, or a
        TypeError when the target is undefined. */
    method Send(messageType: string, size: Option<Size>) returns (r: Completion<()>)
      modifies this`posted
      ensures ampWindow.Some? ==> r == Normal(()) && posted == old(posted) + [Post(ampWindow.value, Some(Str(sentinel)), messageType, size)]
      ensures ampWindow.None? ==> r == Throw(TypeError) && posted == old(posted)
    {
      if ampWindow.None? {
        return Throw(TypeError);
      }
      posted := posted + [Post(ampWindow.value, Some(Str(sentinel)), messageType, size)];
      return Normal(());
    }

    /** observePageVisibility: registers the callback for embed-state first, then asks the target
        once with send-embed-state and returns the closure that stops the stream. */
    method ObservePageVisibility(callback: CallbackId) returns (r: Completion<StopFn>)
      modifies this`callbackFor, this`posted
      ensures callbackFor == old(callbackFor)[EMBED_STATE := Direct(callback)]
      ensures ampWindow.Some? ==>
                r == Normal(StopFn(EMBED_STATE))
                && posted == old(posted) + [Post(ampWindow.value, Some(Str(sentinel)), SEND_EMBED_STATE, None)]
      ensures ampWindow.None? ==> r == Throw(TypeError) && posted == old(posted)
    {
      var stop := RegisterCallback(EMBED_STATE, Direct(callback));
      var sent := Send(SEND_EMBED_STATE, None);
      if sent.Throw? {
        return Throw(sent.error);
      }
      return Normal(stop);
    }

    /** observeIntersection: registers the callback for intersection first, then asks the target
        once with send-intersections and returns the closure that stops the stream. */
    method ObserveIntersection(callback: CallbackId) returns (r: Completion<StopFn>)
      modifies this`callbackFor, this`posted
      ensures callbackFor == old(callbackFor)[INTERSECTION := Direct(callback)]
      ensures ampWindow.Some? ==>
                r == Normal(StopFn(INTERSECTION))
                && posted == old(posted) + [Post(ampWindow.value, Some(Str(sentinel)), SEND_INTERSECTIONS, None)]
      ensures ampWindow.None? ==> r == Throw(TypeError) && posted == old(posted)
    {
      var stop := RegisterCallback(INTERSECTION, Direct(callback));
      var sent := Send(SEND_INTERSECTIONS, None);
      if sent.Throw? {
        return Throw(sent.error);
      }
      return Normal(stop);
    }

    /** requestResize(height, width): one embed-size post carrying width and height; the registry
        is untouched. */
    method RequestResize(height: int, width: int) returns (r: Completion<()>)
      modifies this`posted
      ensures ampWindow.Some? ==>
                r == Normal(())
                && posted == old(posted) + [Post(ampWindow.value, Some(Str(sentinel)), EMBED_SIZE, Some(Size(width, height)))]
      ensures ampWindow.None? ==> r == Throw(TypeError) && posted == old(posted)
    {
      r := Send(EMBED_SIZE, Some(Size(width, height)));
    }

    /** onResizeSuccess: registers, under embed-size-changed, the wrapper that forwards
        (requestedHeight, requestedWidth); the closure is dropped, so it cannot be undone. */
    method OnResizeSuccess(callback: CallbackId)
      modifies this`callbackFor
      ensures callbackFor == old(callbackFor)[EMBED_SIZE_CHANGED := ResizeForward(callback)]
    {
      var _ := RegisterCallback(EMBED_SIZE_CHANGED, ResizeForward(callback));
    }

    /** onResizeDenied: the same under embed-size-denied. */
    method OnResizeDenied(callback: CallbackId)
      modifies this`callbackFor
      ensures callbackFor == old(callbackFor)[EMBED_SIZE_DENIED := ResizeForward(callback)]
    {
      var _ := RegisterCallback(EMBED_SIZE_DENIED, ResizeForward(callback));
    }
  }

  /** `new AmpContext(win)` with its throwing paths: decodeURI, JSON.parse, a missing `_context`,
      or a sentinel that is not a string. */
  method NewAmpContext(win: Win, frames: WindowGraph, codec: Codec, name: string) returns (r: Completion<AmpContext>)
    requires frames.Valid() && win in frames.parentOf
    ensures r.Normal? <==> Constructs(codec, name)
    ensures r.Normal? ==> fresh(r.value) && r.value.Valid() && r.value.Initialized(codec, name)
                          && r.value.win == win && r.value.frames == frames
    ensures r.Throw? ==> !Constructs(codec, name) && r.error == ConstructionError(codec, name)
  {
    if !Constructs(codec, name) {
      return Throw(ConstructionError(codec, name));
    }
    var context := new AmpContext(win, frames, codec, name);
    return Normal(context);
  }
}
