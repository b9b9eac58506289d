/** The legacy context of ads/google/a4a/ampcontext.js: the sentinel comes from the location hash
    parameter `amp3pSentinel=`, the metadata arrives through a message handshake (send-embed-context
    answered by embed-context), and the script installs the context as `window.context` once. */
module A4aAmpContext {
  import opened Js
  import opened Frames
  import opened SentinelFormat
  import opened Protocol

  /** The event dispatched on the creative's window after the script ran. */
  const CONTEXT_CREATED := "windowContextCreated"

  /** The window the context will talk to, as the constructor resolves it from the hash:
      undefined when the hash has no sentinel or the depth is past the chain. */
  ghost function ResolvedTarget(frames: WindowGraph, win: Win, hash: string): Option<Win>
    requires frames.Valid() && win in frames.parentOf
  {
    match MatchSentinel(hash, HASH_PARAM)
    case None => None
    case Some(m) => At(Ancestors(frames, Some(win)), m.depth)
  }

  /** What the constructor derives from the hash: on a match, the sentinel is group 1, the depth
      `Number(group 2)`, the chain the walk up from win, and the target the chain's entry at the
      depth; without a match all four are undefined. */
  ghost predicate Resolved(frames: WindowGraph, win: Win, hash: string, sentinel: Option<Value>, depth: Option<nat>,
                           ancestors: Option<seq<Option<Win>>>, ampWindow: Option<Win>)
    requires frames.Valid() && win in frames.parentOf
  {
    match MatchSentinel(hash, HASH_PARAM)
    case None => sentinel.None? && depth.None? && ancestors.None? && ampWindow.None?
    case Some(m) =>
      && sentinel == Some(Str(m.sentinel))
      && depth == Some(m.depth)
      && ancestors == Some(Ancestors(frames, Some(win)))
      && ampWindow == At(ancestors.value, m.depth)
  }

  class AmpContext {
    const win: Win
    const frames: WindowGraph
    const hash: string

    // Set by the constructor and never reassigned.
    const depth: Option<nat>
    const ancestors: Option<seq<Option<Win>>>
    const ampWindow: Option<Win>
    /** Whether setupEventListener installed the message listener. */
    const listening: bool

    /** The sentinel; the embed-context reply writes it again (with the same value). */
    var sentinel: Option<Value>

    var location: Option<Value>
    var canonicalUrl: Option<Value>
    var clientId: Option<Value>
    var pageViewId: Option<Value>
    var startTime: Option<Value>
    var referrer: Option<Value>

    var callbackFor: map<string, Callback>

    var posted: seq<Post>
    var calls: seq<Invocation>

    /** The sentinel, depth and target follow from the hash (all undefined when it does not match),
        and the one listener is installed. */
    ghost predicate Valid()
      reads this`sentinel
    {
      && frames.Valid() && win in frames.parentOf
      && listening
      && Resolved(frames, win, hash, sentinel, depth, ancestors, ampWindow)
    }

    /** The constructor up to, and not including, its call of setupMetadata: the sentinel is
        group 1 after `amp3pSentinel=` in the hash, the depth its leading digit run, and the
        listener is installed; the metadata stays undefined. */
    constructor (win: Win, frames: WindowGraph, hash: string)
      requires frames.Valid() && win in frames.parentOf
      ensures Valid()
      ensures this.win == win && this.frames == frames && this.hash == hash
      ensures ampWindow == ResolvedTarget(frames, win, hash)
      ensures callbackFor == map[] && posted == [] && calls == []
      ensures location.None? && canonicalUrl.None? && clientId.None? && pageViewId.None?
      ensures startTime.None? && referrer.None?
    {
      this.win := win;
      this.frames := frames;
      this.hash := hash;
      callbackFor := map[];
      var hashMatch := MatchSentinel(hash, HASH_PARAM);
      if hashMatch.Some? {
        sentinel := Some(Str(hashMatch.value.sentinel));
        depth := Some(hashMatch.value.depth);
        var chain := CollectAncestors(frames, win);
        ancestors := Some(chain);
        ampWindow := At(chain, hashMatch.value.depth);
      } else {
        sentinel, depth, ancestors, ampWindow := None, None, None, None;
      }
      location, canonicalUrl, clientId, pageViewId, startTime, referrer := None, None, None, None, None, None;
      posted, calls := [], [];
      // setupEventListener comes before setupMetadata
      listening := true;
    }

    /** registerCallback: last write wins; the closure deletes the key whatever it holds. */
    method RegisterCallback(messageType: string, callback: Callback) returns (stop: StopFn)
      modifies this`callbackFor
      ensures callbackFor == old(callbackFor)[messageType := callback]
      ensures stop == StopFn(messageType)
    {
      callbackFor := callbackFor[messageType := callback];
      stop := StopFn(messageType);
    }

    /** Running a closure that registration returned: an unconditional delete. */
    method Stop(stop: StopFn)
      modifies this`callbackFor
      ensures callbackFor == old(callbackFor) - {stop.messageType}
    {
      callbackFor := callbackFor - {stop.messageType};
    }

    /** `this.ampWindow.postMessage({sentinel, type, ...}, '*')`. */
    method Send(messageType: string, size: Option<Size>) returns (r: Completion<()>)
      modifies this`posted
      ensures ampWindow.Some? ==> r == Normal(()) && posted == old(posted) + [Post(ampWindow.value, sentinel, messageType, size)]
      ensures ampWindow.None? ==> r == Throw(TypeError) && posted == old(posted)
    {
      if ampWindow.None? {
        return Throw(TypeError);
      }
      posted := posted + [Post(ampWindow.value, sentinel, messageType, size)];
      return Normal(());
    }

    /** setupMetadata: with the listener already installed, registers the embed-context writer
        before posting exactly one send-embed-context; throws when the target is undefined. */
    method SetupMetadata() returns (r: Completion<()>)
      modifies this`callbackFor, this`posted
      ensures callbackFor == old(callbackFor)[EMBED_CONTEXT := EmbedContextWriter]
      ensures ampWindow.Some? ==> r == Normal(()) && posted == old(posted) + [Post(ampWindow.value, sentinel, SEND_EMBED_CONTEXT, None)]
      ensures ampWindow.None? ==> r == Throw(TypeError) && posted == old(posted)
    {
      var _ := RegisterCallback(EMBED_CONTEXT, EmbedContextWriter);
      r := Send(SEND_EMBED_CONTEXT, None);
    }

    /** The function setupMetadata registers for embed-context: it copies the seven metadata
        properties of the reply onto the context. The listener calls it only with a reply whose
        `sentinel` equals the context's, so the resolution from the hash still holds afterwards. */
    method WriteMetadata(metadata: Value)
      requires Valid() && Get(metadata, "sentinel") == sentinel
      modifies this`sentinel, this`location, this`canonicalUrl, this`clientId,
               this`pageViewId, this`startTime, this`referrer
      ensures Valid() && sentinel == old(sentinel)
      ensures location == Get(metadata, "location") && canonicalUrl == Get(metadata, "canonicalUrl")
      ensures clientId == Get(metadata, "clientId") && pageViewId == Get(metadata, "pageViewId")
      ensures startTime == Get(metadata, "startTime") && referrer == Get(metadata, "referrer")
    {
      location := Get(metadata, "location");
      canonicalUrl := Get(metadata, "canonicalUrl");
      clientId := Get(metadata, "clientId");
      pageViewId := Get(metadata, "pageViewId");
      sentinel := Get(metadata, "sentinel");
      startTime := Get(metadata, "startTime");
      referrer := Get(metadata, "referrer");
    }

    /** The listener of setupEventListener on one message. The callback `Accepted` selects runs;
        for embed-context that copies the seven metadata fields of the payload onto the context,
        and the sentinel it copies is the one the filter already compared, so it cannot change.
        Nothing escapes: when a creative callback throws, the inner catch calls `user()`, which
        this file never imports; the ReferenceError lands in the outer catch and nothing is logged. */
    method HandleMessage(codec: Codec, msg: Message)
      requires Valid()
      modifies this`calls, this`sentinel, this`location, this`canonicalUrl, this`clientId,
               this`pageViewId, this`startTime, this`referrer
      ensures Valid()
      ensures sentinel == old(sentinel)
      ensures var accepted := Accepted(codec, ampWindow, sentinel, callbackFor, msg);
        && calls == old(calls) + (if accepted.Some? then CreativeCalls(accepted.value.0, accepted.value.1) else [])
        && if accepted.Some? && accepted.value.0 == EmbedContextWriter then
             var metadata := accepted.value.1;
             && location == Get(metadata, "location") && canonicalUrl == Get(metadata, "canonicalUrl")
             && clientId == Get(metadata, "clientId") && pageViewId == Get(metadata, "pageViewId")
             && startTime == Get(metadata, "startTime") && referrer == Get(metadata, "referrer")
           else
             && location == old(location) && canonicalUrl == old(canonicalUrl)
             && clientId == old(clientId) && pageViewId == old(pageViewId)
             && startTime == old(startTime) && referrer == old(referrer)
    {
      // the listener's checks, in the order it runs them, are those of `Accepted`
      var accepted := Accepted(codec, ampWindow, sentinel, callbackFor, msg);
      if accepted.Some? {
        var callback, metadata := accepted.value.0, accepted.value.1;
        AcceptedPassedEveryCheck(codec, ampWindow, sentinel, callbackFor, msg, callback, metadata);
        if callback == EmbedContextWriter {
          WriteMetadata(metadata);
        } else {
          calls := calls + CreativeCalls(callback, metadata);
        }
      }
    }

    /** observePageVisibility: register for embed-state, then one send-embed-state post. */
    method ObservePageVisibility(callback: CallbackId) returns (r: Completion<StopFn>)
      modifies this`callbackFor, this`posted
      ensures callbackFor == old(callbackFor)[EMBED_STATE := Direct(callback)]
      ensures ampWindow.Some? ==>
                r == Normal(StopFn(EMBED_STATE))
                && posted == old(posted) + [Post(ampWindow.value, sentinel, SEND_EMBED_STATE, None)]
      ensures ampWindow.None? ==> r == Throw(TypeError) && posted == old(posted)
    {
      var stop := RegisterCallback(EMBED_STATE, Direct(callback));
      var sent := Send(SEND_EMBED_STATE, None);
      if sent.Throw? {
        return Throw(sent.error);
      }
      return Normal(stop);
    }

    /** observeIntersection: register for intersection, then one send-intersections post. */
    method ObserveIntersection(callback: CallbackId) returns (r: Completion<StopFn>)
      modifies this`callbackFor, this`posted
      ensures callbackFor == old(callbackFor)[INTERSECTION := Direct(callback)]
      ensures ampWindow.Some? ==>
                r == Normal(StopFn(INTERSECTION))
                && posted == old(posted) + [Post(ampWindow.value, sentinel, SEND_INTERSECTIONS, None)]
      ensures ampWindow.None? ==> r == Throw(TypeError) && posted == old(posted)
    {
      var stop := RegisterCallback(INTERSECTION, Direct(callback));
      var sent := Send(SEND_INTERSECTIONS, None);
      if sent.Throw? {
        return Throw(sent.error);
      }
      return Normal(stop);
    }

    /** resizeAd(height, width): one embed-size post carrying width and height. */
    method ResizeAd(height: int, width: int) returns (r: Completion<()>)
      modifies this`posted
      ensures ampWindow.Some? ==>
                r == Normal(())
                && posted == old(posted) + [Post(ampWindow.value, sentinel, EMBED_SIZE, Some(Size(width, height)))]
      ensures ampWindow.None? ==> r == Throw(TypeError) && posted == old(posted)
    {
      r := Send(EMBED_SIZE, Some(Size(width, height)));
    }
  }

  /** `new AmpContext()`: the constructor including its final setupMetadata call, which throws
      at the post when the target is undefined; the listener was installed by then. */
  method NewAmpContext(win: Win, frames: WindowGraph, hash: string) returns (r: Completion<AmpContext>)
    requires frames.Valid() && win in frames.parentOf
    ensures r.Normal? <==> ResolvedTarget(frames, win, hash).Some?
    ensures r.Throw? ==> r.error == TypeError
    ensures r.Normal? ==>
              && fresh(r.value) && r.value.Valid()
              && r.value.win == win && r.value.frames == frames && r.value.hash == hash
              && r.value.ampWindow == ResolvedTarget(frames, win, hash)
              && r.value.callbackFor == map[EMBED_CONTEXT := EmbedContextWriter]
              && r.value.posted == [Post(r.value.ampWindow.value, r.value.sentinel, SEND_EMBED_CONTEXT, None)]
              && r.value.calls == []
  {
    var context := new AmpContext(win, frames, hash);
    var handshake := context.SetupMetadata();
    if handshake.Throw? {
      return Throw(handshake.error);
    }
    return Normal(context);
  }

  /** The creative frame's global object, as far as the script touches it. */
  class CreativeWindow {
    var context: Option<AmpContext>
    var dispatched: seq<string>

    /** A frame before the script runs: no `window.context`, no event dispatched. */
    constructor ()
      ensures context.None? && dispatched == []
    {
      context := None;
      dispatched := [];
    }

    /** The script body: `window.context = window.context || (function() {...})()` followed by
        `window.dispatchEvent(windowContextCreated)`. A context is built only when none is there;
        if building it throws, nothing is assigned and no event is dispatched. */
    method InstallContext(win: Win, frames: WindowGraph, hash: string) returns (r: Completion<()>)
      requires frames.Valid() && win in frames.parentOf
      modifies this
      ensures old(context).Some? ==>
                context == old(context) && r == Normal(()) && dispatched == old(dispatched) + [CONTEXT_CREATED]
      ensures old(context).None? && ResolvedTarget(frames, win, hash).Some? ==>
                && context.Some? && fresh(context.value) && context.value.Valid()
                && context.value.ampWindow == ResolvedTarget(frames, win, hash)
                && r == Normal(()) && dispatched == old(dispatched) + [CONTEXT_CREATED]
      ensures old(context).None? && ResolvedTarget(frames, win, hash).None? ==>
                context.None? && r == Throw(TypeError) && dispatched == old(dispatched)
    {
      if context.None? {
        var created := NewAmpContext(win, frames, hash);
        if created.Throw? {
          return Throw(created.error);
        }
        context := Some(created.value);
      }
      dispatched := dispatched + [CONTEXT_CREATED];
      return Normal(());
    }
  }
}
