/** What the two context variants share: the message types, the inbound wire form
    (`'amp-' + JSON`), the outbound structured messages, the callbacks a registry can hold, and
    the single listener's filter. */
module Protocol {
  import opened Js
  import opened Frames

  // The message types (3p/ampcontext.js `MessageType_`; the legacy file declares the same strings).
  const SEND_EMBED_STATE := "send-embed-state"
  const EMBED_STATE := "embed-state"
  const SEND_EMBED_CONTEXT := "send-embed-context"
  const EMBED_CONTEXT := "embed-context"
  const SEND_INTERSECTIONS := "send-intersections"
  const INTERSECTION := "intersection"
  const EMBED_SIZE := "embed-size"
  const EMBED_SIZE_CHANGED := "embed-size-changed"
  const EMBED_SIZE_DENIED := "embed-size-denied"

  /** The marker every inbound protocol message starts with. */
  const MARKER := "amp-"

  /** An inbound `message` event: its source window (`None` for a null or undefined source) and its
      data, restricted to strings. */
  datatype Message = Message(source: Option<Win>, data: string)

  /** A creative's callback function, by identity. */
  type CallbackId = nat

  /** What a registry entry holds: the creative's function itself, the resize wrapper
      `function(obj) { callback(obj.requestedHeight, obj.requestedWidth); }`, or the legacy
      handshake's function that copies the metadata onto the context. */
  datatype Callback = Direct(id: CallbackId) | ResizeForward(id: CallbackId) | EmbedContextWriter

  /** One call of a creative's function, with its arguments (`None` is `undefined`). */
  datatype Invocation = Invocation(callee: CallbackId, args: seq<Option<Value>>)

  /** The `width` and `height` properties of a resize request. */
  datatype Size = Size(width: int, height: int)

  /** One `ampWindow.postMessage({sentinel, type, [width, height]}, '*')`: a structured object, not a
      marked string. */
  datatype Post = Post(target: Win, sentinel: Option<Value>, messageType: string, size: Option<Size>)

  /** The closure `() => { delete callbackFor[messageType]; }` that registration returns. */
  datatype StopFn = StopFn(messageType: string)

  predicate StartsWith(s: string, p: string) {
    |p| <= |s| && s[..|p|] == p
  }

  /** The registry key `payload.type` selects, when it is a string. */
  function TypeKey(payload: Value): Option<string> {
    match Get(payload, "type")
    case Some(Str(t)) => Some(t)
    case _ => None
  }

  /** The calls of creative code that running `cb(payload)` makes. */
  function CreativeCalls(cb: Callback, payload: Value): seq<Invocation> {
    match cb
    case Direct(id) => [Invocation(id, [Some(payload)])]
    case ResizeForward(id) => [Invocation(id, [Get(payload, "requestedHeight"), Get(payload, "requestedWidth")])]
    case EmbedContextWriter => []
  }

  /** The listener's decision in both variants: the callback it runs and the payload it passes.
      A message is taken only when it comes from the target window, starts with the marker, parses
      to a non-null value whose `sentinel` equals the context's, and whose `type` has a callback. */
  function Accepted(codec: Codec, ampWindow: Option<Win>, sentinel: Option<Value>,
                    registry: map<string, Callback>, msg: Message): Option<(Callback, Value)>
  {
    if msg.source != ampWindow || !StartsWith(msg.data, MARKER) then None
    else match codec.parse(msg.data[|MARKER|..])
      case None => None
      case Some(payload) =>
        var key := TypeKey(payload);
        if payload != Null && Get(payload, "sentinel") == sentinel && key.Some? && key.value in registry
        then Some((registry[key.value], payload))
        else None
  }

  /** The message type an inbound message would be routed by, if it parses. */
  function RoutedType(codec: Codec, msg: Message): Option<string> {
    if !StartsWith(msg.data, MARKER) then None
    else match codec.parse(msg.data[|MARKER|..])
      case None => None
      case Some(payload) => TypeKey(payload)
  }

  /** The unit tests' round trip: the target window sends `'amp-' + JSON.stringify(p)` with the
      context's sentinel and a registered type, and the listener runs that type's callback with p. */
  lemma MarkedPayloadIsAccepted(codec: Codec, target: Win, sentinel: string,
                                registry: map<string, Callback>, p: map<string, Value>, t: string)
    requires Lawful(codec)
    requires "sentinel" in p && p["sentinel"] == Str(sentinel)
    requires "type" in p && p["type"] == Str(t) && t in registry
    ensures Accepted(codec, Some(target), Some(Str(sentinel)), registry,
                     Message(Some(target), MARKER + codec.stringify(Obj(p)))) == Some((registry[t], Obj(p)))
  {
    var data := MARKER + codec.stringify(Obj(p));
    assert data[|MARKER|..] == codec.stringify(Obj(p));
    assert StartsWith(data, MARKER) by { assert data[..|MARKER|] == MARKER; }
    assert codec.parse(codec.stringify(Obj(p))) == Some(Obj(p));
  }

  /** Everything the listener runs passed all five checks, and the callback is the registry's entry
      for the payload's type. */
  lemma AcceptedPassedEveryCheck(codec: Codec, ampWindow: Option<Win>, sentinel: Option<Value>,
                                 registry: map<string, Callback>, msg: Message, cb: Callback, payload: Value)
    requires Accepted(codec, ampWindow, sentinel, registry, msg) == Some((cb, payload))
    ensures msg.source == ampWindow && StartsWith(msg.data, MARKER)
    ensures codec.parse(msg.data[|MARKER|..]) == Some(payload) && payload != Null
    ensures Get(payload, "sentinel") == sentinel
    ensures RoutedType(codec, msg) == TypeKey(payload)
    ensures TypeKey(payload).Some? && TypeKey(payload).value in registry && cb == registry[TypeKey(payload).value]
  {
  }

  /** Registering a callback for one type leaves the routing of every other type as it was. */
  lemma RegistrationKeepsOtherTypes(codec: Codec, ampWindow: Option<Win>, sentinel: Option<Value>,
                                    registry: map<string, Callback>, t: string, cb: Callback, msg: Message)
    requires RoutedType(codec, msg) != Some(t)
    ensures Accepted(codec, ampWindow, sentinel, registry[t := cb], msg)
         == Accepted(codec, ampWindow, sentinel, registry, msg)
  {
  }

  /** After a registration for type t, every accepted message of type t runs the new callback:
      the previous one is dropped, not kept beside it. */
  lemma LastRegistrationWins(codec: Codec, ampWindow: Option<Win>, sentinel: Option<Value>,
                             registry: map<string, Callback>, t: string, cb: Callback, msg: Message)
    requires RoutedType(codec, msg) == Some(t)
    ensures Accepted(codec, ampWindow, sentinel, registry[t := cb], msg).Some? ==>
              Accepted(codec, ampWindow, sentinel, registry[t := cb], msg).value.0 == cb
  {
  }

  /** Once the closure for type t has run, no message of type t runs anything, whichever
      registration the key held. */
  lemma StoppedTypeRunsNothing(codec: Codec, ampWindow: Option<Win>, sentinel: Option<Value>,
                               registry: map<string, Callback>, t: string, msg: Message)
    requires RoutedType(codec, msg) == Some(t)
    ensures Accepted(codec, ampWindow, sentinel, registry - {t}, msg).None?
  {
  }

  /** With both resize wrappers registered, a size-changed reply calls only the success callback
      and a denied reply only the denial callback, each with (requestedHeight, requestedWidth). */
  lemma ResizeRepliesReachTheirOwnCallback(codec: Codec, ampWindow: Option<Win>, sentinel: Option<Value>,
                                           registry: map<string, Callback>, success: CallbackId,
                                           denied: CallbackId, msg: Message)
    requires EMBED_SIZE_CHANGED in registry && registry[EMBED_SIZE_CHANGED] == ResizeForward(success)
    requires EMBED_SIZE_DENIED in registry && registry[EMBED_SIZE_DENIED] == ResizeForward(denied)
    requires RoutedType(codec, msg) in {Some(EMBED_SIZE_CHANGED), Some(EMBED_SIZE_DENIED)}
    ensures var acc := Accepted(codec, ampWindow, sentinel, registry, msg);
      acc.Some? ==>
        CreativeCalls(acc.value.0, acc.value.1) ==
          [Invocation(if RoutedType(codec, msg) == Some(EMBED_SIZE_CHANGED) then success else denied,
                      [Get(acc.value.1, "requestedHeight"), Get(acc.value.1, "requestedWidth")])]
  {
  }
}
