# AMP creative context: a Dafny model

An AMP ad creative runs inside a cross-origin iframe. It reaches the host page only through
`postMessage`. The creative-side `AmpContext` makes that channel usable:

- **Identity.** It reads a sentinel `"<depth>-<random>"` and walks the frame's `parent` links
  into an ancestor chain, top-most first. Entry `depth` of the chain is the *target window*, the
  one window the context sends to and accepts messages from.
- **Dispatch.** One `message` listener accepts only messages that come from the target, start
  with `amp-`, parse as JSON, and carry the context's sentinel. It routes each one by its `type`
  to a registry holding one callback per type, where the last registration wins.
- **Channel operations.** These are built from "post a typed request" and "register a callback
  for the typed reply": page visibility, intersection, the resize request and its success and
  denial replies, and, in the legacy variant, the metadata handshake.

The model covers two versions of the context:

- `3p/ampcontext.js`. The boot metadata and sentinel come from `JSON.parse(decodeURI(win.name))._context`.
- `ads/google/a4a/ampcontext.js`, the legacy script. The sentinel comes from the location hash
  parameter `amp3pSentinel=`, and the metadata arrives through an `embed-context` handshake. The
  script installs the context as `window.context ||` and then dispatches `windowContextCreated`.

It also covers AdSense's A4A configuration. This decides whether an ad takes the A4A rendering
pathway: the environment must qualify, a URL parameter `a4a=0|1|2` can force an experiment
branch, and the element is tagged with the branch id.

Layout:

- **Modules for the values.** `Js` holds JSON values, exceptions and an abstract JSON/`decodeURI`
  codec. `Text` holds digit runs. `SentinelFormat` holds the sentinel regular expressions.
  `Frames` holds the window graph and the ancestor walk. `Protocol` holds the message types, the
  wire forms and the listener's decision `Accepted`.
- **Classes for the state.** Each context variant is a class whose methods update the registry,
  the log of posts and the log of creative-callback calls; the 3p class also keeps the log of
  errors it reports (the legacy script reports none). The legacy script's
  frame is a class, and so are AdSense's host window and ad element.
- **Scenarios.** `AmpContextScenarios` replays the unit tests of `test/functional/test-amp-context.js`
  against the model, plus the legacy handshake and the AdSense decision.

Where the code does something its comments and tests do not suggest, the model follows the code:

- The sentinel expressions are not anchored. `"x12-3y"` is accepted with depth 12.
- A malformed sentinel in the 3p variant only logs an error. The listener is installed
  regardless, and the target stays undefined.
- A depth beyond the chain leaves the target undefined rather than failing construction. Every
  later verb that posts then throws a `TypeError` at `ampWindow.postMessage`; the resize callback
  registrations post nothing and still succeed.
- The legacy constructor throws a `TypeError` when the hash has no sentinel or the depth is out of
  range. Its final `setupMetadata` posts to an undefined target. No context is installed and no
  event is dispatched.
- The legacy listener never reports a callback's exception. `user` is not imported in that file,
  so the inner catch throws a `ReferenceError`, and the outer catch swallows it.
- An `a4a` value other than `0`, `1` or `2` (`02`, for example) makes `handleUrlParameters` throw a
  `ReferenceError` instead of warning, because `params` is not declared.

## Model

| member | source | states |
|---|---|---|
| Text.DecimalValue | 3p/ampcontext.js:41 | `Number()` of a string of decimal digits, leading zeros allowed: the depth the sentinel's first digit run denotes |
| Text.DigitRunEnd | 3p/ampcontext.js:37 | the end of the longest digit run from i: every character before it is a digit, the character at it is not, which is where a greedy `\d+` stops |
| SentinelFormat.MatchesAtIsPattern | 3p/ampcontext.js:37 | the computed match test holds at i exactly when the regular expression `<prefix>(\d+)-\d+` matches there with SOME split of the digit run |
| SentinelFormat.Captures | 3p/ampcontext.js:37-41 | group 1 of the match at i follows the prefix and has the sentinel format `<digits>-<digits>`; the depth is `Number()` of its leading digit run |
| SentinelFormat.FirstMatchFrom | 3p/ampcontext.js:37 | the leftmost position where the sentinel pattern matches: it matches there, at no earlier position, and None means no position matches |
| SentinelFormat.MatchSentinel | 3p/ampcontext.js:37-41 | `String.prototype.match` on the sentinel pattern: None exactly when no position matches, otherwise the captures of a real match |
| SentinelFormat.TestSentinelRuns | test/functional/test-amp-context.js:36 | the tests' sentinel `1-291921` has a depth run `1` and a random run reaching the end |
| SentinelFormat.TestSentinelHasDepthOne | test/functional/test-amp-context.js:35-46 | the tests' sentinel yields itself as the sentinel and depth 1 |
| SentinelFormat.UnanchoredMatchSkipsText | 3p/ampcontext.js:37-41 | the expression is unanchored: `x12-3y` matches, with sentinel `12-3` and depth 12 |
| Frames.Ancestors | 3p/ampcontext.js:42-46 | the reference definition of the chain: every parent met walking up from the frame until the top or an undefined window, top-most first |
| Frames.CollectAncestors | 3p/ampcontext.js:42-46 | the loop that unshifts each `win.parent` until the top or an undefined window returns exactly the ancestor chain, proved by loop invariants |
| Frames.AncestorChainShape | ads/google/a4a/ampcontext.js:45-49 | the chain has one entry per nesting hop; its last entry is the frame's parent; its first is the top window or undefined; each entry is the parent of the next |
| Frames.AncestorChainPositions | 3p/ampcontext.js:43-47 | entry i of the chain is the window `length - i` parent steps above the frame, so indexing counts down from the top |
| Frames.DepthCountsFromTop | 3p/ampcontext.js:39-47 | a target found at index depth lies below the nesting count, is `hops - depth` steps up from the frame, and depth 0 is the top window |
| Protocol.Accepted | 3p/ampcontext.js:91-98 | the listener's filter, shared by both variants: source is the target, data starts with `amp-`, the rest parses to a non-null payload whose sentinel equals the context's and whose type has a callback; it yields that callback and the payload |
| Protocol.CreativeCalls | 3p/ampcontext.js:174-175 | what running a registry entry calls in creative code: a direct callback gets the payload; a resize wrapper gets (requestedHeight, requestedWidth); the legacy writer calls nothing |
| Protocol.MarkedPayloadIsAccepted | 3p/ampcontext.js:88-105 | a message from the target carrying `'amp-' + JSON.stringify(p)`, with the context's sentinel and a registered type, runs that type's callback with p |
| Protocol.AcceptedPassedEveryCheck | 3p/ampcontext.js:91-98 | anything the listener runs came from the target, starts with `amp-`, parsed to a non-null payload with the context's sentinel, and is the registry's entry for the payload's type |
| Protocol.RegistrationKeepsOtherTypes | 3p/ampcontext.js:74-79 | registering a callback for one type leaves the routing of every message of another type unchanged |
| Protocol.LastRegistrationWins | 3p/ampcontext.js:74-79 | after a registration for type t, an accepted message of type t runs the new callback and never the replaced one |
| Protocol.StoppedTypeRunsNothing | 3p/ampcontext.js:78 | once the stop closure for type t has run, no message of type t runs any callback |
| Protocol.ResizeRepliesReachTheirOwnCallback | 3p/ampcontext.js:173-188 | with both resize wrappers registered, a size-changed reply calls only the success callback and a denied reply only the denial callback, each with (requestedHeight, requestedWidth) |
| ThirdPartyAmpContext.ReadBootContext | 3p/ampcontext.js:59-69 | `JSON.parse(decodeURI(win.name))._context` and its seven properties: a URIError exactly when decoding fails, a SyntaxError exactly when parsing fails, otherwise a TypeError or the metadata |
| ThirdPartyAmpContext.Constructs | 3p/ampcontext.js:37 | construction returns exactly when the boot data reads and its sentinel is a string, since `.match` on anything else throws |
| ThirdPartyAmpContext.ConstructionError | 3p/ampcontext.js:37-60 | a failed construction throws only a URIError, SyntaxError or TypeError |
| ThirdPartyAmpContext.BootContextRoundTrip | 3p/ampcontext.js:59-69 | a frame name holding `{_context: ctx}` as JSON reads back as ctx's seven properties, absent ones undefined |
| ThirdPartyAmpContext.AmpContext.constructor | 3p/ampcontext.js:27-52 | on readable boot data: the seven metadata fields come from `_context`; the depth, ancestor chain and target follow from the sentinel match; the listener is installed; registry, posts and calls are empty; the error log holds the malformed-sentinel error exactly when the sentinel does not match |
| ThirdPartyAmpContext.NewAmpContext | 3p/ampcontext.js:27-69 | construction returns exactly when the frame name decodes, parses to a value with a non-null `_context`, and that context's sentinel is a string; otherwise it throws the URIError, SyntaxError or TypeError the failing step raises |
| ThirdPartyAmpContext.AmpContext.RegisterCallback | 3p/ampcontext.js:74-79 | the type's entry becomes the callback (a creative callback or a resize wrapper), replacing any earlier one, other entries unchanged; the returned closure names the type |
| ThirdPartyAmpContext.AmpContext.Stop | 3p/ampcontext.js:78 | running the closure deletes its type's entry, whatever it holds now, and nothing else |
| ThirdPartyAmpContext.AmpContext.HandleMessage | 3p/ampcontext.js:88-111 | on one message, the callback `Accepted` selects is run with the payload; when it throws, one error naming the type is logged; a rejected message changes nothing |
| ThirdPartyAmpContext.AmpContext.Send | 3p/ampcontext.js:124-127 | posting to the target appends one structured message with the context's sentinel; an undefined target throws a TypeError and posts nothing |
| ThirdPartyAmpContext.AmpContext.ObservePageVisibility | 3p/ampcontext.js:121-130 | registers the callback under embed-state, then posts send-embed-state, and returns the stop closure; with no target it throws after registering |
| ThirdPartyAmpContext.AmpContext.ObserveIntersection | 3p/ampcontext.js:140-149 | registers the callback under intersection, then posts send-intersections, and returns the stop closure; with no target it throws after registering |
| ThirdPartyAmpContext.AmpContext.RequestResize | 3p/ampcontext.js:157-164 | posts one embed-size carrying width and height; the registry is untouched |
| ThirdPartyAmpContext.AmpContext.OnResizeSuccess | 3p/ampcontext.js:173-176 | registers, under embed-size-changed, the wrapper that calls the callback with the reply's requestedHeight and requestedWidth |
| ThirdPartyAmpContext.AmpContext.OnResizeDenied | 3p/ampcontext.js:185-188 | the same wrapper under embed-size-denied |
| A4aAmpContext.AmpContext.constructor | ads/google/a4a/ampcontext.js:18-54 | on a hash match, the sentinel is group 1, the depth is group 2 and the target is chain entry depth; otherwise all three are undefined; the listener is installed before any metadata request |
| A4aAmpContext.NewAmpContext | ads/google/a4a/ampcontext.js:18-56 | construction returns exactly when the hash resolves a target, and then holds the embed-context writer and one send-embed-context post to the target; otherwise it throws a TypeError |
| A4aAmpContext.AmpContext.SetupMetadata | ads/google/a4a/ampcontext.js:63-80 | registers the embed-context writer first, then posts send-embed-context, or throws a TypeError with no target |
| A4aAmpContext.AmpContext.WriteMetadata | ads/google/a4a/ampcontext.js:66-75 | the writer sets the seven metadata fields to the payload's properties and keeps the sentinel, so the context stays consistent with its hash |
| A4aAmpContext.AmpContext.RegisterCallback | ads/google/a4a/ampcontext.js:85-90 | last registration for a type wins; the closure names the type |
| A4aAmpContext.AmpContext.Stop | ads/google/a4a/ampcontext.js:89 | running the closure deletes its type's entry and nothing else |
| A4aAmpContext.AmpContext.Send | ads/google/a4a/ampcontext.js:134-137 | posting to the target appends one structured message with the current sentinel; an undefined target throws a TypeError |
| A4aAmpContext.AmpContext.HandleMessage | ads/google/a4a/ampcontext.js:98-122 | on one message, the callback `Accepted` selects is run: the writer updates the metadata, any other callback is logged as a call; the sentinel and the context's consistency are kept; errors are swallowed |
| A4aAmpContext.AmpContext.ObservePageVisibility | ads/google/a4a/ampcontext.js:132-140 | register under embed-state, then one send-embed-state post; returns the stop closure |
| A4aAmpContext.AmpContext.ObserveIntersection | ads/google/a4a/ampcontext.js:150-158 | register under intersection, then one send-intersections post; returns the stop closure |
| A4aAmpContext.AmpContext.ResizeAd | ads/google/a4a/ampcontext.js:166-173 | one embed-size post carrying width and height |
| A4aAmpContext.CreativeWindow.InstallContext | ads/google/a4a/ampcontext.js:175-178 | with the lines 5-7 wrapper: an existing `window.context` is kept and the event is dispatched; otherwise a new context is installed and the event dispatched; when construction throws, nothing is installed and no event is dispatched |
| AdsenseA4AConfig.IsAdsenseA4AValidEnvironment | extensions/amp-ad-network-adsense-impl/0.1/adsense-a4a-config.js:134-144 | native crypto (`subtle` or `webkitSubtle`), and a proxy origin or local development mode; its partner is `AdsenseIsA4AEnabled`, which changes nothing and answers false outside it |
| AdsenseA4AConfig.HostWindow.ForceExperimentBranch | extensions/amp-ad-network-adsense-impl/0.1/adsense-a4a-config.js:105 | the experiment's forced state becomes the given value; other experiments keep theirs |
| AdsenseA4AConfig.HostWindow.SetupPageExperiments | extensions/amp-ad-network-adsense-impl/0.1/adsense-a4a-config.js:69 | records one set-up of the given experiment table |
| AdsenseA4AConfig.AdElement.AddExperimentId | extensions/amp-ad-network-adsense-impl/0.1/adsense-a4a-config.js:77 | appends one experiment id to the element's ids |
| AdsenseA4AConfig.ParamAt | extensions/amp-ad-network-adsense-impl/0.1/adsense-a4a-config.js:99 | the parameter pattern at i: a `?` or `&`, the text `a4a=`, and at least one digit |
| AdsenseA4AConfig.FirstParamFrom | extensions/amp-ad-network-adsense-impl/0.1/adsense-a4a-config.js:99 | the leftmost position where the parameter pattern (a `?` or `&`, then `a4a=`, then digits) matches, or None when it matches nowhere further on |
| AdsenseA4AConfig.A4aParam | extensions/amp-ad-network-adsense-impl/0.1/adsense-a4a-config.js:99-100 | group 1 of the exec: absent exactly when the pattern matches nowhere; otherwise a non-empty run of digits |
| AdsenseA4AConfig.UrlParameterAction | extensions/amp-ad-network-adsense-impl/0.1/adsense-a4a-config.js:100-120 | no parameter does nothing; `0`, `1`, `2` force off, control, experiment; any other value throws a ReferenceError; a forced branch is always one of the two branch ids |
| AdsenseA4AConfig.HandleUrlParameters | extensions/amp-ad-network-adsense-impl/0.1/adsense-a4a-config.js:98-122 | forces the experiment's branch exactly as `UrlParameterAction` says, and changes nothing when it does nothing or throws |
| AdsenseA4AConfig.BranchesAreExclusive | extensions/amp-ad-network-adsense-impl/0.1/adsense-a4a-config.js:29-39 | the experiment is listed, and its control and experiment branch ids differ |
| AdsenseA4AConfig.LeftmostParameterWins | extensions/amp-ad-network-adsense-impl/0.1/adsense-a4a-config.js:99-116 | with two `a4a` parameters, the first decides: `?a4a=2&a4a=1` forces the experiment branch |
| AdsenseA4AConfig.ParameterNeedsSeparator | extensions/amp-ad-network-adsense-impl/0.1/adsense-a4a-config.js:99 | a name merely ending in `a4a` is not the parameter: `?xa4a=1` does nothing |
| AdsenseA4AConfig.UnknownValueThrows | extensions/amp-ad-network-adsense-impl/0.1/adsense-a4a-config.js:117-119 | `&a4a=02` throws a ReferenceError instead of warning |
| AdsenseA4AConfig.AdsenseIsA4AEnabled | extensions/amp-ad-network-adsense-impl/0.1/adsense-a4a-config.js:60-90 | true exactly in a valid environment whose URL parameter does not throw, in the experiment, on the experiment branch; throws exactly when the parameter throws there; an invalid environment or a throw changes nothing; otherwise the branch the parameter names is forced, the experiments are set up once, and the element gains the experiment id, the control id, or nothing |
| AmpContextScenarios.MockChain | test/functional/test-amp-context.js:14-27 | the tests' mock window, whose parent has no parent, has the chain `[undefined, parent]` |
| AmpContextScenarios.ReplyRouting | test/functional/test-amp-context.js:63-72 | a reply from the parent with the tests' sentinel runs the callback registered for its type with the payload itself, and runs nothing for an unregistered type |
| AmpContextScenarios.TestBootContext | test/functional/test-amp-context.js:255-268 | the frame name built by generateAttributes reads back as the test metadata, so construction returns |
| AmpContextScenarios.NewTestContext | test/functional/test-amp-context.js:35-46 | the seven metadata fields equal the test values, the target is the parent, and the registry and logs are empty |
| AmpContextScenarios.IntersectionScenario | test/functional/test-amp-context.js:48-87 | one send-intersections post, one spy call with the reply's payload and none after stopping; a throwing spy gives one logged error instead |
| AmpContextScenarios.PageVisibilityScenario | test/functional/test-amp-context.js:89-136 | one send-embed-state post, one spy call with the reply's payload and none after stopping |
| AmpContextScenarios.NewResizeTestContext | test/functional/test-amp-context.js:138-154 | both resize wrappers registered and one embed-size post with width 200 and height 100 |
| AmpContextScenarios.ResizeSuccessScenario | test/functional/test-amp-context.js:138-178 | the size-changed reply calls only the success spy, with undefined height and width |
| AmpContextScenarios.ResizeDeniedScenario | test/functional/test-amp-context.js:180-219 | the denied reply calls only the denial spy, with undefined height and width |
| AmpContextScenarios.ReplyHasNoRequestedSize | test/functional/test-amp-context.js:161-164 | the tests' reply payload has neither requestedHeight nor requestedWidth |
| AmpContextScenarios.TestHashMatchPosition | ads/google/a4a/ampcontext.js:39 | in `#amp3pSentinel=1-291921` the leftmost match starts after the `#`, and the depth run is `1` |
| AmpContextScenarios.TestHashRandomRun | ads/google/a4a/ampcontext.js:39 | the random digits run to the end of that hash |
| AmpContextScenarios.TestHashSentinel | ads/google/a4a/ampcontext.js:39-44 | that hash yields sentinel `1-291921` and depth 1 |
| AmpContextScenarios.TestHashTarget | ads/google/a4a/ampcontext.js:39-50 | the legacy context in the mock frame with that hash targets the parent |
| AmpContextScenarios.EmbedContextPayloadFields | ads/google/a4a/ampcontext.js:66-75 | the host's embed-context answer carries the test metadata, the tests' sentinel and the embed-context type |
| AmpContextScenarios.NewLegacyTestContext | ads/google/a4a/ampcontext.js:18-80 | the legacy context in the mock frame registers the writer and posts one send-embed-context to the parent |
| AmpContextScenarios.HandshakeScenario | ads/google/a4a/ampcontext.js:63-80 | after the host's embed-context reply, the seven metadata fields equal the test metadata, and the only post is the handshake request |
| AmpContextScenarios.InstallTwiceScenario | ads/google/a4a/ampcontext.js:175-178 | running the script twice keeps the first context and dispatches windowContextCreated twice |
| AmpContextScenarios.AdsenseScenario | extensions/amp-ad-network-adsense-impl/0.1/adsense-a4a-config.js:60-122 | on a valid page in the experiment, with the page branch supplied as the experiment branch: `?a4a=2&a4a=1` forces the experiment branch (the leftmost parameter), gives true, one set-up and the experiment id on the element; `&a4a=02` throws before anything is forced, set up or tagged |

## Left out

- JSON parsing, `JSON.stringify` and `decodeURI` are an abstract codec. The round-trip law is
  required only where the tests rely on it. String escaping and the grammar are not modelled.
- JSON numbers are integers, and `Number()` of a long digit run is exact. The model has no
  floating-point precision loss for huge depths.
- Loose `==` between the payload's `sentinel` and the context's is modelled as strict equality
  of JSON values. The source's `==` also accepts values of other types that convert to the same
  string, such as the array `["1-291921"]` or the number `42` against `"42"`.
- A4aAmpContext.AmpContext.HandleMessage: rejects a reply whose `sentinel` is only loosely equal
  to the context's. The source would run the writer, which then stores that non-string value as
  the sentinel (ads/google/a4a/ampcontext.js:72). So "sentinel unchanged" is promised for strict
  equality only.
- A4aAmpContext.AmpContext.WriteMetadata: requires the payload's `sentinel` to be strictly equal
  to the context's, so it does not cover the loosely equal replies above.
- Property reads see only a JSON object's own keys. Prototype-inherited names such as
  `constructor`, and a non-string `type`, select no callback.
- Message data that is not a string is not modelled. An inbound message is a source window plus
  a string.
- Callbacks are opaque: a call is recorded in a log. A callback that re-enters the context
  (registers, stops or posts from inside the listener) is not modelled.
- ThirdPartyAmpContext.AmpContext.HandleMessage: whether the creative's callback throws is a
  parameter rather than a property of the callback. It also runs no callback for a
  reply whose `sentinel` is only loosely equal to the context's.
- The legacy `listenFor` and `createdEventListener_` fields are never read and are not modelled.
- When the legacy constructor throws, its already-installed listener is left on the window with
  no context. The model records no listener for it.
- The `console.log` at load of `3p/ampcontext.js` is logging only and is not modelled.
- The traffic-experiment service is not modelled:
  - `isExperimentOn` and `getPageExperimentBranch` are parameters;
  - `forceExperimentBranch` and `setupPageExperiments` record their arguments;
  - `isProxyOrigin(win.location)` is a field of the host window;
  - `getMode().localDev` is a parameter.
- `dev.warn` is unreachable in the default branch, because the `ReferenceError` comes first.
- Some `calledWith` expectations in the unit tests are never asserted, and they differ from the
  code. The resize tests expect `send-embed-state` where the code posts `embed-size`. They expect
  the reply payload as the callback argument, where the wrapper passes its undefined
  `requestedHeight` and `requestedWidth`. The scenarios state what the code does.
- The truthiness test on `window.context` is modelled as present or absent. A falsy non-context
  value already in `window.context` is not modelled.
- `listen` from the event helper is modelled as adding one listener. Its options and unlisten
  function are not modelled.
