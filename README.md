# aiohttp_traversal views, modelled in Dafny

This project models the view classes of `aiohttp_traversal` (`aiohttp_traversal/ext/views.py`).
These are the base classes that a traversal router calls once it has resolved a resource:

- **MethodsView** lower-cases the request method and checks it against a fixed set of
  accepted names. When the name is accepted, the view awaits the handler of that name and
  returns the handler's result. Otherwise it raises the framework's method-not-allowed
  error, which carries the lowered method and the accepted set. The host turns that error
  into a 405 response (section 15.5.6 of RFC 9110).
- **RESTView** dispatches the same way. A streaming response returned by the handler goes
  back unchanged. Any other value is serialized into a JSON response with content type
  `application/json; charset=utf-8`.
- **WebsocketView** tries to negotiate a websocket session. When that fails, it answers with
  a plain-text response naming the URL. Otherwise it calls `on_open`, then passes each
  inbound text frame to `on_message` until the stream ends, the client closes the
  connection or an error arrives, skips binary frames, and calls `on_close` in a `finally`
  block.

The framework is replaced by plain values (`Http`):

- An exception becomes a `Raise` result.
- A request is its method, its URL, whether the handshake can be negotiated, and the
  finite sequence of messages that iterating over the websocket yields: text frames,
  binary frames, errors and the client's close.
- A handler, a callback or the serializer is given by what awaiting it yields. Handlers
  are looked up by name through a function from names to results, which stands for the
  source's attribute lookup.

The dispatch views are pure functions (`MethodsView`, `RestView`). The websocket view is a
class (`Websocket.WebsocketView`). Its `Call` method runs the receive loop step by step,
assigns the `ws` field, appends the callback calls to a trace, and is proved equal to the
specification function `Serve`. The lemmas about `Serve` state the lifecycle guarantees:

- the handshake comes first;
- `on_open` runs exactly once, before any message;
- `on_message` sees the text payloads in arrival order, up to the first error or close;
- `on_close` runs exactly once and last on every exit path after `on_open`;
- the session is returned only when no exception escaped.

The model also makes one behaviour of the accepted set visible. The set contains `option`,
but the standard method is named `OPTIONS` (section 9.3.7 of RFC 9110), which lowers to
`options`. A real OPTIONS request is therefore rejected with method-not-allowed and reaches
no handler. Only the non-standard method `OPTION` reaches the `option` handler. The lemma
`MethodsView.OptionsRejected` proves both facts. The model keeps the set exactly as written.

Three behaviours of the code that are easy to miss:

- An exception raised by `on_message` is not swallowed. The `try/finally` runs `on_close`
  and then lets the exception escape, so the session is not returned.
- An exception raised by `on_close` replaces any exception already escaping.
- The refusal body ends with a space after "protocol", as the code's format string does.

## Model

| member | source | states |
|---|---|---|
| `Ascii.LowerChar` | aiohttp_traversal/ext/views.py:81 | a lowered character is never a capital letter; a capital letter moves to its small letter, by the fixed ASCII offset, and every other character is kept |
| `Ascii.Lower` | aiohttp_traversal/ext/views.py:81 | the lowered method has the same length as the original; each character is the original character with any ASCII capital letter turned into its small letter |
| `Ascii.LowerFixesLowerStrings` | aiohttp_traversal/ext/views.py:81 | a lowered method contains no capital letter, and lowering leaves a string unchanged exactly when it has no capital letter |
| `Ascii.LowerIdempotent` | aiohttp_traversal/ext/views.py:81 | lowering twice gives the same result as lowering once |
| `Ascii.LowerCharCaseInsensitive` | aiohttp_traversal/ext/views.py:81 | two characters lower to the same character if and only if they are equal or one is the capital form of the other |
| `Ascii.LowerCaseInsensitive` | aiohttp_traversal/ext/views.py:81 | two methods lower to the same name if and only if they have the same length and at each position the characters are equal or one is the capital form of the other |
| `MethodsView.Dispatch` | aiohttp_traversal/ext/views.py:78-86 | at most one handler is invoked, the one named after the lowered method; it is invoked exactly when that name is in the accepted set, and its result is returned unchanged; otherwise nothing is invoked and method-not-allowed is raised with the lowered method and the full accepted set |
| `MethodsView.MethodsAreVerbNames` | aiohttp_traversal/ext/views.py:78 | the accepted set is exactly the names of the six verbs get, post, put, patch, delete and option, and every name is already lower-case |
| `MethodsView.DispatchMatchesParse` | aiohttp_traversal/ext/views.py:78-86 | dispatch agrees with a reference parser that compares the method with each verb name ignoring case: a match invokes exactly that verb's handler once and returns its result; no match raises method-not-allowed and invokes nothing |
| `MethodsView.DispatchIgnoresCase` | aiohttp_traversal/ext/views.py:81-84 | methods that differ only in letter case (GET, Get, get) are dispatched identically: same handlers invoked, same result |
| `MethodsView.OptionsRejected` | aiohttp_traversal/ext/views.py:78-86 | the standard OPTIONS method is rejected with method-not-allowed carrying "options" and invokes no handler, while "OPTION" invokes the option handler |
| `MethodsView.NotOverriddenAlwaysRaises` | aiohttp_traversal/ext/views.py:88-104 | with the inherited handlers, which are not overridden, an accepted method raises NotImplementedError and any other method raises method-not-allowed |
| `RestView.Call` | aiohttp_traversal/ext/views.py:116-117 | the REST view invokes exactly the handlers that method dispatch invokes |
| `RestView.Render` | aiohttp_traversal/ext/views.py:119-125 | an exception from dispatch passes through unchanged; a streaming response from the handler is returned as is; any successful result other than a JSON response is exactly the handler's own response |
| `RestView.RenderReturns` | aiohttp_traversal/ext/views.py:119-125 | the view returns a response if and only if the handler returned that same response object, or returned data whose serialization is that response's body, with content type application/json; charset=utf-8 |
| `RestView.RenderRaises` | aiohttp_traversal/ext/views.py:116-125 | the view raises an exception if and only if dispatch raised it, or the serializer raised it on the handler's data; exceptions are not wrapped |
| `RestView.CallOutcome` | aiohttp_traversal/ext/views.py:116-125 | for an accepted method the handler runs once: its own response comes back as is, its data comes back as a JSON response, and its exception or the serializer's exception propagates unchanged; for a method outside the set, method-not-allowed is raised and nothing is serialized |
| `Websocket.Refusal` | aiohttp_traversal/ext/views.py:51-54 | the refusal is a text/plain response whose body starts with the request URL |
| `Websocket.Receive` | aiohttp_traversal/ext/views.py:61-69 | the loop hands on_message at most one payload per message; it ends on an error only if the stream holds one; when on_message raised, the last payload handed over is the one whose call raised that exception |
| `Websocket.ReceiveDelivers` | aiohttp_traversal/ext/views.py:61-69 | on_message receives a prefix of the text payloads that precede the first error or close, in arrival order, and all of them unless a call raised |
| `Websocket.ReceiveOutcomes` | aiohttp_traversal/ext/views.py:61-69 | every on_message call but the last returned; the last one returned too unless the loop ended by an exception, and then it is the call that raised that exception |
| `Websocket.ReceiveStopsAt` | aiohttp_traversal/ext/views.py:61-69 | unless on_message raised, the loop ends on an error exactly when the first error or close in the stream is an error |
| `Websocket.Closing` | aiohttp_traversal/ext/views.py:70-73 | after the finally block the session is returned exactly when on_close returned and no on_message exception is escaping, and it is the prepared session; an exception from on_close always replaces any other |
| `Websocket.Serve` | aiohttp_traversal/ext/views.py:46-73 | one invocation: a non-empty trace starts with the handshake; a returned session only comes from an upgradable request, is prepared, and is returned after on_close has run |
| `Websocket.RefusedWithoutCallbacks` | aiohttp_traversal/ext/views.py:49-54 | a request that cannot be upgraded gets a text/plain response naming its URL and no callback runs; an upgradable request always runs callbacks |
| `Websocket.OpenedOnceFirst` | aiohttp_traversal/ext/views.py:56-58 | after a successful handshake, the trace begins with the handshake and on_open, each occurring exactly once |
| `Websocket.ClosedOnceLast` | aiohttp_traversal/ext/views.py:58-71 | once on_open has returned, on_close occurs exactly once and as the last event, however the loop ended; if on_open raised, neither on_message nor on_close runs |
| `Websocket.MessagesInOrder` | aiohttp_traversal/ext/views.py:60-71 | the on_message calls in the trace are exactly those of the receive loop: a prefix of the text payloads before the first error or close, all of them unless the last call raised, and the loop escaped exactly when the last call raised |
| `Websocket.SessionReturned` | aiohttp_traversal/ext/views.py:58-73 | the session is returned if and only if the handshake succeeded, on_open and on_close returned, and no on_message call raised; otherwise the exception from on_open escapes, else the one from on_close, else the one the raising on_message call raised; a returned session is the prepared one |
| `Websocket.WebsocketView.constructor` | aiohttp_traversal/ext/views.py:12-15 | a new view holds its request, no websocket response yet, and an empty trace |
| `Websocket.WebsocketView.ReceiveLoop` | aiohttp_traversal/ext/views.py:60-69 | the async-for loop, run message by message, leaves ws alone, ends exactly as the reference Receive does, and appends one message event per payload handed to on_message |
| `Websocket.WebsocketView.Call` | aiohttp_traversal/ext/views.py:46-73 | the receive loop, run step by step, sets the ws field to a session that is prepared exactly when the handshake can be negotiated; it extends the trace and returns exactly what the specification Serve gives, so every lemma about Serve holds of the method |

## Left out

- `WebsocketView.send` (lines 41-44) only forwards to the framework's `send_str`, which is foreign code. It is not modelled.
- The `print` of the websocket exception on an error frame (lines 67-68) is console output. The model only records that the loop stops.
- `resource` and `tail` (lines 12-15) are stored by the view and never read in this file. They are not modelled.
- `View.__call__` (lines 17-18) only raises NotImplementedError. It is not modelled as a separate view. The inherited per-verb handlers are modelled as `MethodsView.NotOverridden`.
- `AbstractView` lives in `aiohttp_traversal/abc`, which is not part of this model.
- Lower-casing covers ASCII only. Python's `str.lower` also lowers non-ASCII letters, and the model keeps those unchanged.
- The serializer (`json.dumps(...).encode('utf8')`, line 114) is a parameter that yields bytes or raises. JSON text and UTF-8 encoding are not modelled.
- The framework's handshake (`can_prepare`, `prepare`), frame parsing and response construction are not modelled. Negotiation is a boolean on the request, and `prepare` is assumed to succeed. The refusal body is kept as text, not encoded.
- The websocket response object is reduced to whether it was prepared. The constructor starts with no response, where the source has no `ws` attribute until the first call.
- `inbox` is the sequence of messages that `async for` over the websocket yields. That iteration ends at the client's close, so a close message ends the loop like the end of the stream. Ping and pong frames are answered by the framework's automatic ping handling and never reach the loop, so they are not modelled. Any other non-text, non-error message (a binary frame) is skipped.
- Async scheduling, `await`, cancellation and the event loop are not modelled. Each coroutine is one sequential step, and the inbound stream is a finite sequence.
- A callback is given by its outcome, and `on_message`'s outcome depends only on its payload. State that a subclass keeps between calls is not modelled.
