/** WebsocketView: negotiates a websocket session on the request, then
    calls `on_open`, feeds each inbound text frame to `on_message` until the
    stream ends, the client closes it or an error arrives, and calls
    `on_close` however the loop ends. The callbacks are the points a subclass overrides; here each
    is given by what awaiting it gives (it returns, or it raises). The
    callbacks' calls are recorded as a trace of events. */
module Websocket {
  import opened Http

  datatype Event = Prepared | Opened | Message(data: string) | Closed

  /** What awaiting a callback gives; its return value is discarded. */
  datatype Outcome = Pass | Fail(exc: Exception)

  datatype Callbacks = Callbacks(onOpen: Outcome, onMessage: string -> Outcome, onClose: Outcome)

  /** The view's websocket response object; `prepared` once the handshake ran. */
  datatype Session = Session(prepared: bool)

  /** What the view returns: a plain response when the request cannot be
      upgraded, or the session once the connection is over. */
  datatype Reply = Refused(response: Response) | Upgraded(session: Session)

  /** How the receive loop ended: the iteration stopped (end of stream or a
      close), an error stopped it, or `on_message` raised. */
  datatype LoopEnd = Exhausted | ErrorBreak | Escaped(exc: Exception)

  /** The payloads handed to `on_message`, in order, and how the loop ended. */
  datatype Received = Received(delivered: seq<string>, end: LoopEnd)

  /** The callback trace of one invocation and what it returned or raised. */
  datatype Served = Served(trace: seq<Event>, result: Result<Reply>)

  /** The diagnostic response for a request that cannot be upgraded. */
  function Refusal(url: string): (r: Response)
    ensures r.Response? && r.contentType == "text/plain"
    ensures r.body.Text? && url <= r.body.text
  {
    Response("text/plain", Text(url + " was meant to be called through ws protocol "))
  }

  // Reference definitions for the receive loop.

  /** The messages that arrive before the first error or close. */
  function BeforeStop(inbox: seq<Msg>): seq<Msg> {
    if inbox == [] || inbox[0] == ErrorMsg || inbox[0] == CloseMsg then []
    else [inbox[0]] + BeforeStop(inbox[1..])
  }

  /** The payloads of the text frames, in arrival order. */
  function Texts(frames: seq<Msg>): seq<string> {
    if frames == [] then []
    else if frames[0].TextMsg? then [frames[0].data] + Texts(frames[1..])
    else Texts(frames[1..])
  }

  /** The receive loop: a text frame goes to `on_message` (and a raise
      leaves the loop), an error breaks the loop, a close ends the
      iteration, a binary frame is skipped. */
  function Receive(inbox: seq<Msg>, onMessage: string -> Outcome): (r: Received)
    ensures |r.delivered| <= |inbox|
    ensures r.end == ErrorBreak ==> ErrorMsg in inbox
    ensures r.end.Escaped? ==>
      r.delivered != [] && onMessage(r.delivered[|r.delivered| - 1]) == Fail(r.end.exc)
  {
    if inbox == [] then Received([], Exhausted)
    else match inbox[0]
      case TextMsg(data) =>
        (match onMessage(data)
         case Fail(e) => Received([data], Escaped(e))
         case Pass =>
           var rest := Receive(inbox[1..], onMessage);
           Received([data] + rest.delivered, rest.end))
      case ErrorMsg => Received([], ErrorBreak)
      case CloseMsg => Received([], Exhausted)
      case OtherMsg => Receive(inbox[1..], onMessage)
  }

  /** The loop hands `on_message` the text payloads before the first error
      or close, in order: all of them unless `on_message` raised. */
  lemma {:induction false} ReceiveDelivers(inbox: seq<Msg>, onMessage: string -> Outcome)
    ensures var rx := Receive(inbox, onMessage);
      && rx.delivered <= Texts(BeforeStop(inbox))
      && (!rx.end.Escaped? ==> rx.delivered == Texts(BeforeStop(inbox)))
  {
    if inbox != [] {
      ReceiveDelivers(inbox[1..], onMessage);
      assert inbox == [inbox[0]] + inbox[1..];
    }
  }

  /** Every call of `on_message` but the last returned; the last returned
      too unless the loop ended by its exception, so the loop stops right
      after the payload whose call raised. */
  lemma {:induction false} ReceiveOutcomes(inbox: seq<Msg>, onMessage: string -> Outcome)
    ensures var rx := Receive(inbox, onMessage);
      && (forall i :: 0 <= i < |rx.delivered| - 1 ==> onMessage(rx.delivered[i]) == Pass)
      && (rx.delivered != [] && !rx.end.Escaped? ==> onMessage(rx.delivered[|rx.delivered| - 1]) == Pass)
      && (rx.end.Escaped? ==>
            rx.delivered != [] && onMessage(rx.delivered[|rx.delivered| - 1]) == Fail(rx.end.exc))
  {
    if inbox != [] {
      ReceiveOutcomes(inbox[1..], onMessage);
    }
  }

  /** Unless `on_message` raised, the loop ends on an error exactly when
      the first error or close in the stream is an error. */
  lemma {:induction false} ReceiveStopsAt(inbox: seq<Msg>, onMessage: string -> Outcome)
    ensures var rx := Receive(inbox, onMessage);
      !rx.end.Escaped? ==>
        (rx.end == ErrorBreak <==>
           |BeforeStop(inbox)| < |inbox| && inbox[|BeforeStop(inbox)|] == ErrorMsg)
  {
    if inbox != [] {
      ReceiveStopsAt(inbox[1..], onMessage);
      if inbox[0] != ErrorMsg && inbox[0] != CloseMsg {
        assert BeforeStop(inbox) == [inbox[0]] + BeforeStop(inbox[1..]);
        assert |BeforeStop(inbox)| < |inbox| ==>
          inbox[|BeforeStop(inbox)|] == inbox[1..][|BeforeStop(inbox[1..])|];
      }
    }
  }

  /** What the loop has received so far followed by what the rest of the
      stream gives. */
  function After(delivered: seq<string>, rest: Received): Received {
    Received(delivered + rest.delivered, rest.end)
  }

  /** One step of the receive loop, at position `i` of the stream, having
      delivered `delivered` so far. */
  lemma ReceiveStep(inbox: seq<Msg>, i: nat, onMessage: string -> Outcome, delivered: seq<string>)
    requires i < |inbox|
    requires Receive(inbox, onMessage) == After(delivered, Receive(inbox[i..], onMessage))
    ensures var whole, next := Receive(inbox, onMessage), Receive(inbox[i + 1..], onMessage);
      match inbox[i]
      case TextMsg(data) =>
        if onMessage(data).Fail? then whole == Received(delivered + [data], Escaped(onMessage(data).exc))
        else whole == After(delivered + [data], next)
      case ErrorMsg => whole == Received(delivered, ErrorBreak)
      case CloseMsg => whole == Received(delivered, Exhausted)
      case OtherMsg => whole == After(delivered, next)
  {
    assert inbox[i..][1..] == inbox[i + 1..];
    if inbox[i].TextMsg? && onMessage(inbox[i].data).Pass? {
      var next := Receive(inbox[i + 1..], onMessage);
      assert delivered + ([inbox[i].data] + next.delivered) == delivered + [inbox[i].data] + next.delivered;
    }
  }

  // The callback trace.

  function Messages(payloads: seq<string>): (events: seq<Event>)
    ensures |events| == |payloads|
    ensures forall i :: 0 <= i < |events| ==> events[i] == Message(payloads[i])
  {
    seq(|payloads|, i requires 0 <= i < |payloads| => Message(payloads[i]))
  }

  /** A trace that gains one message event records one more payload. */
  lemma MessagesSnoc(before: seq<Event>, payloads: seq<string>, data: string)
    ensures before + Messages(payloads) + [Message(data)] == before + Messages(payloads + [data])
  {
    assert Messages(payloads + [data]) == Messages(payloads) + [Message(data)];
  }

  /** The payloads of the `on_message` calls in a trace, in order. */
  function Delivered(trace: seq<Event>): seq<string> {
    if trace == [] then []
    else if trace[0].Message? then [trace[0].data] + Delivered(trace[1..])
    else Delivered(trace[1..])
  }

  /** How many times an event occurs in a trace. */
  function Count(trace: seq<Event>, e: Event): nat {
    if trace == [] then 0 else (if trace[0] == e then 1 else 0) + Count(trace[1..], e)
  }

  lemma {:induction false} CountAppend(a: seq<Event>, b: seq<Event>, e: Event)
    ensures Count(a + b, e) == Count(a, e) + Count(b, e)
  {
    if a != [] {
      assert (a + b)[1..] == a[1..] + b;
      CountAppend(a[1..], b, e);
    } else {
      assert a + b == b;
    }
  }

  lemma {:induction false} DeliveredAppend(a: seq<Event>, b: seq<Event>)
    ensures Delivered(a + b) == Delivered(a) + Delivered(b)
  {
    if a != [] {
      assert (a + b)[1..] == a[1..] + b;
      DeliveredAppend(a[1..], b);
    } else {
      assert a + b == b;
    }
  }

  /** The message events carry the payloads back, and hold no other event. */
  lemma {:induction false} MessagesOnly(payloads: seq<string>)
    ensures Delivered(Messages(payloads)) == payloads
    ensures Count(Messages(payloads), Prepared) == 0
    ensures Count(Messages(payloads), Opened) == 0
    ensures Count(Messages(payloads), Closed) == 0
  {
    if payloads != [] {
      assert Messages(payloads)[1..] == Messages(payloads[1..]);
      MessagesOnly(payloads[1..]);
    }
  }

  /** What `finally` leaves: an exception from `on_close` replaces any other;
      otherwise an exception from `on_message` escapes; otherwise the
      prepared session is returned. */
  function Closing(end: LoopEnd, onClose: Outcome): (r: Result<Reply>)
    ensures r.Ok? <==> onClose.Pass? && !end.Escaped?
    ensures r.Ok? ==> r.value == Upgraded(Session(true))
    ensures onClose.Fail? ==> r == Raise(onClose.exc)
  {
    match onClose
    case Fail(e) => Raise(e)
    case Pass => if end.Escaped? then Raise(end.exc) else Ok(Upgraded(Session(true)))
  }

  /** One invocation of the view on a request. A returned session is a
      prepared one, and comes after `on_close`. */
  function Serve(request: Request, cb: Callbacks): (s: Served)
    ensures s.trace != [] ==> s.trace[0] == Prepared
    ensures s.result.Ok? && s.result.value.Upgraded? ==>
      && request.upgradable && s.result.value.session == Session(true)
      && s.trace != [] && s.trace[|s.trace| - 1] == Closed
  {
    if !request.upgradable then Served([], Ok(Refused(Refusal(request.url))))
    else
      match cb.onOpen
      case Fail(e) => Served([Prepared, Opened], Raise(e))
      case Pass =>
        var rx := Receive(request.inbox, cb.onMessage);
        Served([Prepared, Opened] + Messages(rx.delivered) + [Closed], Closing(rx.end, cb.onClose))
  }

  /** The trace of a session that opened, as the receive loop builds it. */
  lemma ServedTrace(before: seq<Event>, request: Request, cb: Callbacks, delivered: seq<string>)
    requires request.upgradable && cb.onOpen.Pass?
    requires Receive(request.inbox, cb.onMessage).delivered == delivered
    ensures before + [Prepared, Opened] + Messages(delivered) + [Closed] == before + Serve(request, cb).trace
  {
    assert Serve(request, cb).trace == [Prepared, Opened] + Messages(delivered) + [Closed];
  }

  /** A request that cannot be upgraded gets a plain-text response naming
      its URL, and no callback runs; an upgradable one always runs some. */
  lemma RefusedWithoutCallbacks(request: Request, cb: Callbacks)
    ensures Serve(request, cb).trace == [] <==> !request.upgradable
    ensures !request.upgradable ==>
      var r := Serve(request, cb).result;
      r.Ok? && r.value.Refused? && r.value.response.Response? &&
      r.value.response.contentType == "text/plain" &&
      r.value.response.body.Text? && request.url <= r.value.response.body.text
  {
  }

  /** After a successful handshake the trace starts with the handshake and
      `on_open`, each exactly once, before any message. */
  lemma OpenedOnceFirst(request: Request, cb: Callbacks)
    requires request.upgradable
    ensures var trace := Serve(request, cb).trace;
      && |trace| >= 2 && trace[0] == Prepared && trace[1] == Opened
      && Count(trace, Prepared) == 1 && Count(trace, Opened) == 1
  {
    var trace := Serve(request, cb).trace;
    assert trace == [Prepared, Opened] + trace[2..];
    CountAppend([Prepared, Opened], trace[2..], Prepared);
    CountAppend([Prepared, Opened], trace[2..], Opened);
    if cb.onOpen.Pass? {
      var rx := Receive(request.inbox, cb.onMessage);
      assert trace[2..] == Messages(rx.delivered) + [Closed];
      MessagesOnly(rx.delivered);
      CountAppend(Messages(rx.delivered), [Closed], Prepared);
      CountAppend(Messages(rx.delivered), [Closed], Opened);
    }
  }

  /** Once `on_open` has returned, `on_close` runs exactly once and last,
      whether the stream ran out, an error frame arrived or `on_message`
      raised; if `on_open` raised, the loop and `on_close` never run. */
  lemma ClosedOnceLast(request: Request, cb: Callbacks)
    requires request.upgradable
    ensures var trace := Serve(request, cb).trace;
      && Count(trace, Closed) == (if cb.onOpen.Pass? then 1 else 0)
      && (cb.onOpen.Pass? ==> trace[|trace| - 1] == Closed)
      && (cb.onOpen.Fail? ==> Delivered(trace) == [])
  {
    var trace := Serve(request, cb).trace;
    if cb.onOpen.Pass? {
      var rx := Receive(request.inbox, cb.onMessage);
      MessagesOnly(rx.delivered);
      CountAppend([Prepared, Opened] + Messages(rx.delivered), [Closed], Closed);
      CountAppend([Prepared, Opened], Messages(rx.delivered), Closed);
    }
  }

  /** `on_message` sees the text payloads that precede the first error
      frame, in arrival order: all of them unless one of its calls raised,
      and then exactly up to that call. */
  lemma MessagesInOrder(request: Request, cb: Callbacks)
    requires request.upgradable && cb.onOpen.Pass?
    ensures Delivered(Serve(request, cb).trace) == Receive(request.inbox, cb.onMessage).delivered
    ensures var delivered := Delivered(Serve(request, cb).trace);
      && delivered <= Texts(BeforeStop(request.inbox))
      && (Receive(request.inbox, cb.onMessage).end.Escaped? <==>
            delivered != [] && cb.onMessage(delivered[|delivered| - 1]).Fail?)
      && (!Receive(request.inbox, cb.onMessage).end.Escaped? ==>
            delivered == Texts(BeforeStop(request.inbox)))
  {
    var rx := Receive(request.inbox, cb.onMessage);
    ReceiveDelivers(request.inbox, cb.onMessage);
    ReceiveOutcomes(request.inbox, cb.onMessage);
    MessagesOnly(rx.delivered);
    DeliveredAppend([Prepared, Opened] + Messages(rx.delivered), [Closed]);
    DeliveredAppend([Prepared, Opened], Messages(rx.delivered));
    assert Delivered(Serve(request, cb).trace) == rx.delivered;
  }

  /** The session is returned exactly when the handshake succeeded and no
      callback raised; otherwise the exception that escapes is that of
      `on_open`, else that of `on_close`, else that of `on_message`. */
  lemma SessionReturned(request: Request, cb: Callbacks)
    ensures var s := Serve(request, cb);
      && ((s.result.Ok? && s.result.value.Upgraded?) <==>
            && request.upgradable
            && cb.onOpen.Pass? && cb.onClose.Pass?
            && forall i :: 0 <= i < |Delivered(s.trace)| ==> cb.onMessage(Delivered(s.trace)[i]).Pass?)
      && (request.upgradable && cb.onOpen.Fail? ==> s.result == Raise(cb.onOpen.exc))
      && (request.upgradable && cb.onOpen.Pass? && cb.onClose.Fail? ==> s.result == Raise(cb.onClose.exc))
      && (request.upgradable && cb.onOpen.Pass? && cb.onClose.Pass? &&
          Receive(request.inbox, cb.onMessage).end.Escaped? ==>
            s.result == Raise(Receive(request.inbox, cb.onMessage).end.exc))
      && (s.result.Ok? && s.result.value.Upgraded? ==> s.result.value.session == Session(true))
  {
    var s := Serve(request, cb);
    if request.upgradable {
      if cb.onOpen.Pass? {
        var rx := Receive(request.inbox, cb.onMessage);
        MessagesInOrder(request, cb);
        ReceiveDelivers(request.inbox, cb.onMessage);
        ReceiveOutcomes(request.inbox, cb.onMessage);
        var d := Delivered(s.trace);
        assert d == rx.delivered;
        if rx.end.Escaped? {
          assert !cb.onMessage(d[|d| - 1]).Pass?;
        }
      } else {
        ClosedOnceLast(request, cb);
      }
    }
  }

  /** The view object: the request it serves, its websocket response field
      (unset until the first call) and the trace of callback calls made so
      far. */
  class WebsocketView {
    const request: Request
    var ws: Option<Session>
    var trace: seq<Event>

    constructor (request: Request)
      ensures this.request == request && ws == None && trace == []
    {
      this.request := request;
      ws := None;
      trace := [];
    }

    /** The `async for` loop: each text payload goes to `on_message` and is
        recorded, until the stream ends, a close or an error arrives, or a
        call raises. */
    method ReceiveLoop(onMessage: string -> Outcome) returns (end: LoopEnd, ghost delivered: seq<string>)
      modifies this
      ensures ws == old(ws)
      ensures Receive(request.inbox, onMessage) == Received(delivered, end)
      ensures trace == old(trace) + Messages(delivered)
    {
      var inbox := request.inbox;
      var i := 0;
      end := Exhausted;
      delivered := [];
      while i < |inbox|
        invariant 0 <= i <= |inbox|
        invariant trace == old(trace) + Messages(delivered)
        invariant ws == old(ws)
        invariant end == Exhausted
        invariant Receive(inbox, onMessage) == After(delivered, Receive(inbox[i..], onMessage))
      {
        ReceiveStep(inbox, i, onMessage, delivered);
        var msg := inbox[i];
        if msg.TextMsg? {
          MessagesSnoc(old(trace), delivered, msg.data);
          trace := trace + [Message(msg.data)];
          delivered := delivered + [msg.data];
          var outcome := onMessage(msg.data);
          if outcome.Fail? {
            end := Escaped(outcome.exc);
            break;
          }
        } else if msg.ErrorMsg? {
          end := ErrorBreak;
          break;
        } else if msg.CloseMsg? {
          break;
        }
        i := i + 1;
      }
    }

    /** The view's invocation, step by step as the source runs it. */
    method Call(cb: Callbacks) returns (r: Result<Reply>)
      modifies this
      ensures ws == Some(Session(request.upgradable))
      ensures trace == old(trace) + Serve(request, cb).trace
      ensures r == Serve(request, cb).result
    {
      ws := Some(Session(false));
      if !request.upgradable {
        r := Ok(Refused(Refusal(request.url)));
        return;
      }
      ws := Some(Session(true));
      trace := trace + [Prepared];
      trace := trace + [Opened];
      ghost var handshake := trace;
      assert handshake == old(trace) + [Prepared, Opened];
      if cb.onOpen.Fail? {
        r := Raise(cb.onOpen.exc);
        assert Serve(request, cb).trace == [Prepared, Opened];
        return;
      }

      var end;
      ghost var delivered;
      end, delivered := ReceiveLoop(cb.onMessage);
      ServedTrace(old(trace), request, cb, delivered);
      trace := trace + [Closed];
      if cb.onClose.Fail? {
        r := Raise(cb.onClose.exc);
      } else if end.Escaped? {
        r := Raise(end.exc);
      } else {
        r := Ok(Upgraded(ws.value));
      }
    }
  }
}
