/** RESTView: a MethodsView whose handlers return either a response they
    built themselves, passed on untouched, or plain data, which the view
    serializes into a JSON response. The serializer is overridable and may
    raise, so it is a parameter. */
module RestView {
  import opened Http
  import opened Ascii
  import opened MethodsView

  const JsonContentType: string := "application/json; charset=utf-8"

  /** What a REST handler returns: a streaming response of its own, or data. */
  datatype Handled<+D> = Direct(response: Response) | Data(value: D)

  function JsonResponse(bytes: seq<byte>): (r: Response)
    ensures r.Response? && r.contentType == JsonContentType && r.body == Bytes(bytes)
  {
    Response(JsonContentType, Bytes(bytes))
  }

  /** What the view makes of the dispatch result. A response other than a
      JSON one can only be the handler's own. */
  function Render<D>(given: Result<Handled<D>>, serialize: D -> Result<seq<byte>>): (r: Result<Response>)
    ensures given.Raise? ==> r == Raise(given.exc)
    ensures given.Ok? && given.value.Direct? ==> r == Ok(given.value.response)
    ensures r.Ok? && !(r.value.Response? && r.value.contentType == JsonContentType) ==>
      given == Ok(Direct(r.value))
  {
    match given
    case Raise(e) => Raise(e)
    case Ok(Direct(response)) => Ok(response)
    case Ok(Data(v)) =>
      match serialize(v)
      case Raise(e) => Raise(e)
      case Ok(bytes) => Ok(JsonResponse(bytes))
  }

  /** The view's invocation: dispatch as MethodsView does, then render. */
  function Call<D>(verb: string, handlers: string -> Result<Handled<D>>,
                   serialize: D -> Result<seq<byte>>): (d: Dispatched<Response>)
    ensures d.invoked == Dispatch(verb, handlers).invoked
  {
    var inner := Dispatch(verb, handlers);
    Dispatched(inner.invoked, Render(inner.result, serialize))
  }

  /** The view returns a response exactly when the handler returned that
      very response, or returned data that serialized to the response's
      JSON body. */
  lemma RenderReturns<D>(given: Result<Handled<D>>, serialize: D -> Result<seq<byte>>, response: Response)
    ensures Render(given, serialize) == Ok(response) <==>
      || given == Ok(Direct(response))
      || (given.Ok? && given.value.Data? &&
          exists bytes :: serialize(given.value.value) == Ok(bytes) && response == JsonResponse(bytes))
  {
  }

  /** The view raises exactly what the dispatch raised, or what the
      serializer raised on the handler's data; nothing is wrapped. */
  lemma RenderRaises<D>(given: Result<Handled<D>>, serialize: D -> Result<seq<byte>>, e: Exception)
    ensures Render(given, serialize) == Raise(e) <==>
      || given == Raise(e)
      || (given.Ok? && given.value.Data? && serialize(given.value.value) == Raise(e))
  {
  }

  /** End to end: an accepted method runs its handler once; its own
      response comes back as is, its data as a JSON response, and an
      exception of the handler or of the serializer propagates; a method
      outside the set raises method-not-allowed without serializing. */
  lemma CallOutcome<D>(verb: string, handlers: string -> Result<Handled<D>>,
                       serialize: D -> Result<seq<byte>>)
    ensures Lower(verb) in Methods ==>
      var h := handlers(Lower(verb));
      && Call(verb, handlers, serialize).invoked == [Lower(verb)]
      && (h.Ok? && h.value.Direct? ==> Call(verb, handlers, serialize).result == Ok(h.value.response))
      && (h.Ok? && h.value.Data? && serialize(h.value.value).Ok? ==>
            Call(verb, handlers, serialize).result == Ok(JsonResponse(serialize(h.value.value).value)))
      && (h.Ok? && h.value.Data? && serialize(h.value.value).Raise? ==>
            Call(verb, handlers, serialize).result == Raise(serialize(h.value.value).exc))
      && (h.Raise? ==> Call(verb, handlers, serialize).result == Raise(h.exc))
    ensures Lower(verb) !in Methods ==>
      Call(verb, handlers, serialize) == Dispatched([], Raise(MethodNotAllowed(Lower(verb), Methods)))
  {
  }
}
