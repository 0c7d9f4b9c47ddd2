/** The dynamic client (client-go dynamic.Interface) as an oracle: each call
    is a round trip to an API server whose answer the model does not know,
    so every answer is a parameter. An empty namespace addresses a
    cluster-scoped resource. */
module Dynamic {
  import opened Errors
  import opened Unstructured
  import opened ApiTypes

  /** schema.GroupVersionResource */
  datatype Gvr = Gvr(group: string, version: string, resource: string)

  datatype Client = Client(
    get: (Gvr, string, string) -> Result<Object>,       // resource, namespace, name
    list: (Gvr, string) -> Result<seq<Object>>,         // resource, namespace
    create: (Gvr, string, Object) -> Result<Object>,    // resource, namespace, object sent
    update: (Gvr, string, Object) -> Result<Object>)    // resource, namespace, object sent

  /** An answer the API server can give: a success, not-found, or another
      status or transport failure. */
  predicate FromServer<T>(r: Result<T>) {
    r.Err? ==> r.error.NotFound? || r.error.ApiFailure?
  }

  /** The error half of a Go (object, error) pair whose object is dropped. */
  function ErrorOf<T>(r: Result<T>): (e: Option<Error>)
    ensures e.None? <==> r.Ok?
    ensures r.Err? ==> e == Some(r.error)
  {
    match r
    case Ok(_) => None
    case Err(err) => Some(err)
  }

  /** The encode-create-decode pattern of every helper that creates an
      object: the request is converted to its untyped form, sent, and the
      server's answer (not the request) is converted back and returned. */
  function CreateDecoded<T>(client: Client, gvr: Gvr, namespace: string, request: Decoded<Object>,
                            decode: Object -> Decoded<T>): (r: Result<T>)
    ensures request.Malformed? ==> r == Err(ConversionFailed(request.reason))
    ensures request.Decoded? && client.create(gvr, namespace, request.value).Err? ==>
      r == Err(client.create(gvr, namespace, request.value).error)
    ensures r.Ok? <==>
      request.Decoded? && client.create(gvr, namespace, request.value).Ok? &&
      decode(client.create(gvr, namespace, request.value).value).Decoded?
    ensures r.Ok? ==> decode(client.create(gvr, namespace, request.value).value) == Decoded(r.value)
  {
    match request
    case Malformed(reason) => Err(ConversionFailed(reason))
    case Decoded(u) =>
      match client.create(gvr, namespace, u)
      case Err(e) => Err(e)
      case Ok(created) => Decode(decode(created))
  }
}
