// The HTTP status codes the endpoints answer with (rest_framework.status).

module Http {
  import opened Wrappers

  const HttpOk: nat := 200
  const HttpCreated: nat := 201
  const HttpNoContent: nat := 204
  const HttpBadRequest: nat := 400
  const HttpForbidden: nat := 403
  const HttpNotFound: nat := 404
  const HttpServerError: nat := 500

  /**
   * The status of a detail action whose `get_object()` either finds the row the requester may
   * see (`Some`, answered 200) or raises `Http404` (`None`).
   */
  function FoundStatus<T>(r: Option<T>): (code: nat)
    ensures code == HttpOk <==> r.Some?
    ensures code == HttpNotFound <==> r.None?
  {
    if r.Some? then HttpOk else HttpNotFound
  }
}
