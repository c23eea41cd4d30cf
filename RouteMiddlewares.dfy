/** The catch-all handler for unknown routes. */
module RouteMiddlewares {
  import opened ResponseFactory

  const RoutePrefix: string := "The route "
  const RouteSuffix: string := " does not exist."

  /** `routeNotFound`: a 404 through the shared error envelope, code
      `ROUTE_NOT_FOUND`, naming the requested path in its details. */
  function RouteNotFound<D>(path: string, now: string): (r: HttpResponse<D>)
    ensures r.status == r.body.status == 404
    ensures r.body.message == "Route not found." && r.body.timestamp == now
    ensures r.body.payload.WithError? && r.body.payload.error.code == ErrorCode.RouteNotFound
    ensures r.body.payload.error.details == RoutePrefix + path + RouteSuffix
  {
    SendErrorResponse(ErrorResponse(404, "Route not found.", ErrorDetails(ErrorCode.RouteNotFound, RoutePrefix + path + RouteSuffix)), now)
  }

  /** The requested path can be read back out of the details, between the
      fixed prefix and suffix. */
  lemma RouteNotFoundNamesPath<D>(path: string, now: string)
    ensures var d := RouteNotFound<D>(path, now).body.payload.error.details;
            |d| == |RoutePrefix| + |path| + |RouteSuffix|
            && d[|RoutePrefix|..|d| - |RouteSuffix|] == path
  {}
}
