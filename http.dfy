/**
 * The parts of an incoming HTTP request and of a gin response that the cache layer looks at.
 */
module Http {
  const StatusOK := 200
  const StatusBadRequest := 400
  const StatusInternalServerError := 500

  /**
   * `path` is `Request.URL.Path`, `requestUri` is `Request.RequestURI` (path and raw query as
   * received) and `urlString` is `Request.URL.String()`. The source uses all three, in
   * different places, to name "the same" request.
   */
  datatype Request = Request(path: string, requestUri: string, urlString: string)
}
