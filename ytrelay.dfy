/**
 * Types shared between the router and the upstream relay (ytrelay.go), and the two response
 * shapes the handlers send back.
 */
module YtRelay {
  import opened Wrappers

  /** The query parameters bound from a request; a record with no behaviour. */
  datatype Options = Options(
    channelId: string,
    eventType: string,
    fields: string,
    ids: string,
    maxResults: int,
    order: string,
    pageToken: string,
    part: string,
    playlistId: string,
    query: string,
    safeSearch: string,
    kind: string)

  /** The part of a video's metadata that holds its channel id. */
  datatype Snippet = Snippet(channelId: string)

  /**
   * One video of a video-list answer; only its snippet's channel id is ever inspected. The
   * upstream leaves the snippet out (a nil pointer) unless `part` asks for it.
   */
  datatype Video = Video(snippet: Option<Snippet>)

  /**
   * An upstream answer, opaque apart from its list of videos. `id` distinguishes answers
   * so that lemmas can say which answer ended up where.
   */
  datatype UpstreamResponse = UpstreamResponse(id: nat, items: seq<Video>)

  /** What a call into the upstream relay returns: an answer or an error message. */
  datatype UpstreamResult = UpstreamOk(resp: UpstreamResponse) | UpstreamErr(message: string)

  /**
   * A handler's payload: the error envelope `{"error": ...}`, a relayed answer, or no body
   * at all, which is what the server's panic recovery sends with its 500.
   */
  datatype Payload = ErrorResp(error: string) | Relayed(resp: UpstreamResponse) | NoBody
}
