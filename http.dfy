/**
 * The JSON responses the route handlers return with `NextResponse.json`:
 * a status code and one of the body shapes the three routes produce.
 */
module Http {
  import opened Types

  const OK: int := 200
  const CREATED: int := 201
  const BAD_REQUEST: int := 400
  const NOT_FOUND: int := 404
  const SERVER_ERROR: int := 500

  datatype Body =
    | ErrorBody(error: string)
    | ErrorWithDetails(error: string, details: string)
    | PublishedBody(success: bool, publishedUrl: string, platform: Platform)
    | VideoBody(video: Video)
    | VideoListBody(videos: seq<Video>)
    | EmailSentBody(success: bool, emailId: Option<string>)

  datatype Response = Response(status: int, body: Body)

  function Error(status: int, message: string): Response
  {
    Response(status, ErrorBody(message))
  }
}
