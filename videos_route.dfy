/**
 * app/api/videos/route.ts: `GET` lists videos with optional client and
 * status filters, newest first, over an offset/limit window; `POST`
 * validates the three required fields and inserts a new record as a draft.
 */
module VideosRoute {
  import opened Types
  import opened Http
  import opened Store

  const DEFAULT_LIMIT: nat := 50
  const DEFAULT_OFFSET: nat := 0

  /**
   * The JSON body of a create request, as destructured by the handler.
   * `status` stands for every field the handler does not pick up.
   */
  datatype CreateBody = CreateBody(
    title: Option<string>,
    description: Option<string>,
    client_id: Option<string>,
    video_url: Option<string>,
    thumbnail_url: Option<string>,
    duration: Option<nat>,
    file_size: Option<nat>,
    mime_type: Option<string>,
    metadata: Option<Metadata>,
    status: Option<string>
  )

  /** `title`, `video_url` and `client_id` are all present and non-empty. */
  predicate HasRequiredFields(body: CreateBody)
  {
    Truthy(body.title) && Truthy(body.video_url) && Truthy(body.client_id)
  }

  /**
   * The row the insert writes, with the id and timestamps the database
   * assigns. It is a draft whatever the body says, and a body without
   * `metadata` gets the empty map.
   */
  function NewVideo(body: CreateBody, id: string, now: Timestamp): (v: Video)
    requires HasRequiredFields(body)
    ensures v.id == id && v.status == Draft
    ensures v.title == body.title.value && v.title != ""
    ensures v.video_url == body.video_url.value && v.video_url != ""
    ensures v.client_id == body.client_id.value && v.client_id != ""
    ensures v.description == body.description && v.thumbnail_url == body.thumbnail_url
    ensures v.duration == body.duration && v.file_size == body.file_size && v.mime_type == body.mime_type
    ensures body.metadata.None? ==> v.metadata == map[]
    ensures body.metadata.Some? ==> v.metadata == body.metadata.value
    ensures v.approved_at.None? && v.published_at.None?
    ensures v.published_url.None? && v.published_platform.None?
    ensures v.created_at == now && v.updated_at == now
  {
    var metadata := if body.metadata.Some? then body.metadata.value else map[];
    Video(
      id := id, title := body.title.value, description := body.description,
      client_id := body.client_id.value, status := Draft, video_url := body.video_url.value,
      thumbnail_url := body.thumbnail_url, duration := body.duration, file_size := body.file_size,
      mime_type := body.mime_type, feedback := None, approved_at := None, published_at := None,
      published_url := None, published_platform := None, metadata := metadata,
      created_at := now, updated_at := now)
  }

  /**
   * `POST /api/videos`. `request` is `None` when the body is not JSON;
   * `newId` and `now` are the values the database would assign, and
   * `insertFails` reports a database error on the insert.
   */
  method Post(store: VideoStore, request: Option<CreateBody>, newId: string, now: Timestamp, insertFails: bool)
    returns (resp: Response)
    requires store.Valid()
    modifies store
    ensures store.Valid()
    ensures request.None? ==> resp == Error(SERVER_ERROR, "Failed to create video")
    ensures request.Some? && !HasRequiredFields(request.value) ==>
      resp == Error(BAD_REQUEST, "Title, video_url, and client_id are required")
    ensures resp.status == CREATED <==>
      request.Some? && HasRequiredFields(request.value) && !insertFails && newId !in old(store.videos)
    ensures resp.status == CREATED ==>
      var v := NewVideo(request.value, newId, now);
      && resp.body == VideoBody(v)
      && store.videos == old(store.videos)[newId := v]
    ensures resp.status != CREATED ==> store.videos == old(store.videos)
    ensures request.Some? && HasRequiredFields(request.value) && resp.status != CREATED ==>
      resp == Error(SERVER_ERROR, "Failed to create video")
  {
    if request.None? {
      return Error(SERVER_ERROR, "Failed to create video");
    }
    var body := request.value;
    if !HasRequiredFields(body) {
      return Error(BAD_REQUEST, "Title, video_url, and client_id are required");
    }
    if insertFails {
      return Error(SERVER_ERROR, "Failed to create video");
    }
    var v := NewVideo(body, newId, now);
    var inserted := store.Insert(v);
    if !inserted {
      return Error(SERVER_ERROR, "Failed to create video");
    }
    resp := Response(CREATED, VideoBody(v));
  }

  /**
   * The query `GET` builds: the window from `limit` and `offset` (absent or
   * empty parameters fall back to 50 and 0), and each equality filter only
   * when its parameter is present and non-empty.
   */
  function ListQuery(clientId: Option<string>, status: Option<string>, limit: Option<nat>, offset: Option<nat>): (q: Query)
    ensures q.limit == (if limit.Some? then limit.value else DEFAULT_LIMIT)
    ensures q.offset == (if offset.Some? then offset.value else DEFAULT_OFFSET)
    ensures q.clientId == (if Truthy(clientId) then clientId else None)
    ensures q.status == (if Truthy(status) then status else None)
  {
    Query(
      if Truthy(clientId) then clientId else None,
      if Truthy(status) then status else None,
      if offset.Some? then offset.value else DEFAULT_OFFSET,
      if limit.Some? then limit.value else DEFAULT_LIMIT)
  }

  /**
   * `GET /api/videos`. The query parameters arrive as options (`None` for a
   * parameter that is absent or empty); `queryFails` reports a database error.
   */
  method Get(store: VideoStore, clientId: Option<string>, status: Option<string>,
             limit: Option<nat>, offset: Option<nat>, queryFails: bool)
    returns (resp: Response)
    requires store.Valid()
    ensures queryFails ==> resp == Error(SERVER_ERROR, "Failed to fetch videos")
    ensures !queryFails ==> resp.status == OK && resp.body.VideoListBody?
    ensures resp.body.VideoListBody? ==>
      var q := ListQuery(clientId, status, limit, offset);
      var rows := resp.body.videos;
      && (exists ordered :: IsListing(ordered, store.videos, q) && rows == Window(ordered, q.offset, q.limit))
      && |rows| <= q.limit
      && NewestFirst(rows)
      && (forall v :: v in rows ==> v.id in store.videos && store.videos[v.id] == v)
      && (forall v :: v in rows && Truthy(clientId) ==> v.client_id == clientId.value)
      && (forall v :: v in rows && Truthy(status) ==> StatusName(v.status) == status.value)
  {
    var lim := if limit.Some? then limit.value else DEFAULT_LIMIT;
    var off := if offset.Some? then offset.value else DEFAULT_OFFSET;
    var query := Query(None, None, off, lim);
    if Truthy(clientId) {
      query := query.(clientId := clientId);
    }
    if Truthy(status) {
      query := query.(status := status);
    }
    if queryFails {
      return Error(SERVER_ERROR, "Failed to fetch videos");
    }
    assert query == ListQuery(clientId, status, limit, offset);
    var rows := store.Select(query);
    resp := Response(OK, VideoListBody(rows));
  }
}
