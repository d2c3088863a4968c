/**
 * The records and enumerations of lib/types.ts: a video, a feedback entry,
 * a version, the five-value status and the publishing platforms, plus the
 * two small wrappers the rest of the model uses (an optional value and a
 * JSON value for the open `metadata` map).
 */
module Types {

  /** A value that may be absent (`undefined` in the source). */
  datatype Option<+T> = None | Some(value: T)

  /**
   * JavaScript truthiness of an optional string, as in `if (!videoId)`:
   * the value is present and not the empty string.
   */
  predicate Truthy(s: Option<string>)
  {
    s.Some? && s.value != ""
  }

  /** How an awaited callback ended: it resolved, or it threw and the caller caught it. */
  datatype Completion = Completed | Threw

  /** Any JSON value; `metadata` maps strings to these. */
  datatype Json =
    | JNull
    | JBool(b: bool)
    | JNum(n: int)
    | JStr(s: string)
    | JArr(items: seq<Json>)
    | JObj(fields: map<string, Json>)

  type Metadata = map<string, Json>

  /** A point in time; ISO-8601 strings in the source, compared by their order. */
  type Timestamp = nat

  /** `Video.status`: exactly one of five values. */
  datatype Status = Draft | Review | Approved | Published | Rejected

  /** The string the database and the user interface store for a status. */
  function StatusName(s: Status): string
  {
    match s
    case Draft => "draft"
    case Review => "review"
    case Approved => "approved"
    case Published => "published"
    case Rejected => "rejected"
  }

  /** Reads a status back from its stored string; any other string is not a status. */
  function ParseStatus(name: string): (r: Option<Status>)
    ensures r.Some? ==> StatusName(r.value) == name
    ensures r.None? ==> forall s: Status :: StatusName(s) != name
  {
    if name == "draft" then Some(Draft)
    else if name == "review" then Some(Review)
    else if name == "approved" then Some(Approved)
    else if name == "published" then Some(Published)
    else if name == "rejected" then Some(Rejected)
    else None
  }

  /** Every status survives the round trip through its stored string. */
  lemma StatusRoundTrip(s: Status)
    ensures ParseStatus(StatusName(s)) == Some(s)
  {
    match s
    case Draft =>
    case Review =>
    case Approved =>
    case Published =>
    case Rejected =>
  }

  /** `Video.published_platform`. */
  datatype Platform = YouTube | TikTok | Instagram | Cloudflare | Direct

  function PlatformName(p: Platform): string
  {
    match p
    case YouTube => "youtube"
    case TikTok => "tiktok"
    case Instagram => "instagram"
    case Cloudflare => "cloudflare"
    case Direct => "direct"
  }

  /** Reads a platform back from its stored string. */
  function ParsePlatform(name: string): (r: Option<Platform>)
    ensures r.Some? ==> PlatformName(r.value) == name
    ensures r.None? ==> forall p: Platform :: PlatformName(p) != name
  {
    if name == "youtube" then Some(YouTube)
    else if name == "tiktok" then Some(TikTok)
    else if name == "instagram" then Some(Instagram)
    else if name == "cloudflare" then Some(Cloudflare)
    else if name == "direct" then Some(Direct)
    else None
  }

  /** Every platform survives the round trip through its stored string. */
  lemma PlatformRoundTrip(p: Platform)
    ensures ParsePlatform(PlatformName(p)) == Some(p)
  {
    match p
    case YouTube =>
    case TikTok =>
    case Instagram =>
    case Cloudflare =>
    case Direct =>
  }

  /**
   * A video record. `metadata` is mandatory; the approval and publication
   * fields are optional. Durations and sizes are whole numbers here.
   */
  datatype Video = Video(
    id: string,
    title: string,
    description: Option<string>,
    client_id: string,
    status: Status,
    video_url: string,
    thumbnail_url: Option<string>,
    duration: Option<nat>,
    file_size: Option<nat>,
    mime_type: Option<string>,
    feedback: Option<string>,
    approved_at: Option<Timestamp>,
    published_at: Option<Timestamp>,
    published_url: Option<string>,
    published_platform: Option<Platform>,
    metadata: Metadata,
    created_at: Timestamp,
    updated_at: Timestamp
  )

  /** A reviewer's comment; the playback position it refers to is optional. */
  datatype VideoFeedback = VideoFeedback(
    id: string,
    video_id: string,
    client_id: string,
    timestamp: Option<real>,
    comment: string,
    created_at: Timestamp
  )

  /** A stored revision of a video's asset. */
  datatype VideoVersion = VideoVersion(
    id: string,
    video_id: string,
    version_number: int,
    video_url: string,
    changes_summary: Option<string>,
    created_at: Timestamp
  )
}
