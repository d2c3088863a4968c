/**
 * app/api/publish-video/route.ts: publishes an approved video. The handler
 * checks the request, looks the video up, insists on status `approved`,
 * picks a target from the environment (YouTube, then Cloudflare Stream,
 * then direct hosting) and writes `published` with the URL, platform and
 * time; when the write fails it keeps the video `approved` and records the
 * error in `metadata.publishError`. The notification it then sends is best
 * effort: its outcome is an input the response never depends on.
 */
module PublishVideo {
  import opened Types
  import opened Text
  import opened Http
  import opened Store
  import SendNotification

  const YOUTUBE_WATCH_PREFIX: string := "https://www.youtube.com/watch?v="
  const MOCK_ID_PREFIX: string := "mock-"
  const PUBLISH_ERROR_KEY: string := "publishError"

  datatype PublishRequest = PublishRequest(videoId: Option<string>)

  /** The four environment variables the route consults. */
  datatype Env = Env(
    youtubeClientId: Option<string>,
    youtubeClientSecret: Option<string>,
    cloudflareAccountId: Option<string>,
    cloudflareApiToken: Option<string>
  )

  datatype Target = YouTubeTarget | CloudflareTarget | DirectTarget

  /**
   * The first configured target wins: both YouTube credentials, else both
   * Cloudflare credentials, else direct hosting.
   */
  function SelectTarget(env: Env): (t: Target)
    ensures t == YouTubeTarget <==> Truthy(env.youtubeClientId) && Truthy(env.youtubeClientSecret)
    ensures t == CloudflareTarget <==>
      && !(Truthy(env.youtubeClientId) && Truthy(env.youtubeClientSecret))
      && Truthy(env.cloudflareAccountId) && Truthy(env.cloudflareApiToken)
    ensures t == DirectTarget <==>
      && !(Truthy(env.youtubeClientId) && Truthy(env.youtubeClientSecret))
      && !(Truthy(env.cloudflareAccountId) && Truthy(env.cloudflareApiToken))
  {
    if Truthy(env.youtubeClientId) && Truthy(env.youtubeClientSecret) then YouTubeTarget
    else if Truthy(env.cloudflareAccountId) && Truthy(env.cloudflareApiToken) then CloudflareTarget
    else DirectTarget
  }

  /** What a publishing routine returns. */
  datatype PlatformResult = PlatformResult(url: string, id: string)

  /** `publishToYouTube`: a placeholder watch URL built from the video id. */
  function PublishToYouTube(v: Video): (r: PlatformResult)
    ensures r.id == MOCK_ID_PREFIX + v.id
    ensures StartsWith(r.url, YOUTUBE_WATCH_PREFIX) && r.url[|YOUTUBE_WATCH_PREFIX|..] == r.id
  {
    var id := MOCK_ID_PREFIX + v.id;
    PlatformResult(YOUTUBE_WATCH_PREFIX + id, id)
  }

  /** Recovers the video id from a placeholder watch URL. */
  function WatchUrlVideoId(url: string): Option<string>
  {
    var prefix := YOUTUBE_WATCH_PREFIX + MOCK_ID_PREFIX;
    if StartsWith(url, prefix) then Some(url[|prefix|..]) else None
  }

  /** The watch URL names the video it was built from, so distinct videos get distinct URLs. */
  lemma YouTubeUrlRoundTrip(v: Video)
    ensures WatchUrlVideoId(PublishToYouTube(v).url) == Some(v.id)
  {
    var prefix := YOUTUBE_WATCH_PREFIX + MOCK_ID_PREFIX;
    var url := PublishToYouTube(v).url;
    assert url == prefix + v.id;
    assert url[..|prefix|] == prefix;
    assert url[|prefix|..] == v.id;
  }

  /** `publishToCloudflare`: the asset URL and id are handed back unchanged. */
  function PublishToCloudflare(v: Video): (r: PlatformResult)
    ensures r.url == v.video_url && r.id == v.id
  {
    PlatformResult(v.video_url, v.id)
  }

  function PlatformOf(t: Target): Platform
  {
    match t
    case YouTubeTarget => YouTube
    case CloudflareTarget => Cloudflare
    case DirectTarget => Direct
  }

  /** The URL a target publishes a video at; direct hosting reuses `video_url`. */
  function PublishedUrl(t: Target, v: Video): (url: string)
    ensures t == DirectTarget ==> url == v.video_url
  {
    match t
    case YouTubeTarget => PublishToYouTube(v).url
    case CloudflareTarget => PublishToCloudflare(v).url
    case DirectTarget => v.video_url
  }

  /** The platform written is always one of the `published_platform` values youtube, cloudflare, direct. */
  lemma PlatformWrittenIsKnown(env: Env)
    ensures var p := PlatformOf(SelectTarget(env));
      ParsePlatform(PlatformName(p)) == Some(p) && (p == YouTube || p == Cloudflare || p == Direct)
  {
    PlatformRoundTrip(PlatformOf(SelectTarget(env)));
  }

  /** The value caught by `catch (publishError)`. */
  datatype Thrown = ErrorObject(message: string) | NonErrorValue

  /** `publishError instanceof Error ? publishError.message : 'Unknown error'`. */
  function ErrorMessage(e: Thrown): (r: string)
    ensures e.ErrorObject? ==> r == e.message
    ensures e.NonErrorValue? ==> r == "Unknown error"
  {
    match e
    case ErrorObject(m) => m
    case NonErrorValue => "Unknown error"
  }

  /** The success update: published, with the chosen URL, platform and time, and nothing else changed. */
  function MarkPublished(v: Video, url: string, platform: Platform, now: Timestamp): (r: Video)
    ensures r.status == Published
    ensures r.published_url == Some(url) && r.published_platform == Some(platform)
    ensures r.published_at == Some(now)
    ensures r.(status := v.status, published_at := v.published_at,
               published_url := v.published_url, published_platform := v.published_platform) == v
  {
    v.(status := Published, published_at := Some(now), published_url := Some(url),
       published_platform := Some(platform))
  }

  /**
   * The failure update: status `approved`, and `metadata` spread with
   * `publishError` set to the message; every other key keeps its value.
   */
  function RecordPublishError(v: Video, message: string): (r: Video)
    ensures r.status == Approved
    ensures r.metadata.Keys == v.metadata.Keys + {PUBLISH_ERROR_KEY}
    ensures r.metadata[PUBLISH_ERROR_KEY] == JStr(message)
    ensures forall k :: k in v.metadata && k != PUBLISH_ERROR_KEY ==> r.metadata[k] == v.metadata[k]
    ensures r.(status := v.status, metadata := v.metadata) == v
  {
    v.(status := Approved, metadata := v.metadata[PUBLISH_ERROR_KEY := JStr(message)])
  }

  /** The body `sendPublishingNotification` posts to the notification route. */
  function PublishingNotification(v: Video, url: string, platform: Platform): (r: SendNotification.NotifyBody)
    ensures r.kind == Some(SendNotification.PUBLISHED_TYPE)
    ensures SendNotification.HasRequiredFields(r) <==> v.id != ""
    ensures r.videoId == Some(v.id) && r.publishedUrl == Some(url) && r.platform == Some(PlatformName(platform))
  {
    SendNotification.NotifyBody(
      kind := Some(SendNotification.PUBLISHED_TYPE), videoId := Some(v.id), videoTitle := Some(v.title),
      publishedUrl := Some(url), platform := Some(PlatformName(platform)), clientId := Some(v.client_id))
  }

  /**
   * The notification a successful publish sends passes the notification
   * route's checks and, whenever a message goes out, carries the
   * "published" subject.
   */
  lemma NotificationIsPublishedKind(v: Video, url: string, platform: Platform,
                                    recipient: Option<string>, send: SendNotification.SendResult)
    requires v.id != ""
    ensures var d := SendNotification.Decide(Some(PublishingNotification(v, url, platform)), recipient, send);
      && d.lookedUp
      && d.response.status != BAD_REQUEST
      && (d.sent.Some? ==> d.sent.value.subject == SendNotification.PUBLISHED_SUBJECT)
  {
  }

  /** How the best-effort notification call ended; the route ignores it. */
  datatype NotificationOutcome = NotificationAnswered(status: int) | NotificationThrew

  /**
   * `POST /api/publish-video`. `request` is `None` when the body is not
   * JSON; `env` holds the environment variables and `now` the clock's
   * reading. The other inputs stand for what the hosted services would do:
   * `lookupFails` a database error on the lookup, `updateError` the value
   * thrown when the success update fails, `recordFails` a failed failure
   * update (whose result the source ignores), `delivery` the notification.
   * `notification` is the request the route sends on success.
   */
  method Post(store: VideoStore, request: Option<PublishRequest>, env: Env, now: Timestamp,
              lookupFails: bool, updateError: Option<Thrown>, recordFails: bool,
              delivery: NotificationOutcome)
    returns (resp: Response, notification: Option<SendNotification.NotifyBody>)
    requires store.Valid()
    modifies store
    ensures store.Valid()
    ensures request.None? ==>
      resp == Error(SERVER_ERROR, "Internal server error") && store.videos == old(store.videos)
    // a missing id is refused before the store is consulted
    ensures request.Some? && !Truthy(request.value.videoId) ==>
      resp == Error(BAD_REQUEST, "Video ID is required") && store.videos == old(store.videos)
    ensures request.Some? && Truthy(request.value.videoId) ==>
      var id := request.value.videoId.value;
      && ((lookupFails || id !in old(store.videos)) ==>
            resp == Error(NOT_FOUND, "Video not found") && store.videos == old(store.videos))
      && (!lookupFails && id in old(store.videos) && old(store.videos)[id].status != Approved ==>
            && resp == Error(BAD_REQUEST, "Video must be approved before publishing")
            && store.videos == old(store.videos))
      && (!lookupFails && id in old(store.videos) && old(store.videos)[id].status == Approved ==>
            var v := old(store.videos)[id];
            var target := SelectTarget(env);
            var url, platform := PublishedUrl(target, v), PlatformOf(target);
            && (updateError.None? ==>
                  && resp == Response(OK, PublishedBody(true, url, platform))
                  && store.videos == old(store.videos)[id := MarkPublished(v, url, platform, now)]
                  && notification == Some(PublishingNotification(v, url, platform)))
            && (updateError.Some? ==>
                  var message := ErrorMessage(updateError.value);
                  && resp == Response(SERVER_ERROR, ErrorWithDetails("Failed to publish video", message))
                  && store.videos == (if recordFails then old(store.videos)
                                      else old(store.videos)[id := RecordPublishError(v, message)])
                  && store.videos[id].status == Approved))
    ensures notification.Some? <==> resp.status == OK
  {
    notification := None;
    if request.None? {
      return Error(SERVER_ERROR, "Internal server error"), None;
    }
    var videoId := request.value.videoId;
    if !Truthy(videoId) {
      return Error(BAD_REQUEST, "Video ID is required"), None;
    }
    var found := store.Lookup(videoId.value);
    if lookupFails || found.None? {
      return Error(NOT_FOUND, "Video not found"), None;
    }
    var video := found.value;
    if video.status != Approved {
      return Error(BAD_REQUEST, "Video must be approved before publishing"), None;
    }

    var publishedUrl := "";
    var publishedPlatform := Direct;
    var target := SelectTarget(env);
    match target {
      case YouTubeTarget =>
        var youtubeResult := PublishToYouTube(video);
        publishedUrl := youtubeResult.url;
        publishedPlatform := YouTube;
      case CloudflareTarget =>
        var cloudflareResult := PublishToCloudflare(video);
        publishedUrl := cloudflareResult.url;
        publishedPlatform := Cloudflare;
      case DirectTarget =>
        publishedUrl := video.video_url;
        publishedPlatform := Direct;
    }

    if updateError.None? {
      store.Replace(MarkPublished(video, publishedUrl, publishedPlatform, now));
      // the notification's outcome (`delivery`) is caught and logged only
      notification := Some(PublishingNotification(video, publishedUrl, publishedPlatform));
      resp := Response(OK, PublishedBody(true, publishedUrl, publishedPlatform));
    } else {
      var message := ErrorMessage(updateError.value);
      if !recordFails {
        store.Replace(RecordPublishError(video, message));
      }
      resp := Response(SERVER_ERROR, ErrorWithDetails("Failed to publish video", message));
    }
  }
}
