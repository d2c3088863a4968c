# Video approval and publishing workflow, modelled in Dafny

This project models the core of a small video-review application for an
agency. An admin uploads a video record. The client reviews it, leaves
time-stamped feedback, and approves or rejects it. An approved video is
published to YouTube, to Cloudflare Stream or by direct hosting, and the
client is e-mailed. The model covers these parts:

- the records of `lib/types.ts` (module `Types`);
- the three HTTP routes:
  - `GET`/`POST /api/videos` (`VideosRoute`);
  - `POST /api/publish-video` (`PublishVideo`);
  - `POST /api/send-notification` (`SendNotification`);
- the `videos` table the routes read and write (`Store`);
- the admin list page (`AdminVideos`);
- four client components:
  - the approve/reject card (`ApprovalActions`);
  - the feedback form (`FeedbackForm`);
  - the upload dialog (`UploadVideoDialog`);
  - the video player (`VideoPlayer`).

Shared pieces of the JavaScript runtime live in their own modules:
- `Text` holds decimal rendering, `padStart`, ASCII `toLowerCase`, `includes`, `startsWith` and `trim` over the ECMAScript whitespace set.
- `Clock` holds the `m:ss` rendering, which three files write with the same body.
- `Http` holds the responses.

Where the source changes state, the model is imperative:
- The database table is a class `Store.VideoStore` holding a map from id to record. The routes are methods that update it.
- Each React component is a class whose fields are its `useState` variables. Its handlers are methods with `modifies` clauses.
- The filtering step of the admin page is a method. It is proved to leave the displayed list equal to a specification function (`AdminVideos.Visible`).

Pure code becomes functions and lemmas:
- the notification route's decision;
- the target selection and URL formers of the publish route;
- the progress-bar step;
- the colour and label switches;
- the time formatting.

Services the code calls become parameters of the operations:
- the hosted database: lookup, insert and update outcomes;
- the e-mail service's answer and the recipient lookup;
- `fetch` outcomes;
- callbacks passed in by the review page;
- environment variables;
- the clock;
- `URL.createObjectURL`.

Each such parameter is named in the doc comment of the operation that takes it. Where a route
ignores an outcome (the notification a publish sends, the update that records a
publishing error), the outcome is still an input, and the contract shows the
response does not depend on it.

## Model

| member | source | states |
|---|---|---|
| Types.ParseStatus | lib/types.ts:6 | a string is read as a status only if it is that status's stored name; every other string is no status |
| Types.StatusRoundTrip | lib/types.ts:6 | each of the five statuses reads back from its stored name |
| Types.ParsePlatform | lib/types.ts:16 | a string is read as a platform only if it is that platform's stored name |
| Types.PlatformRoundTrip | lib/types.ts:16 | each of the five platforms reads back from its stored name |
| Text.NatToString | components/video-player.tsx:95 | `toString` of a whole number is a non-empty digit string, one digit exactly below 10, with no leading zero: only 0 itself starts with `'0'` |
| Text.NatToStringRoundTrip | components/video-player.tsx:95 | the decimal text of a number reads back as that number |
| Text.LeadingZeroValue | components/video-player.tsx:95 | a leading `'0'` does not change the value of a digit string |
| Text.PadStart | components/video-player.tsx:95 | `padStart` gives at least the requested width, keeps the text as its suffix and fills only with the pad character |
| Text.ZeroPadValue | components/video-player.tsx:95 | zero-padding keeps a digit string's value |
| Text.ToLower | app/admin/videos/page.tsx:62-63 | lower-casing keeps the length and maps every character on its own |
| Text.ToLowerIdempotent | app/admin/videos/page.tsx:62-63 | a lower-cased text has no upper-case letter, and lower-casing it again changes nothing |
| Text.Capitalize | app/admin/videos/page.tsx:260 | only the first character is upper-cased; the rest is kept |
| Text.Contains | app/admin/videos/page.tsx:62-63 | `includes` finds a needle only when it is no longer than the text, and always finds a prefix of the text |
| Text.LeadingWhitespace | components/feedback-form.tsx:21 | the count of leading characters `trim` removes: all of them whitespace, and the next one is not |
| Text.TrailingWhitespace | components/feedback-form.tsx:21 | the count of trailing characters `trim` removes: all of them whitespace, and the one before is not |
| Text.TrimStart | components/feedback-form.tsx:26 | the text left after the leading whitespace is a suffix of the input, everything cut before it is whitespace, and it is empty or starts with non-whitespace |
| Text.TrimEnd | components/feedback-form.tsx:26 | the text left before the trailing whitespace is a prefix of the input, everything cut after it is whitespace, and it is empty or ends with non-whitespace |
| Text.Trim | components/feedback-form.tsx:26 | `trim` never lengthens the text, and its result is empty or starts and ends with non-whitespace |
| Text.TrimIsSlice | components/feedback-form.tsx:26 | the trimmed comment is a contiguous slice of what was typed |
| Text.TrimCutsOnlyWhitespace | components/feedback-form.tsx:26 | everything trimming removes is whitespace |
| Text.TrimHasNoOuterWhitespace | components/feedback-form.tsx:26 | a trimmed comment neither starts nor ends with whitespace |
| Text.TrimOccursInInput | components/feedback-form.tsx:26 | the trimmed comment occurs in what was typed |
| Text.TrimEmptyIffBlank | components/feedback-form.tsx:21 | the trimmed text is empty exactly when the input is whitespace only |
| Text.TrimIdempotent | components/feedback-form.tsx:26 | trimming a trimmed comment changes nothing |
| Clock.FormatMinSec | components/video-player.tsx:92-96 | `formatTime` of whole seconds is the minutes as `toString` writes them, a colon, and the seconds padded to two characters with `'0'` |
| Clock.ParseMinSec | components/video-player.tsx:92-96 | a text it accepts has the `m:ss` shape: decimal minutes, a colon and two digits below 60, worth the value read |
| Clock.FormatMinSecShape | components/video-player.tsx:92-96 | `formatTime` of whole seconds has the `m:ss` shape: decimal minutes, a colon and two digits below 60, worth minutes * 60 + seconds = the input |
| Clock.ParseMinSecOfShape | components/video-player.tsx:92-96 | any text of the `m:ss` shape reads back as minutes * 60 + seconds |
| Clock.FormatMinSecRoundTrip | components/feedback-form.tsx:37-41 | reading the `m:ss` text back gives the number of seconds |
| Clock.FormatMinSecInjective | app/admin/videos/page.tsx:95-99 | two different durations never render to the same text |
| Store.Window | app/api/videos/route.ts:16 | `range(offset, offset + limit - 1)` keeps at most `limit` rows, starting at `offset`, and none past the end |
| Store.InsertNewestFirst | app/api/videos/route.ts:15 | inserting into a list ordered newest `created_at` first keeps it ordered, adds exactly that record and keeps ids distinct |
| Store.ExtendListing | app/api/videos/route.ts:15-24 | adding one more stored record, when it matches, keeps a partial listing newest first, distinct and exactly the matching records seen so far |
| Store.WindowOfListing | app/api/videos/route.ts:15-16 | a window holds only rows of the listing, and a newest-first listing gives a newest-first window |
| Store.VideoStore.constructor | app/api/videos/route.ts:65-80 | the table starts empty, with every record under its own id |
| Store.VideoStore.Lookup | app/api/publish-video/route.ts:13-17 | `.eq('id', id).single()` finds a record exactly when one is stored under that id |
| Store.VideoStore.Insert | app/api/videos/route.ts:65-80 | an insert adds the record under its id when the id is free and changes nothing otherwise |
| Store.VideoStore.Replace | app/api/publish-video/route.ts:49-57 | an update by id replaces only that record, and only when it exists |
| Store.VideoStore.Select | app/api/videos/route.ts:12-24 | the rows are the window of a newest-first listing of exactly the stored records that pass the filters; every row is stored and matches, there are at most `limit` rows, and they are newest first |
| VideosRoute.NewVideo | app/api/videos/route.ts:67-78 | a created record is a draft whatever the body says, with the three required fields non-empty, the optional fields copied, `metadata` defaulting to `{}` and no approval or publication data |
| VideosRoute.Post | app/api/videos/route.ts:43-95 | malformed JSON or an insert error answers 500 "Failed to create video"; a missing title, video_url or client_id answers 400 before the store is touched; 201 with the new draft exactly when the insert succeeds, and the store gains exactly that record; on any other answer the store is unchanged |
| VideosRoute.ListQuery | app/api/videos/route.ts:7-24 | limit and offset default to 50 and 0; a client or status filter applies only when its parameter is non-empty |
| VideosRoute.Get | app/api/videos/route.ts:4-41 | a query error answers 500 "Failed to fetch videos"; otherwise 200 with a newest-first window of at most `limit` stored rows, each matching the client and status filters given |
| SendNotification.Subject | app/api/send-notification/route.ts:17-93 | the `switch` knows exactly the types `video_published` and `video_approved` |
| SendNotification.SubjectsDistinct | app/api/send-notification/route.ts:17-62 | the two notification types get different subject lines |
| SendNotification.Decide | app/api/send-notification/route.ts:7-129 | malformed JSON answers 500; a missing type or videoId answers 400 "Missing required fields", and an unknown type 400 "Unknown notification type", both before any lookup; no recipient address answers 404 "Client email not found"; otherwise one e-mail goes out, from the fixed sender, to exactly the client's address, with the type's subject; 200 with the message id exactly when the e-mail service accepts it, 500 "Failed to send email" when it fails; malformed JSON answers 500 "Internal server error" |
| PublishVideo.SelectTarget | app/api/publish-video/route.ts:32-46 | YouTube exactly when both YouTube credentials are set, otherwise Cloudflare exactly when both Cloudflare credentials are set, otherwise direct hosting |
| PublishVideo.PublishToYouTube | app/api/publish-video/route.ts:102-126 | the result id is `mock-` plus the video id, and the URL is the YouTube watch URL of that id |
| PublishVideo.YouTubeUrlRoundTrip | app/api/publish-video/route.ts:122-125 | the watch URL gives back the id of the video it was built for, so different videos get different URLs |
| PublishVideo.PublishToCloudflare | app/api/publish-video/route.ts:128-137 | the Cloudflare result hands back the video's own URL and id |
| PublishVideo.PublishedUrl | app/api/publish-video/route.ts:42-46 | direct hosting publishes at the video's own `video_url` |
| PublishVideo.PlatformWrittenIsKnown | app/api/publish-video/route.ts:29-45 | the platform written is one of `youtube`, `cloudflare`, `direct`, all valid `published_platform` values |
| PublishVideo.MarkPublished | app/api/publish-video/route.ts:49-57 | the success update sets status published, the URL, the platform and the time, and leaves every other field as it was |
| PublishVideo.RecordPublishError | app/api/publish-video/route.ts:76-85 | the failure update keeps the video approved and spreads `metadata` with `publishError` set to the message; every other key keeps its value |
| PublishVideo.ErrorMessage | app/api/publish-video/route.ts:82 | an `Error` gives its own message, any other thrown value "Unknown error" |
| PublishVideo.PublishingNotification | app/api/publish-video/route.ts:145-157 | the notification body is of type `video_published` for this video's id, URL and platform, and passes the notification route's field check exactly when the id is non-empty |
| PublishVideo.NotificationIsPublishedKind | app/api/publish-video/route.ts:145-157 | the body sent after publishing passes the notification route's checks (never a 400), and any e-mail it causes carries the "published" subject |
| PublishVideo.Post | app/api/publish-video/route.ts:4-100 | malformed JSON answers 500; a missing id answers 400; a lookup error or an unknown id answers 404; a video not approved answers 400; each of these leaves the store unchanged; for an approved video it answers 200 with the selected target's URL and platform, and the store holds exactly the published record; a failed update answers 500 with the error message (or "Unknown error") and the record stays approved; a notification is sent exactly on 200, and nothing depends on its outcome |
| AdminVideos.Filter | app/admin/videos/page.tsx:61-69 | `Array.filter` keeps exactly the elements that pass, in their original order, every copy of a passing element and no copy of a failing one |
| AdminVideos.FilterAppend | app/admin/videos/page.tsx:61-69 | filtering a concatenation is the concatenation of the filtered parts |
| AdminVideos.FilterCongruent | app/admin/videos/page.tsx:61-69 | two tests that agree on every element filter alike |
| AdminVideos.FilterKeepsAll | app/admin/videos/page.tsx:57-72 | a filter every element passes returns the list unchanged |
| AdminVideos.FilterTwice | app/admin/videos/page.tsx:60-70 | the search filter followed by the status filter is one filter by both conditions |
| AdminVideos.Visible | app/admin/videos/page.tsx:56-73 | the table lists exactly the fetched videos that pass both filters, in fetched order and with every copy of them; with no search term and status `all` it lists them all |
| AdminVideos.StatusCount | app/admin/videos/page.tsx:155 | a status card never counts more than all videos |
| AdminVideos.StatusCountsPartition | app/admin/videos/page.tsx:144-179 | the five per-status counts add up to the total |
| AdminVideos.PageStats | app/admin/videos/page.tsx:139-185 | the total card shows the number of videos, and the review, approved and published cards each show the count of videos with that status, together never more than the total |
| AdminVideos.StatusCountMatchesFilter | app/admin/videos/page.tsx:155-179 | a status card shows as many videos as choosing that status in the drop-down lists |
| AdminVideos.StatusColor | app/admin/videos/page.tsx:75-84 | every status string gets one of five badge colours; gray exactly for drafts and unknown values |
| AdminVideos.StatusColorsDistinct | app/admin/videos/page.tsx:75-84 | apart from drafts, different statuses get different colours |
| AdminVideos.StatusLabel | app/admin/videos/page.tsx:260 | the badge reads Draft, Review, Approved, Published or Rejected |
| AdminVideos.StatusLabelLowersBack | app/admin/videos/page.tsx:260 | lower-casing a badge gives back the stored status, so no two statuses share a badge |
| AdminVideos.DurationCell | app/admin/videos/page.tsx:265 | "Unknown" exactly when the duration is absent or zero; otherwise `m:ss` text that reads back as the duration |
| AdminVideos.ReviewLink | app/admin/videos/page.tsx:101-103 | a review link is the origin's `/review/` path followed by exactly the video id |
| AdminVideos.ReviewLinkRoundTrip | app/admin/videos/page.tsx:101-103 | a review link leads back to its video, so different videos get different links |
| AdminVideos.ShowsViewPublished | app/admin/videos/page.tsx:295 | "View Published" is offered only for a published video whose `published_url` is present and non-empty |
| AdminVideos.PublishedVideoShowsLink | app/admin/videos/page.tsx:295 | a video the publish route has just published shows "View Published" whenever its `video_url` is non-empty |
| AdminVideos.AdminVideosPage.constructor | app/admin/videos/page.tsx:26-30 | the page starts loading, with empty lists, an empty search and status `all` |
| AdminVideos.AdminVideosPage.FilterVideos | app/admin/videos/page.tsx:56-73 | after `filterVideos` the displayed list equals `Visible` of the current videos, search term and status filter |
| AdminVideos.AdminVideosPage.FetchVideos | app/admin/videos/page.tsx:40-54 | after a fetch the page has stopped loading; it holds the rows (none for a null result), or the old list on error, and the displayed list is refiltered |
| AdminVideos.AdminVideosPage.SetSearchTerm | app/admin/videos/page.tsx:36-38 | typing a search term refilters the displayed list |
| AdminVideos.AdminVideosPage.SetStatusFilter | app/admin/videos/page.tsx:36-38 | choosing a status refilters the displayed list |
| ApprovalActions.GetStatusInfo | components/approval-actions.tsx:45-71 | a status panel exists exactly for approved, published and rejected videos, and none for drafts and videos under review |
| ApprovalActions.StatusInfoMatchesStatus | components/approval-actions.tsx:45-71 | the panel heading is the capitalised stored status, and the three panels have three different colours |
| ApprovalActions.ApprovalActions.constructor | components/approval-actions.tsx:15-17 | the card starts idle with no action |
| ApprovalActions.ApprovalActions.SetProps | components/approval-actions.tsx:8-17 | a re-render with a new status and lock keeps the processing state, and the card offers buttons exactly for a draft or a video under review |
| ApprovalActions.ApprovalActions.ApproveCaption | components/approval-actions.tsx:110-120 | "Approving..." exactly while an approval runs |
| ApprovalActions.ApprovalActions.RejectCaption | components/approval-actions.tsx:129-139 | "Rejecting..." exactly while a rejection runs |
| ApprovalActions.ApprovalActions.HandleApprove | components/approval-actions.tsx:19-30 | `onApprove` runs with `isProcessing` set and action `approve`; whether it resolves or throws, the card ends idle with no action |
| ApprovalActions.ApprovalActions.HandleReject | components/approval-actions.tsx:32-43 | `onReject` runs with `isProcessing` set and action `reject`; whether it resolves or throws, the card ends idle with no action |
| ApprovalActions.ButtonsWhileProcessing | components/approval-actions.tsx:75-139 | buttons are offered exactly for drafts and videos under review; while a callback runs both are disabled and only the running one shows its spinner caption |
| FeedbackForm.FeedbackFor | components/feedback-form.tsx:21-28 | a whitespace-only comment sends nothing; otherwise the text sent is exactly the trimmed comment, which is non-empty, has no outer whitespace and occurs in what was typed, with the playback position exactly when it is positive |
| FeedbackForm.TimeBadge | components/feedback-form.tsx:37-54 | the clock badge is shown exactly when the position is positive, as `m:ss` of its whole seconds |
| FeedbackForm.FeedbackForm.constructor | components/feedback-form.tsx:15-17 | the form starts empty and not submitting |
| FeedbackForm.FeedbackForm.SetProps | components/feedback-form.tsx:10-17 | a re-render with a new player position and lock keeps the typed comment and the submitting flag |
| FeedbackForm.FeedbackForm.SetComment | components/feedback-form.tsx:60 | typing replaces the comment |
| FeedbackForm.FeedbackForm.SubmitEnabled | components/feedback-form.tsx:69 | an enabled submit button means the form is not locked and a submission sends something |
| FeedbackForm.FeedbackForm.HandleSubmit | components/feedback-form.tsx:19-35 | it sends what `FeedbackFor` gives; a blank comment changes nothing; after a submission the form is no longer submitting, and the text is cleared on success and kept when `onSubmit` throws |
| FeedbackForm.EnabledSubmitSends | components/feedback-form.tsx:69 | when the submit button is enabled, a submission sends the trimmed comment, with the position exactly when it is positive |
| UploadVideoDialog.RequestBody | components/upload-video-dialog.tsx:38-42 | the posted body carries the five form fields and nothing else |
| UploadVideoDialog.DialogGuardMatchesRoute | components/upload-video-dialog.tsx:31 | the dialog's required-field guard accepts exactly the bodies that the create route accepts |
| UploadVideoDialog.NextProgress | components/upload-video-dialog.tsx:77-84 | a tick adds 10 below 100 and holds at 100 from there |
| UploadVideoDialog.NextProgressKeepsStep | components/upload-video-dialog.tsx:77-84 | a tick keeps the bar on a multiple of ten between 0 and 100 |
| UploadVideoDialog.ProgressAfterClosedForm | components/upload-video-dialog.tsx:71-84 | after k ticks from 0 the bar shows min(10k, 100) |
| UploadVideoDialog.UploadVideoDialog.constructor | components/upload-video-dialog.tsx:16-26 | the dialog starts closed, idle, at 0 %, with five empty fields |
| UploadVideoDialog.UploadVideoDialog.SetOpen | components/upload-video-dialog.tsx:273 | opening and Cancel set the open flag |
| UploadVideoDialog.UploadVideoDialog.EditForm | components/upload-video-dialog.tsx:218-263 | typing replaces the form |
| UploadVideoDialog.UploadVideoDialog.SubmitEnabled | components/upload-video-dialog.tsx:280 | an enabled "Create Video" button posts a body the create route accepts |
| UploadVideoDialog.UploadVideoDialog.HandleSubmit | components/upload-video-dialog.tsx:28-67 | with a required field empty it only alerts, sends nothing and leaves the form, the dialog and the spinner as they were; otherwise it posts the form and ends not uploading; when the answer is ok and its body readable it hands the video to `onVideoUploaded`, resets the five fields and closes; on a non-ok answer, an unreadable body or a throw it alerts and keeps the form |
| UploadVideoDialog.UploadVideoDialog.HandleFileUpload | components/upload-video-dialog.tsx:69-94 | an upload restarts the bar at 0 and arms the interval and the timeout |
| UploadVideoDialog.UploadVideoDialog.ProgressTick | components/upload-video-dialog.tsx:76-85 | a tick advances the bar by `NextProgress`; a tick that finds the bar full stops the interval and the spinner |
| UploadVideoDialog.UploadVideoDialog.UploadTimeoutFired | components/upload-video-dialog.tsx:88-94 | the timeout sets only `video_url` of the form to the file's URL, stops the interval and shows 100 % |
| UploadVideoDialog.UploadVideoDialog.HandleDrag | components/upload-video-dialog.tsx:103-111 | dragenter and dragover light the drop zone, dragleave dims it, other events leave it |
| UploadVideoDialog.UploadVideoDialog.HandleDrop | components/upload-video-dialog.tsx:113-124 | a drop always dims the zone and starts an upload exactly when there is a first file whose type starts with `video/` |
| UploadVideoDialog.UploadVideoDialog.ChooseFile | components/upload-video-dialog.tsx:195-198 | a file chosen in the picker is uploaded whatever its type |
| UploadVideoDialog.UploadVideoDialog.RemoveVideo | components/upload-video-dialog.tsx:177 | "Remove" clears `video_url` and keeps the other four fields |
| UploadVideoDialog.SubmitEnabledMeansAccepted | components/upload-video-dialog.tsx:280 | an enabled "Create Video" button posts a body the create route accepts; after "Remove" the form no longer passes the guard |
| VideoPlayer.RewindTarget | components/video-player.tsx:163 | the rewind target is ten seconds back, or the start when fewer than ten seconds have played, and is never negative |
| VideoPlayer.RewindNeverAdvances | components/video-player.tsx:163 | a rewind never moves forward, nor back by more than ten seconds |
| VideoPlayer.ClockText | components/video-player.tsx:92-96 | the clock text reads back as the whole seconds of the position |
| VideoPlayer.VideoPlayer.constructor | components/video-player.tsx:15-20 | the player starts paused, unmuted, at 0, with zero duration and not fullscreen |
| VideoPlayer.VideoPlayer.TogglePlay | components/video-player.tsx:55-64 | it pauses the element when playing and plays it otherwise; nothing happens without an element |
| VideoPlayer.VideoPlayer.OnPlay | components/video-player.tsx:39 | the element's `play` event marks the player playing |
| VideoPlayer.VideoPlayer.OnPause | components/video-player.tsx:40 | the element's `pause` event marks the player paused |
| VideoPlayer.VideoPlayer.OnTimeUpdate | components/video-player.tsx:30-33 | the displayed position and the position reported to `onTimeUpdate` are the element's |
| VideoPlayer.VideoPlayer.OnLoadedMetadata | components/video-player.tsx:35-37 | the duration becomes the element's |
| VideoPlayer.VideoPlayer.ToggleMute | components/video-player.tsx:66-72 | the mute flag flips, and the element follows it; nothing happens without an element |
| VideoPlayer.VideoPlayer.ToggleMuteTwice | components/video-player.tsx:66-72 | two presses of the mute button restore both the button's state and the element's |
| VideoPlayer.VideoPlayer.HandleSeek | components/video-player.tsx:74-80 | the element and the displayed position move to the same time; nothing happens without an element |
| VideoPlayer.VideoPlayer.Rewind | components/video-player.tsx:163 | the rewind button seeks to `max(0, currentTime - 10)`, never forward |
| VideoPlayer.VideoPlayer.ToggleFullscreen | components/video-player.tsx:82-90 | it enters fullscreen when the document has none and leaves it otherwise; the request reaches the document only when the container exists |
| VideoPlayer.VideoPlayer.TimeDisplay | components/video-player.tsx:154-156 | the `current / duration` text is an `m:ss` clock that reads back as the whole seconds played, " / ", and one that reads back as the whole seconds of the duration |

## Left out

- The hosted database and the e-mail service are parameters. Their query builders, authentication and network behaviour are not modelled.
- `Store.VideoStore.Select`: the database's order among records with equal `created_at` is unspecified. The contract states that some newest-first order of the matching records is windowed, not which one.
- `VideosRoute.Get`: `limit` and `offset` arrive as natural numbers. `parseInt` of text that is not a number (NaN) and negative values are not modelled.
- `VideosRoute.Post` and `PublishVideo.Post`: JSON fields of the wrong type (a number as `title`, `metadata: null`) are not modelled. Malformed JSON is modelled as an absent body.
- Timestamps are natural numbers ordered like the ISO strings the database writes. `toISOString`, `toLocaleDateString` and `formatDate` are not modelled.
- Durations are whole seconds. `formatTime`/`formatDuration` are modelled on the whole seconds of a non-negative position. `handleProgressClick` depends on floating-point layout geometry and is not modelled.
- `Text.ToLower` and `Text.Capitalize`: only ASCII letters change case. Full Unicode case mapping is not modelled.
- The HTML bodies of the e-mails, JSX rendering, icons, styling, the "No videos found" message, clipboard copying and `window.open` are not modelled.
- `SendNotification.Decide`: the recipient lookup is modelled by its result only. A lookup with an absent `clientId` is treated like any other lookup.
- `PublishVideo.Post`: the code's `publishToYouTube` and `publishToCloudflare` never throw, so the only failure on the publishing path is the failed update. Its error value is a parameter.
- `PublishVideo.Post`: the best-effort notification is a relative-URL `fetch` from the server. Its outcome is an input that the route ignores, and the route does not call the notification handler itself.
- Browser timers are event methods (`ProgressTick`, `UploadTimeoutFired`).
- `UploadVideoDialog.UploadVideoDialog.HandleSubmit`: the method reports that `onVideoUploaded` was called, not the value it received; the admin page's refetch that the call triggers is `AdminVideos.AdminVideosPage.FetchVideos`, left to the caller.
- `UploadVideoDialog.UploadVideoDialog.HandleFileUpload`: a second upload started while one runs would leave two intervals ticking. The model keeps a single interval and timeout.
- `VideoPlayer.VideoPlayer.ToggleFullscreen`: the browser's fullscreen request is modelled as granted at once. Rejections are not modelled.
- `VideoPlayer.VideoPlayer.TogglePlay`: a rejected `play()` promise is not modelled.
- The `volume` and `showControls` state of the player is not modelled.
- The review page, the login page and the static pages are outside the modelled core.
- Two concurrent approvals of the same video are not modelled. The code has no locking, and the model has no interleavings.
