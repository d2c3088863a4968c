/**
 * components/upload-video-dialog.tsx: the admin's "Upload Video" dialog. Its
 * form posts the five text fields to `POST /api/videos`; a dropped or chosen
 * file runs a simulated upload whose progress bar advances by 10 on every
 * interval tick and whose two-second timeout fills in the video URL. The
 * browser's timers are modelled as events (`ProgressTick`,
 * `UploadTimeoutFired`), the fetch as its outcome, and `URL.createObjectURL`
 * as the URL it returns.
 */
module UploadVideoDialog {
  import opened Types
  import opened Text
  import VideosRoute

  const FILL_REQUIRED_ALERT: string := "Please fill in all required fields"
  const UPLOAD_FAILED_ALERT: string := "Failed to upload video. Please try again."
  const VIDEO_MIME_PREFIX: string := "video/"
  const PROGRESS_STEP: nat := 10
  const PROGRESS_DONE: nat := 100

  /** The dialog's form, all five fields as text. */
  datatype FormData = FormData(
    title: string,
    description: string,
    client_id: string,
    video_url: string,
    thumbnail_url: string
  )

  const EMPTY_FORM: FormData := FormData("", "", "", "", "")

  /** A file from the drop zone or the file picker: its name and MIME type. */
  datatype FileInfo = FileInfo(name: string, mimeType: string)

  /**
   * What `response.json()` gave: the body's `video` property (`None` when
   * the body has none), or a throw for a body that is not JSON.
   */
  datatype ReplyBody = Parsed(video: Option<Json>) | Unparsable

  /** How the `fetch` of the create request ended: an answer with its `ok` flag and body, or a throw. */
  datatype PostOutcome = Answered(ok: bool, reply: ReplyBody) | FetchThrew

  /** The request created a video and its reply could be read: the only way through the `try` block. */
  predicate Created(outcome: PostOutcome)
  {
    outcome.Answered? && outcome.ok && outcome.reply.Parsed?
  }

  /** The submit guard: title, video URL and client id are all non-empty. */
  predicate FormComplete(f: FormData)
  {
    f.title != "" && f.video_url != "" && f.client_id != ""
  }

  /** The JSON body `JSON.stringify(formData)` gives the create route. */
  function RequestBody(f: FormData): (b: VideosRoute.CreateBody)
    ensures b.title == Some(f.title) && b.client_id == Some(f.client_id) && b.video_url == Some(f.video_url)
    ensures b.description == Some(f.description) && b.thumbnail_url == Some(f.thumbnail_url)
    ensures b.duration.None? && b.file_size.None? && b.mime_type.None? && b.metadata.None? && b.status.None?
  {
    VideosRoute.CreateBody(
      title := Some(f.title), description := Some(f.description), client_id := Some(f.client_id),
      video_url := Some(f.video_url), thumbnail_url := Some(f.thumbnail_url), duration := None,
      file_size := None, mime_type := None, metadata := None, status := None)
  }

  /**
   * The dialog's guard and the route's guard agree: a form the dialog lets
   * through is one the route accepts, and a form it stops would be refused
   * with 400 anyway.
   */
  lemma DialogGuardMatchesRoute(f: FormData)
    ensures FormComplete(f) <==> VideosRoute.HasRequiredFields(RequestBody(f))
  {
  }

  /** The interval's updater: 100 once the bar is full, otherwise ten more. */
  function NextProgress(prev: nat): (next: nat)
    ensures prev < PROGRESS_DONE ==> next == prev + PROGRESS_STEP
    ensures prev >= PROGRESS_DONE ==> next == PROGRESS_DONE
  {
    if prev >= PROGRESS_DONE then PROGRESS_DONE else prev + PROGRESS_STEP
  }

  /** A position the progress bar can be in: a multiple of ten from 0 to 100. */
  predicate ProgressStep(p: nat)
  {
    p % PROGRESS_STEP == 0 && p <= PROGRESS_DONE
  }

  /** A tick keeps the bar on a multiple of ten within [0, 100]. */
  lemma NextProgressKeepsStep(p: nat)
    requires ProgressStep(p)
    ensures ProgressStep(NextProgress(p))
  {
  }

  /** The bar after `k` ticks from 0. */
  function ProgressAfter(k: nat): nat
  {
    if k == 0 then 0 else NextProgress(ProgressAfter(k - 1))
  }

  /** After `k` ticks from 0 the bar shows min(10k, 100). */
  lemma {:induction false} ProgressAfterClosedForm(k: nat)
    ensures ProgressAfter(k) == if PROGRESS_STEP * k < PROGRESS_DONE then PROGRESS_STEP * k else PROGRESS_DONE
    ensures ProgressStep(ProgressAfter(k))
  {
    if k > 0 {
      ProgressAfterClosedForm(k - 1);
    }
  }

  class UploadVideoDialog {
    var open: bool
    var uploading: bool
    var uploadProgress: nat
    var formData: FormData
    var dragActive: bool
    /** The progress interval of the last upload is still running. */
    var intervalActive: bool
    /** The two-second timeout of the last upload has not fired yet. */
    var timeoutPending: bool

    /** The progress bar only ever shows a multiple of ten between 0 and 100. */
    ghost predicate Valid()
      reads this
    {
      ProgressStep(uploadProgress)
    }

    constructor ()
      ensures Valid()
      ensures !open && !uploading && uploadProgress == 0 && formData == EMPTY_FORM
      ensures !dragActive && !intervalActive && !timeoutPending
    {
      open := false;
      uploading := false;
      uploadProgress := 0;
      formData := EMPTY_FORM;
      dragActive := false;
      intervalActive := false;
      timeoutPending := false;
    }

    /** `onOpenChange` and the Cancel button. */
    method SetOpen(value: bool)
      modifies this`open
      ensures open == value
    {
      open := value;
    }

    /** Typing into one of the inputs replaces the form. */
    method EditForm(f: FormData)
      modifies this`formData
      ensures formData == f
    {
      formData := f;
    }

    /**
     * The "Create Video" button's `disabled` expression, negated: an
     * enabled button posts a body the create route accepts.
     */
    predicate SubmitEnabled()
      reads this
      ensures SubmitEnabled() ==> VideosRoute.HasRequiredFields(RequestBody(formData))
    {
      DialogGuardMatchesRoute(formData);
      !uploading && FormComplete(formData)
    }

    /**
     * `handleSubmit`. `outcome` is how the create request ended; `request`
     * is the form it posted (`None` when the guard stopped it), `alert` the
     * message shown to the admin, and `uploaded` whether `onVideoUploaded`
     * was handed the reply's `video` (the admin page refetches its list
     * then).
     */
    method HandleSubmit(outcome: PostOutcome) returns (request: Option<FormData>, alert: Option<string>, uploaded: bool)
      modifies this`uploading, this`formData, this`open
      ensures request.None? <==> !FormComplete(old(formData))
      ensures request.None? ==>
        && alert == Some(FILL_REQUIRED_ALERT) && !uploaded
        && formData == old(formData) && open == old(open) && uploading == old(uploading)
      ensures request.Some? ==> request.value == old(formData) && !uploading
      ensures uploaded <==> request.Some? && Created(outcome)
      // a created video resets the form and closes the dialog
      ensures uploaded ==> formData == EMPTY_FORM && !open && alert.None?
      // any failure, an unreadable reply included, keeps what the admin typed
      ensures request.Some? && !Created(outcome) ==>
        formData == old(formData) && open == old(open) && alert == Some(UPLOAD_FAILED_ALERT)
    {
      if !FormComplete(formData) {
        return None, Some(FILL_REQUIRED_ALERT), false;
      }
      uploading := true;
      request := Some(formData);
      alert := None;
      uploaded := false;
      match outcome {
        case Answered(ok, reply) =>
          if !ok {
            // `throw new Error('Failed to create video')`, caught below
            alert := Some(UPLOAD_FAILED_ALERT);
          } else if reply.Unparsable? {
            // `response.json()` throws, caught below
            alert := Some(UPLOAD_FAILED_ALERT);
          } else {
            // `onVideoUploaded?.(video)`, then the reset
            uploaded := true;
            formData := EMPTY_FORM;
            open := false;
          }
        case FetchThrew =>
          alert := Some(UPLOAD_FAILED_ALERT);
      }
      uploading := false;
    }

    /** `handleFileUpload`: the bar restarts at 0 and both timers are armed. */
    method HandleFileUpload()
      modifies this`uploading, this`uploadProgress, this`intervalActive, this`timeoutPending
      ensures Valid()
      ensures uploading && uploadProgress == 0 && intervalActive && timeoutPending
    {
      uploading := true;
      uploadProgress := 0;
      intervalActive := true;
      timeoutPending := true;
    }

    /**
     * One firing of the 200 ms interval. A tick that finds the bar full
     * stops the interval and the spinner.
     */
    method ProgressTick()
      requires Valid()
      modifies this`uploading, this`uploadProgress, this`intervalActive
      ensures Valid()
      ensures !old(intervalActive) ==>
        uploadProgress == old(uploadProgress) && uploading == old(uploading) && !intervalActive
      ensures old(intervalActive) ==> uploadProgress == NextProgress(old(uploadProgress))
      ensures old(intervalActive) && old(uploadProgress) >= PROGRESS_DONE ==> !intervalActive && !uploading
      ensures old(intervalActive) && old(uploadProgress) < PROGRESS_DONE ==>
        intervalActive && uploading == old(uploading)
    {
      if intervalActive {
        NextProgressKeepsStep(uploadProgress);
        if uploadProgress >= PROGRESS_DONE {
          intervalActive := false;
          uploading := false;
        }
        uploadProgress := NextProgress(uploadProgress);
      }
    }

    /**
     * The two-second timeout: the object URL of the file becomes the
     * form's video URL, the interval stops and the bar shows 100.
     */
    method UploadTimeoutFired(objectUrl: string)
      requires Valid()
      modifies this`formData, this`intervalActive, this`uploadProgress, this`uploading, this`timeoutPending
      ensures Valid() && !timeoutPending
      ensures old(timeoutPending) ==>
        && formData == old(formData).(video_url := objectUrl)
        && !intervalActive && uploadProgress == PROGRESS_DONE && !uploading
      ensures !old(timeoutPending) ==>
        && formData == old(formData) && intervalActive == old(intervalActive)
        && uploadProgress == old(uploadProgress) && uploading == old(uploading)
    {
      if timeoutPending {
        formData := formData.(video_url := objectUrl);
        intervalActive := false;
        uploadProgress := PROGRESS_DONE;
        uploading := false;
        timeoutPending := false;
      }
    }

    /** `handleDrag`: enter and over light the drop zone, leave dims it, anything else is ignored. */
    method HandleDrag(eventType: string)
      modifies this`dragActive
      ensures eventType == "dragenter" || eventType == "dragover" ==> dragActive
      ensures eventType == "dragleave" ==> !dragActive
      ensures eventType !in {"dragenter", "dragover", "dragleave"} ==> dragActive == old(dragActive)
    {
      if eventType == "dragenter" || eventType == "dragover" {
        dragActive := true;
      } else if eventType == "dragleave" {
        dragActive := false;
      }
    }

    /**
     * `handleDrop`: the zone is dimmed, and only the first dropped file is
     * uploaded, and only when its type is a video type.
     */
    method HandleDrop(files: seq<FileInfo>) returns (started: bool)
      requires Valid()
      modifies this`dragActive, this`uploading, this`uploadProgress, this`intervalActive, this`timeoutPending
      ensures Valid() && !dragActive
      ensures started <==> |files| > 0 && StartsWith(files[0].mimeType, VIDEO_MIME_PREFIX)
      ensures started ==> uploading && uploadProgress == 0 && intervalActive && timeoutPending
      ensures !started ==>
        && uploading == old(uploading) && uploadProgress == old(uploadProgress)
        && intervalActive == old(intervalActive) && timeoutPending == old(timeoutPending)
    {
      dragActive := false;
      started := false;
      if |files| > 0 {
        var file := files[0];
        if StartsWith(file.mimeType, VIDEO_MIME_PREFIX) {
          HandleFileUpload();
          started := true;
        }
      }
    }

    /** The file picker's `onChange`: any chosen file is uploaded, whatever its type. */
    method ChooseFile(file: Option<FileInfo>)
      requires Valid()
      modifies this`uploading, this`uploadProgress, this`intervalActive, this`timeoutPending
      ensures Valid()
      ensures file.Some? ==> uploading && uploadProgress == 0 && intervalActive && timeoutPending
      ensures file.None? ==>
        && uploading == old(uploading) && uploadProgress == old(uploadProgress)
        && intervalActive == old(intervalActive) && timeoutPending == old(timeoutPending)
    {
      if file.Some? {
        HandleFileUpload();
      }
    }

    /** "Remove": clears the video URL and keeps the other four fields. */
    method RemoveVideo()
      modifies this`formData
      ensures formData.video_url == ""
      ensures formData == old(formData).(video_url := "")
    {
      formData := formData.(video_url := "");
    }
  }

  /**
   * An enabled "Create Video" button posts a body the create route
   * accepts, and after "Remove" the button is disabled until a URL is back.
   */
  lemma SubmitEnabledMeansAccepted(d: UploadVideoDialog)
    requires d.SubmitEnabled()
    ensures VideosRoute.HasRequiredFields(RequestBody(d.formData))
    ensures !FormComplete(d.formData.(video_url := ""))
  {
    DialogGuardMatchesRoute(d.formData);
  }
}
