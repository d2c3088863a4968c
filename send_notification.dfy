/**
 * app/api/send-notification/route.ts: decides, from the request body, the
 * recipient lookup and the outcome of the send, which status code the
 * route answers with and which e-mail (if any) goes out. The recipient
 * lookup and the e-mail service are inputs; the HTML bodies are not modelled.
 */
module SendNotification {
  import opened Types
  import opened Http

  const SENDER: string := "Allok Agency <noreply@allok-agency.com>"
  const PUBLISHED_TYPE: string := "video_published"
  const APPROVED_TYPE: string := "video_approved"
  const PUBLISHED_SUBJECT: string := "\U{1F389} Your Video Has Been Published!"
  const APPROVED_SUBJECT: string := "\U{2705} Video Approved - Publishing Soon"

  /** The JSON body; `kind` is the request's `type` field. */
  datatype NotifyBody = NotifyBody(
    kind: Option<string>,
    videoId: Option<string>,
    videoTitle: Option<string>,
    publishedUrl: Option<string>,
    platform: Option<string>,
    clientId: Option<string>
  )

  /** The message handed to the e-mail service. */
  datatype Email = Email(from: string, to: seq<string>, subject: string)

  /** What the e-mail service answers: a message id (possibly absent) or an error. */
  datatype SendResult = Delivered(id: Option<string>) | DeliveryFailed(message: string)

  /**
   * The route's answer together with its effects: whether it looked the
   * recipient up, and the e-mail it sent.
   */
  datatype Decision = Decision(response: Response, lookedUp: bool, sent: Option<Email>)

  /** The subject line the `switch` picks for a notification type; other types have none. */
  function Subject(kind: string): (s: Option<string>)
    ensures s.Some? <==> kind == PUBLISHED_TYPE || kind == APPROVED_TYPE
  {
    if kind == PUBLISHED_TYPE then Some(PUBLISHED_SUBJECT)
    else if kind == APPROVED_TYPE then Some(APPROVED_SUBJECT)
    else None
  }

  /** The two notification types are told apart by their subjects. */
  lemma SubjectsDistinct()
    ensures Subject(PUBLISHED_TYPE) != Subject(APPROVED_TYPE)
  {
    assert PUBLISHED_SUBJECT[0] != APPROVED_SUBJECT[0];
  }

  /** The guard of the route: `type` and `videoId` are present and non-empty. */
  predicate HasRequiredFields(body: NotifyBody)
  {
    Truthy(body.kind) && Truthy(body.videoId)
  }

  /**
   * The route's decision. `request` is `None` when the body is not JSON;
   * `recipient` is the e-mail found for `clientId` (absent when there is no
   * such user or no address); `send` is the e-mail service's answer, only
   * consulted when a message goes out.
   */
  function Decide(request: Option<NotifyBody>, recipient: Option<string>, send: SendResult): (d: Decision)
    // the guard and the switch run before any lookup
    ensures d.lookedUp <==>
      request.Some? && HasRequiredFields(request.value) && Subject(request.value.kind.value).Some?
    ensures d.sent.Some? ==> d.lookedUp
    ensures d.response.status == BAD_REQUEST <==> request.Some? && !d.lookedUp
    ensures request.Some? && !HasRequiredFields(request.value) ==>
      d.response.body == ErrorBody("Missing required fields")
    ensures request.Some? && HasRequiredFields(request.value) && !d.lookedUp ==>
      d.response.body == ErrorBody("Unknown notification type")
    ensures d.response.status == NOT_FOUND <==> d.lookedUp && !Truthy(recipient)
    ensures d.response.status == NOT_FOUND ==> d.response.body == ErrorBody("Client email not found")
    ensures request.None? ==> d.response.body == ErrorBody("Internal server error")
    ensures d.sent.Some? && send.DeliveryFailed? ==> d.response.body == ErrorBody("Failed to send email")
    // exactly one recipient, a fixed sender, the subject of the type
    ensures d.sent.Some? <==> d.lookedUp && Truthy(recipient)
    ensures d.sent.Some? ==>
      && d.sent.value.from == SENDER
      && d.sent.value.to == [recipient.value]
      && Subject(request.value.kind.value) == Some(d.sent.value.subject)
    ensures d.response.status == OK <==> d.sent.Some? && send.Delivered?
    ensures d.response.status == OK ==> d.response.body == EmailSentBody(true, send.id)
    ensures d.response.status == SERVER_ERROR <==> request.None? || (d.sent.Some? && send.DeliveryFailed?)
  {
    if request.None? then
      Decision(Error(SERVER_ERROR, "Internal server error"), false, None)
    else
      var body := request.value;
      if !HasRequiredFields(body) then
        Decision(Error(BAD_REQUEST, "Missing required fields"), false, None)
      else
        match Subject(body.kind.value)
        case None =>
          Decision(Error(BAD_REQUEST, "Unknown notification type"), false, None)
        case Some(subject) =>
          if !Truthy(recipient) then
            Decision(Error(NOT_FOUND, "Client email not found"), true, None)
          else
            var email := Email(SENDER, [recipient.value], subject);
            match send
            case DeliveryFailed(_) =>
              Decision(Error(SERVER_ERROR, "Failed to send email"), true, Some(email))
            case Delivered(id) =>
              Decision(Response(OK, EmailSentBody(true, id)), true, Some(email))
  }
}
