/**
 * components/approval-actions.tsx: the card under the video on the review
 * page. For a decided video (approved, published, rejected) it shows a
 * status panel; for a draft or a video under review it offers "All OK" and
 * "Reject", which run the page's callbacks while the buttons are locked.
 * The awaited callback is an input: its completion is what the handler
 * observes, and the state it sees while the callback runs is returned.
 */
module ApprovalActions {
  import opened Types
  import opened Text

  datatype Action = Approve | Reject

  /** The panel shown for a decided video (its icon is left out). */
  datatype StatusInfo = StatusInfo(text: string, description: string, color: string)

  const APPROVED_DESCRIPTION: string := "This video has been approved and will be published automatically."
  const PUBLISHED_DESCRIPTION: string := "This video has been published successfully."
  const REJECTED_DESCRIPTION: string := "This video has been rejected. Please review and resubmit."

  const APPROVE_LABEL: string := "\U{2705} All OK"
  const APPROVING_LABEL: string := "Approving..."
  const REJECT_LABEL: string := "Reject"
  const REJECTING_LABEL: string := "Rejecting..."

  /** `getStatusInfo`: a panel for approved, published and rejected videos, none otherwise. */
  function GetStatusInfo(status: Status): (r: Option<StatusInfo>)
    ensures r.None? <==> status == Draft || status == Review
    ensures r.Some? ==> r.value.description != ""
  {
    match status
    case Approved => Some(StatusInfo("Approved", APPROVED_DESCRIPTION, "text-green-600"))
    case Published => Some(StatusInfo("Published", PUBLISHED_DESCRIPTION, "text-blue-600"))
    case Rejected => Some(StatusInfo("Rejected", REJECTED_DESCRIPTION, "text-red-600"))
    case _ => None
  }

  /**
   * The panel's heading is the capitalised stored status name, and the
   * three decided statuses get three different colours.
   */
  lemma StatusInfoMatchesStatus(a: Status, b: Status)
    requires GetStatusInfo(a).Some? && GetStatusInfo(b).Some?
    ensures GetStatusInfo(a).value.text == Capitalize(StatusName(a))
    ensures a != b ==> GetStatusInfo(a).value.color != GetStatusInfo(b).value.color
  {
    match a
    case Approved =>
      assert Capitalize("approved") == "Approved";
    case Published =>
      assert Capitalize("published") == "Published";
    case Rejected =>
      assert Capitalize("rejected") == "Rejected";
  }

  class ApprovalActions {
    /** The page's props: the video's status and the lock for decided videos. */
    var status: Status
    var disabled: bool
    /** The component's state. */
    var isProcessing: bool
    var action: Option<Action>

    constructor (status: Status, disabled: bool)
      ensures this.status == status && this.disabled == disabled
      ensures !isProcessing && action == None
    {
      this.status := status;
      this.disabled := disabled;
      isProcessing := false;
      action := None;
    }

    /**
     * A re-render with new props, as after the page refetches the video
     * once a decision went through; the processing state survives it, and
     * the card shows buttons exactly for a draft or a video under review.
     */
    method SetProps(status: Status, disabled: bool)
      modifies this`status, this`disabled
      ensures this.status == status && this.disabled == disabled
      ensures isProcessing == old(isProcessing) && action == old(action)
      ensures OffersButtons() <==> status == Draft || status == Review
    {
      this.status := status;
      this.disabled := disabled;
    }

    /** The two buttons are rendered only when there is no status panel. */
    predicate OffersButtons()
      reads this
    {
      GetStatusInfo(status).None?
    }

    /** Both buttons share one `disabled` expression. */
    predicate ButtonsDisabled()
      reads this
    {
      disabled || isProcessing
    }

    /** The approve button's caption: a spinner label only while an approval runs. */
    function ApproveCaption(): (caption: string)
      reads this
      ensures caption == APPROVING_LABEL <==> isProcessing && action == Some(Approve)
    {
      if isProcessing && action == Some(Approve) then APPROVING_LABEL else APPROVE_LABEL
    }

    /** The reject button's caption: a spinner label only while a rejection runs. */
    function RejectCaption(): (caption: string)
      reads this
      ensures caption == REJECTING_LABEL <==> isProcessing && action == Some(Reject)
    {
      if isProcessing && action == Some(Reject) then REJECTING_LABEL else REJECT_LABEL
    }

    /**
     * `handleApprove`. `outcome` is how the awaited `onApprove` ended;
     * `busy` and `running` are the state it ran under. Whether or not it
     * threw, the component ends idle.
     */
    method HandleApprove(outcome: Completion) returns (busy: bool, running: Option<Action>)
      modifies this`isProcessing, this`action
      ensures busy && running == Some(Approve)
      ensures !isProcessing && action == None
    {
      isProcessing := true;
      action := Some(Approve);
      busy, running := isProcessing, action;
      // `await onApprove()`: a throw is caught and logged, and `finally` runs either way
      isProcessing := false;
      action := None;
    }

    /** `handleReject`, the same protocol around `onReject`. */
    method HandleReject(outcome: Completion) returns (busy: bool, running: Option<Action>)
      modifies this`isProcessing, this`action
      ensures busy && running == Some(Reject)
      ensures !isProcessing && action == None
    {
      isProcessing := true;
      action := Some(Reject);
      busy, running := isProcessing, action;
      isProcessing := false;
      action := None;
    }
  }

  /**
   * Buttons are offered exactly for drafts and videos under review, and
   * while a callback runs they are disabled and the running one shows its
   * spinner caption.
   */
  lemma ButtonsWhileProcessing(c: ApprovalActions)
    requires c.isProcessing && c.action.Some?
    ensures c.OffersButtons() <==> c.status == Draft || c.status == Review
    ensures c.ButtonsDisabled()
    ensures c.action == Some(Approve) ==> c.ApproveCaption() == APPROVING_LABEL && c.RejectCaption() == REJECT_LABEL
    ensures c.action == Some(Reject) ==> c.RejectCaption() == REJECTING_LABEL && c.ApproveCaption() == APPROVE_LABEL
  {
  }
}
