/**
 * components/feedback-form.tsx: the comment box on the review page. A
 * submission sends the trimmed comment, tagged with the playback position
 * when the player is past the start; the box is cleared only when the
 * callback succeeds. The awaited `onSubmit` is an input: its completion is
 * what the handler observes, and the feedback it would receive is returned.
 */
module FeedbackForm {
  import opened Types
  import opened Text
  import opened Clock

  /** The object handed to `onSubmit`; `timestamp` is `undefined` at the start of the video. */
  datatype Feedback = Feedback(comment: string, timestamp: Option<real>)

  /**
   * What a submission of `comment` at position `currentTime` sends: nothing
   * for a blank comment, otherwise the trimmed text, with the position only
   * when it is positive.
   */
  function FeedbackFor(comment: string, currentTime: real): (r: Option<Feedback>)
    ensures r.None? <==> AllWhitespace(comment)
    ensures r.Some? ==> r.value.comment == Trim(comment)
    ensures r.Some? ==>
      && r.value.comment != ""
      && !IsWhitespace(r.value.comment[0]) && !IsWhitespace(r.value.comment[|r.value.comment| - 1])
      && Contains(comment, r.value.comment)
    ensures r.Some? ==> (r.value.timestamp.Some? <==> currentTime > 0.0)
    ensures r.Some? && r.value.timestamp.Some? ==> r.value.timestamp.value == currentTime
  {
    var text := Trim(comment);
    TrimEmptyIffBlank(comment);
    TrimHasNoOuterWhitespace(comment);
    TrimOccursInInput(comment);
    if text == "" then None
    else Some(Feedback(text, if currentTime > 0.0 then Some(currentTime) else None))
  }

  /**
   * The clock badge beside the heading: shown only past the start of the
   * video, as `m:ss` of the whole seconds elapsed. For a non-negative
   * position, flooring `t / 60` and `t % 60` is the same as splitting the
   * floor of `t` into minutes and seconds.
   */
  function TimeBadge(currentTime: real): (r: Option<string>)
    ensures r.Some? <==> currentTime > 0.0
    ensures r.Some? ==> ParseMinSec(r.value) == Some(currentTime.Floor as nat)
  {
    if currentTime > 0.0 then
      FormatMinSecRoundTrip(currentTime.Floor as nat);
      Some(FormatMinSec(currentTime.Floor as nat))
    else None
  }

  class FeedbackForm {
    /** The page's props: the player position and the lock for decided videos. */
    var currentTime: real
    var disabled: bool
    /** The component's state. */
    var comment: string
    var isSubmitting: bool

    /** A fresh form; the position defaults to 0 when the page passes none. */
    constructor (currentTime: real, disabled: bool)
      ensures this.currentTime == currentTime && this.disabled == disabled
      ensures comment == "" && !isSubmitting
    {
      this.currentTime := currentTime;
      this.disabled := disabled;
      comment := "";
      isSubmitting := false;
    }

    /**
     * A re-render with new props: the page passes the player's position as
     * it moves and re-locks the form when the video's status changes; the
     * typed comment and the submitting flag survive it.
     */
    method SetProps(currentTime: real, disabled: bool)
      modifies this`currentTime, this`disabled
      ensures this.currentTime == currentTime && this.disabled == disabled
      ensures comment == old(comment) && isSubmitting == old(isSubmitting)
    {
      this.currentTime := currentTime;
      this.disabled := disabled;
    }

    /** Typing in the text area. */
    method SetComment(text: string)
      modifies this`comment
      ensures comment == text
    {
      comment := text;
    }

    /** The submit button's `disabled` expression, negated. */
    predicate SubmitEnabled()
      reads this
      ensures SubmitEnabled() ==> !disabled && FeedbackFor(comment, currentTime).Some?
    {
      Trim(comment) != "" && !disabled && !isSubmitting
    }

    /**
     * `handleSubmit`. `outcome` is how the awaited `onSubmit` ended;
     * `submitted` is what it was called with, `None` when the early return
     * for a blank comment skipped it.
     */
    method HandleSubmit(outcome: Completion) returns (submitted: Option<Feedback>)
      modifies this`comment, this`isSubmitting
      ensures submitted == FeedbackFor(old(comment), currentTime)
      // a blank comment changes nothing
      ensures submitted.None? ==> comment == old(comment) && isSubmitting == old(isSubmitting)
      // after a submission the button is free again; the text goes only on success
      ensures submitted.Some? ==> !isSubmitting
      ensures submitted.Some? && outcome == Completed ==> comment == ""
      ensures submitted.Some? && outcome == Threw ==> comment == old(comment)
    {
      var text := Trim(comment);
      if text == "" {
        return None;
      }
      isSubmitting := true;
      submitted := Some(Feedback(text, if currentTime > 0.0 then Some(currentTime) else None));
      if outcome == Completed {
        comment := "";
      }
      isSubmitting := false;
    }
  }

  /**
   * An enabled submit button always sends something: the trimmed comment
   * is non-empty, and it carries the position exactly when the player is
   * past the start.
   */
  lemma EnabledSubmitSends(form: FeedbackForm)
    requires form.SubmitEnabled()
    ensures var r := FeedbackFor(form.comment, form.currentTime);
      && r.Some? && r.value.comment == Trim(form.comment)
      && (r.value.timestamp.Some? <==> form.currentTime > 0.0)
  {
    TrimEmptyIffBlank(form.comment);
  }
}
