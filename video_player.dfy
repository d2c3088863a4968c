/**
 * components/video-player.tsx: the review page's player. The component
 * mirrors the `<video>` element's state (playing, muted, position,
 * duration) through its event listeners and drives the element from its
 * controls. The element is modelled by the fields it exposes; its events
 * (`play`, `pause`, `timeupdate`, `loadedmetadata`) are methods the browser
 * calls. Positions are non-negative reals, as a media element keeps them.
 */
module VideoPlayer {
  import opened Types
  import opened Clock

  const REWIND_SECONDS: real := 10.0

  /** The rewind button's target: ten seconds back, but never before the start. */
  function RewindTarget(t: real): (r: real)
    ensures r >= 0.0
    ensures t >= REWIND_SECONDS ==> r == t - REWIND_SECONDS
    ensures t < REWIND_SECONDS ==> r == 0.0
  {
    if 0.0 > t - REWIND_SECONDS then 0.0 else t - REWIND_SECONDS
  }

  /** A rewind never moves forward from a position at or after the start. */
  lemma RewindNeverAdvances(t: real)
    requires t >= 0.0
    ensures RewindTarget(t) <= t
    ensures t - RewindTarget(t) <= REWIND_SECONDS
  {
  }

  /** `formatTime` of a non-negative position: `m:ss` of its whole seconds. */
  function ClockText(t: real): (r: string)
    requires t >= 0.0
    ensures ParseMinSec(r) == Some(t.Floor as nat)
  {
    FormatMinSecRoundTrip(t.Floor as nat);
    FormatMinSec(t.Floor as nat)
  }

  /** `r` is an `m:ss` clock for `first`, then " / " at `i`, then an `m:ss` clock for `second`. */
  predicate ClocksAt(r: string, i: int, first: nat, second: nat)
  {
    && 0 <= i <= |r| - 3 && r[i..i + 3] == " / "
    && ParseMinSec(r[..i]) == Some(first) && ParseMinSec(r[i + 3..]) == Some(second)
  }

  /** `r` shows a clock for `first` and one for `second`, separated by " / ". */
  predicate ShowsClocks(r: string, first: nat, second: nat)
  {
    exists i | 0 <= i <= |r| :: ClocksAt(r, i, first, second)
  }

  /** Two clocks joined by " / " show both times. */
  lemma ClocksAroundSlash(a: string, b: string, first: nat, second: nat)
    requires ParseMinSec(a) == Some(first) && ParseMinSec(b) == Some(second)
    ensures ShowsClocks(a + " / " + b, first, second)
  {
    var r := a + " / " + b;
    assert r[..|a|] == a && r[|a|..|a| + 3] == " / " && r[|a| + 3..] == b;
    assert ClocksAt(r, |a|, first, second);
  }

  class VideoPlayer {
    /** `videoRef.current` is set: every control below is a no-op without it. */
    const hasVideoElement: bool
    /** `containerRef.current` is set. */
    const hasContainer: bool

    // the `<video>` element
    var elementPaused: bool
    var elementMuted: bool
    var elementTime: real

    // the component's state
    var isPlaying: bool
    var isMuted: bool
    var currentTime: real
    var duration: real
    var isFullscreen: bool

    /** `document.fullscreenElement` is set. */
    var documentFullscreen: bool

    /**
     * Times are never negative, and while the element exists the mute
     * button's state is the element's.
     */
    ghost predicate Valid()
      reads this
    {
      && currentTime >= 0.0 && elementTime >= 0.0 && duration >= 0.0
      && (hasVideoElement ==> elementMuted == isMuted)
    }

    constructor (hasVideoElement: bool, hasContainer: bool)
      ensures Valid()
      ensures this.hasVideoElement == hasVideoElement && this.hasContainer == hasContainer
      ensures elementPaused && !elementMuted && elementTime == 0.0
      ensures !isPlaying && !isMuted && currentTime == 0.0 && duration == 0.0
      ensures !isFullscreen && !documentFullscreen
    {
      this.hasVideoElement := hasVideoElement;
      this.hasContainer := hasContainer;
      elementPaused := true;
      elementMuted := false;
      elementTime := 0.0;
      isPlaying := false;
      isMuted := false;
      currentTime := 0.0;
      duration := 0.0;
      isFullscreen := false;
      documentFullscreen := false;
    }

    /**
     * `togglePlay`: pauses the element when the component believes it is
     * playing, plays it otherwise; `isPlaying` follows later, from the
     * element's own `play` and `pause` events.
     */
    method TogglePlay()
      requires Valid()
      modifies this`elementPaused
      ensures Valid()
      ensures hasVideoElement ==> elementPaused == isPlaying
      ensures !hasVideoElement ==> elementPaused == old(elementPaused)
    {
      if !hasVideoElement {
        return;
      }
      if isPlaying {
        elementPaused := true;
      } else {
        elementPaused := false;
      }
    }

    /** The element's `play` event. */
    method OnPlay()
      requires Valid()
      modifies this`isPlaying
      ensures Valid() && isPlaying
    {
      isPlaying := true;
    }

    /** The element's `pause` event. */
    method OnPause()
      requires Valid()
      modifies this`isPlaying
      ensures Valid() && !isPlaying
    {
      isPlaying := false;
    }

    /**
     * The element's `timeupdate` event: the displayed position follows the
     * element, and `reported` is the value passed on to `onTimeUpdate`.
     */
    method OnTimeUpdate() returns (reported: real)
      requires Valid()
      modifies this`currentTime
      ensures Valid()
      ensures currentTime == elementTime && reported == elementTime
    {
      currentTime := elementTime;
      reported := elementTime;
    }

    /** The element's `loadedmetadata` event. */
    method OnLoadedMetadata(elementDuration: real)
      requires Valid() && elementDuration >= 0.0
      modifies this`duration
      ensures Valid() && duration == elementDuration
    {
      duration := elementDuration;
    }

    /** `toggleMute`: the element and the component both take the opposite of the component's flag. */
    method ToggleMute()
      requires Valid()
      modifies this`elementMuted, this`isMuted
      ensures Valid()
      ensures hasVideoElement ==> isMuted == !old(isMuted) && elementMuted == isMuted
      ensures !hasVideoElement ==> isMuted == old(isMuted) && elementMuted == old(elementMuted)
    {
      if !hasVideoElement {
        return;
      }
      elementMuted := !isMuted;
      isMuted := !isMuted;
    }

    /** Two presses of the mute button give back the original sound state, of the button and of the element. */
    method ToggleMuteTwice()
      requires Valid()
      modifies this`elementMuted, this`isMuted
      ensures Valid()
      ensures isMuted == old(isMuted) && elementMuted == old(elementMuted)
    {
      ToggleMute();
      ToggleMute();
    }

    /** `handleSeek`: the element and the displayed position move to the same time. */
    method HandleSeek(time: real)
      requires Valid() && time >= 0.0
      modifies this`elementTime, this`currentTime
      ensures Valid()
      ensures hasVideoElement ==> elementTime == time && currentTime == time
      ensures !hasVideoElement ==> elementTime == old(elementTime) && currentTime == old(currentTime)
    {
      if !hasVideoElement {
        return;
      }
      elementTime := time;
      currentTime := time;
    }

    /** The "10s" button: seeks to `max(0, currentTime - 10)`. */
    method Rewind()
      requires Valid()
      modifies this`elementTime, this`currentTime
      ensures Valid()
      ensures hasVideoElement ==> currentTime == RewindTarget(old(currentTime)) && elementTime == currentTime
      ensures hasVideoElement ==> currentTime <= old(currentTime)
      ensures !hasVideoElement ==> elementTime == old(elementTime) && currentTime == old(currentTime)
    {
      RewindNeverAdvances(currentTime);
      HandleSeek(RewindTarget(currentTime));
    }

    /**
     * `toggleFullscreen`: enters fullscreen when the document has no
     * fullscreen element, leaves it otherwise. The request is made on the
     * container only when it exists, but the flag is set either way.
     */
    method ToggleFullscreen()
      requires Valid()
      modifies this`isFullscreen, this`documentFullscreen
      ensures Valid()
      ensures isFullscreen == !old(documentFullscreen)
      ensures documentFullscreen == (!old(documentFullscreen) && hasContainer)
    {
      if !documentFullscreen {
        if hasContainer {
          documentFullscreen := true;
        }
        isFullscreen := true;
      } else {
        documentFullscreen := false;
        isFullscreen := false;
      }
    }

    /**
     * The `current / duration` text of the controls: two `m:ss` clocks, each
     * reading back to the whole seconds of its time, around " / ".
     */
    function TimeDisplay(): (r: string)
      requires Valid()
      reads this
      ensures |r| >= 11
      ensures ShowsClocks(r, currentTime.Floor as nat, duration.Floor as nat)
    {
      FormatMinSecShape(currentTime.Floor as nat);
      FormatMinSecShape(duration.Floor as nat);
      var played, total := ClockText(currentTime), ClockText(duration);
      ClocksAroundSlash(played, total, currentTime.Floor as nat, duration.Floor as nat);
      played + " / " + total
    }
  }
}
