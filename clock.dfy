/**
 * The `m:ss` rendering of a playback position or a duration, written three
 * times in the source with the same body: `formatDuration` on the admin
 * page and `formatTime` in the feedback form and in the video player.
 * Minutes are `Math.floor(t / 60)`, seconds `Math.floor(t % 60)` padded to
 * two digits with `'0'`.
 */
module Clock {
  import opened Types
  import opened Text

  /**
   * The `m:ss` text of a whole number of seconds: the minutes as `toString`
   * writes them, a colon, and a seconds field of exactly two characters.
   */
  function FormatMinSec(seconds: nat): (r: string)
    ensures |r| >= 4 && r[|r| - 3] == ':'
    ensures r[..|r| - 3] == NatToString(seconds / 60)
    ensures r[|r| - 2..] == PadStart(NatToString(seconds % 60), 2, '0')
  {
    var minutes, ss := NatToString(seconds / 60), PadStart(NatToString(seconds % 60), 2, '0');
    SecondsField(seconds % 60);
    ColonParts(minutes, ss);
    minutes + ":" + ss
  }

  /** The two sides of `minutes:ss` when the seconds field has two characters. */
  lemma ColonParts(minutes: string, ss: string)
    requires |ss| == 2
    ensures var r := minutes + ":" + ss;
      |r| >= 3 && r[|r| - 3] == ':' && r[..|r| - 3] == minutes && r[|r| - 2..] == ss
  {
    var r := minutes + ":" + ss;
    assert r[..|r| - 3] == minutes;
    assert r[|r| - 2..] == ss;
  }

  /**
   * Reads an `m:ss` text back: decimal minutes, a colon, then exactly two
   * digits whose value is below 60.
   */
  function ParseMinSec(text: string): (r: Option<nat>)
    ensures r.Some? ==> |text| >= 4 && text[|text| - 3] == ':'
    ensures r.Some? ==> IsMinSec(text, r.value)
  {
    var n := |text|;
    if n >= 4 && text[n - 3] == ':' && AllDigits(text[..n - 3]) && AllDigits(text[n - 2..])
       && DigitsValue(text[n - 2..]) < 60
    then Some(DigitsValue(text[..n - 3]) * 60 + DigitsValue(text[n - 2..]))
    else None
  }

  /** The seconds field: two digits whose value is the seconds, for any value below 60. */
  lemma SecondsField(n: nat)
    requires n < 60
    ensures var ss := PadStart(NatToString(n), 2, '0');
      |ss| == 2 && AllDigits(ss) && DigitsValue(ss) == n
  {
    var s := NatToString(n);
    if n >= 10 {
      assert s == NatToString(n / 10) + [DigitChar(n % 10)];
    }
    NatToStringRoundTrip(n);
    ZeroPadValue(s, 2);
  }

  /**
   * `text` has the shape of `m:ss`: decimal minutes, a colon and two
   * digits below 60, worth `value` seconds in all.
   */
  predicate IsMinSec(text: string, value: nat)
  {
    && |text| >= 4 && text[|text| - 3] == ':'
    && AllDigits(text[..|text| - 3]) && AllDigits(text[|text| - 2..])
    && DigitsValue(text[|text| - 2..]) < 60
    && DigitsValue(text[..|text| - 3]) * 60 + DigitsValue(text[|text| - 2..]) == value
  }

  /**
   * A text made of the decimal minutes `m`, a colon and the padded seconds
   * `sec < 60` has the `m:ss` shape, worth `m * 60 + sec`.
   */
  lemma MinSecOfParts(r: string, m: nat, sec: nat)
    requires sec < 60
    requires |r| >= 4 && r[|r| - 3] == ':'
    requires r[..|r| - 3] == NatToString(m) && r[|r| - 2..] == PadStart(NatToString(sec), 2, '0')
    ensures IsMinSec(r, m * 60 + sec)
  {
    SecondsField(sec);
    NatToStringRoundTrip(m);
  }

  /** Whole minutes and the seconds left over make up the input. */
  lemma SplitMinutes(seconds: nat)
    ensures seconds % 60 < 60 && (seconds / 60) * 60 + seconds % 60 == seconds
  {
  }

  /**
   * The shape of the rendering: decimal minutes, a colon, and a two-digit
   * seconds field below 60, worth the input in all.
   */
  lemma FormatMinSecShape(seconds: nat)
    ensures IsMinSec(FormatMinSec(seconds), seconds)
  {
    SplitMinutes(seconds);
    MinSecOfParts(FormatMinSec(seconds), seconds / 60, seconds % 60);
  }

  /** A text with the shape of `m:ss` reads back as its value. */
  lemma ParseMinSecOfShape(text: string, value: nat)
    requires IsMinSec(text, value)
    ensures ParseMinSec(text) == Some(value)
  {
  }

  /** Reading the rendering back gives the number of seconds. */
  lemma FormatMinSecRoundTrip(seconds: nat)
    ensures ParseMinSec(FormatMinSec(seconds)) == Some(seconds)
  {
    FormatMinSecShape(seconds);
    var r := FormatMinSec(seconds);
    assert IsMinSec(r, seconds);
    ParseMinSecOfShape(r, seconds);
  }

  /** Two different whole-second positions never render to the same text. */
  lemma FormatMinSecInjective(a: nat, b: nat)
    ensures FormatMinSec(a) == FormatMinSec(b) ==> a == b
  {
    FormatMinSecRoundTrip(a);
    FormatMinSecRoundTrip(b);
  }
}
