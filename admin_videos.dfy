/**
 * app/admin/videos/page.tsx: the admin list. The page keeps the fetched
 * videos and a filtered copy that is recomputed whenever the list, the
 * search term or the status filter changes; it shows per-status counts,
 * a colour and a capitalised label per status, `m:ss` durations, a review
 * link per video and a "View Published" action for published videos.
 */
module AdminVideos {
  import opened Types
  import opened Text
  import opened Clock
  import PublishVideo

  const ALL_STATUSES: string := "all"
  const UNKNOWN_DURATION: string := "Unknown"
  const GRAY: string := "bg-gray-500"
  const BLUE: string := "bg-blue-500"
  const GREEN: string := "bg-green-500"
  const PURPLE: string := "bg-purple-500"
  const RED: string := "bg-red-500"

  // ---------------------------------------------------------------------
  // Array.prototype.filter

  /** `a` can be obtained from `b` by deleting elements, keeping the order of the rest. */
  ghost predicate IsSubsequence(a: seq<Video>, b: seq<Video>)
    decreases |b|
  {
    a == [] || (b != [] && ((a[0] == b[0] && IsSubsequence(a[1..], b[1..])) || IsSubsequence(a, b[1..])))
  }

  /** `xs.filter(keep)`: the elements that pass, in their original order. */
  function Filter(xs: seq<Video>, keep: Video -> bool): (r: seq<Video>)
    ensures |r| <= |xs|
    ensures forall x :: x in r <==> x in xs && keep(x)
    ensures IsSubsequence(r, xs)
    // every copy of a passing element is kept, and no copy of a failing one
    ensures forall x :: multiset(r)[x] == if keep(x) then multiset(xs)[x] else 0
    decreases |xs|
  {
    if xs == [] then []
    else
      var rest := Filter(xs[1..], keep);
      assert xs == [xs[0]] + xs[1..];
      if keep(xs[0]) then
        assert ([xs[0]] + rest)[1..] == rest;
        [xs[0]] + rest
      else rest
  }

  /** Filtering a concatenation filters each part and keeps them in order. */
  lemma {:induction false} FilterAppend(a: seq<Video>, b: seq<Video>, keep: Video -> bool)
    ensures Filter(a + b, keep) == Filter(a, keep) + Filter(b, keep)
    decreases |a|
  {
    if a == [] {
      assert a + b == b;
    } else {
      assert (a + b)[0] == a[0];
      assert (a + b)[1..] == a[1..] + b;
      FilterAppend(a[1..], b, keep);
    }
  }

  /** Filters that agree on every element give the same result. */
  lemma {:induction false} FilterCongruent(xs: seq<Video>, p: Video -> bool, q: Video -> bool)
    requires forall x :: x in xs ==> p(x) == q(x)
    ensures Filter(xs, p) == Filter(xs, q)
    decreases |xs|
  {
    if xs != [] {
      FilterCongruent(xs[1..], p, q);
    }
  }

  /** A filter that every element passes returns the list unchanged. */
  lemma {:induction false} FilterKeepsAll(xs: seq<Video>, keep: Video -> bool)
    requires forall x :: x in xs ==> keep(x)
    ensures Filter(xs, keep) == xs
    decreases |xs|
  {
    if xs != [] {
      FilterKeepsAll(xs[1..], keep);
    }
  }

  /** Two filters in a row are one filter by both conditions. */
  lemma {:induction false} FilterTwice(xs: seq<Video>, p: Video -> bool, q: Video -> bool)
    ensures Filter(Filter(xs, p), q) == Filter(xs, x => p(x) && q(x))
    decreases |xs|
  {
    if xs != [] {
      FilterTwice(xs[1..], p, q);
      if p(xs[0]) {
        assert Filter(xs, p)[1..] == Filter(xs[1..], p);
      }
    }
  }

  // ---------------------------------------------------------------------
  // Search and status filters

  /** The search: the lower-cased title or description contains the lower-cased term. */
  predicate MatchesSearch(v: Video, term: string)
  {
    || Contains(ToLower(v.title), ToLower(term))
    || (v.description.Some? && Contains(ToLower(v.description.value), ToLower(term)))
  }

  /** `video.status === statusFilter`. */
  predicate HasStatus(v: Video, statusFilter: string)
  {
    StatusName(v.status) == statusFilter
  }

  /** A video passes both filters; an empty term and the filter `all` let everything through. */
  predicate PassesFilters(v: Video, term: string, statusFilter: string)
  {
    (term == "" || MatchesSearch(v, term)) && (statusFilter == ALL_STATUSES || HasStatus(v, statusFilter))
  }

  /**
   * The list the table shows: the fetched videos that pass both filters,
   * in the fetched order.
   */
  function Visible(vs: seq<Video>, term: string, statusFilter: string): (r: seq<Video>)
    ensures forall v :: v in r <==> v in vs && PassesFilters(v, term, statusFilter)
    ensures forall v :: multiset(r)[v] == if PassesFilters(v, term, statusFilter) then multiset(vs)[v] else 0
    ensures IsSubsequence(r, vs)
    ensures term == "" && statusFilter == ALL_STATUSES ==> r == vs
  {
    var keep := v => PassesFilters(v, term, statusFilter);
    if term == "" && statusFilter == ALL_STATUSES then
      FilterKeepsAll(vs, keep);
      Filter(vs, keep)
    else
      Filter(vs, keep)
  }

  // ---------------------------------------------------------------------
  // Counts, colours, labels, durations, links

  /** `videos.filter(v => v.status === s).length`. */
  function StatusCount(vs: seq<Video>, s: Status): (n: nat)
    ensures n <= |vs|
  {
    |Filter(vs, (v: Video) => v.status == s)|
  }

  /** Every video is counted under exactly one status. */
  lemma {:induction false} StatusCountsPartition(vs: seq<Video>)
    ensures StatusCount(vs, Draft) + StatusCount(vs, Review) + StatusCount(vs, Approved)
            + StatusCount(vs, Published) + StatusCount(vs, Rejected) == |vs|
    decreases |vs|
  {
    if vs != [] {
      StatusCountsPartition(vs[1..]);
    }
  }

  /** The four cards on top of the page: total, in review, approved, published. */
  datatype Stats = Stats(total: nat, inReview: nat, approved: nat, published: nat)

  function PageStats(vs: seq<Video>): (s: Stats)
    ensures s.total == |vs|
    ensures s.inReview == StatusCount(vs, Review) && s.approved == StatusCount(vs, Approved)
    ensures s.published == StatusCount(vs, Published)
    ensures s.inReview + s.approved + s.published <= s.total
  {
    StatusCountsPartition(vs);
    Stats(|vs|, StatusCount(vs, Review), StatusCount(vs, Approved), StatusCount(vs, Published))
  }

  /** A status card shows as many videos as choosing that status in the filter lists. */
  lemma StatusCountMatchesFilter(vs: seq<Video>, s: Status)
    ensures StatusCount(vs, s) == |Visible(vs, "", StatusName(s))|
  {
    forall v: Video ensures (v.status == s) == PassesFilters(v, "", StatusName(s)) {
      StatusRoundTrip(v.status);
      StatusRoundTrip(s);
    }
    FilterCongruent(vs, (v: Video) => v.status == s, v => PassesFilters(v, "", StatusName(s)));
  }

  /** `getStatusColor`: the badge colour of a status string. */
  function StatusColor(status: string): (c: string)
    ensures c in {GRAY, BLUE, GREEN, PURPLE, RED}
    ensures c == GRAY <==> status !in {"review", "approved", "published", "rejected"}
  {
    if status == "draft" then GRAY
    else if status == "review" then BLUE
    else if status == "approved" then GREEN
    else if status == "published" then PURPLE
    else if status == "rejected" then RED
    else GRAY
  }

  /** Apart from drafts, which share gray with unknown values, each status has its own colour. */
  lemma StatusColorsDistinct(a: Status, b: Status)
    requires a != b && a != Draft && b != Draft
    ensures StatusColor(StatusName(a)) != StatusColor(StatusName(b))
  {
  }

  /** `status.charAt(0).toUpperCase() + status.slice(1)`. */
  function StatusLabel(s: Status): (r: string)
    // the badge reads Draft, Review, Approved, Published or Rejected
    ensures r == match s
      case Draft => "Draft"
      case Review => "Review"
      case Approved => "Approved"
      case Published => "Published"
      case Rejected => "Rejected"
  {
    match s
    case Draft =>
      assert Capitalize("draft") == "Draft";
      Capitalize(StatusName(s))
    case Review =>
      assert Capitalize("review") == "Review";
      Capitalize(StatusName(s))
    case Approved =>
      assert Capitalize("approved") == "Approved";
      Capitalize(StatusName(s))
    case Published =>
      assert Capitalize("published") == "Published";
      Capitalize(StatusName(s))
    case Rejected =>
      assert Capitalize("rejected") == "Rejected";
      Capitalize(StatusName(s))
  }

  /** Lower-casing a badge gives back the stored status. */
  lemma StatusLabelLowersBack(s: Status)
    ensures ToLower(StatusLabel(s)) == StatusName(s)
  {
    match s
    case Draft =>
      assert ToLower("Draft") == "draft";
    case Review =>
      assert ToLower("Review") == "review";
    case Approved =>
      assert ToLower("Approved") == "approved";
    case Published =>
      assert ToLower("Published") == "published";
    case Rejected =>
      assert ToLower("Rejected") == "rejected";
  }

  /** The duration column: `m:ss` for a positive duration, "Unknown" when absent or zero. */
  function DurationCell(duration: Option<nat>): (r: string)
    ensures r == UNKNOWN_DURATION <==> duration.None? || duration.value == 0
    ensures duration.Some? && duration.value > 0 ==> ParseMinSec(r) == Some(duration.value)
  {
    if duration.Some? && duration.value != 0 then
      FormatMinSecShape(duration.value);
      FormatMinSecRoundTrip(duration.value);
      FormatMinSec(duration.value)
    else UNKNOWN_DURATION
  }

  /** `generateReviewLink`: the page origin, `/review/`, and the video id. */
  function ReviewLink(origin: string, videoId: string): (r: string)
    ensures StartsWith(r, origin + "/review/")
    ensures |r| == |origin| + |"/review/"| + |videoId|
  {
    origin + "/review/" + videoId
  }

  /** The video id a review link points at, for links under `origin`. */
  function ReviewLinkVideoId(origin: string, link: string): Option<string>
  {
    var prefix := origin + "/review/";
    if StartsWith(link, prefix) then Some(link[|prefix|..]) else None
  }

  /** A review link leads back to its video, so distinct videos get distinct links. */
  lemma ReviewLinkRoundTrip(origin: string, videoId: string)
    ensures ReviewLinkVideoId(origin, ReviewLink(origin, videoId)) == Some(videoId)
  {
    var prefix := origin + "/review/";
    var link := ReviewLink(origin, videoId);
    assert link == prefix + videoId;
    assert link[..|prefix|] == prefix;
    assert link[|prefix|..] == videoId;
  }

  /** "View Published" is offered for a published video that has a published URL. */
  predicate ShowsViewPublished(v: Video)
    ensures ShowsViewPublished(v) ==> v.status == Published && v.published_url.Some? && v.published_url.value != ""
  {
    v.status == Published && Truthy(v.published_url)
  }

  /**
   * A video the publish route has just published shows "View Published"
   * whenever its asset URL is non-empty, which the create route guarantees.
   */
  lemma PublishedVideoShowsLink(v: Video, env: PublishVideo.Env, now: Timestamp)
    requires v.video_url != ""
    ensures var t := PublishVideo.SelectTarget(env);
      ShowsViewPublished(PublishVideo.MarkPublished(v, PublishVideo.PublishedUrl(t, v), PublishVideo.PlatformOf(t), now))
  {
    var t := PublishVideo.SelectTarget(env);
    if t == PublishVideo.YouTubeTarget {
      assert |PublishVideo.PublishToYouTube(v).url| > 0;
    }
  }

  // ---------------------------------------------------------------------
  // The page's state

  /** What the initial fetch returns: rows (possibly `null`) or an error. */
  datatype FetchResult = Fetched(data: Option<seq<Video>>) | FetchFailed

  class AdminVideosPage {
    var videos: seq<Video>
    var filteredVideos: seq<Video>
    var loading: bool
    var searchTerm: string
    var statusFilter: string

    /** The table always shows the filtered list of the current state. */
    ghost predicate Valid()
      reads this
    {
      filteredVideos == Visible(videos, searchTerm, statusFilter)
    }

    constructor ()
      ensures Valid() && videos == [] && filteredVideos == [] && loading
      ensures searchTerm == "" && statusFilter == ALL_STATUSES
    {
      videos := [];
      filteredVideos := [];
      loading := true;
      searchTerm := "";
      statusFilter := ALL_STATUSES;
    }

    /**
     * `filterVideos`: narrows by the search term when it is non-empty,
     * then by status unless the filter is `all`.
     */
    method FilterVideos()
      modifies this`filteredVideos
      ensures Valid()
    {
      var filtered := videos;
      var term := searchTerm;
      var wanted := statusFilter;
      var bySearch := (v: Video) => MatchesSearch(v, term);
      var byStatus := (v: Video) => HasStatus(v, wanted);
      if term != "" {
        filtered := Filter(filtered, bySearch);
      }
      if wanted != ALL_STATUSES {
        filtered := Filter(filtered, byStatus);
      }
      filteredVideos := filtered;

      var keep := (v: Video) => PassesFilters(v, term, wanted);
      if term != "" && wanted != ALL_STATUSES {
        FilterTwice(videos, bySearch, byStatus);
        FilterCongruent(videos, x => bySearch(x) && byStatus(x), keep);
      } else if term != "" {
        FilterCongruent(videos, bySearch, keep);
      } else if wanted != ALL_STATUSES {
        FilterCongruent(videos, byStatus, keep);
      }
    }

    /** `fetchVideos`: keeps the rows (an absent result reads as none), or the old list on error. */
    method FetchVideos(result: FetchResult)
      requires Valid()
      modifies this`videos, this`filteredVideos, this`loading
      ensures Valid() && !loading
      ensures result.Fetched? && result.data.Some? ==> videos == result.data.value
      ensures result.Fetched? && result.data.None? ==> videos == []
      ensures result.FetchFailed? ==> videos == old(videos)
    {
      if result.Fetched? {
        videos := if result.data.Some? then result.data.value else [];
      }
      loading := false;
      FilterVideos();
    }

    /** Typing in the search box; the effect recomputes the filtered list. */
    method SetSearchTerm(term: string)
      modifies this`searchTerm, this`filteredVideos
      ensures Valid() && searchTerm == term
    {
      searchTerm := term;
      FilterVideos();
    }

    /** Choosing a status in the drop-down; the effect recomputes the filtered list. */
    method SetStatusFilter(choice: string)
      modifies this`statusFilter, this`filteredVideos
      ensures Valid() && statusFilter == choice
    {
      statusFilter := choice;
      FilterVideos();
    }
  }
}
