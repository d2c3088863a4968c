/**
 * The `videos` table, standing in for the hosted database the routes call:
 * a map from id to record, kept in a class because the routes update it in
 * place. `Select` answers the one query shape the listing route builds
 * (equality filters, newest `created_at` first, an `[offset, offset + limit)`
 * window); its loop belongs to this stand-in, not to the route.
 */
module Store {
  import opened Types

  /** A listing query: optional equality filters and a window. */
  datatype Query = Query(clientId: Option<string>, status: Option<string>, offset: nat, limit: nat)

  /** A record passes every filter the query carries. */
  predicate Matches(v: Video, q: Query)
  {
    && (q.clientId.Some? ==> v.client_id == q.clientId.value)
    && (q.status.Some? ==> StatusName(v.status) == q.status.value)
  }

  predicate NewestFirst(s: seq<Video>)
  {
    forall i, j :: 0 <= i < j < |s| ==> s[i].created_at >= s[j].created_at
  }

  function IdsOf(s: seq<Video>): set<string>
  {
    if s == [] then {} else {s[0].id} + IdsOf(s[1..])
  }

  predicate DistinctIds(s: seq<Video>)
  {
    s == [] || (s[0].id !in IdsOf(s[1..]) && DistinctIds(s[1..]))
  }

  /** The ids of the stored records that pass the query's filters. */
  function MatchingIds(videos: map<string, Video>, q: Query): set<string>
  {
    set id | id in videos && Matches(videos[id], q)
  }

  /**
   * `ordered` lists every stored record that passes the filters, each once,
   * newest first: one of the orders the database may return.
   */
  ghost predicate IsListing(ordered: seq<Video>, videos: map<string, Video>, q: Query)
  {
    && (forall v :: v in ordered ==> v.id in videos && videos[v.id] == v && Matches(v, q))
    && IdsOf(ordered) == MatchingIds(videos, q)
    && DistinctIds(ordered)
    && NewestFirst(ordered)
  }

  /** The rows at positions `offset` up to, not including, `offset + limit`. */
  function Window(s: seq<Video>, offset: nat, limit: nat): (r: seq<Video>)
    ensures |r| <= limit
    ensures offset < |s| ==> r == s[offset..if offset + limit <= |s| then offset + limit else |s|]
    ensures offset >= |s| ==> r == []
  {
    if offset >= |s| then []
    else if offset + limit <= |s| then s[offset..offset + limit]
    else s[offset..]
  }

  /** A window holds only rows of the listing, in the listing's order. */
  lemma WindowOfListing(s: seq<Video>, offset: nat, limit: nat)
    ensures forall v :: v in Window(s, offset, limit) ==> v in s
    ensures NewestFirst(s) ==> NewestFirst(Window(s, offset, limit))
  {
    var r := Window(s, offset, limit);
    forall v | v in r ensures v in s {
      var k :| 0 <= k < |r| && r[k] == v;
      assert v == s[offset + k];
    }
  }

  /**
   * Places `v` before the first record that is not newer than it, keeping
   * a newest-first list newest first.
   */
  function InsertNewestFirst(s: seq<Video>, v: Video): (r: seq<Video>)
    ensures |r| == |s| + 1
    ensures forall x :: x in r <==> x in s || x == v
    ensures IdsOf(r) == IdsOf(s) + {v.id}
    ensures NewestFirst(s) ==> NewestFirst(r)
    ensures DistinctIds(s) && v.id !in IdsOf(s) ==> DistinctIds(r)
    decreases |s|
  {
    if s == [] || v.created_at >= s[0].created_at then
      assert ([v] + s)[1..] == s;
      [v] + s
    else
      var rest := InsertNewestFirst(s[1..], v);
      assert ([s[0]] + rest)[1..] == rest;
      [s[0]] + rest
  }

  /**
   * `ordered` is a newest-first listing of the matching records whose ids
   * are no longer in `remaining`.
   */
  ghost predicate PartialListing(ordered: seq<Video>, videos: map<string, Video>, q: Query, remaining: set<string>)
  {
    && (forall v :: v in ordered ==> v.id in videos && videos[v.id] == v && Matches(v, q))
    && IdsOf(ordered) == (set id | id in videos.Keys - remaining && Matches(videos[id], q))
    && DistinctIds(ordered)
    && NewestFirst(ordered)
  }

  /** Taking one more id out of `remaining`, and inserting its record when it matches, keeps the listing. */
  lemma ExtendListing(ordered: seq<Video>, videos: map<string, Video>, q: Query, remaining: set<string>, id: string)
    requires forall k :: k in videos ==> videos[k].id == k
    requires remaining <= videos.Keys && id in remaining
    requires PartialListing(ordered, videos, q, remaining)
    ensures PartialListing(
      if Matches(videos[id], q) then InsertNewestFirst(ordered, videos[id]) else ordered,
      videos, q, remaining - {id})
  {
    var before := set k | k in videos.Keys - remaining && Matches(videos[k], q);
    var after := set k | k in videos.Keys - (remaining - {id}) && Matches(videos[k], q);
    if Matches(videos[id], q) {
      assert after == before + {id};
    } else {
      assert after == before;
    }
  }

  class VideoStore {
    var videos: map<string, Video>

    /** Every record is filed under its own id. */
    ghost predicate Valid()
      reads this
    {
      forall id :: id in videos ==> videos[id].id == id
    }

    constructor ()
      ensures Valid() && videos == map[]
    {
      videos := map[];
    }

    /** `.select('*').eq('id', id).single()`. */
    function Lookup(id: string): (r: Option<Video>)
      reads this
      ensures r.Some? <==> id in videos
      ensures r.Some? ==> r.value == videos[id]
    {
      if id in videos then Some(videos[id]) else None
    }

    /** `.insert(v)`: refused when the id is already taken. */
    method Insert(v: Video) returns (inserted: bool)
      requires Valid()
      modifies this
      ensures Valid()
      ensures inserted <==> v.id !in old(videos)
      ensures videos == if inserted then old(videos)[v.id := v] else old(videos)
    {
      inserted := v.id !in videos;
      if inserted {
        videos := videos[v.id := v];
      }
    }

    /** `.update(...).eq('id', v.id)`: replaces the record with that id, if there is one. */
    method Replace(v: Video)
      requires Valid()
      modifies this
      ensures Valid()
      ensures videos == if v.id in old(videos) then old(videos)[v.id := v] else old(videos)
    {
      if v.id in videos {
        videos := videos[v.id := v];
      }
    }

    /**
     * Answers a listing query: the rows are the query's window over the
     * matching records ordered newest first.
     */
    method Select(q: Query) returns (rows: seq<Video>)
      requires Valid()
      ensures exists ordered :: IsListing(ordered, videos, q) && rows == Window(ordered, q.offset, q.limit)
      ensures |rows| <= q.limit
      ensures forall v :: v in rows ==> v.id in videos && videos[v.id] == v && Matches(v, q)
      ensures NewestFirst(rows)
    {
      var ordered: seq<Video> := [];
      var remaining := videos.Keys;
      while remaining != {}
        invariant remaining <= videos.Keys
        invariant PartialListing(ordered, videos, q, remaining)
        decreases remaining
      {
        var id :| id in remaining;
        var next := if Matches(videos[id], q) then InsertNewestFirst(ordered, videos[id]) else ordered;
        ExtendListing(ordered, videos, q, remaining, id);
        ordered := next;
        remaining := remaining - {id};
      }
      assert IsListing(ordered, videos, q);
      rows := Window(ordered, q.offset, q.limit);
      WindowOfListing(ordered, q.offset, q.limit);
    }
  }
}
