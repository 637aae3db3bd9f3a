// The video search behind the listening quiz
// (data/repository/YouTubeRepository.kt over data/local/dao/CachedVideoDao.kt
// and data/local/entity/CachedVideo.kt): a scenario's query is turned into a
// search query, answered from the cache while the cache for it is younger than
// seven days, otherwise from the YouTube API, whose results then replace the
// cache for that query; when the API call throws, whatever the cache holds for
// the query is served. The clock and the API call are parameters.
module YouTube {
  import Wrappers
  import opened Text
  import opened Lists
  import opened Ordering

  /** `CACHE_DURATION_MS`: seven days. */
  const CacheDurationMs: int := 7 * 24 * 60 * 60 * 1000

  /** What the screen shows of a video (domain/model/VideoResult.kt). */
  datatype VideoResult = VideoResult(videoId: string, title: string, description: string,
                                     thumbnailUrl: string, channelTitle: string)

  /** A row of `cached_videos`, keyed by `videoId`. */
  datatype CachedVideo = CachedVideo(videoId: string, title: string, description: string,
                                     thumbnailUrl: string, channelTitle: string,
                                     scenarioQuery: string, cachedAtMillis: int)

  /** The parts of a search result the repository reads
    * (data/remote/dto/YouTubeSearchResponse.kt); a thumbnail is its URL. */
  datatype Thumbnails = Thumbnails(medium: Wrappers.Option<string>, high: Wrappers.Option<string>)
  datatype SearchItem = SearchItem(videoId: Wrappers.Option<string>, title: string, description: string,
                                   thumbnails: Wrappers.Option<Thumbnails>, channelTitle: string)

  /** What the API call did: the items of its response, or the exception's
    * message (`e.message`, possibly null). */
  datatype SearchReply = Answered(items: seq<SearchItem>) | Threw(message: Wrappers.Option<string>)

  datatype Resource<T> = Success(data: T) | Error(message: string) | Loading

  // ---------------------------------------------------------------------------
  // Queries and conversions

  /** `buildSearchQuery`: queries that mention English in any case are kept,
    * others get " English conversation" appended. */
  function BuildSearchQuery(scenario: string): (r: string)
    ensures |scenario| <= |r| && r[..|scenario|] == scenario
    ensures r == scenario <==> ContainsIgnoreCase(scenario, "english")
  {
    if ContainsIgnoreCase(scenario, "english") then scenario else scenario + " English conversation"
  }

  /** `medium?.url ?: high?.url ?: ""`: the medium URL when there is one,
    * otherwise the high one, otherwise empty. */
  function ThumbnailUrl(t: Wrappers.Option<Thumbnails>): (r: string)
    ensures t.Some? && t.value.medium.Some? ==> r == t.value.medium.value
    ensures r == "" || (t.Some? && (t.value.medium == Wrappers.Some(r) || t.value.high == Wrappers.Some(r)))
    ensures (t.None? || (t.value.medium.None? && t.value.high.None?)) ==> r == ""
  {
    if t.Some? && t.value.medium.Some? then t.value.medium.value
    else if t.Some? && t.value.high.Some? then t.value.high.value
    else ""
  }

  predicate HasVideoId(item: SearchItem) { item.videoId.Some? }

  function HasVideoIdTest(): SearchItem -> bool { (item: SearchItem) => HasVideoId(item) }

  /** An item with an id as the screen shows it. */
  function ToVideo(item: SearchItem): (r: VideoResult)
    requires HasVideoId(item)
    ensures Wrappers.Some(r.videoId) == item.videoId
    ensures r.title == item.title && r.description == item.description && r.channelTitle == item.channelTitle
    ensures r.thumbnailUrl == ThumbnailUrl(item.thumbnails)
  {
    VideoResult(item.videoId.value, item.title, item.description, ThumbnailUrl(item.thumbnails), item.channelTitle)
  }

  /** `response.items.filter { it.id.videoId != null }.map { ... }`. */
  function Videos(items: seq<SearchItem>): (r: seq<VideoResult>)
    ensures |r| <= |items|
    decreases |items|
  {
    if items == [] then []
    else (if HasVideoId(items[0]) then [ToVideo(items[0])] else []) + Videos(items[1..])
  }

  /** A cached row as the screen shows it: everything but the query and the
    * instant it was cached at. */
  function ToDomainModel(c: CachedVideo): (r: VideoResult)
    ensures r.videoId == c.videoId && r.thumbnailUrl == c.thumbnailUrl
    ensures r.title == c.title && r.description == c.description && r.channelTitle == c.channelTitle
  {
    VideoResult(c.videoId, c.title, c.description, c.thumbnailUrl, c.channelTitle)
  }

  /** A video as a row cached for `query` at `now`; it reads back as itself. */
  function ToCachedEntity(v: VideoResult, query: string, now: int): (r: CachedVideo)
    ensures r.scenarioQuery == query && r.cachedAtMillis == now
    ensures ToDomainModel(r) == v
  {
    CachedVideo(v.videoId, v.title, v.description, v.thumbnailUrl, v.channelTitle, query, now)
  }

  function ToDomainModels(cs: seq<CachedVideo>): (r: seq<VideoResult>)
    ensures |r| == |cs|
  {
    seq(|cs|, i requires 0 <= i < |cs| => ToDomainModel(cs[i]))
  }

  function Entities(videos: seq<VideoResult>, query: string, now: int): (r: seq<CachedVideo>)
    ensures |r| == |videos|
  {
    seq(|videos|, i requires 0 <= i < |videos| => ToCachedEntity(videos[i], query, now))
  }

  /** `minOf { it.cachedAtMillis }` on a non-empty list. */
  function Oldest(cs: seq<CachedVideo>): (t: int)
    requires cs != []
    ensures exists k :: 0 <= k < |cs| && cs[k].cachedAtMillis == t
    ensures forall k :: 0 <= k < |cs| ==> t <= cs[k].cachedAtMillis
    decreases |cs|
  {
    if |cs| == 1 then cs[0].cachedAtMillis
    else
      var rest := Oldest(cs[1..]);
      assert forall k :: 1 <= k < |cs| ==> cs[k] == cs[1..][k - 1];
      if cs[0].cachedAtMillis <= rest then cs[0].cachedAtMillis else rest
  }

  /** The cache answers: no forced refresh, some rows for the query, and the
    * oldest of them younger than the cache duration. */
  predicate Fresh(cached: seq<CachedVideo>, forceRefresh: bool, now: int) {
    !forceRefresh && cached != [] && now - Oldest(cached) < CacheDurationMs
  }

  /** `"搜尋影片失敗: ${e.message}"`. */
  function SearchFailedMessage(message: Wrappers.Option<string>): string {
    "搜尋影片失敗: " + (if message.Some? then message.value else "null")
  }

  // ---------------------------------------------------------------------------
  // The table's statements

  function CachedAt(c: CachedVideo): int { c.cachedAtMillis }

  function ForQuery(query: string): CachedVideo -> bool { (c: CachedVideo) => c.scenarioQuery == query }
  function NotForQuery(query: string): CachedVideo -> bool { (c: CachedVideo) => c.scenarioQuery != query }
  function CachedSince(threshold: int): CachedVideo -> bool { (c: CachedVideo) => c.cachedAtMillis >= threshold }
  function OtherVideo(videoId: string): CachedVideo -> bool { (c: CachedVideo) => c.videoId != videoId }

  /** `getVideosByQuery`: the query's rows, newest first. */
  function VideosByQuery(rows: seq<CachedVideo>, query: string): (r: seq<CachedVideo>)
    ensures multiset(r) == multiset(Filter(rows, ForQuery(query)))
  {
    SortDesc(Filter(rows, ForQuery(query)), CachedAt)
  }

  /** An insert with `REPLACE`: the row holding the key goes, the new row is
    * added last. */
  function Replaced(rows: seq<CachedVideo>, c: CachedVideo): seq<CachedVideo> {
    Filter(rows, OtherVideo(c.videoId)) + [c]
  }

  /** `insertAll` of `cs`, one REPLACE after the other. */
  function InsertedAll(rows: seq<CachedVideo>, cs: seq<CachedVideo>): seq<CachedVideo>
    decreases |cs|
  {
    if cs == [] then rows else Replaced(InsertedAll(rows, cs[..|cs| - 1]), cs[|cs| - 1])
  }

  /** The table after a successful fetch: the query's rows dropped, the new
    * rows inserted, rows older than the cache duration dropped. */
  function Refreshed(rows: seq<CachedVideo>, query: string, videos: seq<VideoResult>, now: int): seq<CachedVideo> {
    Filter(InsertedAll(Filter(rows, NotForQuery(query)), Entities(videos, query, now)),
           CachedSince(now - CacheDurationMs))
  }

  /** What `searchVideos` returns for the table's rows. */
  function SearchResult(rows: seq<CachedVideo>, query: string, forceRefresh: bool, now: int,
                        reply: SearchReply): Resource<seq<VideoResult>>
  {
    var q := BuildSearchQuery(query);
    var cached := VideosByQuery(rows, q);
    if Fresh(cached, forceRefresh, now) then Success(ToDomainModels(cached))
    else if reply.Answered? then Success(Videos(reply.items))
    else if cached != [] then Success(ToDomainModels(cached))
    else Error(SearchFailedMessage(reply.message))
  }

  /** The table after `searchVideos`: refreshed when the API answered for a
    * stale or bypassed cache, unchanged otherwise. */
  function CacheAfterSearch(rows: seq<CachedVideo>, query: string, forceRefresh: bool, now: int,
                            reply: SearchReply): seq<CachedVideo>
  {
    var q := BuildSearchQuery(query);
    if !Fresh(VideosByQuery(rows, q), forceRefresh, now) && reply.Answered? then
      Refreshed(rows, q, Videos(reply.items), now)
    else rows
  }

  ghost predicate UniqueIds(rows: seq<CachedVideo>) {
    forall i, j :: 0 <= i < j < |rows| ==> rows[i].videoId != rows[j].videoId
  }

  // ---------------------------------------------------------------------------
  // Properties

  lemma {:induction false} ContainsAppend(a: string, b: string, sub: string)
    requires Contains(b, sub)
    ensures Contains(a + b, sub)
    decreases |a|
  {
    if a != [] {
      ContainsAppend(a[1..], b, sub);
      var t := a + b;
      assert t[1..] == a[1..] + b;
      assert Contains(t[1..], sub);
    } else {
      assert a + b == b;
    }
  }

  lemma LowerAppend(a: string, b: string)
    ensures Lower(a + b) == Lower(a) + Lower(b)
  {
  }

  /** A built query mentions English, so building it again changes nothing. */
  lemma BuildSearchQueryIdempotent(scenario: string)
    ensures ContainsIgnoreCase(BuildSearchQuery(scenario), "english")
    ensures BuildSearchQuery(BuildSearchQuery(scenario)) == BuildSearchQuery(scenario)
    ensures BuildSearchQuery(scenario) == scenario <==> ContainsIgnoreCase(scenario, "english")
  {
    if !ContainsIgnoreCase(scenario, "english") {
      var suffix := " English conversation";
      LowerAppend(scenario, suffix);
      assert Lower(suffix) == " english conversation";
      assert Lower("english") == "english";
      assert StartsWith(Lower(suffix)[1..], "english");
      ContainsAppend(Lower(scenario), Lower(suffix), "english");
      assert |scenario + suffix| != |scenario|;
    }
  }

  /** The cache is fresh exactly when every row for the query is younger
    * than the cache duration. */
  lemma FreshIffAllYoung(cached: seq<CachedVideo>, forceRefresh: bool, now: int)
    ensures Fresh(cached, forceRefresh, now) <==>
      !forceRefresh && cached != [] &&
      forall k :: 0 <= k < |cached| ==> now - cached[k].cachedAtMillis < CacheDurationMs
  {
  }

  /** A search fails only when the cache is not used, the API threw and the
    * cache holds nothing for the query; a forced refresh that reaches the
    * API returns its videos. */
  lemma SearchOutcomes(rows: seq<CachedVideo>, query: string, forceRefresh: bool, now: int, reply: SearchReply)
    ensures !SearchResult(rows, query, forceRefresh, now, reply).Loading?
    ensures SearchResult(rows, query, forceRefresh, now, reply).Error? <==>
      reply.Threw? && VideosByQuery(rows, BuildSearchQuery(query)) == []
    ensures forceRefresh && reply.Answered? ==>
      SearchResult(rows, query, forceRefresh, now, reply) == Success(Videos(reply.items)) &&
      CacheAfterSearch(rows, query, forceRefresh, now, reply) ==
        Refreshed(rows, BuildSearchQuery(query), Videos(reply.items), now)
    ensures CacheAfterSearch(rows, query, forceRefresh, now, reply) != rows ==> reply.Answered?
  {
  }

  /** Only items with a video id become results, in order, each with its
    * item's fields. */
  lemma {:induction false} VideosAreIdentifiedItems(items: seq<SearchItem>)
    ensures |Videos(items)| == |Filter(items, HasVideoIdTest())|
    ensures forall i :: 0 <= i < |Videos(items)| ==>
      HasVideoId(Filter(items, HasVideoIdTest())[i]) &&
      Videos(items)[i] == ToVideo(Filter(items, HasVideoIdTest())[i])
    decreases |items|
  {
    if items != [] {
      VideosAreIdentifiedItems(items[1..]);
      var f := Filter(items, HasVideoIdTest());
      var rest := Filter(items[1..], HasVideoIdTest());
      forall i | 0 <= i < |Videos(items)|
        ensures HasVideoId(f[i]) && Videos(items)[i] == ToVideo(f[i])
      {
        if !HasVideoId(items[0]) {
          assert f == rest;
        } else if i > 0 {
          assert f[i] == rest[i - 1];
        }
      }
    }
  }

  /** A cached result reads back as the result it was made from. */
  lemma CacheRoundTrip(videos: seq<VideoResult>, query: string, now: int)
    ensures ToDomainModels(Entities(videos, query, now)) == videos
    ensures forall i :: 0 <= i < |videos| ==>
      Entities(videos, query, now)[i].scenarioQuery == query &&
      Entities(videos, query, now)[i].cachedAtMillis == now
  {
    var r := ToDomainModels(Entities(videos, query, now));
    assert forall i :: 0 <= i < |videos| ==> r[i] == videos[i];
  }

  /** The keys of some rows. */
  function Keys(cs: seq<CachedVideo>): set<string> {
    set c | c in cs :: c.videoId
  }

  /** After inserts, every row was there before or was inserted. */
  lemma {:induction false} InsertedFrom(rows: seq<CachedVideo>, cs: seq<CachedVideo>)
    ensures forall c :: c in InsertedAll(rows, cs) ==> c in rows || c in cs
    decreases |cs|
  {
    if cs != [] {
      var init := cs[..|cs| - 1];
      var last := cs[|cs| - 1];
      var before := InsertedAll(rows, init);
      InsertedFrom(rows, init);
      FilterMembers(before, OtherVideo(last.videoId));
      assert forall c :: c in init ==> c in cs;
    }
  }

  /** A row whose key was inserted is one of the inserted rows. */
  lemma {:induction false} InsertedOverrides(rows: seq<CachedVideo>, cs: seq<CachedVideo>)
    ensures forall c :: c in InsertedAll(rows, cs) && c.videoId in Keys(cs) ==> c in cs
    decreases |cs|
  {
    if cs != [] {
      var init := cs[..|cs| - 1];
      var last := cs[|cs| - 1];
      var before := InsertedAll(rows, init);
      InsertedOverrides(rows, init);
      FilterMembers(before, OtherVideo(last.videoId));
      assert cs == init + [last];
      assert forall c :: c in init ==> c in cs;
      assert forall id :: id in Keys(cs) && id != last.videoId ==> id in Keys(init);
    }
  }

  /** Each inserted key has an inserted row. */
  lemma {:induction false} InsertedCovers(rows: seq<CachedVideo>, cs: seq<CachedVideo>, k: nat)
    requires k < |cs|
    ensures exists c :: c in InsertedAll(rows, cs) && c in cs && c.videoId == cs[k].videoId
    decreases |cs|
  {
    var init := cs[..|cs| - 1];
    var last := cs[|cs| - 1];
    var before := InsertedAll(rows, init);
    var after := InsertedAll(rows, cs);
    assert after == Filter(before, OtherVideo(last.videoId)) + [last];
    if cs[k].videoId == last.videoId {
      assert last in after;
    } else {
      InsertedCovers(rows, init, k);
      var c :| c in before && c in init && c.videoId == init[k].videoId;
      var j :| 0 <= j < |before| && before[j] == c;
      FilterMembers(before, OtherVideo(last.videoId));
      assert c in after;
    }
  }

  /** After a successful fetch the query's rows are rows made from the fetched
    * videos, and every fetched video's id has a row for the query. */
  lemma RefreshedRowsForQuery(rows: seq<CachedVideo>, query: string, videos: seq<VideoResult>, now: int)
    ensures forall c :: c in Refreshed(rows, query, videos, now) && c.scenarioQuery == query ==>
      c in Entities(videos, query, now)
    ensures forall k :: 0 <= k < |videos| ==>
      exists c :: c in Refreshed(rows, query, videos, now) && c.scenarioQuery == query &&
        c.videoId == videos[k].videoId
  {
    var cleared := Filter(rows, NotForQuery(query));
    var es := Entities(videos, query, now);
    var inserted := InsertedAll(cleared, es);
    var r := Refreshed(rows, query, videos, now);
    FilterMembers(rows, NotForQuery(query));
    InsertedFrom(cleared, es);
    FilterMembers(inserted, CachedSince(now - CacheDurationMs));
    assert forall c :: c in r && c.scenarioQuery == query ==> c in es;
    forall k | 0 <= k < |videos|
      ensures exists c :: c in r && c.scenarioQuery == query && c.videoId == videos[k].videoId
    {
      InsertedCovers(cleared, es, k);
      var c :| c in inserted && c in es && c.videoId == es[k].videoId;
      var j :| 0 <= j < |es| && es[j] == c;
      var m :| 0 <= m < |inserted| && inserted[m] == c;
      assert c in r;
    }
  }

  /** Dropping rows keeps the keys unique. */
  lemma {:induction false} FilterKeepsUniqueIds(rows: seq<CachedVideo>, p: CachedVideo -> bool)
    requires UniqueIds(rows)
    ensures UniqueIds(Filter(rows, p))
    decreases |rows|
  {
    if rows != [] {
      var tail := rows[1..];
      assert UniqueIds(tail) by {
        forall i, j | 0 <= i < j < |tail| ensures tail[i].videoId != tail[j].videoId {
          assert tail[i] == rows[i + 1] && tail[j] == rows[j + 1];
        }
      }
      FilterKeepsUniqueIds(tail, p);
      FilterMembers(tail, p);
      var rest := Filter(tail, p);
      var r := Filter(rows, p);
      if p(rows[0]) {
        forall i, j | 0 <= i < j < |r| ensures r[i].videoId != r[j].videoId {
          assert r[j] == rest[j - 1];
          if i == 0 {
            var q :| 0 <= q < |tail| && tail[q] == rest[j - 1];
            assert rows[q + 1] == tail[q];
          } else {
            assert r[i] == rest[i - 1];
          }
        }
      }
    }
  }

  /** A REPLACE insert keeps the keys unique. */
  lemma ReplacedKeepsUniqueIds(rows: seq<CachedVideo>, c: CachedVideo)
    requires UniqueIds(rows)
    ensures UniqueIds(Replaced(rows, c))
  {
    var kept := Filter(rows, OtherVideo(c.videoId));
    FilterKeepsUniqueIds(rows, OtherVideo(c.videoId));
    FilterMembers(rows, OtherVideo(c.videoId));
    var r := Replaced(rows, c);
    forall i, j | 0 <= i < j < |r| ensures r[i].videoId != r[j].videoId {
      if j == |kept| {
        assert r[i] == kept[i];
      } else {
        assert r[i] == kept[i] && r[j] == kept[j];
      }
    }
  }

  // ---------------------------------------------------------------------------
  // The cache table and the repository

  /** `cached_videos`, rows in insertion order. */
  class CachedVideoDao {
    var rows: seq<CachedVideo>

    /** `videoId` is the primary key. */
    ghost predicate Valid()
      reads this
    {
      UniqueIds(rows)
    }

    constructor()
      ensures Valid() && rows == []
    {
      rows := [];
    }

    /** `insertAll` with `REPLACE`: each row in turn replaces the row with
      * its key. */
    method InsertAll(videos: seq<CachedVideo>)
      requires Valid()
      modifies this
      ensures Valid()
      ensures rows == InsertedAll(old(rows), videos)
    {
      var i := 0;
      while i < |videos|
        invariant 0 <= i <= |videos|
        invariant UniqueIds(rows)
        invariant rows == InsertedAll(old(rows), videos[..i])
      {
        ReplacedKeepsUniqueIds(rows, videos[i]);
        assert videos[..i + 1][..i] == videos[..i];
        rows := Replaced(rows, videos[i]);
        i := i + 1;
      }
      assert videos[..|videos|] == videos;
    }

    /** `deleteByQuery`. */
    method DeleteByQuery(query: string)
      requires Valid()
      modifies this
      ensures Valid()
      ensures rows == Filter(old(rows), NotForQuery(query))
    {
      FilterKeepsUniqueIds(rows, NotForQuery(query));
      rows := Filter(rows, NotForQuery(query));
    }

    /** `deleteOlderThan`: rows cached before the threshold go. */
    method DeleteOlderThan(thresholdMillis: int)
      requires Valid()
      modifies this
      ensures Valid()
      ensures rows == Filter(old(rows), CachedSince(thresholdMillis))
    {
      FilterKeepsUniqueIds(rows, CachedSince(thresholdMillis));
      rows := Filter(rows, CachedSince(thresholdMillis));
    }
  }

  class YouTubeRepository {
    const cachedVideoDao: CachedVideoDao

    ghost predicate Valid()
      reads this, cachedVideoDao
    {
      cachedVideoDao.Valid()
    }

    constructor(dao: CachedVideoDao)
      requires dao.Valid()
      ensures cachedVideoDao == dao && Valid()
    {
      cachedVideoDao := dao;
    }

    /** `clearCache`: every row cached before now goes. */
    method ClearCache(now: int)
      requires Valid()
      modifies cachedVideoDao
      ensures Valid()
      ensures cachedVideoDao.rows == Filter(old(cachedVideoDao.rows), CachedSince(now))
    {
      cachedVideoDao.DeleteOlderThan(now);
    }

    /** `searchVideos`: a fresh cache answers; otherwise the API's videos are
      * returned and replace the query's rows; if the API throws, the query's
      * rows of any age answer, or the search fails. */
    method SearchVideos(query: string, forceRefresh: bool, now: int, reply: SearchReply)
      returns (r: Resource<seq<VideoResult>>)
      requires Valid()
      modifies cachedVideoDao
      ensures Valid()
      ensures r == SearchResult(old(cachedVideoDao.rows), query, forceRefresh, now, reply)
      ensures cachedVideoDao.rows == CacheAfterSearch(old(cachedVideoDao.rows), query, forceRefresh, now, reply)
    {
      var searchQuery := BuildSearchQuery(query);
      if !forceRefresh {
        var cached := VideosByQuery(cachedVideoDao.rows, searchQuery);
        if cached != [] {
          var oldestCache := Oldest(cached);
          var cacheAge := now - oldestCache;
          if cacheAge < CacheDurationMs {
            return Success(ToDomainModels(cached));
          }
        }
      }
      match reply {
        case Answered(items) =>
          var videos := Videos(items);
          var entities := Entities(videos, searchQuery, now);
          cachedVideoDao.DeleteByQuery(searchQuery);
          cachedVideoDao.InsertAll(entities);
          cachedVideoDao.DeleteOlderThan(now - CacheDurationMs);
          r := Success(videos);
        case Threw(message) =>
          var cached := VideosByQuery(cachedVideoDao.rows, BuildSearchQuery(query));
          if cached != [] {
            r := Success(ToDomainModels(cached));
          } else {
            r := Error(SearchFailedMessage(message));
          }
      }
    }
  }
}
