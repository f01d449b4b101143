/** `metrics/services/content_analyzer.py`: the topic and category frequencies of the
    videos of a playlist. The video ids of the playlist's pages are collected in order, sent
    to `videos.list` in chunks of at most 50, and the answers are counted; for categories
    the distinct ids are then resolved to names by one `videoCategories.list` call. A
    `Counter` is a multiset. The client is a pair of total functions from the request sent
    to the answer received (`None` for a failed call). */
module ContentAnalyzer {
  import opened Wrappers
  import opened Api
  import Videos
  import PlaylistItems
  import TopicHelper
  import Strings
  import Keyed

  const ChunkSize := 50
  const TopicPart := "topicDetails"
  const SnippetPart := "snippet"
  const IdSeparator := ","

  // ----- Appending list after list -----

  /** The lists `f` gives for `xs`, one after the other: a loop that extends a list with
      what each element contributes. */
  function ConcatOf<X>(f: X -> seq<string>, xs: seq<X>): seq<string>
    decreases |xs|
  {
    if xs == [] then [] else ConcatOf(f, xs[..|xs| - 1]) + f(xs[|xs| - 1])
  }

  /** One more element adds its list at the end. */
  lemma ConcatOfSnoc<X>(f: X -> seq<string>, xs: seq<X>, i: nat)
    requires i < |xs|
    ensures ConcatOf(f, xs[..i + 1]) == ConcatOf(f, xs[..i]) + f(xs[i])
  {
    assert xs[..i + 1][..i] == xs[..i];
  }

  /** A string is in the result exactly when some element contributes it. */
  lemma {:induction false} ConcatOfSource<X>(f: X -> seq<string>, xs: seq<X>, t: string)
    ensures t in ConcatOf(f, xs) <==> exists k :: 0 <= k < |xs| && t in f(xs[k])
    decreases |xs|
  {
    if xs != [] {
      var n := |xs| - 1;
      var front := xs[..n];
      ConcatOfSource(f, front, t);
      if t in ConcatOf(f, front) {
        var k :| 0 <= k < |front| && t in f(front[k]);
        assert xs[k] == front[k];
      }
      if k :| 0 <= k < |xs| && t in f(xs[k]) {
        if k < n {
          assert front[k] == xs[k];
        }
      }
    }
  }

  // ----- Collecting the video ids -----

  /** `item.get('contentDetails', {}).get('videoId')`. */
  function ItemVideoId(it: PlaylistItems.PlaylistItem): Option<string>
  {
    PlaylistItems.DetailsOf(it).videoId
  }

  /** The truthy video ids of `items`, in order. */
  function VideoIdsOf(items: seq<PlaylistItems.PlaylistItem>): seq<string>
    decreases |items|
  {
    if items == [] then []
    else
      var it := items[|items| - 1];
      VideoIdsOf(items[..|items| - 1]) + (if Truthy(ItemVideoId(it)) then [ItemVideoId(it).value] else [])
  }

  /** The video ids the loops over `all_playlistitems.values()` collect. */
  function CollectedIds(pages: seq<Page<PlaylistItems.PlaylistItem>>): seq<string>
  {
    VideoIdsOf(AllItems(pages))
  }

  /** One more item adds its id when that is truthy. */
  lemma VideoIdsSnoc(items: seq<PlaylistItems.PlaylistItem>, it: PlaylistItems.PlaylistItem)
    ensures VideoIdsOf(items + [it]) ==
      VideoIdsOf(items) + (if Truthy(ItemVideoId(it)) then [ItemVideoId(it).value] else [])
  {
    assert (items + [it])[..|items|] == items;
  }

  /** The ids of consecutive stretches of items follow each other: the order of the pages
      and of the items inside each page is kept. */
  lemma {:induction false} VideoIdsConcat(a: seq<PlaylistItems.PlaylistItem>, b: seq<PlaylistItems.PlaylistItem>)
    ensures VideoIdsOf(a + b) == VideoIdsOf(a) + VideoIdsOf(b)
    decreases |b|
  {
    if b == [] {
      assert a + b == a;
    } else {
      var front := b[..|b| - 1];
      var last := b[|b| - 1];
      assert b == front + [last];
      assert a + b == (a + front) + [last];
      VideoIdsConcat(a, front);
      VideoIdsSnoc(a + front, last);
      VideoIdsSnoc(front, last);
    }
  }

  /** The ids collected are exactly the truthy video ids of the items, none of them empty,
      at most one per item. */
  lemma {:induction false} VideoIdsMeaning(items: seq<PlaylistItems.PlaylistItem>)
    ensures forall k :: 0 <= k < |VideoIdsOf(items)| ==> VideoIdsOf(items)[k] != ""
    ensures forall x :: x in VideoIdsOf(items) <==>
      exists j :: 0 <= j < |items| && ItemVideoId(items[j]) == Some(x) && x != ""
    ensures |VideoIdsOf(items)| <= |items|
    decreases |items|
  {
    if items != [] {
      var n := |items| - 1;
      var front := items[..n];
      VideoIdsMeaning(front);
      forall x
        ensures x in VideoIdsOf(items) <==> exists j :: 0 <= j < |items| && ItemVideoId(items[j]) == Some(x) && x != ""
      {
        if j :| 0 <= j < |items| && ItemVideoId(items[j]) == Some(x) && x != "" {
          if j < n {
            assert front[j] == items[j];
          }
        }
        if x in VideoIdsOf(front) {
          var j :| 0 <= j < |front| && ItemVideoId(front[j]) == Some(x) && x != "";
          assert items[j] == front[j];
        }
      }
    }
  }

  /** The two loops of `get_*_freqs_in_playlist` that collect the video ids of every page. */
  method CollectVideoIds(pages: seq<Page<PlaylistItems.PlaylistItem>>) returns (videoIds: seq<string>)
    ensures videoIds == CollectedIds(pages)
  {
    videoIds := [];
    for p := 0 to |pages|
      invariant videoIds == VideoIdsOf(AllItems(pages[..p]))
    {
      var items := ItemsOr(pages[p]);
      videoIds := AppendVideoIds(videoIds, items);
      VideoIdsConcat(AllItems(pages[..p]), items);
      assert pages[..p + 1] == pages[..p] + [pages[p]];
      AllItemsSnoc(pages[..p], pages[p]);
    }
    assert pages[..|pages|] == pages;
  }

  /** The inner loop, over the items of one page: the truthy ids are appended in order. */
  method AppendVideoIds(videoIds: seq<string>, items: seq<PlaylistItems.PlaylistItem>) returns (out: seq<string>)
    ensures out == videoIds + VideoIdsOf(items)
  {
    out := videoIds;
    assert items[..0] == [];
    for k := 0 to |items|
      invariant out == videoIds + VideoIdsOf(items[..k])
    {
      var videoId := PlaylistItems.DetailsOf(items[k]).videoId;
      assert items[..k + 1] == items[..k] + [items[k]];
      VideoIdsSnoc(items[..k], items[k]);
      if videoId.Some? && videoId.value != "" {
        out := out + [videoId.value];
      }
    }
    assert items[..|items|] == items;
  }

  // ----- Chunks of 50 -----

  function Min(a: int, b: int): int
  {
    if a <= b then a else b
  }

  /** `ids[i:i + 50]` for every `i` of `range(start, len(ids), 50)`. */
  function ChunksFrom(ids: seq<string>, start: nat): seq<seq<string>>
    decreases |ids| - start
  {
    if start >= |ids| then [] else [ids[start..Min(start + ChunkSize, |ids|)]] + ChunksFrom(ids, start + ChunkSize)
  }

  /** The chunks `ids` is sent in. */
  function Chunks(ids: seq<string>): seq<seq<string>>
  {
    ChunksFrom(ids, 0)
  }

  /** The chunks one after the other. */
  function Flatten(chunks: seq<seq<string>>): seq<string>
    decreases |chunks|
  {
    if chunks == [] then [] else chunks[0] + Flatten(chunks[1..])
  }

  /** Together the chunks are the ids from `start` on, each exactly once and in order. */
  lemma {:induction false} ChunksCover(ids: seq<string>, start: nat)
    requires start <= |ids|
    ensures Flatten(ChunksFrom(ids, start)) == ids[start..]
    decreases |ids| - start
  {
    if start < |ids| {
      var cs := ChunksFrom(ids, start);
      var rest := ChunksFrom(ids, start + ChunkSize);
      assert cs[0] == ids[start..Min(start + ChunkSize, |ids|)] && cs[1..] == rest;
      if start + ChunkSize <= |ids| {
        ChunksCover(ids, start + ChunkSize);
        assert ids[start..] == ids[start..start + ChunkSize] + ids[start + ChunkSize..];
      } else {
        assert rest == [];
      }
    }
  }

  /** Every chunk holds between 1 and 50 ids. */
  lemma {:induction false} ChunkSizes(ids: seq<string>, start: nat)
    ensures forall k :: 0 <= k < |ChunksFrom(ids, start)| ==> 0 < |ChunksFrom(ids, start)[k]| <= ChunkSize
    decreases |ids| - start
  {
    if start < |ids| {
      ChunkSizes(ids, start + ChunkSize);
      var cs := ChunksFrom(ids, start);
      forall k | 0 < k < |cs|
        ensures cs[k] == ChunksFrom(ids, start + ChunkSize)[k - 1]
      {
      }
    }
  }

  /** Chunk `k` is the stretch of ids starting at `start + 50 * k`. */
  lemma {:induction false} ChunkAt(ids: seq<string>, start: nat)
    ensures var cs := ChunksFrom(ids, start);
      forall k :: 0 <= k < |cs| ==>
        start + ChunkSize * k < |ids| &&
        cs[k] == ids[start + ChunkSize * k..Min(start + ChunkSize * k + ChunkSize, |ids|)]
    decreases |ids| - start
  {
    if start < |ids| {
      ChunkAt(ids, start + ChunkSize);
      var cs := ChunksFrom(ids, start);
      var rest := ChunksFrom(ids, start + ChunkSize);
      forall k | 0 <= k < |cs|
        ensures start + ChunkSize * k < |ids|
        ensures cs[k] == ids[start + ChunkSize * k..Min(start + ChunkSize * k + ChunkSize, |ids|)]
      {
        if k > 0 {
          assert cs[k] == rest[k - 1];
          assert start + ChunkSize * k == (start + ChunkSize) + ChunkSize * (k - 1);
        }
      }
    }
  }

  /** There are ⌈n / 50⌉ chunks for n ids. */
  lemma {:induction false} ChunkCount(ids: seq<string>, start: nat)
    requires start <= |ids|
    ensures |ChunksFrom(ids, start)| == (|ids| - start + ChunkSize - 1) / ChunkSize
    decreases |ids| - start
  {
    if start < |ids| && start + ChunkSize <= |ids| {
      ChunkCount(ids, start + ChunkSize);
    }
  }

  /** A chunk of non-empty ids joins to a non-empty `id` parameter. */
  lemma ChunkJoinNonEmpty(ids: seq<string>, start: nat)
    requires start < |ids|
    requires forall k :: 0 <= k < |ids| ==> ids[k] != ""
    ensures Strings.Join(ids[start..Min(start + ChunkSize, |ids|)], IdSeparator) != ""
  {
    var chunk := ids[start..Min(start + ChunkSize, |ids|)];
    assert forall k :: 0 <= k < |chunk| ==> chunk[k] == ids[start + k];
    Strings.JoinNonEmpty(chunk, IdSeparator);
  }

  /** The `videos.list` request sent for one chunk: its ids joined by commas, 50 results. */
  function ChunkQuery(part: string, chunk: seq<string>): Request
  {
    Request("videos", map["part" := Text(part), "maxResults" := Number(ChunkSize),
                          "id" := Text(Strings.Join(chunk, IdSeparator))], false)
  }

  /** That request is what `list_video(part=..., video_ids=..., max_results=50)` builds. */
  lemma ChunkQueryIsListVideo(part: string, chunk: seq<string>)
    requires Strings.Join(chunk, IdSeparator) != ""
    ensures Videos.VideoListRequest(part, None, Some(Strings.Join(chunk, IdSeparator)), None, None, ChunkSize, None)
      == Ok(ChunkQuery(part, chunk))
  {
  }

  /** The requests for `chunks`, in order. */
  function ChunkQueries(part: string, chunks: seq<seq<string>>): (qs: seq<Request>)
    ensures |qs| == |chunks|
    ensures forall k :: 0 <= k < |chunks| ==> qs[k] == ChunkQuery(part, chunks[k])
  {
    seq(|chunks|, k requires 0 <= k < |chunks| => ChunkQuery(part, chunks[k]))
  }

  lemma ChunkQueriesSnoc(part: string, chunks: seq<seq<string>>, chunk: seq<string>)
    ensures ChunkQueries(part, chunks + [chunk]) == ChunkQueries(part, chunks) + [ChunkQuery(part, chunk)]
  {
  }

  // ----- Topic frequencies -----

  /** `video_item.get('topicDetails', {})`, parsed. */
  function VideoTopics(v: Videos.Video): seq<string>
  {
    TopicHelper.ParsedTopics(v.topicDetails.GetOr(TopicDetails(None)))
  }

  /** The topics of `videos`, video after video. */
  function TopicsOfVideos(videos: seq<Videos.Video>): seq<string>
  {
    ConcatOf(VideoTopics, videos)
  }

  /** The videos of the answer to one chunk; nothing for a failed call or an answer
      without `items`. */
  function AnsweredVideos(api: Request -> Option<Page<Videos.Video>>, part: string, chunk: seq<string>): seq<Videos.Video>
  {
    ItemsOfResponse(api(ChunkQuery(part, chunk)))
  }

  /** The topics of the answer to one chunk. */
  function ChunkTopics(api: Request -> Option<Page<Videos.Video>>, chunk: seq<string>): seq<string>
  {
    TopicsOfVideos(AnsweredVideos(api, TopicPart, chunk))
  }

  /** `ChunkTopics` as a value. */
  function TopicsFor(api: Request -> Option<Page<Videos.Video>>): seq<string> -> seq<string>
  {
    chunk => ChunkTopics(api, chunk)
  }

  /** The topics of the answers to `chunks`, chunk after chunk. */
  function TopicsOfChunks(api: Request -> Option<Page<Videos.Video>>, chunks: seq<seq<string>>): seq<string>
  {
    ConcatOf(TopicsFor(api), chunks)
  }

  /** What `get_topic_freqs_in_playlist` returns. */
  function TopicFreqs(api: Request -> Option<Page<Videos.Video>>, pages: seq<Page<PlaylistItems.PlaylistItem>>)
    : multiset<string>
  {
    var ids := CollectedIds(pages);
    if ids == [] then multiset{} else multiset(TopicsOfChunks(api, Chunks(ids)))
  }

  /** The requests `get_topic_freqs_in_playlist` sends: one per chunk, none without ids. */
  function TopicRequests(pages: seq<Page<PlaylistItems.PlaylistItem>>): seq<Request>
  {
    ChunkQueries(TopicPart, Chunks(CollectedIds(pages)))
  }

  lemma TopicsOfVideosSnoc(videos: seq<Videos.Video>, k: nat)
    requires k < |videos|
    ensures TopicsOfVideos(videos[..k + 1]) == TopicsOfVideos(videos[..k]) + VideoTopics(videos[k])
  {
    ConcatOfSnoc(VideoTopics, videos, k);
  }

  lemma TopicsOfChunksSnoc(api: Request -> Option<Page<Videos.Video>>, chunks: seq<seq<string>>, chunk: seq<string>)
    ensures TopicsOfChunks(api, chunks + [chunk]) == TopicsOfChunks(api, chunks) + ChunkTopics(api, chunk)
  {
    var all := chunks + [chunk];
    assert all[..|chunks|] == chunks && all[..|chunks| + 1] == all;
    ConcatOfSnoc(TopicsFor(api), all, |chunks|);
  }

  /** What the chunk loop leaves behind once `i` has passed the end. */
  lemma ChunksDone(ids: seq<string>, done: seq<seq<string>>, i: nat)
    requires Chunks(ids) == done + ChunksFrom(ids, i) && i >= |ids|
    ensures done == Chunks(ids)
  {
    assert done + [] == done;
  }

  /** One step of the chunk loop: the chunk at `i` is the next one. */
  lemma ChunkStep(ids: seq<string>, done: seq<seq<string>>, i: nat)
    requires Chunks(ids) == done + ChunksFrom(ids, i) && i < |ids|
    ensures Chunks(ids) == (done + [ids[i..Min(i + ChunkSize, |ids|)]]) + ChunksFrom(ids, i + ChunkSize)
  {
  }

  /** The inner loop of `get_topic_freqs_in_playlist`: `Counter.update` with the parsed
      topics of every video of one answer. */
  method CountTopics(videos: seq<Videos.Video>) returns (counts: multiset<string>)
    ensures counts == multiset(TopicsOfVideos(videos))
  {
    counts := multiset{};
    for k := 0 to |videos|
      invariant counts == multiset(TopicsOfVideos(videos[..k]))
    {
      var topicDetails := videos[k].topicDetails.GetOr(TopicDetails(None));
      var topics := TopicHelper.ParseTopicUrls(topicDetails);
      TopicsOfVideosSnoc(videos, k);
      counts := counts + multiset(topics);
    }
    assert videos[..|videos|] == videos;
  }

  /** `get_topic_freqs_in_playlist` over the pages of the playlist: the topic counts and the
      requests it sends. Without video ids it sends nothing and returns no counts. */
  method GetTopicFreqsInPlaylist(api: Request -> Option<Page<Videos.Video>>,
                                 pages: seq<Page<PlaylistItems.PlaylistItem>>)
    returns (freqs: multiset<string>, sent: seq<Request>)
    ensures freqs == TopicFreqs(api, pages)
    ensures sent == TopicRequests(pages)
    ensures CollectedIds(pages) == [] ==> freqs == multiset{} && sent == []
  {
    var videoIds := CollectVideoIds(pages);
    if videoIds == [] {
      return multiset{}, [];
    }
    VideoIdsMeaning(AllItems(pages));
    freqs := multiset{};
    sent := [];
    ghost var done: seq<seq<string>> := [];
    var i := 0;
    while i < |videoIds|
      invariant Chunks(videoIds) == done + ChunksFrom(videoIds, i)
      invariant freqs == multiset(TopicsOfChunks(api, done))
      invariant sent == ChunkQueries(TopicPart, done)
      decreases |videoIds| - i
    {
      var chunk := videoIds[i..Min(i + ChunkSize, |videoIds|)];
      var videoIdsStr := Strings.Join(chunk, IdSeparator);
      ChunkJoinNonEmpty(videoIds, i);
      var request := Videos.ListVideo(TopicPart, None, Some(videoIdsStr), None, None, ChunkSize, None);
      ChunkQueryIsListVideo(TopicPart, chunk);
      ChunkQueriesSnoc(TopicPart, done, chunk);
      sent := sent + [request.value];
      var videoResponses := api(request.value);
      var videos: seq<Videos.Video> := [];
      if IsTruthy(videoResponses) && videoResponses.value.items.Some? {
        videos := videoResponses.value.items.value;
      }
      assert videos == AnsweredVideos(api, TopicPart, chunk);
      var counts := CountTopics(videos);
      freqs := freqs + counts;
      TopicsOfChunksSnoc(api, done, chunk);
      ChunkStep(videoIds, done, i);
      done := done + [chunk];
      i := i + ChunkSize;
    }
    ChunksDone(videoIds, done, i);
  }

  /** The number of topic URLs of `videos`. */
  function UrlCount(videos: seq<Videos.Video>): nat
    decreases |videos|
  {
    if videos == [] then 0
    else UrlCount(videos[..|videos| - 1]) + |videos[|videos| - 1].topicDetails.GetOr(TopicDetails(None)).topicCategories.GetOr([])|
  }

  /** The number of topic URLs of the videos answered for `chunks`. */
  function ChunkUrlCount(api: Request -> Option<Page<Videos.Video>>, chunks: seq<seq<string>>): nat
    decreases |chunks|
  {
    if chunks == [] then 0
    else ChunkUrlCount(api, chunks[..|chunks| - 1]) + UrlCount(AnsweredVideos(api, TopicPart, chunks[|chunks| - 1]))
  }

  lemma {:induction false} TopicsOfVideosCount(videos: seq<Videos.Video>)
    ensures |TopicsOfVideos(videos)| == UrlCount(videos)
    decreases |videos|
  {
    if videos != [] {
      var n := |videos| - 1;
      TopicsOfVideosCount(videos[..n]);
      assert TopicsOfVideos(videos) == TopicsOfVideos(videos[..n]) + VideoTopics(videos[n]);
    }
  }

  lemma {:induction false} TopicsOfChunksCount(api: Request -> Option<Page<Videos.Video>>, chunks: seq<seq<string>>)
    ensures |TopicsOfChunks(api, chunks)| == ChunkUrlCount(api, chunks)
    decreases |chunks|
  {
    if chunks != [] {
      var n := |chunks| - 1;
      TopicsOfChunksCount(api, chunks[..n]);
      TopicsOfVideosCount(AnsweredVideos(api, TopicPart, chunks[n]));
      assert TopicsOfChunks(api, chunks) == TopicsOfChunks(api, chunks[..n]) + ChunkTopics(api, chunks[n]);
    }
  }

  /** The counts add up to the number of topic URLs of all videos answered. */
  lemma TopicFreqsTotal(api: Request -> Option<Page<Videos.Video>>, pages: seq<Page<PlaylistItems.PlaylistItem>>)
    ensures |TopicFreqs(api, pages)| == ChunkUrlCount(api, Chunks(CollectedIds(pages)))
  {
    TopicsOfChunksCount(api, Chunks(CollectedIds(pages)));
  }

  /** A topic of `videos` is a label of one of them. */
  lemma TopicsOfVideosSource(videos: seq<Videos.Video>, t: string)
    ensures t in TopicsOfVideos(videos) <==> exists j :: 0 <= j < |videos| && t in VideoTopics(videos[j])
  {
    ConcatOfSource(VideoTopics, videos, t);
  }

  /** A topic is counted exactly when the answer to some chunk has it: failed calls and
      answers without `items` add nothing. */
  lemma TopicsOfChunksSource(api: Request -> Option<Page<Videos.Video>>, chunks: seq<seq<string>>, t: string)
    ensures t in TopicsOfChunks(api, chunks) <==> exists k :: 0 <= k < |chunks| && t in ChunkTopics(api, chunks[k])
  {
    ConcatOfSource(TopicsFor(api), chunks, t);
  }

  /** The topics counted are the labels of the videos answered for the playlist's chunks. */
  lemma TopicFreqsSource(api: Request -> Option<Page<Videos.Video>>, pages: seq<Page<PlaylistItems.PlaylistItem>>,
                         t: string)
    ensures t in TopicFreqs(api, pages) <==>
      exists k :: 0 <= k < |Chunks(CollectedIds(pages))| && t in ChunkTopics(api, Chunks(CollectedIds(pages))[k])
  {
    TopicsOfChunksSource(api, Chunks(CollectedIds(pages)), t);
  }

  // ----- Category frequencies -----

  /** `video_item.get('snippet', {}).get('categoryId')`. */
  function CategoryIdOf(v: Videos.Video): Option<string>
  {
    if v.snippet.Some? then v.snippet.value.categoryId else None
  }

  /** The truthy category ids of `videos`, in order. */
  function CategoryIdsOfVideos(videos: seq<Videos.Video>): seq<string>
    decreases |videos|
  {
    if videos == [] then []
    else
      var v := videos[|videos| - 1];
      CategoryIdsOfVideos(videos[..|videos| - 1]) + (if Truthy(CategoryIdOf(v)) then [CategoryIdOf(v).value] else [])
  }

  /** The category ids of the answers to `chunks`, chunk after chunk. */
  function CategoryIdsOfChunks(api: Request -> Option<Page<Videos.Video>>, chunks: seq<seq<string>>): seq<string>
  {
    ConcatOf(CategoryIdsFor(api), chunks)
  }

  /** The category ids of the answer to one chunk, as a value. */
  function CategoryIdsFor(api: Request -> Option<Page<Videos.Video>>): seq<string> -> seq<string>
  {
    chunk => CategoryIdsOfVideos(AnsweredVideos(api, SnippetPart, chunk))
  }

  /** The category ids `get_category_freqs_in_playlist` collects. */
  function CollectedCategoryIds(api: Request -> Option<Page<Videos.Video>>,
                                pages: seq<Page<PlaylistItems.PlaylistItem>>): seq<string>
  {
    var ids := CollectedIds(pages);
    if ids == [] then [] else CategoryIdsOfChunks(api, Chunks(ids))
  }

  /** `list(set(ids))`, listed in order of first occurrence. */
  function Unique(ids: seq<string>): seq<string>
    decreases |ids|
  {
    if ids == [] then []
    else
      var last := ids[|ids| - 1];
      Unique(ids[..|ids| - 1]) + (if last in ids[..|ids| - 1] then [] else [last])
  }

  /** `list(set(ids))` holds every id once and nothing else. */
  lemma {:induction false} UniqueMeaning(ids: seq<string>)
    ensures forall x :: x in Unique(ids) <==> x in ids
    ensures forall i, j :: 0 <= i < j < |Unique(ids)| ==> Unique(ids)[i] != Unique(ids)[j]
    decreases |ids|
  {
    if ids != [] {
      var front := ids[..|ids| - 1];
      UniqueMeaning(front);
      assert ids == front + [ids[|ids| - 1]];
    }
  }

  /** The `videoCategories.list` request for the distinct category ids. */
  function CategoryQuery(categoryIds: seq<string>): Request
  {
    Request("videoCategories", map["part" := Text(SnippetPart), "maxResults" := Number(Videos.DefaultMaxResults),
                                   "id" := Text(Strings.Join(Unique(categoryIds), IdSeparator))], false)
  }

  /** That request is what `list_video_category(part="snippet", category_ids=...)` builds. */
  lemma CategoryQueryIsListCategory(categoryIds: seq<string>)
    requires Strings.Join(Unique(categoryIds), IdSeparator) != ""
    ensures Videos.CategoryListRequest(SnippetPart, Some(Strings.Join(Unique(categoryIds), IdSeparator)), None,
                                       Videos.DefaultMaxResults, None) == Ok(CategoryQuery(categoryIds))
  {
  }

  /** The title of a category, `None` when its snippet or title is missing. */
  function CategoryTitleOf(c: Videos.VideoCategory): Option<string>
  {
    if c.snippet.Some? then c.snippet.value.title else None
  }

  /** A category is stored under its id when both the id and the title are truthy. */
  function NameKey(c: Videos.VideoCategory): Option<string>
  {
    if Truthy(c.id) && Truthy(CategoryTitleOf(c)) then c.id else None
  }

  /** What is stored for a category: its title. */
  function NameOf(c: Videos.VideoCategory): Result<string>
  {
    Ok(CategoryTitleOf(c).GetOr(""))
  }

  /** Storing a title never raises. */
  lemma {:induction false} NamesNeverFail(items: seq<Videos.VideoCategory>)
    ensures Keyed.ByKey(items, NameKey, NameOf).Ok?
    decreases |items|
  {
    if items != [] {
      NamesNeverFail(items[..|items| - 1]);
    }
  }

  /** `category_id_to_name` for the categories answered. */
  function CategoryNames(items: seq<Videos.VideoCategory>): map<string, string>
  {
    NamesNeverFail(items);
    Keyed.ByKey(items, NameKey, NameOf).value
  }

  /** The dictionary holds exactly the ids of the categories that have both an id and a
      title; each id maps to a non-empty title, that of the last such category. */
  lemma CategoryNamesMeaning(items: seq<Videos.VideoCategory>)
    ensures var m := CategoryNames(items);
      && (forall k :: k in m <==> exists j :: 0 <= j < |items| && items[j].id == Some(k) && k != "" &&
                                              Truthy(CategoryTitleOf(items[j])))
      && (forall k :: k in m ==> m[k] != "")
      && (forall k, j :: Keyed.LastWithKey(items, NameKey, k, j) ==> k in m && Some(m[k]) == CategoryTitleOf(items[j]))
  {
    NamesNeverFail(items);
    Keyed.ByKeyContents(items, NameKey, NameOf);
    Keyed.ByKeyAll(items, NameKey, NameOf, (k: string, v: string) => v != "");
  }

  /** The names of `ids` that the dictionary knows, one per such id, in order:
      `NamesOfIdsMeaning` proves it holds exactly one copy of `names[ids[i]]` for every
      index `i` whose id the dictionary knows, and nothing else. */
  function NamesOfIds(ids: seq<string>, names: map<string, string>): seq<string>
    decreases |ids|
  {
    if ids == [] then []
    else
      var last := ids[|ids| - 1];
      NamesOfIds(ids[..|ids| - 1], names) + (if last in names then [names[last]] else [])
  }

  /** The indices of `ids` whose id the dictionary knows, in increasing order. */
  function KnownIndices(ids: seq<string>, names: map<string, string>): seq<nat>
    decreases |ids|
  {
    if ids == [] then []
    else
      var n := |ids| - 1;
      KnownIndices(ids[..n], names) + (if ids[n] in names then [n] else [])
  }

  /** `KnownIndices` lists every index with a known id, once each and in order, and the
      `j`-th name of `NamesOfIds` is that of the `j`-th such index. */
  lemma {:induction false} KnownIndicesNames(ids: seq<string>, names: map<string, string>)
    ensures var k := KnownIndices(ids, names);
      && |NamesOfIds(ids, names)| == |k|
      && (forall j :: 0 <= j < |k| ==> k[j] < |ids| && ids[k[j]] in names && NamesOfIds(ids, names)[j] == names[ids[k[j]]])
      && (forall j, j' :: 0 <= j < j' < |k| ==> k[j] < k[j'])
      && (forall i :: 0 <= i < |ids| && ids[i] in names ==> i in k)
    decreases |ids|
  {
    if ids != [] {
      var n := |ids| - 1;
      var front := ids[..n];
      KnownIndicesNames(front, names);
      var kf := KnownIndices(front, names);
      var k := KnownIndices(ids, names);
      assert forall j :: 0 <= j < |kf| ==> k[j] == kf[j] && ids[kf[j]] == front[kf[j]];
      forall i | 0 <= i < |ids| && ids[i] in names
        ensures i in k
      {
        if i < n {
          assert front[i] == ids[i];
        }
      }
    }
  }

  /** What `get_category_freqs_in_playlist` returns; `categoryApi` answers the category call. */
  function CategoryFreqs(videoApi: Request -> Option<Page<Videos.Video>>,
                         categoryApi: Request -> Option<Page<Videos.VideoCategory>>,
                         pages: seq<Page<PlaylistItems.PlaylistItem>>): multiset<string>
  {
    var categoryIds := CollectedCategoryIds(videoApi, pages);
    if categoryIds == [] then multiset{}
    else multiset(NamesOfIds(categoryIds, CategoryNames(ItemsOfResponse(categoryApi(CategoryQuery(categoryIds))))))
  }

  /** The requests it sends: one per chunk, then the category call when there are ids. */
  function CategoryRequests(videoApi: Request -> Option<Page<Videos.Video>>,
                            pages: seq<Page<PlaylistItems.PlaylistItem>>): seq<Request>
  {
    var categoryIds := CollectedCategoryIds(videoApi, pages);
    ChunkQueries(SnippetPart, Chunks(CollectedIds(pages))) + (if categoryIds == [] then [] else [CategoryQuery(categoryIds)])
  }

  lemma CategoryIdsOfVideosSnoc(videos: seq<Videos.Video>, k: nat)
    requires k < |videos|
    ensures CategoryIdsOfVideos(videos[..k + 1]) == CategoryIdsOfVideos(videos[..k]) +
      (if Truthy(CategoryIdOf(videos[k])) then [CategoryIdOf(videos[k]).value] else [])
  {
    assert videos[..k + 1][..k] == videos[..k];
  }

  lemma CategoryIdsOfChunksSnoc(api: Request -> Option<Page<Videos.Video>>, chunks: seq<seq<string>>, chunk: seq<string>)
    ensures CategoryIdsOfChunks(api, chunks + [chunk]) ==
      CategoryIdsOfChunks(api, chunks) + CategoryIdsOfVideos(AnsweredVideos(api, SnippetPart, chunk))
  {
    var all := chunks + [chunk];
    assert all[..|chunks|] == chunks && all[..|chunks| + 1] == all;
    ConcatOfSnoc(CategoryIdsFor(api), all, |chunks|);
  }

  lemma NamesOfIdsSnoc(ids: seq<string>, names: map<string, string>, i: nat)
    requires i < |ids|
    ensures NamesOfIds(ids[..i + 1], names) ==
      NamesOfIds(ids[..i], names) + (if ids[i] in names then [names[ids[i]]] else [])
  {
    assert ids[..i + 1][..i] == ids[..i];
  }

  /** The category ids collected are non-empty. */
  lemma {:induction false} CategoryIdsOfVideosNonEmpty(videos: seq<Videos.Video>)
    ensures forall k :: 0 <= k < |CategoryIdsOfVideos(videos)| ==> CategoryIdsOfVideos(videos)[k] != ""
    decreases |videos|
  {
    if videos != [] {
      CategoryIdsOfVideosNonEmpty(videos[..|videos| - 1]);
    }
  }

  lemma {:induction false} CategoryIdsNonEmpty(api: Request -> Option<Page<Videos.Video>>, chunks: seq<seq<string>>)
    ensures forall k :: 0 <= k < |CategoryIdsOfChunks(api, chunks)| ==> CategoryIdsOfChunks(api, chunks)[k] != ""
    decreases |chunks|
  {
    if chunks != [] {
      var n := |chunks| - 1;
      CategoryIdsNonEmpty(api, chunks[..n]);
      CategoryIdsOfVideosNonEmpty(AnsweredVideos(api, SnippetPart, chunks[n]));
      assert CategoryIdsOfChunks(api, chunks) ==
        CategoryIdsOfChunks(api, chunks[..n]) + CategoryIdsOfVideos(AnsweredVideos(api, SnippetPart, chunks[n]));
    }
  }

  /** The distinct ids of a non-empty list of non-empty ids join to a non-empty string. */
  lemma UniqueJoinNonEmpty(ids: seq<string>)
    requires ids != []
    requires forall k :: 0 <= k < |ids| ==> ids[k] != ""
    ensures Strings.Join(Unique(ids), IdSeparator) != ""
  {
    UniqueMeaning(ids);
    var u := Unique(ids);
    assert ids[0] in u;
    forall k | 0 <= k < |u|
      ensures u[k] != ""
    {
      assert u[k] in ids;
      var j :| 0 <= j < |ids| && ids[j] == u[k];
    }
    Strings.JoinNonEmpty(u, IdSeparator);
  }

  /** The inner loop of `get_category_freqs_in_playlist`: the truthy category ids of the
      videos of one answer. */
  method VideoCategoryIds(videos: seq<Videos.Video>) returns (categoryIds: seq<string>)
    ensures categoryIds == CategoryIdsOfVideos(videos)
  {
    categoryIds := [];
    for k := 0 to |videos|
      invariant categoryIds == CategoryIdsOfVideos(videos[..k])
    {
      var categoryId := CategoryIdOf(videos[k]);
      CategoryIdsOfVideosSnoc(videos, k);
      if categoryId.Some? && categoryId.value != "" {
        categoryIds := categoryIds + [categoryId.value];
      }
    }
    assert videos[..|videos|] == videos;
  }

  /** The chunk loop of `get_category_freqs_in_playlist`: the requests it sends and the
      category ids it collects. */
  method CollectCategoryIds(videoApi: Request -> Option<Page<Videos.Video>>, videoIds: seq<string>)
    returns (categoryIds: seq<string>, sent: seq<Request>)
    requires forall k :: 0 <= k < |videoIds| ==> videoIds[k] != ""
    ensures categoryIds == CategoryIdsOfChunks(videoApi, Chunks(videoIds))
    ensures sent == ChunkQueries(SnippetPart, Chunks(videoIds))
  {
    categoryIds := [];
    sent := [];
    ghost var done: seq<seq<string>> := [];
    var i := 0;
    while i < |videoIds|
      invariant Chunks(videoIds) == done + ChunksFrom(videoIds, i)
      invariant categoryIds == CategoryIdsOfChunks(videoApi, done)
      invariant sent == ChunkQueries(SnippetPart, done)
      decreases |videoIds| - i
    {
      var chunk := videoIds[i..Min(i + ChunkSize, |videoIds|)];
      var videoIdsStr := Strings.Join(chunk, IdSeparator);
      ChunkJoinNonEmpty(videoIds, i);
      var request := Videos.ListVideo(SnippetPart, None, Some(videoIdsStr), None, None, ChunkSize, None);
      ChunkQueryIsListVideo(SnippetPart, chunk);
      ChunkQueriesSnoc(SnippetPart, done, chunk);
      sent := sent + [request.value];
      var videoResponses := videoApi(request.value);
      var videos: seq<Videos.Video> := [];
      if IsTruthy(videoResponses) && videoResponses.value.items.Some? {
        videos := videoResponses.value.items.value;
      }
      assert videos == AnsweredVideos(videoApi, SnippetPart, chunk);
      var answeredIds := VideoCategoryIds(videos);
      categoryIds := categoryIds + answeredIds;
      CategoryIdsOfChunksSnoc(videoApi, done, chunk);
      ChunkStep(videoIds, done, i);
      done := done + [chunk];
      i := i + ChunkSize;
    }
    ChunksDone(videoIds, done, i);
  }

  /** The loop filling `category_id_to_name`. */
  method MapCategoryNames(items: seq<Videos.VideoCategory>) returns (names: map<string, string>)
    ensures names == CategoryNames(items)
  {
    names := map[];
    for j := 0 to |items|
      invariant Keyed.ByKey(items[..j], NameKey, NameOf) == Ok(names)
    {
      var catId := items[j].id;
      var catName := CategoryTitleOf(items[j]);
      if catId.Some? && catId.value != "" && catName.Some? && catName.value != "" {
        Keyed.ByKeyStored(items, NameKey, NameOf, j, names, catId.value, catName.value);
        names := names[catId.value := catName.value];
      } else {
        Keyed.ByKeySkipped(items, NameKey, NameOf, j, names);
      }
    }
    assert items[..|items|] == items;
    NamesNeverFail(items);
  }

  /** `get_category_freqs_in_playlist` over the pages of the playlist: the category counts
      and the requests it sends. Without video ids it sends nothing; without category ids
      it makes no category call; either way it returns no counts. */
  method GetCategoryFreqsInPlaylist(videoApi: Request -> Option<Page<Videos.Video>>,
                                    categoryApi: Request -> Option<Page<Videos.VideoCategory>>,
                                    pages: seq<Page<PlaylistItems.PlaylistItem>>)
    returns (freqs: multiset<string>, sent: seq<Request>)
    ensures freqs == CategoryFreqs(videoApi, categoryApi, pages)
    ensures sent == CategoryRequests(videoApi, pages)
    ensures CollectedIds(pages) == [] ==> freqs == multiset{} && sent == []
    ensures CollectedCategoryIds(videoApi, pages) == [] ==> freqs == multiset{}
  {
    var videoIds := CollectVideoIds(pages);
    if videoIds == [] {
      return multiset{}, [];
    }
    VideoIdsMeaning(AllItems(pages));
    var categoryIds;
    categoryIds, sent := CollectCategoryIds(videoApi, videoIds);
    if categoryIds == [] {
      return multiset{}, sent;
    }
    CategoryIdsNonEmpty(videoApi, Chunks(videoIds));
    var uniqueCategoryIds := Unique(categoryIds);
    var categoryIdStr := Strings.Join(uniqueCategoryIds, IdSeparator);
    UniqueJoinNonEmpty(categoryIds);
    var request := Videos.ListVideoCategory(SnippetPart, Some(categoryIdStr), None, Videos.DefaultMaxResults, None);
    CategoryQueryIsListCategory(categoryIds);
    sent := sent + [request.value];
    var categoryResponses := categoryApi(request.value);
    var answered: seq<Videos.VideoCategory> := [];
    if IsTruthy(categoryResponses) && categoryResponses.value.items.Some? {
      answered := categoryResponses.value.items.value;
    }
    var categoryIdToName := MapCategoryNames(answered);
    freqs := multiset{};
    for i := 0 to |categoryIds|
      invariant freqs == multiset(NamesOfIds(categoryIds[..i], categoryIdToName))
    {
      NamesOfIdsSnoc(categoryIds, categoryIdToName, i);
      if categoryIds[i] in categoryIdToName {
        freqs := freqs + multiset{categoryIdToName[categoryIds[i]]};
      }
    }
    assert categoryIds[..|categoryIds|] == categoryIds;
  }

  /** Every occurrence of an id the dictionary knows adds exactly one copy of its name, in
      order, and nothing else is added: the names are `names[ids[i]]` for the known indices
      `i` of `KnownIndices`, one each. */
  lemma {:induction false} NamesOfIdsMeaning(ids: seq<string>, names: map<string, string>)
    ensures |NamesOfIds(ids, names)| <= |ids|
    ensures var k := KnownIndices(ids, names);
      && |NamesOfIds(ids, names)| == |k|
      && (forall j :: 0 <= j < |k| ==> k[j] < |ids| && ids[k[j]] in names && NamesOfIds(ids, names)[j] == names[ids[k[j]]])
      && (forall j, j' :: 0 <= j < j' < |k| ==> k[j] < k[j'])
      && (forall i :: 0 <= i < |ids| && ids[i] in names ==> i in k)
    ensures forall x :: x in NamesOfIds(ids, names) <==>
      exists i :: 0 <= i < |ids| && ids[i] in names && names[ids[i]] == x
    decreases |ids|
  {
    KnownIndicesNames(ids, names);
    if ids != [] {
      var n := |ids| - 1;
      var front := ids[..n];
      NamesOfIdsMeaning(front, names);
      forall x
        ensures x in NamesOfIds(ids, names) <==> exists i :: 0 <= i < |ids| && ids[i] in names && names[ids[i]] == x
      {
        if i :| 0 <= i < |ids| && ids[i] in names && names[ids[i]] == x {
          if i < n {
            assert front[i] == ids[i];
          }
        }
        if i :| 0 <= i < |front| && front[i] in names && names[front[i]] == x {
          assert ids[i] == front[i];
        }
      }
    }
  }

  /** The category counts add up to the number of collected category ids the dictionary
      knows (at most the number collected), and count only names the category call
      answered with. */
  lemma CategoryFreqsMeaning(videoApi: Request -> Option<Page<Videos.Video>>,
                             categoryApi: Request -> Option<Page<Videos.VideoCategory>>,
                             pages: seq<Page<PlaylistItems.PlaylistItem>>)
    ensures |CategoryFreqs(videoApi, categoryApi, pages)| <= |CollectedCategoryIds(videoApi, pages)|
    ensures var categoryIds := CollectedCategoryIds(videoApi, pages);
      var names := CategoryNames(ItemsOfResponse(categoryApi(CategoryQuery(categoryIds))));
      |CategoryFreqs(videoApi, categoryApi, pages)| == |KnownIndices(categoryIds, names)|
    ensures var categoryIds := CollectedCategoryIds(videoApi, pages);
      var names := CategoryNames(ItemsOfResponse(categoryApi(CategoryQuery(categoryIds))));
      forall x :: x in CategoryFreqs(videoApi, categoryApi, pages) <==>
        exists i :: 0 <= i < |categoryIds| && categoryIds[i] in names && names[categoryIds[i]] == x
  {
    var categoryIds := CollectedCategoryIds(videoApi, pages);
    var names := CategoryNames(ItemsOfResponse(categoryApi(CategoryQuery(categoryIds))));
    if categoryIds != [] {
      var s := NamesOfIds(categoryIds, names);
      NamesOfIdsMeaning(categoryIds, names);
      assert CategoryFreqs(videoApi, categoryApi, pages) == multiset(s);
      forall x
        ensures x in multiset(s) <==> x in s
      {
      }
    }
  }
}
