/** `metrics/utils/api_resources/playlistitems.py`: the `playlistItems.list` request
    builder and the normaliser that turns a playlistItems response into a dictionary keyed
    by video id. */
module PlaylistItems {
  import opened Wrappers
  import opened Api
  import opened DateHelper
  import Keyed

  const DefaultPart := "id,snippet,contentDetails,status"
  const DefaultMaxResults := 50
  const PlaylistIdMessage := "playlist_id must be provided."

  datatype ItemSnippet = ItemSnippet(
    resourceId: Option<ResourceId>, publishedAt: Option<string>, channelId: Option<string>,
    channelTitle: Option<string>, title: Option<string>, description: Option<string>,
    thumbnails: Option<Thumbnails>, playlistId: Option<string>, position: Option<int>)

  datatype ItemContentDetails = ItemContentDetails(videoId: Option<string>, videoPublishedAt: Option<string>)

  datatype ItemStatus = ItemStatus(privacyStatus: Option<string>)

  /** A playlistItem resource. */
  datatype PlaylistItem = PlaylistItem(id: Option<string>, snippet: Option<ItemSnippet>,
                                       contentDetails: Option<ItemContentDetails>, status: Option<ItemStatus>)

  /** The dictionary `process_raw_items` stores for one item. */
  datatype ItemEntry = ItemEntry(
    id: string, videoId: string, publishedAt: Option<DateTime>, channelId: string, channelTitle: string,
    title: string, description: string, thumbnailUrl: string, playlistId: string, position: int,
    videoPublishedAt: Option<DateTime>, privacyStatus: string)

  /** The request `PlaylistItems.list` sends: always over OAuth, always with `playlistId`;
      an empty or missing playlist id raises before anything is built. */
  function PlaylistItemsListRequest(part: string, playlistId: Option<string>, maxResults: int,
                                    pageToken: Option<string>): (r: Result<Request>)
    ensures r.Err? <==> !Truthy(playlistId)
    ensures r.Err? ==> r.error == ValueError(PlaylistIdMessage)
    ensures r.Ok? ==>
      var q := r.value;
      && q.endpoint == "playlistItems" && q.useOAuth
      && CommonParams(q, part, maxResults, pageToken)
      && "playlistId" in q.params && q.params["playlistId"] == Text(playlistId.value)
      && q.params.Keys <= {"part", "playlistId", "maxResults", "pageToken"}
  {
    if !Truthy(playlistId) then Err(ValueError(PlaylistIdMessage))
    else
      var base := map["part" := Text(part), "playlistId" := Text(playlistId.value), "maxResults" := Number(maxResults)];
      Ok(Request("playlistItems", WithPageToken(base, pageToken), true))
  }

  /** `PlaylistItems.list`. */
  method ListPlaylistItems(part: string, playlistId: Option<string>, maxResults: int,
                           pageToken: Option<string>) returns (r: Result<Request>)
    ensures r == PlaylistItemsListRequest(part, playlistId, maxResults, pageToken)
  {
    if playlistId.None? || playlistId.value == "" {
      return Err(ValueError(PlaylistIdMessage));
    }
    var params := map["part" := Text(part), "playlistId" := Text(playlistId.value), "maxResults" := Number(maxResults)];
    if Truthy(pageToken) {
      params := params["pageToken" := Text(pageToken.value)];
    }
    return Ok(Request("playlistItems", params, true));
  }

  /** The `snippet` of an item, `{}` when missing. */
  function SnippetOf(it: PlaylistItem): ItemSnippet
  {
    it.snippet.GetOr(ItemSnippet(None, None, None, None, None, None, None, None, None))
  }

  /** The `contentDetails` of an item, `{}` when missing. */
  function DetailsOf(it: PlaylistItem): ItemContentDetails
  {
    it.contentDetails.GetOr(ItemContentDetails(None, None))
  }

  /** `snippet.resourceId.videoId`, `""` when any level is missing. */
  function VideoIdOf(it: PlaylistItem): string
  {
    match SnippetOf(it).resourceId
    case Some(resource) => resource.videoId.GetOr("")
    case None => ""
  }

  /** The key an item is stored under; an item without a video id is skipped. */
  function ItemKey(it: PlaylistItem): Option<string>
  {
    if VideoIdOf(it) == "" then None else Some(VideoIdOf(it))
  }

  /** One item's entry: its two dates are read in that order, and either can raise. */
  function ItemEntryOf(fromIsoFormat: string -> Option<DateTime>, it: PlaylistItem): (r: Result<ItemEntry>)
    ensures r.Err? <==> !Truthy(SnippetOf(it).publishedAt) || !Truthy(DetailsOf(it).videoPublishedAt)
    ensures r.Err? ==> r.error == ValueError(NoDateMessage)
    ensures r.Ok? ==> r.value.videoId == VideoIdOf(it)
    ensures r.Ok? && SnippetOf(it).position.None? ==> r.value.position == 0
    ensures r.Ok? && it.id.None? ==> r.value.id == ""
    ensures r.Ok? ==>
      var e := r.value;
      && e.publishedAt == fromIsoFormat(UtcText(SnippetOf(it).publishedAt.value))
      && e.videoPublishedAt == fromIsoFormat(UtcText(DetailsOf(it).videoPublishedAt.value))
      && (it.id.Some? ==> e.id == it.id.value)
      && (SnippetOf(it).position.Some? ==> e.position == SnippetOf(it).position.value)
      && e.channelId == SnippetOf(it).channelId.GetOr("")
      && e.channelTitle == SnippetOf(it).channelTitle.GetOr("")
      && e.title == SnippetOf(it).title.GetOr("")
      && e.description == SnippetOf(it).description.GetOr("")
      && e.thumbnailUrl == DefaultThumbnailUrl(SnippetOf(it).thumbnails).GetOr("")
      && e.playlistId == SnippetOf(it).playlistId.GetOr("")
      && e.privacyStatus == it.status.GetOr(ItemStatus(None)).privacyStatus.GetOr("")
  {
    var snippet := SnippetOf(it);
    var status := it.status.GetOr(ItemStatus(None));
    match IsoStrToDatetime(fromIsoFormat, snippet.publishedAt)
    case Err(e) => Err(e)
    case Ok(published) =>
      match IsoStrToDatetime(fromIsoFormat, DetailsOf(it).videoPublishedAt)
      case Err(e) => Err(e)
      case Ok(videoPublished) =>
        Ok(ItemEntry(
          it.id.GetOr(""), VideoIdOf(it), published, snippet.channelId.GetOr(""),
          snippet.channelTitle.GetOr(""), snippet.title.GetOr(""), snippet.description.GetOr(""),
          DefaultThumbnailUrl(snippet.thumbnails).GetOr(""), snippet.playlistId.GetOr(""),
          snippet.position.GetOr(0), videoPublished, status.privacyStatus.GetOr("")))
  }

  /** `ItemEntryOf` as a value, for the shared dictionary-filling loop. */
  function EntryOf(fromIsoFormat: string -> Option<DateTime>): PlaylistItem -> Result<ItemEntry>
  {
    it => ItemEntryOf(fromIsoFormat, it)
  }

  /** What `process_raw_items` returns: `None` without an `items` key, otherwise the
      dictionary of the entries of the items that carry a video id, or the first exception
      their dates raise. */
  function ProcessedItems(fromIsoFormat: string -> Option<DateTime>, response: Page<PlaylistItem>)
    : Result<Option<map<string, ItemEntry>>>
  {
    match response.items
    case None => Ok(None)
    case Some(items) =>
      match Keyed.ByKey(items, ItemKey, EntryOf(fromIsoFormat))
      case Err(e) => Err(e)
      case Ok(m) => Ok(Some(m))
  }

  /** `PlaylistItems.process_raw_items`. */
  method ProcessRawItems(fromIsoFormat: string -> Option<DateTime>, response: Page<PlaylistItem>)
    returns (r: Result<Option<map<string, ItemEntry>>>)
    ensures r == ProcessedItems(fromIsoFormat, response)
  {
    if response.items.None? {
      return Ok(None);
    }
    var items := response.items.value;
    var processed: map<string, ItemEntry> := map[];
    for i := 0 to |items|
      invariant Keyed.ByKey(items[..i], ItemKey, EntryOf(fromIsoFormat)) == Ok(processed)
    {
      var it := items[i];
      var videoId := VideoIdOf(it);
      if videoId == "" {
        Keyed.ByKeySkipped(items, ItemKey, EntryOf(fromIsoFormat), i, processed);
        continue;
      }
      var snippet := SnippetOf(it);
      var status := it.status.GetOr(ItemStatus(None));
      var published := IsoStrToDatetime(fromIsoFormat, snippet.publishedAt);
      if published.Err? {
        Keyed.ByKeyRaised(items, ItemKey, EntryOf(fromIsoFormat), i, processed, published.error);
        Keyed.ByKeyStaysFailed(items, ItemKey, EntryOf(fromIsoFormat), i + 1, published.error);
        return Err(published.error);
      }
      var videoPublished := IsoStrToDatetime(fromIsoFormat, DetailsOf(it).videoPublishedAt);
      if videoPublished.Err? {
        Keyed.ByKeyRaised(items, ItemKey, EntryOf(fromIsoFormat), i, processed, videoPublished.error);
        Keyed.ByKeyStaysFailed(items, ItemKey, EntryOf(fromIsoFormat), i + 1, videoPublished.error);
        return Err(videoPublished.error);
      }
      var data := ItemEntry(
        it.id.GetOr(""), videoId, published.value, snippet.channelId.GetOr(""),
        snippet.channelTitle.GetOr(""), snippet.title.GetOr(""), snippet.description.GetOr(""),
        DefaultThumbnailUrl(snippet.thumbnails).GetOr(""), snippet.playlistId.GetOr(""),
        snippet.position.GetOr(0), videoPublished.value, status.privacyStatus.GetOr(""));
      assert EntryOf(fromIsoFormat)(it) == Ok(data);
      Keyed.ByKeyStored(items, ItemKey, EntryOf(fromIsoFormat), i, processed, videoId, data);
      processed := processed[videoId := data];
    }
    assert items[..|items|] == items;
    return Ok(Some(processed));
  }

  /** Every exception the loop raises is the date helper's. */
  lemma {:induction false} ByKeyError(items: seq<PlaylistItem>, fromIsoFormat: string -> Option<DateTime>)
    ensures Keyed.ByKey(items, ItemKey, EntryOf(fromIsoFormat)).Err? ==>
      Keyed.ByKey(items, ItemKey, EntryOf(fromIsoFormat)).error == ValueError(NoDateMessage)
    decreases |items|
  {
    if items != [] {
      ByKeyError(items[..|items| - 1], fromIsoFormat);
    }
  }

  /** An item that is kept lacks one of its dates. */
  predicate KeptWithoutDate(it: PlaylistItem)
  {
    VideoIdOf(it) != "" && (!Truthy(SnippetOf(it).publishedAt) || !Truthy(DetailsOf(it).videoPublishedAt))
  }

  /** `None` exactly when there is no `items` key; an exception exactly when some item with
      a video id lacks one of its dates (items without a video id are never read further);
      otherwise the keys are exactly the non-empty video ids, each holding the entry of the
      last item with that id, whose `videoId` field is the key itself. */
  lemma ProcessedItemsMeaning(fromIsoFormat: string -> Option<DateTime>, response: Page<PlaylistItem>)
    ensures ProcessedItems(fromIsoFormat, response) == Ok(None) <==> response.items.None?
    ensures ProcessedItems(fromIsoFormat, response).Err? <==>
      response.items.Some? && exists j :: 0 <= j < |response.items.value| && KeptWithoutDate(response.items.value[j])
    ensures ProcessedItems(fromIsoFormat, response).Err? ==>
      ProcessedItems(fromIsoFormat, response).error == ValueError(NoDateMessage)
    ensures ProcessedItems(fromIsoFormat, response).Ok? && response.items.Some? ==>
      var items := response.items.value;
      var m := ProcessedItems(fromIsoFormat, response).value.value;
      && "" !in m
      && (forall k :: k in m <==> k != "" && exists j :: 0 <= j < |items| && VideoIdOf(items[j]) == k)
      && (forall k :: k in m ==> m[k].videoId == k)
      && (forall k, j :: Keyed.LastWithKey(items, ItemKey, k, j) ==>
            k in m && Ok(m[k]) == ItemEntryOf(fromIsoFormat, items[j]))
  {
    if response.items.Some? {
      var items := response.items.value;
      Keyed.ByKeyFails(items, ItemKey, EntryOf(fromIsoFormat));
      if exists j :: Keyed.FailsAt(items, ItemKey, EntryOf(fromIsoFormat), j) {
        var j :| Keyed.FailsAt(items, ItemKey, EntryOf(fromIsoFormat), j);
        assert KeptWithoutDate(items[j]);
        ByKeyError(items, fromIsoFormat);
      }
      if exists j :: 0 <= j < |items| && KeptWithoutDate(items[j]) {
        var j :| 0 <= j < |items| && KeptWithoutDate(items[j]);
        assert Keyed.FailsAt(items, ItemKey, EntryOf(fromIsoFormat), j);
      }
      if Keyed.ByKey(items, ItemKey, EntryOf(fromIsoFormat)).Ok? {
        Keyed.ByKeyContents(items, ItemKey, EntryOf(fromIsoFormat));
        Keyed.ByKeyAll(items, ItemKey, EntryOf(fromIsoFormat), (k: string, e: ItemEntry) => e.videoId == k);
        var m := Keyed.ByKey(items, ItemKey, EntryOf(fromIsoFormat)).value;
        forall k
          ensures k in m <==> k != "" && exists j :: 0 <= j < |items| && VideoIdOf(items[j]) == k
        {
          if k != "" && exists j :: 0 <= j < |items| && VideoIdOf(items[j]) == k {
            var j :| 0 <= j < |items| && VideoIdOf(items[j]) == k;
            assert ItemKey(items[j]) == Some(k);
          }
        }
      }
    }
  }
}
