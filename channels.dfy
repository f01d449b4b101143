/** `metrics/utils/api_resources/channels.py`: the `channels.list` request builder, the
    normaliser that turns a channels response into a dictionary keyed by channel id, and
    the lookup of the user's "Liked videos" playlist. */
module Channels {
  import opened Wrappers
  import opened Api
  import opened DateHelper
  import TopicHelper
  import Keyed

  const DefaultPart := "id,snippet,contentDetails,statistics,topicDetails"
  const LikedPart := "snippet,contentDetails"
  const DefaultMaxResults := 50
  const SelectorMessage := "Either mine=True or channel ids must be provided."

  datatype ChannelSnippet = ChannelSnippet(title: Option<string>, description: Option<string>,
                                           publishedAt: Option<string>, thumbnails: Option<Thumbnails>)

  /** `contentDetails.relatedPlaylists`. */
  datatype RelatedPlaylists = RelatedPlaylists(likes: Option<string>, uploads: Option<string>)

  datatype ChannelContentDetails = ChannelContentDetails(relatedPlaylists: Option<RelatedPlaylists>)

  datatype ChannelStatistics = ChannelStatistics(viewCount: Option<int>, subscriberCount: Option<int>,
                                                 videoCount: Option<int>, hiddenSubscriberCount: Option<bool>)

  /** A channel resource. */
  datatype Channel = Channel(id: Option<string>, snippet: Option<ChannelSnippet>,
                             contentDetails: Option<ChannelContentDetails>,
                             statistics: Option<ChannelStatistics>, topicDetails: Option<TopicDetails>)

  /** The dictionary `process_raw_stats` stores for one channel. */
  datatype ChannelEntry = ChannelEntry(
    channelName: string, channelDescription: string, channelPublicationDate: Option<DateTime>,
    channelPfpUrl: string, likedVideosPlaylistId: string, uploadsPlaylistId: string,
    viewCount: int, subscriberCount: int, videoCount: int, subscriberCountHidden: bool,
    topics: seq<string>)

  /** The request `Channels.list` sends: `mine` wins and is sent as `"true"` over OAuth,
      otherwise non-empty channel ids are sent as `id` with the API key; with neither it
      raises, which the default `channel_ids=""` does. */
  function ChannelsListRequest(part: string, mine: bool, channelIds: Option<string>,
                               maxResults: int, pageToken: Option<string>): (r: Result<Request>)
    ensures r.Err? <==> !mine && !Truthy(channelIds)
    ensures r.Err? ==> r.error == ValueError(SelectorMessage)
    ensures r.Ok? ==>
      var q := r.value;
      && q.endpoint == "channels"
      && CommonParams(q, part, maxResults, pageToken)
      && (q.useOAuth <==> mine)
      && ("mine" in q.params <==> mine)
      && (mine ==> q.params["mine"] == Text("true"))
      && ("id" in q.params <==> !mine && Truthy(channelIds))
      && ("id" in q.params ==> q.params["id"] == Text(channelIds.value))
      && q.params.Keys <= {"part", "maxResults", "mine", "id", "pageToken"}
  {
    var base := map["part" := Text(part), "maxResults" := Number(maxResults)];
    if mine then
      Ok(Request("channels", WithPageToken(base["mine" := Text("true")], pageToken), true))
    else if Truthy(channelIds) then
      Ok(Request("channels", WithPageToken(base["id" := Text(channelIds.value)], pageToken), false))
    else
      Err(ValueError(SelectorMessage))
  }

  /** `Channels.list`, building the parameters one insertion at a time. */
  method ListChannels(part: string, mine: bool, channelIds: Option<string>,
                      maxResults: int, pageToken: Option<string>) returns (r: Result<Request>)
    ensures r == ChannelsListRequest(part, mine, channelIds, maxResults, pageToken)
  {
    var params := map["part" := Text(part), "maxResults" := Number(maxResults)];
    var useOAuth: bool;
    if mine {
      params := params["mine" := Text("true")];
      useOAuth := true;
    } else if Truthy(channelIds) {
      params := params["id" := Text(channelIds.value)];
      useOAuth := false;
    } else {
      return Err(ValueError(SelectorMessage));
    }
    if Truthy(pageToken) {
      params := params["pageToken" := Text(pageToken.value)];
    }
    return Ok(Request("channels", params, useOAuth));
  }

  /** The `snippet` of a channel, `{}` when missing. */
  function SnippetOf(c: Channel): ChannelSnippet
  {
    c.snippet.GetOr(ChannelSnippet(None, None, None, None))
  }

  /** The `statistics` of a channel, `{}` when missing. */
  function StatisticsOf(c: Channel): ChannelStatistics
  {
    c.statistics.GetOr(ChannelStatistics(None, None, None, None))
  }

  /** `contentDetails.relatedPlaylists` of a channel, `{}` when missing. */
  function RelatedOf(c: Channel): RelatedPlaylists
  {
    match c.contentDetails
    case Some(ChannelContentDetails(Some(related))) => related
    case _ => RelatedPlaylists(None, None)
  }

  /** The key a channel is stored under: its id, `""` when it has none. */
  function ChannelKey(c: Channel): Option<string>
  {
    Some(c.id.GetOr(""))
  }

  /** One channel's entry. The publication date is the only part that can raise. */
  function ChannelEntryOf(fromIsoFormat: string -> Option<DateTime>, c: Channel): (r: Result<ChannelEntry>)
    ensures r.Err? <==> !Truthy(SnippetOf(c).publishedAt)
    ensures r.Err? ==> r.error == ValueError(NoDateMessage)
    ensures r.Ok? ==> |r.value.topics| == |c.topicDetails.GetOr(TopicDetails(None)).topicCategories.GetOr([])|
    ensures r.Ok? && StatisticsOf(c).viewCount.None? ==> r.value.viewCount == 0
    ensures r.Ok? && StatisticsOf(c).subscriberCount.None? ==> r.value.subscriberCount == 0
    ensures r.Ok? && StatisticsOf(c).videoCount.None? ==> r.value.videoCount == 0
    ensures r.Ok? && StatisticsOf(c).hiddenSubscriberCount.None? ==> !r.value.subscriberCountHidden
    ensures r.Ok? && SnippetOf(c).title.None? ==> r.value.channelName == ""
    ensures r.Ok? && RelatedOf(c).likes.None? ==> r.value.likedVideosPlaylistId == ""
    ensures r.Ok? ==>
      var e := r.value;
      && e.channelPublicationDate == fromIsoFormat(UtcText(SnippetOf(c).publishedAt.value))
      && e.topics == TopicHelper.ParsedTopics(c.topicDetails.GetOr(TopicDetails(None)))
      && (SnippetOf(c).title.Some? ==> e.channelName == SnippetOf(c).title.value)
      && e.channelDescription == SnippetOf(c).description.GetOr("")
      && e.channelPfpUrl == DefaultThumbnailUrl(SnippetOf(c).thumbnails).GetOr("")
      && (RelatedOf(c).likes.Some? ==> e.likedVideosPlaylistId == RelatedOf(c).likes.value)
      && e.uploadsPlaylistId == RelatedOf(c).uploads.GetOr("")
      && (StatisticsOf(c).viewCount.Some? ==> e.viewCount == StatisticsOf(c).viewCount.value)
      && (StatisticsOf(c).subscriberCount.Some? ==> e.subscriberCount == StatisticsOf(c).subscriberCount.value)
      && (StatisticsOf(c).videoCount.Some? ==> e.videoCount == StatisticsOf(c).videoCount.value)
      && (StatisticsOf(c).hiddenSubscriberCount.Some? ==>
            e.subscriberCountHidden == StatisticsOf(c).hiddenSubscriberCount.value)
  {
    var snippet := SnippetOf(c);
    var statistics := StatisticsOf(c);
    var related := RelatedOf(c);
    var topics := TopicHelper.ParsedTopics(c.topicDetails.GetOr(TopicDetails(None)));
    match IsoStrToDatetime(fromIsoFormat, snippet.publishedAt)
    case Err(e) => Err(e)
    case Ok(date) =>
      Ok(ChannelEntry(
        snippet.title.GetOr(""), snippet.description.GetOr(""), date,
        DefaultThumbnailUrl(snippet.thumbnails).GetOr(""),
        related.likes.GetOr(""), related.uploads.GetOr(""),
        statistics.viewCount.GetOr(0), statistics.subscriberCount.GetOr(0),
        statistics.videoCount.GetOr(0), statistics.hiddenSubscriberCount.GetOr(false),
        topics))
  }

  /** `ChannelEntryOf` as a value, for the shared dictionary-filling loop. */
  function EntryOf(fromIsoFormat: string -> Option<DateTime>): Channel -> Result<ChannelEntry>
  {
    c => ChannelEntryOf(fromIsoFormat, c)
  }

  /** What `process_raw_stats` returns: `None` without an `items` key, otherwise the
      dictionary of every channel's entry, or the exception of the first channel whose
      date cannot be read. */
  function ProcessedChannels(fromIsoFormat: string -> Option<DateTime>, response: Page<Channel>)
    : Result<Option<map<string, ChannelEntry>>>
  {
    match response.items
    case None => Ok(None)
    case Some(items) =>
      match Keyed.ByKey(items, ChannelKey, EntryOf(fromIsoFormat))
      case Err(e) => Err(e)
      case Ok(m) => Ok(Some(m))
  }

  /** `Channels.process_raw_stats`. */
  method ProcessRawStats(fromIsoFormat: string -> Option<DateTime>, response: Page<Channel>)
    returns (r: Result<Option<map<string, ChannelEntry>>>)
    ensures r == ProcessedChannels(fromIsoFormat, response)
  {
    if response.items.None? {
      return Ok(None);
    }
    var items := response.items.value;
    var channelData: map<string, ChannelEntry> := map[];
    for i := 0 to |items|
      invariant Keyed.ByKey(items[..i], ChannelKey, EntryOf(fromIsoFormat)) == Ok(channelData)
    {
      var c := items[i];
      var channelId := c.id.GetOr("");
      var snippet := SnippetOf(c);
      var related := RelatedOf(c);
      var statistics := StatisticsOf(c);
      var parsedTopics := TopicHelper.ParseTopicUrls(c.topicDetails.GetOr(TopicDetails(None)));
      var date := IsoStrToDatetime(fromIsoFormat, snippet.publishedAt);
      if date.Err? {
        Keyed.ByKeyRaised(items, ChannelKey, EntryOf(fromIsoFormat), i, channelData, date.error);
        Keyed.ByKeyStaysFailed(items, ChannelKey, EntryOf(fromIsoFormat), i + 1, date.error);
        return Err(date.error);
      }
      var data := ChannelEntry(
        snippet.title.GetOr(""), snippet.description.GetOr(""), date.value,
        DefaultThumbnailUrl(snippet.thumbnails).GetOr(""),
        related.likes.GetOr(""), related.uploads.GetOr(""),
        statistics.viewCount.GetOr(0), statistics.subscriberCount.GetOr(0),
        statistics.videoCount.GetOr(0), statistics.hiddenSubscriberCount.GetOr(false),
        parsedTopics);
      assert EntryOf(fromIsoFormat)(c) == Ok(data);
      Keyed.ByKeyStored(items, ChannelKey, EntryOf(fromIsoFormat), i, channelData, channelId, data);
      channelData := channelData[channelId := data];
    }
    assert items[..|items|] == items;
    return Ok(Some(channelData));
  }

  /** `None` exactly when there is no `items` key; an exception exactly when some channel
      lacks a publication date; otherwise one entry per distinct channel id (`""` for a
      channel without one), holding the entry of the last channel with that id. */
  lemma ProcessedChannelsMeaning(fromIsoFormat: string -> Option<DateTime>, response: Page<Channel>)
    ensures ProcessedChannels(fromIsoFormat, response) == Ok(None) <==> response.items.None?
    ensures ProcessedChannels(fromIsoFormat, response).Err? <==>
      response.items.Some? &&
      exists j :: 0 <= j < |response.items.value| && !Truthy(SnippetOf(response.items.value[j]).publishedAt)
    ensures ProcessedChannels(fromIsoFormat, response).Err? ==>
      ProcessedChannels(fromIsoFormat, response).error == ValueError(NoDateMessage)
    ensures ProcessedChannels(fromIsoFormat, response).Ok? && response.items.Some? ==>
      var items := response.items.value;
      var m := ProcessedChannels(fromIsoFormat, response).value.value;
      && (forall k :: k in m <==> exists j :: 0 <= j < |items| && items[j].id.GetOr("") == k)
      && (forall k, j :: Keyed.LastWithKey(items, ChannelKey, k, j) ==>
            k in m && Ok(m[k]) == ChannelEntryOf(fromIsoFormat, items[j]))
  {
    if response.items.Some? {
      var items := response.items.value;
      Keyed.ByKeyFails(items, ChannelKey, EntryOf(fromIsoFormat));
      if exists j :: Keyed.FailsAt(items, ChannelKey, EntryOf(fromIsoFormat), j) {
        var j :| Keyed.FailsAt(items, ChannelKey, EntryOf(fromIsoFormat), j);
        assert !Truthy(SnippetOf(items[j]).publishedAt);
        ByKeyError(items, fromIsoFormat);
      }
      if exists j :: 0 <= j < |items| && !Truthy(SnippetOf(items[j]).publishedAt) {
        var j :| 0 <= j < |items| && !Truthy(SnippetOf(items[j]).publishedAt);
        assert Keyed.FailsAt(items, ChannelKey, EntryOf(fromIsoFormat), j);
      }
      if Keyed.ByKey(items, ChannelKey, EntryOf(fromIsoFormat)).Ok? {
        Keyed.ByKeyContents(items, ChannelKey, EntryOf(fromIsoFormat));
      }
    }
  }

  /** Every exception the loop raises is the date helper's. */
  lemma {:induction false} ByKeyError(items: seq<Channel>, fromIsoFormat: string -> Option<DateTime>)
    ensures Keyed.ByKey(items, ChannelKey, EntryOf(fromIsoFormat)).Err? ==>
      Keyed.ByKey(items, ChannelKey, EntryOf(fromIsoFormat)).error == ValueError(NoDateMessage)
    decreases |items|
  {
    if items != [] {
      ByKeyError(items[..|items| - 1], fromIsoFormat);
    }
  }

  /** `relatedPlaylists.likes` of a channel, `""` when missing. */
  function LikesOf(c: Channel): string
  {
    RelatedOf(c).likes.GetOr("")
  }

  /** The request `get_liked_playlist_id` sends: the user's own channel, over OAuth. */
  lemma LikedPlaylistRequest()
    ensures ChannelsListRequest(LikedPart, true, Some(""), DefaultMaxResults, None)
      == Ok(Request("channels", map["part" := Text(LikedPart), "maxResults" := Number(DefaultMaxResults),
                                    "mine" := Text("true")], true))
  {
    assert !Truthy(None);
  }

  /** `Channels.get_liked_playlist_id`, given the answer to that request. */
  function GetLikedPlaylistId(response: Option<Page<Channel>>): (id: string)
    ensures ItemsOfResponse(response) == [] ==> id == ""
    ensures id != "" ==> exists c :: ItemsOfResponse(response) != [] && c == ItemsOfResponse(response)[0]
                                     && RelatedOf(c).likes == Some(id)
  {
    if !IsTruthy(response) || response.value.items.None? || response.value.items.value == [] then ""
    else LikesOf(response.value.items.value[0])
  }

  /** Only the first channel of the response is read. */
  lemma LikedPlaylistFirstOnly(first: Channel, rest: seq<Channel>, token: Option<string>, keys: set<string>)
    ensures GetLikedPlaylistId(Some(Page(Some([first] + rest), token, keys))) == LikesOf(first)
    ensures GetLikedPlaylistId(Some(Page(Some([first] + rest), token, keys)))
      == GetLikedPlaylistId(Some(Page(Some([first]), None, {})))
  {
    assert ([first] + rest)[0] == first;
  }
}
