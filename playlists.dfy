/** `metrics/utils/api_resources/playlists.py`: the `playlists.list` request builder and
    the normaliser that turns a playlists response into a dictionary keyed by playlist id. */
module Playlists {
  import opened Wrappers
  import opened Api
  import opened DateHelper
  import Keyed

  const DefaultPart := "id,snippet,contentDetails,status"
  const SelectorMessage := "Must provide either mine=True, playlist ids, or a specific channel id."

  datatype PlaylistSnippet = PlaylistSnippet(publishedAt: Option<string>, channelId: Option<string>,
                                             channelTitle: Option<string>, title: Option<string>,
                                             thumbnails: Option<Thumbnails>)

  datatype PlaylistStatus = PlaylistStatus(privacyStatus: Option<string>)

  datatype PlaylistContentDetails = PlaylistContentDetails(itemCount: Option<int>)

  /** A playlist resource. */
  datatype Playlist = Playlist(id: Option<string>, snippet: Option<PlaylistSnippet>,
                               status: Option<PlaylistStatus>, contentDetails: Option<PlaylistContentDetails>)

  /** The dictionary `process_raw_playlist` stores for one playlist. */
  datatype PlaylistEntry = PlaylistEntry(
    id: string, publishedAt: Option<DateTime>, channelId: string, channelTitle: string,
    playlistTitle: string, thumbnailUrl: string, privacyStatus: string, itemCount: int)

  /** The request `Playlists.list` sends: `mine` (over OAuth) wins over non-empty playlist
      ids, which win over a non-empty channel id (both with the API key); with none of them
      it raises. */
  function PlaylistsListRequest(part: string, mine: bool, playlistIds: Option<string>, channelId: Option<string>,
                                maxResults: int, pageToken: Option<string>): (r: Result<Request>)
    ensures r.Err? <==> !mine && !Truthy(playlistIds) && !Truthy(channelId)
    ensures r.Err? ==> r.error == ValueError(SelectorMessage)
    ensures r.Ok? ==>
      var q := r.value;
      && q.endpoint == "playlists"
      && CommonParams(q, part, maxResults, pageToken)
      && (q.useOAuth <==> mine)
      && ("mine" in q.params <==> mine)
      && (mine ==> q.params["mine"] == Text("true"))
      && ("id" in q.params <==> !mine && Truthy(playlistIds))
      && ("id" in q.params ==> q.params["id"] == Text(playlistIds.value))
      && ("channelId" in q.params <==> !mine && !Truthy(playlistIds) && Truthy(channelId))
      && ("channelId" in q.params ==> q.params["channelId"] == Text(channelId.value))
      && q.params.Keys <= {"part", "maxResults", "mine", "id", "channelId", "pageToken"}
  {
    var base := map["part" := Text(part), "maxResults" := Number(maxResults)];
    if mine then
      Ok(Request("playlists", WithPageToken(base["mine" := Text("true")], pageToken), true))
    else if Truthy(playlistIds) then
      Ok(Request("playlists", WithPageToken(base["id" := Text(playlistIds.value)], pageToken), false))
    else if Truthy(channelId) then
      Ok(Request("playlists", WithPageToken(base["channelId" := Text(channelId.value)], pageToken), false))
    else
      Err(ValueError(SelectorMessage))
  }

  /** `Playlists.list`, building the parameters one insertion at a time. */
  method ListPlaylists(part: string, mine: bool, playlistIds: Option<string>, channelId: Option<string>,
                       maxResults: int, pageToken: Option<string>) returns (r: Result<Request>)
    ensures r == PlaylistsListRequest(part, mine, playlistIds, channelId, maxResults, pageToken)
  {
    var params := map["part" := Text(part), "maxResults" := Number(maxResults)];
    var useOAuth: bool;
    if mine {
      params := params["mine" := Text("true")];
      useOAuth := true;
    } else if Truthy(playlistIds) {
      params := params["id" := Text(playlistIds.value)];
      useOAuth := false;
    } else if Truthy(channelId) {
      params := params["channelId" := Text(channelId.value)];
      useOAuth := false;
    } else {
      return Err(ValueError(SelectorMessage));
    }
    if Truthy(pageToken) {
      params := params["pageToken" := Text(pageToken.value)];
    }
    return Ok(Request("playlists", params, useOAuth));
  }

  /** The `snippet` of a playlist, `{}` when missing. */
  function SnippetOf(p: Playlist): PlaylistSnippet
  {
    p.snippet.GetOr(PlaylistSnippet(None, None, None, None, None))
  }

  /** The key a playlist is stored under: its id, `""` when it has none. */
  function PlaylistKey(p: Playlist): Option<string>
  {
    Some(p.id.GetOr(""))
  }

  /** One playlist's entry; only the publication date can raise. */
  function PlaylistEntryOf(fromIsoFormat: string -> Option<DateTime>, p: Playlist): (r: Result<PlaylistEntry>)
    ensures r.Err? <==> !Truthy(SnippetOf(p).publishedAt)
    ensures r.Err? ==> r.error == ValueError(NoDateMessage)
    ensures r.Ok? ==> Some(r.value.id) == PlaylistKey(p)
    ensures r.Ok? && (p.contentDetails.None? || p.contentDetails.value.itemCount.None?) ==> r.value.itemCount == 0
    ensures r.Ok? && SnippetOf(p).title.None? ==> r.value.playlistTitle == ""
    ensures r.Ok? && SnippetOf(p).channelId.None? ==> r.value.channelId == ""
    ensures r.Ok? && (p.status.None? || p.status.value.privacyStatus.None?) ==> r.value.privacyStatus == ""
    ensures r.Ok? ==>
      var e := r.value;
      && e.publishedAt == fromIsoFormat(UtcText(SnippetOf(p).publishedAt.value))
      && (SnippetOf(p).channelId.Some? ==> e.channelId == SnippetOf(p).channelId.value)
      && e.channelTitle == SnippetOf(p).channelTitle.GetOr("")
      && (SnippetOf(p).title.Some? ==> e.playlistTitle == SnippetOf(p).title.value)
      && e.thumbnailUrl == DefaultThumbnailUrl(SnippetOf(p).thumbnails).GetOr("")
      && (p.status.Some? && p.status.value.privacyStatus.Some? ==> e.privacyStatus == p.status.value.privacyStatus.value)
      && (p.contentDetails.Some? && p.contentDetails.value.itemCount.Some? ==>
            e.itemCount == p.contentDetails.value.itemCount.value)
  {
    var snippet := SnippetOf(p);
    var status := p.status.GetOr(PlaylistStatus(None));
    var details := p.contentDetails.GetOr(PlaylistContentDetails(None));
    match IsoStrToDatetime(fromIsoFormat, snippet.publishedAt)
    case Err(e) => Err(e)
    case Ok(date) =>
      Ok(PlaylistEntry(
        p.id.GetOr(""), date, snippet.channelId.GetOr(""), snippet.channelTitle.GetOr(""),
        snippet.title.GetOr(""), DefaultThumbnailUrl(snippet.thumbnails).GetOr(""),
        status.privacyStatus.GetOr(""), details.itemCount.GetOr(0)))
  }

  /** `PlaylistEntryOf` as a value, for the shared dictionary-filling loop. */
  function EntryOf(fromIsoFormat: string -> Option<DateTime>): Playlist -> Result<PlaylistEntry>
  {
    p => PlaylistEntryOf(fromIsoFormat, p)
  }

  /** What `process_raw_playlist` returns: `None` without an `items` key, otherwise the
      dictionary of every playlist's entry, or the first exception a date raises. */
  function ProcessedPlaylists(fromIsoFormat: string -> Option<DateTime>, response: Page<Playlist>)
    : Result<Option<map<string, PlaylistEntry>>>
  {
    match response.items
    case None => Ok(None)
    case Some(items) =>
      match Keyed.ByKey(items, PlaylistKey, EntryOf(fromIsoFormat))
      case Err(e) => Err(e)
      case Ok(m) => Ok(Some(m))
  }

  /** `Playlists.process_raw_playlist`. */
  method ProcessRawPlaylist(fromIsoFormat: string -> Option<DateTime>, response: Page<Playlist>)
    returns (r: Result<Option<map<string, PlaylistEntry>>>)
    ensures r == ProcessedPlaylists(fromIsoFormat, response)
  {
    if response.items.None? {
      return Ok(None);
    }
    var items := response.items.value;
    var processed: map<string, PlaylistEntry> := map[];
    for i := 0 to |items|
      invariant Keyed.ByKey(items[..i], PlaylistKey, EntryOf(fromIsoFormat)) == Ok(processed)
    {
      var p := items[i];
      var playlistId := p.id.GetOr("");
      var snippet := SnippetOf(p);
      var status := p.status.GetOr(PlaylistStatus(None));
      var details := p.contentDetails.GetOr(PlaylistContentDetails(None));
      var date := IsoStrToDatetime(fromIsoFormat, snippet.publishedAt);
      if date.Err? {
        Keyed.ByKeyRaised(items, PlaylistKey, EntryOf(fromIsoFormat), i, processed, date.error);
        Keyed.ByKeyStaysFailed(items, PlaylistKey, EntryOf(fromIsoFormat), i + 1, date.error);
        return Err(date.error);
      }
      var data := PlaylistEntry(
        playlistId, date.value, snippet.channelId.GetOr(""), snippet.channelTitle.GetOr(""),
        snippet.title.GetOr(""), DefaultThumbnailUrl(snippet.thumbnails).GetOr(""),
        status.privacyStatus.GetOr(""), details.itemCount.GetOr(0));
      assert EntryOf(fromIsoFormat)(p) == Ok(data);
      Keyed.ByKeyStored(items, PlaylistKey, EntryOf(fromIsoFormat), i, processed, playlistId, data);
      processed := processed[playlistId := data];
    }
    assert items[..|items|] == items;
    return Ok(Some(processed));
  }

  /** Every exception the loop raises is the date helper's. */
  lemma {:induction false} ByKeyError(items: seq<Playlist>, fromIsoFormat: string -> Option<DateTime>)
    ensures Keyed.ByKey(items, PlaylistKey, EntryOf(fromIsoFormat)).Err? ==>
      Keyed.ByKey(items, PlaylistKey, EntryOf(fromIsoFormat)).error == ValueError(NoDateMessage)
    decreases |items|
  {
    if items != [] {
      ByKeyError(items[..|items| - 1], fromIsoFormat);
    }
  }

  /** `None` exactly when there is no `items` key; an exception exactly when some playlist
      lacks a publication date; otherwise one entry per distinct playlist id, holding the
      entry of the last playlist with that id, whose `id` field is the key itself. */
  lemma ProcessedPlaylistsMeaning(fromIsoFormat: string -> Option<DateTime>, response: Page<Playlist>)
    ensures ProcessedPlaylists(fromIsoFormat, response) == Ok(None) <==> response.items.None?
    ensures ProcessedPlaylists(fromIsoFormat, response).Err? <==>
      response.items.Some? &&
      exists j :: 0 <= j < |response.items.value| && !Truthy(SnippetOf(response.items.value[j]).publishedAt)
    ensures ProcessedPlaylists(fromIsoFormat, response).Err? ==>
      ProcessedPlaylists(fromIsoFormat, response).error == ValueError(NoDateMessage)
    ensures ProcessedPlaylists(fromIsoFormat, response).Ok? && response.items.Some? ==>
      var items := response.items.value;
      var m := ProcessedPlaylists(fromIsoFormat, response).value.value;
      && (forall k :: k in m <==> exists j :: 0 <= j < |items| && items[j].id.GetOr("") == k)
      && (forall k :: k in m ==> m[k].id == k)
      && (forall k, j :: Keyed.LastWithKey(items, PlaylistKey, k, j) ==>
            k in m && Ok(m[k]) == PlaylistEntryOf(fromIsoFormat, items[j]))
  {
    if response.items.Some? {
      var items := response.items.value;
      Keyed.ByKeyFails(items, PlaylistKey, EntryOf(fromIsoFormat));
      if exists j :: Keyed.FailsAt(items, PlaylistKey, EntryOf(fromIsoFormat), j) {
        var j :| Keyed.FailsAt(items, PlaylistKey, EntryOf(fromIsoFormat), j);
        assert !Truthy(SnippetOf(items[j]).publishedAt);
        ByKeyError(items, fromIsoFormat);
      }
      if exists j :: 0 <= j < |items| && !Truthy(SnippetOf(items[j]).publishedAt) {
        var j :| 0 <= j < |items| && !Truthy(SnippetOf(items[j]).publishedAt);
        assert Keyed.FailsAt(items, PlaylistKey, EntryOf(fromIsoFormat), j);
      }
      if Keyed.ByKey(items, PlaylistKey, EntryOf(fromIsoFormat)).Ok? {
        Keyed.ByKeyContents(items, PlaylistKey, EntryOf(fromIsoFormat));
        Keyed.ByKeyAll(items, PlaylistKey, EntryOf(fromIsoFormat), (k: string, e: PlaylistEntry) => e.id == k);
      }
    }
  }
}
