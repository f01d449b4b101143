/** `metrics/utils/api_resources/videos.py`: the `videos.list` and `videoCategories.list`
    request builders and the three loops that follow `nextPageToken` through every page.
    A builder returns the request it would hand to the client, or the ValueError it raises;
    the network is the sequence of answers the server gives to successive calls. */
module Videos {
  import opened Wrappers
  import opened Api
  import Strings

  const DefaultVideoPart := "id,snippet,status,contentDetails,statistics,topicDetails"
  const DefaultCategoryPart := "snippet"
  const DefaultMaxResults := 50
  const VideoSelectorMessage := "Either user_rating, video_ids, or chart must be provided."
  const CategorySelectorMessage := "Either category_ids or region_code must be provided."

  /** The `snippet` of a video resource, as far as it is read. */
  datatype VideoSnippet = VideoSnippet(categoryId: Option<string>, thumbnails: Option<Thumbnails>)

  /** A video resource. */
  datatype Video = Video(snippet: Option<VideoSnippet>, topicDetails: Option<TopicDetails>)

  datatype CategorySnippet = CategorySnippet(title: Option<string>)

  /** A videoCategory resource. */
  datatype VideoCategory = VideoCategory(id: Option<string>, snippet: Option<CategorySnippet>)

  /** The ratings `videos.list` accepts as `myRating`. */
  predicate IsRating(userRating: Option<string>)
  {
    userRating == Some("like") || userRating == Some("dislike")
  }

  /** The request `list_video` sends: a recognised rating selects `myRating` over OAuth,
      otherwise non-empty ids select `id`, otherwise a non-empty chart selects `chart`
      (with `videoCategoryId` when one is given); with none of them it raises. */
  function VideoListRequest(part: string, userRating: Option<string>, videoIds: Option<string>,
                            chart: Option<string>, videoCategoryId: Option<string>,
                            maxResults: int, pageToken: Option<string>): (r: Result<Request>)
    ensures r.Err? <==> !IsRating(userRating) && !Truthy(videoIds) && !Truthy(chart)
    ensures r.Err? ==> r.error == ValueError(VideoSelectorMessage)
    ensures r.Ok? ==>
      var q := r.value;
      && q.endpoint == "videos"
      && CommonParams(q, part, maxResults, pageToken)
      && (q.useOAuth <==> IsRating(userRating))
      && ("myRating" in q.params <==> IsRating(userRating))
      && (IsRating(userRating) ==> q.params["myRating"] == Text(userRating.value))
      && ("id" in q.params <==> !IsRating(userRating) && Truthy(videoIds))
      && ("id" in q.params ==> q.params["id"] == Text(videoIds.value))
      && ("chart" in q.params <==> !IsRating(userRating) && !Truthy(videoIds) && Truthy(chart))
      && ("chart" in q.params ==> q.params["chart"] == Text(chart.value))
      && ("videoCategoryId" in q.params <==> "chart" in q.params && Truthy(videoCategoryId))
      && ("videoCategoryId" in q.params ==> q.params["videoCategoryId"] == Text(videoCategoryId.value))
      && q.params.Keys <= {"part", "maxResults", "myRating", "id", "chart", "videoCategoryId", "pageToken"}
  {
    var base := map["part" := Text(part), "maxResults" := Number(maxResults)];
    if IsRating(userRating) then
      Ok(Request("videos", WithPageToken(base["myRating" := Text(userRating.value)], pageToken), true))
    else if Truthy(videoIds) then
      Ok(Request("videos", WithPageToken(base["id" := Text(videoIds.value)], pageToken), false))
    else if Truthy(chart) then
      var withChart := base["chart" := Text(chart.value)];
      var params := if Truthy(videoCategoryId) then withChart["videoCategoryId" := Text(videoCategoryId.value)] else withChart;
      Ok(Request("videos", WithPageToken(params, pageToken), false))
    else
      Err(ValueError(VideoSelectorMessage))
  }

  /** `Videos.list_video`, building the parameters one insertion at a time. */
  method ListVideo(part: string, userRating: Option<string>, videoIds: Option<string>,
                   chart: Option<string>, videoCategoryId: Option<string>,
                   maxResults: int, pageToken: Option<string>) returns (r: Result<Request>)
    ensures r == VideoListRequest(part, userRating, videoIds, chart, videoCategoryId, maxResults, pageToken)
  {
    var params := map["part" := Text(part), "maxResults" := Number(maxResults)];
    var useOAuth := false;
    if userRating.Some? && userRating.value != "" && (userRating.value == "like" || userRating.value == "dislike") {
      params := params["myRating" := Text(userRating.value)];
      useOAuth := true;
    } else if Truthy(videoIds) {
      params := params["id" := Text(videoIds.value)];
    } else if Truthy(chart) {
      params := params["chart" := Text(chart.value)];
      if Truthy(videoCategoryId) {
        params := params["videoCategoryId" := Text(videoCategoryId.value)];
      }
    } else {
      return Err(ValueError(VideoSelectorMessage));
    }
    if Truthy(pageToken) {
      params := params["pageToken" := Text(pageToken.value)];
    }
    return Ok(Request("videos", params, useOAuth));
  }

  /** The request `list_video_category` sends: non-empty ids select `id`, otherwise a
      non-empty region code selects `regionCode`; with neither it raises. The API key is used. */
  function CategoryListRequest(part: string, categoryIds: Option<string>, regionCode: Option<string>,
                               maxResults: int, pageToken: Option<string>): (r: Result<Request>)
    ensures r.Err? <==> !Truthy(categoryIds) && !Truthy(regionCode)
    ensures r.Err? ==> r.error == ValueError(CategorySelectorMessage)
    ensures r.Ok? ==>
      var q := r.value;
      && q.endpoint == "videoCategories" && !q.useOAuth
      && CommonParams(q, part, maxResults, pageToken)
      && ("id" in q.params <==> Truthy(categoryIds))
      && ("id" in q.params ==> q.params["id"] == Text(categoryIds.value))
      && ("regionCode" in q.params <==> !Truthy(categoryIds) && Truthy(regionCode))
      && ("regionCode" in q.params ==> q.params["regionCode"] == Text(regionCode.value))
      && q.params.Keys <= {"part", "maxResults", "id", "regionCode", "pageToken"}
  {
    var base := map["part" := Text(part), "maxResults" := Number(maxResults)];
    if Truthy(categoryIds) then
      Ok(Request("videoCategories", WithPageToken(base["id" := Text(categoryIds.value)], pageToken), false))
    else if Truthy(regionCode) then
      Ok(Request("videoCategories", WithPageToken(base["regionCode" := Text(regionCode.value)], pageToken), false))
    else
      Err(ValueError(CategorySelectorMessage))
  }

  /** `Videos.list_video_category`, building the parameters one insertion at a time. */
  method ListVideoCategory(part: string, categoryIds: Option<string>, regionCode: Option<string>,
                           maxResults: int, pageToken: Option<string>) returns (r: Result<Request>)
    ensures r == CategoryListRequest(part, categoryIds, regionCode, maxResults, pageToken)
  {
    var params := map["part" := Text(part), "maxResults" := Number(maxResults)];
    if Truthy(categoryIds) {
      params := params["id" := Text(categoryIds.value)];
    } else if Truthy(regionCode) {
      params := params["regionCode" := Text(regionCode.value)];
    } else {
      return Err(ValueError(CategorySelectorMessage));
    }
    if Truthy(pageToken) {
      params := params["pageToken" := Text(pageToken.value)];
    }
    return Ok(Request("videoCategories", params, false));
  }

  // ----- Following nextPageToken -----

  /** What one of the `list_all_*` loops did: the pages it stored, in order, the requests
      it sent, and the exception that ended it, if any. */
  datatype Outcome<I> = Outcome(pages: seq<Page<I>>, sent: seq<Request>, failure: Option<Error>)

  /** The loop run from `token` against `script`, having already stored `pages` and sent
      `sent`: build the request (which may raise), send it, store a truthy answer and go on
      with its `nextPageToken` while that is truthy, stop at the first falsy answer without
      storing it. */
  function Run<I>(build: Option<string> -> Result<Request>, script: seq<Option<Page<I>>>,
                  token: Option<string>, pages: seq<Page<I>>, sent: seq<Request>): Outcome<I>
    decreases |script|
  {
    match build(token)
    case Err(e) => Outcome(pages, sent, Some(e))
    case Ok(q) =>
      if !IsTruthy(Answer(script, 0)) then Outcome(pages, sent + [q], None)
      else
        var page := script[0].value;
        if !Truthy(page.nextPageToken) then Outcome(pages + [page], sent + [q], None)
        else Run(build, script[1..], page.nextPageToken, pages + [page], sent + [q])
  }

  /** The whole loop from `token`. */
  function ListAllFrom<I>(build: Option<string> -> Result<Request>, script: seq<Option<Page<I>>>,
                          token: Option<string>): Outcome<I>
  {
    Run(build, script, token, [], [])
  }

  /** The outcome `o` of the rest of a loop that has already stored `pages` and sent `sent`. */
  function After<I>(pages: seq<Page<I>>, sent: seq<Request>, o: Outcome<I>): Outcome<I>
  {
    Outcome(pages + o.pages, sent + o.sent, o.failure)
  }

  /** What was stored and sent before only comes in front of what the rest of the loop does. */
  lemma {:induction false} RunAfter<I>(build: Option<string> -> Result<Request>, script: seq<Option<Page<I>>>,
                                       token: Option<string>, pages: seq<Page<I>>, sent: seq<Request>)
    ensures Run(build, script, token, pages, sent) == After(pages, sent, ListAllFrom(build, script, token))
    decreases |script|
  {
    if build(token).Ok? && IsTruthy(Answer(script, 0)) && Truthy(script[0].value.nextPageToken) {
      var page := script[0].value;
      var q := build(token).value;
      RunAfter(build, script[1..], page.nextPageToken, pages + [page], sent + [q]);
      assert [] + [page] == [page] && [] + [q] == [q];
      RunAfter(build, script[1..], page.nextPageToken, [page], [q]);
      var rest := ListAllFrom(build, script[1..], page.nextPageToken);
      assert (pages + [page]) + rest.pages == pages + ([page] + rest.pages);
      assert (sent + [q]) + rest.sent == sent + ([q] + rest.sent);
    } else if build(token).Ok? {
      var q := build(token).value;
      assert [] + [q] == [q];
      if IsTruthy(Answer(script, 0)) {
        assert [] + [script[0].value] == [script[0].value];
      }
    }
  }

  /** The loop once unrolled, for a first answer that is stored and leads on. */
  lemma ListAllUnfold<I>(build: Option<string> -> Result<Request>, script: seq<Option<Page<I>>>, token: Option<string>)
    requires build(token).Ok? && IsTruthy(Answer(script, 0)) && Truthy(script[0].value.nextPageToken)
    ensures ListAllFrom(build, script, token)
      == After([script[0].value], [build(token).value], ListAllFrom(build, script[1..], script[0].value.nextPageToken))
  {
    RunAfter(build, script[1..], script[0].value.nextPageToken, [] + [script[0].value], [] + [build(token).value]);
  }

  /** The dictionary `{0: pages[0], 1: pages[1], ...}`. */
  function PageMap<I>(pages: seq<Page<I>>): map<nat, Page<I>>
  {
    map i | 0 <= i < |pages| :: pages[i]
  }

  /** What the caller of a `list_all_*` method sees: the exception, or the dictionary of pages. */
  function Returned<I>(o: Outcome<I>): Result<map<nat, Page<I>>>
  {
    if o.failure.Some? then Err(o.failure.value) else Ok(PageMap(o.pages))
  }

  lemma PageMapSnoc<I>(pages: seq<Page<I>>, page: Page<I>)
    ensures PageMap(pages + [page]) == PageMap(pages)[|pages| := page]
  {
    var m := PageMap(pages)[|pages| := page];
    assert forall i: nat :: i in m <==> i < |pages + [page]|;
    assert forall i: nat :: i in m ==> m[i] == (pages + [page])[i];
  }

  /** The `while True` loop shared by `list_all_video_id`, `list_all_user_rated` and
      `list_all_video_categories`. */
  method ListAll<I>(build: Option<string> -> Result<Request>, script: seq<Option<Page<I>>>)
    returns (r: Result<map<nat, Page<I>>>, sent: seq<Request>)
    ensures r == Returned(ListAllFrom(build, script, None))
    ensures sent == ListAllFrom(build, script, None).sent
    ensures r.Ok? ==>
      var pages := ListAllFrom(build, script, None).pages;
      && (forall i: nat :: i in r.value <==> i < |pages|)
      && (forall i :: 0 <= i < |pages| ==> r.value[i] == pages[i])
  {
    var all: map<nat, Page<I>> := map[];
    var pageToken: Option<string> := None;
    var pageNum: nat := 0;
    var remaining := script;
    ghost var pages: seq<Page<I>> := [];
    sent := [];
    while true
      invariant all == PageMap(pages) && pageNum == |pages|
      invariant ListAllFrom(build, script, None) == Run(build, remaining, pageToken, pages, sent)
      decreases |remaining|
    {
      var request := build(pageToken);
      if request.Err? {
        return Err(request.error), sent;
      }
      sent := sent + [request.value];
      var response := Answer(remaining, 0);
      if IsTruthy(response) {
        PageMapSnoc(pages, response.value);
        all := all[pageNum := response.value];
        pages := pages + [response.value];
        pageToken := response.value.nextPageToken;
        pageNum := pageNum + 1;
        remaining := remaining[1..];
      } else {
        break;
      }
      if !Truthy(pageToken) {
        break;
      }
    }
    r := Ok(all);
  }

  /** The stored pages are the server's first answers, in order; every page but the last
      carries a truthy token; the request sent `i`-th carries the token of the page
      stored before it; and the loop ends in exactly one of three ways: a builder error on
      the next request (nothing stored, nothing sent for it), a falsy answer (sent, not
      stored), or a stored page without a truthy `nextPageToken`. */
  lemma {:induction false} ListAllShape<I>(build: Option<string> -> Result<Request>,
                                           script: seq<Option<Page<I>>>, token: Option<string>)
    ensures var o := ListAllFrom(build, script, token);
      && (forall i :: 0 <= i < |o.pages| ==> Answer(script, i) == Some(o.pages[i]) && IsTruthy(Answer(script, i)))
      && (forall i :: 0 <= i < |o.pages| - 1 ==> Truthy(o.pages[i].nextPageToken))
      && (|o.sent| == |o.pages| || |o.sent| == |o.pages| + 1)
      && (forall i :: 0 <= i < |o.sent| ==> build(TokenFor(token, o.pages, i)) == Ok(o.sent[i]))
      && (o.failure.Some? ==>
            |o.sent| == |o.pages| && build(TokenFor(token, o.pages, |o.pages|)) == Err(o.failure.value)
            && (o.pages != [] ==> Truthy(o.pages[|o.pages| - 1].nextPageToken)))
      && (o.failure.None? && |o.sent| == |o.pages| + 1 ==> !IsTruthy(Answer(script, |o.pages|)))
      && (o.failure.None? && |o.sent| == |o.pages| ==>
            o.pages != [] && !Truthy(o.pages[|o.pages| - 1].nextPageToken))
    decreases |script|
  {
    var o := ListAllFrom(build, script, token);
    match build(token)
    case Err(e) =>
    case Ok(q) =>
      if IsTruthy(Answer(script, 0)) {
        var page := script[0].value;
        if Truthy(page.nextPageToken) {
          ListAllShape(build, script[1..], page.nextPageToken);
          ListAllUnfold(build, script, token);
          var rest := ListAllFrom(build, script[1..], page.nextPageToken);
          assert o.pages == [page] + rest.pages && o.sent == [q] + rest.sent;
          forall i | 0 <= i < |o.pages|
            ensures Answer(script, i) == Some(o.pages[i])
          {
            if i > 0 { assert Answer(script, i) == Answer(script[1..], i - 1); }
          }
          forall i | 0 <= i < |o.sent|
            ensures build(TokenFor(token, o.pages, i)) == Ok(o.sent[i])
          {
            if i > 0 {
              assert TokenFor(token, o.pages, i) == TokenFor(page.nextPageToken, rest.pages, i - 1);
            }
          }
          if o.failure.None? && |o.sent| == |o.pages| + 1 {
            assert Answer(script, |o.pages|) == Answer(script[1..], |rest.pages|);
          }
        }
      }
  }

  /** When the first call fails, nothing is stored: `{}` is returned. */
  lemma FirstCallFails<I>(build: Option<string> -> Result<Request>, script: seq<Option<Page<I>>>, token: Option<string>)
    requires !IsTruthy(Answer(script, 0))
    ensures ListAllFrom(build, script, token).pages == []
    ensures Returned(ListAllFrom(build, script, token)).Ok? ==> Returned(ListAllFrom(build, script, token)).value == map[]
  {
  }

  /** A builder whose error does not depend on the token raises on the very first call or
      never. */
  lemma {:induction false} TokenIndependentFailure<I>(build: Option<string> -> Result<Request>,
                                                      script: seq<Option<Page<I>>>, token: Option<string>)
    requires forall t :: (build(t).Err? <==> build(None).Err?) && (build(t).Err? ==> build(t) == build(None))
    ensures var o := ListAllFrom(build, script, token);
      && (o.failure.Some? <==> build(None).Err?)
      && (o.failure.Some? ==> o.pages == [] && o.sent == [] && o.failure.value == build(None).error)
    decreases |script|
  {
    if build(token).Ok? && IsTruthy(Answer(script, 0)) && Truthy(script[0].value.nextPageToken) {
      TokenIndependentFailure(build, script[1..], script[0].value.nextPageToken);
      ListAllUnfold(build, script, token);
    }
  }

  /** `list_video(video_ids=ids, page_token=t)`. */
  function ByIds(ids: string): Option<string> -> Result<Request>
  {
    t => VideoListRequest(DefaultVideoPart, None, Some(ids), None, None, DefaultMaxResults, t)
  }

  /** `list_video(user_rating=rating, page_token=t)`. */
  function ByRating(rating: string): Option<string> -> Result<Request>
  {
    t => VideoListRequest(DefaultVideoPart, Some(rating), None, None, None, DefaultMaxResults, t)
  }

  /** `list_video_category(category_ids=ids, page_token=t)`. */
  function CategoriesByIds(ids: string): Option<string> -> Result<Request>
  {
    t => CategoryListRequest(DefaultCategoryPart, Some(ids), None, DefaultMaxResults, t)
  }

  /** `Videos.list_all_video_id`: the ids are joined with `,`; when they join to the empty
      string the first call raises and nothing is sent. */
  method ListAllVideoId(videoIds: seq<string>, script: seq<Option<Page<Video>>>)
    returns (r: Result<map<nat, Page<Video>>>, sent: seq<Request>)
    ensures r == Returned(ListAllFrom(ByIds(Strings.Join(videoIds, ",")), script, None))
    ensures sent == ListAllFrom(ByIds(Strings.Join(videoIds, ",")), script, None).sent
    ensures r.Err? <==> Strings.Join(videoIds, ",") == ""
    ensures r.Err? ==> r.error == ValueError(VideoSelectorMessage) && sent == []
    ensures forall i :: 0 <= i < |sent| ==>
      "id" in sent[i].params && sent[i].params["id"] == Text(Strings.Join(videoIds, ",")) && !sent[i].useOAuth
  {
    var ids := Strings.Join(videoIds, ",");
    TokenIndependentFailure(ByIds(ids), script, None);
    ListAllShape(ByIds(ids), script, None);
    r, sent := ListAll(ByIds(ids), script);
  }

  /** `Videos.list_all_user_rated`: an unrecognised rating raises on the first call. */
  method ListAllUserRated(userRating: string, script: seq<Option<Page<Video>>>)
    returns (r: Result<map<nat, Page<Video>>>, sent: seq<Request>)
    ensures r == Returned(ListAllFrom(ByRating(userRating), script, None))
    ensures sent == ListAllFrom(ByRating(userRating), script, None).sent
    ensures r.Err? <==> !IsRating(Some(userRating))
    ensures r.Err? ==> r.error == ValueError(VideoSelectorMessage) && sent == []
    ensures forall i :: 0 <= i < |sent| ==>
      "myRating" in sent[i].params && sent[i].params["myRating"] == Text(userRating) && sent[i].useOAuth
  {
    TokenIndependentFailure(ByRating(userRating), script, None);
    ListAllShape(ByRating(userRating), script, None);
    r, sent := ListAll(ByRating(userRating), script);
  }

  /** `Videos.list_all_video_categories`. */
  method ListAllVideoCategories(categoryIds: seq<string>, script: seq<Option<Page<VideoCategory>>>)
    returns (r: Result<map<nat, Page<VideoCategory>>>, sent: seq<Request>)
    ensures r == Returned(ListAllFrom(CategoriesByIds(Strings.Join(categoryIds, ",")), script, None))
    ensures sent == ListAllFrom(CategoriesByIds(Strings.Join(categoryIds, ",")), script, None).sent
    ensures r.Err? <==> Strings.Join(categoryIds, ",") == ""
    ensures r.Err? ==> r.error == ValueError(CategorySelectorMessage) && sent == []
    ensures forall i :: 0 <= i < |sent| ==>
      "id" in sent[i].params && sent[i].params["id"] == Text(Strings.Join(categoryIds, ","))
  {
    var ids := Strings.Join(categoryIds, ",");
    TokenIndependentFailure(CategoriesByIds(ids), script, None);
    ListAllShape(CategoriesByIds(ids), script, None);
    r, sent := ListAll(CategoriesByIds(ids), script);
  }
}
