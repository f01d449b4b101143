/** `metrics/services/activity_analyzer.py`: the recommended videos of one page of the
    user's activities, and the generator that goes through every page. The answer to the
    `activities.list` call is given; the `videos.list` lookup of a seed video's thumbnail is
    a total function from the seed id to its answer. */
module ActivityAnalyzer {
  import opened Wrappers
  import opened Api
  import Videos

  const ActivityPart := "snippet,contentDetails"
  const DefaultMaxResults := 10
  const StreamMaxResults := 50
  const RecommendationType := "recommendation"
  const VideoKind := "youtube#video"
  const ContentDetailsKey := "contentDetails"

  datatype ActivitySnippet = ActivitySnippet(activityType: Option<string>, title: Option<string>,
                                             thumbnails: Option<Thumbnails>)

  datatype Recommendation = Recommendation(resourceId: Option<ResourceId>, seedResourceId: Option<ResourceId>,
                                           reason: Option<string>)

  datatype ActivityContentDetails = ActivityContentDetails(recommendation: Option<Recommendation>)

  /** An activity resource. */
  datatype Activity = Activity(snippet: Option<ActivitySnippet>, contentDetails: Option<ActivityContentDetails>)

  /** The dictionary stored for one recommended video. */
  datatype RecommendedVideo = RecommendedVideo(
    videoId: Option<string>, title: Option<string>, thumbnail: Option<string>, reason: Option<string>,
    seedVideoId: Option<string>, seedThumbnail: Option<string>)

  /** What `get_recommended_activities_context` returns. */
  datatype ActivitiesContext = ActivitiesContext(recommendedVideos: seq<RecommendedVideo>, nextPageToken: Option<string>)

  /** The arguments of the `client.activities.list` call. */
  datatype ActivityCall = ActivityCall(part: string, maxResults: int, pageToken: Option<string>)

  /** `item.get('snippet', {})`. */
  function SnippetOf(a: Activity): ActivitySnippet
  {
    a.snippet.GetOr(ActivitySnippet(None, None, None))
  }

  /** `snippet.type == 'recommendation'`. */
  predicate IsRecommendation(a: Activity)
  {
    SnippetOf(a).activityType == Some(RecommendationType)
  }

  /** `content_details.get('recommendation', {})`. */
  function RecommendationOf(d: ActivityContentDetails): Recommendation
  {
    d.recommendation.GetOr(Recommendation(None, None, None))
  }

  /** A `resourceId`, `{}` when missing. */
  function ResourceOf(r: Option<ResourceId>): ResourceId
  {
    r.GetOr(ResourceId(None, None, None))
  }

  predicate IsVideo(r: ResourceId)
  {
    r.kind == Some(VideoKind)
  }

  /** The seed video id that is kept: only a video seed has one. */
  function SeedIdOf(d: ActivityContentDetails): Option<string>
  {
    var seed := ResourceOf(RecommendationOf(d).seedResourceId);
    if IsVideo(seed) then seed.videoId else None
  }

  /** The thumbnail read from the answer to a seed lookup: the `default` thumbnail of its
      first item, when the answer is present and has a non-empty `items` list. */
  function SeedThumbnailOf(answer: Option<Page<Videos.Video>>): Option<string>
  {
    if IsTruthy(answer) && answer.value.items.Some? && answer.value.items.value != [] then
      var first := answer.value.items.value[0];
      if first.snippet.Some? then DefaultThumbnailUrl(first.snippet.value.thumbnails) else None
    else None
  }

  /** The entry of a recommendation of a video: the seed is kept only when it is a video, and
      its thumbnail is looked up only when its id is truthy. */
  function EntryOf(seedApi: string -> Option<Page<Videos.Video>>, snippet: ActivitySnippet,
                   details: ActivityContentDetails): (r: RecommendedVideo)
    ensures !IsVideo(ResourceOf(RecommendationOf(details).seedResourceId)) ==> r.seedVideoId.None? && r.seedThumbnail.None?
    ensures r.seedThumbnail.Some? ==> Truthy(r.seedVideoId)
    ensures r.seedVideoId == SeedIdOf(details)
    ensures r.videoId == ResourceOf(RecommendationOf(details).resourceId).videoId
    ensures r.title == snippet.title && r.reason == RecommendationOf(details).reason
    ensures r.thumbnail == MediumThumbnailUrl(snippet.thumbnails)
    ensures Truthy(r.seedVideoId) ==> r.seedThumbnail == SeedThumbnailOf(seedApi(r.seedVideoId.value))
  {
    var seedId := SeedIdOf(details);
    RecommendedVideo(
      ResourceOf(RecommendationOf(details).resourceId).videoId, snippet.title, MediumThumbnailUrl(snippet.thumbnails),
      RecommendationOf(details).reason, seedId,
      if Truthy(seedId) then SeedThumbnailOf(seedApi(seedId.value)) else None)
  }

  /** An activity recommending a video, with its `contentDetails`. */
  predicate Kept(a: Activity)
  {
    IsRecommendation(a) && a.contentDetails.Some? &&
    IsVideo(ResourceOf(RecommendationOf(a.contentDetails.value).resourceId))
  }

  /** A recommendation without `contentDetails`: `item['contentDetails']` raises. */
  predicate Raises(a: Activity)
  {
    IsRecommendation(a) && a.contentDetails.None?
  }

  /** What one item adds: nothing, its entry, or the KeyError. */
  function StepOf(seedApi: string -> Option<Page<Videos.Video>>, a: Activity): Result<seq<RecommendedVideo>>
  {
    if Raises(a) then Err(KeyError(ContentDetailsKey))
    else if Kept(a) then Ok([EntryOf(seedApi, SnippetOf(a), a.contentDetails.value)])
    else Ok([])
  }

  /** The list built by the loop over `items`, or the KeyError it stops with. */
  function RecommendedOf(seedApi: string -> Option<Page<Videos.Video>>, items: seq<Activity>)
    : Result<seq<RecommendedVideo>>
    decreases |items|
  {
    if items == [] then Ok([])
    else
      match RecommendedOf(seedApi, items[..|items| - 1])
      case Err(e) => Err(e)
      case Ok(vs) =>
        match StepOf(seedApi, items[|items| - 1])
        case Err(e) => Err(e)
        case Ok(s) => Ok(vs + s)
  }

  /** The seed ids whose thumbnail one item looks up. */
  function LookupOf(a: Activity): seq<string>
  {
    if Kept(a) && Truthy(SeedIdOf(a.contentDetails.value)) then [SeedIdOf(a.contentDetails.value).value] else []
  }

  /** The seed ids looked up for `items`, in order. */
  function LookupsOf(items: seq<Activity>): seq<string>
    decreases |items|
  {
    if items == [] then [] else LookupsOf(items[..|items| - 1]) + LookupOf(items[|items| - 1])
  }

  /** What `get_recommended_activities_context` returns for the answer `response`. */
  function ContextOf(seedApi: string -> Option<Page<Videos.Video>>, response: Option<Page<Activity>>)
    : Result<ActivitiesContext>
  {
    match RecommendedOf(seedApi, ItemsOfResponse(response))
    case Err(e) => Err(e)
    case Ok(vs) => Ok(ActivitiesContext(vs, if IsTruthy(response) then response.value.nextPageToken else None))
  }

  lemma RecommendedStep(seedApi: string -> Option<Page<Videos.Video>>, items: seq<Activity>, i: nat,
                        vs: seq<RecommendedVideo>, s: seq<RecommendedVideo>)
    requires i < |items| && RecommendedOf(seedApi, items[..i]) == Ok(vs) && StepOf(seedApi, items[i]) == Ok(s)
    ensures RecommendedOf(seedApi, items[..i + 1]) == Ok(vs + s)
  {
    assert items[..i + 1][..i] == items[..i];
  }

  lemma RecommendedRaised(seedApi: string -> Option<Page<Videos.Video>>, items: seq<Activity>, i: nat,
                          vs: seq<RecommendedVideo>)
    requires i < |items| && RecommendedOf(seedApi, items[..i]) == Ok(vs) && Raises(items[i])
    ensures RecommendedOf(seedApi, items[..i + 1]) == Err(KeyError(ContentDetailsKey))
  {
    assert items[..i + 1][..i] == items[..i];
  }

  lemma {:induction false} RecommendedStaysFailed(seedApi: string -> Option<Page<Videos.Video>>, items: seq<Activity>,
                                                  i: nat, e: Error)
    requires i <= |items| && RecommendedOf(seedApi, items[..i]) == Err(e)
    ensures RecommendedOf(seedApi, items) == Err(e)
    decreases |items| - i
  {
    if i == |items| {
      assert items[..i] == items;
    } else {
      assert items[..i + 1][..i] == items[..i];
      RecommendedStaysFailed(seedApi, items, i + 1, e);
    }
  }

  lemma LookupsStep(items: seq<Activity>, i: nat)
    requires i < |items|
    ensures LookupsOf(items[..i + 1]) == LookupsOf(items[..i]) + LookupOf(items[i])
  {
    assert items[..i + 1][..i] == items[..i];
  }

  /** `get_recommended_activities_context`, given the answer `response` to its
      `activities.list` call: the call, what it returns, and the seed ids whose thumbnail it
      looked up (those of a prefix of the items; of all of them when it returns). */
  method GetRecommendedActivitiesContext(seedApi: string -> Option<Page<Videos.Video>>, pageToken: Option<string>,
                                         maxResults: int, response: Option<Page<Activity>>)
    returns (call: ActivityCall, r: Result<ActivitiesContext>, lookups: seq<string>)
    ensures call == ActivityCall(ActivityPart, maxResults, pageToken)
    ensures r == ContextOf(seedApi, response)
    ensures exists n :: 0 <= n <= |ItemsOfResponse(response)| && lookups == LookupsOf(ItemsOfResponse(response)[..n])
    ensures r.Ok? ==> lookups == LookupsOf(ItemsOfResponse(response))
  {
    call := ActivityCall(ActivityPart, maxResults, pageToken);
    var items: seq<Activity> := [];
    if IsTruthy(response) && response.value.items.Some? {
      items := response.value.items.value;
    }
    assert items == ItemsOfResponse(response);
    var recommendedVideos: seq<RecommendedVideo> := [];
    lookups := [];
    for i := 0 to |items|
      invariant RecommendedOf(seedApi, items[..i]) == Ok(recommendedVideos)
      invariant lookups == LookupsOf(items[..i])
    {
      var item := items[i];
      LookupsStep(items, i);
      if SnippetOf(item).activityType == Some(RecommendationType) {
        var snippet := item.snippet.value;
        if item.contentDetails.None? {
          RecommendedRaised(seedApi, items, i, recommendedVideos);
          RecommendedStaysFailed(seedApi, items, i + 1, KeyError(ContentDetailsKey));
          return call, Err(KeyError(ContentDetailsKey)), lookups;
        }
        var contentDetails := item.contentDetails.value;
        var recommendedResource := ResourceOf(RecommendationOf(contentDetails).resourceId);
        var seedResource := ResourceOf(RecommendationOf(contentDetails).seedResourceId);
        if recommendedResource.kind == Some(VideoKind) {
          var seedVideoId: Option<string> := None;
          var seedVideoThumbnail: Option<string> := None;
          if seedResource.kind == Some(VideoKind) {
            seedVideoId := seedResource.videoId;
            if seedVideoId.Some? && seedVideoId.value != "" {
              var videoResponse := seedApi(seedVideoId.value);
              lookups := lookups + [seedVideoId.value];
              seedVideoThumbnail := SeedThumbnailOf(videoResponse);
            }
          }
          var entry := RecommendedVideo(
            recommendedResource.videoId, snippet.title, MediumThumbnailUrl(snippet.thumbnails),
            RecommendationOf(contentDetails).reason, seedVideoId, seedVideoThumbnail);
          assert StepOf(seedApi, item) == Ok([entry]);
          RecommendedStep(seedApi, items, i, recommendedVideos, [entry]);
          recommendedVideos := recommendedVideos + [entry];
        } else {
          assert StepOf(seedApi, item) == Ok([]);
          RecommendedStep(seedApi, items, i, recommendedVideos, []);
          assert recommendedVideos + [] == recommendedVideos;
        }
      } else {
        assert StepOf(seedApi, item) == Ok([]);
        RecommendedStep(seedApi, items, i, recommendedVideos, []);
        assert recommendedVideos + [] == recommendedVideos;
      }
    }
    assert items[..|items|] == items;
    var nextPageToken := if IsTruthy(response) then response.value.nextPageToken else None;
    r := Ok(ActivitiesContext(recommendedVideos, nextPageToken));
  }

  // ----- What a page gives -----

  /** The activities recommending a video, in order. */
  function KeptOf(items: seq<Activity>): seq<Activity>
    decreases |items|
  {
    if items == [] then []
    else KeptOf(items[..|items| - 1]) + (if Kept(items[|items| - 1]) then [items[|items| - 1]] else [])
  }

  /** The entry of a kept activity. */
  function EntryOfActivity(seedApi: string -> Option<Page<Videos.Video>>, a: Activity): RecommendedVideo
  {
    EntryOf(seedApi, SnippetOf(a), a.contentDetails.GetOr(ActivityContentDetails(None)))
  }

  /** The loop raises exactly when some recommendation lacks `contentDetails`, and then
      with a KeyError for that key. */
  lemma {:induction false} RecommendedFails(seedApi: string -> Option<Page<Videos.Video>>, items: seq<Activity>)
    ensures RecommendedOf(seedApi, items).Err? <==> exists j :: 0 <= j < |items| && Raises(items[j])
    ensures RecommendedOf(seedApi, items).Err? ==> RecommendedOf(seedApi, items).error == KeyError(ContentDetailsKey)
    decreases |items|
  {
    if items != [] {
      var n := |items| - 1;
      var front := items[..n];
      RecommendedFails(seedApi, front);
      if j :| 0 <= j < |front| && Raises(front[j]) {
        assert items[j] == front[j];
      }
      if j :| 0 <= j < |items| && Raises(items[j]) {
        if j < n {
          assert front[j] == items[j];
        }
      }
    }
  }

  /** When the loop finishes, the list holds one entry per activity recommending a video,
      in the order of the items. */
  lemma {:induction false} RecommendedContents(seedApi: string -> Option<Page<Videos.Video>>, items: seq<Activity>)
    requires RecommendedOf(seedApi, items).Ok?
    ensures var vs := RecommendedOf(seedApi, items).value;
      && |vs| == |KeptOf(items)|
      && forall k :: 0 <= k < |vs| ==> vs[k] == EntryOfActivity(seedApi, KeptOf(items)[k])
    decreases |items|
  {
    if items != [] {
      var n := |items| - 1;
      RecommendedContents(seedApi, items[..n]);
    }
  }

  /** The activities kept are exactly the items that recommend a video. */
  lemma {:induction false} KeptMeaning(items: seq<Activity>)
    ensures forall a :: a in KeptOf(items) <==> a in items && Kept(a)
    decreases |items|
  {
    if items != [] {
      var n := |items| - 1;
      KeptMeaning(items[..n]);
      assert items == items[..n] + [items[n]];
    }
  }

  /** Only a kept activity with a truthy video seed id is looked up, once, with that id. */
  lemma {:induction false} LookupsMeaning(items: seq<Activity>)
    ensures forall x :: x in LookupsOf(items) <==>
      exists a :: a in items && Kept(a) && SeedIdOf(a.contentDetails.value) == Some(x) && x != ""
    decreases |items|
  {
    if items != [] {
      var n := |items| - 1;
      LookupsMeaning(items[..n]);
      assert items == items[..n] + [items[n]];
    }
  }

  /** A missing answer, or one without `items`, gives no recommended videos and no lookups;
      a missing answer also gives no token. */
  lemma NoItemsNoVideos(seedApi: string -> Option<Page<Videos.Video>>, response: Option<Page<Activity>>)
    requires response.None? || response.value.items.None?
    ensures ContextOf(seedApi, response).Ok?
    ensures ContextOf(seedApi, response).value.recommendedVideos == []
    ensures LookupsOf(ItemsOfResponse(response)) == []
    ensures response.None? ==> ContextOf(seedApi, response).value.nextPageToken.None?
  {
  }

  // ----- The generator -----

  /** What the generator did: the contexts it went through, the calls it sent, and the
      exception it stopped with, if any. */
  datatype StreamOutcome = StreamOutcome(contexts: seq<ActivitiesContext>, sent: seq<ActivityCall>, failure: Option<Error>)

  /** The generator run from `token` against the server's `script` of answers, having gone
      through `contexts` and sent `sent`. */
  function StreamRun(seedApi: string -> Option<Page<Videos.Video>>, script: seq<Option<Page<Activity>>>,
                     token: Option<string>, contexts: seq<ActivitiesContext>, sent: seq<ActivityCall>): StreamOutcome
    decreases |script|
  {
    var call := ActivityCall(ActivityPart, StreamMaxResults, token);
    match ContextOf(seedApi, Answer(script, 0))
    case Err(e) => StreamOutcome(contexts, sent + [call], Some(e))
    case Ok(c) =>
      if !Truthy(c.nextPageToken) || script == [] then StreamOutcome(contexts + [c], sent + [call], None)
      else StreamRun(seedApi, script[1..], c.nextPageToken, contexts + [c], sent + [call])
  }

  /** The whole generator from `token`. */
  function StreamFrom(seedApi: string -> Option<Page<Videos.Video>>, script: seq<Option<Page<Activity>>>,
                      token: Option<string>): StreamOutcome
  {
    StreamRun(seedApi, script, token, [], [])
  }

  /** Once the script is used up every call fails, which gives no token. */
  lemma ExhaustedStops(seedApi: string -> Option<Page<Videos.Video>>)
    ensures ContextOf(seedApi, None) == Ok(ActivitiesContext([], None))
  {
  }

  /** The recommended videos of `contexts`, one context after the other. */
  function VideosOf(contexts: seq<ActivitiesContext>): seq<RecommendedVideo>
    decreases |contexts|
  {
    if contexts == [] then [] else VideosOf(contexts[..|contexts| - 1]) + contexts[|contexts| - 1].recommendedVideos
  }

  lemma VideosOfSnoc(contexts: seq<ActivitiesContext>, c: ActivitiesContext)
    ensures VideosOf(contexts + [c]) == VideosOf(contexts) + c.recommendedVideos
  {
    assert (contexts + [c])[..|contexts|] == contexts;
  }

  /** `stream_recommended_activities`, run to the end: the contexts it went through, the
      videos it yields, the calls it sends and the exception it ends with. */
  method StreamRecommendedActivities(seedApi: string -> Option<Page<Videos.Video>>, script: seq<Option<Page<Activity>>>)
    returns (yielded: seq<RecommendedVideo>, sent: seq<ActivityCall>, failure: Option<Error>)
    ensures yielded == VideosOf(StreamFrom(seedApi, script, None).contexts)
    ensures sent == StreamFrom(seedApi, script, None).sent
    ensures failure == StreamFrom(seedApi, script, None).failure
  {
    var nextPageToken: Option<string> := None;
    var remaining := script;
    ghost var contexts: seq<ActivitiesContext> := [];
    yielded := [];
    sent := [];
    while true
      invariant StreamFrom(seedApi, script, None) == StreamRun(seedApi, remaining, nextPageToken, contexts, sent)
      invariant yielded == VideosOf(contexts)
      decreases |remaining|
    {
      var call, context, _ := GetRecommendedActivitiesContext(seedApi, nextPageToken, StreamMaxResults, Answer(remaining, 0));
      sent := sent + [call];
      if context.Err? {
        return yielded, sent, Some(context.error);
      }
      var videos := context.value.recommendedVideos;
      for k := 0 to |videos|
        invariant yielded == VideosOf(contexts) + videos[..k]
      {
        yielded := yielded + [videos[k]];
        assert videos[..k + 1] == videos[..k] + [videos[k]];
      }
      assert videos[..|videos|] == videos;
      VideosOfSnoc(contexts, context.value);
      contexts := contexts + [context.value];
      nextPageToken := context.value.nextPageToken;
      if !(nextPageToken.Some? && nextPageToken.value != "") {
        return yielded, sent, None;
      }
      assert remaining != [];
      remaining := remaining[1..];
    }
  }

  /** What was gone through and sent before only comes in front of what the rest does. */
  lemma {:induction false} StreamRunAfter(seedApi: string -> Option<Page<Videos.Video>>,
                                          script: seq<Option<Page<Activity>>>, token: Option<string>,
                                          contexts: seq<ActivitiesContext>, sent: seq<ActivityCall>)
    ensures var o := StreamFrom(seedApi, script, token);
      StreamRun(seedApi, script, token, contexts, sent) == StreamOutcome(contexts + o.contexts, sent + o.sent, o.failure)
    decreases |script|
  {
    var call := ActivityCall(ActivityPart, StreamMaxResults, token);
    assert [] + [call] == [call];
    match ContextOf(seedApi, Answer(script, 0))
    case Err(e) =>
    case Ok(c) =>
      assert [] + [c] == [c];
      if Truthy(c.nextPageToken) && script != [] {
        StreamRunAfter(seedApi, script[1..], c.nextPageToken, contexts + [c], sent + [call]);
        StreamRunAfter(seedApi, script[1..], c.nextPageToken, [c], [call]);
        var rest := StreamFrom(seedApi, script[1..], c.nextPageToken);
        assert (contexts + [c]) + rest.contexts == contexts + ([c] + rest.contexts);
        assert (sent + [call]) + rest.sent == sent + ([call] + rest.sent);
      }
  }

  /** The token sent with call `i`: the starting token, then the `next_page_token` of the
      context before it. */
  function TokenAt(token: Option<string>, contexts: seq<ActivitiesContext>, i: nat): Option<string>
    requires i <= |contexts|
  {
    if i == 0 then token else contexts[i - 1].nextPageToken
  }

  /** The generator once unrolled, for a first context with a truthy token. */
  lemma StreamUnfold(seedApi: string -> Option<Page<Videos.Video>>, script: seq<Option<Page<Activity>>>,
                     token: Option<string>, c: ActivitiesContext)
    requires ContextOf(seedApi, Answer(script, 0)) == Ok(c) && Truthy(c.nextPageToken)
    ensures script != []
    ensures var rest := StreamFrom(seedApi, script[1..], c.nextPageToken);
      StreamFrom(seedApi, script, token) ==
        StreamOutcome([c] + rest.contexts, [ActivityCall(ActivityPart, StreamMaxResults, token)] + rest.sent, rest.failure)
  {
    StreamRunAfter(seedApi, script[1..], c.nextPageToken, [] + [c], [] + [ActivityCall(ActivityPart, StreamMaxResults, token)]);
  }

  /** Context `i` is what the answer to call `i` gives. */
  lemma {:induction false} StreamContexts(seedApi: string -> Option<Page<Videos.Video>>,
                                          script: seq<Option<Page<Activity>>>, token: Option<string>)
    ensures var o := StreamFrom(seedApi, script, token);
      forall i :: 0 <= i < |o.contexts| ==> ContextOf(seedApi, Answer(script, i)) == Ok(o.contexts[i])
    decreases |script|
  {
    var first := ContextOf(seedApi, Answer(script, 0));
    if first.Ok? && Truthy(first.value.nextPageToken) {
      var c := first.value;
      StreamUnfold(seedApi, script, token, c);
      StreamContexts(seedApi, script[1..], c.nextPageToken);
      var o := StreamFrom(seedApi, script, token);
      forall i | 0 <= i < |o.contexts|
        ensures ContextOf(seedApi, Answer(script, i)) == Ok(o.contexts[i])
      {
        if i > 0 { assert Answer(script, i) == Answer(script[1..], i - 1); }
      }
    }
  }

  /** Every context but the last has a truthy token. */
  lemma {:induction false} StreamContinues(seedApi: string -> Option<Page<Videos.Video>>,
                                           script: seq<Option<Page<Activity>>>, token: Option<string>)
    ensures var o := StreamFrom(seedApi, script, token);
      forall i :: 0 <= i < |o.contexts| - 1 ==> Truthy(o.contexts[i].nextPageToken)
    decreases |script|
  {
    var first := ContextOf(seedApi, Answer(script, 0));
    if first.Ok? && Truthy(first.value.nextPageToken) {
      var c := first.value;
      StreamUnfold(seedApi, script, token, c);
      StreamContinues(seedApi, script[1..], c.nextPageToken);
    }
  }

  /** The generator ends either after a context without a truthy token, or with the
      exception of the call that raised, the one after the last context. */
  lemma {:induction false} StreamEnds(seedApi: string -> Option<Page<Videos.Video>>,
                                      script: seq<Option<Page<Activity>>>, token: Option<string>)
    ensures var o := StreamFrom(seedApi, script, token);
      && (o.failure.Some? ==> ContextOf(seedApi, Answer(script, |o.contexts|)) == Err(o.failure.value))
      && (o.failure.None? ==> o.contexts != [] && !Truthy(o.contexts[|o.contexts| - 1].nextPageToken))
    decreases |script|
  {
    var first := ContextOf(seedApi, Answer(script, 0));
    if first.Ok? && Truthy(first.value.nextPageToken) {
      var c := first.value;
      StreamUnfold(seedApi, script, token, c);
      StreamEnds(seedApi, script[1..], c.nextPageToken);
      var o := StreamFrom(seedApi, script, token);
      var rest := StreamFrom(seedApi, script[1..], c.nextPageToken);
      if o.failure.Some? {
        assert Answer(script, |o.contexts|) == Answer(script[1..], |rest.contexts|);
      }
    } else if first.Ok? && script == [] {
      assert !Truthy(first.value.nextPageToken);
    }
  }

  /** The generator asks for 50 activities at a time and sends one call per context, plus
      the call that raised; each call but the first carries the token of the context before it. */
  lemma {:induction false} StreamCalls(seedApi: string -> Option<Page<Videos.Video>>,
                                       script: seq<Option<Page<Activity>>>, token: Option<string>)
    ensures var o := StreamFrom(seedApi, script, token);
      && |o.sent| == |o.contexts| + (if o.failure.Some? then 1 else 0)
      && (forall i :: 0 <= i < |o.sent| ==>
            o.sent[i] == ActivityCall(ActivityPart, StreamMaxResults, TokenAt(token, o.contexts, i)))
    decreases |script|
  {
    var first := ContextOf(seedApi, Answer(script, 0));
    if first.Ok? && Truthy(first.value.nextPageToken) {
      var c := first.value;
      StreamUnfold(seedApi, script, token, c);
      StreamCalls(seedApi, script[1..], c.nextPageToken);
      var o := StreamFrom(seedApi, script, token);
      var rest := StreamFrom(seedApi, script[1..], c.nextPageToken);
      forall i | 0 <= i < |o.sent|
        ensures o.sent[i] == ActivityCall(ActivityPart, StreamMaxResults, TokenAt(token, o.contexts, i))
      {
        if i > 0 {
          assert TokenAt(token, o.contexts, i) == TokenAt(c.nextPageToken, rest.contexts, i - 1);
        }
      }
    }
  }
}
