/** `metrics/utils/api_resources/subscriptions.py`: the `subscriptions.list` request
    builder and the generator that yields every subscription of the signed-in user, page
    after page. */
module Subscriptions {
  import opened Wrappers
  import opened Api

  const DefaultPart := "id,snippet,contentDetails"
  const DefaultOrder := "alphabetical"
  const StreamMaxResults := 50
  const SelectorMessage := "Either 'mine=True' or 'channel_id' must be provided."

  datatype SubscriptionSnippet = SubscriptionSnippet(
    title: Option<string>, resourceId: Option<ResourceId>, thumbnails: Option<Thumbnails>,
    publishedAt: Option<string>)

  datatype SubscriptionContentDetails = SubscriptionContentDetails(totalItemCount: Option<int>,
                                                                   newItemCount: Option<int>)

  /** A subscription resource. */
  datatype Subscription = Subscription(snippet: Option<SubscriptionSnippet>,
                                       contentDetails: Option<SubscriptionContentDetails>)

  /** The request `Subscriptions.list` sends: `mine` (the default, over OAuth) wins over a
      non-empty channel id (with the API key); with neither it raises. `order` is always
      sent. */
  function SubscriptionsListRequest(part: string, mine: bool, channelId: Option<string>, maxResults: int,
                                    order: string, pageToken: Option<string>): (r: Result<Request>)
    ensures r.Err? <==> !mine && !Truthy(channelId)
    ensures r.Err? ==> r.error == ValueError(SelectorMessage)
    ensures r.Ok? ==>
      var q := r.value;
      && q.endpoint == "subscriptions"
      && CommonParams(q, part, maxResults, pageToken)
      && "order" in q.params && q.params["order"] == Text(order)
      && (q.useOAuth <==> mine)
      && ("mine" in q.params <==> mine)
      && (mine ==> q.params["mine"] == Text("true"))
      && ("channelId" in q.params <==> !mine && Truthy(channelId))
      && ("channelId" in q.params ==> q.params["channelId"] == Text(channelId.value))
      && q.params.Keys <= {"part", "maxResults", "order", "mine", "channelId", "pageToken"}
  {
    var base := map["part" := Text(part), "maxResults" := Number(maxResults), "order" := Text(order)];
    if mine then
      Ok(Request("subscriptions", WithPageToken(base["mine" := Text("true")], pageToken), true))
    else if Truthy(channelId) then
      Ok(Request("subscriptions", WithPageToken(base["channelId" := Text(channelId.value)], pageToken), false))
    else
      Err(ValueError(SelectorMessage))
  }

  /** `Subscriptions.list`, building the parameters one insertion at a time. */
  method ListSubscriptions(part: string, mine: bool, channelId: Option<string>, maxResults: int,
                           order: string, pageToken: Option<string>) returns (r: Result<Request>)
    ensures r == SubscriptionsListRequest(part, mine, channelId, maxResults, order, pageToken)
  {
    var params := map["part" := Text(part), "maxResults" := Number(maxResults), "order" := Text(order)];
    var useOAuth: bool;
    if mine {
      params := params["mine" := Text("true")];
      useOAuth := true;
    } else if Truthy(channelId) {
      params := params["channelId" := Text(channelId.value)];
      useOAuth := false;
    } else {
      return Err(ValueError(SelectorMessage));
    }
    if Truthy(pageToken) {
      params := params["pageToken" := Text(pageToken.value)];
    }
    return Ok(Request("subscriptions", params, useOAuth));
  }

  /** The request the generator sends with `token`: the user's own subscriptions, 50 a page;
      with `mine=True` the builder never raises. */
  function StreamRequest(part: string, order: string, token: Option<string>): (q: Request)
    ensures SubscriptionsListRequest(part, true, None, StreamMaxResults, order, token) == Ok(q)
  {
    SubscriptionsListRequest(part, true, None, StreamMaxResults, order, token).value
  }

  /** A response the generator goes on with: present and carrying `items`. */
  predicate HasItems(r: Option<Page<Subscription>>)
  {
    r.Some? && r.value.items.Some?
  }

  /** What the generator did: the pages whose items it yielded, and the requests it sent. */
  datatype StreamOutcome = StreamOutcome(pages: seq<Page<Subscription>>, sent: seq<Request>)

  /** The generator run from `token` against `script`, having yielded the items of `pages`
      and sent `sent`: send a request, stop when the answer has no items, otherwise yield
      them and go on with its `nextPageToken` while that is truthy. */
  function StreamRun(part: string, order: string, script: seq<Option<Page<Subscription>>>, token: Option<string>,
                     pages: seq<Page<Subscription>>, sent: seq<Request>): StreamOutcome
    decreases |script|
  {
    var q := StreamRequest(part, order, token);
    if !HasItems(Answer(script, 0)) then StreamOutcome(pages, sent + [q])
    else
      var page := script[0].value;
      if !Truthy(page.nextPageToken) then StreamOutcome(pages + [page], sent + [q])
      else StreamRun(part, order, script[1..], page.nextPageToken, pages + [page], sent + [q])
  }

  /** The whole generator from `token`. */
  function StreamFrom(part: string, order: string, script: seq<Option<Page<Subscription>>>,
                      token: Option<string>): StreamOutcome
  {
    StreamRun(part, order, script, token, [], [])
  }

  /** What was yielded and sent before only comes in front of what the rest does. */
  lemma {:induction false} StreamRunAfter(part: string, order: string, script: seq<Option<Page<Subscription>>>,
                                          token: Option<string>, pages: seq<Page<Subscription>>, sent: seq<Request>)
    ensures var o := StreamFrom(part, order, script, token);
      StreamRun(part, order, script, token, pages, sent) == StreamOutcome(pages + o.pages, sent + o.sent)
    decreases |script|
  {
    var q := StreamRequest(part, order, token);
    assert [] + [q] == [q];
    if HasItems(Answer(script, 0)) {
      var page := script[0].value;
      assert [] + [page] == [page];
      if Truthy(page.nextPageToken) {
        StreamRunAfter(part, order, script[1..], page.nextPageToken, pages + [page], sent + [q]);
        StreamRunAfter(part, order, script[1..], page.nextPageToken, [page], [q]);
        var rest := StreamFrom(part, order, script[1..], page.nextPageToken);
        assert (pages + [page]) + rest.pages == pages + ([page] + rest.pages);
        assert (sent + [q]) + rest.sent == sent + ([q] + rest.sent);
      }
    }
  }

  /** `Subscriptions.stream_user_subscriptions`, run to the end: every item it yields, in
      order, and every request it sends. */
  method StreamUserSubscriptions(part: string, order: string, script: seq<Option<Page<Subscription>>>)
    returns (yielded: seq<Subscription>, sent: seq<Request>)
    ensures yielded == AllItems(StreamFrom(part, order, script, None).pages)
    ensures sent == StreamFrom(part, order, script, None).sent
  {
    var nextPageToken: Option<string> := None;
    var remaining := script;
    ghost var pages: seq<Page<Subscription>> := [];
    yielded := [];
    sent := [];
    while true
      invariant StreamFrom(part, order, script, None) == StreamRun(part, order, remaining, nextPageToken, pages, sent)
      invariant yielded == AllItems(pages)
      decreases |remaining|
    {
      var request := ListSubscriptions(part, true, None, StreamMaxResults, order, nextPageToken);
      sent := sent + [request.value];
      var response := Answer(remaining, 0);
      if !(response.Some? && response.value.items.Some?) {
        break;
      }
      var items := response.value.items.value;
      for k := 0 to |items|
        invariant yielded == AllItems(pages) + items[..k]
      {
        yielded := yielded + [items[k]];
        assert items[..k + 1] == items[..k] + [items[k]];
      }
      assert items[..|items|] == items;
      AllItemsSnoc(pages, response.value);
      pages := pages + [response.value];
      nextPageToken := response.value.nextPageToken;
      remaining := remaining[1..];
      if !Truthy(nextPageToken) {
        break;
      }
    }
  }

  /** The generator once unrolled, for a first answer with items and a truthy token. */
  lemma StreamUnfold(part: string, order: string, script: seq<Option<Page<Subscription>>>, token: Option<string>)
    requires HasItems(Answer(script, 0)) && Truthy(script[0].value.nextPageToken)
    ensures var rest := StreamFrom(part, order, script[1..], script[0].value.nextPageToken);
      StreamFrom(part, order, script, token)
        == StreamOutcome([script[0].value] + rest.pages, [StreamRequest(part, order, token)] + rest.sent)
  {
    StreamRunAfter(part, order, script[1..], script[0].value.nextPageToken,
                   [] + [script[0].value], [] + [StreamRequest(part, order, token)]);
  }

  /** The pages yielded are the server's first answers, in order, each with items, and
      every page but the last carries a truthy token. */
  lemma {:induction false} StreamPages(part: string, order: string, script: seq<Option<Page<Subscription>>>,
                                       token: Option<string>)
    ensures var o := StreamFrom(part, order, script, token);
      && (forall i :: 0 <= i < |o.pages| ==> Answer(script, i) == Some(o.pages[i]) && HasItems(Answer(script, i)))
      && (forall i :: 0 <= i < |o.pages| - 1 ==> Truthy(o.pages[i].nextPageToken))
    decreases |script|
  {
    var o := StreamFrom(part, order, script, token);
    if HasItems(Answer(script, 0)) {
      var page := script[0].value;
      if Truthy(page.nextPageToken) {
        StreamPages(part, order, script[1..], page.nextPageToken);
        StreamUnfold(part, order, script, token);
        forall i | 0 <= i < |o.pages|
          ensures Answer(script, i) == Some(o.pages[i])
        {
          if i > 0 { assert Answer(script, i) == Answer(script[1..], i - 1); }
        }
      }
    }
  }

  /** One request per page yielded, plus possibly the one whose answer had no items;
      request `i` is the user's own page with the token of the page before it. */
  lemma {:induction false} StreamSent(part: string, order: string, script: seq<Option<Page<Subscription>>>,
                                      token: Option<string>)
    ensures var o := StreamFrom(part, order, script, token);
      && (|o.sent| == |o.pages| || |o.sent| == |o.pages| + 1)
      && (forall i :: 0 <= i < |o.sent| ==> o.sent[i] == StreamRequest(part, order, TokenFor(token, o.pages, i)))
    decreases |script|
  {
    var o := StreamFrom(part, order, script, token);
    if HasItems(Answer(script, 0)) {
      var page := script[0].value;
      if Truthy(page.nextPageToken) {
        StreamSent(part, order, script[1..], page.nextPageToken);
        StreamUnfold(part, order, script, token);
        var rest := StreamFrom(part, order, script[1..], page.nextPageToken);
        forall i | 0 <= i < |o.sent|
          ensures o.sent[i] == StreamRequest(part, order, TokenFor(token, o.pages, i))
        {
          if i > 0 {
            assert TokenFor(token, o.pages, i) == TokenFor(page.nextPageToken, rest.pages, i - 1);
          }
        }
      }
    }
  }

  /** The generator stops either at an answer without items (sent, nothing yielded from
      it) or after a page without a truthy token. */
  lemma {:induction false} StreamStops(part: string, order: string, script: seq<Option<Page<Subscription>>>,
                                       token: Option<string>)
    ensures var o := StreamFrom(part, order, script, token);
      && (|o.sent| == |o.pages| + 1 ==> !HasItems(Answer(script, |o.pages|)))
      && (|o.sent| == |o.pages| ==> o.pages != [] && !Truthy(o.pages[|o.pages| - 1].nextPageToken))
    decreases |script|
  {
    var o := StreamFrom(part, order, script, token);
    if HasItems(Answer(script, 0)) {
      var page := script[0].value;
      if Truthy(page.nextPageToken) {
        StreamStops(part, order, script[1..], page.nextPageToken);
        StreamUnfold(part, order, script, token);
        var rest := StreamFrom(part, order, script[1..], page.nextPageToken);
        if |o.sent| == |o.pages| + 1 {
          assert Answer(script, |o.pages|) == Answer(script[1..], |rest.pages|);
        }
      }
    }
  }

  /** Every request of the generator asks for the user's own subscriptions (`mine`, over
      OAuth), 50 a page, in the given order. */
  lemma StreamRequestsAreMine(part: string, order: string, token: Option<string>)
    ensures var q := StreamRequest(part, order, token);
      && q.useOAuth && "mine" in q.params && q.params["mine"] == Text("true")
      && q.params["maxResults"] == Number(StreamMaxResults) && q.params["order"] == Text(order)
      && "channelId" !in q.params
      && ("pageToken" in q.params <==> Truthy(token))
  {
  }
}
