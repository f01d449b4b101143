/** The request/response vocabulary of the YouTube Data API v3 client: a request is an
    endpoint, its query parameters and whether the OAuth session or the API key is used;
    a response is a JSON page, read here as a typed record whose keys may be missing. */
module Api {
  import opened Wrappers

  /** Python truthiness of an optional string: present and not empty. */
  predicate Truthy(s: Option<string>)
  {
    s.Some? && s.value != ""
  }

  /** A query-parameter value; the client sends strings and integers. */
  datatype ParamValue = Text(text: string) | Number(number: int)

  /** The arguments of one `YouTubeClient._make_request` call. */
  datatype Request = Request(endpoint: string, params: map<string, ParamValue>, useOAuth: bool)

  /** What every `list` builder puts in: `part` and `maxResults` always, `pageToken` exactly
      when the token is truthy. */
  predicate CommonParams(q: Request, part: string, maxResults: int, pageToken: Option<string>)
  {
    && "part" in q.params && q.params["part"] == Text(part)
    && "maxResults" in q.params && q.params["maxResults"] == Number(maxResults)
    && ("pageToken" in q.params <==> Truthy(pageToken))
    && (Truthy(pageToken) ==> q.params["pageToken"] == Text(pageToken.value))
  }

  /** `params` with `pageToken` added when the token is truthy. */
  function WithPageToken(params: map<string, ParamValue>, pageToken: Option<string>): map<string, ParamValue>
  {
    if Truthy(pageToken) then params["pageToken" := Text(pageToken.value)] else params
  }

  /** One page of a list response: its `items` list, its `nextPageToken`, and the names of
      any other keys it carries (`kind`, `etag`, `pageInfo`, ...). */
  datatype Page<I> = Page(items: Option<seq<I>>, nextPageToken: Option<string>, otherKeys: set<string>)

  /** Python truthiness of a response: not `None` and not the empty dictionary. */
  predicate IsTruthy<I>(r: Option<Page<I>>)
  {
    r.Some? && (r.value.items.Some? || r.value.nextPageToken.Some? || r.value.otherKeys != {})
  }

  /** The answer to call number `j` (from 0) when the server's answers are `script`; once
      the script is used up every call fails. */
  function Answer<I>(script: seq<Option<Page<I>>>, j: nat): Option<Page<I>>
  {
    if j < |script| then script[j] else None
  }

  /** `response.get('items', [])`. */
  function ItemsOr<I>(p: Page<I>): seq<I>
  {
    p.items.GetOr([])
  }

  /** `response and 'items' in response`: the items of a present response that has them. */
  function ItemsOfResponse<I>(r: Option<Page<I>>): seq<I>
  {
    if r.Some? && r.value.items.Some? then r.value.items.value else []
  }

  /** The token a pagination loop sends with request `i`: the starting token, then the
      `nextPageToken` of the page stored before it. */
  function TokenFor<I>(token: Option<string>, pages: seq<Page<I>>, i: nat): Option<string>
    requires i <= |pages|
  {
    if i == 0 then token else pages[i - 1].nextPageToken
  }

  /** The items of `pages`, page after page, in order. */
  function AllItems<I>(pages: seq<Page<I>>): seq<I>
    decreases |pages|
  {
    if pages == [] then [] else AllItems(pages[..|pages| - 1]) + ItemsOr(pages[|pages| - 1])
  }

  /** One more page adds its items at the end. */
  lemma AllItemsSnoc<I>(pages: seq<Page<I>>, page: Page<I>)
    ensures AllItems(pages + [page]) == AllItems(pages) + ItemsOr(page)
  {
    assert (pages + [page])[..|pages|] == pages;
  }

  datatype Thumbnail = Thumbnail(url: Option<string>)

  /** The `default` and `medium` entries of a `thumbnails` object. */
  datatype Thumbnails = Thumbnails(defaultSize: Option<Thumbnail>, mediumSize: Option<Thumbnail>)

  /** `x.get('thumbnails', {}).get('default', {}).get('url')`. */
  function DefaultThumbnailUrl(t: Option<Thumbnails>): Option<string>
  {
    if t.Some? && t.value.defaultSize.Some? then t.value.defaultSize.value.url else None
  }

  /** `x.get('thumbnails', {}).get('medium', {}).get('url')`. */
  function MediumThumbnailUrl(t: Option<Thumbnails>): Option<string>
  {
    if t.Some? && t.value.mediumSize.Some? then t.value.mediumSize.value.url else None
  }

  /** A `resourceId` object. */
  datatype ResourceId = ResourceId(kind: Option<string>, videoId: Option<string>, channelId: Option<string>)

  /** A `topicDetails` object. */
  datatype TopicDetails = TopicDetails(topicCategories: Option<seq<string>>)
}
