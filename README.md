# MyTube Metrics: the YouTube request/response layer, modelled in Dafny

MyTube Metrics is a Django site that shows signed-in users statistics about their own
YouTube account. This project models the part of it that talks to the YouTube Data API
v3 and turns its answers into what the views show:

- the request builders of the API resources: `videos.list`, `videoCategories.list`,
  `channels.list`, `playlists.list`, `playlistItems.list` and `subscriptions.list`.
  Each builder picks its selector parameter, adds `pageToken` only when the token is
  truthy, chooses between the OAuth session and the API key, and raises `ValueError`
  when no selector is given;
- the `list_all_*` loops, which follow `nextPageToken` through every page, and the
  `stream_user_subscriptions` generator;
- the normalisers `process_raw_stats`, `process_raw_playlist` and `process_raw_items`.
  Each turns one response into a dictionary keyed by resource id, and
  `isostr_to_datetime` reads the dates for them;
- `parse_topic_urls`, which turns Wikipedia topic URLs into display labels;
- the services:
  - `get_paginated_subscriptions`, which cuts one page out of the subscription stream;
  - `get_topic_freqs_in_playlist` and `get_category_freqs_in_playlist`, which send the
    playlist's video ids in chunks of 50 and count topics and category names;
  - `get_recommended_activities_context` and `stream_recommended_activities`;
- the two copies of the infinite-scroll page `activities.js`. Each has its
  `getCookie` helper, its in-flight guard, its request URL, its empty-result notice
  and its scroll trigger.

**Data.** A JSON response is a typed record whose keys may be missing (`Option`
fields). A list page is `Api.Page(items, nextPageToken, otherKeys)`. A request is
`Api.Request(endpoint, params, useOAuth)`, meaning the arguments of
`_make_request`. The server is a finite script of answers: call `j` gets `script[j]`,
and every call fails (`None`) once the script is used up. Each `while True` loop is
modelled twice:

- an accumulator-style specification function (`Videos.Run`,
  `Subscriptions.StreamRun`, `ActivityAnalyzer.StreamRun`);
- a `method` whose loop invariant ties its state to that function.

Lemmas then state what the source promises about the function. The normalisers share
one dictionary-filling loop, `Keyed.ByKey`. `Counter` is a multiset. The JavaScript
page is a class whose fields are the page's variables, its spinner, its container
and the browser's location; its token is a JavaScript value that is `null`, `undefined`
or a string. Each event handler is a method with a `modifies` clause. The earlier copy
shares that class and differs only in its fetch and the scroll handler calling it.

`getCookie` calls `decodeURIComponent`. That, and `urllib.parse.unquote` in
`parse_topic_urls`, are modelled on percent-encoding with UTF-8 octets (section 2.1
of RFC 3986, table 3-7 of the Unicode Standard). `PercentEncoding` proves both
decodings invert `encodeURIComponent`.

## Model

| member | source | states |
|---|---|---|
| Videos.VideoListRequest | metrics/utils/api_resources/videos.py:37-56 | raises the selector ValueError exactly when there is no recognised rating, no non-empty ids and no non-empty chart; otherwise a rating wins (as `myRating`, over OAuth), then ids, then chart (with `videoCategoryId` only with a chart); `part` and `maxResults` are always sent and `pageToken` only when truthy |
| Videos.ListVideo | metrics/utils/api_resources/videos.py:12-63 | building the parameters one insertion at a time gives exactly the request (or error) `VideoListRequest` describes |
| Videos.CategoryListRequest | metrics/utils/api_resources/videos.py:141-153 | raises exactly when neither non-empty category ids nor a region code is given; ids win over the region code; the API key is always used |
| Videos.ListVideoCategory | metrics/utils/api_resources/videos.py:122-158 | the built request is the one `CategoryListRequest` describes |
| Videos.ListAll | metrics/utils/api_resources/videos.py:80-90 | the loop returns the dictionary of pages, or the exception, and the requests of the paging specification `ListAllFrom`; on success the dictionary's keys are exactly the page numbers `0 .. n - 1`, key `i` holding the `i`-th page received |
| Videos.RunAfter | metrics/utils/api_resources/videos.py:80-90 | what the loop stored and sent before a call only comes in front of what the rest of the loop does |
| Videos.ListAllShape | metrics/utils/api_resources/videos.py:80-90 | the stored pages are the server's first answers in order; every page but the last has a truthy token; request `i` carries the token of page `i - 1`; the loop ends in exactly one of three ways: a builder error, a falsy answer (sent, not stored) or a page without a truthy token |
| Videos.FirstCallFails | metrics/utils/api_resources/videos.py:81-87 | a falsy first answer leaves the dictionary empty |
| Videos.TokenIndependentFailure | metrics/utils/api_resources/videos.py:80-81 | a builder whose error does not depend on the token raises on the first call, having sent and stored nothing, or never raises |
| Videos.ListAllVideoId | metrics/utils/api_resources/videos.py:65-92 | the ids are joined with `,`; an empty join raises on the first call and sends nothing; otherwise every request carries that `id` over the API key |
| Videos.ListAllUserRated | metrics/utils/api_resources/videos.py:94-120 | an unrecognised rating raises at once; otherwise every request carries `myRating` over OAuth |
| Videos.ListAllVideoCategories | metrics/utils/api_resources/videos.py:160-187 | an empty join of the category ids raises at once; otherwise every request carries that `id` |
| Channels.ChannelsListRequest | metrics/utils/api_resources/channels.py:33-48 | raises exactly when `mine` is false and there are no channel ids; `mine` wins and is sent as `"true"` over OAuth; ids are sent with the API key |
| Channels.ListChannels | metrics/utils/api_resources/channels.py:15-55 | the built request is the one `ChannelsListRequest` describes |
| Channels.ChannelEntryOf | metrics/utils/api_resources/channels.py:72-96 | one channel's entry raises the date helper's ValueError exactly when its `publishedAt` is missing or empty; otherwise every field is carried over from the resource when present and defaulted (0, `""`, `False`) when missing, the date is the parse of the `Z`-rewritten `publishedAt`, and the topics are `parse_topics` of the topic URLs, one per URL |
| Channels.ProcessRawStats | metrics/utils/api_resources/channels.py:57-98 | the loop computes `ProcessedChannels` |
| Channels.ProcessedChannelsMeaning | metrics/utils/api_resources/channels.py:68-96 | `None` exactly without `items`; an exception exactly when some channel lacks a date; otherwise one key per distinct channel id (`""` when missing), holding the entry of the last channel with that id |
| Channels.ByKeyError | metrics/utils/api_resources/channels.py:85 | every exception of the loop is the date helper's |
| Channels.LikedPlaylistRequest | metrics/utils/api_resources/channels.py:110 | `get_liked_playlist_id` asks for the user's own channel over OAuth |
| Channels.GetLikedPlaylistId | metrics/utils/api_resources/channels.py:100-120 | no items give `""`; a non-empty result is the `likes` playlist of the first channel |
| Channels.LikedPlaylistFirstOnly | metrics/utils/api_resources/channels.py:115-118 | only the first channel of the response is read |
| Playlists.PlaylistsListRequest | metrics/utils/api_resources/playlists.py:41-59 | raises exactly without `mine`, ids or channel id; `mine` (over OAuth) wins over ids, which win over the channel id |
| Playlists.ListPlaylists | metrics/utils/api_resources/playlists.py:18-66 | the built request is the one `PlaylistsListRequest` describes |
| Playlists.PlaylistEntryOf | metrics/utils/api_resources/playlists.py:83-101 | raises exactly without a publication date; the entry's `id` is the playlist's key; every other field is carried over when present and defaults to 0 or `""` when missing; the date is the parse of the `Z`-rewritten `publishedAt` |
| Playlists.ProcessRawPlaylist | metrics/utils/api_resources/playlists.py:68-102 | the loop computes `ProcessedPlaylists` |
| Playlists.ProcessedPlaylistsMeaning | metrics/utils/api_resources/playlists.py:79-101 | `None` exactly without `items`; an exception exactly when some playlist lacks a date; otherwise one key per distinct id, whose entry is that of the last playlist with the id and whose `id` field is the key |
| Playlists.ByKeyError | metrics/utils/api_resources/playlists.py:83-101 | every exception of the loop is the date helper's |
| PlaylistItems.PlaylistItemsListRequest | metrics/utils/api_resources/playlistitems.py:33-49 | raises exactly without a non-empty playlist id; otherwise sends `playlistId` over OAuth |
| PlaylistItems.ListPlaylistItems | metrics/utils/api_resources/playlistitems.py:15-50 | the built request is the one `PlaylistItemsListRequest` describes |
| PlaylistItems.ItemEntryOf | metrics/utils/api_resources/playlistitems.py:67-91 | raises exactly when either publication date is missing; the entry's `videoId` is the item's; both dates are the parses of their `Z`-rewritten strings; every other field is carried over when present and defaults to 0 or `""` when missing |
| PlaylistItems.ProcessRawItems | metrics/utils/api_resources/playlistitems.py:52-92 | the loop computes `ProcessedItems` |
| PlaylistItems.ProcessedItemsMeaning | metrics/utils/api_resources/playlistitems.py:63-91 | `None` exactly without `items`; items without a video id are skipped unread; an exception exactly when a kept item lacks a date; otherwise the keys are exactly the non-empty video ids, each holding the last such item's entry |
| PlaylistItems.ByKeyError | metrics/utils/api_resources/playlistitems.py:67-91 | every exception of the loop is the date helper's |
| Subscriptions.SubscriptionsListRequest | metrics/utils/api_resources/subscriptions.py:40-56 | raises exactly without `mine` or a channel id; `mine` (over OAuth) wins; `order` is always sent |
| Subscriptions.ListSubscriptions | metrics/utils/api_resources/subscriptions.py:17-63 | the built request is the one `SubscriptionsListRequest` describes |
| Subscriptions.StreamRequest | metrics/utils/api_resources/subscriptions.py:81-87 | the generator's request is one the builder accepts without raising |
| Subscriptions.StreamUserSubscriptions | metrics/utils/api_resources/subscriptions.py:65-97 | run to the end, the generator yields the items of the pages of `StreamFrom`, in order, and sends its requests |
| Subscriptions.StreamRunAfter | metrics/utils/api_resources/subscriptions.py:79-97 | what was yielded and sent before only comes in front of what the rest does |
| Subscriptions.StreamPages | metrics/utils/api_resources/subscriptions.py:79-96 | the pages yielded are the server's first answers in order, each with items; every page but the last has a truthy token |
| Subscriptions.StreamSent | metrics/utils/api_resources/subscriptions.py:79-96 | one request per page yielded, plus possibly the one whose answer had no items; request `i` carries the token of page `i - 1` |
| Subscriptions.StreamStops | metrics/utils/api_resources/subscriptions.py:89-96 | the generator stops at an answer without items or after a page without a truthy token |
| Subscriptions.StreamRequestsAreMine | metrics/utils/api_resources/subscriptions.py:81-87 | every request asks for the user's own subscriptions over OAuth, 50 a page, in the given order, with `pageToken` exactly when truthy |
| Keyed.ByKeyFails | metrics/utils/api_resources/channels.py:72-96 | the dictionary-filling loop raises exactly when some kept item's value raises |
| Keyed.ByKeyContents | metrics/utils/api_resources/channels.py:72-96 | the keys are exactly those of the kept items, each holding the value of the last kept item with that key |
| Keyed.ByKeyAll | metrics/utils/api_resources/playlists.py:83-101 | a relation between every kept item's key and value holds for every stored key and value |
| Keyed.ByKeyStaysFailed | metrics/utils/api_resources/channels.py:85 | once an item raises, the rest are not visited |
| DateHelper.UtcText | metrics/utils/date_helper.py:19 | the text handed to `fromisoformat` holds no `Z` |
| DateHelper.IsoStrToDatetime | metrics/utils/date_helper.py:2-22 | raises `ValueError("No date string provided.")` exactly for a missing or empty string; otherwise gives the parse of the text with `Z` rewritten, `None` when that does not parse |
| TopicHelper.ParseTopicUrls | metrics/utils/topic_helper.py:5-16 | a missing `topicCategories` gives no labels; otherwise exactly one label per URL, in order, each the topic label of its URL |
| TopicHelper.LabelUsesLastSegment | metrics/utils/topic_helper.py:11 | a label depends only on the text after the URL's last `/` |
| TopicHelper.LabelHasNoUnderscore | metrics/utils/topic_helper.py:11 | no label contains `_`, since the URL is decoded before `_` is replaced |
| TopicHelper.EncodedUnderscoreIsSpace | metrics/utils/topic_helper.py:11 | an encoded underscore `%5F` is labelled exactly like `_` |
| TopicHelper.LabelIsTitleCased | metrics/utils/topic_helper.py:14 | every label is title-cased: a letter is upper-case exactly when it begins a run of letters |
| TopicHelper.TitleIsTitleCased | metrics/utils/topic_helper.py:14 | `title()` keeps the length and letters, changes only case, and leaves the text title-cased |
| TopicHelper.TitleIdempotent | metrics/utils/topic_helper.py:14 | title-casing twice is title-casing once |
| TopicHelper.SociologySuffixRemoved | metrics/utils/topic_helper.py:12-13 | a one-word topic followed by `_(sociology)` is labelled with that word alone, title-cased |
| TopicHelper.LifestyleExample | metrics/utils/topic_helper.py:10-14 | `.../wiki/Lifestyle_(sociology)` is labelled `Lifestyle` |
| SubscriptionAnalyzer.EntryOf | metrics/services/subscription_analyzer.py:40-48 | one subscription's entry raises exactly without a publication date; the title, thumbnail and counts are carried over when present, the title defaulting to `N/A` and the counts to 0; the date is the parse of the `Z`-rewritten `publishedAt`; `channel_id` is the later key of the literal, `None` when missing |
| SubscriptionAnalyzer.EntriesOfFails | metrics/services/subscription_analyzer.py:44 | the entries raise exactly when some subscription lacks a date, with the date helper's error |
| SubscriptionAnalyzer.GetPaginatedSubscriptions | metrics/services/subscription_analyzer.py:5-58 | returns `Paginated`; it draws from the generator at most one item past the window, and exactly that many when the page is built |
| SubscriptionAnalyzer.Collect | metrics/services/subscription_analyzer.py:28-49 | the loop computes the page of the window `[start, end)` |
| SubscriptionAnalyzer.Visit | metrics/services/subscription_analyzer.py:34-49 | an item before the window is skipped; one inside it adds its entry or raises |
| SubscriptionAnalyzer.ProcessedIsEntries | metrics/services/subscription_analyzer.py:28-49 | what the loop has built after `i` items is the entries of the items from `start` to `i` |
| SubscriptionAnalyzer.WindowFails | metrics/services/subscription_analyzer.py:28-49 | the page raises exactly when an item at a position in `[start, end)` lacks a date; items outside the window are never read |
| SubscriptionAnalyzer.WindowEntry | metrics/services/subscription_analyzer.py:35-49 | entry `k` of the page is the entry of the item at position `Lo + k`, a position inside the window |
| SubscriptionAnalyzer.WindowCovered | metrics/services/subscription_analyzer.py:35-49 | every item of the stream inside the window has its entry on the page, in stream order |
| SubscriptionAnalyzer.WindowSize | metrics/services/subscription_analyzer.py:21-49 | the page holds one entry per item of the window, at most `end - start` |
| SubscriptionAnalyzer.WindowNext | metrics/services/subscription_analyzer.py:30-32 | there is a next page exactly when the stream has an item at position `end` |
| SubscriptionAnalyzer.PaginatedMeaning | metrics/services/subscription_analyzer.py:21-58 | page `n` covers positions `(n - 1) * size .. n * size - 1` and holds at most `size` entries; it names pages `n + 1` and `n - 1`, has a previous page exactly when `n > 1`, and carries the placeholder |
| ContentAnalyzer.CollectVideoIds | metrics/services/content_analyzer.py:77-84 | the loops collect the truthy video ids of every page, page after page |
| ContentAnalyzer.AppendVideoIds | metrics/services/content_analyzer.py:80-84 | the inner loop appends the truthy ids of one page's items in order |
| ContentAnalyzer.VideoIdsMeaning | metrics/services/content_analyzer.py:81-84 | the ids collected are exactly the non-empty video ids of the items, at most one per item |
| ContentAnalyzer.VideoIdsConcat | metrics/services/content_analyzer.py:79-84 | the ids of consecutive stretches of items follow each other |
| ContentAnalyzer.ChunksCover | metrics/services/content_analyzer.py:92-93 | the chunks together are the ids, each once and in order |
| ContentAnalyzer.ChunkSizes | metrics/services/content_analyzer.py:90-93 | every chunk holds between 1 and 50 ids |
| ContentAnalyzer.ChunkAt | metrics/services/content_analyzer.py:92-93 | chunk `k` is `ids[50k : 50k + 50]` |
| ContentAnalyzer.ChunkCount | metrics/services/content_analyzer.py:92 | there are ⌈n / 50⌉ chunks |
| ContentAnalyzer.ChunkQueryIsListVideo | metrics/services/content_analyzer.py:94-97 | each chunk's request is what `list_video(part, video_ids=",".join(chunk), max_results=50)` builds |
| ContentAnalyzer.CountTopics | metrics/services/content_analyzer.py:99-103 | `Counter.update` with every video's parsed topics gives the multiset of those topics |
| ContentAnalyzer.GetTopicFreqsInPlaylist | metrics/services/content_analyzer.py:66-105 | the counts and requests are `TopicFreqs` and `TopicRequests`; without video ids nothing is sent and nothing is counted |
| ContentAnalyzer.TopicFreqsTotal | metrics/services/content_analyzer.py:99-103 | the counts add up to the number of topic URLs of the videos answered |
| ContentAnalyzer.TopicFreqsSource | metrics/services/content_analyzer.py:97-103 | a topic is counted exactly when the answer to some chunk has it; failed calls add nothing |
| ContentAnalyzer.VideoCategoryIds | metrics/services/content_analyzer.py:140-143 | the inner loop gives the truthy category ids of one answer's videos |
| ContentAnalyzer.CollectCategoryIds | metrics/services/content_analyzer.py:133-143 | the chunk loop sends one request per chunk and collects the category ids of the answers |
| ContentAnalyzer.UniqueMeaning | metrics/services/content_analyzer.py:149 | `list(set(ids))` holds every id once and nothing else |
| ContentAnalyzer.CategoryQueryIsListCategory | metrics/services/content_analyzer.py:150-152 | the category call is what `list_video_category(part="snippet", category_ids=...)` builds |
| ContentAnalyzer.MapCategoryNames | metrics/services/content_analyzer.py:154-160 | the loop fills `category_id_to_name` as `CategoryNames` describes |
| ContentAnalyzer.CategoryNamesMeaning | metrics/services/content_analyzer.py:154-160 | the dictionary holds exactly the ids of categories with both a truthy id and a truthy title, each mapping to the last such title |
| ContentAnalyzer.GetCategoryFreqsInPlaylist | metrics/services/content_analyzer.py:107-168 | the counts and requests are `CategoryFreqs` and `CategoryRequests`; without video ids nothing is sent; without category ids no category call is made; either way nothing is counted |
| ContentAnalyzer.KnownIndicesNames | metrics/services/content_analyzer.py:163-166 | the known indices are every index whose id the dictionary knows, once each and in increasing order, and the `j`-th counted name is that of the `j`-th known index |
| ContentAnalyzer.NamesOfIdsMeaning | metrics/services/content_analyzer.py:163-166 | every occurrence of a known id adds exactly one copy of its name, in order, and nothing else is added; so the number of names equals the number of known indices, and a name is counted exactly for the ids the dictionary maps to it |
| ContentAnalyzer.CategoryFreqsMeaning | metrics/services/content_analyzer.py:145-166 | the counts add up to exactly the number of collected category ids the dictionary knows (at most the number collected), and count only names the category call answered |
| ActivityAnalyzer.EntryOf | metrics/services/activity_analyzer.py:45-67 | a seed is kept only when it is a video; a seed thumbnail only comes with a truthy seed id; the id, title and reason are read from the recommendation, the thumbnail is its `medium` thumbnail, and a truthy seed id's thumbnail is the `default` thumbnail of the first item the seed lookup answers |
| ActivityAnalyzer.GetRecommendedActivitiesContext | metrics/services/activity_analyzer.py:9-74 | the `activities.list` call carries the part, size and token; the result is `ContextOf` the answer; the seed lookups are those of a prefix of the items, of all of them when it returns |
| ActivityAnalyzer.RecommendedFails | metrics/services/activity_analyzer.py:35-38 | the loop raises exactly when a recommendation lacks `contentDetails`, with a KeyError for that key |
| ActivityAnalyzer.RecommendedContents | metrics/services/activity_analyzer.py:33-67 | the list holds one entry per activity recommending a video, in item order |
| ActivityAnalyzer.KeptMeaning | metrics/services/activity_analyzer.py:36-44 | the activities kept are exactly the recommendations of a video |
| ActivityAnalyzer.LookupsMeaning | metrics/services/activity_analyzer.py:52-58 | only a kept activity with a truthy video seed id is looked up, with that id |
| ActivityAnalyzer.NoItemsNoVideos | metrics/services/activity_analyzer.py:33-69 | a missing answer or one without `items` gives no videos and no lookups; a missing answer gives no token |
| ActivityAnalyzer.StreamRecommendedActivities | metrics/services/activity_analyzer.py:76-95 | run to the end, the generator yields the videos of the contexts of `StreamFrom`, sends its calls and ends with its exception |
| ActivityAnalyzer.StreamRunAfter | metrics/services/activity_analyzer.py:86-95 | what was gone through before only comes in front of what the rest does |
| ActivityAnalyzer.StreamContexts | metrics/services/activity_analyzer.py:87-91 | context `i` is what the answer to call `i` gives |
| ActivityAnalyzer.StreamContinues | metrics/services/activity_analyzer.py:93-95 | every context but the last has a truthy token |
| ActivityAnalyzer.StreamEnds | metrics/services/activity_analyzer.py:86-95 | the generator ends after a context without a truthy token, or with the exception of the call after the last context |
| ActivityAnalyzer.StreamCalls | metrics/services/activity_analyzer.py:86-95 | one call per context, plus the one that raised; each asks for 50 activities with the token of the context before it |
| PercentEncoding.DecodeEncodeRoundTrip | metrics/static/metrics/activities.js:15 | `decodeURIComponent(encodeURIComponent(s)) === s` |
| PercentEncoding.UnquoteEncodeRoundTrip | metrics/utils/topic_helper.py:11 | `unquote` inverts `encodeURIComponent` as well |
| PercentEncoding.UnquoteExtendsDecode | metrics/utils/topic_helper.py:11 | wherever `decodeURIComponent` succeeds, `unquote` yields the same text |
| PercentEncoding.DecodeWithoutPercent | metrics/utils/topic_helper.py:11 | text without `%` decodes to itself, both ways |
| PercentEncoding.EncodedAlphabet | metrics/static/metrics/activities.js:15 | encoded text holds only unreserved characters, `%` and hexadecimal digits |
| Cookies.Trim | metrics/static/metrics/activities.js:12 | `trim()` leaves no space at either end, and is empty exactly for all-space text |
| Cookies.TrimStrips | metrics/static/metrics/activities.js:12 | `trim()` removes exactly the surrounding spaces of a piece |
| Cookies.SubstringTest | metrics/static/metrics/activities.js:14 | the `substring` comparison is "begins with `name=`" |
| Cookies.ValueOf | metrics/static/metrics/activities.js:15 | the value of a matching piece is its rest read by `decodeURIComponent`, whose URIError propagates |
| Cookies.GetCookie | metrics/static/metrics/activities.js:7-21 | the loop over the pieces returns `CookieValue`, leaving at the first match |
| Cookies.LookupMeaning | metrics/static/metrics/activities.js:9-20 | `null` exactly when no piece is the cookie; otherwise the value of the first piece that is, or URIError |
| Cookies.CookieRoundTrip | metrics/static/metrics/activities.js:7-21 | the cookie `name=encodeURIComponent(value)` reads back as `value` |
| Cookies.CookieBehindAnother | metrics/static/metrics/activities.js:10-16 | it reads back as well behind another cookie, written `other; name=value` |
| Cookies.MalformedValue | metrics/static/metrics/activities.js:15 | a lone `%` in the value makes `getCookie` throw |
| ActivitiesPage.Url | metrics/static/metrics/activities.js:28-31 | every request goes to the view's URL |
| ActivitiesPage.UrlRoundTrip | metrics/static/metrics/activities.js:28-31 | the URL carries the stored token back exactly when that token is truthy |
| ActivitiesPage.UrlFirstPage | metrics/static/metrics/activities.js:28-31 | the first page is asked for exactly when the token is not truthy |
| ActivitiesPage.Page.constructor | metrics/static/metrics/activities.js:4-5 | the token is `null`, no request is in flight, the container is empty |
| ActivitiesPage.Page.FetchRecommendedVideos | metrics/static/metrics/activities.js:23-39 | nothing while a request is in flight; otherwise raises the flag and shows the spinner, and starts the request for the stored token with the CSRF cookie, or throws reading it with the flag left raised |
| ActivitiesPage.Page.Fail | metrics/static/metrics/activities.js:85-90 | the `.catch` handler lowers the flag, hides the spinner and replaces the content with the failure notice |
| ActivitiesPage.Page.Settle | metrics/static/metrics/activities.js:40-90 | a 401 sends the browser to `/`; a reply that is not ok ends in the failure notice; otherwise the token is stored, the cards are appended, the flag is lowered, and the empty-result notice replaces an empty container on a last page |
| ActivitiesPage.Page.OnScroll | metrics/static/metrics/activities.js:94-99 | near the bottom, with no request in flight and a token that is not `null` (`undefined` passes), a fetch starts; otherwise nothing changes |
| ActivitiesPage.Open | metrics/static/metrics/activities.js:102 | the initial load asks for the first page |
| ActivitiesPage.ScrollScenario | metrics/static/metrics/activities.js:28-31 | after a first answer naming a next page, the scroll asks for that page |
| ActivitiesPage.MissingTokenScenario | metrics/static/metrics/activities.js:50-96 | after an answer without a `next_page_token` key the token is `undefined`: the scroll stays armed and asks for the first page again |
| ActivitiesPage.NullTokenScenario | metrics/static/metrics/activities.js:50-96 | after an answer whose `next_page_token` is `null` the scroll starts no request |
| ActivitiesPage.StuckAfterCookieError | metrics/static/metrics/activities.js:24-36 | a `csrftoken` cookie `decodeURIComponent` rejects throws on the initial load and leaves the flag raised, so no scroll starts a request |
| LegacyActivitiesPage.FetchRecommendedVideos | static/metrics/activities.js:23-36 | like the later copy, but the request always goes to the fixed URL, whatever token is stored |
| LegacyActivitiesPage.OnScroll | static/metrics/activities.js:87-92 | the same scroll test as the later copy, starting this copy's fetch |
| LegacyActivitiesPage.Open | static/metrics/activities.js:95 | the initial load asks for the fixed URL |
| LegacyActivitiesPage.RefetchScenario | static/metrics/activities.js:28 | after a first answer naming a next page, the scroll sends the first request again; if the view answers it with the same first page, the container holds those ten cards twice and the scroll stays armed |

## Left out

- Network and HTTP: `_make_request` and its error handling (an HTTP error gives
  `None`). `YouTubeClient` and the OAuth credentials are abstracted: a request is the
  value a builder returns, and an answer is an entry of the server's script or a value
  of a given function.
- Calls that fail as written: `client.playlist_items.list_all`
  (content_analyzer.py:77,118), `client.activities.list` (activity_analyzer.py:27) and
  `client.videos.list` (activity_analyzer.py:56) name methods the source does not
  define. `PlaylistItems` has only `list` and `process_raw_items`, `Videos` has no
  `list`, and `Activities` has only `__init__(self)` and `stream_user_activities`.
  Besides, api_client.py:13 imports `Activities` and `PlaylistItems` from a package
  whose `__init__.py` does not export them, and api_client.py:52 calls `Activities(self)`
  against a one-argument `__init__`. So these paths raise as written. The model assumes
  methods with the evident meaning in their place and takes their answers as inputs:
  the playlist's pages, the answer to the activities call, and the seed lookup function.
- Parsing: Python's `datetime.fromisoformat` is not reimplemented. It is the parameter
  `fromIsoFormat`, and `None` stands for its ValueError.
- JSON: in the Python code, a `null` value is treated like a missing key (the page
  keeps them apart: `ActivitiesPage.JsToken`). Counts from the API are integers.
  No types other than the keys the code reads are modelled.
- Generators: `stream_user_subscriptions` and `stream_recommended_activities` are
  run to the end. Laziness, and a consumer that stops early, are not modelled.
  `get_paginated_subscriptions` receives the yielded items as a sequence and reports
  how many it drew.
- Bounds: unbounded `while True` loops end because the script is finite. A server that
  keeps answering with truthy tokens forever is not modelled.
- ContentAnalyzer.Unique: does not model the unspecified iteration order of a Python
  `set`. It lists the distinct ids in first-occurrence order. Only membership and
  distinctness are stated, and the counts do not depend on the order.
- TopicHelper.Lower, TopicHelper.Title: does not model Unicode case mapping. `str.lower`
  and `str.title` act on ASCII letters only, and every other character is uncased.
- PercentEncoding.EncodeUriComponent: does not model UTF-16. JavaScript strings are
  UTF-16 code units while Dafny characters are Unicode scalar values, so lone
  surrogates, and the URIError `encodeURIComponent` throws for them, do not exist here.
- ActivityAnalyzer.GetRecommendedActivitiesContext: on the KeyError path it states the
  seed lookups only as those of some prefix of the items, not which prefix.
- Card HTML: the markup of each video card the page appends is not modelled; the
  container holds only the count of cards.
- Scroll offsets: `scrollTop`, `scrollHeight` and `clientHeight` are exact `real`
  numbers, not IEEE doubles; rounding is not modelled.
- Page runtime: the DOM is not modelled. `console.error`, the notice texts and the
  `Content-Type` header are left out. The spinner is a boolean, and `fetch` is split
  at its `await` points into `FetchRecommendedVideos` and `Settle`. Concurrency
  between handlers beyond the `isLoading` guard is not modelled.
- Outside this model: the Django views, `api_client`, authentication, the templates
  and the other analysers are not part of it.

## Findings

| source | as written | input that shows it | evidently intended | confidence | as-written member | corrected member |
|---|---|---|---|---|---|---|
| static/metrics/activities.js:28 | the request URL is fixed and never carries `next_page_token`, while the scroll handler (lines 87-92) still fires on a token that is not `null` | a first answer with `next_page_token` `"CAoQAA"` and ten videos, then a scroll to the bottom: the second request is the first one again. The view that answers it (`get_recommended_videos_context`, imported at metrics/views.py:15) is not defined in the source, and metrics/views.py:121 pops the `recommended_video_ids` session key, so what it answers is an assumption: the same first page, giving its ten cards twice | the request for the next page carries `?page_token=CAoQAA`, as in the later copy | not executed | LegacyActivitiesPage.RefetchScenario | ActivitiesPage.ScrollScenario |
