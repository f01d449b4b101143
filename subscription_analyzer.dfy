/** `metrics/services/subscription_analyzer.py`: one page of the subscription list, cut out
    of the stream of subscriptions the generator yields. Page `n` (from 1) holds the items
    at positions `(n - 1) * size .. n * size - 1`; an item past the window only tells that
    there is a next page. */
module SubscriptionAnalyzer {
  import opened Wrappers
  import opened Api
  import opened DateHelper
  import opened Subscriptions

  const Placeholder := "placeholder"
  const MissingTitle := "N/A"

  /** The dictionary built for one subscription on the page. */
  datatype SubscriptionEntry = SubscriptionEntry(
    channelTitle: string, channelId: Option<string>, profilePictureUrl: Option<string>,
    publishedAt: Option<DateTime>, totalItemCount: int, newItemCount: int)

  /** The context `get_paginated_subscriptions` returns. */
  datatype PageContext = PageContext(
    subscriptions: seq<SubscriptionEntry>, subbedChannelInfo: string, hasNextPage: bool,
    nextPageNumber: int, previousPageNumber: int, hasPreviousPage: bool)

  function SnippetOf(s: Subscription): SubscriptionSnippet
  {
    s.snippet.GetOr(SubscriptionSnippet(None, None, None, None))
  }

  function DetailsOf(s: Subscription): SubscriptionContentDetails
  {
    s.contentDetails.GetOr(SubscriptionContentDetails(None, None))
  }

  /** `snippet.resourceId.channelId`, `None` when any level is missing. Of the two
      `channel_id` keys of the dictionary literal, this later one is the one kept. */
  function ChannelIdOf(s: Subscription): Option<string>
  {
    match SnippetOf(s).resourceId
    case Some(resource) => resource.channelId
    case None => None
  }

  /** One subscription's entry; only the date can raise. */
  function EntryOf(fromIsoFormat: string -> Option<DateTime>, s: Subscription): (r: Result<SubscriptionEntry>)
    ensures r.Err? <==> !Truthy(SnippetOf(s).publishedAt)
    ensures r.Err? ==> r.error == ValueError(NoDateMessage)
    ensures r.Ok? && SnippetOf(s).title.None? ==> r.value.channelTitle == MissingTitle
    ensures r.Ok? && DetailsOf(s).totalItemCount.None? ==> r.value.totalItemCount == 0
    ensures r.Ok? && DetailsOf(s).newItemCount.None? ==> r.value.newItemCount == 0
    ensures r.Ok? ==> r.value.channelId == ChannelIdOf(s)
    ensures r.Ok? && r.value.channelId.Some? ==>
      SnippetOf(s).resourceId.Some? && SnippetOf(s).resourceId.value.channelId == r.value.channelId
    ensures r.Ok? ==>
      var e := r.value;
      && e.publishedAt == fromIsoFormat(UtcText(SnippetOf(s).publishedAt.value))
      && (SnippetOf(s).title.Some? ==> e.channelTitle == SnippetOf(s).title.value)
      && e.profilePictureUrl == DefaultThumbnailUrl(SnippetOf(s).thumbnails)
      && (DetailsOf(s).totalItemCount.Some? ==> e.totalItemCount == DetailsOf(s).totalItemCount.value)
      && (DetailsOf(s).newItemCount.Some? ==> e.newItemCount == DetailsOf(s).newItemCount.value)
  {
    var snippet := SnippetOf(s);
    var details := DetailsOf(s);
    match IsoStrToDatetime(fromIsoFormat, snippet.publishedAt)
    case Err(e) => Err(e)
    case Ok(date) =>
      Ok(SubscriptionEntry(snippet.title.GetOr(MissingTitle), ChannelIdOf(s), DefaultThumbnailUrl(snippet.thumbnails),
                           date, details.totalItemCount.GetOr(0), details.newItemCount.GetOr(0)))
  }

  /** The entries of `subs`, in order, or the first exception. */
  function EntriesOf(fromIsoFormat: string -> Option<DateTime>, subs: seq<Subscription>): Result<seq<SubscriptionEntry>>
    decreases |subs|
  {
    if subs == [] then Ok([])
    else
      match EntriesOf(fromIsoFormat, subs[..|subs| - 1])
      case Err(e) => Err(e)
      case Ok(es) =>
        match EntryOf(fromIsoFormat, subs[|subs| - 1])
        case Err(e) => Err(e)
        case Ok(x) => Ok(es + [x])
  }

  /** A subscription without a publication date. */
  predicate Undated(s: Subscription)
  {
    !Truthy(SnippetOf(s).publishedAt)
  }

  /** The entries raise exactly when some subscription lacks a date, and then with the
      date helper's error. */
  lemma {:induction false} EntriesOfFails(fromIsoFormat: string -> Option<DateTime>, subs: seq<Subscription>)
    ensures EntriesOf(fromIsoFormat, subs).Err? <==> exists k :: 0 <= k < |subs| && Undated(subs[k])
    ensures EntriesOf(fromIsoFormat, subs).Err? ==> EntriesOf(fromIsoFormat, subs).error == ValueError(NoDateMessage)
    decreases |subs|
  {
    if subs != [] {
      var n := |subs| - 1;
      var front := subs[..n];
      EntriesOfFails(fromIsoFormat, front);
      assert forall k :: 0 <= k < n ==> front[k] == subs[k];
    }
  }

  /** Otherwise there is one entry per subscription, in the same order. */
  lemma {:induction false} EntriesOfOrder(fromIsoFormat: string -> Option<DateTime>, subs: seq<Subscription>)
    requires EntriesOf(fromIsoFormat, subs).Ok?
    ensures var es := EntriesOf(fromIsoFormat, subs).value;
      |es| == |subs| && forall k :: 0 <= k < |subs| ==> EntryOf(fromIsoFormat, subs[k]) == Ok(es[k])
    decreases |subs|
  {
    if subs != [] {
      var n := |subs| - 1;
      var front := subs[..n];
      EntriesOfOrder(fromIsoFormat, front);
      var es := EntriesOf(fromIsoFormat, subs).value;
      assert es[..n] == EntriesOf(fromIsoFormat, front).value;
      forall k | 0 <= k < n
        ensures EntryOf(fromIsoFormat, subs[k]) == Ok(es[k])
      {
        assert front[k] == subs[k];
      }
    }
  }

  /** `x` clamped into `0 .. n`. */
  function Clamp(x: int, n: nat): (c: nat)
    ensures c <= n
    ensures 0 <= x <= n ==> c == x
  {
    if x < 0 then 0 else if x > n then n else x
  }

  /** Position of the first item of page `pageNum`. */
  function StartIndex(pageNum: int, itemsPerPage: int): int
  {
    (pageNum - 1) * itemsPerPage
  }

  /** The positions of the stream the loop processes, `[Lo, Hi)`: those in `[start, end)`
      that the stream has. */
  function Hi(n: nat, end: int): nat
  {
    Clamp(end, n)
  }

  function Lo(n: nat, start: int, end: int): nat
  {
    Clamp(start, Hi(n, end))
  }

  /** Whether the stream yields an item at a position at or past `end`. */
  predicate HasItemPastWindow(n: nat, end: int)
  {
    n > 0 && n - 1 >= end
  }

  /** The page made of the items at positions `[start, end)`. */
  function Window(fromIsoFormat: string -> Option<DateTime>, stream: seq<Subscription>, start: int, end: int,
                  pageNum: int): Result<PageContext>
  {
    match EntriesOf(fromIsoFormat, stream[Lo(|stream|, start, end)..Hi(|stream|, end)])
    case Err(e) => Err(e)
    case Ok(subs) =>
      Ok(PageContext(subs, Placeholder, HasItemPastWindow(|stream|, end), pageNum + 1, pageNum - 1, pageNum > 1))
  }

  /** What `get_paginated_subscriptions` returns for a stream that yields `stream`. */
  function Paginated(fromIsoFormat: string -> Option<DateTime>, stream: seq<Subscription>,
                     pageNum: int, itemsPerPage: int): Result<PageContext>
  {
    var start := StartIndex(pageNum, itemsPerPage);
    Window(fromIsoFormat, stream, start, start + itemsPerPage, pageNum)
  }

  /** `get_paginated_subscriptions`; `drawn` is the number of items taken from the
      generator, the one that shows a next page included. */
  method GetPaginatedSubscriptions(fromIsoFormat: string -> Option<DateTime>, stream: seq<Subscription>,
                                   pageNum: int, itemsPerPage: int)
    returns (r: Result<PageContext>, drawn: nat)
    ensures r == Paginated(fromIsoFormat, stream, pageNum, itemsPerPage)
    ensures var end := StartIndex(pageNum, itemsPerPage) + itemsPerPage;
      && drawn <= |stream|
      && drawn <= Hi(|stream|, end) + 1
      && (r.Ok? ==> drawn == if HasItemPastWindow(|stream|, end) then Hi(|stream|, end) + 1 else |stream|)
  {
    var startIdx := StartIndex(pageNum, itemsPerPage);
    var endIdx := startIdx + itemsPerPage;
    r, drawn := Collect(fromIsoFormat, stream, startIdx, endIdx, pageNum);
  }

  /** The loop of `get_paginated_subscriptions`, for the window `[startIdx, endIdx)`. */
  method Collect(fromIsoFormat: string -> Option<DateTime>, stream: seq<Subscription>,
                 startIdx: int, endIdx: int, pageNum: int)
    returns (r: Result<PageContext>, drawn: nat)
    ensures r == Window(fromIsoFormat, stream, startIdx, endIdx, pageNum)
    ensures drawn <= |stream| && drawn <= Hi(|stream|, endIdx) + 1
    ensures r.Ok? ==> drawn == if HasItemPastWindow(|stream|, endIdx) then Hi(|stream|, endIdx) + 1 else |stream|
  {
    var processed: seq<SubscriptionEntry> := [];
    var hasNextPage := false;
    var i := 0;
    while i < |stream|
      invariant 0 <= i <= Hi(|stream|, endIdx)
      invariant !hasNextPage
      invariant Processed(fromIsoFormat, stream, startIdx, i) == Ok(processed)
      decreases |stream| - i
    {
      if i >= endIdx {
        hasNextPage := true;
        break;
      }
      var step := Visit(fromIsoFormat, stream, startIdx, i, processed);
      if step.Err? {
        WindowFailed(fromIsoFormat, stream, startIdx, endIdx, pageNum, i + 1, step.error);
        return Err(step.error), i + 1;
      }
      processed := step.value;
      i := i + 1;
    }
    WindowDone(fromIsoFormat, stream, startIdx, endIdx, pageNum, i, processed, hasNextPage);
    drawn := if hasNextPage then i + 1 else i;
    r := Ok(PageContext(processed, Placeholder, hasNextPage, pageNum + 1, pageNum - 1, pageNum > 1));
  }

  /** The loop body for an item before the end of the window: an item from the start of
      the window on adds its entry or raises, one before it is skipped. */
  method Visit(fromIsoFormat: string -> Option<DateTime>, stream: seq<Subscription>, startIdx: int, i: nat,
               processed: seq<SubscriptionEntry>) returns (r: Result<seq<SubscriptionEntry>>)
    requires i < |stream| && Processed(fromIsoFormat, stream, startIdx, i) == Ok(processed)
    ensures r == Processed(fromIsoFormat, stream, startIdx, i + 1)
    ensures r.Err? ==> startIdx <= i
  {
    if i >= startIdx {
      var entry := EntryOf(fromIsoFormat, stream[i]);
      if entry.Err? {
        return Err(entry.error);
      }
      return Ok(processed + [entry.value]);
    }
    return Ok(processed);
  }

  /** What the loop has built once it has read `i` items: the entries of those from
      position `start` on, or the first exception. */
  function Processed(fromIsoFormat: string -> Option<DateTime>, stream: seq<Subscription>, start: int, i: nat)
    : Result<seq<SubscriptionEntry>>
    requires i <= |stream|
    decreases i
  {
    if i == 0 then Ok([])
    else
      match Processed(fromIsoFormat, stream, start, i - 1)
      case Err(e) => Err(e)
      case Ok(es) =>
        if i - 1 < start then Ok(es)
        else
          match EntryOf(fromIsoFormat, stream[i - 1])
          case Err(e) => Err(e)
          case Ok(x) => Ok(es + [x])
  }

  /** The loop's reading is the entries of the items at positions `[start, i)`. */
  lemma {:induction false} ProcessedIsEntries(fromIsoFormat: string -> Option<DateTime>, stream: seq<Subscription>,
                                              start: int, i: nat)
    requires i <= |stream|
    ensures Processed(fromIsoFormat, stream, start, i) == EntriesOf(fromIsoFormat, stream[Clamp(start, i)..i])
    decreases i
  {
    if i > 0 {
      var j := i - 1;
      ProcessedIsEntries(fromIsoFormat, stream, start, j);
      match Processed(fromIsoFormat, stream, start, j)
      case Err(e) =>
        if j >= start {
          WindowStaysFailed(fromIsoFormat, stream, start, j, i, e);
        }
      case Ok(es) =>
        if j < start {
          CollectSkipped(fromIsoFormat, stream, start, j, es);
        } else {
          match EntryOf(fromIsoFormat, stream[j])
          case Err(e) => CollectFailed(fromIsoFormat, stream, start, j, es, e);
          case Ok(x) => CollectStored(fromIsoFormat, stream, start, j, es, x);
        }
    }
  }

  /** The loop raised at an item of the window: the page raises the same way. */
  lemma WindowFailed(fromIsoFormat: string -> Option<DateTime>, stream: seq<Subscription>, start: int, end: int,
                     pageNum: int, i: nat, e: Error)
    requires 0 < i <= Hi(|stream|, end) && start <= i - 1
    requires Processed(fromIsoFormat, stream, start, i) == Err(e)
    ensures Window(fromIsoFormat, stream, start, end, pageNum) == Err(e)
  {
    ProcessedIsEntries(fromIsoFormat, stream, start, i);
    WindowStaysFailed(fromIsoFormat, stream, start, i, Hi(|stream|, end), e);
  }

  /** The loop left with every item of the window read: the page it builds. */
  lemma WindowDone(fromIsoFormat: string -> Option<DateTime>, stream: seq<Subscription>, start: int, end: int,
                   pageNum: int, i: nat, processed: seq<SubscriptionEntry>, hasNextPage: bool)
    requires i <= Hi(|stream|, end)
    requires hasNextPage ==> i >= end && i < |stream|
    requires !hasNextPage ==> i >= |stream|
    requires Processed(fromIsoFormat, stream, start, i) == Ok(processed)
    ensures i == Hi(|stream|, end) && (hasNextPage <==> HasItemPastWindow(|stream|, end))
    ensures Window(fromIsoFormat, stream, start, end, pageNum)
      == Ok(PageContext(processed, Placeholder, hasNextPage, pageNum + 1, pageNum - 1, pageNum > 1))
  {
    ProcessedIsEntries(fromIsoFormat, stream, start, i);
    CollectDone(stream, start, end, i, hasNextPage);
  }

  /** An item inside the window adds its entry. */
  lemma CollectStored(fromIsoFormat: string -> Option<DateTime>, stream: seq<Subscription>, start: int, i: nat,
                      processed: seq<SubscriptionEntry>, x: SubscriptionEntry)
    requires start <= i < |stream| && EntriesOf(fromIsoFormat, stream[Clamp(start, i)..i]) == Ok(processed)
    requires EntryOf(fromIsoFormat, stream[i]) == Ok(x)
    ensures EntriesOf(fromIsoFormat, stream[Clamp(start, i + 1)..i + 1]) == Ok(processed + [x])
  {
    var w := stream[Clamp(start, i)..i + 1];
    assert Clamp(start, i + 1) == Clamp(start, i);
    assert w[..|w| - 1] == stream[Clamp(start, i)..i] && w[|w| - 1] == stream[i];
  }

  /** An item inside the window whose date cannot be read raises. */
  lemma CollectFailed(fromIsoFormat: string -> Option<DateTime>, stream: seq<Subscription>, start: int, i: nat,
                      processed: seq<SubscriptionEntry>, e: Error)
    requires start <= i < |stream| && EntriesOf(fromIsoFormat, stream[Clamp(start, i)..i]) == Ok(processed)
    requires EntryOf(fromIsoFormat, stream[i]) == Err(e)
    ensures Clamp(start, i + 1) == Clamp(start, i)
    ensures EntriesOf(fromIsoFormat, stream[Clamp(start, i + 1)..i + 1]) == Err(e)
  {
    var w := stream[Clamp(start, i)..i + 1];
    assert w[..|w| - 1] == stream[Clamp(start, i)..i] && w[|w| - 1] == stream[i];
  }

  /** An item before the window is not read. */
  lemma CollectSkipped(fromIsoFormat: string -> Option<DateTime>, stream: seq<Subscription>, start: int, i: nat,
                       processed: seq<SubscriptionEntry>)
    requires i < start && i < |stream| && EntriesOf(fromIsoFormat, stream[Clamp(start, i)..i]) == Ok(processed)
    ensures EntriesOf(fromIsoFormat, stream[Clamp(start, i + 1)..i + 1]) == Ok(processed)
  {
    assert Clamp(start, i) == i && Clamp(start, i + 1) == i + 1;
  }

  /** Where the loop stands when it leaves. */
  lemma CollectDone(stream: seq<Subscription>, start: int, end: int, i: nat, hasNextPage: bool)
    requires i <= Hi(|stream|, end)
    requires hasNextPage ==> i >= end && i < |stream|
    requires !hasNextPage ==> i >= |stream|
    ensures i == Hi(|stream|, end)
    ensures hasNextPage <==> HasItemPastWindow(|stream|, end)
    ensures Clamp(start, i) == Lo(|stream|, start, end)
  {
  }

  /** A failed prefix of the window makes the whole window fail the same way. */
  lemma {:induction false} WindowStaysFailed(fromIsoFormat: string -> Option<DateTime>, stream: seq<Subscription>,
                                             start: int, i: nat, hi: nat, e: Error)
    requires i <= hi <= |stream| && Clamp(start, hi) == Clamp(start, i)
    requires EntriesOf(fromIsoFormat, stream[Clamp(start, i)..i]) == Err(e)
    ensures EntriesOf(fromIsoFormat, stream[Clamp(start, hi)..hi]) == Err(e)
    decreases hi - i
  {
    if i < hi {
      var lo := Clamp(start, i);
      assert Clamp(start, i + 1) == lo;
      var w := stream[lo..i + 1];
      assert w[..|w| - 1] == stream[lo..i];
      WindowStaysFailed(fromIsoFormat, stream, start, i + 1, hi, e);
    }
  }

  /** The page fails exactly when one of the items at positions `[start, end)` lacks a
      date; the items outside the window are never read. */
  lemma WindowFails(fromIsoFormat: string -> Option<DateTime>, stream: seq<Subscription>,
                    start: int, end: int, pageNum: int)
    ensures var r := Window(fromIsoFormat, stream, start, end, pageNum);
      && (r.Err? <==> exists i :: 0 <= i < |stream| && start <= i < end && Undated(stream[i]))
      && (r.Err? ==> r.error == ValueError(NoDateMessage))
  {
    var lo, hi := Lo(|stream|, start, end), Hi(|stream|, end);
    var window := stream[lo..hi];
    EntriesOfFails(fromIsoFormat, window);
    if exists k :: 0 <= k < |window| && Undated(window[k]) {
      var k :| 0 <= k < |window| && Undated(window[k]);
      assert stream[lo + k] == window[k];
    }
    if exists i :: 0 <= i < |stream| && start <= i < end && Undated(stream[i]) {
      var i :| 0 <= i < |stream| && start <= i < end && Undated(stream[i]);
      assert window[i - lo] == stream[i];
    }
  }

  /** Otherwise entry `k` of the page is the entry of the item at position `Lo + k`, a
      position inside `[start, end)`: the page keeps stream order. */
  lemma WindowEntry(fromIsoFormat: string -> Option<DateTime>, stream: seq<Subscription>,
                    start: int, end: int, pageNum: int, k: int)
    requires Window(fromIsoFormat, stream, start, end, pageNum).Ok?
    requires 0 <= k < |Window(fromIsoFormat, stream, start, end, pageNum).value.subscriptions|
    ensures var lo := Lo(|stream|, start, end);
      && start <= lo + k < end && lo + k < |stream|
      && EntryOf(fromIsoFormat, stream[lo + k]) == Ok(Window(fromIsoFormat, stream, start, end, pageNum).value.subscriptions[k])
  {
    var lo, hi := Lo(|stream|, start, end), Hi(|stream|, end);
    var subs := WindowSubscriptions(fromIsoFormat, stream, start, end, pageNum);
    WindowBounds(|stream|, start, end);
    SliceEntry(fromIsoFormat, stream, lo, hi, subs, k);
  }

  /** ... and every item at a position inside `[start, end)` has its entry on the page. */
  lemma WindowCovered(fromIsoFormat: string -> Option<DateTime>, stream: seq<Subscription>,
                      start: int, end: int, pageNum: int, i: int)
    requires Window(fromIsoFormat, stream, start, end, pageNum).Ok?
    requires 0 <= i < |stream| && start <= i < end
    ensures var subs := Window(fromIsoFormat, stream, start, end, pageNum).value.subscriptions;
      var lo := Lo(|stream|, start, end);
      && lo <= i < lo + |subs|
      && EntryOf(fromIsoFormat, stream[i]) == Ok(subs[i - lo])
  {
    var lo, hi := Lo(|stream|, start, end), Hi(|stream|, end);
    var subs := WindowSubscriptions(fromIsoFormat, stream, start, end, pageNum);
    WindowBounds(|stream|, start, end);
    assert lo <= i < hi;
    var k := i - lo;
    SliceEntry(fromIsoFormat, stream, lo, hi, subs, k);
    assert stream[lo + k] == stream[i];
  }

  /** The subscriptions of a page that does not raise are the entries of its window. */
  lemma WindowSubscriptions(fromIsoFormat: string -> Option<DateTime>, stream: seq<Subscription>,
                            start: int, end: int, pageNum: int) returns (subs: seq<SubscriptionEntry>)
    requires Window(fromIsoFormat, stream, start, end, pageNum).Ok?
    ensures subs == Window(fromIsoFormat, stream, start, end, pageNum).value.subscriptions
    ensures EntriesOf(fromIsoFormat, stream[Lo(|stream|, start, end)..Hi(|stream|, end)]) == Ok(subs)
  {
    subs := Window(fromIsoFormat, stream, start, end, pageNum).value.subscriptions;
  }

  /** The entry at offset `k` of the items at positions `[lo, hi)`. */
  lemma SliceEntry(fromIsoFormat: string -> Option<DateTime>, stream: seq<Subscription>, lo: nat, hi: nat,
                   subs: seq<SubscriptionEntry>, k: int)
    requires lo <= hi <= |stream| && EntriesOf(fromIsoFormat, stream[lo..hi]) == Ok(subs)
    requires 0 <= k < |subs| || 0 <= k < hi - lo
    ensures |subs| == hi - lo
    ensures EntryOf(fromIsoFormat, stream[lo + k]) == Ok(subs[k])
  {
    var window := stream[lo..hi];
    EntriesOfOrder(fromIsoFormat, window);
    assert stream[lo + k] == window[k];
  }

  /** The positions `[Lo, Hi)` are those of the stream inside `[start, end)`. */
  lemma WindowBounds(n: nat, start: int, end: int)
    ensures Lo(n, start, end) <= Hi(n, end) <= n
    ensures start <= end ==> Hi(n, end) - Lo(n, start, end) <= end - start
    ensures Lo(n, start, end) < Hi(n, end) ==> start <= Lo(n, start, end) && Hi(n, end) <= end
    ensures Lo(n, start, end) <= if start < 0 then 0 else start
    ensures Hi(n, end) == if end < 0 then 0 else if end > n then n else end
  {
  }

  /** A page holds one entry per item of the window. */
  lemma WindowSize(fromIsoFormat: string -> Option<DateTime>, stream: seq<Subscription>,
                   start: int, end: int, pageNum: int)
    requires Window(fromIsoFormat, stream, start, end, pageNum).Ok?
    ensures var subs := Window(fromIsoFormat, stream, start, end, pageNum).value.subscriptions;
      && |subs| == Hi(|stream|, end) - Lo(|stream|, start, end)
      && (start <= end ==> |subs| <= end - start)
  {
    var window := stream[Lo(|stream|, start, end)..Hi(|stream|, end)];
    EntriesOfOrder(fromIsoFormat, window);
  }

  /** There is a next page exactly when the stream has an item at position `end` (at any
      position, when `end` is negative). */
  lemma WindowNext(fromIsoFormat: string -> Option<DateTime>, stream: seq<Subscription>,
                   start: int, end: int, pageNum: int)
    requires Window(fromIsoFormat, stream, start, end, pageNum).Ok?
    ensures var r := Window(fromIsoFormat, stream, start, end, pageNum);
      && (end >= 0 ==> (r.value.hasNextPage <==> end < |stream|))
      && (end < 0 ==> (r.value.hasNextPage <==> |stream| > 0))
  {
  }

  /** The page numbers around page `pageNum`, and the window it covers. */
  lemma PaginatedMeaning(fromIsoFormat: string -> Option<DateTime>, stream: seq<Subscription>,
                         pageNum: int, itemsPerPage: int, start: int)
    requires start == StartIndex(pageNum, itemsPerPage)
    ensures var r := Paginated(fromIsoFormat, stream, pageNum, itemsPerPage);
      && r == Window(fromIsoFormat, stream, start, start + itemsPerPage, pageNum)
      && (r.Ok? ==>
            && (itemsPerPage >= 0 ==> |r.value.subscriptions| <= itemsPerPage)
            && r.value.nextPageNumber == pageNum + 1
            && r.value.previousPageNumber == pageNum - 1
            && (r.value.hasPreviousPage <==> pageNum > 1)
            && r.value.subbedChannelInfo == Placeholder)
  {
    if Paginated(fromIsoFormat, stream, pageNum, itemsPerPage).Ok? {
      WindowSize(fromIsoFormat, stream, start, start + itemsPerPage, pageNum);
    }
  }
}
