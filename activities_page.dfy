/** `metrics/static/metrics/activities.js`: the infinite-scroll page of recommended
    videos. The page's two variables (the next page token and the in-flight flag), the
    spinner, the container of video cards and the browser's location form one object;
    each handler of the page is a method on it. `fetch` is split at its `await` points:
    `FetchRecommendedVideos` starts a request and `Settle` runs the promise chain once
    the reply is there. */
module ActivitiesPage {
  import opened Wrappers
  import Strings
  import Cookies

  const AjaxUrl := "/recommended-videos/ajax/"
  const TokenQuery := "?page_token="
  const CsrfCookie := "csrftoken"
  const ScrollMargin: real := 500.0
  const Unauthorized := 401
  const LoginUrl := "/"

  /** What the container shows besides the cards: nothing, the empty-result notice or
      the failure notice (each written with `innerHTML`, which drops the cards before it). */
  datatype Notice = NoNotice | NoVideosFound | LoadFailed

  /** A started `fetch`: its URL and its `X-CSRFToken` header (`null` without the cookie). */
  datatype FetchCall = FetchCall(url: string, csrfToken: Option<string>)

  /** The page token as the page holds it: `null`, `undefined` (what reading a missing
      `next_page_token` key gives) or a string. */
  datatype JsToken = Null | Undefined | Text(s: string)

  /** JavaScript truthiness of a token: a non-empty string. */
  predicate Truthy(t: JsToken)
  {
    t.Text? && t.s != ""
  }

  /** The parsed JSON of an answer: `next_page_token`, and how many entries
      `recommended_videos` holds (`None` when the key is missing and `forEach` throws). */
  datatype Body = Body(nextPageToken: JsToken, videoCount: Option<nat>)

  /** A settled `fetch`: the HTTP status and what `response.json()` gives (`None` when it
      rejects). */
  datatype Reply = Reply(status: int, body: Option<Body>)

  /** `response.ok`. */
  predicate IsOk(status: int)
  {
    200 <= status <= 299
  }

  /** The reply reaches the end of the second `.then` without throwing. */
  predicate Delivers(reply: Reply)
  {
    IsOk(reply.status) && reply.body.Some? && reply.body.value.videoCount.Some?
  }

  /** The token the second `.then` stores before anything in it can throw. */
  function TokenAfter(reply: Reply, token: JsToken): JsToken
  {
    if IsOk(reply.status) && reply.body.Some? then reply.body.value.nextPageToken else token
  }

  /** The empty-result test, run after the cards were appended: no next page, no video
      in this answer and nothing in the container. */
  predicate ShowsNoVideos(token: JsToken, count: nat, children: nat)
  {
    !Truthy(token) && count == 0 && children == 0
  }

  /** The URL of the request for the page `token` names: the first page without a
      truthy token. */
  function Url(token: JsToken): (url: string)
    ensures Strings.StartsWith(url, AjaxUrl)
  {
    if Truthy(token) then AjaxUrl + TokenQuery + token.s else AjaxUrl
  }

  /** The page token a URL of the view carries, read back. */
  function QueryToken(url: string): Option<string>
  {
    var head := AjaxUrl + TokenQuery;
    if Strings.StartsWith(url, head) && |url| > |head| then Some(url[|head|..]) else None
  }

  /** The token the URL carries is the one asked for, exactly when that is truthy. */
  lemma UrlRoundTrip(token: JsToken)
    ensures QueryToken(Url(token)) == if Truthy(token) then Some(token.s) else None
  {
    var head := AjaxUrl + TokenQuery;
    if Truthy(token) {
      assert Url(token)[..|head|] == head;
      assert Url(token)[|head|..] == token.s;
    }
  }

  /** The request goes to the first page exactly when the token is not truthy. */
  lemma UrlFirstPage(token: JsToken)
    ensures Url(token) == AjaxUrl <==> !Truthy(token)
  {
    if Truthy(token) {
      assert |Url(token)| > |AjaxUrl|;
    }
  }

  class Page {
    var nextPageToken: JsToken
    var isLoading: bool
    var spinnerShown: bool
    /** The video cards in the container. */
    var cards: nat
    var notice: Notice
    /** Where `window.location.href` was sent, if anywhere. */
    var location: Option<string>

    /** `recommendedVideosContainer.children.length`. */
    function Children(): nat
      reads this
    {
      cards + (if notice == NoNotice then 0 else 1)
    }

    /** The spinner shows exactly while a request is in flight. */
    predicate Valid()
      reads this
    {
      isLoading == spinnerShown
    }

    /** The page as `DOMContentLoaded` finds it. */
    constructor ()
      ensures Valid()
      ensures nextPageToken == Null && !isLoading && cards == 0 && notice == NoNotice && location == None
    {
      nextPageToken := Null;
      isLoading := false;
      spinnerShown := false;
      cards := 0;
      notice := NoNotice;
      location := None;
    }

    /** `fetchRecommendedVideos` up to the call of `fetch`: nothing while a request is in
        flight; otherwise the flag is raised, and the request for the stored token goes
        out with the CSRF cookie, unless reading that cookie throws, which leaves the flag
        raised. */
    method FetchRecommendedVideos(cookie: string) returns (call: Option<FetchCall>, raised: Option<Error>)
      requires Valid()
      modifies this
      ensures Valid()
      ensures old(isLoading) ==> call.None? && raised.None? && unchanged(this)
      ensures !old(isLoading) ==>
        && isLoading
        && nextPageToken == old(nextPageToken) && cards == old(cards) && notice == old(notice)
        && location == old(location)
        && match Cookies.CookieValue(cookie, CsrfCookie)
           case Err(e) => call.None? && raised == Some(e)
           case Ok(v) => call == Some(FetchCall(Url(old(nextPageToken)), v)) && raised.None?
    {
      if isLoading {
        return None, None;
      }
      isLoading := true;
      spinnerShown := true;
      var url := AjaxUrl;
      if Truthy(nextPageToken) {
        url := url + TokenQuery + nextPageToken.s;
      }
      var csrf := Cookies.GetCookie(cookie, CsrfCookie);
      if csrf.Err? {
        return None, Some(csrf.error);
      }
      return Some(FetchCall(url, csrf.value)), None;
    }

    /** The `.catch` handler. */
    method Fail()
      modifies this
      ensures !isLoading && !spinnerShown && notice == LoadFailed && cards == 0
      ensures nextPageToken == old(nextPageToken) && location == old(location)
    {
      isLoading := false;
      spinnerShown := false;
      notice := LoadFailed;
      cards := 0;
    }

    /** The promise chain on a settled reply: a reply that is not `ok` throws (after
        sending a 401 to the login page); otherwise the token is stored, the cards are
        appended and the flag lowered, and the empty-result notice replaces the content
        of a container left empty on a last page; anything that throws ends in `.catch`. */
    method Settle(reply: Reply)
      modifies this
      ensures Valid() && !isLoading
      ensures location == if reply.status == Unauthorized then Some(LoginUrl) else old(location)
      ensures nextPageToken == TokenAfter(reply, old(nextPageToken))
      ensures !Delivers(reply) ==> notice == LoadFailed && cards == 0
      ensures Delivers(reply) ==>
        var count := reply.body.value.videoCount.value;
        if ShowsNoVideos(nextPageToken, count, old(Children()) + count)
        then notice == NoVideosFound && cards == 0
        else notice == old(notice) && cards == old(cards) + count
    {
      if !IsOk(reply.status) {
        if reply.status == Unauthorized {
          location := Some(LoginUrl);
        }
        Fail();
        return;
      }
      if reply.body.None? {
        Fail();
        return;
      }
      var data := reply.body.value;
      nextPageToken := data.nextPageToken;
      if data.videoCount.None? {
        Fail();
        return;
      }
      var count := data.videoCount.value;
      cards := cards + count;
      isLoading := false;
      spinnerShown := false;
      if !Truthy(nextPageToken) && count == 0 && Children() == 0 {
        notice := NoVideosFound;
        cards := 0;
      }
    }

    /** The scroll handler's test: near the bottom, no request in flight, and a token
        that is not `null` (`undefined` passes `!== null`). */
    predicate ScrollTriggers(scrollTop: real, scrollHeight: real, clientHeight: real)
      reads this
    {
      scrollTop + clientHeight >= scrollHeight - ScrollMargin && !isLoading && nextPageToken != Null
    }

    /** The scroll handler. */
    method OnScroll(cookie: string, scrollTop: real, scrollHeight: real, clientHeight: real)
      returns (call: Option<FetchCall>, raised: Option<Error>)
      requires Valid()
      modifies this
      ensures Valid()
      ensures !old(ScrollTriggers(scrollTop, scrollHeight, clientHeight)) ==>
        call.None? && raised.None? && unchanged(this)
      ensures old(ScrollTriggers(scrollTop, scrollHeight, clientHeight)) ==>
        && isLoading
        && nextPageToken == old(nextPageToken) && cards == old(cards) && notice == old(notice)
        && location == old(location)
        && match Cookies.CookieValue(cookie, CsrfCookie)
           case Err(e) => call.None? && raised == Some(e)
           case Ok(v) => call == Some(FetchCall(Url(old(nextPageToken)), v)) && raised.None?
    {
      if scrollTop + clientHeight >= scrollHeight - ScrollMargin && !isLoading && nextPageToken != Null {
        call, raised := FetchRecommendedVideos(cookie);
      } else {
        call, raised := None, None;
      }
    }
  }

  /** `DOMContentLoaded`: a fresh page and its initial load, of the first page. */
  method Open(cookie: string) returns (page: Page, call: Option<FetchCall>, raised: Option<Error>)
    ensures fresh(page) && page.Valid() && page.isLoading
    ensures page.nextPageToken == Null && page.cards == 0 && page.notice == NoNotice
    ensures match Cookies.CookieValue(cookie, CsrfCookie)
      case Err(e) => call.None? && raised == Some(e)
      case Ok(v) => call == Some(FetchCall(AjaxUrl, v)) && raised.None?
  {
    page := new Page();
    call, raised := page.FetchRecommendedVideos(cookie);
  }

  /** A first page that names a next one, then a scroll to the bottom: the second request
      asks for the page the first answer named. */
  method ScrollScenario() returns (first: Option<FetchCall>, second: Option<FetchCall>)
    ensures first == Some(FetchCall(AjaxUrl, None))
    ensures second == Some(FetchCall(AjaxUrl + TokenQuery + "CAoQAA", None))
  {
    var page, call, raised := Open("");
    first := call;
    page.Settle(Reply(200, Some(Body(Text("CAoQAA"), Some(10)))));
    second, raised := page.OnScroll("", 1000.5, 1800.0, 300.0);
  }

  /** A first answer of ten videos without a `next_page_token` key: the token becomes
      `undefined`, which is not `null`, so the scroll stays armed and asks for the first
      page again. */
  method MissingTokenScenario() returns (second: Option<FetchCall>, armed: bool)
    ensures second == Some(FetchCall(AjaxUrl, None)) && armed
  {
    var page, call, raised := Open("");
    page.Settle(Reply(200, Some(Body(Undefined, Some(10)))));
    armed := page.ScrollTriggers(1000.5, 1800.0, 300.0);
    second, raised := page.OnScroll("", 1000.5, 1800.0, 300.0);
  }

  /** A first answer of ten videos whose `next_page_token` is `null`: the scroll is
      disarmed and starts no request. */
  method NullTokenScenario() returns (second: Option<FetchCall>)
    ensures second.None?
  {
    var page, call, raised := Open("");
    page.Settle(Reply(200, Some(Body(Null, Some(10)))));
    second, raised := page.OnScroll("", 1000.5, 1800.0, 300.0);
  }

  /** A `csrftoken` cookie that `decodeURIComponent` rejects (`Cookies.MalformedValue`
      gives one): the initial load throws with the flag raised, and no scroll starts a
      request after it. */
  method StuckAfterCookieError(cookie: string, scrollTop: real, scrollHeight: real, clientHeight: real)
    returns (raised: Option<Error>, later: Option<FetchCall>)
    requires Cookies.CookieValue(cookie, CsrfCookie).Err?
    ensures raised == Some(UriError) && later.None?
  {
    Cookies.LookupMeaning(Strings.Split(cookie, Cookies.PairSeparator), CsrfCookie);
    var page, call, r := Open(cookie);
    raised := r;
    later, r := page.OnScroll(cookie, scrollTop, scrollHeight, clientHeight);
  }
}
