/** `static/metrics/activities.js`: the earlier copy of the infinite-scroll page. Its
    variables, its `.catch` handler and its promise chain are those of the later copy, so
    it works on the same `ActivitiesPage.Page`; only `fetchRecommendedVideos` differs: it
    always requests the same URL, without the token. */
module LegacyActivitiesPage {
  import opened Wrappers
  import Cookies
  import opened ActivitiesPage

  /** `fetchRecommendedVideos` up to the call of `fetch`: nothing while a request is in
      flight; otherwise the flag is raised and the request goes to the view's URL,
      whatever token is stored, unless reading the CSRF cookie throws. */
  method FetchRecommendedVideos(page: Page, cookie: string) returns (call: Option<FetchCall>, raised: Option<Error>)
    requires page.Valid()
    modifies page
    ensures page.Valid()
    ensures old(page.isLoading) ==> call.None? && raised.None? && unchanged(page)
    ensures !old(page.isLoading) ==>
      && page.isLoading
      && page.nextPageToken == old(page.nextPageToken) && page.cards == old(page.cards)
      && page.notice == old(page.notice) && page.location == old(page.location)
      && match Cookies.CookieValue(cookie, CsrfCookie)
         case Err(e) => call.None? && raised == Some(e)
         case Ok(v) => call == Some(FetchCall(AjaxUrl, v)) && raised.None?
  {
    if page.isLoading {
      return None, None;
    }
    page.isLoading := true;
    page.spinnerShown := true;
    var url := AjaxUrl;
    var csrf := Cookies.GetCookie(cookie, CsrfCookie);
    if csrf.Err? {
      return None, Some(csrf.error);
    }
    return Some(FetchCall(url, csrf.value)), None;
  }

  /** The scroll handler: the later copy's test, then this copy's fetch. */
  method OnScroll(page: Page, cookie: string, scrollTop: real, scrollHeight: real, clientHeight: real)
    returns (call: Option<FetchCall>, raised: Option<Error>)
    requires page.Valid()
    modifies page
    ensures page.Valid()
    ensures !old(page.ScrollTriggers(scrollTop, scrollHeight, clientHeight)) ==>
      call.None? && raised.None? && unchanged(page)
    ensures old(page.ScrollTriggers(scrollTop, scrollHeight, clientHeight)) ==>
      && page.isLoading
      && page.nextPageToken == old(page.nextPageToken) && page.cards == old(page.cards)
      && page.notice == old(page.notice) && page.location == old(page.location)
      && match Cookies.CookieValue(cookie, CsrfCookie)
         case Err(e) => call.None? && raised == Some(e)
         case Ok(v) => call == Some(FetchCall(AjaxUrl, v)) && raised.None?
  {
    if scrollTop + clientHeight >= scrollHeight - ScrollMargin && !page.isLoading && page.nextPageToken != Null {
      call, raised := FetchRecommendedVideos(page, cookie);
    } else {
      call, raised := None, None;
    }
  }

  /** `DOMContentLoaded`: a fresh page and its initial load. */
  method Open(cookie: string) returns (page: Page, call: Option<FetchCall>, raised: Option<Error>)
    ensures fresh(page) && page.Valid() && page.isLoading
    ensures page.nextPageToken == Null && page.cards == 0 && page.notice == NoNotice
    ensures match Cookies.CookieValue(cookie, CsrfCookie)
      case Err(e) => call.None? && raised == Some(e)
      case Ok(v) => call == Some(FetchCall(AjaxUrl, v)) && raised.None?
  {
    page := new Page();
    call, raised := FetchRecommendedVideos(page, cookie);
  }

  /** A first page of ten videos that names a next one, then a scroll to the bottom: the
      second request is the first one again. The view that answers it is not part of this
      model; assuming it answers with the same first page, as a fixed URL without a token
      suggests, the container then holds those ten cards twice, with the scroll still
      armed. */
  method RefetchScenario() returns (first: Option<FetchCall>, second: Option<FetchCall>, cards: nat, armed: bool)
    ensures first == Some(FetchCall(AjaxUrl, None)) && second == first
    ensures cards == 20 && armed
  {
    var firstPage := Reply(200, Some(Body(Text("CAoQAA"), Some(10))));
    var page, call, raised := Open("");
    first := call;
    page.Settle(firstPage);
    second, raised := OnScroll(page, "", 1000.5, 1800.0, 300.0);
    page.Settle(firstPage);
    cards := page.cards;
    armed := page.ScrollTriggers(1000.5, 1800.0, 300.0);
  }
}
