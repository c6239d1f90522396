/** The request helpers of src/api/utils.ts: query building, the standard
    headers, the two status rules (`safeJSON` and `deleteJSON`) and the
    pagination loop of `fetchAllPages`. A response is described by its
    `ok` flag, its status and status text and its already-parsed body;
    in `fetchAllPages`, requesting and reading a page is an oracle from
    page number to what that gives. */
module ApiUtils {
  import opened Wrappers
  import opened Strings

  /** A query parameter value: `string | number | boolean`, or a missing
      one. */
  datatype ParamValue = PStr(s: string) | PNum(n: int) | PBool(b: bool) | PNull | PUndefined

  predicate Present(v: ParamValue) {
    !v.PNull? && !v.PUndefined?
  }

  /** `String(val)` */
  function Stringify(v: ParamValue): (r: string)
    requires Present(v)
    ensures v.PStr? ==> r == v.s
    ensures v.PBool? ==> r == (if v.b then "true" else "false")
    ensures v.PNum? ==> r == IntToString(v.n)
    ensures v.PNum? && v.n >= 0 ==> DecimalValue(r) == v.n && (|r| > 1 ==> r[0] != '0')
    ensures v.PNum? && v.n < 0 ==> r[0] == '-' && DecimalValue(r[1..]) == -v.n && (|r| > 2 ==> r[1] != '0')
  {
    match v
    case PStr(s) => s
    case PNum(n) => IntToStringValue(n); IntToString(n)
    case PBool(b) => if b then "true" else "false"
  }

  /** The search parameters `buildUrl` appends: the present entries, in
      entry order, stringified. */
  function KeptParams(params: seq<(string, ParamValue)>): (r: seq<(string, string)>)
    ensures |r| <= |params|
  {
    if params == [] then []
    else
      var last := params[|params| - 1];
      KeptParams(params[..|params| - 1]) + (if Present(last.1) then [(last.0, Stringify(last.1))] else [])
  }

  /** Entry `i` of `params` is present and appends `kv`. */
  predicate AppendsAt(params: seq<(string, ParamValue)>, i: int, kv: (string, string)) {
    0 <= i < |params| && Present(params[i].1) && kv == (params[i].0, Stringify(params[i].1))
  }

  /** Appending entries appends their parameters: order is kept. */
  lemma {:induction false} KeptParamsAppend(a: seq<(string, ParamValue)>, b: seq<(string, ParamValue)>)
    ensures KeptParams(a + b) == KeptParams(a) + KeptParams(b)
    decreases |b|
  {
    if b == [] {
      assert a + b == a;
    } else {
      var front := b[..|b| - 1];
      assert (a + b)[..|a + b| - 1] == a + front;
      assert (a + b)[|a + b| - 1] == b[|b| - 1];
      KeptParamsAppend(a, front);
    }
  }

  /** Every appended parameter comes from a present entry. */
  lemma {:induction false} KeptParamSource(params: seq<(string, ParamValue)>, k: int) returns (i: int)
    requires 0 <= k < |KeptParams(params)|
    ensures AppendsAt(params, i, KeptParams(params)[k])
    decreases |params|
  {
    var front := params[..|params| - 1];
    var n := |params| - 1;
    if k < |KeptParams(front)| {
      i := KeptParamSource(front, k);
      assert params[i] == front[i];
    } else {
      i := n;
    }
  }

  /** One parameter per present entry: `null` and `undefined` are exactly
      the skipped values. */
  lemma {:induction false} KeptParamsCount(params: seq<(string, ParamValue)>)
    ensures |KeptParams(params)| == |set i | 0 <= i < |params| && Present(params[i].1)|
    decreases |params|
  {
    if params != [] {
      var front := params[..|params| - 1];
      var n := |params| - 1;
      KeptParamsCount(front);
      var before := set i | 0 <= i < |front| && Present(front[i].1);
      var after := set i | 0 <= i < |params| && Present(params[i].1);
      assert after == before + (if Present(params[n].1) then {n} else {});
    }
  }

  /** The parts of the URL `buildUrl` returns: the API base joined with the
      path, and the search parameters in order. Percent-encoding and the
      final string form belong to the `URL` class. */
  datatype Url = Url(target: string, search: seq<(string, string)>)

  /** `buildUrl(path, params)` */
  method BuildUrl(apiBase: string, path: string, params: seq<(string, ParamValue)>) returns (url: Url)
    ensures url.target == apiBase + path
    ensures url.search == KeptParams(params)
  {
    var search: seq<(string, string)> := [];
    for i := 0 to |params|
      invariant search == KeptParams(params[..i])
    {
      assert params[..i + 1][..i] == params[..i];
      var (key, val) := params[i];
      if val != PUndefined && val != PNull {
        search := search + [(key, Stringify(val))];
      }
    }
    assert params[..|params|] == params;
    url := Url(apiBase + path, search);
  }

  /** `authHeaders(token)`: JSON content type always; the API key when one
      is configured; a bearer token when the user is signed in; nothing
      else. */
  method AuthHeaders(apiKey: string, token: Option<string>) returns (headers: map<string, string>)
    ensures "Content-Type" in headers && headers["Content-Type"] == "application/json"
    ensures "X-Noroff-API-Key" in headers <==> apiKey != ""
    ensures "X-Noroff-API-Key" in headers ==> headers["X-Noroff-API-Key"] == apiKey
    ensures "Authorization" in headers <==> Truthy(token)
    ensures "Authorization" in headers ==> headers["Authorization"] == "Bearer " + token.value
    ensures headers.Keys <= {"Content-Type", "X-Noroff-API-Key", "Authorization"}
  {
    headers := map["Content-Type" := "application/json"];
    if apiKey != "" {
      headers := headers["X-Noroff-API-Key" := apiKey];
    }
    if Truthy(token) {
      headers := headers["Authorization" := "Bearer " + token.value];
    }
  }

  /** One entry of a body's `errors` array. */
  datatype ApiError = ApiError(message: Option<string>)

  /** A parsed response body: `errors` and `data`, either possibly absent.
      A body that is not JSON parses as `{}`, where both are absent. */
  datatype Body<D> = Body(errors: Option<seq<ApiError>>, data: Option<D>)

  /** `json.errors?.[0]?.message ?? res.statusText` */
  function ErrorMessage<D>(body: Body<D>, statusText: string): (m: string)
    ensures body.errors.Some? && |body.errors.value| > 0 && body.errors.value[0].message.Some? ==>
      m == body.errors.value[0].message.value
    ensures !(body.errors.Some? && |body.errors.value| > 0 && body.errors.value[0].message.Some?) ==>
      m == statusText
  {
    if body.errors.Some? && |body.errors.value| > 0 && body.errors.value[0].message.Some?
    then body.errors.value[0].message.value
    else statusText
  }

  /** `safeJSON(res)`: a response that is not ok throws the first server
      message, or the status text when there is none; an ok response
      yields its `data`. */
  function SafeJson<D>(ok: bool, statusText: string, body: Body<D>): (r: Result<Option<D>>)
    ensures r.Err? <==> !ok
    ensures ok ==> r.value == body.data
    ensures !ok ==> r.message == ErrorMessage(body, statusText)
  {
    if !ok then Err(ErrorMessage(body, statusText)) else Ok(body.data)
  }

  /** A failed response whose body could not be parsed falls back on the
      status text; a server message wins over it whatever the status text
      says. */
  lemma SafeJsonFallbacks<D>(statusText: string, m: string, rest: seq<ApiError>, data: Option<D>)
    ensures SafeJson<D>(false, statusText, Body(None, None)) == Err(statusText)
    ensures SafeJson(false, statusText, Body(Some([ApiError(Some(m))] + rest), data)) == Err(m)
    ensures SafeJson<D>(false, statusText, Body(Some([]), data)) == Err(statusText)
  {
  }

  /** The status rule of `deleteJSON`: it throws exactly when the response
      is not ok and the status is not 204, with the status text or "Delete
      failed". */
  function DeleteOutcome(ok: bool, status: int, statusText: string): (r: Result<()>)
    ensures r.Err? <==> !ok && status != 204
    ensures r.Err? ==> r.message == (if statusText != "" then statusText else "Delete failed")
  {
    if !ok && status != 204 then Err(if statusText != "" then statusText else "Delete failed")
    else Ok(())
  }

  /** The parts of a page body `fetchAllPages` reads: `data`, and
      `meta.isLastPage` / `meta.nextPage`. */
  datatype PageData<D> = PageData(data: D, isLastPage: bool, nextPage: int)

  /** What requesting and reading one page gives the loop: a response that
      is not ok; an exception on the way, with its message (a rejected
      `fetch`, a body that is not JSON, a body without `meta`, or
      `extractPage` throwing); or the page. */
  datatype PageReply<D> = NotOk | Raised(message: string) | Page(page: PageData<D>)

  /** The error a failed page ends the loop with. */
  function FailureOf<D>(reply: PageReply<D>): (m: string)
    requires !reply.Page?
    ensures reply.NotOk? ==> m == "Failed to fetch"
    ensures reply.Raised? ==> m == reply.message
  {
    if reply.NotOk? then "Failed to fetch" else reply.message
  }

  /** How the pagination loop ends within a bound on the number of pages:
      with its result, or still going when the bound is spent. */
  datatype Run<T> = Finished(result: Result<T>) | OutOfFuel

  /** Put `items` in front of a finished successful run; failures and
      unfinished runs are passed on unchanged. */
  function Prepend<T>(items: seq<T>, run: Run<seq<T>>): (r: Run<seq<T>>)
    ensures run.Finished? && run.result.Ok? ==> r == Finished(Ok(items + run.result.value))
    ensures !(run.Finished? && run.result.Ok?) ==> r == run
  {
    match run
    case Finished(Ok(rest)) => Finished(Ok(items + rest))
    case _ => run
  }

  /** The pagination loop from page `page`, for at most `fuel` pages: a
      response that is not ok ends it with "Failed to fetch", an exception
      with its own message, and neither leaves a partial result; otherwise
      the page's items are collected and the loop stops after the page
      flagged last, or follows `nextPage`. */
  function Walk<D, T>(fetch: int -> PageReply<D>, extract: D -> seq<T>, page: int, fuel: nat): Run<seq<T>>
    decreases fuel
  {
    if fuel == 0 then OutOfFuel
    else
      match fetch(page)
      case NotOk => Finished(Err("Failed to fetch"))
      case Raised(m) => Finished(Err(m))
      case Page(p) =>
        if p.isLastPage then Finished(Ok(extract(p.data)))
        else Prepend(extract(p.data), Walk(fetch, extract, p.nextPage, fuel - 1))
  }

  /** The pages the loop requests, in order. */
  function Visited<D>(fetch: int -> PageReply<D>, page: int, fuel: nat): (r: seq<int>)
    ensures fuel > 0 ==> |r| > 0 && r[0] == page
    ensures |r| <= fuel
    decreases fuel
  {
    if fuel == 0 then []
    else
      [page] + match fetch(page)
        case Page(p) => if p.isLastPage then [] else Visited(fetch, p.nextPage, fuel - 1)
        case _ => []
  }

  /** The items of the pages `pages`, in order, each of which was read. */
  function Items<D, T>(fetch: int -> PageReply<D>, extract: D -> seq<T>, pages: seq<int>): seq<T>
    requires forall i :: 0 <= i < |pages| ==> fetch(pages[i]).Page?
  {
    if pages == [] then []
    else extract(fetch(pages[0]).page.data) + Items(fetch, extract, pages[1..])
  }

  lemma PrependPrepend<T>(a: seq<T>, b: seq<T>, run: Run<seq<T>>)
    ensures Prepend(a, Prepend(b, run)) == Prepend(a + b, run)
  {
    if run.Finished? && run.result.Ok? {
      assert a + (b + run.result.value) == (a + b) + run.result.value;
    }
  }

  /** A failed run failed on the last page it requested, every earlier one
      having been read, and its error is that page's: "Failed to fetch"
      for a response that is not ok, otherwise the exception's message. */
  lemma {:induction false} WalkFailure<D, T>(fetch: int -> PageReply<D>, extract: D -> seq<T>,
                                             page: int, fuel: nat)
    requires Walk(fetch, extract, page, fuel).Finished? && Walk(fetch, extract, page, fuel).result.Err?
    ensures |Visited(fetch, page, fuel)| > 0
    ensures forall i :: 0 <= i < |Visited(fetch, page, fuel)| - 1 ==> fetch(Visited(fetch, page, fuel)[i]).Page?
    ensures !fetch(Visited(fetch, page, fuel)[|Visited(fetch, page, fuel)| - 1]).Page?
    ensures Walk(fetch, extract, page, fuel).result.message ==
              FailureOf(fetch(Visited(fetch, page, fuel)[|Visited(fetch, page, fuel)| - 1]))
    decreases fuel
  {
    if fetch(page).Page? {
      var next := fetch(page).page.nextPage;
      WalkFailure(fetch, extract, next, fuel - 1);
      assert Visited(fetch, page, fuel) == [page] + Visited(fetch, next, fuel - 1);
    }
  }

  /** A successful run read every page it requested, the last one flagged
      last, and its result is their items concatenated in request order. */
  lemma {:induction false} WalkCollects<D, T>(fetch: int -> PageReply<D>, extract: D -> seq<T>,
                                              page: int, fuel: nat)
    requires Walk(fetch, extract, page, fuel).Finished? && Walk(fetch, extract, page, fuel).result.Ok?
    ensures forall i :: 0 <= i < |Visited(fetch, page, fuel)| ==> fetch(Visited(fetch, page, fuel)[i]).Page?
    ensures fetch(Visited(fetch, page, fuel)[|Visited(fetch, page, fuel)| - 1]).page.isLastPage
    ensures Walk(fetch, extract, page, fuel).result.value == Items(fetch, extract, Visited(fetch, page, fuel))
    decreases fuel
  {
    var p := fetch(page).page;
    if !p.isLastPage {
      WalkCollects(fetch, extract, p.nextPage, fuel - 1);
      var rest := Visited(fetch, p.nextPage, fuel - 1);
      assert Visited(fetch, page, fuel) == [page] + rest;
      assert Visited(fetch, page, fuel)[1..] == rest;
    } else {
      assert Visited(fetch, page, fuel) == [page];
      assert Items(fetch, extract, [page]) == extract(p.data) + Items(fetch, extract, []);
    }
  }

  /** The page bound only cuts the loop short: once a run finishes, more
      pages of allowance give the same answer. */
  lemma {:induction false} WalkFuelIrrelevant<D, T>(fetch: int -> PageReply<D>, extract: D -> seq<T>,
                                                    page: int, fuel: nat, more: nat)
    requires Walk(fetch, extract, page, fuel).Finished?
    ensures Walk(fetch, extract, page, fuel + more) == Walk(fetch, extract, page, fuel)
    decreases fuel
  {
    if fetch(page).Page? && !fetch(page).page.isLastPage {
      WalkFuelIrrelevant(fetch, extract, fetch(page).page.nextPage, fuel - 1, more);
    }
  }

  /** Three pages linked by `nextPage`, the third flagged last, give the
      three extracts concatenated in page order. */
  lemma ThreePagesInOrder<D, T>(fetch: int -> PageReply<D>, extract: D -> seq<T>, d1: D, d2: D, d3: D, n: int)
    requires fetch(1) == Page(PageData(d1, false, 2))
    requires fetch(2) == Page(PageData(d2, false, 3))
    requires fetch(3) == Page(PageData(d3, true, n))
    ensures Walk(fetch, extract, 1, 3) == Finished(Ok(extract(d1) + extract(d2) + extract(d3)))
    ensures Visited(fetch, 1, 3) == [1, 2, 3]
  {
    assert Walk(fetch, extract, 3, 1) == Finished(Ok(extract(d3)));
    assert Walk(fetch, extract, 2, 2) == Finished(Ok(extract(d2) + extract(d3)));
    assert extract(d1) + (extract(d2) + extract(d3)) == extract(d1) + extract(d2) + extract(d3);
  }

  /** A failing page after a good one discards what was collected. */
  lemma LaterFailureDiscards<D, T>(fetch: int -> PageReply<D>, extract: D -> seq<T>, d1: D, fuel: nat)
    requires fuel >= 2
    requires fetch(1) == Page(PageData(d1, false, 2))
    requires fetch(2) == NotOk
    ensures Walk(fetch, extract, 1, fuel) == Finished(Err("Failed to fetch"))
  {
  }

  /** The loop state after `collected` items and the requests `pages`:
      what is left of the run, put behind what was already collected. */
  function Rest<D, T>(fetch: int -> PageReply<D>, extract: D -> seq<T>,
                      collected: seq<T>, page: int, left: nat): Run<seq<T>> {
    Prepend(collected, Walk(fetch, extract, page, left))
  }

  /** A page that fails ends the loop with its error after one more
      request: "Failed to fetch", or the exception's message. */
  lemma StepFails<D, T>(fetch: int -> PageReply<D>, extract: D -> seq<T>,
                        collected: seq<T>, pages: seq<int>, page: int, left: nat)
    requires left > 0 && !fetch(page).Page?
    ensures Rest(fetch, extract, collected, page, left) == Finished(Err(FailureOf(fetch(page))))
    ensures pages + Visited(fetch, page, left) == pages + [page]
  {
  }

  /** The page flagged last ends the loop with its items added. */
  lemma StepLast<D, T>(fetch: int -> PageReply<D>, extract: D -> seq<T>,
                       collected: seq<T>, pages: seq<int>, page: int, left: nat)
    requires left > 0 && fetch(page).Page? && fetch(page).page.isLastPage
    ensures Rest(fetch, extract, collected, page, left) ==
      Finished(Ok(collected + extract(fetch(page).page.data)))
    ensures pages + Visited(fetch, page, left) == pages + [page]
  {
  }

  /** Any other page adds its items and moves on to `nextPage`. */
  lemma StepNext<D, T>(fetch: int -> PageReply<D>, extract: D -> seq<T>,
                       collected: seq<T>, pages: seq<int>, page: int, left: nat)
    requires left > 0 && fetch(page).Page? && !fetch(page).page.isLastPage
    ensures Rest(fetch, extract, collected, page, left) ==
      Rest(fetch, extract, collected + extract(fetch(page).page.data), fetch(page).page.nextPage, left - 1)
    ensures pages + Visited(fetch, page, left) ==
      (pages + [page]) + Visited(fetch, fetch(page).page.nextPage, left - 1)
  {
    PrependPrepend(collected, extract(fetch(page).page.data),
                   Walk(fetch, extract, fetch(page).page.nextPage, left - 1));
  }

  /** `fetchAllPages(path, extractPage, headers, extraParams)`, allowed at
      most `fuel` pages: the run the loop makes and the pages it asked for. */
  method FetchAllPages<D, T>(fetch: int -> PageReply<D>, extract: D -> seq<T>, fuel: nat)
    returns (run: Run<seq<T>>, pages: seq<int>)
    ensures run == Walk(fetch, extract, 1, fuel)
    ensures pages == Visited(fetch, 1, fuel)
  {
    var collected: seq<T> := [];
    var page := 1;
    var left := fuel;
    pages := [];
    var w := Walk(fetch, extract, 1, fuel);
    assert w.Finished? && w.result.Ok? ==> [] + w.result.value == w.result.value;
    assert Visited(fetch, 1, fuel) == pages + Visited(fetch, 1, fuel);
    while true
      invariant Walk(fetch, extract, 1, fuel) == Rest(fetch, extract, collected, page, left)
      invariant Visited(fetch, 1, fuel) == pages + Visited(fetch, page, left)
      decreases left
    {
      if left == 0 {
        assert pages + Visited(fetch, page, left) == pages;
        return OutOfFuel, pages;
      }
      var response := fetch(page);
      if !response.Page? {
        StepFails(fetch, extract, collected, pages, page, left);
        return Finished(Err(FailureOf(response))), pages + [page];
      }
      var p := response.page;
      if p.isLastPage {
        StepLast(fetch, extract, collected, pages, page, left);
        return Finished(Ok(collected + extract(p.data))), pages + [page];
      }
      StepNext(fetch, extract, collected, pages, page, left);
      collected := collected + extract(p.data);
      pages := pages + [page];
      page := p.nextPage;
      left := left - 1;
    }
  }
}
