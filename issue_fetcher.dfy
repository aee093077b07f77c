/** `Project::getUpdatedJiraIssues` and `newUpdatedJiraIssuesExpression`:
    the query text for an incremental issue fetch, and the loop that pages
    through the remote search fifty issues at a time. The remote search for
    one query is the fixed ordered list of all issues matching it; a request
    for `maxResults` issues from `startAt` answers the corresponding slice. */
module IssueFetcher {
  import opened Common
  import opened Remote

  /** `$count`: the page size. */
  const PageSize: nat := 50

  /** The only fields requested for each issue. */
  const IssueFields: seq<string> := ["summary", "description", "created", "updated"]

  /** The arguments of `Jira::issues()->search($jql, $startAt, $maxResults,
      $fields, $expand, $validateQuery)`. */
  datatype SearchRequest = SearchRequest(
    jql: string,
    startAt: nat,
    maxResults: nat,
    fields: seq<string>,
    expand: seq<string>,
    validateQuery: bool)

  function Min(a: int, b: int): int
  {
    if a < b then a else b
  }

  /** The query text: all issues of the project whose key is `scope`,
      narrowed to those updated at or after the watermark when there is one. */
  function UpdatedIssuesExpression(scope: string, watermark: Option<string>): (jql: string)
    ensures |jql| >= 10 + |scope| && jql[..10 + |scope|] == "project = " + scope
    ensures jql == "project = " + scope <==> watermark.None?
    ensures watermark.Some? ==> jql[10 + |scope|..] == " and updated >= " + watermark.value
  {
    match watermark
    case None => "project = " + scope
    case Some(w) => "project = " + scope + " and updated >= " + w
  }

  /** The remote search: the issues from position `startAt` on, at most
      `maxResults` of them, in the service's order. */
  function Search(results: seq<RemoteIssue>, request: SearchRequest): (page: seq<RemoteIssue>)
    ensures |page| <= request.maxResults
    ensures request.startAt <= |results| ==> |page| == Min(request.maxResults, |results| - request.startAt)
    ensures request.startAt >= |results| ==> page == []
    ensures forall i :: 0 <= i < |page| ==> request.startAt + i < |results| && page[i] == results[request.startAt + i]
  {
    var lo := Min(request.startAt, |results|);
    var hi := Min(request.startAt + request.maxResults, |results|);
    results[lo..hi]
  }

  /** The request made for page `page`. */
  function PageRequest(jql: string, page: nat): SearchRequest
  {
    SearchRequest(jql, page * PageSize, PageSize, IssueFields, [], false)
  }

  /** The first `n` requests of the loop, in the order they are made. */
  function Requests(jql: string, n: nat): (r: seq<SearchRequest>)
    ensures |r| == n
    ensures forall p :: 0 <= p < n ==>
      r[p].jql == jql && r[p].startAt == p * PageSize && r[p].maxResults == PageSize &&
      r[p].fields == IssueFields && r[p].expand == [] && !r[p].validateQuery
  {
    if n == 0 then [] else Requests(jql, n - 1) + [PageRequest(jql, n - 1)]
  }

  /** The answers to `requests`, appended in order. */
  function Collected(results: seq<RemoteIssue>, requests: seq<SearchRequest>): seq<RemoteIssue>
  {
    if |requests| == 0 then []
    else Collected(results, requests[..|requests| - 1]) + Search(results, requests[|requests| - 1])
  }

  /** The answer to the request for page `p`: the results from `p * 50`
      up to `p * 50 + 50`, both cut at the end of the list. */
  lemma PageAnswer(jql: string, results: seq<RemoteIssue>, p: nat, m: nat)
    requires m == p * PageSize
    ensures Search(results, PageRequest(jql, p)) == results[Min(m, |results|)..Min(m + PageSize, |results|)]
  {
  }

  lemma SliceConcat<T>(s: seq<T>, lo: nat, hi: nat)
    requires lo <= hi <= |s|
    ensures s[..lo] + s[lo..hi] == s[..hi]
  {
  }

  /** The answers to the first `n` page requests are the first `n` pages of
      the result list, back to back: nothing is skipped, repeated or
      reordered. */
  lemma {:induction false} PagesAreConsecutive(jql: string, results: seq<RemoteIssue>, n: nat)
    ensures Collected(results, Requests(jql, n)) == results[..Min(n * PageSize, |results|)]
  {
    if n > 0 {
      var rs := Requests(jql, n);
      var prev := Requests(jql, n - 1);
      assert rs == prev + [PageRequest(jql, n - 1)];
      assert rs[..n - 1] == prev;
      assert Collected(results, rs) == Collected(results, prev) + Search(results, PageRequest(jql, n - 1));
      PagesAreConsecutive(jql, results, n - 1);
      var m := (n - 1) * PageSize;
      assert n * PageSize == m + PageSize;
      PageAnswer(jql, results, n - 1, m);
      SliceConcat(results, Min(m, |results|), Min(m + PageSize, |results|));
    }
  }

  lemma PageCount(n: nat, p: nat)
    requires p * PageSize <= n < p * PageSize + PageSize
    ensures n / PageSize == p
  {
  }

  /** The paging loop. It asks for page 0, 1, 2, ... and stops after the
      first page holding fewer than `PageSize` issues (an empty page
      included): every full page is followed by one more request. Against a
      result list of `n` issues that is exactly `n / PageSize + 1` requests,
      and the pages put together are the whole list in order. */
  method GetUpdatedJiraIssues(jql: string, results: seq<RemoteIssue>) returns (issues: seq<RemoteIssue>, requests: seq<SearchRequest>)
    ensures requests == Requests(jql, |results| / PageSize + 1)
    ensures issues == Collected(results, requests)
    ensures issues == results
    ensures forall p :: 0 <= p < |requests| - 1 ==> |Search(results, requests[p])| == PageSize
    ensures |Search(results, requests[|requests| - 1])| < PageSize
  {
    issues := [];
    requests := [];
    var page: nat := 0;
    var count := PageSize;
    while true
      invariant count == PageSize
      invariant page * count <= |results|
      invariant requests == Requests(jql, page)
      invariant issues == Collected(results, requests) == results[..page * count]
      invariant forall p :: 0 <= p < page ==> |Search(results, requests[p])| == count
      decreases |results| - page * count
    {
      var request := SearchRequest(jql, page * count, count, IssueFields, [], false);
      var found := Search(results, request);
      assert requests + [request] == Requests(jql, page + 1);
      assert (requests + [request])[..page] == requests;
      requests := requests + [request];
      var countResults := |found|;
      if countResults == 0 {
        PageCount(|results|, page);
        break;
      }
      issues := issues + found;
      PagesAreConsecutive(jql, results, page + 1);
      page := page + 1;
      if countResults != count {
        PageCount(|results|, page - 1);
        break;
      }
    }
  }

  /** The number of requests for `n` results: one per page, rounded up, plus
      a trailing empty request when `n` is a multiple of the page size. */
  lemma RequestCount(n: nat)
    ensures n % PageSize != 0 ==> n / PageSize + 1 == (n + PageSize - 1) / PageSize
    ensures n % PageSize == 0 ==> n / PageSize + 1 == (n + PageSize - 1) / PageSize + 1
    ensures n == 0 ==> n / PageSize + 1 == 1
  {
  }
}
