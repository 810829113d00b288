/** What the loader's runs look like: the cursor of every page is the number
    of records before it, only the last page of an issue is short, each page
    is requested at most four times, every record carries its page's
    provenance, and issues keep only the last page's timestamp. */
module YouTrackProperties {
  import opened Values
  import opened FileStore
  import opened YouTrackApi

  // ---------------------------------------------------------------------------
  // Retry

  /** Only attempts 1..4 are ever made: two servers that agree on those agree on the outcome. */
  lemma {:induction false} RetryFourAttempts(a: Server, b: Server, req: Request, attempt: nat)
    requires 1 <= attempt <= MAX_ATTEMPTS + 1
    requires forall n :: 1 <= n <= MAX_ATTEMPTS ==> ReplyTo(a, req, n) == ReplyTo(b, req, n)
    ensures Retry(a, req, attempt) == Retry(b, req, attempt)
    decreases MAX_ATTEMPTS + 1 - attempt
  {
    if attempt <= MAX_ATTEMPTS {
      RetryFourAttempts(a, b, req, attempt + 1);
    }
  }

  /** An error body is not retried: the attempt that returns it ends the
      download of the issue with the issue's problem. */
  lemma ErrorBodyNotRetried(srv: Server, req: Request, attempt: nat, fields: map<string, Json>)
    requires req.ActivitiesPage? && 1 <= attempt <= MAX_ATTEMPTS
    requires forall n :: 1 <= n < attempt ==> ReplyTo(srv, req, n) == TransportFailure
    requires ReplyTo(srv, req, attempt) == Received(Body.Object(fields)) && "error" in fields
    ensures ActivityPage(srv, req) == Err(IssueProblem(PROBLEM_MESSAGE, req.issue))
  {
    RetryFirstSuccess(srv, req, 1);
    var r := Retry(srv, req, 1);
    assert r.Got? && r.attempt == attempt;
  }

  /** Attempts that raise are retried: a page of records on attempt 2, 3 or 4,
      after failures only, is taken as if it had come on the first. */
  lemma SuccessAfterFailures(srv: Server, req: Request, attempt: nat, items: seq<Record>)
    requires req.ActivitiesPage? && 1 <= attempt <= MAX_ATTEMPTS
    requires forall n :: 1 <= n < attempt ==> ReplyTo(srv, req, n) == TransportFailure
    requires ReplyTo(srv, req, attempt) == Received(Items(items))
    ensures ActivityPage(srv, req) == Ok(items)
  {
    RetryFirstSuccess(srv, req, 1);
  }

  /** A page fails with `Failed to retrieve activities` exactly when all four attempts raise. */
  lemma AllAttemptsRaise(srv: Server, req: Request)
    requires req.ActivitiesPage?
    ensures ActivityPage(srv, req) == Err(RetrievalFailed)
        <==> forall n :: 1 <= n <= MAX_ATTEMPTS ==> ReplyTo(srv, req, n) == TransportFailure
  {
    RetryFirstSuccess(srv, req, 1);
  }

  /** The problem raised for an issue names that issue after the message. */
  lemma ProblemText(issue: string)
    ensures IssueProblem(PROBLEM_MESSAGE, issue).Text() == "downloading failed for issue: " + issue
  {
  }

  // ---------------------------------------------------------------------------
  // The pages of one issue

  /** `page` is what the server gives for the request at its cursor, `skip`. */
  ghost predicate PageReceived(srv: Server, issue: string, cats: string, top: nat, page: Page, skip: nat)
  {
    var req := ActivitiesPage(issue, cats, skip, top);
    && page.issue == issue && page.skip == skip
    && ActivityPage(srv, req) == Ok(page.items)
    && page.now == Clock(srv, req)
  }

  /** Every page was received at the cursor that counts the records before it. */
  ghost predicate PagesReceived(srv: Server, issue: string, cats: string, top: nat, pages: seq<Page>)
    decreases |pages|
  {
    pages != [] ==>
      var init := pages[..|pages| - 1];
      PagesReceived(srv, issue, cats, top, init) && PageReceived(srv, issue, cats, top, pages[|pages| - 1], ItemCount(init))
  }

  /** The same, page by page. */
  lemma {:induction false} ReceivedAt(srv: Server, issue: string, cats: string, top: nat, pages: seq<Page>, i: nat)
    requires PagesReceived(srv, issue, cats, top, pages) && i < |pages|
    ensures PageReceived(srv, issue, cats, top, pages[i], ItemCount(pages[..i]))
    decreases |pages|
  {
    var init := pages[..|pages| - 1];
    if i < |init| {
      ReceivedAt(srv, issue, cats, top, init, i);
      assert init[..i] == pages[..i];
    }
  }

  /** No page is shorter than `top`. */
  ghost predicate AllFull(top: nat, pages: seq<Page>)
  {
    forall i :: 0 <= i < |pages| ==> |pages[i].items| >= top
  }

  lemma ReceivedSnoc(srv: Server, issue: string, cats: string, top: nat, done: seq<Page>, page: Page)
    requires PagesReceived(srv, issue, cats, top, done)
    requires PageReceived(srv, issue, cats, top, page, ItemCount(done))
    ensures PagesReceived(srv, issue, cats, top, done + [page])
  {
    assert (done + [page])[..|done|] == done;
  }

  /** What a run of one issue looks like: its pages were received at the
      right cursors; it fails only after full pages, at the cursor after them;
      and otherwise its last page, and only that, is short. */
  ghost predicate TraceShape(srv: Server, issue: string, cats: string, top: nat, t: Trace)
  {
    && PagesReceived(srv, issue, cats, top, t.pages)
    && (t.failure.Some? ==>
          AllFull(top, t.pages)
          && ActivityPage(srv, ActivitiesPage(issue, cats, ItemCount(t.pages), top)) == Err(t.failure.value))
    && (t.failure.None? ==>
          |t.pages| > 0 && AllFull(top, t.pages[..|t.pages| - 1]) && |t.pages[|t.pages| - 1].items| < top)
  }

  /** `done` are full pages received at the right cursors, and `skip` is the cursor after them. */
  ghost predicate FullPrefix(srv: Server, issue: string, cats: string, top: nat, skip: nat, done: seq<Page>)
  {
    skip == ItemCount(done) && PagesReceived(srv, issue, cats, top, done) && AllFull(top, done)
  }

  /** The run from cursor `skip` after the full pages `done` has that shape. */
  lemma {:induction false} IssueActivitiesFromShape(srv: Server, issue: string, cats: string, top: nat,
                                                    skip: nat, done: seq<Page>, limit: nat)
    requires top > 0 && Drains(srv, limit) && FullPrefix(srv, issue, cats, top, skip, done)
    ensures TraceShape(srv, issue, cats, top, IssueActivitiesFrom(srv, issue, cats, top, skip, done, limit))
    decreases if skip < limit then limit - skip else 0
  {
    var req := ActivitiesPage(issue, cats, skip, top);
    var r := ActivityPage(srv, req);
    if r.Ok? && |r.value| >= top {
      FullStep(srv, issue, cats, top, skip, done, limit, r.value);
      IssueActivitiesFromShape(srv, issue, cats, top, skip + |r.value|,
                               done + [Page(issue, skip, Clock(srv, req), r.value)], limit);
    } else {
      EndShape(srv, issue, cats, top, skip, done, limit);
    }
  }

  /** After a full page the run goes on from the next cursor. */
  lemma FullStep(srv: Server, issue: string, cats: string, top: nat,
                 skip: nat, done: seq<Page>, limit: nat, items: seq<Record>)
    requires top > 0 && Drains(srv, limit) && FullPrefix(srv, issue, cats, top, skip, done)
    requires ActivityPage(srv, ActivitiesPage(issue, cats, skip, top)) == Ok(items) && |items| >= top
    ensures var page := Page(issue, skip, Clock(srv, ActivitiesPage(issue, cats, skip, top)), items);
            && skip < limit
            && FullPrefix(srv, issue, cats, top, skip + |items|, done + [page])
            && IssueActivitiesFrom(srv, issue, cats, top, skip, done, limit)
               == IssueActivitiesFrom(srv, issue, cats, top, skip + |items|, done + [page], limit)
  {
    var page := Page(issue, skip, Clock(srv, ActivitiesPage(issue, cats, skip, top)), items);
    ReceivedSnoc(srv, issue, cats, top, done, page);
    TaggedSnoc(done, page);
    FullSnoc(top, done, page);
    IssueActivitiesStep(srv, issue, cats, top, skip, done, limit, items, page);
  }

  /** The run stops at its cursor: the page there is short or cannot be had. */
  lemma EndShape(srv: Server, issue: string, cats: string, top: nat, skip: nat, done: seq<Page>, limit: nat)
    requires top > 0 && Drains(srv, limit) && FullPrefix(srv, issue, cats, top, skip, done)
    requires var r := ActivityPage(srv, ActivitiesPage(issue, cats, skip, top)); !(r.Ok? && |r.value| >= top)
    ensures TraceShape(srv, issue, cats, top, IssueActivitiesFrom(srv, issue, cats, top, skip, done, limit))
  {
    var r := ActivityPage(srv, ActivitiesPage(issue, cats, skip, top));
    if r.Err? {
      FailedShape(srv, issue, cats, top, skip, done, limit, r.error);
    } else {
      ShortShape(srv, issue, cats, top, skip, done, limit, r.value);
    }
  }

  /** The run stops at once when the page at its cursor cannot be had. */
  lemma FailedShape(srv: Server, issue: string, cats: string, top: nat,
                    skip: nat, done: seq<Page>, limit: nat, f: Failure)
    requires top > 0 && Drains(srv, limit) && FullPrefix(srv, issue, cats, top, skip, done)
    requires ActivityPage(srv, ActivitiesPage(issue, cats, skip, top)) == Err(f)
    ensures TraceShape(srv, issue, cats, top, IssueActivitiesFrom(srv, issue, cats, top, skip, done, limit))
  {
    assert IssueActivitiesFrom(srv, issue, cats, top, skip, done, limit) == Trace(done, Some(f));
  }

  /** The run ends with a short page at its cursor. */
  lemma ShortShape(srv: Server, issue: string, cats: string, top: nat,
                   skip: nat, done: seq<Page>, limit: nat, items: seq<Record>)
    requires top > 0 && Drains(srv, limit) && FullPrefix(srv, issue, cats, top, skip, done)
    requires ActivityPage(srv, ActivitiesPage(issue, cats, skip, top)) == Ok(items) && |items| < top
    ensures TraceShape(srv, issue, cats, top, IssueActivitiesFrom(srv, issue, cats, top, skip, done, limit))
  {
    var page := Page(issue, skip, Clock(srv, ActivitiesPage(issue, cats, skip, top)), items);
    ReceivedSnoc(srv, issue, cats, top, done, page);
    assert IssueActivitiesFrom(srv, issue, cats, top, skip, done, limit) == Trace(done + [page], None);
    assert (done + [page])[..|done|] == done;
  }

  lemma FullSnoc(top: nat, done: seq<Page>, page: Page)
    requires AllFull(top, done) && |page.items| >= top
    ensures AllFull(top, done + [page])
  {
  }

  /** The pages of one issue: the cursor starts at 0 and each page's cursor is
      the number of records before it; every page but the last is full, and
      the run ends right after the first short page, or at the cursor where
      a page could not be had. */
  lemma IssueActivitiesShape(srv: Server, issue: string, cats: string, top: nat, limit: nat)
    requires top > 0 && Drains(srv, limit)
    ensures var t := IssueActivities(srv, issue, cats, top, limit);
            && TraceShape(srv, issue, cats, top, t)
            && forall i :: 0 <= i < |t.pages| ==> PageReceived(srv, issue, cats, top, t.pages[i], ItemCount(t.pages[..i]))
  {
    IssueActivitiesFromShape(srv, issue, cats, top, 0, [], limit);
    var t := IssueActivities(srv, issue, cats, top, limit);
    forall i | 0 <= i < |t.pages|
      ensures PageReceived(srv, issue, cats, top, t.pages[i], ItemCount(t.pages[..i]))
    {
      ReceivedAt(srv, issue, cats, top, t.pages, i);
    }
  }

  /** Pages of 1000, 1000 and 400 records at the default page size are asked
      for at cursors 0, 1000 and 2000, and the third ends the issue. */
  lemma CursorExample(srv: Server, issue: string, cats: string, limit: nat)
    requires Drains(srv, limit)
    requires var t := IssueActivities(srv, issue, cats, DEFAULT_PAGE_SIZE, limit);
             |t.pages| == 3 && |t.pages[0].items| == 1000 && |t.pages[1].items| == 1000 && |t.pages[2].items| == 400
    ensures var t := IssueActivities(srv, issue, cats, DEFAULT_PAGE_SIZE, limit);
            t.pages[0].skip == 0 && t.pages[1].skip == 1000 && t.pages[2].skip == 2000 && t.failure.None?
  {
    var t := IssueActivities(srv, issue, cats, DEFAULT_PAGE_SIZE, limit);
    IssueActivitiesShape(srv, issue, cats, DEFAULT_PAGE_SIZE, limit);
    var p := t.pages;
    assert p[..0] == [] && p[..1][..0] == [];
    assert p[..2][..1] == p[..1];
    assert ItemCount(p[..1]) == 1000;
    assert ItemCount(p[..2]) == 2000;
    assert !AllFull(DEFAULT_PAGE_SIZE, p) by {
      assert |p[2].items| < DEFAULT_PAGE_SIZE;
    }
  }

  // ---------------------------------------------------------------------------
  // Records

  /** One returned or written record per received item. */
  lemma {:induction false} TaggedLength(pages: seq<Page>)
    ensures |Tagged(pages)| == ItemCount(pages)
    decreases |pages|
  {
    if pages != [] {
      TaggedLength(pages[..|pages| - 1]);
    }
  }

  /** Item `j` of page `i` comes out, tagged with that page's issue and clock
      reading, after the records of the pages before it. */
  lemma {:induction false} TaggedAt(pages: seq<Page>, i: nat, j: nat)
    requires i < |pages| && j < |pages[i].items|
    ensures ItemCount(pages[..i]) + j < |Tagged(pages)|
    ensures Tagged(pages)[ItemCount(pages[..i]) + j] == TagActivity(pages[i].items[j], pages[i].issue, pages[i].now)
    decreases |pages|
  {
    var init := pages[..|pages| - 1];
    TaggedLength(init);
    TaggedLength(pages);
    if i < |pages| - 1 {
      assert pages[..i] == init[..i];
      TaggedAt(init, i, j);
    } else {
      assert pages[..i] == init;
    }
  }

  /** The number of records of the issues `ids`, issue by issue. */
  function IssueTotals(srv: Server, ids: seq<string>, cats: string, top: nat, limit: nat): nat
    requires top > 0 && Drains(srv, limit)
  {
    if ids == [] then 0
    else ItemCount(IssueActivities(srv, ids[0], cats, top, limit).pages) + IssueTotals(srv, ids[1..], cats, top, limit)
  }

  /** The download of one issue ran to its short last page. */
  ghost predicate IssueComplete(srv: Server, id: string, cats: string, top: nat, limit: nat)
    requires top > 0 && Drains(srv, limit)
  {
    IssueActivities(srv, id, cats, top, limit).failure.None?
  }

  /** A run of several issues succeeds exactly when every issue's run does. */
  lemma {:induction false} ActivityRunCompletes(srv: Server, ids: seq<string>, cats: string, top: nat, limit: nat)
    requires top > 0 && Drains(srv, limit)
    ensures ActivityRun(srv, ids, cats, top, limit).failure.None?
        <==> forall k :: 0 <= k < |ids| ==> IssueComplete(srv, ids[k], cats, top, limit)
    decreases |ids|
  {
    if ids != [] {
      ActivityRunCompletes(srv, ids[1..], cats, top, limit);
      assert forall k :: 1 <= k < |ids| ==> ids[k] == ids[1..][k - 1];
      assert (forall k :: 0 <= k < |ids| ==> IssueComplete(srv, ids[k], cats, top, limit))
         <==> IssueComplete(srv, ids[0], cats, top, limit)
              && forall k :: 0 <= k < |ids[1..]| ==> IssueComplete(srv, ids[1..][k], cats, top, limit);
    }
  }

  /** A run that succeeds counts the records of every issue. */
  lemma {:induction false} ActivityRunTotals(srv: Server, ids: seq<string>, cats: string, top: nat, limit: nat)
    requires top > 0 && Drains(srv, limit)
    requires ActivityRun(srv, ids, cats, top, limit).failure.None?
    ensures ItemCount(ActivityRun(srv, ids, cats, top, limit).pages) == IssueTotals(srv, ids, cats, top, limit)
    decreases |ids|
  {
    if ids != [] {
      var first := IssueActivities(srv, ids[0], cats, top, limit);
      var rest := ActivityRun(srv, ids[1..], cats, top, limit);
      ActivityRunTotals(srv, ids[1..], cats, top, limit);
      ItemCountConcat(first.pages, rest.pages);
    }
  }

  /** The pages of each issue of `ids`, one list per issue, in the order of `ids`. */
  function IssuePageLists(srv: Server, ids: seq<string>, cats: string, top: nat, limit: nat): seq<seq<Page>>
    requires top > 0 && Drains(srv, limit)
  {
    seq(|ids|, k requires 0 <= k < |ids| => IssueActivities(srv, ids[k], cats, top, limit).pages)
  }

  /** The lists of `lists`, one after the other. */
  function Flatten(lists: seq<seq<Page>>): seq<Page>
  {
    if lists == [] then [] else lists[0] + Flatten(lists[1..])
  }

  /** A run that succeeds holds the pages of the first issue, then those of
      the second, and so on in the order the ids were given. */
  lemma {:induction false} ActivityRunPages(srv: Server, ids: seq<string>, cats: string, top: nat, limit: nat)
    requires top > 0 && Drains(srv, limit)
    ensures var run := ActivityRun(srv, ids, cats, top, limit);
            run.failure.None? ==> run.pages == Flatten(IssuePageLists(srv, ids, cats, top, limit))
    decreases |ids|
  {
    if ids != [] {
      ActivityRunPages(srv, ids[1..], cats, top, limit);
      var lists := IssuePageLists(srv, ids, cats, top, limit);
      var later := IssuePageLists(srv, ids[1..], cats, top, limit);
      assert lists[0] == IssueActivities(srv, ids[0], cats, top, limit).pages;
      assert lists[1..] == later by {
        forall k | 0 <= k < |later| ensures lists[1..][k] == later[k] {
          assert ids[1..][k] == ids[k + 1];
        }
      }
    }
  }

  /** What an activity download leaves behind: the records of every page
      received before it stopped are written (or returned) in order, whether
      or not a later page failed, and the total it reports is the number of
      lines it wrote. */
  lemma ActivitiesDownloadEffect(srv: Server, ids: seq<string>, categories: Option<string>, top: nat,
                                 path: string, noWrite: bool, files: Files, limit: nat)
    requires top > 0 && Drains(srv, limit)
    ensures var e := ActivitiesDownload(srv, ids, categories, top, path, noWrite, files, limit);
            var run := ActivityRun(srv, ids, Categories(categories), top, limit);
            && (noWrite ==> e.files == files)
            && (!noWrite ==> Lines(e.files, path) == Lines(files, path) + Tagged(run.pages)
                             && forall p :: p != path ==> Lines(e.files, p) == Lines(files, p))
            && (e.result.Err? <==> run.failure.Some?)
            && (e.result.Err? ==> e.result.error == run.failure.value)
            && (e.result.Ok? && noWrite ==> e.result.value.records == Tagged(run.pages))
            && (e.result.Ok? && !noWrite ==> e.result.value.count == |Lines(e.files, path)| - |Lines(files, path)|)
  {
    TaggedLength(ActivityRun(srv, ids, Categories(categories), top, limit).pages);
  }

  // ---------------------------------------------------------------------------
  // Issues

  /** The raw issue records of `pages`, in order. */
  function RawIssues(pages: seq<IssuePage>): seq<Record>
  {
    if pages == [] then [] else RawIssues(pages[..|pages| - 1]) + pages[|pages| - 1].items
  }

  /** Stamping overwrites: only the last stamp stays. */
  lemma StampTwice(r: Record, a: int, b: int)
    ensures Stamp(Stamp(r, a), b) == Stamp(r, b)
  {
  }

  /** The `downloadTimestamp` quirk: once all pages are in, the issues of every
      page but the last carry the last page's clock reading, and the issues
      of the last page carry none of their own. */
  lemma {:induction false} AccumulateAt(pages: seq<IssuePage>, k: nat)
    requires k < |RawIssues(pages)|
    ensures |Accumulate(pages)| == |RawIssues(pages)|
    ensures var last := pages[|pages| - 1];
            var lastStart := |RawIssues(pages)| - |last.items|;
            Accumulate(pages)[k] == if k < lastStart then Stamp(RawIssues(pages)[k], last.now) else RawIssues(pages)[k]
    decreases |pages|
  {
    var init := pages[..|pages| - 1];
    var last := pages[|pages| - 1];
    AccumulateLength(init);
    var lastStart := |RawIssues(init)|;
    if k < lastStart {
      assert RawIssues(pages)[k] == RawIssues(init)[k];
      if init != [] {
        AccumulateAt(init, k);
        var prev := Accumulate(init)[k];
        StampTwice(RawIssues(init)[k], init[|init| - 1].now, last.now);
      }
    }
    AccumulateLength(pages);
  }

  lemma {:induction false} AccumulateLength(pages: seq<IssuePage>)
    ensures |Accumulate(pages)| == |RawIssues(pages)|
    decreases |pages|
  {
    if pages != [] {
      AccumulateLength(pages[..|pages| - 1]);
    }
  }

  /** The ids come out in the order the issues arrived: stamping never touches `id`. */
  lemma IssueIdsInOrder(pages: seq<IssuePage>)
    ensures var ids := IssueIds(Accumulate(pages));
            var raw := RawIssues(pages);
            && (ids.Ok? <==> forall k :: 0 <= k < |raw| ==> HasId(raw[k]))
            && (ids.Ok? ==> |ids.value.ids| == |raw| && forall k :: 0 <= k < |raw| ==> Str(ids.value.ids[k]) == raw[k]["id"])
  {
    var all := Accumulate(pages);
    var raw := RawIssues(pages);
    AccumulateLength(pages);
    forall k | 0 <= k < |raw|
      ensures HasId(all[k]) == HasId(raw[k]) && (HasId(raw[k]) ==> all[k]["id"] == raw[k]["id"])
    {
      AccumulateAt(pages, k);
    }
  }

  /** `page` is the non-empty answer to the first try at cursor `skip`. */
  ghost predicate IssuePageReceived(srv: Server, query: string, top: nat, page: IssuePage, skip: nat)
  {
    var req := IssuesPage(query, skip, top);
    && page.skip == skip && page.items != [] && page.now == Clock(srv, req)
    && ReplyTo(srv, req, 1).Received?
    && CheckResponse(ReplyTo(srv, req, 1).body).None?
    && PageItems(ReplyTo(srv, req, 1).body) == Some(page.items)
  }

  /** Every issue page was received at the cursor that counts the issues before it. */
  ghost predicate IssuePagesReceived(srv: Server, query: string, top: nat, pages: seq<IssuePage>)
    decreases |pages|
  {
    pages != [] ==>
      var init := pages[..|pages| - 1];
      IssuePagesReceived(srv, query, top, init) && IssuePageReceived(srv, query, top, pages[|pages| - 1], |RawIssues(init)|)
  }

  /** The same, page by page. */
  lemma {:induction false} IssuePageReceivedAt(srv: Server, query: string, top: nat, pages: seq<IssuePage>, i: nat)
    requires IssuePagesReceived(srv, query, top, pages) && i < |pages|
    ensures IssuePageReceived(srv, query, top, pages[i], |RawIssues(pages[..i])|)
    decreases |pages|
  {
    var init := pages[..|pages| - 1];
    if i < |init| {
      IssuePageReceivedAt(srv, query, top, init, i);
      assert init[..i] == pages[..i];
    }
  }

  /** The non-empty issue pages from cursor `skip` after `done`: each added
      page was received at the right cursor, and the run ends at an empty page. */
  lemma {:induction false} IssuePagesFromShape(srv: Server, query: string, top: nat, skip: nat,
                                               done: seq<IssuePage>, limit: nat)
    requires Drains(srv, limit)
    requires skip == |RawIssues(done)| && IssuePagesReceived(srv, query, top, done)
    ensures var r := IssuePagesFrom(srv, query, top, skip, done, limit);
            r.Ok? ==> IssuePagesReceived(srv, query, top, r.value) && EmptyAt(srv, IssuesPage(query, |RawIssues(r.value)|, top))
    decreases if skip < limit then limit - skip else 0
  {
    var req := IssuesPage(query, skip, top);
    var reply := ReplyTo(srv, req, 1);
    if reply.Received? && CheckResponse(reply.body).None? && PageItems(reply.body).Some?
       && |PageItems(reply.body).value| > 0 {
      var items := PageItems(reply.body).value;
      IssueStep(srv, query, top, skip, done, limit, items);
      IssuePagesFromShape(srv, query, top, skip + |items|, done + [IssuePage(skip, Clock(srv, req), items)], limit);
    }
  }

  /** After a non-empty issue page the run goes on from the next cursor. */
  lemma IssueStep(srv: Server, query: string, top: nat, skip: nat, done: seq<IssuePage>, limit: nat,
                  items: seq<Record>)
    requires Drains(srv, limit)
    requires skip == |RawIssues(done)| && IssuePagesReceived(srv, query, top, done)
    requires var reply := ReplyTo(srv, IssuesPage(query, skip, top), 1);
             reply.Received? && CheckResponse(reply.body).None? && PageItems(reply.body) == Some(items) && |items| > 0
    ensures var page := IssuePage(skip, Clock(srv, IssuesPage(query, skip, top)), items);
            && skip < limit
            && skip + |items| == |RawIssues(done + [page])|
            && IssuePagesReceived(srv, query, top, done + [page])
            && IssuePagesFrom(srv, query, top, skip, done, limit)
               == IssuePagesFrom(srv, query, top, skip + |items|, done + [page], limit)
  {
    var req := IssuesPage(query, skip, top);
    IssueUnfold(srv, query, top, skip, done, limit, items);
    IssueSnoc(srv, query, top, done, IssuePage(skip, Clock(srv, req), items));
  }

  /** A non-empty issue page moves the cursor past its issues. */
  lemma IssueUnfold(srv: Server, query: string, top: nat, skip: nat, done: seq<IssuePage>, limit: nat,
                    items: seq<Record>)
    requires Drains(srv, limit)
    requires var reply := ReplyTo(srv, IssuesPage(query, skip, top), 1);
             reply.Received? && CheckResponse(reply.body).None? && PageItems(reply.body) == Some(items) && |items| > 0
    ensures skip < limit
    ensures IssuePagesFrom(srv, query, top, skip, done, limit)
         == IssuePagesFrom(srv, query, top, skip + |items|,
                           done + [IssuePage(skip, Clock(srv, IssuesPage(query, skip, top)), items)], limit)
  {
    NonEmptyPageContinues(srv, IssuesPage(query, skip, top), items, limit);
  }

  /** One more page received at the cursor after `done`. */
  lemma IssueSnoc(srv: Server, query: string, top: nat, done: seq<IssuePage>, page: IssuePage)
    requires IssuePagesReceived(srv, query, top, done)
    requires IssuePageReceived(srv, query, top, page, |RawIssues(done)|)
    ensures |RawIssues(done + [page])| == |RawIssues(done)| + |page.items|
    ensures IssuePagesReceived(srv, query, top, done + [page])
  {
    assert (done + [page])[..|done|] == done;
  }

  /** The request gets an empty page. */
  ghost predicate EmptyAt(srv: Server, req: Request)
  {
    && ReplyTo(srv, req, 1).Received?
    && CheckResponse(ReplyTo(srv, req, 1).body).None?
    && PageItems(ReplyTo(srv, req, 1).body) == Some([])
  }

  /** A completed issue download: page `i` is the answer at the cursor that
      counts the issues before it, and the download stopped on the first
      empty answer, at the cursor after the last issue. */
  lemma IssuePagesShape(srv: Server, query: string, top: nat, limit: nat)
    requires Drains(srv, limit)
    ensures var r := IssuePages(srv, query, top, limit);
            r.Ok? ==>
              && (forall i :: 0 <= i < |r.value| ==> IssuePageReceived(srv, query, top, r.value[i], |RawIssues(r.value[..i])|))
              && EmptyAt(srv, IssuesPage(query, |RawIssues(r.value)|, top))
  {
    IssuePagesFromShape(srv, query, top, 0, [], limit);
    var r := IssuePages(srv, query, top, limit);
    if r.Ok? {
      forall i | 0 <= i < |r.value|
        ensures IssuePageReceived(srv, query, top, r.value[i], |RawIssues(r.value[..i])|)
      {
        IssuePageReceivedAt(srv, query, top, r.value, i);
      }
    }
  }

  /** `line` is the issue `raw` as written: tagged as an issue, with every
      other field it arrived with except the timestamp. */
  ghost predicate IssueLine(line: Record, raw: Record)
  {
    && "element_type" in line && line["element_type"] == Str("issue")
    && forall key :: key in raw && key != "element_type" && key != "downloadTimestamp" ==> key in line && line[key] == raw[key]
  }

  lemma IssueLineAt(pages: seq<IssuePage>, k: nat)
    requires k < |RawIssues(pages)|
    ensures |TagIssues(Accumulate(pages))| == |RawIssues(pages)|
    ensures IssueLine(TagIssues(Accumulate(pages))[k], RawIssues(pages)[k])
  {
    AccumulateAt(pages, k);
  }

  /** The lines the issues of `pages` add to `path`: one per issue, in order. */
  ghost predicate WroteIssues(files: Files, after: Files, path: string, raw: seq<Record>)
  {
    var before := Lines(files, path);
    && |Lines(after, path)| == |before| + |raw|
    && Lines(after, path)[..|before|] == before
    && (forall k :: 0 <= k < |raw| ==> IssueLine(Lines(after, path)[|before| + k], raw[k]))
    && (forall p :: p != path ==> Lines(after, p) == Lines(files, p))
  }

  lemma WriteIssuesLines(files: Files, path: string, pages: seq<IssuePage>)
    ensures WroteIssues(files, Appended(files, path, TagIssues(Accumulate(pages))), path, RawIssues(pages))
  {
    var raw := RawIssues(pages);
    var before := Lines(files, path);
    var written := TagIssues(Accumulate(pages));
    AccumulateLength(pages);
    var after := Lines(Appended(files, path, written), path);
    assert after == before + written;
    forall k | 0 <= k < |raw|
      ensures IssueLine(after[|before| + k], raw[k])
    {
      IssueLineAt(pages, k);
    }
  }

  /** What an issue download leaves behind. A page that cannot be had
      writes nothing. Once every page has arrived, one line per issue
      received is written, in order, each the issue as it arrived, tagged;
      an issue without an id fails only after all of them were written. */
  lemma IssuesDownloadEffect(srv: Server, query: string, top: nat, path: string, returnIds: bool,
                             files: Files, limit: nat)
    requires Drains(srv, limit)
    ensures var e := IssuesDownload(srv, query, top, path, returnIds, files, limit);
            var r := IssuePages(srv, query, top, limit);
            && (r.Err? ==> e == Effect(Err(r.error), files))
            && (r.Ok? ==> WroteIssues(files, e.files, path, RawIssues(r.value))
                          && (!returnIds ==> e.result == Ok(Count(|RawIssues(r.value)|))))
  {
    var r := IssuePages(srv, query, top, limit);
    if r.Ok? {
      WriteIssuesLines(files, path, r.value);
      AccumulateLength(r.value);
    }
  }

  // ---------------------------------------------------------------------------
  // Finite servers

  /** One more than the largest cursor the table answers for. */
  ghost function CursorBound(keys: set<(Request, nat)>): (bound: nat)
    ensures forall key :: key in keys ==> key.0.skip < bound
    decreases |keys|
  {
    if keys == {} then 0
    else
      var key :| key in keys;
      var rest := CursorBound(keys - {key});
      if key.0.skip < rest then rest else key.0.skip + 1
  }

  /** A server given by a finite table always drains: beyond the largest
      cursor it answers for, every attempt raises. */
  lemma FiniteServerDrains(srv: Server)
    ensures Drains(srv, CursorBound(srv.replies.Keys))
  {
    var limit := CursorBound(srv.replies.Keys);
    forall req: Request | limit <= req.skip
      ensures Final(srv, req)
    {
      forall attempt: nat
        ensures !Continues(req, ReplyTo(srv, req, attempt))
      {
        assert (req, attempt) !in srv.replies;
      }
    }
  }
}
