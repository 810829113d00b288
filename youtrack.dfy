/** The YouTrack REST client: request headers, the per-page retry, the
    paginated issue download and the paginated per-issue activity download.

    The server is a value: for every page request and attempt number it
    gives the reply, and for every request the clock reading taken after
    that page arrived. Each download method is proved against a function
    that computes the same run from the server value alone. */
module YouTrackApi {
  import opened Values
  import opened FileStore

  /** Attempts per activity page (`attempt` runs 1..4). */
  const MAX_ATTEMPTS: nat := 4

  /** The page size the client is built with unless told otherwise. */
  const DEFAULT_PAGE_SIZE: nat := 1000

  /** The activity categories asked for when the caller names none. */
  const ALL_CATEGORIES: string :=
    "CommentsCategory,CommentTextCategory,"
    + "AttachmentsCategory,AttachmentRenameCategory,CustomFieldCategory,DescriptionCategory,"
    + "IssueCreatedCategory,IssueResolvedCategory,LinksCategory,ProjectCategory,IssueVisibilityCategory,"
    + "SprintCategory,SummaryCategory,TagsCategory,CommentReactionCategory,"
    + "VotersCategory,VcsChangeCategory"

  /** The message of the error raised for an activity page with an error body. */
  const PROBLEM_MESSAGE: string := "downloading failed "

  // ---------------------------------------------------------------------------
  // The server

  /** One page request: the parameters the URL template is filled with. */
  datatype Request =
    | IssuesPage(query: string, skip: nat, top: nat)
    | ActivitiesPage(issue: string, categories: string, skip: nat, top: nat)

  /** A decoded response body: a JSON array of records, or a JSON object. */
  datatype Body = Items(items: seq<Record>) | Object(fields: map<string, Json>)

  /** What one attempt at a request yields: the transport or the decoder raised, or a body. */
  datatype Reply = TransportFailure | Received(body: Body)

  /** The server as the loader can observe it: the reply to each attempt at
      each request, and the clock reading taken after each page. An attempt
      the table does not list raises; a request it gives no reading for reads 0. */
  datatype Server = Server(replies: map<(Request, nat), Reply>, clocks: map<Request, int>)

  function ReplyTo(srv: Server, req: Request, attempt: nat): Reply
  {
    if (req, attempt) in srv.replies then srv.replies[(req, attempt)] else TransportFailure
  }

  function Clock(srv: Server, req: Request): int
  {
    if req in srv.clocks then srv.clocks[req] else 0
  }

  /** Whether the loader asks for another page after this reply: a non-empty
      issue page, or an activity page that is not shorter than `$top`. */
  predicate Continues(req: Request, reply: Reply)
  {
    && reply.Received?
    && reply.body.Items?
    && if req.IssuesPage? then |reply.body.items| > 0 else |reply.body.items| >= req.top
  }

  /** The server holds finitely many items: from cursor `limit` on, no reply
      continues the pagination. Without such a bound the loops need not stop. */
  ghost predicate Drains(srv: Server, limit: nat)
  {
    forall req: Request {:trigger Final(srv, req)} :: limit <= req.skip ==> Final(srv, req)
  }

  /** No reply to `req`, on any attempt, asks for a further page. */
  ghost predicate Final(srv: Server, req: Request)
  {
    forall attempt: nat :: !Continues(req, ReplyTo(srv, req, attempt))
  }

  /** `check_response`: the value it raises with, if it raises. A record list
      never contains the string "error", so only an object body can raise. */
  function CheckResponse(body: Body): (raised: Option<Json>)
    ensures raised.Some? <==> body.Object? && "error" in body.fields
    ensures raised.Some? ==> raised.value == body.fields["error"]
  {
    if body.Object? && "error" in body.fields then Some(body.fields["error"]) else None
  }

  /** The records the loaders iterate over in a body that passed `check_response`.
      An empty object has no items; a non-empty one cannot be iterated as records. */
  function PageItems(body: Body): (items: Option<seq<Record>>)
    ensures body.Items? ==> items == Some(body.items)
    ensures body.Object? ==> (items.Some? <==> body.fields == map[])
    ensures items.Some? && body.Object? ==> items.value == []
  {
    match body
    case Items(records) => Some(records)
    case Object(fields) => if fields == map[] then Some([]) else None
  }

  // ---------------------------------------------------------------------------
  // Retry

  /** The outcome of the retried request: the body of the first attempt that
      did not raise, or giving up after the last attempt. */
  datatype Attempted = Got(attempt: nat, body: Body) | GaveUp

  /** The attempts `attempt`..MAX_ATTEMPTS of one request, stopping at the first that does not raise. */
  function Retry(srv: Server, req: Request, attempt: nat): (r: Attempted)
    requires 1 <= attempt <= MAX_ATTEMPTS + 1
    decreases MAX_ATTEMPTS + 1 - attempt
    ensures r.Got? ==> attempt <= r.attempt <= MAX_ATTEMPTS && ReplyTo(srv, req, r.attempt) == Received(r.body)
  {
    if attempt > MAX_ATTEMPTS then GaveUp
    else match ReplyTo(srv, req, attempt)
      case Received(body) => Got(attempt, body)
      case TransportFailure => Retry(srv, req, attempt + 1)
  }

  /** The retry loop takes the first attempt that gets a body, and gives up
      exactly when every remaining attempt raises. */
  lemma {:induction false} RetryFirstSuccess(srv: Server, req: Request, attempt: nat)
    requires 1 <= attempt <= MAX_ATTEMPTS + 1
    decreases MAX_ATTEMPTS + 1 - attempt
    ensures var r := Retry(srv, req, attempt);
            && (r.Got? ==> forall a :: attempt <= a < r.attempt ==> ReplyTo(srv, req, a) == TransportFailure)
            && (r.GaveUp? <==> forall a :: attempt <= a <= MAX_ATTEMPTS ==> ReplyTo(srv, req, a) == TransportFailure)
  {
    if attempt <= MAX_ATTEMPTS && ReplyTo(srv, req, attempt).TransportFailure? {
      RetryFirstSuccess(srv, req, attempt + 1);
    }
  }

  /** The retry loop around one activity page request. */
  method RequestWithRetry(srv: Server, req: Request) returns (r: Attempted)
    ensures r == Retry(srv, req, 1)
  {
    var attempt := 1;
    while attempt < MAX_ATTEMPTS + 1
      invariant 1 <= attempt <= MAX_ATTEMPTS + 1
      invariant Retry(srv, req, attempt) == Retry(srv, req, 1)
    {
      var reply := ReplyTo(srv, req, attempt);
      if reply.Received? {
        return Got(attempt, reply.body);
      }
      attempt := attempt + 1;
    }
    return GaveUp;
  }

  // ---------------------------------------------------------------------------
  // Activities

  /** One activity page as received: whose it is, at which cursor, when, and its raw records. */
  datatype Page = Page(issue: string, skip: nat, now: int, items: seq<Record>)

  /** The pages a run received, in request order, and how it stopped. */
  datatype Trace = Trace(pages: seq<Page>, failure: Option<Failure>)

  function Prefixed(done: seq<Page>, t: Trace): Trace
  {
    Trace(done + t.pages, t.failure)
  }

  /** `t`, followed by `rest` unless `t` failed. */
  function Then(t: Trace, rest: Trace): Trace
  {
    if t.failure.Some? then t else Prefixed(t.pages, rest)
  }

  function Categories(categories: Option<string>): string
  {
    if categories.None? then ALL_CATEGORIES else categories.value
  }

  /** One activity page request, retried, then checked: its records, or why the download stops there. */
  function ActivityPage(srv: Server, req: Request): (r: Result<seq<Record>>)
    requires req.ActivitiesPage?
    ensures r.Ok? ==> var got := Retry(srv, req, 1);
                      got.Got? && CheckResponse(got.body).None? && PageItems(got.body) == Some(r.value)
  {
    match Retry(srv, req, 1)
    case GaveUp => Err(RetrievalFailed)
    case Got(_, body) =>
      if CheckResponse(body).Some? then Err(IssueProblem(PROBLEM_MESSAGE, req.issue))
      else match PageItems(body)
        case None => Err(UnexpectedBody)
        case Some(items) => Ok(items)
  }

  /** The request, retry and checks of one activity page. */
  method FetchActivityPage(srv: Server, req: Request) returns (r: Result<seq<Record>>)
    requires req.ActivitiesPage?
    ensures r == ActivityPage(srv, req)
  {
    var outcome := RequestWithRetry(srv, req);
    if outcome.GaveUp? {
      return Err(RetrievalFailed);
    }
    if CheckResponse(outcome.body).Some? {
      return Err(IssueProblem(PROBLEM_MESSAGE, req.issue));
    }
    var items := PageItems(outcome.body);
    if items.None? {
      return Err(UnexpectedBody);
    }
    return Ok(items.value);
  }

  /** The activity pages of one issue received after `done`, from cursor `skip`
      on: `done` followed by each page up to and including the first short one,
      and why the download of the issue stopped if it did not end there. */
  function IssueActivitiesFrom(srv: Server, issue: string, categories: string, top: nat, skip: nat,
                               done: seq<Page>, limit: nat): Trace
    requires top > 0 && Drains(srv, limit)
    decreases if skip < limit then limit - skip else 0
  {
    var req := ActivitiesPage(issue, categories, skip, top);
    match ActivityPage(srv, req)
    case Err(f) => Trace(done, Some(f))
    case Ok(items) =>
      var page := Page(issue, skip, Clock(srv, req), items);
      if |items| < top then Trace(done + [page], None)
      else
        FullPageContinues(srv, req, items, limit);
        IssueActivitiesFrom(srv, issue, categories, top, skip + |items|, done + [page], limit)
  }

  /** The activity pages of one issue, from cursor 0. */
  function IssueActivities(srv: Server, issue: string, categories: string, top: nat, limit: nat): Trace
    requires top > 0 && Drains(srv, limit)
  {
    IssueActivitiesFrom(srv, issue, categories, top, 0, [], limit)
  }

  /** The activity pages of the issues `ids`, in order, up to the first failure. */
  function ActivityRun(srv: Server, ids: seq<string>, categories: string, top: nat, limit: nat): Trace
    requires top > 0 && Drains(srv, limit)
  {
    if ids == [] then Trace([], None)
    else Then(IssueActivities(srv, ids[0], categories, top, limit), ActivityRun(srv, ids[1..], categories, top, limit))
  }

  lemma IssueActivitiesStep(srv: Server, issue: string, categories: string, top: nat, skip: nat,
                            done: seq<Page>, limit: nat, items: seq<Record>, page: Page)
    requires top > 0 && Drains(srv, limit)
    requires ActivityPage(srv, ActivitiesPage(issue, categories, skip, top)) == Ok(items)
    requires page == Page(issue, skip, Clock(srv, ActivitiesPage(issue, categories, skip, top)), items)
    requires |items| >= top
    ensures skip < limit
    ensures IssueActivitiesFrom(srv, issue, categories, top, skip, done, limit)
         == IssueActivitiesFrom(srv, issue, categories, top, skip + |items|, done + [page], limit)
  {
    FullPageContinues(srv, ActivitiesPage(issue, categories, skip, top), items, limit);
  }

  /** A full activity page is only ever received below the cursor bound. */
  lemma FullPageContinues(srv: Server, req: Request, items: seq<Record>, limit: nat)
    requires req.ActivitiesPage? && req.top > 0 && Drains(srv, limit)
    requires ActivityPage(srv, req) == Ok(items) && |items| >= req.top
    ensures req.skip < limit
  {
    assert Continues(req, ReplyTo(srv, req, Retry(srv, req, 1).attempt));
    assert !Final(srv, req);
  }

  lemma PrefixedTwice(done: seq<Page>, more: seq<Page>, t: Trace)
    ensures Prefixed(done, Prefixed(more, t)) == Prefixed(done + more, t)
  {
    assert done + (more + t.pages) == (done + more) + t.pages;
  }

  lemma TaggedSnoc(done: seq<Page>, page: Page)
    ensures Tagged(done + [page]) == Tagged(done) + TagPage(page)
    ensures ItemCount(done + [page]) == ItemCount(done) + |page.items|
  {
    assert (done + [page])[..|done|] == done;
  }

  /** The provenance fields put on every activity record. */
  const ACTIVITY_FIELDS: set<string> := {"element_type", "issue_id", "download_timestamp"}

  /** An activity record with its provenance fields set. */
  function TagActivity(r: Record, issue: string, now: int): Record
  {
    r["element_type" := Str("activity")]["issue_id" := Str(issue)]["download_timestamp" := Int(now)]
  }

  /** Tagging adds exactly the provenance fields, with the page's issue and
      clock reading, and leaves every other field as it was. */
  lemma TagActivityFields(r: Record, issue: string, now: int)
    ensures var t := TagActivity(r, issue, now);
            && t.Keys == r.Keys + ACTIVITY_FIELDS
            && t["element_type"] == Str("activity")
            && t["issue_id"] == Str(issue)
            && t["download_timestamp"] == Int(now)
            && forall k :: k in r && k !in ACTIVITY_FIELDS ==> t[k] == r[k]
  {
  }

  /** The records of one activity page of `issue`, read at clock `now`, tagged. */
  function TagRecords(items: seq<Record>, issue: string, now: int): (rs: seq<Record>)
    ensures |rs| == |items|
  {
    seq(|items|, k requires 0 <= k < |items| => TagActivity(items[k], issue, now))
  }

  function TagPage(p: Page): (rs: seq<Record>)
    ensures |rs| == |p.items|
  {
    TagRecords(p.items, p.issue, p.now)
  }

  /** The `for activity in activity_list` loop that sets the provenance fields. */
  method TagActivities(activityList: seq<Record>, issue: string, now: int) returns (tagged: seq<Record>)
    ensures tagged == TagRecords(activityList, issue, now)
  {
    tagged := [];
    for k := 0 to |activityList|
      invariant tagged == TagRecords(activityList, issue, now)[..k]
    {
      tagged := tagged + [TagActivity(activityList[k], issue, now)];
    }
  }

  /** The tagged records of `pages`, in order. */
  function Tagged(pages: seq<Page>): seq<Record>
  {
    if pages == [] then [] else Tagged(pages[..|pages| - 1]) + TagPage(pages[|pages| - 1])
  }

  /** The number of records in `pages`. */
  function ItemCount(pages: seq<Page>): nat
  {
    if pages == [] then 0 else ItemCount(pages[..|pages| - 1]) + |pages[|pages| - 1].items|
  }

  /** What a call returns and what the files hold afterwards. */
  datatype Effect<T> = Effect(result: Result<T>, files: Files)

  /** `download_activities_per_issue` returns the records in `no_write_to_file` mode, the total otherwise. */
  datatype ActivitiesResult = Records(records: seq<Record>) | Total(count: nat)

  /** The whole activity download: written pages stay written when a later page fails. */
  function ActivitiesDownload(srv: Server, ids: seq<string>, categories: Option<string>, top: nat,
                              path: string, noWrite: bool, files: Files, limit: nat): (e: Effect<ActivitiesResult>)
    requires top > 0 && Drains(srv, limit)
    ensures e.result.Ok? ==> (e.result.value.Records? <==> noWrite)
    ensures noWrite ==> e.files == files
  {
    var run := ActivityRun(srv, ids, Categories(categories), top, limit);
    var written := Tagged(run.pages);
    Effect(
      if run.failure.Some? then Err(run.failure.value)
      else if noWrite then Ok(Records(written))
      else Ok(Total(ItemCount(run.pages))),
      if noWrite then files else Appended(files, path, written))
  }

  lemma {:induction false} TaggedConcat(a: seq<Page>, b: seq<Page>)
    ensures Tagged(a + b) == Tagged(a) + Tagged(b)
    decreases |b|
  {
    if b == [] {
      assert a + b == a;
    } else {
      var b', last := b[..|b| - 1], b[|b| - 1];
      var ab := a + b;
      assert ab[..|ab| - 1] == a + b';
      assert ab[|ab| - 1] == last;
      assert Tagged(ab) == Tagged(a + b') + TagPage(last);
      TaggedConcat(a, b');
      assert Tagged(b) == Tagged(b') + TagPage(last);
    }
  }

  lemma {:induction false} ItemCountConcat(a: seq<Page>, b: seq<Page>)
    ensures ItemCount(a + b) == ItemCount(a) + ItemCount(b)
    decreases |b|
  {
    if b == [] {
      assert a + b == a;
    } else {
      var b' := b[..|b| - 1];
      assert (a + b)[..|a + b| - 1] == a + b';
      assert (a + b)[|a + b| - 1] == b[|b| - 1];
      ItemCountConcat(a, b');
    }
  }

  /** The download when the run stops with `f` after the pages `done`. */
  lemma Stopped(srv: Server, ids: seq<string>, categories: Option<string>, top: nat,
                path: string, noWrite: bool, files: Files, limit: nat, done: seq<Page>, f: Failure)
    requires top > 0 && Drains(srv, limit)
    requires ActivityRun(srv, ids, Categories(categories), top, limit) == Prefixed(done, Trace([], Some(f)))
    ensures ActivitiesDownload(srv, ids, categories, top, path, noWrite, files, limit)
         == Effect(Err(f), if noWrite then files else Appended(files, path, Tagged(done)))
  {
    assert done + [] == done;
  }

  // ---------------------------------------------------------------------------
  // Issues

  /** One non-empty issue page as received. */
  datatype IssuePage = IssuePage(skip: nat, now: int, items: seq<Record>)

  /** The non-empty issue pages received after `done`, from cursor `skip` up to
      the first empty page; any failure discards them all. */
  function IssuePagesFrom(srv: Server, query: string, top: nat, skip: nat, done: seq<IssuePage>, limit: nat)
    : Result<seq<IssuePage>>
    requires Drains(srv, limit)
    decreases if skip < limit then limit - skip else 0
  {
    var req := IssuesPage(query, skip, top);
    match ReplyTo(srv, req, 1)
    case TransportFailure => Err(TransportError)
    case Received(body) =>
      match CheckResponse(body)
      case Some(error) => Err(ServerError(error))
      case None =>
        match PageItems(body)
        case None => Err(UnexpectedBody)
        case Some(items) =>
          if |items| == 0 then Ok(done)
          else
            NonEmptyPageContinues(srv, req, items, limit);
            IssuePagesFrom(srv, query, top, skip + |items|, done + [IssuePage(skip, Clock(srv, req), items)], limit)
  }

  /** The non-empty issue pages from cursor 0. */
  function IssuePages(srv: Server, query: string, top: nat, limit: nat): Result<seq<IssuePage>>
    requires Drains(srv, limit)
  {
    IssuePagesFrom(srv, query, top, 0, [], limit)
  }

  /** A non-empty issue page is only ever received below the cursor bound. */
  lemma NonEmptyPageContinues(srv: Server, req: Request, items: seq<Record>, limit: nat)
    requires req.IssuesPage? && Drains(srv, limit)
    requires ReplyTo(srv, req, 1).Received? && PageItems(ReplyTo(srv, req, 1).body) == Some(items) && |items| > 0
    ensures req.skip < limit
  {
    assert Continues(req, ReplyTo(srv, req, 1));
    assert !Final(srv, req);
  }

  function Stamp(r: Record, now: int): Record
  {
    r["downloadTimestamp" := Int(now)]
  }

  function StampAll(rs: seq<Record>, now: int): (out: seq<Record>)
    ensures |out| == |rs|
  {
    seq(|rs|, k requires 0 <= k < |rs| => Stamp(rs[k], now))
  }

  /** `all_issues` after the pages `pages`: each non-empty page first stamps the
      issues already held with its clock reading, then joins them. */
  function Accumulate(pages: seq<IssuePage>): seq<Record>
  {
    if pages == [] then []
    else
      var last := pages[|pages| - 1];
      StampAll(Accumulate(pages[..|pages| - 1]), last.now) + last.items
  }

  lemma AccumulateSnoc(done: seq<IssuePage>, page: IssuePage)
    ensures Accumulate(done + [page]) == StampAll(Accumulate(done), page.now) + page.items
  {
    assert (done + [page])[..|done|] == done;
  }

  /** The `for issue in all_issues` loop that stamps the issues already held. */
  method StampIssues(allIssues: seq<Record>, now: int) returns (stamped: seq<Record>)
    ensures stamped == StampAll(allIssues, now)
  {
    stamped := allIssues;
    for k := 0 to |allIssues|
      invariant |stamped| == |allIssues|
      invariant forall j :: 0 <= j < k ==> stamped[j] == Stamp(allIssues[j], now)
      invariant forall j :: k <= j < |allIssues| ==> stamped[j] == allIssues[j]
    {
      stamped := stamped[k := Stamp(stamped[k], now)];
    }
  }

  /** The writing loop of `download_issues`: each issue, tagged, becomes one line of `path`. */
  method WriteIssues(fs: FileSystem, path: string, allIssues: seq<Record>)
    modifies fs
    ensures fs.files == Appended(old(fs.files), path, TagIssues(allIssues))
  {
    for k := 0 to |allIssues|
      invariant fs.files == Appended(old(fs.files), path, TagIssues(allIssues[..k]))
    {
      var line := TagIssue(allIssues[k]);
      fs.Append(path, [line]);
      AppendedTwice(old(fs.files), path, TagIssues(allIssues[..k]), [line]);
      assert TagIssues(allIssues[..k + 1]) == TagIssues(allIssues[..k]) + [line];
    }
    assert allIssues[..|allIssues|] == allIssues;
  }

  function TagIssue(r: Record): Record
  {
    r["element_type" := Str("issue")]
  }

  function TagIssues(rs: seq<Record>): (out: seq<Record>)
    ensures |out| == |rs|
  {
    seq(|rs|, k requires 0 <= k < |rs| => TagIssue(rs[k]))
  }

  /** `download_issues` returns the ids with `return_ids`, the count otherwise. */
  datatype IssuesResult = Ids(ids: seq<string>) | Count(count: nat)

  predicate HasId(r: Record)
  {
    "id" in r && r["id"].Str?
  }

  /** `[issue['id'] for issue in all_issues]`. */
  function IssueIds(rs: seq<Record>): (r: Result<IssuesResult>)
    ensures r.Ok? <==> forall k :: 0 <= k < |rs| ==> HasId(rs[k])
    ensures r.Ok? ==> r.value.Ids? && |r.value.ids| == |rs|
    ensures r.Ok? ==> forall k :: 0 <= k < |rs| ==> Str(r.value.ids[k]) == rs[k]["id"]
    ensures r.Err? ==> r.error == MissingId
  {
    if forall k :: 0 <= k < |rs| ==> HasId(rs[k])
    then Ok(Ids(seq(|rs|, k requires 0 <= k < |rs| => rs[k]["id"].s)))
    else Err(MissingId)
  }

  /** The whole issue download: nothing is written unless every page arrived. */
  function IssuesDownload(srv: Server, query: string, top: nat, path: string, returnIds: bool,
                          files: Files, limit: nat): (e: Effect<IssuesResult>)
    requires Drains(srv, limit)
    ensures e.result.Ok? ==> (e.result.value.Ids? <==> returnIds)
  {
    match IssuePages(srv, query, top, limit)
    case Err(f) => Effect(Err(f), files)
    case Ok(pages) =>
      var all := Accumulate(pages);
      Effect(if returnIds then IssueIds(all) else Ok(Count(|all|)), Appended(files, path, TagIssues(all)))
  }

  // ---------------------------------------------------------------------------
  // The client

  /** The headers sent with every request. */
  function RequestHeaders(token: Option<string>): (h: map<string, string>)
    ensures "Accept" in h && h["Accept"] == "application/json"
    ensures "Authorization" in h <==> token.Some?
    ensures token.Some? ==> h["Authorization"] == "Bearer " + token.value
    ensures h.Keys <= {"Accept", "Authorization"}
  {
    var h := map["Accept" := "application/json"];
    if token.Some? then h["Authorization" := "Bearer " + token.value] else h
  }

  class YouTrack {
    const url: string
    const newApiUrl: string
    const oldApiUrl: string
    const headers: map<string, string>
    const pageSize: nat

    constructor (url: string, token: Option<string>, pageSize: nat)
      ensures this.url == url && newApiUrl == url + "api/" && oldApiUrl == url + "rest/"
      ensures headers == RequestHeaders(token)
      ensures this.pageSize == pageSize
    {
      this.url := url;
      newApiUrl := url + "api/";
      oldApiUrl := url + "rest/";
      headers := RequestHeaders(token);
      this.pageSize := pageSize;
    }

    /** `download_activities_per_issue`. */
    method DownloadActivitiesPerIssue(srv: Server, issueIds: seq<string>, filePath: string,
                                      categories: Option<string>, noWriteToFile: bool,
                                      fs: FileSystem, ghost limit: nat)
      returns (r: Result<ActivitiesResult>)
      requires pageSize > 0 && Drains(srv, limit)
      modifies fs
      ensures Effect(r, fs.files)
           == ActivitiesDownload(srv, issueIds, categories, pageSize, filePath, noWriteToFile, old(fs.files), limit)
    {
      ghost var cats := Categories(categories);
      ghost var whole := ActivityRun(srv, issueIds, cats, pageSize, limit);
      ghost var files0 := fs.files;
      ghost var done: seq<Page> := [];
      var totalActivities := 0;
      var downloaded: seq<Record> := [];
      var i := 0;
      while i < |issueIds|
        invariant i <= |issueIds|
        invariant whole == Prefixed(done, ActivityRun(srv, issueIds[i..], cats, pageSize, limit))
        invariant totalActivities == ItemCount(done)
        invariant downloaded == if noWriteToFile then Tagged(done) else []
        invariant fs.files == if noWriteToFile then files0 else Appended(files0, filePath, Tagged(done))
      {
        var issueId := issueIds[i];
        assert issueIds[i..][1..] == issueIds[i + 1..];
        ghost var rest := ActivityRun(srv, issueIds[i + 1..], cats, pageSize, limit);
        ghost var pages := IssueActivities(srv, issueId, cats, pageSize, limit);
        assert ActivityRun(srv, issueIds[i..], cats, pageSize, limit) == Then(pages, rest);
        ghost var filesBefore := fs.files;
        var failure, count, records := DownloadIssueActivities(srv, issueId, categories, filePath, noWriteToFile, fs, limit);
        TaggedConcat(done, pages.pages);
        ItemCountConcat(done, pages.pages);
        if !noWriteToFile {
          AppendedTwice(files0, filePath, Tagged(done), Tagged(pages.pages));
        }
        if failure.Some? {
          Stopped(srv, issueIds, categories, pageSize, filePath, noWriteToFile, files0, limit, done + pages.pages, failure.value);
          return Err(failure.value);
        }
        PrefixedTwice(done, pages.pages, rest);
        totalActivities := totalActivities + count;
        downloaded := downloaded + records;
        done := done + pages.pages;
        i := i + 1;
      }
      assert issueIds[i..] == [];
      assert whole == Trace(done, None) by {
        assert done + [] == done;
      }
      if noWriteToFile {
        r := Ok(Records(downloaded));
      } else {
        r := Ok(Total(totalActivities));
      }
    }

    /** The `while True` loop of `download_activities_per_issue` for one issue:
        pages from cursor 0 until the first page shorter than `page_size`.
        Returns how it stopped, the number of records it received, and the
        tagged records themselves in `no_write_to_file` mode. */
    method DownloadIssueActivities(srv: Server, issueId: string, categories: Option<string>, filePath: string,
                                   noWriteToFile: bool, fs: FileSystem, ghost limit: nat)
      returns (failure: Option<Failure>, count: nat, records: seq<Record>)
      requires pageSize > 0 && Drains(srv, limit)
      modifies fs
      ensures var t := IssueActivities(srv, issueId, Categories(categories), pageSize, limit);
              && failure == t.failure
              && count == ItemCount(t.pages)
              && records == (if noWriteToFile then Tagged(t.pages) else [])
              && fs.files == if noWriteToFile then old(fs.files) else Appended(old(fs.files), filePath, Tagged(t.pages))
    {
      ghost var cats := Categories(categories);
      ghost var whole := IssueActivities(srv, issueId, cats, pageSize, limit);
      ghost var files0 := fs.files;
      ghost var done: seq<Page> := [];
      count, records := 0, [];
      var skip: nat := 0;
      while true
        invariant IssueActivitiesFrom(srv, issueId, cats, pageSize, skip, done, limit) == whole
        invariant count == ItemCount(done)
        invariant records == if noWriteToFile then Tagged(done) else []
        invariant fs.files == if noWriteToFile then files0 else Appended(files0, filePath, Tagged(done))
        decreases if skip < limit then limit - skip else 0
      {
        var neededCategories := Categories(categories);
        var request := ActivitiesPage(issueId, neededCategories, skip, pageSize);
        var fetched := FetchActivityPage(srv, request);
        if fetched.Err? {
          return Some(fetched.error), count, records;
        }
        var activityList := fetched.value;
        var now := Clock(srv, request);
        ghost var page := Page(issueId, skip, now, activityList);
        if |activityList| >= pageSize {
          IssueActivitiesStep(srv, issueId, cats, pageSize, skip, done, limit, activityList, page);
        }
        var tagged := TagActivities(activityList, issueId, now);
        TaggedSnoc(done, page);
        if noWriteToFile {
          records := records + tagged;
        } else {
          fs.Append(filePath, tagged);
          AppendedTwice(files0, filePath, Tagged(done), tagged);
        }
        done := done + [page];
        count := count + |activityList|;
        if |activityList| < pageSize {
          break;
        }
        skip := skip + |activityList|;
      }
      failure := None;
    }

    /** `download_issues`. */
    method DownloadIssues(srv: Server, query: string, filePath: string, returnIds: bool,
                          fs: FileSystem, ghost limit: nat)
      returns (r: Result<IssuesResult>)
      requires Drains(srv, limit)
      modifies fs
      ensures Effect(r, fs.files) == IssuesDownload(srv, query, pageSize, filePath, returnIds, old(fs.files), limit)
    {
      ghost var whole := IssuePages(srv, query, pageSize, limit);
      ghost var done: seq<IssuePage> := [];
      var skip: nat := 0;
      var allIssues: seq<Record> := [];
      while true
        invariant IssuePagesFrom(srv, query, pageSize, skip, done, limit) == whole
        invariant allIssues == Accumulate(done)
        invariant fs.files == old(fs.files)
        decreases if skip < limit then limit - skip else 0
      {
        var request := IssuesPage(query, skip, pageSize);
        var reply := ReplyTo(srv, request, 1);
        if reply.TransportFailure? {
          return Err(TransportError);
        }
        var raised := CheckResponse(reply.body);
        if raised.Some? {
          return Err(ServerError(raised.value));
        }
        var items := PageItems(reply.body);
        if items.None? {
          return Err(UnexpectedBody);
        }
        var loadedIssues := items.value;
        if |loadedIssues| == 0 {
          break;
        }
        NonEmptyPageContinues(srv, request, loadedIssues, limit);
        var now := Clock(srv, request);
        allIssues := StampIssues(allIssues, now);
        ghost var page := IssuePage(skip, now, loadedIssues);
        AccumulateSnoc(done, page);
        skip := skip + |loadedIssues|;
        allIssues := allIssues + loadedIssues;
        done := done + [page];
      }
      WriteIssues(fs, filePath, allIssues);
      if returnIds {
        r := IssueIds(allIssues);
      } else {
        r := Ok(Count(|allIssues|));
      }
    }
  }
}
