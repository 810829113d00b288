/** `download_data`: validate the snapshot range, then walk it one week at a
    time in the chosen direction; for each window download the issues whose
    `created`/`updated` time falls inside it, and then the activities of
    those issues.

    Timestamps are whole seconds. The windows are naive datetimes stepped by
    `relativedelta(weeks=1)`, which is exactly 604800 seconds. How a
    timestamp is rendered as text (`strftime`) is a parameter of the model. */
module DownloadActivities {
  import opened Values
  import opened FileStore
  import opened YouTrackApi
  import opened YouTrackProperties

  /** One week, in seconds. */
  const WEEK: int := 604800

  /** The totals `download_data` logs at the end of a run. */
  datatype Totals = Totals(issues: nat, activities: nat)

  /** Everything about a run that stays fixed while the windows are walked. */
  datatype Settings = Settings(query: string, issuesFile: string, activitiesFile: string,
                               loadIssues: bool, loadActivities: bool, orderBy: string, queryType: string)

  /** One time window: the query covers `lo .. hi`. In descending runs `lo` is the later bound. */
  datatype Window = Window(lo: int, hi: int)

  function Distance(a: int, b: int): nat
  {
    if a <= b then b - a else a - b
  }

  // ---------------------------------------------------------------------------
  // Windows

  /** The loop condition: the window start has not yet reached the end in the direction of travel. */
  predicate Before(lo: int, end: int, flag: int)
  {
    (flag > 0 && lo < end) || (flag < 0 && lo > end)
  }

  /** `current_end_date` after one step from `lo`: one week in the direction of travel, clamped to the end. */
  function Step(lo: int, end: int, flag: int): (next: int)
    requires Before(lo, end, flag)
    ensures Distance(next, end) < Distance(lo, end)
    ensures flag > 0 ==> lo < next <= end
    ensures flag < 0 ==> end <= next < lo
  {
    var next := lo + WEEK * flag;
    if (flag > 0 && next > end) || (flag < 0 && next < end) then end else next
  }

  /** The windows the loop visits, from `lo` until the end is reached. */
  function Windows(lo: int, end: int, flag: int): seq<Window>
    decreases Distance(lo, end)
  {
    if Before(lo, end, flag) then [Window(lo, Step(lo, end, flag))] + Windows(Step(lo, end, flag), end, flag)
    else []
  }

  /** Ascending windows tile `start .. end`: contiguous, each one non-empty
      and at most a week long, every one but the last exactly a week, and
      there are ⌈(end − start) / week⌉ of them. */
  lemma {:induction false} AscendingWindows(start: int, end: int)
    requires start < end
    ensures var ws := Windows(start, end, 1);
            && |ws| > 0 && ws[0].lo == start && ws[|ws| - 1].hi == end
            && (forall i :: 0 <= i < |ws| ==> ws[i].lo < ws[i].hi <= ws[i].lo + WEEK)
            && (forall i :: 0 <= i < |ws| - 1 ==> ws[i].hi == ws[i].lo + WEEK && ws[i].hi == ws[i + 1].lo)
            && (|ws| - 1) * WEEK < end - start <= |ws| * WEEK
    decreases end - start
  {
    var ws := Windows(start, end, 1);
    var next := Step(start, end, 1);
    var rest := Windows(next, end, 1);
    assert ws == [Window(start, next)] + rest;
    if next < end {
      AscendingWindows(next, end);
      assert next == start + WEEK;
      forall i | 0 <= i < |ws| - 1
        ensures ws[i].hi == ws[i].lo + WEEK && ws[i].hi == ws[i + 1].lo
      {
        if i > 0 {
          assert ws[i] == rest[i - 1] && ws[i + 1] == rest[i];
        }
      }
    } else {
      assert rest == [];
    }
  }

  /** Descending windows tile the swapped range from the later bound down to
      the earlier one, with the same shape. */
  lemma {:induction false} DescendingWindows(start: int, end: int)
    requires start > end
    ensures var ws := Windows(start, end, -1);
            && |ws| > 0 && ws[0].lo == start && ws[|ws| - 1].hi == end
            && (forall i :: 0 <= i < |ws| ==> ws[i].lo - WEEK <= ws[i].hi < ws[i].lo)
            && (forall i :: 0 <= i < |ws| - 1 ==> ws[i].hi == ws[i].lo - WEEK && ws[i].hi == ws[i + 1].lo)
            && (|ws| - 1) * WEEK < start - end <= |ws| * WEEK
    decreases start - end
  {
    var ws := Windows(start, end, -1);
    var next := Step(start, end, -1);
    var rest := Windows(next, end, -1);
    assert ws == [Window(start, next)] + rest;
    if next > end {
      DescendingWindows(next, end);
      assert next == start - WEEK;
      forall i | 0 <= i < |ws| - 1
        ensures ws[i].hi == ws[i].lo - WEEK && ws[i].hi == ws[i + 1].lo
      {
        if i > 0 {
          assert ws[i] == rest[i - 1] && ws[i + 1] == rest[i];
        }
      }
    } else {
      assert rest == [];
    }
  }

  /** The number of windows is the ceiling of the range length over a week. */
  lemma WindowCount(start: int, end: int, flag: int)
    requires (flag == 1 && start < end) || (flag == -1 && start > end)
    ensures |Windows(start, end, flag)| == (Distance(start, end) + WEEK - 1) / WEEK
  {
    var n := |Windows(start, end, flag)|;
    if flag == 1 {
      AscendingWindows(start, end);
    } else {
      DescendingWindows(start, end);
    }
    var d := Distance(start, end);
    assert (n - 1) * WEEK < d <= n * WEEK;
    var rem := d + WEEK - 1 - n * WEEK;
    assert 0 <= rem < WEEK;
    assert d + WEEK - 1 == n * WEEK + rem;
  }

  // ---------------------------------------------------------------------------
  // The query of one window

  /** The issue query of one window: the `common` grammar appends the range
      to the query, any other grammar joins it with `and`. */
  function TimedQuery(query: string, queryType: string, orderBy: string, start: string, end: string): (q: string)
  {
    query + " " + (if queryType == "common" then "" else "and") + " " + orderBy + ": " + start + " .. " + end
  }

  /** Spelled out: the `common` grammar leaves two spaces after the query. */
  lemma TimedQueryForms(query: string, queryType: string, orderBy: string, start: string, end: string)
    ensures queryType == "common" ==>
              TimedQuery(query, queryType, orderBy, start, end) == query + "  " + orderBy + ": " + start + " .. " + end
    ensures queryType != "common" ==>
              TimedQuery(query, queryType, orderBy, start, end) == query + " and " + orderBy + ": " + start + " .. " + end
  {
    if queryType == "common" {
      assert query + " " + "" + " " == query + "  ";
    } else {
      assert query + " " + "and" + " " == query + " and ";
    }
  }

  // ---------------------------------------------------------------------------
  // The run

  /** What one window loads: the issues of the window (ids requested), then,
      when that gave any issues, their activities. Activities requested
      without issues fail on the unbound `issues`. */
  function WindowLoad(srv: Server, top: nat, timedQuery: string, s: Settings, files: Files, limit: nat)
    : (e: Effect<Totals>)
    requires top > 0 && Drains(srv, limit)
    ensures e.result.Ok? && !s.loadActivities ==> e.result.value.activities == 0
    ensures !s.loadIssues ==> e.files == files
  {
    if s.loadIssues then
      var got := IssuesDownload(srv, timedQuery, top, s.issuesFile, true, files, limit);
      match got.result
      case Err(f) => Effect(Err(f), got.files)
      case Ok(r) =>
        if s.loadActivities && |r.ids| > 0 then ActivitiesLoad(srv, top, s, r.ids, got.files, limit)
        else Effect(Ok(Totals(|r.ids|, 0)), got.files)
    else if s.loadActivities then Effect(Err(IssuesUnbound), files)
    else Effect(Ok(Totals(0, 0)), files)
  }

  /** The activity half of a window whose issue download gave `ids`. */
  function ActivitiesLoad(srv: Server, top: nat, s: Settings, ids: seq<string>, files: Files, limit: nat)
    : Effect<Totals>
    requires top > 0 && Drains(srv, limit)
  {
    var acts := ActivitiesDownload(srv, ids, None, top, s.activitiesFile, false, files, limit);
    match acts.result
    case Err(f) => Effect(Err(f), acts.files)
    case Ok(n) => Effect(Ok(Totals(|ids|, n.count)), acts.files)
  }

  function Plus(a: Totals, b: Totals): Totals
  {
    Totals(a.issues + b.issues, a.activities + b.activities)
  }

  /** One window from the totals so far: they grow by what the window loads. */
  function WindowStep(srv: Server, top: nat, timedQuery: string, s: Settings, totals: Totals,
                      files: Files, limit: nat): Effect<Totals>
    requires top > 0 && Drains(srv, limit)
  {
    var e := WindowLoad(srv, top, timedQuery, s, files, limit);
    if e.result.Err? then e else Effect(Ok(Plus(totals, e.result.value)), e.files)
  }

  /** The windows `ws` in order, from the totals and files reached so far, up to the first failure. */
  function RunWindows(srv: Server, top: nat, render: int -> string, ws: seq<Window>, s: Settings,
                      totals: Totals, files: Files, limit: nat): Effect<Totals>
    requires top > 0 && Drains(srv, limit)
    decreases |ws|
  {
    if ws == [] then Effect(Ok(totals), files)
    else
      var q := TimedQuery(s.query, s.queryType, s.orderBy, render(ws[0].lo), render(ws[0].hi));
      var e := WindowStep(srv, top, q, s, totals, files, limit);
      if e.result.Err? then e
      else RunWindows(srv, top, render, ws[1..], s, e.result.value, e.files, limit)
  }

  /** The files once the output files of the requested kinds are emptied. */
  function Emptied(files: Files, s: Settings): Files
  {
    var afterIssues := if s.loadIssues then Truncated(files, s.issuesFile) else files;
    if s.loadActivities then Truncated(afterIssues, s.activitiesFile) else afterIssues
  }

  /** The whole of `download_data`. */
  function DataDownload(srv: Server, top: nat, render: int -> string, start: int, end: int,
                        s: Settings, direction: string, files: Files, limit: nat): Effect<Totals>
    requires top > 0 && Drains(srv, limit)
  {
    var emptied := Emptied(files, s);
    if !(start < end) then Effect(Err(EmptyRange), emptied)
    else if direction != "asc" && direction != "desc" then Effect(Err(BadDirection(direction)), emptied)
    else if s.orderBy != "created" && s.orderBy != "updated" then Effect(Err(BadOrderBy(s.orderBy)), emptied)
    else RunWindows(srv, top, render, RunWindowsOf(start, end, direction), s, Totals(0, 0), emptied, limit)
  }

  /** The windows a valid run walks: lower bounds upward for `asc`, upper bounds downward for `desc`. */
  function RunWindowsOf(start: int, end: int, direction: string): seq<Window>
  {
    if direction == "asc" then Windows(start, end, 1) else Windows(end, start, -1)
  }

  // ---------------------------------------------------------------------------
  // Properties of the run

  /** The range is checked first, for every direction; then the direction;
      then the ordering field. A run that fails a check has only emptied its
      output files and has not reached any window. */
  lemma ChecksComeFirst(srv: Server, top: nat, render: int -> string, start: int, end: int,
                        s: Settings, direction: string, files: Files, limit: nat)
    requires top > 0 && Drains(srv, limit)
    ensures var e := DataDownload(srv, top, render, start, end, s, direction, files, limit);
            && (start >= end ==> e == Effect(Err(EmptyRange), Emptied(files, s)))
            && (start < end && direction != "asc" && direction != "desc" ==>
                  e == Effect(Err(BadDirection(direction)), Emptied(files, s)))
            && (start < end && (direction == "asc" || direction == "desc")
                && s.orderBy != "created" && s.orderBy != "updated" ==>
                  e == Effect(Err(BadOrderBy(s.orderBy)), Emptied(files, s)))
  {
  }

  /** Only the files of the kinds requested are emptied. */
  lemma EmptiedFiles(files: Files, s: Settings, path: string)
    ensures Lines(Emptied(files, s), path)
         == if (s.loadIssues && path == s.issuesFile) || (s.loadActivities && path == s.activitiesFile)
            then [] else Lines(files, path)
  {
  }

  /** A valid range walked in either direction has at least one window. */
  lemma SomeWindow(start: int, end: int, direction: string)
    requires start < end && (direction == "asc" || direction == "desc")
    ensures direction == "asc" ==> Windows(start, end, 1) != []
    ensures direction == "desc" ==> Windows(end, start, -1) != []
  {
    if direction == "asc" {
      AscendingWindows(start, end);
    } else {
      DescendingWindows(end, start);
    }
  }

  /** With both loads switched off every window does nothing. */
  lemma {:induction false} IdleWindows(srv: Server, top: nat, render: int -> string, ws: seq<Window>,
                                       s: Settings, totals: Totals, files: Files, limit: nat)
    requires top > 0 && Drains(srv, limit)
    requires !s.loadIssues && !s.loadActivities
    ensures RunWindows(srv, top, render, ws, s, totals, files, limit) == Effect(Ok(totals), files)
    decreases |ws|
  {
    if ws != [] {
      IdleWindows(srv, top, render, ws[1..], s, totals, files, limit);
    }
  }

  /** A valid run that loads nothing ends with zero totals and files it only opened. */
  lemma NothingLoaded(srv: Server, top: nat, render: int -> string, start: int, end: int,
                      s: Settings, direction: string, files: Files, limit: nat)
    requires top > 0 && Drains(srv, limit)
    requires !s.loadIssues && !s.loadActivities
    requires start < end && (direction == "asc" || direction == "desc")
    requires s.orderBy == "created" || s.orderBy == "updated"
    ensures DataDownload(srv, top, render, start, end, s, direction, files, limit) == Effect(Ok(Totals(0, 0)), files)
  {
    if direction == "asc" {
      IdleWindows(srv, top, render, Windows(start, end, 1), s, Totals(0, 0), files, limit);
    } else {
      IdleWindows(srv, top, render, Windows(end, start, -1), s, Totals(0, 0), files, limit);
    }
  }

  /** Asking for activities without issues fails at the first window, after
      the activity file has been emptied. */
  lemma ActivitiesNeedIssues(srv: Server, top: nat, render: int -> string, start: int, end: int,
                             s: Settings, direction: string, files: Files, limit: nat)
    requires top > 0 && Drains(srv, limit)
    requires !s.loadIssues && s.loadActivities
    requires start < end && (direction == "asc" || direction == "desc")
    requires s.orderBy == "created" || s.orderBy == "updated"
    ensures DataDownload(srv, top, render, start, end, s, direction, files, limit)
         == Effect(Err(IssuesUnbound), Truncated(files, s.activitiesFile))
  {
    SomeWindow(start, end, direction);
  }

  /** A window that finds no issues downloads no activities: it loads nothing
      beyond what its issue download wrote. */
  lemma NoIssuesNoActivities(srv: Server, top: nat, timedQuery: string, s: Settings, files: Files, limit: nat)
    requires top > 0 && Drains(srv, limit) && s.loadIssues
    requires IssuesDownload(srv, timedQuery, top, s.issuesFile, true, files, limit).result == Ok(Ids([]))
    ensures WindowLoad(srv, top, timedQuery, s, files, limit)
         == Effect(Ok(Totals(0, 0)), IssuesDownload(srv, timedQuery, top, s.issuesFile, true, files, limit).files)
  {
  }

  /** The ids the issue download of a window yields, when every page arrived
      and every issue has a string id. */
  function WindowIds(srv: Server, top: nat, timedQuery: string, limit: nat): Option<seq<string>>
    requires Drains(srv, limit)
  {
    match IssuePages(srv, timedQuery, top, limit)
    case Err(_) => None
    case Ok(pages) =>
      match IssueIds(Accumulate(pages))
      case Ok(Ids(ids)) => Some(ids)
      case _ => None
  }

  /** What a window adds to the totals when it succeeds: one issue per id it
      found, and, when activities load and there are ids, the activity
      records of those issues, issue by issue. The files play no part. */
  function WindowGain(srv: Server, top: nat, timedQuery: string, s: Settings, limit: nat): Totals
    requires top > 0 && Drains(srv, limit)
  {
    if !s.loadIssues then Totals(0, 0)
    else
      match WindowIds(srv, top, timedQuery, limit)
      case None => Totals(0, 0)
      case Some(ids) =>
        Totals(|ids|, if s.loadActivities && ids != [] then IssueTotals(srv, ids, ALL_CATEGORIES, top, limit) else 0)
  }

  /** A window that succeeds loads exactly its gain: `len(issues)` issues and,
      only when activities load and there are issues, their activity records. */
  lemma WindowLoadGain(srv: Server, top: nat, timedQuery: string, s: Settings, files: Files, limit: nat)
    requires top > 0 && Drains(srv, limit)
    ensures var e := WindowLoad(srv, top, timedQuery, s, files, limit);
            e.result.Ok? ==> e.result.value == WindowGain(srv, top, timedQuery, s, limit)
  {
    if s.loadIssues {
      var got := IssuesDownload(srv, timedQuery, top, s.issuesFile, true, files, limit);
      if got.result.Ok? && s.loadActivities && |got.result.value.ids| > 0 {
        var ids := got.result.value.ids;
        assert WindowIds(srv, top, timedQuery, limit) == Some(ids);
        if ActivityRun(srv, ids, ALL_CATEGORIES, top, limit).failure.None? {
          ActivityRunTotals(srv, ids, ALL_CATEGORIES, top, limit);
        }
      }
    }
  }

  /** The gains of the windows `ws`, added up. */
  function WindowsGain(srv: Server, top: nat, render: int -> string, ws: seq<Window>, s: Settings, limit: nat)
    : Totals
    requires top > 0 && Drains(srv, limit)
    decreases |ws|
  {
    if ws == [] then Totals(0, 0)
    else
      var q := TimedQuery(s.query, s.queryType, s.orderBy, render(ws[0].lo), render(ws[0].hi));
      var first, later := WindowGain(srv, top, q, s, limit), WindowsGain(srv, top, render, ws[1..], s, limit);
      Totals(first.issues + later.issues, first.activities + later.activities)
  }

  /** A run over `ws` that succeeds ends at the totals it started from plus
      the gain of every window: `total_issues += len(issues)` and
      `total_activities += n_activities`, window after window. */
  lemma {:induction false} RunWindowsSum(srv: Server, top: nat, render: int -> string, ws: seq<Window>,
                                         s: Settings, totals: Totals, files: Files, limit: nat)
    requires top > 0 && Drains(srv, limit)
    ensures var e := RunWindows(srv, top, render, ws, s, totals, files, limit);
            e.result.Ok? ==> e.result.value == Plus(totals, WindowsGain(srv, top, render, ws, s, limit))
    decreases |ws|
  {
    if ws != [] {
      var q := TimedQuery(s.query, s.queryType, s.orderBy, render(ws[0].lo), render(ws[0].hi));
      var w := WindowLoad(srv, top, q, s, files, limit);
      var rest := if w.result.Ok? then RunWindows(srv, top, render, ws[1..], s, Plus(totals, w.result.value), w.files, limit)
                  else w;
      if w.result.Ok? {
        RunWindowsSum(srv, top, render, ws[1..], s, Plus(totals, w.result.value), w.files, limit);
      }
      RunWindowsCons(srv, top, render, ws, s, totals, files, limit);
      WindowsGainCons(srv, top, render, ws, s, limit);
      WindowLoadGain(srv, top, q, s, files, limit);
      SumStep(totals, w, WindowGain(srv, top, q, s, limit), rest, WindowsGain(srv, top, render, ws[1..], s, limit),
              RunWindows(srv, top, render, ws, s, totals, files, limit));
    }
  }

  /** The step of `RunWindowsSum`, on the values alone: a run that is its
      first window, then the rest from the totals that window reached. */
  lemma SumStep(totals: Totals, w: Effect<Totals>, gain: Totals, rest: Effect<Totals>, restGain: Totals,
                e: Effect<Totals>)
    requires w.result.Err? ==> e == w
    requires w.result.Ok? ==> e == rest && w.result.value == gain
    requires w.result.Ok? && rest.result.Ok? ==> rest.result.value == Plus(Plus(totals, gain), restGain)
    ensures e.result.Ok? ==> e.result.value == Plus(totals, Plus(gain, restGain))
  {
  }

  /** One window, then the rest of the run from what it reached. */
  lemma RunWindowsCons(srv: Server, top: nat, render: int -> string, ws: seq<Window>,
                       s: Settings, totals: Totals, files: Files, limit: nat)
    requires top > 0 && Drains(srv, limit) && ws != []
    ensures var q := TimedQuery(s.query, s.queryType, s.orderBy, render(ws[0].lo), render(ws[0].hi));
            var w := WindowLoad(srv, top, q, s, files, limit);
            var e := RunWindows(srv, top, render, ws, s, totals, files, limit);
            && (w.result.Err? ==> e == w)
            && (w.result.Ok? ==> e == RunWindows(srv, top, render, ws[1..], s, Plus(totals, w.result.value), w.files, limit))
  {
  }

  /** The gain of the first window, then the gain of the rest. */
  lemma WindowsGainCons(srv: Server, top: nat, render: int -> string, ws: seq<Window>, s: Settings, limit: nat)
    requires top > 0 && Drains(srv, limit) && ws != []
    ensures var q := TimedQuery(s.query, s.queryType, s.orderBy, render(ws[0].lo), render(ws[0].hi));
            WindowsGain(srv, top, render, ws, s, limit)
            == Plus(WindowGain(srv, top, q, s, limit), WindowsGain(srv, top, render, ws[1..], s, limit))
  {
  }

  /** A run that passes its checks walks its windows from zero totals and the emptied files. */
  lemma DataDownloadRuns(srv: Server, top: nat, render: int -> string, start: int, end: int,
                         s: Settings, direction: string, files: Files, limit: nat)
    requires top > 0 && Drains(srv, limit)
    requires start < end && (direction == "asc" || direction == "desc")
    requires s.orderBy == "created" || s.orderBy == "updated"
    ensures DataDownload(srv, top, render, start, end, s, direction, files, limit)
         == RunWindows(srv, top, render, RunWindowsOf(start, end, direction), s, Totals(0, 0), Emptied(files, s), limit)
  {
  }

  /** A whole run that succeeds reports the gains of all its windows, in the chosen direction. */
  lemma DataDownloadTotals(srv: Server, top: nat, render: int -> string, start: int, end: int,
                           s: Settings, direction: string, files: Files, limit: nat)
    requires top > 0 && Drains(srv, limit)
    ensures var e := DataDownload(srv, top, render, start, end, s, direction, files, limit);
            e.result.Ok? ==> e.result.value == WindowsGain(srv, top, render, RunWindowsOf(start, end, direction), s, limit)
  {
    if start < end && (direction == "asc" || direction == "desc") && (s.orderBy == "created" || s.orderBy == "updated") {
      var ws := RunWindowsOf(start, end, direction);
      DataDownloadRuns(srv, top, render, start, end, s, direction, files, limit);
      RunWindowsSum(srv, top, render, ws, s, Totals(0, 0), Emptied(files, s), limit);
    }
  }

  /** Adding `extra` to the totals a run starts from adds it to the totals it
      ends with, and changes neither the files nor the failure. */
  lemma {:induction false} RunWindowsShift(srv: Server, top: nat, render: int -> string, ws: seq<Window>,
                                           s: Settings, extra: Totals, totals: Totals, files: Files, limit: nat)
    requires top > 0 && Drains(srv, limit)
    ensures var z := RunWindows(srv, top, render, ws, s, totals, files, limit);
            var e := RunWindows(srv, top, render, ws, s, Plus(extra, totals), files, limit);
            && e.files == z.files
            && (z.result.Err? ==> e.result == z.result)
            && (z.result.Ok? ==> e.result == Ok(Plus(extra, z.result.value)))
    decreases |ws|
  {
    if ws != [] {
      var q := TimedQuery(s.query, s.queryType, s.orderBy, render(ws[0].lo), render(ws[0].hi));
      var w := WindowLoad(srv, top, q, s, files, limit);
      if w.result.Ok? {
        var t := w.result.value;
        assert Plus(Plus(extra, totals), t) == Plus(extra, Plus(totals, t));
        RunWindowsShift(srv, top, render, ws[1..], s, extra, Plus(totals, t), w.files, limit);
      }
    }
  }

  /** The totals of a run are the totals before it plus what its windows load,
      and the files and the failure do not depend on the totals before it. */
  lemma RunWindowsAdds(srv: Server, top: nat, render: int -> string, ws: seq<Window>,
                       s: Settings, totals: Totals, files: Files, limit: nat)
    requires top > 0 && Drains(srv, limit)
    ensures var z := RunWindows(srv, top, render, ws, s, Totals(0, 0), files, limit);
            var e := RunWindows(srv, top, render, ws, s, totals, files, limit);
            && e.files == z.files
            && (z.result.Err? ==> e.result == z.result)
            && (z.result.Ok? ==> e.result == Ok(Plus(totals, z.result.value)))
  {
    assert Plus(totals, Totals(0, 0)) == totals;
    RunWindowsShift(srv, top, render, ws, s, totals, Totals(0, 0), files, limit);
  }

  /** Walking `a + b` is walking `a`, then walking `b` from where `a` stopped. */
  lemma {:induction false} RunWindowsConcat(srv: Server, top: nat, render: int -> string, a: seq<Window>,
                                            b: seq<Window>, s: Settings, totals: Totals, files: Files, limit: nat)
    requires top > 0 && Drains(srv, limit)
    ensures var first := RunWindows(srv, top, render, a, s, totals, files, limit);
            (RunWindows(srv, top, render, a + b, s, totals, files, limit)
             == if first.result.Err? then first
                else RunWindows(srv, top, render, b, s, first.result.value, first.files, limit))
    decreases |a|
  {
    if a == [] {
      assert a + b == b;
    } else {
      assert (a + b)[0] == a[0];
      assert (a + b)[1..] == a[1..] + b;
      var q := TimedQuery(s.query, s.queryType, s.orderBy, render(a[0].lo), render(a[0].hi));
      var e := WindowStep(srv, top, q, s, totals, files, limit);
      if e.result.Ok? {
        RunWindowsConcat(srv, top, render, a[1..], b, s, e.result.value, e.files, limit);
      }
    }
  }

  /** The body of the window loop: the issue download of one window and, when
      it gave issues, their activity download; the totals so far grow by what they loaded. */
  method ProcessWindow(youtrack: YouTrack, srv: Server, timedQuery: string, s: Settings, totals: Totals,
                       fs: FileSystem, ghost limit: nat)
    returns (r: Result<Totals>)
    requires youtrack.pageSize > 0 && Drains(srv, limit)
    modifies fs
    ensures Effect(r, fs.files) == WindowStep(srv, youtrack.pageSize, timedQuery, s, totals, old(fs.files), limit)
  {
    ghost var load := WindowLoad(srv, youtrack.pageSize, timedQuery, s, fs.files, limit);
    var totalIssues, totalActivities := totals.issues, totals.activities;
    // `issues` is bound only by the issue download.
    var issues: Option<seq<string>> := None;
    if s.loadIssues {
      ghost var got0 := IssuesDownload(srv, timedQuery, youtrack.pageSize, s.issuesFile, true, fs.files, limit);
      var got := youtrack.DownloadIssues(srv, timedQuery, s.issuesFile, true, fs, limit);
      if got.Err? {
        assert load == Effect(Err(got.error), fs.files);
        return Err(got.error);
      }
      issues := Some(got.value.ids);
      totalIssues := totalIssues + |got.value.ids|;
      if s.loadActivities && |got.value.ids| > 0 {
        assert load == ActivitiesLoad(srv, youtrack.pageSize, s, got.value.ids, fs.files, limit);
      } else {
        assert load == Effect(Ok(Totals(|got.value.ids|, 0)), fs.files);
      }
    }
    if s.loadActivities {
      if issues.None? {
        return Err(IssuesUnbound);
      }
      if |issues.value| > 0 {
        var got := youtrack.DownloadActivitiesPerIssue(srv, issues.value, s.activitiesFile, None, false, fs, limit);
        if got.Err? {
          return Err(got.error);
        }
        totalActivities := totalActivities + got.value.count;
      }
    }
    return Ok(Totals(totalIssues, totalActivities));
  }

  /** The run from window start `lo` is its first window, from `lo` to one
      step on, then the run from that step with what the window reached. */
  lemma WindowsFirst(srv: Server, top: nat, render: int -> string, lo: int, end: int, flag: int,
                     s: Settings, totals: Totals, files: Files, limit: nat)
    requires top > 0 && Drains(srv, limit) && Before(lo, end, flag)
    ensures var next := Step(lo, end, flag);
            var q := TimedQuery(s.query, s.queryType, s.orderBy, render(lo), render(next));
            var e := WindowStep(srv, top, q, s, totals, files, limit);
            RunWindows(srv, top, render, Windows(lo, end, flag), s, totals, files, limit)
            == if e.result.Err? then e else RunWindows(srv, top, render, Windows(next, end, flag), s, e.result.value, e.files, limit)
  {
    var next := Step(lo, end, flag);
    var rest := Windows(next, end, flag);
    var ws := Windows(lo, end, flag);
    assert ws == [Window(lo, next)] + rest;
    assert ws[0] == Window(lo, next) && ws[1..] == rest;
  }

  /** The window loop of `download_data`, from `first` towards `end` in the
      direction of `directionFlag`, with both totals starting at 0. */
  method WalkWindows(youtrack: YouTrack, srv: Server, render: int -> string, first: int, end: int,
                     directionFlag: int, s: Settings, fs: FileSystem, ghost limit: nat)
    returns (r: Result<Totals>)
    requires youtrack.pageSize > 0 && Drains(srv, limit)
    modifies fs
    ensures Effect(r, fs.files)
         == RunWindows(srv, youtrack.pageSize, render, Windows(first, end, directionFlag), s, Totals(0, 0), old(fs.files), limit)
  {
    var totalIssues: nat, totalActivities: nat := 0, 0;
    var start := first;
    var currentEndDate := start;
    while (directionFlag > 0 && start < end) || (directionFlag < 0 && start > end)
      invariant currentEndDate == start
      invariant RunWindows(srv, youtrack.pageSize, render, Windows(start, end, directionFlag), s,
                           Totals(totalIssues, totalActivities), fs.files, limit)
                == RunWindows(srv, youtrack.pageSize, render, Windows(first, end, directionFlag), s,
                              Totals(0, 0), old(fs.files), limit)
      decreases Distance(start, end)
    {
      ghost var before := fs.files;
      WindowsFirst(srv, youtrack.pageSize, render, start, end, directionFlag, s,
                   Totals(totalIssues, totalActivities), before, limit);
      currentEndDate := currentEndDate + WEEK * directionFlag;
      if (directionFlag > 0 && currentEndDate > end) || (directionFlag < 0 && currentEndDate < end) {
        currentEndDate := end;
      }
      var timedQuery := TimedQuery(s.query, s.queryType, s.orderBy, render(start), render(currentEndDate));
      assert currentEndDate == Step(start, end, directionFlag);
      var reached := ProcessWindow(youtrack, srv, timedQuery, s, Totals(totalIssues, totalActivities), fs, limit);
      if reached.Err? {
        return reached;
      }
      totalIssues, totalActivities := reached.value.issues, reached.value.activities;
      start := currentEndDate;
    }
    return Ok(Totals(totalIssues, totalActivities));
  }

  /** `download_data`; the totals it logs are returned. */
  method DownloadData(youtrack: YouTrack, srv: Server, render: int -> string,
                      snapshotStartTime: int, snapshotEndTime: int, query: string,
                      issuesSnapshotFile: string, activitiesSnapshotFile: string,
                      loadIssues: bool, loadActivities: bool,
                      direction: string, orderBy: string, queryType: string,
                      fs: FileSystem, ghost limit: nat)
    returns (r: Result<Totals>)
    requires youtrack.pageSize > 0 && Drains(srv, limit)
    modifies fs
    ensures Effect(r, fs.files)
         == DataDownload(srv, youtrack.pageSize, render, snapshotStartTime, snapshotEndTime,
                         Settings(query, issuesSnapshotFile, activitiesSnapshotFile,
                                  loadIssues, loadActivities, orderBy, queryType),
                         direction, old(fs.files), limit)
  {
    var s := Settings(query, issuesSnapshotFile, activitiesSnapshotFile, loadIssues, loadActivities, orderBy, queryType);
    if loadIssues {
      fs.Truncate(issuesSnapshotFile);
    }
    if loadActivities {
      fs.Truncate(activitiesSnapshotFile);
    }
    if !(snapshotStartTime < snapshotEndTime) {
      return Err(EmptyRange);
    }
    var start, end := snapshotStartTime, snapshotEndTime;
    var directionFlag: int;
    if direction == "asc" {
      directionFlag := 1;
    } else if direction == "desc" {
      directionFlag := -1;
      start, end := end, start;
    } else {
      return Err(BadDirection(direction));
    }
    if orderBy != "created" && orderBy != "updated" {
      return Err(BadOrderBy(orderBy));
    }
    r := WalkWindows(youtrack, srv, render, start, end, directionFlag, s, fs, limit);
  }
}
