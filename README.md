# YouTrack issue and activity loader, modelled in Dafny

This project models the download core of `jetbrains-issues-dataset`. That
code pulls issues from a YouTrack server, and for each issue its activity history, and
writes them as JSON lines. The model has four parts:

- **The REST client** (`YouTrack` in `youtrack.py`): request headers; the
  paginated per-issue activity download, with up to four attempts per page and
  provenance tagging; the paginated issue download, which stops on an empty
  page and keeps the `downloadTimestamp` quirk; and `check_response`.
- **The orchestrator** (`download_data` in `download_activities.py`): the range,
  direction and ordering checks; the week-by-week windows in either direction;
  the timed query of each window; and the issue and activity totals.
- **The file name** (`filename_from_query`): letter runs and stem truncation.
- **The output files**: a map from path to the records written there, one
  record per line.

The server is a value (`YouTrackApi.Server`). It is a finite table that gives,
for each page request and attempt number, either a body or a raised exception,
and for each request the clock reading taken after that page arrived. Each
download method is an imperative method over a `FileSystem` object, with the
loops of the source. Each is proved equal to a function that computes the same
run from the server value alone (`IssueActivitiesFrom`, `IssuePagesFrom`,
`ActivityRun`, `RunWindows`, `DataDownload`). The properties are lemmas about
those functions.

Modules, one per concern:

| file | module | models |
|---|---|---|
| `values.dfy` | `Values` | decoded JSON, records, `Option`/`Result`, every way a run can stop |
| `filestore.dfy` | `FileStore` | the output files: append and truncate |
| `youtrack.dfy` | `YouTrackApi` | `youtrack.py`: the server, retry, both downloads, the client class |
| `youtrack_properties.dfy` | `YouTrackProperties` | what the runs of the client look like |
| `download_activities.dfy` | `DownloadActivities` | `download_data`: checks, windows, timed query, totals |
| `filenames.dfy` | `Filenames` | `filename_from_query` |

Behaviour of the code worth knowing:

- The issue download stops on the first empty page, not on a short page.
- The output files are emptied before the range, direction and ordering
  checks run, so a run that fails a check still empties them.
- `downloadTimestamp` is not the fetch time of each issue. Each new non-empty
  page overwrites it on all issues of the earlier pages, so at the end every
  issue except those of the last page carries the last page's clock reading.
  The issues of the last page carry none (`YouTrackProperties.AccumulateAt`).
- When the length limit leaves room for the stem, the file name can be one
  character longer than `max_filename_length`. This is because the `_` before
  the dates is not counted (`Filenames.WithDatesShape`).

## Model

| member | source | states |
|---|---|---|
| Values.Failure.Text | jetbrains_issues_dataset/youtrack_loader/youtrack.py:10-16 | the string form of the per-issue error is the message, then `for issue: `, then the issue id |
| YouTrackApi.CheckResponse | jetbrains_issues_dataset/youtrack_loader/youtrack.py:196-200 | raises if and only if the body is an object with an `error` field, and raises with that field's value |
| YouTrackApi.PageItems | jetbrains_issues_dataset/youtrack_loader/youtrack.py:139-139 | a record list is iterated as is; an object body yields records only when it is empty, and then none |
| YouTrackApi.Retry | jetbrains_issues_dataset/youtrack_loader/youtrack.py:117-130 | a body is only ever taken from an attempt numbered from 1 to 4, and it is the reply to that attempt |
| YouTrackApi.RetryFirstSuccess | jetbrains_issues_dataset/youtrack_loader/youtrack.py:117-130 | the retry takes the first attempt that does not raise, and gives up exactly when all four attempts raise |
| YouTrackApi.RequestWithRetry | jetbrains_issues_dataset/youtrack_loader/youtrack.py:117-127 | the `while attempt < 5` loop computes the retry outcome |
| YouTrackApi.ActivityPage | jetbrains_issues_dataset/youtrack_loader/youtrack.py:117-135 | a page's records come from a retried body that passed `check_response` |
| YouTrackApi.FetchActivityPage | jetbrains_issues_dataset/youtrack_loader/youtrack.py:117-135 | the request, retry and checks of one page: the records, `Failed to retrieve activities`, or the issue's problem |
| YouTrackApi.IssueActivitiesStep | jetbrains_issues_dataset/youtrack_loader/youtrack.py:154-158 | after a full page the run goes on from the cursor advanced by the page length |
| YouTrackApi.FullPageContinues | jetbrains_issues_dataset/youtrack_loader/youtrack.py:157-158 | a full page is only received below the server's cursor bound, which makes the loop terminate |
| YouTrackApi.TagActivityFields | jetbrains_issues_dataset/youtrack_loader/youtrack.py:139-142 | `TagActivity`: tagging adds exactly `element_type='activity'`, `issue_id` and `download_timestamp`, and leaves every other field as it was |
| YouTrackApi.TagRecords | jetbrains_issues_dataset/youtrack_loader/youtrack.py:139-142 | one tagged record per activity of the page |
| YouTrackApi.TagActivities | jetbrains_issues_dataset/youtrack_loader/youtrack.py:139-142 | the tagging loop tags every record of the page with the page's issue and clock reading |
| YouTrackApi.ActivitiesDownload | jetbrains_issues_dataset/youtrack_loader/youtrack.py:144-160 | it returns the records in `no_write_to_file` mode and the total otherwise, and in `no_write_to_file` mode it writes nothing |
| YouTrackApi.Stopped | jetbrains_issues_dataset/youtrack_loader/youtrack.py:129-152 | a run that fails keeps every page it had already written to the file |
| YouTrackApi.TaggedConcat | jetbrains_issues_dataset/youtrack_loader/youtrack.py:144-152 | the records of two runs of pages, one after the other, are the records of each run, in order |
| YouTrackApi.ItemCountConcat | jetbrains_issues_dataset/youtrack_loader/youtrack.py:155-155 | the running total over two runs of pages is the sum of their totals |
| YouTrackApi.NonEmptyPageContinues | jetbrains_issues_dataset/youtrack_loader/youtrack.py:172-173 | a non-empty issue page is only received below the cursor bound, which makes the loop terminate |
| YouTrackApi.StampAll | jetbrains_issues_dataset/youtrack_loader/youtrack.py:176-177 | stamping keeps the number of issues |
| YouTrackApi.AccumulateSnoc | jetbrains_issues_dataset/youtrack_loader/youtrack.py:175-179 | a new page stamps the issues already held with its clock reading, then joins its own issues unstamped |
| YouTrackApi.StampIssues | jetbrains_issues_dataset/youtrack_loader/youtrack.py:176-177 | the stamping loop stamps every issue held with the page's clock reading |
| YouTrackApi.WriteIssues | jetbrains_issues_dataset/youtrack_loader/youtrack.py:181-189 | the writing loop appends the issues, each tagged `element_type='issue'`, in order |
| YouTrackApi.TagIssues | jetbrains_issues_dataset/youtrack_loader/youtrack.py:182-183 | one line per issue, each made by `TagIssue` (its contents: `IssueLineAt`) |
| YouTrackApi.IssueIds | jetbrains_issues_dataset/youtrack_loader/youtrack.py:191-192 | the ids of all issues, in order, exactly when each issue has a string id |
| YouTrackApi.IssuesDownload | jetbrains_issues_dataset/youtrack_loader/youtrack.py:191-194 | it returns ids if and only if `return_ids`, and the count otherwise |
| YouTrackApi.RequestHeaders | jetbrains_issues_dataset/youtrack_loader/youtrack.py:97-101 | `Accept: application/json` is always present; `Authorization: Bearer <token>` is present if and only if a token is given; there are no other headers |
| YouTrackApi.YouTrack.constructor | jetbrains_issues_dataset/youtrack_loader/youtrack.py:93-103 | the API base URLs are `url + "api/"` and `url + "rest/"`; it keeps the headers and the page size |
| YouTrackApi.YouTrack.DownloadActivitiesPerIssue | jetbrains_issues_dataset/youtrack_loader/youtrack.py:108-160 | the loop over issues returns, and leaves in the file, exactly what the activity run of the issues in input order gives, with the categories `Categories` picks: `ALL_CATEGORIES` when none are given |
| YouTrackApi.YouTrack.DownloadIssueActivities | jetbrains_issues_dataset/youtrack_loader/youtrack.py:112-158 | the cursor loop of one issue returns, and writes, exactly that issue's run |
| YouTrackApi.YouTrack.DownloadIssues | jetbrains_issues_dataset/youtrack_loader/youtrack.py:162-194 | the page loop and the writing loop give exactly the issue download's result and files |
| YouTrackProperties.RetryFourAttempts | jetbrains_issues_dataset/youtrack_loader/youtrack.py:118-127 | only attempts 1 to 4 are made: servers that agree on those give the same outcome |
| YouTrackProperties.ErrorBodyNotRetried | jetbrains_issues_dataset/youtrack_loader/youtrack.py:132-135 | an error body ends the issue at once with the problem naming that issue, with no further attempt |
| YouTrackProperties.SuccessAfterFailures | jetbrains_issues_dataset/youtrack_loader/youtrack.py:117-139 | `ActivityPage`: a page of records that arrives on attempt 2, 3 or 4 after raised attempts only is taken as it is, exactly as on the first attempt |
| YouTrackProperties.AllAttemptsRaise | jetbrains_issues_dataset/youtrack_loader/youtrack.py:117-130 | `ActivityPage`: a page fails with `Failed to retrieve activities` if and only if all four attempts raise |
| YouTrackProperties.ProblemText | jetbrains_issues_dataset/youtrack_loader/youtrack.py:135-135 | the problem raised reads `downloading failed for issue: <id>` |
| YouTrackProperties.ReceivedAt | jetbrains_issues_dataset/youtrack_loader/youtrack.py:112-116 | page `i` of an issue was received at the cursor that counts the records of the pages before it |
| YouTrackProperties.IssueActivitiesFromShape | jetbrains_issues_dataset/youtrack_loader/youtrack.py:112-158 | `IssueActivitiesFrom`, the run of one issue: from any cursor after full pages: each page comes at the prefix-sum cursor; a failed run has only full pages and failed at the next cursor; otherwise only the last page is short |
| YouTrackProperties.IssueActivitiesShape | jetbrains_issues_dataset/youtrack_loader/youtrack.py:112-158 | `IssueActivities`, the run of one issue from `skip = 0`: the cursor starts at 0 and the cursors are the prefix sums of the page lengths; the run stops right after the first short page, or where a page could not be had |
| YouTrackProperties.CursorExample | jetbrains_issues_dataset/youtrack_loader/youtrack.py:154-158 | pages of 1000, 1000 and 400 are asked for at cursors 0, 1000 and 2000, and the third ends the issue |
| YouTrackProperties.TaggedLength | jetbrains_issues_dataset/youtrack_loader/youtrack.py:144-155 | one record returned or written per activity counted |
| YouTrackProperties.TaggedAt | jetbrains_issues_dataset/youtrack_loader/youtrack.py:137-152 | item `j` of page `i` comes out after the records of the earlier pages, tagged with that page's issue and clock reading |
| YouTrackProperties.ActivityRunCompletes | jetbrains_issues_dataset/youtrack_loader/youtrack.py:111-135 | `ActivityRun`: a run over several issues succeeds if and only if every issue's run does |
| YouTrackProperties.ActivityRunTotals | jetbrains_issues_dataset/youtrack_loader/youtrack.py:109-155 | `ActivityRun`: the returned total is the sum, issue by issue, of the lengths of all their pages |
| YouTrackProperties.ActivityRunPages | jetbrains_issues_dataset/youtrack_loader/youtrack.py:109-158 | `ActivityRun`: a run that succeeds holds the pages of the first issue, then those of the second, and so on in input order, each issue's pages being its own run |
| YouTrackProperties.ActivitiesDownloadEffect | jetbrains_issues_dataset/youtrack_loader/youtrack.py:144-160 | the records of every page received are written in order even when a later page fails; the total returned is the number of lines written; `no_write_to_file` returns the same records and writes nothing |
| YouTrackProperties.StampTwice | jetbrains_issues_dataset/youtrack_loader/youtrack.py:176-177 | `Stamp`: a later stamp overwrites an earlier one |
| YouTrackProperties.AccumulateAt | jetbrains_issues_dataset/youtrack_loader/youtrack.py:175-179 | `Accumulate`, the `all_issues` list: at the end, issues of every page but the last carry the last page's clock reading, and issues of the last page carry nothing new |
| YouTrackProperties.AccumulateLength | jetbrains_issues_dataset/youtrack_loader/youtrack.py:178-179 | `all_issues` holds every issue received |
| YouTrackProperties.IssueIdsInOrder | jetbrains_issues_dataset/youtrack_loader/youtrack.py:191-192 | the ids come out in the order the issues arrived, since stamping never touches `id` |
| YouTrackProperties.IssuePageReceivedAt | jetbrains_issues_dataset/youtrack_loader/youtrack.py:166-178 | issue page `i` was received at the cursor that counts the issues before it |
| YouTrackProperties.IssuePagesFromShape | jetbrains_issues_dataset/youtrack_loader/youtrack.py:165-179 | `IssuePagesFrom`, the page loop of the issue download: from any cursor, each added page is a non-empty answer at the prefix-sum cursor, and the run ends on an empty answer |
| YouTrackProperties.IssueStep | jetbrains_issues_dataset/youtrack_loader/youtrack.py:172-179 | after a non-empty page the run goes on from the cursor advanced by its length |
| YouTrackProperties.IssuePagesShape | jetbrains_issues_dataset/youtrack_loader/youtrack.py:163-179 | `IssuePages`, the page loop from `skip = 0`: a completed issue download asked at prefix-sum cursors from 0, and stopped on the first empty page, at the cursor after the last issue |
| YouTrackProperties.IssueLineAt | jetbrains_issues_dataset/youtrack_loader/youtrack.py:181-184 | each written issue is tagged `element_type='issue'` and keeps every field it arrived with except the timestamp |
| YouTrackProperties.WriteIssuesLines | jetbrains_issues_dataset/youtrack_loader/youtrack.py:181-189 | the file gains one line per issue, in order; no other file changes |
| YouTrackProperties.IssuesDownloadEffect | jetbrains_issues_dataset/youtrack_loader/youtrack.py:162-194 | a page that cannot be had writes nothing; once every page arrived, one line per issue received is written, in order, before the ids are read, so a missing id fails after every line is written; the count returned is the number of issues |
| YouTrackProperties.FiniteServerDrains | jetbrains_issues_dataset/youtrack_loader/youtrack.py:113-158 | every server given by a finite table has a cursor bound beyond which no page continues a loop |
| FileStore.Appended | jetbrains_issues_dataset/youtrack_loader/youtrack.py:147-152 | appending adds the records at the end of that file, and no other file changes |
| FileStore.Truncated | jetbrains_issues_dataset/youtrack_loader/download_activities.py:35-40 | opening for writing empties that file, and no other file changes |
| FileStore.AppendedTwice | jetbrains_issues_dataset/youtrack_loader/youtrack.py:147-152 | two appends to a file are one append of both |
| FileStore.FileSystem.Append | jetbrains_issues_dataset/youtrack_loader/youtrack.py:147-152 | appends the records to the file |
| FileStore.FileSystem.Truncate | jetbrains_issues_dataset/youtrack_loader/download_activities.py:36-37 | empties the file |
| DownloadActivities.Step | jetbrains_issues_dataset/youtrack_loader/download_activities.py:58-60 | the window end moves strictly toward the range end and never past it, in either direction |
| DownloadActivities.AscendingWindows | jetbrains_issues_dataset/youtrack_loader/download_activities.py:56-80 | `Windows`, the window boundaries of the loop: ascending windows start at the range start; they are contiguous, increasing and non-empty; each is at most a week and all but the last exactly a week; the last ends exactly at the range end |
| DownloadActivities.DescendingWindows | jetbrains_issues_dataset/youtrack_loader/download_activities.py:45-80 | the mirror image: they start at the later bound, step back by a week, and finish exactly at the original start |
| DownloadActivities.WindowCount | jetbrains_issues_dataset/youtrack_loader/download_activities.py:57-80 | there are ⌈(end − start) / week⌉ windows |
| DownloadActivities.TimedQueryForms | jetbrains_issues_dataset/youtrack_loader/download_activities.py:65-65 | `TimedQuery`: the `common` grammar leaves two spaces after the query; any other grammar joins with ` and ` |
| DownloadActivities.WindowLoad | jetbrains_issues_dataset/youtrack_loader/download_activities.py:68-79 | without loading activities no activities are counted; without loading issues no file changes (what a window adds: `WindowLoadGain`) |
| DownloadActivities.WindowLoadGain | jetbrains_issues_dataset/youtrack_loader/download_activities.py:68-79 | a window that succeeds adds one issue per id it downloaded (`total_issues += len(issues)`), and adds activity records only when activities load and there is at least one issue, then exactly the records of those issues' runs (`ActivitiesLoad`, the activity half of `WindowLoad`) |
| DownloadActivities.RunWindowsSum | jetbrains_issues_dataset/youtrack_loader/download_activities.py:57-80 | `RunWindows`: a run that succeeds ends at its starting totals plus the gains of all its windows, window after window |
| DownloadActivities.DataDownloadRuns | jetbrains_issues_dataset/youtrack_loader/download_activities.py:42-60 | `DataDownload`: a run that passes its checks walks the windows of its direction (`RunWindowsOf`: from the start upward for `asc`, from the end downward for `desc`) from zero totals and the emptied files |
| DownloadActivities.DataDownloadTotals | jetbrains_issues_dataset/youtrack_loader/download_activities.py:53-80 | `DataDownload`: a whole run that succeeds reports as its totals the sum of the gains of every window, in the chosen direction |
| DownloadActivities.ChecksComeFirst | jetbrains_issues_dataset/youtrack_loader/download_activities.py:35-51 | the range is checked first for every direction, then the direction, then the ordering; a failed check leaves only the emptied files |
| DownloadActivities.EmptiedFiles | jetbrains_issues_dataset/youtrack_loader/download_activities.py:35-40 | `Emptied`: only the files of the requested kinds are emptied |
| DownloadActivities.SomeWindow | jetbrains_issues_dataset/youtrack_loader/download_activities.py:42-60 | a valid range has at least one window in either direction |
| DownloadActivities.IdleWindows | jetbrains_issues_dataset/youtrack_loader/download_activities.py:68-80 | with both loads off every window does nothing |
| DownloadActivities.NothingLoaded | jetbrains_issues_dataset/youtrack_loader/download_activities.py:35-80 | a valid run that loads nothing ends with zero totals and the files as they were |
| DownloadActivities.ActivitiesNeedIssues | jetbrains_issues_dataset/youtrack_loader/download_activities.py:68-77 | activities without issues fail on the unbound `issues` at the first window, after the activity file was emptied |
| DownloadActivities.NoIssuesNoActivities | jetbrains_issues_dataset/youtrack_loader/download_activities.py:75-79 | a window with no issues downloads no activities and adds nothing to the totals |
| DownloadActivities.RunWindowsShift | jetbrains_issues_dataset/youtrack_loader/download_activities.py:53-80 | starting the totals higher raises the final totals by the same amount and changes neither the files nor the failure |
| DownloadActivities.RunWindowsAdds | jetbrains_issues_dataset/youtrack_loader/download_activities.py:53-80 | the final totals are the starting totals plus what the windows load |
| DownloadActivities.RunWindowsConcat | jetbrains_issues_dataset/youtrack_loader/download_activities.py:57-80 | walking two runs of windows is walking the first, then the second from where the first stopped |
| DownloadActivities.ProcessWindow | jetbrains_issues_dataset/youtrack_loader/download_activities.py:68-79 | one window's issue download and, when it gave issues, their activity download, which is `WindowStep`: the totals grow by what they loaded |
| DownloadActivities.WindowsFirst | jetbrains_issues_dataset/youtrack_loader/download_activities.py:57-80 | the run from a window start is its first window, up to one clamped week on, then the run from there with what that window reached |
| DownloadActivities.WalkWindows | jetbrains_issues_dataset/youtrack_loader/download_activities.py:53-80 | the window loop gives exactly the run of the windows from the first boundary |
| DownloadActivities.DownloadData | jetbrains_issues_dataset/youtrack_loader/download_activities.py:16-83 | `download_data` gives exactly the result and files of the whole run: checks, then the windows in the chosen direction |
| Filenames.DropNonLetters | jetbrains_issues_dataset/youtrack_loader/download_activities.py:90-90 | it drops a leading run of non-letters and nothing else, keeping every letter |
| Filenames.CollapseNonLetters | jetbrains_issues_dataset/youtrack_loader/download_activities.py:90-90 | the result is empty exactly when the query is, and starts with `_` exactly when the query starts with a non-letter (where each `_` goes: `CollapseSplit`) |
| Filenames.CollapseShape | jetbrains_issues_dataset/youtrack_loader/download_activities.py:90-90 | after the substitution only letters and single underscores remain, and every letter is kept in order |
| Filenames.CollapseLetters | jetbrains_issues_dataset/youtrack_loader/download_activities.py:90-90 | a query made only of letters is left as it is |
| Filenames.CollapseLettersPrefix | jetbrains_issues_dataset/youtrack_loader/download_activities.py:90-90 | a leading run of letters is kept as it is, in front of the substitution of the rest |
| Filenames.DropRun | jetbrains_issues_dataset/youtrack_loader/download_activities.py:90-90 | a run of non-letters is dropped up to the next letter, and no further |
| Filenames.CollapseRun | jetbrains_issues_dataset/youtrack_loader/download_activities.py:90-90 | a non-empty run of non-letters before a letter or the end becomes one `_` |
| Filenames.CollapseSplit | jetbrains_issues_dataset/youtrack_loader/download_activities.py:90-90 | letters, then a run of non-letters, then a letter or the end: the letters are kept and the run becomes one `_` exactly where it was |
| Filenames.StemOfCollapsed | jetbrains_issues_dataset/youtrack_loader/download_activities.py:90-90 | `Stem`: when the substitution neither starts nor ends with `_`, the stem is the substitution itself |
| Filenames.TwoWordStem | jetbrains_issues_dataset/youtrack_loader/download_activities.py:90-90 | `Stem`: two words of letters with a run of non-letters between them give the two words joined by one `_` |
| Filenames.StripLeading | jetbrains_issues_dataset/youtrack_loader/download_activities.py:90-90 | only leading underscores are removed, and what remains does not start with one |
| Filenames.StripTrailing | jetbrains_issues_dataset/youtrack_loader/download_activities.py:90-90 | only trailing underscores are removed, and what remains does not end with one |
| Filenames.StemShape | jetbrains_issues_dataset/youtrack_loader/download_activities.py:90-90 | `Stem`: the stem holds only ASCII letters and `_`, with no two `_` in a row and none at either end |
| Filenames.StemLetters | jetbrains_issues_dataset/youtrack_loader/download_activities.py:90-90 | the stem keeps every letter of the query in order, and is empty exactly when the query has no letter |
| Filenames.PyPrefix | jetbrains_issues_dataset/youtrack_loader/download_activities.py:93-93 | Python's `s[:n]`, with a negative `n` counting from the end |
| Filenames.WithDatesShape | jetbrains_issues_dataset/youtrack_loader/download_activities.py:91-95 | `WithDates`: the name ends with `_<start>_<end>`; before that comes a prefix of the stem, as long as the limit less the dates allows, or the whole stem when the limit is 0 |
| Filenames.FilenameShape | jetbrains_issues_dataset/youtrack_loader/download_activities.py:89-96 | `FilenameFromQuery`: the name is a prefix of the query's stem, then `_<start>_<end>`; without a limit the prefix is the whole stem |
| Filenames.HashQueryStem | jetbrains_issues_dataset/youtrack_loader/download_activities.py:90-90 | a query made of `#` and letters, such as `#IDEA`, has exactly those letters as its stem |
| Filenames.ShortStemWithDates | jetbrains_issues_dataset/youtrack_loader/download_activities.py:91-95 | under the default limit of 127, a stem of at most 110 characters is kept whole before `_<start>_<end>` |
| Filenames.HashQueryFilename | jetbrains_issues_dataset/youtrack_loader/download_activities.py:89-96 | with the default limit, `#` and up to 110 letters give the letters followed by `_<start>_<end>` |

## Left out

- HTTP is not modelled: `requests.get`, `verify=False`, `response.json()` and the URL and field-projection templates. Each page is a `Request` value, and the server table gives the decoded bodies.
- `time.sleep(3)` between attempts, all logging, and `print` in `check_response` are left out: they have no effect on results or on the output files. The `download.log` file that logging writes is not modelled.
- `datetime.now()` is not modelled. Each page's clock reading is the server table's reading for that request, and a request with no reading reads 0.
- `strftime` is not modelled. Timestamps are whole seconds, and rendering a timestamp as text is the parameter `render`. `relativedelta(weeks=1)` is the constant 604800 seconds, which is exact for naive datetimes.
- `parse.quote_plus` is not modelled: the timed query is passed to the issue download as built.
- `json.dumps`, NUL stripping and UTF-8 replacement are not modelled: a line of a file is the record written to it.
- Creating an empty file by opening it for appending is not modelled.
- A write that raises is not modelled.
- A repeated request is not a new request: the server table gives the same replies and the same clock reading each time the same page is asked for. This covers a duplicate issue id, and an issue on a shared window boundary whose activities are downloaded again. The source asks the server again and stamps a later `datetime.now()`.
- Bodies are only JSON arrays or objects. A `null` activity body, on which the source stops retrying and raises `Failed to retrieve activities`, and a string body, on which `'error' in` becomes a substring test, are not modelled.
- `main()`, argument parsing, token-file reading, output-path derivation and `setup.py` are not part of this model.
- YouTrackApi.PageItems: the model stops at once with `UnexpectedBody` on a non-empty object body without `error`. The source iterates the object's keys and raises a `TypeError` later. For an activity page it raises at once, while tagging, and the files then agree with the model: earlier pages are written, this one is not. For an issue page the source goes on paging. If the next page is non-empty, it raises while stamping, before anything is written. If the next page is empty, it writes the issues gathered before the object and then raises while tagging the first key. The model writes nothing in both cases.
- YouTrackApi.IssueIds: an issue without a string `id` stops the run with `MissingId`. The source raises `KeyError` only for a missing `id`, and passes ids of other JSON types through.
- YouTrackApi.YouTrack.DownloadActivitiesPerIssue: requires a positive page size. With page size 0 the source asks for the same page forever.
- Termination: every download method takes a server with a cursor bound (`Drains`, with a ghost `limit`). The source loops forever on a server that never ends a pagination. Every server given by a finite table has such a bound (`FiniteServerDrains`).
- DownloadActivities.DownloadData: returns the totals it reached. The source only logs them.
- Python `assert` statements are treated as always checked. Under `python -O` the range and ordering checks would be skipped.
