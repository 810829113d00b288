/** Values shared by the loader and the orchestrator: decoded JSON, the
    record objects the server returns, and the errors a download can end in. */
module Values {

  /** A decoded JSON value. */
  datatype Json =
    | Null
    | Bool(b: bool)
    | Int(i: int)
    | Str(s: string)
    | Array(elems: seq<Json>)
    | Object(fields: map<string, Json>)

  /** One issue or activity item: a JSON object, keyed by field name. */
  type Record = map<string, Json>

  datatype Option<+T> = None | Some(value: T)

  /** Every way a run of the loader can stop early. */
  datatype Failure =
    /** all four attempts at an activity page raised ("Failed to retrieve activities") */
    | RetrievalFailed
    /** an activity page carried an error body; `IssueWithProblemDownloader(message, issue)` */
    | IssueProblem(message: string, issue: string)
    /** `check_response` raised with the body's `error` field, issue pages */
    | ServerError(error: Json)
    /** the transport raised on an issue page (issue pages are not retried) */
    | TransportError
    /** a non-empty object body without an `error` field, which the loaders cannot iterate as records */
    | UnexpectedBody
    /** an issue record without a string `id` when ids are requested */
    | MissingId
    /** `assert snapshot_start_time < snapshot_end_time` failed */
    | EmptyRange
    /** `ValueError`: the direction is neither `asc` nor `desc` */
    | BadDirection(direction: string)
    /** the `order_by` assertion failed */
    | BadOrderBy(orderBy: string)
    /** activities requested without issues: `issues` is read before it is bound */
    | IssuesUnbound
  {
    /** `str()` of the exception, for the one exception class the loader defines. */
    function Text(): (t: string)
      requires IssueProblem?
      ensures |t| == |message| + |"for issue: "| + |issue|
      ensures t[..|message|] == message
      ensures t[|message|..|t| - |issue|] == "for issue: "
      ensures t[|t| - |issue|..] == issue
    {
      message + "for issue: " + issue
    }
  }

  datatype Result<+T> = Ok(value: T) | Err(error: Failure)
}
