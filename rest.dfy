/** What crosses the REST boundary: requests as the framework hands them to
    the gateway, the replies the gateway returns, and the two execution
    backends (the database and PHP's `eval`) as values the caller supplies. */
module Rest {
  import opened Wrappers
  import Site

  /** A PHP value as the JSON encoder sees it: the rows of a query and the
      return value of evaluated code are of this type. */
  datatype Value =
    | Null
    | Bool(b: bool)
    | Int(i: int)
    | Str(s: string)
    | List(items: seq<Value>)
    | Assoc(entries: seq<Entry>)

  /** One key/value pair of an associative PHP array, in insertion order. */
  datatype Entry = Entry(key: string, value: Value)

  /** A `WP_Error` with a code, a message and an HTTP status in its data. */
  datatype WpError = WpError(code: string, message: string, status: int)

  /** The body of a successful `WP_REST_Response`, one shape per handler. */
  datatype Body =
    | SnapshotBody(snapshot: Site.Snapshot)
    | HealthBody(status: string, message: string, timestamp: string, apiKeyValid: Option<bool>)
    | RowsBody(rows: seq<Value>)
    | EvaluationBody(output: string, returnValue: Value)

  /** What a request ends in: a `WP_REST_Response`, a `WP_Error`, or no
      registered route (left to the framework's own "no route" reply). */
  datatype Reply =
    | Response(status: int, body: Body)
    | Error(error: WpError)
    | Unrouted

  /** What `$wpdb->get_results($query, ARRAY_A)` yields (`None` for `null`),
      together with `$wpdb->last_error` afterwards. */
  datatype QueryOutcome = QueryOutcome(results: Option<seq<Value>>, lastError: string)

  /** The database, as the function from a query string to its outcome. */
  type Database = string -> QueryOutcome

  /** What `eval` of a code string leaves behind: the text written to the
      output buffer and the value of the evaluated code. */
  datatype Evaluation = Evaluation(output: string, returnValue: Value)

  /** PHP's `eval` with output buffering around it. */
  type Evaluator = string -> Evaluation

  /** A request after routing: namespace, route path and upper-case HTTP
      method; the `api_key` query parameter if present, as the client sent it
      (URL-decoded, before WordPress adds slashes to `$_GET`); and the
      string-valued fields of the JSON body (a field that is absent or `null`
      is not a key). */
  datatype Request = Request(
    namespace: string,
    path: string,
    httpMethod: string,
    apiKeyParam: Option<string>,
    jsonParams: map<string, string>)
}
