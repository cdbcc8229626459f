/**
 * The network boundary. Every HTTP request and DNS query of the program is replaced by
 * an input: an HTTP outcome per requested URL and a resolver answer per queried name.
 */
module Probes {
  import opened Wrappers

  /** An HTTP status code as the `http` crate admits it (100 to 999). */
  type StatusCode = s: int | 100 <= s <= 999 witness 200

  /** `StatusCode::is_success`: 2xx. */
  predicate IsSuccess(s: StatusCode) {
    200 <= s <= 299
  }

  /** `StatusCode::is_redirection`: 3xx. */
  predicate IsRedirection(s: StatusCode) {
    300 <= s <= 399
  }

  /** `StatusCode::is_client_error`: 4xx. */
  predicate IsClientError(s: StatusCode) {
    400 <= s <= 499
  }

  /**
   * A reqwest error, seen through its three classification predicates. They are independent
   * booleans: reqwest does not make them mutually exclusive.
   */
  datatype Fault = Fault(isConnect: bool, isRequest: bool, isTimeout: bool)

  /** What one `client.get(url).send().await` yields; reading the body may itself fail. */
  datatype HttpOutcome =
    | Response(status: StatusCode, body: Result<string, Fault>)
    | TransportError(fault: Fault)

  /** The outcome of requesting each URL: every probe makes exactly one attempt. */
  type Http = string -> HttpOutcome

  /** A response arrived and its status lies in `lo..hi` (both inclusive). */
  predicate StatusIn(o: HttpOutcome, lo: int, hi: int) {
    o.Response? && lo <= o.status <= hi
  }

  /** The text an error report carries when the body of a failed response cannot be read. */
  const UnreadableBody := "<failed to read body>"

  /** `response.text().await.unwrap_or_else(|_| "<failed to read body>")`. */
  function ErrorBody(body: Result<string, Fault>): string {
    match body
    case Ok(text) => text
    case Err(_) => UnreadableBody
  }

  /** One record of the answer to a CNAME query; `as_cname()` succeeds only on the first kind. */
  datatype Record = CnameRecord(target: string) | OtherRecord(data: string)

  /** The answers to one query, in order, or the resolver's error. */
  type Lookup<T> = Result<seq<T>, string>

  /** The DNS resolver: for each queried name, the answer of the resolver. */
  datatype Resolver = Resolver(
    mx: string -> Lookup<string>,
    txt: string -> Lookup<seq<string>>,
    cname: string -> Lookup<Record>,
    ip: string -> Lookup<string>)

  /** The lookup succeeded and has at least one answer (`response.iter().next().is_some()`). */
  predicate HasAnswer<T>(l: Lookup<T>) {
    l.Ok? && |l.value| > 0
  }
}
