/**
 * The conditional-request evaluator: a simplified reading of RFC 7232
 * (If-Match, section 3.1; If-None-Match, section 3.2; If-Modified-Since,
 * section 3.3; If-Unmodified-Since, section 3.4) in which the entity tag takes
 * precedence over the date, tags are compared by exact string equality (no weak
 * comparison) and dates are compared for equality.
 */
module Preconditions {
  import opened Wrappers
  import opened Url

  /** A header value the evaluator acts on: present and not the empty string (truthy). */
  predicate Present(h: Option<string>) {
    h.Some? && h.value != ""
  }

  /**
   * `_evaluatePreconditions`: a present client tag decides alone, by exact
   * equality with the server's tag; otherwise a present client date decides,
   * satisfied iff it parses to exactly the server's timestamp; otherwise the
   * request is not satisfied. `parseDate` stands for `new Date(d).getTime()`,
   * with None for an unparseable date (NaN).
   */
  function EvaluatePreconditionsCore(
    serverEtag: Option<string>, serverDate: Option<int>,
    clientEtag: Option<string>, clientDate: Option<string>,
    parseDate: string -> Option<int>): (r: bool)
    ensures Present(clientEtag) ==> (r <==> serverEtag == clientEtag)
    ensures !Present(clientEtag) && Present(clientDate) ==>
              (r <==> serverDate.Some? && parseDate(clientDate.value) == serverDate)
    ensures !Present(clientEtag) && !Present(clientDate) ==> !r
  {
    if Present(clientEtag) then clientEtag == serverEtag
    else if Present(clientDate) then
      var t := parseDate(clientDate.value);
      t.Some? && t == serverDate
    else false
  }

  /** When the client sends a tag, its date is never looked at. */
  lemma TagTakesPrecedence(
    serverEtag: Option<string>, serverDate: Option<int>, clientEtag: Option<string>,
    d1: Option<string>, d2: Option<string>, p1: string -> Option<int>, p2: string -> Option<int>)
    requires Present(clientEtag)
    ensures EvaluatePreconditionsCore(serverEtag, serverDate, clientEtag, d1, p1)
         == EvaluatePreconditionsCore(serverEtag, serverDate, clientEtag, d2, p2)
  {
  }

  /** Satisfaction always rests on one matching validator sent by the client. */
  lemma SatisfiedNeedsMatchingValidator(
    serverEtag: Option<string>, serverDate: Option<int>,
    clientEtag: Option<string>, clientDate: Option<string>, parseDate: string -> Option<int>)
    requires EvaluatePreconditionsCore(serverEtag, serverDate, clientEtag, clientDate, parseDate)
    ensures (Present(clientEtag) && serverEtag == clientEtag)
         || (!Present(clientEtag) && Present(clientDate) && serverDate.Some? && parseDate(clientDate.value) == serverDate)
  {
  }

  /** `request.headers[name]`, absent when the client did not send it. */
  function Header(req: Request, name: string): Option<string> {
    if name in req.headers then Some(req.headers[name]) else None
  }

  /**
   * `evaluatePreconditions(lastModifiedAt, etag)`: GET requests use the pair
   * If-None-Match / If-Modified-Since, PUT and DELETE requests the pair If-Match /
   * If-Unmodified-Since, and every other method is never satisfied. Nothing here
   * can throw, so the catch-all that answers false is not reachable in the model.
   */
  function EvaluatePreconditions(req: Request, lastModifiedAt: Option<int>, etag: string,
                                 parseDate: string -> Option<int>): (r: bool)
    ensures req.httpMethod == "GET" ==>
      r == EvaluatePreconditionsCore(Some(etag), lastModifiedAt,
             Header(req, "if-none-match"), Header(req, "if-modified-since"), parseDate)
    ensures req.httpMethod == "PUT" || req.httpMethod == "DELETE" ==>
      r == EvaluatePreconditionsCore(Some(etag), lastModifiedAt,
             Header(req, "if-match"), Header(req, "if-unmodified-since"), parseDate)
    ensures req.httpMethod !in {"GET", "PUT", "DELETE"} ==> !r
  {
    if req.httpMethod == "GET" then
      EvaluatePreconditionsCore(Some(etag), lastModifiedAt,
        Header(req, "if-none-match"), Header(req, "if-modified-since"), parseDate)
    else if req.httpMethod == "PUT" || req.httpMethod == "DELETE" then
      EvaluatePreconditionsCore(Some(etag), lastModifiedAt,
        Header(req, "if-match"), Header(req, "if-unmodified-since"), parseDate)
    else false
  }

  /**
   * A PUT or DELETE that carries neither If-Match nor If-Unmodified-Since is
   * never satisfied, so the conditional states answer it with 412.
   */
  lemma UnconditionalWriteNotSatisfied(req: Request, lastModifiedAt: Option<int>, etag: string,
                                       parseDate: string -> Option<int>)
    requires req.httpMethod == "PUT" || req.httpMethod == "DELETE"
    requires !Present(Header(req, "if-match")) && !Present(Header(req, "if-unmodified-since"))
    ensures !EvaluatePreconditions(req, lastModifiedAt, etag, parseDate)
  {
  }

  /** A weak tag never matches the strong tag it names: comparison is exact. */
  lemma NoWeakComparison(parseDate: string -> Option<int>, serverDate: Option<int>)
    ensures !EvaluatePreconditionsCore(Some("\"abc\""), serverDate, Some("W/\"abc\""), None, parseDate)
  {
  }

  /** Server tag "abc": client tag "abc" is satisfied, "xyz" is not, no validators is not. */
  lemma ExampleTags(parseDate: string -> Option<int>, serverDate: Option<int>)
    ensures EvaluatePreconditionsCore(Some("abc"), serverDate, Some("abc"), None, parseDate)
    ensures !EvaluatePreconditionsCore(Some("abc"), serverDate, Some("xyz"), None, parseDate)
    ensures !EvaluatePreconditionsCore(Some("abc"), serverDate, None, None, parseDate)
  {
  }
}
