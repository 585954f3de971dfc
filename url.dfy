/**
 * The request decorators `baseUrl`, `fullUrl` and `absoluteUrl`, and the instance
 * decorator `fillInPlaceholder` that fills `{name}` placeholders of a link pattern.
 */
module Url {
  import opened Wrappers
  import opened JsValues

  /** What the plugin decorates on the Fastify instance, and the instance's route prefix. */
  datatype Server = Server(baseUrl: Option<string>, prefix: string, activateHypertextCachePattern: bool)

  /** The parts of an incoming request the core reads; header names are lower-case. */
  datatype Request = Request(
    httpMethod: string,
    protocol: string,
    hostname: string,
    url: string,
    headers: map<string, string>,
    body: Value)

  /** The instance and the request a state or builder works for. */
  datatype Context = Context(server: Server, request: Request)

  /**
   * `baseUrl()`: the configured base URL when there is one, otherwise the
   * request's own origin; the route prefix is appended either way.
   */
  function BaseUrl(ctx: Context): (r: string)
    ensures ctx.server.baseUrl.None? ==> r == ctx.request.protocol + "://" + ctx.request.hostname + ctx.server.prefix
    ensures ctx.server.baseUrl.Some? ==> r == ctx.server.baseUrl.value + ctx.server.prefix
  {
    match ctx.server.baseUrl
    case None => ctx.request.protocol + "://" + ctx.request.hostname + ctx.server.prefix
    case Some(b) => b + ctx.server.prefix
  }

  /** `fullUrl()`: the base URL followed by the request URL (path and query). */
  function FullUrl(ctx: Context): (r: string)
    ensures |r| == |BaseUrl(ctx)| + |ctx.request.url|
    ensures r[..|BaseUrl(ctx)|] == BaseUrl(ctx) && r[|BaseUrl(ctx)|..] == ctx.request.url
  {
    BaseUrl(ctx) + ctx.request.url
  }

  /** `u` without one leading slash. */
  function StripSlash(u: string): string {
    if |u| > 0 && u[0] == '/' then u[1..] else u
  }

  /**
   * `absoluteUrl(u)`: `u` resolved against the base URL. Whether or not `u`
   * starts with a slash (the empty string does not), the result is the base
   * URL, one slash, and `u` without its leading slash.
   */
  function AbsoluteUrl(ctx: Context, u: string): (r: string)
    ensures r == BaseUrl(ctx) + "/" + StripSlash(u)
    ensures r[..|BaseUrl(ctx)|] == BaseUrl(ctx)
  {
    if |u| == 0 || u[0] != '/' then BaseUrl(ctx) + "/" + u else BaseUrl(ctx) + u
  }

  /** A relative URL and the same URL with a leading slash resolve alike. */
  lemma AbsoluteUrlLeadingSlash(ctx: Context, u: string)
    requires |u| == 0 || u[0] != '/'
    ensures AbsoluteUrl(ctx, "/" + u) == AbsoluteUrl(ctx, u)
  {
    assert StripSlash("/" + u) == u;
  }

  /** Characters that `.` in a JavaScript regular expression does not match. */
  predicate IsLineTerminator(c: char) {
    c == '\n' || c == '\r' || c == '\U{2028}' || c == '\U{2029}'
  }

  /**
   * Where the non-greedy `{.*?}` that opened before index `i` closes: the first
   * `}` at or after `i`, provided no line terminator comes first.
   */
  function CloseBrace(s: string, i: nat): (r: Option<nat>)
    requires i <= |s|
    ensures r.Some? ==> i <= r.value < |s| && s[r.value] == '}'
    ensures r.Some? ==> forall j :: i <= j < r.value ==> s[j] != '}' && !IsLineTerminator(s[j])
    ensures r.None? ==> forall j :: i <= j < |s| && s[j] == '}' ==> exists t :: i <= t < j && IsLineTerminator(s[t])
    decreases |s| - i
  {
    if i == |s| then None
    else if s[i] == '}' then Some(i)
    else if IsLineTerminator(s[i]) then None
    else CloseBrace(s, i + 1)
  }

  /**
   * `fillInPlaceholder(pattern, data)`: scanning left to right, every shortest
   * `{name}` is replaced by `String(data[name])`; the substituted text is not
   * scanned again, and a `{` that never closes is kept as it is.
   */
  function FillInPlaceholder(pattern: string, data: Value): string
    decreases |pattern|
  {
    if pattern == [] then []
    else if pattern[0] == '{' then
      match CloseBrace(pattern, 1)
      case Some(j) => ToJsString(Get(data, pattern[1..j])) + FillInPlaceholder(pattern[j + 1..], data)
      case None => [pattern[0]] + FillInPlaceholder(pattern[1..], data)
    else [pattern[0]] + FillInPlaceholder(pattern[1..], data)
  }

  /** A character other than `{` is copied and filling goes on after it. */
  lemma FillInLiteralChar(c: char, rest: string, data: Value)
    requires c != '{'
    ensures FillInPlaceholder([c] + rest, data) == [c] + FillInPlaceholder(rest, data)
  {
    assert ([c] + rest)[1..] == rest;
  }

  /** Literal text before the first `{` is copied unchanged. */
  lemma {:induction false} FillInLiteralPrefix(lit: string, rest: string, data: Value)
    requires '{' !in lit
    ensures FillInPlaceholder(lit + rest, data) == lit + FillInPlaceholder(rest, data)
    decreases |lit|
  {
    if lit == [] {
      assert lit + rest == rest;
    } else {
      var tail := lit[1..];
      assert lit == [lit[0]] + tail;
      assert lit + rest == [lit[0]] + (tail + rest);
      assert lit[0] in lit && forall c :: c in tail ==> c in lit;
      FillInLiteralChar(lit[0], tail + rest, data);
      FillInLiteralPrefix(tail, rest, data);
    }
  }

  /** Without a closing `}` nothing is replaced: every `{` is kept as it is. */
  lemma {:induction false} NoClosingBraceUnchanged(pattern: string, data: Value)
    requires '}' !in pattern
    ensures FillInPlaceholder(pattern, data) == pattern
    decreases |pattern|
  {
    if pattern != [] {
      var tail := pattern[1..];
      assert forall c :: c in tail ==> c in pattern;
      NoClosingBraceUnchanged(tail, data);
      assert [pattern[0]] + tail == pattern;
    }
  }

  /** A pattern without `{` is returned unchanged. */
  lemma NoPlaceholderUnchanged(pattern: string, data: Value)
    requires '{' !in pattern
    ensures FillInPlaceholder(pattern, data) == pattern
  {
    FillInLiteralPrefix(pattern, [], data);
    assert pattern + [] == pattern;
  }

  /**
   * The first placeholder is replaced by the string form of `data[name]`, the
   * text around it is kept in order, and filling goes on after its `}`.
   */
  lemma FillInFirstPlaceholder(lit: string, name: string, rest: string, data: Value)
    requires '{' !in lit
    requires '}' !in name && forall c :: c in name ==> !IsLineTerminator(c)
    ensures FillInPlaceholder(lit + "{" + name + "}" + rest, data)
         == lit + ToJsString(Get(data, name)) + FillInPlaceholder(rest, data)
  {
    var p := "{" + name + "}" + rest;
    assert lit + "{" + name + "}" + rest == lit + p;
    FillInLiteralPrefix(lit, p, data);
    FillInPlaceholderAtStart(name, rest, data);
  }

  /** A pattern that starts with a placeholder has it replaced, and filling goes on after its `}`. */
  lemma FillInPlaceholderAtStart(name: string, rest: string, data: Value)
    requires '}' !in name && forall c :: c in name ==> !IsLineTerminator(c)
    ensures FillInPlaceholder("{" + name + "}" + rest, data) == ToJsString(Get(data, name)) + FillInPlaceholder(rest, data)
  {
    var p := "{" + name + "}" + rest;
    CloseBraceAt(p, name);
    assert p[1..|name| + 1] == name;
    assert p[|name| + 2..] == rest;
  }

  lemma {:induction false} CloseBraceAt(p: string, name: string)
    requires |p| >= |name| + 2 && p[0] == '{' && p[1..|name| + 1] == name && p[|name| + 1] == '}'
    requires '}' !in name && forall c :: c in name ==> !IsLineTerminator(c)
    ensures CloseBrace(p, 1) == Some(|name| + 1)
  {
    var i := |name| + 1;
    while i > 1
      invariant 1 <= i <= |name| + 1
      invariant CloseBrace(p, i) == Some(|name| + 1)
      decreases i
    {
      assert p[i - 1] == name[i - 2];
      i := i - 1;
    }
  }
}
