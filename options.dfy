/**
 * Option handling of the plugin entry points: the trailing-slash check of the
 * configured base URL and the defaults of the remaining options.
 */
module Options {
  import opened Wrappers
  import opened JsValues
  import opened Url
  import opened HalFormat
  import opened HalSpec

  /** `s.charAt(i)`: the one-character string at `i`, or "" when `i` is out of range. */
  function CharAt(s: string, i: int): string {
    if 0 <= i < |s| then [s[i]] else ""
  }

  predicate EndsWithSlash(s: string) {
    |s| >= 1 && s[|s| - 1] == '/'
  }

  predicate EndsWithDoubleSlash(s: string) {
    |s| >= 2 && s[|s| - 2] == '/' && s[|s| - 1] == '/'
  }

  const InvalidBaseUrl := "Please provide a validBase url. Url should end with single \"/\"."

  /**
   * The base-URL check of `httpful`: an undefined base URL stays undefined, one
   * ending in "//" is rejected, one ending in a single "/" is kept, and any other
   * gets "/" appended. So every accepted base URL ends in "/" but not in "//".
   */
  method NormalizeBaseUrl(baseUrl: Option<string>) returns (r: Result<Option<string>>)
    ensures baseUrl.None? ==> r == Ok(None)
    ensures baseUrl.Some? ==> (r.Err? <==> EndsWithDoubleSlash(baseUrl.value))
    ensures baseUrl.Some? && EndsWithSlash(baseUrl.value) && r.Ok? ==> r.value == baseUrl
    ensures baseUrl.Some? && !EndsWithSlash(baseUrl.value) ==> r == Ok(Some(baseUrl.value + "/"))
    ensures r.Ok? && r.value.Some? ==> EndsWithSlash(r.value.value) && !EndsWithDoubleSlash(r.value.value)
  {
    r := Ok(baseUrl);
    if baseUrl.Some? {
      var b := baseUrl.value;
      if CharAt(b, |b| - 1) == "/" {
        if CharAt(b, |b| - 2) == "/" {
          return Err(InvalidBaseUrl);
        }
      } else {
        r := Ok(Some(b + "/"));
      }
    }
  }

  datatype PaginationOptions = PaginationOptions(defaultSize: Option<int>, defaultOffset: Option<int>)

  /** `FastifyHalPluginOptions` of src/index.ts; None is an omitted (or null) option. */
  datatype FastifyHalPluginOptions = FastifyHalPluginOptions(
    baseUrl: Option<string>,
    activateHypertextCachePattern: Option<bool>,
    useJsonStringify: Option<bool>,
    paginationOptions: Option<PaginationOptions>,
    resolveTypeBoxObject: Option<bool>)

  /** The `pluginOptions` record decorated on the instance, with the normalised base URL. */
  datatype PluginSettings = PluginSettings(
    baseUrl: Option<string>,
    activateHypertextCachePattern: bool,
    useJsonStringify: bool,
    resolveTypeBoxObject: bool,
    defaultSize: int,
    defaultOffset: int)

  /**
   * The option handling of `httpful` in src/index.ts: the base-URL check, then
   * `??` defaults (cache pattern on, JSON.stringify on, TypeBox resolution off,
   * default size 10, default offset 10). `??` only fills a missing value, so an
   * explicit false or 0 is kept.
   */
  method Httpful(opts: FastifyHalPluginOptions) returns (r: Result<PluginSettings>)
    ensures opts.baseUrl.Some? && EndsWithDoubleSlash(opts.baseUrl.value) <==> r.Err?
    ensures r.Ok? ==> r.value.baseUrl.Some? == opts.baseUrl.Some?
    ensures r.Ok? && r.value.baseUrl.Some? ==>
              EndsWithSlash(r.value.baseUrl.value) && !EndsWithDoubleSlash(r.value.baseUrl.value)
    ensures r.Ok? ==> r.value.activateHypertextCachePattern == opts.activateHypertextCachePattern.GetOr(true)
    ensures r.Ok? ==> r.value.useJsonStringify == opts.useJsonStringify.GetOr(true)
    ensures r.Ok? ==> r.value.resolveTypeBoxObject == opts.resolveTypeBoxObject.GetOr(false)
    ensures r.Ok? ==> (r.value.defaultSize ==
              if opts.paginationOptions.Some? then opts.paginationOptions.value.defaultSize.GetOr(10) else 10)
    ensures r.Ok? ==> (r.value.defaultOffset ==
              if opts.paginationOptions.Some? then opts.paginationOptions.value.defaultOffset.GetOr(10) else 10)
  {
    var baseUrl := NormalizeBaseUrl(opts.baseUrl);
    if baseUrl.Err? {
      return Err(baseUrl.message);
    }
    var activate := opts.activateHypertextCachePattern.GetOr(true);
    var useJsonStringify := opts.useJsonStringify.GetOr(true);
    var resolveTypeBoxObject := opts.resolveTypeBoxObject.GetOr(false);
    var paginationOptions := opts.paginationOptions.GetOr(PaginationOptions(None, None));
    var defaultSize := paginationOptions.defaultSize.GetOr(10);
    var defaultOffset := paginationOptions.defaultOffset.GetOr(10);
    r := Ok(PluginSettings(baseUrl.value, activate, useJsonStringify, resolveTypeBoxObject, defaultSize, defaultOffset));
  }

  /**
   * The instance the states see after `httpful` of src/index.ts: the
   * normalised base URL, the route prefix, and the flag `buildEmbeddedObject`
   * reads as `fastify.activateHypertextCachePattern`. src/index.ts puts the
   * option only into `pluginOptions`, so that instance member is undefined,
   * which is falsy.
   */
  function IndexServerAsWritten(settings: PluginSettings, prefix: string): (s: Server)
    ensures s.baseUrl == settings.baseUrl && s.prefix == prefix
    ensures !s.activateHypertextCachePattern
  {
    Server(settings.baseUrl, prefix, false)
  }

  /** The instance as intended: the flag read is the `pluginOptions` value. */
  function IndexServer(settings: PluginSettings, prefix: string): (s: Server)
    ensures s.baseUrl == settings.baseUrl && s.prefix == prefix
    ensures s.activateHypertextCachePattern == settings.activateHypertextCachePattern
  {
    Server(settings.baseUrl, prefix, settings.activateHypertextCachePattern)
  }

  /**
   * As written, an instance set up by src/index.ts never links an embedded
   * object from its parent, even with the option switched on.
   */
  lemma CachePatternDeadAsWritten(settings: PluginSettings, prefix: string, request: Request, model: Value,
                                  parent: Resource, rel: string, href: string, build: seq<ObjectStep>)
    requires settings.activateHypertextCachePattern
    ensures EmbedObject(Context(IndexServerAsWritten(settings, prefix), request), model, parent, rel, href, build).links
         == parent.links
  {
  }

  /**
   * As intended, with the option on (its default), the parent links to an
   * embedded object by the object's `self` link.
   */
  lemma CachePatternFollowsOption(settings: PluginSettings, prefix: string, request: Request, model: Value,
                                  parent: Resource, rel: string, href: string)
    requires settings.activateHypertextCachePattern
    ensures EmbedObject(Context(IndexServer(settings, prefix), request), model, parent, rel, href, []).links[rel]
         == Link(href, NoOpts)
  {
    CachePatternLinksSelf(Context(IndexServer(settings, prefix), request), model, parent, rel, href);
  }

  /** `FastifyHalPluginOptions` of src/plugin.ts. */
  datatype LegacyPluginOptions = LegacyPluginOptions(baseUrl: Option<string>, activateHypertextCachePattern: Option<bool>)

  /**
   * `httpful` of src/plugin.ts: the same base-URL check, then the instance is
   * decorated with `baseUrl` and with `activateHypertextCachePattern` (default
   * true, an explicit false kept), the flag the embedded-object builder reads.
   * `prefix` is the instance's route prefix.
   */
  method PluginHttpful(opts: LegacyPluginOptions, prefix: string) returns (r: Result<Server>)
    ensures opts.baseUrl.Some? && EndsWithDoubleSlash(opts.baseUrl.value) <==> r.Err?
    ensures r.Ok? ==> r.value.activateHypertextCachePattern == opts.activateHypertextCachePattern.GetOr(true)
    ensures r.Ok? ==> r.value.prefix == prefix && r.value.baseUrl.Some? == opts.baseUrl.Some?
    ensures r.Ok? && opts.baseUrl.Some? && !EndsWithSlash(opts.baseUrl.value) ==>
              r.value.baseUrl == Some(opts.baseUrl.value + "/")
    ensures r.Ok? && opts.baseUrl.Some? && EndsWithSlash(opts.baseUrl.value) ==> r.value.baseUrl == opts.baseUrl
  {
    var baseUrl := NormalizeBaseUrl(opts.baseUrl);
    if baseUrl.Err? {
      return Err(baseUrl.message);
    }
    r := Ok(Server(baseUrl.value, prefix, opts.activateHypertextCachePattern.GetOr(true)));
  }
}
