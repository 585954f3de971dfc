/**
 * `AbstractGetCollectionState` together with its offset/size instance
 * `AbstractGetCollectionStateWithOffsetSize`: loads one window of a
 * collection, paginates it, links the neighbouring windows and reports the
 * total count.
 */
module GetCollectionStates {
  import opened Wrappers
  import opened JsValues
  import opened Url
  import opened HalFormat
  import opened Pagination
  import opened States

  /**
   * `createUrl(page)`: the full URL with its `size` and then its `offset`
   * query parameter set to the page's, each in decimal notation.
   */
  function CreateUrl(ctx: Context, env: Env, page: Page): (u: string)
    ensures var withSize := env.setSearchParam(FullUrl(ctx), "size", IntToString(page.size));
            u == env.setSearchParam(withSize, "offset", IntToString(page.offset))
  {
    env.setSearchParam(env.setSearchParam(FullUrl(ctx), "size", IntToString(page.size)), "offset", IntToString(page.offset))
  }

  /**
   * `buildPaginationUrls()` as a relation-to-URL map: `self` always, each other
   * direction exactly when the pagination result has it, each URL made by
   * `createUrl` from that direction's page.
   */
  function PaginationUrls(ctx: Context, env: Env, pr: PaginationResult<Page>): (m: map<string, string>)
    ensures "self" in m && m["self"] == CreateUrl(ctx, env, pr.self)
    ensures "next" in m <==> pr.next.Some?
    ensures "prev" in m <==> pr.prev.Some?
    ensures "last" in m <==> pr.last.Some?
    ensures "first" in m <==> pr.first.Some?
    ensures pr.next.Some? ==> m["next"] == CreateUrl(ctx, env, pr.next.value)
    ensures pr.prev.Some? ==> m["prev"] == CreateUrl(ctx, env, pr.prev.value)
    ensures pr.last.Some? ==> m["last"] == CreateUrl(ctx, env, pr.last.value)
    ensures pr.first.Some? ==> m["first"] == CreateUrl(ctx, env, pr.first.value)
    ensures m.Keys <= {"self", "next", "prev", "last", "first"}
  {
    var m0 := map["self" := CreateUrl(ctx, env, pr.self)];
    var m1 := if pr.next.Some? then m0["next" := CreateUrl(ctx, env, pr.next.value)] else m0;
    var m2 := if pr.prev.Some? then m1["prev" := CreateUrl(ctx, env, pr.prev.value)] else m1;
    var m3 := if pr.last.Some? then m2["last" := CreateUrl(ctx, env, pr.last.value)] else m2;
    if pr.first.Some? then m3["first" := CreateUrl(ctx, env, pr.first.value)] else m3
  }

  /** Each pagination URL as a link object without options. */
  function UrlLinks(urls: map<string, string>): (links: map<string, Link>)
    ensures links.Keys == urls.Keys
    ensures forall k :: k in urls ==> links[k] == Link(urls[k], NoOpts)
  {
    map k | k in urls :: Link(urls[k], NoOpts)
  }

  /** Writing the link of one more relation extends the links written so far by it. */
  lemma UrlLinkWritten(base: map<string, Link>, urls: map<string, string>, todo: set<string>, key: string)
    requires key in todo && todo <= urls.Keys
    ensures (base + UrlLinks(urls - todo))[key := Link(urls[key], NoOpts)] == base + UrlLinks(urls - (todo - {key}))
  {
    assert urls - (todo - {key}) == (urls - todo)[key := urls[key]];
    assert UrlLinks(urls - (todo - {key})) == UrlLinks(urls - todo)[key := Link(urls[key], NoOpts)];
  }

  /** `getTheModel()`: the first model of the window (undefined when it is empty). */
  function TheModel(results: seq<Value>): (m: Value)
    ensures |results| > 0 ==> m in results && m == results[0]
    ensures results == [] ==> ReadThrows(m)
  {
    if |results| > 0 then results[0] else Undef
  }

  /** The document with the pagination links written over its links and `totalCount` set. */
  function Paginated(ctx: Context, env: Env, current: Page, result: CollectionResult, doc: Resource): Resource {
    var urls := PaginationUrls(ctx, env, NewPagination(result, current).Build());
    doc.(links := doc.links + UrlLinks(urls), props := doc.props["totalCount" := Num(result.totalCount)])
  }

  /**
   * The last part of `build()`, after the steps `trace`: the hooks run on
   * `theModel` and a 200 carries the document.
   */
  function Published(ctx: Context, theModel: Value, hooks: Hooks, doc: Resource, reply: Reply, trace: seq<Step>): (r: Response)
    ensures r.outcome == Sent && r.reply == SendDocument(reply, 200, r.doc)
    ensures r.doc.props == doc.props && doc.links.Keys <= r.doc.links.Keys
    ensures hooks == NoHooks ==> r.doc == doc
    ensures r.steps == trace + [DefineProperties, DefineLinks, DefineEmbedded, SetStatus(200), DefineHttpResponse, Send]
  {
    var built := Decorate(ctx, theModel, doc, hooks);
    Response(Sent, SendDocument(reply, 200, built), built,
             trace + [DefineProperties, DefineLinks, DefineEmbedded, SetStatus(200), DefineHttpResponse, Send])
  }

  /**
   * What follows a successful load of `result`: `after()`, caching switched
   * off, the pagination computed and written into the document, the hooks run
   * on the window's first model, and a 200 carrying the document.
   */
  function ListResponse(ctx: Context, env: Env, current: Page, result: CollectionResult, hooks: Hooks,
                        doc: Resource, reply: Reply, trace: seq<Step>): (r: Response)
    ensures r.outcome == Sent && r.reply.status == Some(200) && r.reply.body == SentDocument(r.doc)
    ensures r.reply.headers == reply.headers["Cache-Control" := NoCache] && r.reply.contentType == reply.contentType
    ensures r.doc.props == doc.props["totalCount" := Num(result.totalCount)]
    ensures hooks == NoHooks ==> r.doc == Paginated(ctx, env, current, result, doc)
    ensures r.steps == trace + [After(Arr(result.results)), DefineHttpCaching, DefinePagination, BuildPaginationUrls,
                                DefinePaginationResponse, DefineProperties, DefineLinks, DefineEmbedded,
                                SetStatus(200), DefineHttpResponse, Send]
  {
    Published(ctx, TheModel(result.results), hooks, Paginated(ctx, env, current, result, doc),
              reply.(headers := reply.headers["Cache-Control" := NoCache]),
              trace + [After(Arr(result.results)), DefineHttpCaching, DefinePagination, BuildPaginationUrls,
                       DefinePaginationResponse])
  }

  /**
   * The response of `build()` for the requested window `current` and the
   * repository answer, after the steps `trace`. The window is extracted from
   * the query before `before()` runs; a failed load is a 500 leaving document
   * and reply alone.
   */
  function CollectionResponse(ctx: Context, env: Env, current: Page, loaded: Loaded<CollectionResult>, hooks: Hooks,
                              doc: Resource, reply: Reply, trace: seq<Step>): (r: Response)
    ensures loaded.LoadFailed? ==> r == Throw(InternalServerError, reply, doc, trace + [ExtractCurrent, Before, Load])
    ensures loaded.Loaded? ==>
              r == ListResponse(ctx, env, current, loaded.value, hooks, doc, reply, trace + [ExtractCurrent, Before, Load])
  {
    match loaded
    case LoadFailed => Throw(InternalServerError, reply, doc, trace + [ExtractCurrent, Before, Load])
    case Loaded(result) => ListResponse(ctx, env, current, result, hooks, doc, reply, trace + [ExtractCurrent, Before, Load])
  }

  /** The window is extracted from the query first, and a 500 is thrown right after the load. */
  lemma CurrentExtractedFirst(ctx: Context, env: Env, current: Page, loaded: Loaded<CollectionResult>, hooks: Hooks,
                              doc: Resource, reply: Reply)
    ensures var steps := CollectionResponse(ctx, env, current, loaded, hooks, doc, reply, []).steps;
            && |steps| >= 3 && steps[..3] == [ExtractCurrent, Before, Load]
            && (loaded.LoadFailed? ==> |steps| == 3)
  {
    assert [] + [ExtractCurrent, Before, Load] == [ExtractCurrent, Before, Load];
  }

  /**
   * Without hook overrides the document links exactly the windows the
   * pagination has: `self` to the requested window, and next, prev, last and
   * first exactly when they exist, each to its own window.
   */
  lemma CollectionLinksFollowPagination(ctx: Context, env: Env, current: Page, result: CollectionResult,
                                        doc: Resource, reply: Reply)
    requires doc.links.Keys <= {"self"}
    ensures var r := ListResponse(ctx, env, current, result, NoHooks, doc, reply, []);
            var p := NewPagination(result, current);
            && r.doc.links["self"] == Link(CreateUrl(ctx, env, current), NoOpts)
            && ("next" in r.doc.links <==> p.HasNext())
            && ("prev" in r.doc.links <==> p.HasPrev())
            && ("last" in r.doc.links <==> p.HasLast())
            && ("first" in r.doc.links <==> p.HasFirst())
            && (p.HasNext() ==> r.doc.links["next"] == Link(CreateUrl(ctx, env, p.GetNext()), NoOpts))
            && (p.HasPrev() ==> r.doc.links["prev"] == Link(CreateUrl(ctx, env, p.GetPrev()), NoOpts))
  {
    var p := NewPagination(result, current);
    assert p.Build().self == current;
  }

  /**
   * An empty collection read from offset 0 links only to itself: there is no
   * window before or after it.
   */
  lemma EmptyCollectionLinksOnlySelf(ctx: Context, env: Env, size: int, doc: Resource, reply: Reply)
    requires doc.links.Keys <= {"self"} && size >= 0
    ensures ListResponse(ctx, env, Page(0, size), CollectionResult([], 0), NoHooks, doc, reply, []).doc.links.Keys
         == {"self"}
  {
    var p := NewPagination(CollectionResult([], 0), Page(0, size));
    var urls := PaginationUrls(ctx, env, p.Build());
    assert urls.Keys == {"self"};
  }

  /** `AbstractGetCollectionStateWithOffsetSize` on top of its `AbstractState`. */
  class AbstractGetCollectionStateWithOffsetSize {
    const state: AbstractState
    var databaseResult: seq<Value>
    var totalCount: int
    var current: Page
    var paginationResult: PaginationResult<Page>
    var paginationUrls: map<string, string>

    constructor(ctx: Context)
      ensures fresh(state) && state.ctx == ctx
      ensures state.resourceObject == InitialDocument(ctx) && state.reply == InitialReply && state.trace == []
      ensures databaseResult == [] && totalCount == 0
    {
      state := new AbstractState(ctx);
      databaseResult := [];
      totalCount := 0;
      current := Page(0, 10);
      paginationResult := PaginationResult(Page(0, 10), None, None, None, None);
      paginationUrls := map[];
    }

    /** `buildPaginationUrls()`: `self`, then next, prev, last and first where the result has them. */
    method BuildPaginationUrls(env: Env)
      modifies this`paginationUrls
      ensures paginationUrls == PaginationUrls(state.ctx, env, paginationResult)
    {
      var ctx := state.ctx;
      paginationUrls := map["self" := CreateUrl(ctx, env, paginationResult.self)];
      if paginationResult.next.Some? {
        paginationUrls := paginationUrls["next" := CreateUrl(ctx, env, paginationResult.next.value)];
      }
      if paginationResult.prev.Some? {
        paginationUrls := paginationUrls["prev" := CreateUrl(ctx, env, paginationResult.prev.value)];
      }
      if paginationResult.last.Some? {
        paginationUrls := paginationUrls["last" := CreateUrl(ctx, env, paginationResult.last.value)];
      }
      if paginationResult.first.Some? {
        paginationUrls := paginationUrls["first" := CreateUrl(ctx, env, paginationResult.first.value)];
      }
    }

    /** `AbstractGetCollectionState.definePaginationResponse()`: each pagination URL becomes the link of its relation. */
    method DefinePaginationLinks()
      modifies state
      ensures state.resourceObject == old(state.resourceObject).(links := old(state.resourceObject.links) + UrlLinks(paginationUrls))
      ensures state.reply == old(state.reply) && state.trace == old(state.trace)
    {
      var todo := paginationUrls.Keys;
      while todo != {}
        invariant todo <= paginationUrls.Keys
        invariant state.reply == old(state.reply) && state.trace == old(state.trace)
        invariant state.resourceObject.embedded == old(state.resourceObject.embedded)
        invariant state.resourceObject.props == old(state.resourceObject.props)
        invariant state.resourceObject.links == old(state.resourceObject.links) + UrlLinks(paginationUrls - todo)
        decreases todo
      {
        var key :| key in todo;
        UrlLinkWritten(old(state.resourceObject.links), paginationUrls, todo, key);
        state.resourceObject := state.resourceObject.(links := state.resourceObject.links[key := Link(paginationUrls[key], NoOpts)]);
        todo := todo - {key};
      }
      assert paginationUrls - {} == paginationUrls;
    }

    /**
     * `definePaginationResponse()` of the offset/size variant: the links of the
     * base class, then the `totalCount` property.
     */
    method DefinePaginationResponse()
      modifies state
      ensures state.resourceObject == old(state.resourceObject).(
                links := old(state.resourceObject.links) + UrlLinks(paginationUrls),
                props := old(state.resourceObject.props)["totalCount" := Num(totalCount)])
      ensures state.reply == old(state.reply) && state.trace == old(state.trace)
    {
      DefinePaginationLinks();
      state.resourceObject := state.resourceObject.(props := state.resourceObject.props["totalCount" := Num(totalCount)]);
    }

    /**
     * `definePagination()`, `paginationResult`, `buildPaginationUrls()` and
     * `definePaginationResponse()`: the pagination of `result` written into the document.
     */
    method Paginate(env: Env, result: CollectionResult)
      requires totalCount == result.totalCount
      modifies this`paginationResult, this`paginationUrls, state
      ensures state.resourceObject == Paginated(state.ctx, env, current, result, old(state.resourceObject))
      ensures state.reply == old(state.reply) && state.trace == old(state.trace)
      ensures current == old(current) && databaseResult == old(databaseResult)
    {
      var pagination := NewPagination(result, current);
      paginationResult := pagination.Build();
      BuildPaginationUrls(env);
      DefinePaginationResponse();
    }

    /** `defineProperties()` to `send()`: the hooks run on `theModel` and the document goes out. */
    method Publish(theModel: Value, hooks: Hooks)
      modifies state
      ensures var r := Published(state.ctx, theModel, hooks, old(state.resourceObject), old(state.reply), old(state.trace));
              state.reply == r.reply && state.resourceObject == r.doc && state.trace == r.steps
    {
      ghost var before := state.trace;
      state.trace := state.trace + [DefineProperties];
      state.DefineLinksAndEmbedded(theModel, hooks);
      state.ReplyStatus(200);
      state.trace := state.trace + [DefineHttpResponse];
      state.ReplySend();
      assert state.trace == before + [DefineProperties, DefineLinks, DefineEmbedded, SetStatus(200), DefineHttpResponse, Send];
    }

    /** `build()` from `after()` on, once `result` has been loaded into the fields. */
    method Respond(env: Env, result: CollectionResult, hooks: Hooks)
      requires totalCount == result.totalCount && databaseResult == result.results
      modifies this`paginationResult, this`paginationUrls, state
      ensures var r := ListResponse(state.ctx, env, current, result, hooks,
                                    old(state.resourceObject), old(state.reply), old(state.trace));
              state.reply == r.reply && state.resourceObject == r.doc && state.trace == r.steps
    {
      ghost var before := state.trace;
      state.trace := state.trace + [After(Arr(databaseResult)), DefineHttpCaching];
      state.PreventCaching();
      state.trace := state.trace + [DefinePagination, Step.BuildPaginationUrls, Step.DefinePaginationResponse];
      assert state.trace == before + [After(Arr(databaseResult)), DefineHttpCaching, DefinePagination,
                                      Step.BuildPaginationUrls, Step.DefinePaginationResponse];
      Paginate(env, result);
      Publish(TheModel(databaseResult), hooks);
    }

    /** `build()`; `query` is the request's `offset` and `size` (`extractCurrent()`). */
    method Build(env: Env, query: Page, loaded: Loaded<CollectionResult>, hooks: Hooks) returns (o: Outcome)
      modifies this, state
      ensures var r := CollectionResponse(state.ctx, env, query, loaded, hooks,
                                          old(state.resourceObject), old(state.reply), old(state.trace));
              o == r.outcome && state.reply == r.reply && state.resourceObject == r.doc && state.trace == r.steps
    {
      current := query;
      state.trace := state.trace + [ExtractCurrent, Before, Load];
      if loaded.LoadFailed? {
        return Thrown(InternalServerError);
      }
      var collectionDatabaseResult := loaded.value;
      totalCount := collectionDatabaseResult.totalCount;
      databaseResult := collectionDatabaseResult.results;
      Respond(env, collectionDatabaseResult, hooks);
      return Sent;
    }
  }
}
