/**
 * `AbstractGetState`: loads one model, answers 304 when the client's cached
 * copy is current, and otherwise sends the model's HAL document with an entity
 * tag and caching switched off.
 */
module GetStates {
  import opened Wrappers
  import opened JsValues
  import opened CopyProperties
  import opened Url
  import opened HalFormat
  import opened Preconditions
  import opened States

  /**
   * The 200 answer, after the steps `trace`: the model's primitive members
   * become properties, the hooks run, and the document goes out with its
   * entity tag and `no-cache` headers.
   */
  function Representation(ctx: Context, env: Env, model: Value, hooks: Hooks,
                          doc: Resource, reply: Reply, trace: seq<Step>): (r: Response)
    ensures r.outcome == Sent && r.reply.status == Some(200) && r.reply.body == SentDocument(r.doc)
    ensures r.reply.contentType == reply.contentType
    ensures r.reply.headers == reply.headers["Etag" := env.etagOf(model)]["Cache-Control" := NoCache]
    ensures r.doc.props == PrimitiveOverlay(Entries(model), doc.props)
    ensures doc.links.Keys <= r.doc.links.Keys
    ensures hooks == NoHooks ==> r.doc.links == doc.links && r.doc.embedded == doc.embedded
    ensures r.steps == trace + [DefineProperties, DefineLinks, DefineEmbedded, DefineValidationType,
                                DefineCacheControl, SetStatus(200), DefineHttpResponse, Send]
  {
    var built := Decorate(ctx, model, doc.(props := PrimitiveOverlay(Entries(model), doc.props)), hooks);
    var headers := reply.headers["Etag" := env.etagOf(model)]["Cache-Control" := NoCache];
    Response(Sent, SendDocument(reply.(headers := headers), 200, built), built,
             trace + [DefineProperties] + [DefineLinks] + [DefineEmbedded] + [DefineValidationType]
                   + [DefineCacheControl] + [SetStatus(200)] + [DefineHttpResponse] + [Send])
  }

  /**
   * What follows a successful load of `model`: `after()`, then the
   * precondition check, which throws a TypeError when it reads `modifiedAt`
   * of a null model; otherwise the preconditions decide between an empty 304,
   * which leaves the document unbuilt, and the full representation.
   */
  function FoundResponse(ctx: Context, env: Env, model: Value, hooks: Hooks,
                         doc: Resource, reply: Reply, trace: seq<Step>): (r: Response)
    ensures ReadThrows(model) ==> r == Throw(TypeError, reply, doc, trace + [After(Undef), CheckPreconditions])
    ensures r.outcome == Sent <==> !ReadThrows(model)
    ensures r.outcome == Sent ==>
              (r.reply.status == Some(304) <==>
                 EvaluatePreconditions(ctx.request, ModifiedAt(model), env.etagOf(model), env.parseDate))
    ensures r.outcome == Sent && r.reply.status == Some(304) ==>
              r.doc == doc && r.reply == reply.(status := Some(304), body := SentEmpty)
              && r.steps == trace + [After(Undef), CheckPreconditions, SetStatus(304), Send]
    ensures r.outcome == Sent && r.reply.status != Some(304) ==>
              r == Representation(ctx, env, model, hooks, doc, reply, trace + [After(Undef), CheckPreconditions])
  {
    var checked := trace + [After(Undef), CheckPreconditions];
    if ReadThrows(model) then Throw(TypeError, reply, doc, checked)
    else if EvaluatePreconditions(ctx.request, ModifiedAt(model), env.etagOf(model), env.parseDate) then
      Response(Sent, reply.(status := Some(304), body := SentEmpty), doc, checked + [SetStatus(304)] + [Send])
    else
      Representation(ctx, env, model, hooks, doc, reply, checked)
  }

  /**
   * The response of `build()` for a repository answer `loaded`, after the
   * steps `trace`, from the document and reply the state had before: a failed
   * load is a 500 and an undefined result a 404, both thrown before anything
   * else happens. Only `undefined` is tested for: a null result goes on, and
   * the precondition check throws a TypeError on it.
   */
  function GetResponse(ctx: Context, env: Env, loaded: Loaded<Value>, hooks: Hooks,
                       doc: Resource, reply: Reply, trace: seq<Step>): (r: Response)
    ensures loaded.LoadFailed? ==> r == Throw(InternalServerError, reply, doc, trace + [Before, Load])
    ensures loaded.Loaded? && loaded.value == Undef ==> r == Throw(NotFound, reply, doc, trace + [Before, Load])
    ensures loaded == Loaded(Null) ==>
              r == Throw(TypeError, reply, doc, trace + [Before, Load, After(Undef), CheckPreconditions])
    ensures r.outcome == Sent <==> loaded.Loaded? && !ReadThrows(loaded.value)
    ensures r.outcome == Sent ==>
              r == FoundResponse(ctx, env, loaded.value, hooks, doc, reply, trace + [Before, Load])
  {
    match loaded
    case LoadFailed => Throw(InternalServerError, reply, doc, trace + [Before, Load])
    case Loaded(model) =>
      if model == Undef then Throw(NotFound, reply, doc, trace + [Before, Load])
      else FoundResponse(ctx, env, model, hooks, doc, reply, trace + [Before, Load])
  }

  /**
   * A GET whose If-None-Match names the current entity tag is answered 304,
   * and one naming another tag gets the document.
   */
  lemma IfNoneMatchDecides(ctx: Context, env: Env, model: Value, hooks: Hooks, doc: Resource, reply: Reply)
    requires !ReadThrows(model) && ctx.request.httpMethod == "GET"
    requires "if-none-match" in ctx.request.headers && ctx.request.headers["if-none-match"] != ""
    ensures GetResponse(ctx, env, Loaded(model), hooks, doc, reply, []).reply.status == Some(304)
        <==> ctx.request.headers["if-none-match"] == env.etagOf(model)
  {
  }

  /**
   * A 304 defines neither properties, links nor embedded resources: after
   * `before()`, the load and `after()`, the precondition check is followed only
   * by the status and the empty send.
   */
  lemma NotModifiedSkipsDocument(ctx: Context, env: Env, loaded: Loaded<Value>, hooks: Hooks, doc: Resource, reply: Reply)
    requires GetResponse(ctx, env, loaded, hooks, doc, reply, []).outcome == Sent
    requires GetResponse(ctx, env, loaded, hooks, doc, reply, []).reply.status == Some(304)
    ensures GetResponse(ctx, env, loaded, hooks, doc, reply, []).steps
         == [Before, Load, After(Undef), CheckPreconditions, SetStatus(304), Send]
  {
    assert [] + [Before, Load] == [Before, Load];
  }

  /** `AbstractGetState` on top of its `AbstractState`. */
  class AbstractGetState {
    const state: AbstractState
    var requestedModel: Value
    var etag: Option<string>

    constructor(ctx: Context)
      ensures fresh(state) && state.ctx == ctx
      ensures state.resourceObject == InitialDocument(ctx) && state.reply == InitialReply && state.trace == []
      ensures requestedModel == Undef && etag == None
    {
      state := new AbstractState(ctx);
      requestedModel := Undef;
      etag := None;
    }

    /**
     * `clientHasCurrentVersion()`: computes and keeps the entity tag, then asks
     * the preconditions; None when reading the model's `modifiedAt` throws.
     */
    method ClientHasCurrentVersion(env: Env) returns (current: Option<bool>)
      modifies this`etag
      ensures etag == Some(env.etagOf(requestedModel))
      ensures current.None? <==> ReadThrows(requestedModel)
      ensures current.Some? ==>
                current.value == EvaluatePreconditions(state.ctx.request, ModifiedAt(requestedModel),
                                                       env.etagOf(requestedModel), env.parseDate)
    {
      etag := Some(env.etagOf(requestedModel));
      if ReadThrows(requestedModel) {
        return None;
      }
      current := Some(EvaluatePreconditions(state.ctx.request, ModifiedAt(requestedModel), etag.value, env.parseDate));
    }

    /** `defineProperties()`: the model's primitive members become properties of the document. */
    method DefineProperties()
      modifies state
      ensures state.resourceObject == old(state.resourceObject).(props := PrimitiveOverlay(Entries(requestedModel), old(state.resourceObject.props)))
      ensures state.reply == old(state.reply) && state.trace == old(state.trace)
    {
      var props := CopyPrimitiveProperties(requestedModel, state.resourceObject.props);
      state.resourceObject := state.resourceObject.(props := props);
    }

    /** `setEtag()`: the Etag header, reusing the tag computed for the preconditions. */
    method SetEtag(env: Env)
      modifies state
      ensures state.reply == old(state.reply).(headers := old(state.reply).headers["Etag" := etag.GetOr(env.etagOf(requestedModel))])
      ensures state.resourceObject == old(state.resourceObject) && state.trace == old(state.trace)
    {
      state.ReplyHeader("Etag", etag.GetOr(env.etagOf(requestedModel)));
    }

    /** The representation part of `build()`, once the preconditions have failed. */
    method SendRepresentation(env: Env, hooks: Hooks)
      requires etag == Some(env.etagOf(requestedModel))
      modifies state
      ensures var r := Representation(state.ctx, env, requestedModel, hooks,
                                      old(state.resourceObject), old(state.reply), old(state.trace));
              state.reply == r.reply && state.resourceObject == r.doc && state.trace == r.steps
    {
      state.trace := state.trace + [Step.DefineProperties];
      DefineProperties();
      state.DefineLinksAndEmbedded(requestedModel, hooks);
      state.trace := state.trace + [DefineValidationType];
      SetEtag(env);
      state.trace := state.trace + [DefineCacheControl];
      state.PreventCaching();
      state.ReplyStatus(200);
      state.trace := state.trace + [DefineHttpResponse];
      state.ReplySend();
    }

    /** `build()` from `after()` on, for a loaded model. */
    method Respond(env: Env, hooks: Hooks) returns (o: Outcome)
      modifies this`etag, state
      ensures var r := FoundResponse(state.ctx, env, requestedModel, hooks,
                                     old(state.resourceObject), old(state.reply), old(state.trace));
              o == r.outcome && state.reply == r.reply && state.resourceObject == r.doc && state.trace == r.steps
    {
      state.trace := state.trace + [After(Undef), CheckPreconditions];
      var current := ClientHasCurrentVersion(env);
      if current.None? {
        return Thrown(TypeError);
      }
      if current.value {
        state.ReplyStatus(304);
        state.ReplySendEmpty();
        return Sent;
      }
      SendRepresentation(env, hooks);
      return Sent;
    }

    /** `build()`. */
    method Build(env: Env, loaded: Loaded<Value>, hooks: Hooks) returns (o: Outcome)
      modifies this, state
      ensures var r := GetResponse(state.ctx, env, loaded, hooks, old(state.resourceObject), old(state.reply), old(state.trace));
              o == r.outcome && state.reply == r.reply && state.resourceObject == r.doc && state.trace == r.steps
    {
      state.trace := state.trace + [Before, Load];
      if loaded.LoadFailed? {
        return Thrown(InternalServerError);
      }
      var databaseResult := loaded.value;
      if databaseResult == Undef {
        return Thrown(NotFound);
      }
      requestedModel := databaseResult;
      o := Respond(env, hooks);
    }
  }
}
