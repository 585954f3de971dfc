/**
 * `AbstractState`, the base of every request state: it owns the HAL document
 * being built (its `self` link is the request's full URL) and the reply, and
 * offers the link and embedding helpers the `defineLinks`/`defineEmbedded`
 * hooks of a concrete state call.
 */
module States {
  import opened Wrappers
  import opened JsValues
  import opened Url
  import opened HalFormat
  import opened HalSpec
  import opened HalBuilders

  const HalMediaType := "application/hal+json"
  const NoCache := "no-cache, no-store, must-revalidate"

  /** What has been sent: nothing yet, an empty body, or the HAL document. */
  datatype Body = NotSent | SentEmpty | SentDocument(doc: Resource)

  /** The reply as far as the states set it; `status` is None until a state sets one. */
  datatype Reply = Reply(contentType: Option<string>, status: Option<int>, headers: map<string, string>, body: Body)

  /**
   * The errors `build()` ends with: the HTTP errors the states throw, and the
   * `TypeError` JavaScript raises on a member access `ReadThrows` or
   * `WriteThrows` rejects, which Fastify answers with 500.
   */
  datatype Failure = NotFound | PreconditionFailed | InternalServerError | TypeError

  /** How `build()` ends: the reply was sent, or an error was thrown. */
  datatype Outcome = Sent | Thrown(error: Failure)

  /** The result of a repository call: its value, or a rejected promise. */
  datatype Loaded<T> = Loaded(value: T) | LoadFailed

  /**
   * What the states take from outside: the clock (`Date.now()`), the entity-tag
   * function (`createEtag`), date parsing, and `URL.searchParams.set` followed
   * by `toString()`, as `setSearchParam(url, name, value)`.
   */
  datatype Env = Env(
    now: int,
    etagOf: Value -> string,
    parseDate: string -> Option<int>,
    setSearchParam: (string, string, string) -> string)

  /** One call a `defineLinks`/`defineEmbedded` hook makes on its state. */
  datatype StateStep =
    | AddLink(rel: string, href: string, opts: LinkOpts)
    | AddAbsoluteLink(rel: string, href: string, opts: LinkOpts)
    | AddEmbeddedArray(rel: string, models: seq<Value>, build: seq<ArrayStep>)
    | AddEmbeddedObject(rel: string, href: string, args: EmbedArgs)
    | AddAbsoluteEmbeddedObject(rel: string, href: string, args: EmbedArgs)

  /** The two hooks a concrete state overrides, as the calls they make. */
  datatype Hooks = Hooks(defineLinks: seq<StateStep>, defineEmbedded: seq<StateStep>)

  /** Hooks left as the base class defines them. */
  const NoHooks := Hooks([], [])

  /**
   * The effect of one helper call on the state's document; `theModel` is what
   * `getTheModel()` returns, whose `rel` member the model overload of
   * `addEmbeddedObject` embeds.
   */
  function ApplyStateStep(ctx: Context, theModel: Value, r: Resource, step: StateStep): (r': Resource)
    ensures r.links.Keys <= r'.links.Keys && r'.props == r.props
  {
    match step
    case AddLink(rel, href, opts) => PutLink(r, rel, href, opts)
    case AddAbsoluteLink(rel, href, opts) => PutLink(r, rel, AbsoluteUrl(ctx, href), opts)
    case AddEmbeddedArray(rel, models, build) => EmbedArray(ctx, r, rel, models, build)
    case AddEmbeddedObject(rel, href, args) =>
      var t := EmbedTarget(theModel, rel, args);
      EmbedObject(ctx, t.0, r, rel, href, t.1)
    case AddAbsoluteEmbeddedObject(rel, href, args) =>
      var t := EmbedTarget(theModel, rel, args);
      EmbedObject(ctx, t.0, r, rel, AbsoluteUrl(ctx, href), t.1)
  }

  /** The calls of a hook, in order. */
  function ApplyStateSteps(ctx: Context, theModel: Value, r: Resource, steps: seq<StateStep>): (r': Resource)
    ensures r.links.Keys <= r'.links.Keys && r'.props == r.props
    decreases |steps|
  {
    if steps == [] then r
    else ApplyStateStep(ctx, theModel, ApplyStateSteps(ctx, theModel, r, steps[..|steps| - 1]), steps[|steps| - 1])
  }

  /** Running the first `i + 1` calls is running the first `i` and then call `i`. */
  lemma ApplyStateStepsSnoc(ctx: Context, theModel: Value, r: Resource, steps: seq<StateStep>, i: nat)
    requires i < |steps|
    ensures ApplyStateSteps(ctx, theModel, r, steps[..i + 1])
         == ApplyStateStep(ctx, theModel, ApplyStateSteps(ctx, theModel, r, steps[..i]), steps[i])
  {
    assert steps[..i + 1][..i] == steps[..i];
  }

  /** `defineLinks()` and then `defineEmbedded()`. */
  function Decorate(ctx: Context, theModel: Value, r: Resource, hooks: Hooks): (r': Resource)
    ensures r.links.Keys <= r'.links.Keys && r'.props == r.props
    ensures hooks == NoHooks ==> r' == r
  {
    ApplyStateSteps(ctx, theModel, ApplyStateSteps(ctx, theModel, r, hooks.defineLinks), hooks.defineEmbedded)
  }

  /** One helper call keeps every link whose relation it does not write. */
  lemma StepKeepsLink(ctx: Context, theModel: Value, r: Resource, step: StateStep, rel: string)
    requires rel in r.links
    requires step.AddEmbeddedArray? || step.rel != rel
    ensures ApplyStateStep(ctx, theModel, r, step).links[rel] == r.links[rel]
  {
    match step
    case AddLink(_, _, _) =>
    case AddAbsoluteLink(_, _, _) =>
    case AddEmbeddedArray(_, _, _) =>
    case AddEmbeddedObject(rel', href, args) =>
      var t := EmbedTarget(theModel, rel', args);
      assert EmbedObject(ctx, t.0, r, rel', href, t.1).links[rel] == r.links[rel];
    case AddAbsoluteEmbeddedObject(rel', href, args) =>
      var t := EmbedTarget(theModel, rel', args);
      assert EmbedObject(ctx, t.0, r, rel', AbsoluteUrl(ctx, href), t.1).links[rel] == r.links[rel];
  }

  /**
   * A hook's links never disappear: whatever a later call embeds, a link set by
   * `addLink` stays, except where a later call writes the same relation.
   */
  lemma {:induction false} HookKeepsLink(ctx: Context, theModel: Value, r: Resource, steps: seq<StateStep>, rel: string)
    requires rel in r.links
    requires forall i :: 0 <= i < |steps| ==> steps[i].AddEmbeddedArray? || steps[i].rel != rel
    ensures ApplyStateSteps(ctx, theModel, r, steps).links[rel] == r.links[rel]
    decreases |steps|
  {
    if steps != [] {
      var init := steps[..|steps| - 1];
      HookKeepsLink(ctx, theModel, r, init, rel);
      StepKeepsLink(ctx, theModel, ApplyStateSteps(ctx, theModel, r, init), steps[|steps| - 1], rel);
    }
  }

  /** The reply right after construction: only the HAL content type is set. */
  const InitialReply := Reply(Some(HalMediaType), None, map[], NotSent)

  /** The state's document right after construction: a skeleton whose `self` is the request's full URL. */
  function InitialDocument(ctx: Context): (r: Resource)
    ensures HasSelf(r) && r.links["self"].href == FullUrl(ctx)
    ensures r.embedded == map[] && r.props == map[]
  {
    Skeleton(FullUrl(ctx))
  }

  /** `reply.status(code)` followed by `reply.send(doc)`. */
  function SendDocument(reply: Reply, code: int, doc: Resource): (r: Reply)
    ensures r.status == Some(code) && r.body == SentDocument(doc)
    ensures r.contentType == reply.contentType && r.headers == reply.headers
  {
    reply.(status := Some(code), body := SentDocument(doc))
  }

  /** `model.modifiedAt` when it is a number. */
  function ModifiedAt(model: Value): (r: Option<int>)
    ensures r.Some? <==> Get(model, "modifiedAt").Num?
    ensures r.Some? ==> r.value == Get(model, "modifiedAt").n
  {
    match Get(model, "modifiedAt")
    case Num(n) => Some(n)
    case _ => None
  }

  /**
   * The steps of a `build()` pipeline, in the order they run: the overridable
   * hooks, the repository calls with the model they are given (`Undef` for a
   * call without argument), and the reply calls.
   */
  datatype Step =
    | ExtractCurrent | Before | Load | After(arg: Value)
    | BeforeUpdate(current: Value) | BeforeDelete(current: Value) | CheckPreconditions
    | CreateModel | Save(model: Value) | Update(model: Value) | Delete(model: Value)
    | DefineHttpCaching | DefinePagination | BuildPaginationUrls | DefinePaginationResponse
    | DefineProperties | DefineLinks | DefineEmbedded
    | DefineValidationType | DefineCacheControl | DefineLocationLink
    | SetStatus(code: int) | DefineHttpResponse | Send

  /**
   * The HTTP view of a finished `build()`: the outcome, the reply, the state's
   * document and its trace, the steps taken so far in the order they ran.
   */
  datatype Response = Response(outcome: Outcome, reply: Reply, doc: Resource, steps: seq<Step>)

  /** A thrown error leaves the reply and the document as they were; `steps` are those that ran. */
  function Throw(error: Failure, reply: Reply, doc: Resource, steps: seq<Step>): (r: Response)
    ensures r.outcome == Thrown(error) && r.reply == reply && r.doc == doc && r.steps == steps
  {
    Response(Thrown(error), reply, doc, steps)
  }

  /**
   * The common end of the write pipelines once the repository call succeeded,
   * after the steps `trace`: `after(model)`, `defineProperties()` (the base
   * class's, which does nothing), the hooks on `theModel`, and a 200 carrying
   * the document.
   */
  function Finished(ctx: Context, model: Value, theModel: Value, hooks: Hooks, doc: Resource, reply: Reply,
                    trace: seq<Step>): (r: Response)
    ensures r.outcome == Sent && r.reply == SendDocument(reply, 200, r.doc)
    ensures r.doc.props == doc.props && doc.links.Keys <= r.doc.links.Keys
    ensures hooks == NoHooks ==> r.doc == doc
    ensures r.steps == trace + [After(model), DefineProperties, DefineLinks, DefineEmbedded,
                                SetStatus(200), DefineHttpResponse, Send]
  {
    var built := Decorate(ctx, theModel, doc, hooks);
    Response(Sent, SendDocument(reply, 200, built), built,
             trace + [After(model), DefineProperties, DefineLinks, DefineEmbedded,
                      SetStatus(200), DefineHttpResponse, Send])
  }

  /** `AbstractState`: the request context, the document under construction and the reply. */
  class AbstractState {
    const ctx: Context
    var resourceObject: Resource
    var reply: Reply
    ghost var trace: seq<Step>

    /** The constructor: the document's `self` link is `getSelfHref()`, the full URL; the content type is HAL. */
    constructor(ctx: Context)
      ensures this.ctx == ctx
      ensures resourceObject == InitialDocument(ctx) && reply == InitialReply && trace == []
    {
      this.ctx := ctx;
      resourceObject := Skeleton(FullUrl(ctx));
      reply := Reply(Some(HalMediaType), None, map[], NotSent);
      trace := [];
    }

    /** `reply.header(name, value)`. */
    method ReplyHeader(name: string, value: string)
      modifies this
      ensures reply == old(reply).(headers := old(reply).headers[name := value])
      ensures resourceObject == old(resourceObject) && trace == old(trace)
    {
      reply := reply.(headers := reply.headers[name := value]);
    }

    /** `preventCaching()`: Cache-Control forbids every cache from keeping the reply. */
    method PreventCaching()
      modifies this
      ensures reply == old(reply).(headers := old(reply).headers["Cache-Control" := NoCache])
      ensures resourceObject == old(resourceObject) && trace == old(trace)
    {
      ReplyHeader("Cache-Control", NoCache);
    }

    /** `reply.status(code)`. */
    method ReplyStatus(code: int)
      modifies this
      ensures reply == old(reply).(status := Some(code))
      ensures resourceObject == old(resourceObject) && trace == old(trace) + [SetStatus(code)]
    {
      reply := reply.(status := Some(code));
      trace := trace + [SetStatus(code)];
    }

    /** `reply.send(this.resourceObject)`. */
    method ReplySend()
      modifies this
      ensures reply == old(reply).(body := SentDocument(resourceObject))
      ensures resourceObject == old(resourceObject) && trace == old(trace) + [Send]
    {
      reply := reply.(body := SentDocument(resourceObject));
      trace := trace + [Send];
    }

    /** `reply.send()` without a payload. */
    method ReplySendEmpty()
      modifies this
      ensures reply == old(reply).(body := SentEmpty)
      ensures resourceObject == old(resourceObject) && trace == old(trace) + [Send]
    {
      reply := reply.(body := SentEmpty);
      trace := trace + [Send];
    }

    /** `addLink(rel, href, opts)`: `href` is stored as given. */
    method AddLink(rel: string, href: string, opts: LinkOpts)
      modifies this
      ensures resourceObject == ApplyStateStep(ctx, Undef, old(resourceObject), StateStep.AddLink(rel, href, opts))
      ensures resourceObject.links[rel] == Link(href, opts) && reply == old(reply) && trace == old(trace)
    {
      resourceObject := resourceObject.(links := resourceObject.links[rel := Link(href, opts)]);
    }

    /** `addAbsoluteLink(rel, href, opts)`: `href` is resolved against the base URL. */
    method AddAbsoluteLink(rel: string, href: string, opts: LinkOpts)
      modifies this
      ensures resourceObject == ApplyStateStep(ctx, Undef, old(resourceObject), StateStep.AddAbsoluteLink(rel, href, opts))
      ensures resourceObject.links[rel] == Link(AbsoluteUrl(ctx, href), opts) && reply == old(reply) && trace == old(trace)
    {
      resourceObject := resourceObject.(links := resourceObject.links[rel := Link(AbsoluteUrl(ctx, href), opts)]);
    }

    /** `addEmbeddedArray(rel, models, build)`. */
    method AddEmbeddedArray(rel: string, models: seq<Value>, build: seq<ArrayStep>)
      modifies this
      ensures resourceObject == EmbedArray(ctx, old(resourceObject), rel, models, build)
      ensures reply == old(reply) && trace == old(trace)
    {
      resourceObject := BuildEmbeddedArray(ctx, resourceObject, rel, models, build);
    }

    /**
     * `addEmbeddedObject(rel, href, ...)`: without an object it embeds
     * `getTheModel()[rel]` built by the given callback, otherwise the object
     * built by its callback.
     */
    method AddEmbeddedObject(theModel: Value, rel: string, href: string, args: EmbedArgs)
      modifies this
      ensures resourceObject == ApplyStateStep(ctx, theModel, old(resourceObject), StateStep.AddEmbeddedObject(rel, href, args))
      ensures reply == old(reply) && trace == old(trace)
    {
      match args {
        case FromModel(build) =>
          resourceObject := BuildEmbeddedObject(ctx, Get(theModel, rel), resourceObject, rel, href, build);
        case WithObject(obj, build) =>
          resourceObject := BuildEmbeddedObject(ctx, obj, resourceObject, rel, href, build);
      }
    }

    /** `addAbsoluteEmbeddedObject(rel, href, ...)`: `addEmbeddedObject` with `href` resolved. */
    method AddAbsoluteEmbeddedObject(theModel: Value, rel: string, href: string, args: EmbedArgs)
      modifies this
      ensures resourceObject == ApplyStateStep(ctx, theModel, old(resourceObject), StateStep.AddAbsoluteEmbeddedObject(rel, href, args))
      ensures reply == old(reply) && trace == old(trace)
    {
      AddEmbeddedObject(theModel, rel, AbsoluteUrl(ctx, href), args);
    }

    /** One helper call of a hook. */
    method RunStep(theModel: Value, step: StateStep)
      modifies this
      ensures resourceObject == ApplyStateStep(ctx, theModel, old(resourceObject), step)
      ensures reply == old(reply) && trace == old(trace)
    {
      match step {
        case AddLink(rel, href, opts) => AddLink(rel, href, opts);
        case AddAbsoluteLink(rel, href, opts) => AddAbsoluteLink(rel, href, opts);
        case AddEmbeddedArray(rel, models, build) => AddEmbeddedArray(rel, models, build);
        case AddEmbeddedObject(rel, href, args) => AddEmbeddedObject(theModel, rel, href, args);
        case AddAbsoluteEmbeddedObject(rel, href, args) => AddAbsoluteEmbeddedObject(theModel, rel, href, args);
      }
    }

    /** Runs a `defineLinks` or `defineEmbedded` override: its helper calls, in order. */
    method RunHook(theModel: Value, steps: seq<StateStep>)
      modifies this
      ensures resourceObject == ApplyStateSteps(ctx, theModel, old(resourceObject), steps)
      ensures reply == old(reply) && trace == old(trace)
    {
      var i := 0;
      while i < |steps|
        invariant 0 <= i <= |steps|
        invariant resourceObject == ApplyStateSteps(ctx, theModel, old(resourceObject), steps[..i])
        invariant reply == old(reply) && trace == old(trace)
      {
        ApplyStateStepsSnoc(ctx, theModel, old(resourceObject), steps, i);
        RunStep(theModel, steps[i]);
        i := i + 1;
      }
      assert steps[..|steps|] == steps;
    }

    /** `defineLinks()` then `defineEmbedded()`. */
    method DefineLinksAndEmbedded(theModel: Value, hooks: Hooks)
      modifies this
      ensures resourceObject == Decorate(ctx, theModel, old(resourceObject), hooks)
      ensures reply == old(reply) && trace == old(trace) + [DefineLinks] + [DefineEmbedded]
    {
      trace := trace + [DefineLinks];
      RunHook(theModel, hooks.defineLinks);
      trace := trace + [DefineEmbedded];
      RunHook(theModel, hooks.defineEmbedded);
    }

    /** From `after(model)` to `send()` in the write pipelines. */
    method Finish(model: Value, theModel: Value, hooks: Hooks)
      modifies this
      ensures var r := Finished(ctx, model, theModel, hooks, old(resourceObject), old(reply), old(trace));
              reply == r.reply && resourceObject == r.doc && trace == r.steps
    {
      ghost var before := trace;
      trace := trace + [After(model), DefineProperties];
      DefineLinksAndEmbedded(theModel, hooks);
      ReplyStatus(200);
      trace := trace + [DefineHttpResponse];
      ReplySend();
      assert trace == before + [After(model), DefineProperties, DefineLinks, DefineEmbedded,
                                SetStatus(200), DefineHttpResponse, Send];
    }
  }
}
