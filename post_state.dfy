/**
 * `AbstractPostState`: stores the request body as a new model stamped with the
 * current time, and answers 201 with the created model's document and its
 * Location.
 */
module PostStates {
  import opened Wrappers
  import opened JsValues
  import opened CopyProperties
  import opened Url
  import opened HalFormat
  import opened States

  /**
   * `createModel()` with both timestamps set to `now`, or None when writing
   * them throws a TypeError (a body that is null, undefined or a primitive).
   */
  function StampedModel(body: Value, now: int): (m: Option<Value>)
    ensures m.None? <==> WriteThrows(body)
    ensures body.Obj? ==> m.Some? && m.value.Obj?
                          && Get(m.value, "createdAt") == Num(now) && Get(m.value, "modifiedAt") == Num(now)
    ensures body.Obj? ==> forall k :: k in body.fields && k != "createdAt" && k != "modifiedAt" ==> Get(m.value, k) == body.fields[k]
  {
    if WriteThrows(body) then None
    else Some(SetField(SetField(body, "modifiedAt", Num(now)), "createdAt", Num(now)))
  }

  /** `defineLocationLink()`: the full URL, a slash, and the created model's id. */
  function LocationOf(ctx: Context, created: Value): (l: string)
    ensures |l| > |FullUrl(ctx)| && l[..|FullUrl(ctx)|] == FullUrl(ctx) && l[|FullUrl(ctx)|] == '/'
    ensures l[|FullUrl(ctx)| + 1..] == ToJsString(Get(created, "id"))
  {
    FullUrl(ctx) + "/" + ToJsString(Get(created, "id"))
  }

  /**
   * What follows a successful save of `model` as `created`, after the steps
   * `trace`: `after(model)`, then the created model's primitive members become
   * properties, which throws a TypeError when the save resolved to null or
   * undefined; otherwise the hooks run (`theModel` is the concrete state's
   * `getTheModel()`), and a 201 carries the document and the created
   * resource's Location.
   */
  function Created(ctx: Context, model: Value, created: Value, theModel: Value, hooks: Hooks,
                   doc: Resource, reply: Reply, trace: seq<Step>): (r: Response)
    ensures ReadThrows(created) ==> r == Throw(TypeError, reply, doc, trace + [After(model), DefineProperties])
    ensures !ReadThrows(created) ==> r.outcome == Sent && r.reply.status == Some(201) && r.reply.body == SentDocument(r.doc)
    ensures !ReadThrows(created) ==> r.reply.headers == reply.headers["Location" := LocationOf(ctx, created)]
    ensures !ReadThrows(created) ==> r.doc.props == PrimitiveOverlay(Entries(created), doc.props)
    ensures !ReadThrows(created) ==> doc.links.Keys <= r.doc.links.Keys
    ensures !ReadThrows(created) ==>
              r.steps == trace + [After(model), DefineProperties, DefineLinks, DefineEmbedded, DefineLocationLink,
                                  SetStatus(201), DefineHttpResponse, Send]
  {
    if ReadThrows(created) then Throw(TypeError, reply, doc, trace + [After(model), DefineProperties])
    else
      var built := Decorate(ctx, theModel, doc.(props := PrimitiveOverlay(Entries(created), doc.props)), hooks);
      var withLocation := reply.(headers := reply.headers["Location" := LocationOf(ctx, created)]);
      Response(Sent, SendDocument(withLocation, 201, built), built,
               trace + [After(model), DefineProperties] + [DefineLinks] + [DefineEmbedded] + [DefineLocationLink]
                     + [SetStatus(201)] + [DefineHttpResponse] + [Send])
  }

  /**
   * The response of `build()` after the steps `trace`: a body that cannot
   * take the timestamps throws a TypeError before anything is saved;
   * otherwise `save` is the repository's answer for the model it is given,
   * the request body stamped with `now`. A failed save is a 500 leaving
   * document and reply alone, and nothing runs after it.
   */
  function PostResponse(ctx: Context, env: Env, save: Value -> Loaded<Value>, theModel: Value, hooks: Hooks,
                        doc: Resource, reply: Reply, trace: seq<Step>): (r: Response)
    ensures WriteThrows(ctx.request.body) ==> r == Throw(TypeError, reply, doc, trace + [Before, CreateModel])
    ensures !WriteThrows(ctx.request.body) ==>
              var m := StampedModel(ctx.request.body, env.now).value;
              && (save(m).LoadFailed? ==> r == Throw(InternalServerError, reply, doc, trace + [Before, CreateModel] + [Save(m)]))
              && (save(m).Loaded? ==>
                    r == Created(ctx, m, save(m).value, theModel, hooks, doc, reply, trace + [Before, CreateModel] + [Save(m)]))
  {
    match StampedModel(ctx.request.body, env.now)
    case None => Throw(TypeError, reply, doc, trace + [Before, CreateModel])
    case Some(m) =>
      match save(m)
      case LoadFailed => Throw(InternalServerError, reply, doc, trace + [Before, CreateModel] + [Save(m)])
      case Loaded(created) => Created(ctx, m, created, theModel, hooks, doc, reply, trace + [Before, CreateModel] + [Save(m)])
  }

  /**
   * A body that takes the timestamps is saved after `before()` and
   * `createModel()`, and `after` runs next and sees that same model; a failed
   * save ends the pipeline, and a body that does not take them is never saved.
   */
  lemma SaveBeforeAfter(ctx: Context, env: Env, save: Value -> Loaded<Value>, theModel: Value, hooks: Hooks,
                        doc: Resource, reply: Reply)
    ensures var r := PostResponse(ctx, env, save, theModel, hooks, doc, reply, []);
            WriteThrows(ctx.request.body) ==> r.outcome == Thrown(TypeError) && r.steps == [Before, CreateModel]
    ensures var r := PostResponse(ctx, env, save, theModel, hooks, doc, reply, []);
            !WriteThrows(ctx.request.body) ==>
              var m := StampedModel(ctx.request.body, env.now).value;
              && |r.steps| >= 3 && r.steps[..3] == [Before, CreateModel, Save(m)]
              && (r.outcome == Thrown(InternalServerError) ==> |r.steps| == 3)
              && (r.outcome != Thrown(InternalServerError) ==> r.steps[3] == After(m))
  {
    if !WriteThrows(ctx.request.body) {
      var m := StampedModel(ctx.request.body, env.now).value;
      var head := [Before, CreateModel, Save(m)];
      assert [] + [Before, CreateModel] + [Save(m)] == head;
      if save(m).Loaded? {
        var r := PostResponse(ctx, env, save, theModel, hooks, doc, reply, []);
        if ReadThrows(save(m).value) {
          assert r.steps == head + [After(m), DefineProperties];
        } else {
          var tail := [After(m), DefineProperties, DefineLinks, DefineEmbedded, DefineLocationLink,
                       SetStatus(201), DefineHttpResponse, Send];
          assert r.steps == head + tail;
        }
      }
    }
  }

  /** The repository is handed the request body with both timestamps set to the same instant. */
  lemma SavedModelIsStamped(body: Value, now: int)
    requires body.Obj?
    ensures StampedModel(body, now).Some?
    ensures Get(StampedModel(body, now).value, "createdAt") == Get(StampedModel(body, now).value, "modifiedAt") == Num(now)
  {
  }

  /** A body that is not an object or array is never saved: the pipeline throws a TypeError right after `createModel()`. */
  lemma PrimitiveBodyNeverSaved(ctx: Context, env: Env, save: Value -> Loaded<Value>, theModel: Value, hooks: Hooks,
                                doc: Resource, reply: Reply)
    requires ctx.request.body.Null? || ctx.request.body.Undef? || ctx.request.body.Str?
             || ctx.request.body.Num? || ctx.request.body.Bool?
    ensures var r := PostResponse(ctx, env, save, theModel, hooks, doc, reply, []);
            r.outcome == Thrown(TypeError) && r.reply == reply && r.doc == doc
            && forall i :: 0 <= i < |r.steps| ==> !r.steps[i].Save?
  {
  }

  /** `AbstractPostState` on top of its `AbstractState`. */
  class AbstractPostState {
    const state: AbstractState
    var model: Value
    var createdModel: Value

    constructor(ctx: Context)
      ensures fresh(state) && state.ctx == ctx
      ensures state.resourceObject == InitialDocument(ctx) && state.reply == InitialReply && state.trace == []
    {
      state := new AbstractState(ctx);
      model := Undef;
      createdModel := Undef;
    }

    /** `defineProperties()`: the created model's primitive members become properties of the document. */
    method DefineProperties()
      modifies state
      ensures state.resourceObject == old(state.resourceObject).(props := PrimitiveOverlay(Entries(createdModel), old(state.resourceObject.props)))
      ensures state.reply == old(state.reply) && state.trace == old(state.trace)
    {
      var props := CopyPrimitiveProperties(createdModel, state.resourceObject.props);
      state.resourceObject := state.resourceObject.(props := props);
    }

    /** `defineLocationLink()`: the Location header names the created resource. */
    method DefineLocationLink()
      modifies state
      ensures state.reply == old(state.reply).(headers := old(state.reply.headers)["Location" := LocationOf(state.ctx, createdModel)])
      ensures state.resourceObject == old(state.resourceObject) && state.trace == old(state.trace)
    {
      state.ReplyHeader("Location", FullUrl(state.ctx) + "/" + ToJsString(Get(createdModel, "id")));
    }

    /** `build()` from `after()` on, once the created model is known. */
    method Respond(theModel: Value, hooks: Hooks) returns (o: Outcome)
      modifies state
      ensures var r := Created(state.ctx, model, createdModel, theModel, hooks,
                               old(state.resourceObject), old(state.reply), old(state.trace));
              o == r.outcome && state.reply == r.reply && state.resourceObject == r.doc && state.trace == r.steps
    {
      state.trace := state.trace + [After(model), Step.DefineProperties];
      if ReadThrows(createdModel) {
        return Thrown(TypeError);
      }
      DefineProperties();
      state.DefineLinksAndEmbedded(theModel, hooks);
      state.trace := state.trace + [Step.DefineLocationLink];
      DefineLocationLink();
      state.ReplyStatus(201);
      state.trace := state.trace + [DefineHttpResponse];
      state.ReplySend();
      return Sent;
    }

    /** `build()`. */
    method Build(env: Env, save: Value -> Loaded<Value>, theModel: Value, hooks: Hooks) returns (o: Outcome)
      modifies this, state
      ensures var r := PostResponse(state.ctx, env, save, theModel, hooks,
                                    old(state.resourceObject), old(state.reply), old(state.trace));
              o == r.outcome && state.reply == r.reply && state.resourceObject == r.doc && state.trace == r.steps
    {
      state.trace := state.trace + [Before, CreateModel];
      model := state.ctx.request.body;
      if WriteThrows(model) {
        return Thrown(TypeError);
      }
      var now := env.now;
      model := SetField(model, "modifiedAt", Num(now));
      model := SetField(model, "createdAt", Num(now));
      state.trace := state.trace + [Save(model)];
      var saved := save(model);
      if saved.LoadFailed? {
        return Thrown(InternalServerError);
      }
      createdModel := saved.value;
      o := Respond(theModel, hooks);
    }
  }
}
