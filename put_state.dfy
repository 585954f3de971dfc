/**
 * `AbstractPutState` and `AbstractConditionalPutState`: store the request body
 * as the new version of a model, stamped with the current time; the
 * conditional variant first requires the client to name the current version.
 */
module PutStates {
  import opened Wrappers
  import opened JsValues
  import opened Url
  import opened HalFormat
  import opened Preconditions
  import opened States

  /**
   * `createModel()` with `modifiedAt` set to `now`, or None when writing it
   * throws a TypeError (a body that is null, undefined or a primitive).
   */
  function UpdatedModel(body: Value, now: int): (m: Option<Value>)
    ensures m.None? <==> WriteThrows(body)
    ensures body.Obj? ==> m.Some? && m.value.Obj? && Get(m.value, "modifiedAt") == Num(now)
    ensures body.Obj? ==> forall k :: k in body.fields && k != "modifiedAt" ==> Get(m.value, k) == body.fields[k]
  {
    if WriteThrows(body) then None else Some(SetField(body, "modifiedAt", Num(now)))
  }

  /**
   * The part both PUT states share, from `createModel()` on and after the
   * steps `trace`: a body that cannot take the timestamp throws a TypeError
   * before the repository is called; otherwise `update` is whether the
   * repository accepted the model it is given, the request body stamped with
   * `now`. A refused update is a 500 and nothing runs after it; otherwise the
   * pipeline ends as every write does.
   */
  function Updated(ctx: Context, env: Env, update: Value -> bool, theModel: Value, hooks: Hooks,
                   doc: Resource, reply: Reply, trace: seq<Step>): (r: Response)
    ensures WriteThrows(ctx.request.body) ==> r == Throw(TypeError, reply, doc, trace + [CreateModel])
    ensures !WriteThrows(ctx.request.body) ==>
              var m := UpdatedModel(ctx.request.body, env.now).value;
              && (!update(m) ==> r == Throw(InternalServerError, reply, doc, trace + [CreateModel, Update(m)]))
              && (update(m) ==> r == Finished(ctx, m, theModel, hooks, doc, reply, trace + [CreateModel, Update(m)]))
    ensures |r.steps| > |trace| && r.steps[..|trace|] == trace && r.steps[|trace|] == CreateModel
  {
    match UpdatedModel(ctx.request.body, env.now)
    case None => Throw(TypeError, reply, doc, trace + [CreateModel])
    case Some(m) =>
      if !update(m) then Throw(InternalServerError, reply, doc, trace + [CreateModel, Update(m)])
      else Finished(ctx, m, theModel, hooks, doc, reply, trace + [CreateModel, Update(m)])
  }

  /** The response of `AbstractPutState.build()` after the steps `trace`: `before()`, then the update. */
  function PutResponse(ctx: Context, env: Env, update: Value -> bool, theModel: Value, hooks: Hooks,
                       doc: Resource, reply: Reply, trace: seq<Step>): (r: Response)
    ensures r == Updated(ctx, env, update, theModel, hooks, doc, reply, trace + [Before])
    ensures r.outcome == Sent <==>
              UpdatedModel(ctx.request.body, env.now).Some? && update(UpdatedModel(ctx.request.body, env.now).value)
  {
    Updated(ctx, env, update, theModel, hooks, doc, reply, trace + [Before])
  }

  /** A PUT whose body cannot take the timestamp never reaches the repository: a TypeError follows `createModel()`. */
  lemma UnstampableBodyNeverUpdated(ctx: Context, env: Env, update: Value -> bool, theModel: Value, hooks: Hooks,
                                    doc: Resource, reply: Reply)
    requires ctx.request.body.Null? || ctx.request.body.Undef? || ctx.request.body.Str?
             || ctx.request.body.Num? || ctx.request.body.Bool?
    ensures var r := PutResponse(ctx, env, update, theModel, hooks, doc, reply, []);
            r.outcome == Thrown(TypeError) && r.reply == reply && r.doc == doc && r.steps == [Before, CreateModel]
  {
  }

  /**
   * The response of `AbstractConditionalPutState.build()` for the current model
   * `loaded`, after the steps `trace`: a failed load is a 500, a falsy current
   * model a 404, and once `beforeUpdate(current)` has run, a request whose
   * preconditions (If-Match / If-Unmodified-Since against the current model's
   * tag and date) do not hold is a 412; otherwise the update goes on as in a
   * plain PUT.
   */
  function ConditionalPutResponse(ctx: Context, env: Env, loaded: Loaded<Value>, update: Value -> bool,
                                  theModel: Value, hooks: Hooks, doc: Resource, reply: Reply,
                                  trace: seq<Step>): (r: Response)
    ensures loaded.LoadFailed? ==> r == Throw(InternalServerError, reply, doc, trace + [Before, Load])
    ensures loaded.Loaded? && !Truthy(loaded.value) ==> r == Throw(NotFound, reply, doc, trace + [Before, Load])
    ensures loaded.Loaded? && Truthy(loaded.value) ==>
              var current := loaded.value;
              var checked := trace + [Before, Load] + [BeforeUpdate(current), CheckPreconditions];
              if EvaluatePreconditions(ctx.request, ModifiedAt(current), env.etagOf(current), env.parseDate)
              then r == Updated(ctx, env, update, theModel, hooks, doc, reply, checked)
              else r == Throw(PreconditionFailed, reply, doc, checked)
  {
    match loaded
    case LoadFailed => Throw(InternalServerError, reply, doc, trace + [Before, Load])
    case Loaded(current) =>
      if !Truthy(current) then Throw(NotFound, reply, doc, trace + [Before, Load])
      else
        var checked := trace + [Before, Load] + [BeforeUpdate(current), CheckPreconditions];
        if !EvaluatePreconditions(ctx.request, ModifiedAt(current), env.etagOf(current), env.parseDate) then
          Throw(PreconditionFailed, reply, doc, checked)
        else Updated(ctx, env, update, theModel, hooks, doc, reply, checked)
  }

  /** Whether the repository was asked to write a model. */
  predicate Writes(steps: seq<Step>) {
    exists i :: 0 <= i < |steps| && (steps[i].Update? || steps[i] == CreateModel)
  }

  /** A conditional PUT refused with 412 or 404 never creates or updates a model. */
  lemma RefusedPutNeverWrites(ctx: Context, env: Env, loaded: Loaded<Value>, update: Value -> bool,
                              theModel: Value, hooks: Hooks, doc: Resource, reply: Reply)
    ensures var r := ConditionalPutResponse(ctx, env, loaded, update, theModel, hooks, doc, reply, []);
            r.outcome == Thrown(PreconditionFailed) || r.outcome == Thrown(NotFound) ==> !Writes(r.steps)
  {
    var r := ConditionalPutResponse(ctx, env, loaded, update, theModel, hooks, doc, reply, []);
    assert [] + [Before, Load] == [Before, Load];
    if loaded.Loaded? && Truthy(loaded.value) {
      var c := loaded.value;
      var checked := [Before, Load] + [BeforeUpdate(c), CheckPreconditions];
      if EvaluatePreconditions(ctx.request, ModifiedAt(c), env.etagOf(c), env.parseDate) {
        assert r == Updated(ctx, env, update, theModel, hooks, doc, reply, checked);
        assert r.outcome != Thrown(PreconditionFailed) && r.outcome != Thrown(NotFound);
      } else {
        assert r.steps == checked;
      }
    }
  }

  /**
   * Once the current model is loaded, `beforeUpdate` sees it before the
   * preconditions are checked, and the model is created only after that check.
   */
  lemma BeforeUpdateThenCheck(ctx: Context, env: Env, current: Value, update: Value -> bool,
                              theModel: Value, hooks: Hooks, doc: Resource, reply: Reply)
    requires Truthy(current)
    ensures var r := ConditionalPutResponse(ctx, env, Loaded(current), update, theModel, hooks, doc, reply, []);
            && |r.steps| >= 4 && r.steps[..4] == [Before, Load, BeforeUpdate(current), CheckPreconditions]
  {
    var checked := [Before, Load, BeforeUpdate(current), CheckPreconditions];
    assert [] + [Before, Load] + [BeforeUpdate(current), CheckPreconditions] == checked;
    assert checked[..4] == checked;
  }

  /**
   * After the precondition check, a conditional PUT either stops (412) or
   * creates the model as its very next step.
   */
  lemma CheckThenCreate(ctx: Context, env: Env, current: Value, update: Value -> bool,
                        theModel: Value, hooks: Hooks, doc: Resource, reply: Reply)
    requires Truthy(current)
    ensures var r := ConditionalPutResponse(ctx, env, Loaded(current), update, theModel, hooks, doc, reply, []);
            && (r.outcome == Thrown(PreconditionFailed) ==> |r.steps| == 4)
            && (r.outcome != Thrown(PreconditionFailed) ==> |r.steps| > 4 && r.steps[4] == CreateModel)
  {
    assert |[] + [Before, Load] + [BeforeUpdate(current), CheckPreconditions]| == 4;
  }

  /**
   * A conditional PUT without If-Match or If-Unmodified-Since never updates:
   * it ends in 412 (or earlier in 404 or 500).
   */
  lemma ConditionalPutNeedsValidator(ctx: Context, env: Env, loaded: Loaded<Value>, update: Value -> bool,
                                     theModel: Value, hooks: Hooks, doc: Resource, reply: Reply)
    requires ctx.request.httpMethod == "PUT"
    requires !Present(Header(ctx.request, "if-match")) && !Present(Header(ctx.request, "if-unmodified-since"))
    ensures var r := ConditionalPutResponse(ctx, env, loaded, update, theModel, hooks, doc, reply, []);
            r.outcome.Thrown? && !Writes(r.steps)
  {
    if loaded.Loaded? && Truthy(loaded.value) {
      UnconditionalWriteNotSatisfied(ctx.request, ModifiedAt(loaded.value), env.etagOf(loaded.value), env.parseDate);
    }
    RefusedPutNeverWrites(ctx, env, loaded, update, theModel, hooks, doc, reply);
  }

  /** A conditional PUT naming the current entity tag in If-Match goes on to the update. */
  lemma MatchingTagProceeds(ctx: Context, env: Env, current: Value, update: Value -> bool,
                            theModel: Value, hooks: Hooks, doc: Resource, reply: Reply)
    requires ctx.request.httpMethod == "PUT" && Truthy(current)
    requires Header(ctx.request, "if-match") == Some(env.etagOf(current)) && env.etagOf(current) != ""
    ensures ConditionalPutResponse(ctx, env, Loaded(current), update, theModel, hooks, doc, reply, [])
         == Updated(ctx, env, update, theModel, hooks, doc, reply, [] + [Before, Load] + [BeforeUpdate(current), CheckPreconditions])
  {
  }

  /**
   * From `createModel()` to `send()`, shared by both PUT states: the body
   * stamped with `now` is handed to the repository, and on success the
   * document is built and sent. `model` is the stamped body, or the body
   * itself when stamping it threw.
   */
  method UpdateAndRespond(state: AbstractState, env: Env, update: Value -> bool, theModel: Value, hooks: Hooks)
    returns (o: Outcome, model: Value)
    modifies state
    ensures WriteThrows(state.ctx.request.body) ==> model == state.ctx.request.body
    ensures !WriteThrows(state.ctx.request.body) ==> Some(model) == UpdatedModel(state.ctx.request.body, env.now)
    ensures var r := Updated(state.ctx, env, update, theModel, hooks, old(state.resourceObject), old(state.reply), old(state.trace));
            o == r.outcome && state.reply == r.reply && state.resourceObject == r.doc && state.trace == r.steps
  {
    model := state.ctx.request.body;
    state.trace := state.trace + [CreateModel];
    if WriteThrows(model) {
      return Thrown(TypeError), model;
    }
    model := SetField(model, "modifiedAt", Num(env.now));
    state.trace := state.trace + [Update(model)];
    if !update(model) {
      return Thrown(InternalServerError), model;
    }
    state.Finish(model, theModel, hooks);
    return Sent, model;
  }

  /** `AbstractPutState` on top of its `AbstractState`. */
  class AbstractPutState {
    const state: AbstractState
    var model: Value

    constructor(ctx: Context)
      ensures fresh(state) && state.ctx == ctx
      ensures state.resourceObject == InitialDocument(ctx) && state.reply == InitialReply && state.trace == []
    {
      state := new AbstractState(ctx);
      model := Undef;
    }

    /** `build()`. */
    method Build(env: Env, update: Value -> bool, theModel: Value, hooks: Hooks) returns (o: Outcome)
      modifies this, state
      ensures var r := PutResponse(state.ctx, env, update, theModel, hooks, old(state.resourceObject), old(state.reply), old(state.trace));
              o == r.outcome && state.reply == r.reply && state.resourceObject == r.doc && state.trace == r.steps
    {
      state.trace := state.trace + [Before];
      o, model := UpdateAndRespond(state, env, update, theModel, hooks);
    }
  }

  /** `AbstractConditionalPutState` on top of its `AbstractState`. */
  class AbstractConditionalPutState {
    const state: AbstractState
    var currentModelInDatabase: Value
    var model: Value

    constructor(ctx: Context)
      ensures fresh(state) && state.ctx == ctx
      ensures state.resourceObject == InitialDocument(ctx) && state.reply == InitialReply && state.trace == []
    {
      state := new AbstractState(ctx);
      currentModelInDatabase := Undef;
      model := Undef;
    }

    /** `clientHasCurrentVersion()`: the preconditions against the stored model's tag and date. */
    method ClientHasCurrentVersion(env: Env) returns (current: bool)
      ensures current == EvaluatePreconditions(state.ctx.request, ModifiedAt(currentModelInDatabase),
                                               env.etagOf(currentModelInDatabase), env.parseDate)
    {
      var currentEtag := env.etagOf(currentModelInDatabase);
      var lastModifiedAt := ModifiedAt(currentModelInDatabase);
      current := EvaluatePreconditions(state.ctx.request, lastModifiedAt, currentEtag, env.parseDate);
    }

    /** `build()`. */
    method Build(env: Env, loaded: Loaded<Value>, update: Value -> bool, theModel: Value, hooks: Hooks)
      returns (o: Outcome)
      modifies this, state
      ensures var r := ConditionalPutResponse(state.ctx, env, loaded, update, theModel, hooks,
                                              old(state.resourceObject), old(state.reply), old(state.trace));
              o == r.outcome && state.reply == r.reply && state.resourceObject == r.doc && state.trace == r.steps
    {
      state.trace := state.trace + [Before, Load];
      if loaded.LoadFailed? {
        return Thrown(InternalServerError);
      }
      currentModelInDatabase := loaded.value;
      if !Truthy(currentModelInDatabase) {
        return Thrown(NotFound);
      }
      state.trace := state.trace + [BeforeUpdate(currentModelInDatabase), CheckPreconditions];
      var current := ClientHasCurrentVersion(env);
      if !current {
        return Thrown(PreconditionFailed);
      }
      o, model := UpdateAndRespond(state, env, update, theModel, hooks);
    }
  }
}
