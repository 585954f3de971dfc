/**
 * `AbstractDeleteState` and `AbstractConditionalDeleteState`: remove a model;
 * the conditional variant first requires the client to name the current
 * version.
 */
module DeleteStates {
  import opened Wrappers
  import opened JsValues
  import opened Url
  import opened HalFormat
  import opened Preconditions
  import opened States

  /**
   * From the repository call on, after the steps `trace`: `deleted` is whether
   * deleting `model` (`Undef` for the argument-less call of
   * `AbstractDeleteState`) succeeded. A failure is a 500 and nothing runs after
   * it; otherwise the pipeline ends as every write does, with `after(model)`
   * right after the call.
   */
  function Removed(ctx: Context, model: Value, deleted: bool, theModel: Value, hooks: Hooks,
                   doc: Resource, reply: Reply, trace: seq<Step>): (r: Response)
    ensures !deleted ==> r == Throw(InternalServerError, reply, doc, trace + [Delete(model)])
    ensures deleted ==> r == Finished(ctx, model, theModel, hooks, doc, reply, trace + [Delete(model)])
    ensures r.outcome == Sent <==> deleted
  {
    if !deleted then Throw(InternalServerError, reply, doc, trace + [Delete(model)])
    else Finished(ctx, model, theModel, hooks, doc, reply, trace + [Delete(model)])
  }

  /**
   * The response of `AbstractDeleteState.build()` after the steps `trace`:
   * `before()`, then the repository call, whose success is `deleted`.
   */
  function DeleteResponse(ctx: Context, deleted: bool, theModel: Value, hooks: Hooks,
                          doc: Resource, reply: Reply, trace: seq<Step>): (r: Response)
    ensures r == Removed(ctx, Undef, deleted, theModel, hooks, doc, reply, trace + [Before])
    ensures r.outcome == Sent <==> deleted
  {
    Removed(ctx, Undef, deleted, theModel, hooks, doc, reply, trace + [Before])
  }

  /**
   * The response of `AbstractConditionalDeleteState.build()` after the steps
   * `trace`: `remove` is whether the repository deleted the model it is given.
   * A failed load is a 500 and a falsy current model a 404; once
   * `beforeDelete(current)` has run, unmet preconditions are a 412; otherwise
   * the current model is handed to `remove`.
   */
  function ConditionalDeleteResponse(ctx: Context, env: Env, loaded: Loaded<Value>, remove: Value -> bool,
                                     theModel: Value, hooks: Hooks, doc: Resource, reply: Reply,
                                     trace: seq<Step>): (r: Response)
    ensures loaded.LoadFailed? ==> r == Throw(InternalServerError, reply, doc, trace + [Before, Load])
    ensures loaded.Loaded? && !Truthy(loaded.value) ==> r == Throw(NotFound, reply, doc, trace + [Before, Load])
    ensures loaded.Loaded? && Truthy(loaded.value) ==>
              var current := loaded.value;
              var checked := trace + [Before, Load] + [BeforeDelete(current), CheckPreconditions];
              if EvaluatePreconditions(ctx.request, ModifiedAt(current), env.etagOf(current), env.parseDate)
              then r == Removed(ctx, current, remove(current), theModel, hooks, doc, reply, checked)
              else r == Throw(PreconditionFailed, reply, doc, checked)
  {
    match loaded
    case LoadFailed => Throw(InternalServerError, reply, doc, trace + [Before, Load])
    case Loaded(current) =>
      if !Truthy(current) then Throw(NotFound, reply, doc, trace + [Before, Load])
      else
        var checked := trace + [Before, Load] + [BeforeDelete(current), CheckPreconditions];
        if !EvaluatePreconditions(ctx.request, ModifiedAt(current), env.etagOf(current), env.parseDate) then
          Throw(PreconditionFailed, reply, doc, checked)
        else Removed(ctx, current, remove(current), theModel, hooks, doc, reply, checked)
  }

  /** How many steps call the repository's delete. */
  function DeleteCalls(steps: seq<Step>): (n: nat)
    ensures n <= |steps|
  {
    if steps == [] then 0
    else DeleteCalls(steps[..|steps| - 1]) + (if steps[|steps| - 1].Delete? then 1 else 0)
  }

  lemma {:induction false} NoDeleteCalls(steps: seq<Step>)
    requires forall i :: 0 <= i < |steps| ==> !steps[i].Delete?
    ensures DeleteCalls(steps) == 0
    decreases |steps|
  {
    if steps != [] {
      NoDeleteCalls(steps[..|steps| - 1]);
    }
  }

  lemma {:induction false} DeleteCallsAppend(a: seq<Step>, b: seq<Step>)
    ensures DeleteCalls(a + b) == DeleteCalls(a) + DeleteCalls(b)
    decreases |b|
  {
    if b == [] {
      assert a + b == a;
    } else {
      var init := b[..|b| - 1];
      assert (a + b)[..|a + b| - 1] == a + init;
      DeleteCallsAppend(a, init);
    }
  }

  /** Steps with one delete call between two stretches free of them hold exactly one. */
  lemma {:induction false} OneDeleteCall(before: seq<Step>, model: Value, after: seq<Step>)
    requires forall i :: 0 <= i < |before| ==> !before[i].Delete?
    requires forall i :: 0 <= i < |after| ==> !after[i].Delete?
    ensures DeleteCalls(before + [Delete(model)] + after) == 1
  {
    NoDeleteCalls(before);
    NoDeleteCalls(after);
    assert DeleteCalls([Delete(model)]) == 1 by {
      assert [Delete(model)][..0] == [];
    }
    DeleteCallsAppend(before, [Delete(model)]);
    DeleteCallsAppend(before + [Delete(model)], after);
  }

  /**
   * A conditional DELETE that is answered runs exactly these steps: the current
   * model is handed to the repository's delete after `beforeDelete` and the
   * precondition check, and right before `after(current)`.
   */
  lemma DeleteBetweenCheckAndAfter(ctx: Context, env: Env, loaded: Loaded<Value>, remove: Value -> bool,
                                   theModel: Value, hooks: Hooks, doc: Resource, reply: Reply)
    ensures var r := ConditionalDeleteResponse(ctx, env, loaded, remove, theModel, hooks, doc, reply, []);
            r.outcome == Sent ==>
              loaded.Loaded? && r.steps == [Before, Load, BeforeDelete(loaded.value), CheckPreconditions,
                                            Delete(loaded.value), After(loaded.value), DefineProperties,
                                            DefineLinks, DefineEmbedded, SetStatus(200), DefineHttpResponse, Send]
  {
    if loaded.Loaded? && Truthy(loaded.value) {
      var c := loaded.value;
      assert [] + [Before, Load] + [BeforeDelete(c), CheckPreconditions] + [Delete(c)]
               + [After(c), DefineProperties, DefineLinks, DefineEmbedded, SetStatus(200), DefineHttpResponse, Send]
          == [Before, Load, BeforeDelete(c), CheckPreconditions, Delete(c), After(c), DefineProperties,
              DefineLinks, DefineEmbedded, SetStatus(200), DefineHttpResponse, Send];
    }
  }

  /** A conditional DELETE that is answered calls the repository's delete exactly once. */
  lemma DeleteOnce(ctx: Context, env: Env, loaded: Loaded<Value>, remove: Value -> bool,
                   theModel: Value, hooks: Hooks, doc: Resource, reply: Reply)
    ensures var r := ConditionalDeleteResponse(ctx, env, loaded, remove, theModel, hooks, doc, reply, []);
            r.outcome == Sent ==> DeleteCalls(r.steps) == 1
  {
    DeleteBetweenCheckAndAfter(ctx, env, loaded, remove, theModel, hooks, doc, reply);
    if loaded.Loaded? {
      SuccessfulDeleteStepsDeleteOnce(loaded.value);
    }
  }

  /** The steps of an answered conditional DELETE hold one delete call. */
  lemma SuccessfulDeleteStepsDeleteOnce(c: Value)
    ensures DeleteCalls([Before, Load, BeforeDelete(c), CheckPreconditions, Delete(c), After(c), DefineProperties,
                         DefineLinks, DefineEmbedded, SetStatus(200), DefineHttpResponse, Send]) == 1
  {
    var before := [Before, Load, BeforeDelete(c), CheckPreconditions];
    var after := [After(c), DefineProperties, DefineLinks, DefineEmbedded, SetStatus(200), DefineHttpResponse, Send];
    OneDeleteCall(before, c, after);
    assert before + [Delete(c)] + after
        == [Before, Load, BeforeDelete(c), CheckPreconditions, Delete(c), After(c), DefineProperties,
            DefineLinks, DefineEmbedded, SetStatus(200), DefineHttpResponse, Send];
  }

  /** A conditional DELETE refused with 404 or 412 never calls the repository's delete. */
  lemma RefusedDeleteNeverDeletes(ctx: Context, env: Env, loaded: Loaded<Value>, remove: Value -> bool,
                                  theModel: Value, hooks: Hooks, doc: Resource, reply: Reply)
    ensures var r := ConditionalDeleteResponse(ctx, env, loaded, remove, theModel, hooks, doc, reply, []);
            r.outcome == Thrown(NotFound) || r.outcome == Thrown(PreconditionFailed) ==> DeleteCalls(r.steps) == 0
  {
    assert [] + [Before, Load] == [Before, Load];
    if loaded.Loaded? && Truthy(loaded.value) {
      var c := loaded.value;
      NoDeleteCalls([] + [Before, Load] + [BeforeDelete(c), CheckPreconditions]);
    } else if loaded.Loaded? {
      NoDeleteCalls([Before, Load]);
    }
  }

  /** A conditional DELETE without If-Match or If-Unmodified-Since never deletes. */
  lemma ConditionalDeleteNeedsValidator(ctx: Context, env: Env, loaded: Loaded<Value>, remove: Value -> bool,
                                        theModel: Value, hooks: Hooks, doc: Resource, reply: Reply)
    requires ctx.request.httpMethod == "DELETE"
    requires !Present(Header(ctx.request, "if-match")) && !Present(Header(ctx.request, "if-unmodified-since"))
    ensures var r := ConditionalDeleteResponse(ctx, env, loaded, remove, theModel, hooks, doc, reply, []);
            r.outcome.Thrown? && DeleteCalls(r.steps) == 0
  {
    if loaded.Loaded? && Truthy(loaded.value) {
      UnconditionalWriteNotSatisfied(ctx.request, ModifiedAt(loaded.value), env.etagOf(loaded.value), env.parseDate);
    }
    RefusedDeleteNeverDeletes(ctx, env, loaded, remove, theModel, hooks, doc, reply);
  }

  /**
   * The repository call of both DELETE states on `state`, then, when it
   * succeeded, the rest of the pipeline.
   */
  method RemoveAndRespond(state: AbstractState, model: Value, deleted: bool, theModel: Value, hooks: Hooks)
    returns (o: Outcome)
    modifies state
    ensures var r := Removed(state.ctx, model, deleted, theModel, hooks, old(state.resourceObject), old(state.reply), old(state.trace));
            o == r.outcome && state.reply == r.reply && state.resourceObject == r.doc && state.trace == r.steps
  {
    state.trace := state.trace + [Delete(model)];
    if !deleted {
      return Thrown(InternalServerError);
    }
    state.Finish(model, theModel, hooks);
    return Sent;
  }

  /** `AbstractDeleteState` on top of its `AbstractState`. */
  class AbstractDeleteState {
    const state: AbstractState

    constructor(ctx: Context)
      ensures fresh(state) && state.ctx == ctx
      ensures state.resourceObject == InitialDocument(ctx) && state.reply == InitialReply && state.trace == []
    {
      state := new AbstractState(ctx);
    }

    /** `build()`. */
    method Build(deleted: bool, theModel: Value, hooks: Hooks) returns (o: Outcome)
      modifies state
      ensures var r := DeleteResponse(state.ctx, deleted, theModel, hooks, old(state.resourceObject), old(state.reply), old(state.trace));
              o == r.outcome && state.reply == r.reply && state.resourceObject == r.doc && state.trace == r.steps
    {
      state.trace := state.trace + [Before];
      o := RemoveAndRespond(state, Undef, deleted, theModel, hooks);
    }
  }

  /** `AbstractConditionalDeleteState` on top of its `AbstractState`. */
  class AbstractConditionalDeleteState {
    const state: AbstractState
    var currentModelInDatabase: Value

    constructor(ctx: Context)
      ensures fresh(state) && state.ctx == ctx
      ensures state.resourceObject == InitialDocument(ctx) && state.reply == InitialReply && state.trace == []
    {
      state := new AbstractState(ctx);
      currentModelInDatabase := Undef;
    }

    /** `clientHasCurrentVersion()`: the preconditions against the stored model's tag and date. */
    method ClientHasCurrentVersion(env: Env) returns (current: bool)
      ensures current == EvaluatePreconditions(state.ctx.request, ModifiedAt(currentModelInDatabase),
                                               env.etagOf(currentModelInDatabase), env.parseDate)
    {
      var currentEtag := env.etagOf(currentModelInDatabase);
      var lastModifiedAt := ModifiedAt(currentModelInDatabase);
      current := EvaluatePreconditions(state.ctx.request, lastModifiedAt, currentEtag, env.parseDate);
    }

    /** `build()`. */
    method Build(env: Env, loaded: Loaded<Value>, remove: Value -> bool, theModel: Value, hooks: Hooks)
      returns (o: Outcome)
      modifies this, state
      ensures var r := ConditionalDeleteResponse(state.ctx, env, loaded, remove, theModel, hooks,
                                                 old(state.resourceObject), old(state.reply), old(state.trace));
              o == r.outcome && state.reply == r.reply && state.resourceObject == r.doc && state.trace == r.steps
    {
      state.trace := state.trace + [Before, Load];
      if loaded.LoadFailed? {
        return Thrown(InternalServerError);
      }
      currentModelInDatabase := loaded.value;
      if !Truthy(currentModelInDatabase) {
        return Thrown(NotFound);
      }
      state.trace := state.trace + [BeforeDelete(currentModelInDatabase), CheckPreconditions];
      var current := ClientHasCurrentVersion(env);
      if !current {
        return Thrown(PreconditionFailed);
      }
      o := RemoveAndRespond(state, currentModelInDatabase, remove(currentModelInDatabase), theModel, hooks);
    }
  }
}
