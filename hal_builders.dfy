/**
 * The builders handed to the `build` callbacks, and the two functions that run
 * them: `buildEmbeddedObject` and `buildEmbeddedArray`. Each builder method
 * updates the builder's resource object(s) in place and is proved to do what
 * the matching call of the scripts in `HalSpec` does.
 */
module HalBuilders {
  import opened Wrappers
  import opened JsValues
  import opened CopyProperties
  import opened Url
  import opened HalFormat
  import opened HalSpec

  /** `EmbeddedObjectBuilder`: builds one embedded resource object for `model`. */
  class EmbeddedObjectBuilder {
    const model: Value
    const ctx: Context
    var resourceObject: Resource

    constructor(model: Value, resourceObject: Resource, ctx: Context)
      ensures this.model == model && this.resourceObject == resourceObject && this.ctx == ctx
    {
      this.model := model;
      this.resourceObject := resourceObject;
      this.ctx := ctx;
    }

    /** `withProperties(arg)`: copies the primitive members of the model, of `f(model)` or of an object. */
    method WithProperties(arg: PropsArg)
      modifies this
      ensures resourceObject == ApplyObjectStep(ctx, model, old(resourceObject), ObjectStep.WithProperties(arg))
    {
      var source: Value;
      match arg {
        case ModelProps => source := model;
        case MappedProps(f) => source := f(model);
        case GivenProps(obj) => source := obj;
      }
      var props := CopyPrimitiveProperties(source, resourceObject.props);
      resourceObject := resourceObject.(props := props);
    }

    /** `withProperty(key, value)`. */
    method WithProperty(key: string, value: Value)
      modifies this
      ensures resourceObject == ApplyObjectStep(ctx, model, old(resourceObject), ObjectStep.WithProperty(key, value))
    {
      resourceObject := resourceObject.(props := resourceObject.props[key := value]);
    }

    /** `withLink(rel, href, opts)`, storing `href` as given (see `HalSpec.WithLinkAsWritten`). */
    method WithLink(rel: string, href: string, opts: LinkOpts)
      modifies this
      ensures resourceObject == ApplyObjectStep(ctx, model, old(resourceObject), ObjectStep.WithLink(rel, href, opts))
      ensures resourceObject.links[rel] == Link(href, opts)
    {
      resourceObject := resourceObject.(links := resourceObject.links[rel := Link(href, opts)]);
    }

    /** `withAbsoluteLink(rel, href, opts)`: `withLink` with `href` resolved against the base URL. */
    method WithAbsoluteLink(rel: string, href: string, opts: LinkOpts)
      modifies this
      ensures resourceObject == ApplyObjectStep(ctx, model, old(resourceObject), ObjectStep.WithAbsoluteLink(rel, href, opts))
      ensures resourceObject.links[rel] == Link(AbsoluteUrl(ctx, href), opts)
    {
      WithLink(rel, AbsoluteUrl(ctx, href), opts);
    }

    /**
     * `withEmbeddedObject(rel, href, ...)`: embeds `model[rel]` with the given
     * script, or the given object with its script (see `HalSpec.EmbedTargetAsWritten`).
     */
    method WithEmbeddedObject(rel: string, href: string, args: EmbedArgs)
      modifies this
      ensures resourceObject == ApplyObjectStep(ctx, model, old(resourceObject), ObjectStep.WithEmbeddedObject(rel, href, args))
      decreases args, 0
    {
      var r: Resource;
      match args {
        case FromModel(build) =>
          r := BuildEmbeddedObject(ctx, Get(model, rel), resourceObject, rel, href, build);
        case WithObject(obj, build) =>
          r := BuildEmbeddedObject(ctx, obj, resourceObject, rel, href, build);
      }
      resourceObject := r;
    }

    /** `withAbsoluteEmbeddedObject(rel, href, ...)`: `withEmbeddedObject` with `href` resolved. */
    method WithAbsoluteEmbeddedObject(rel: string, href: string, args: EmbedArgs)
      modifies this
      ensures resourceObject == ApplyObjectStep(ctx, model, old(resourceObject), ObjectStep.WithAbsoluteEmbeddedObject(rel, href, args))
      decreases args, 1
    {
      WithEmbeddedObject(rel, AbsoluteUrl(ctx, href), args);
    }

    /** Runs a `build` callback: its calls on this builder, in order. */
    method Run(steps: seq<ObjectStep>)
      modifies this
      ensures resourceObject == ApplyObjectSteps(ctx, model, old(resourceObject), steps)
      decreases steps, 0
    {
      var i := 0;
      while i < |steps|
        invariant 0 <= i <= |steps|
        invariant resourceObject == ApplyObjectSteps(ctx, model, old(resourceObject), steps[..i])
      {
        match steps[i] {
          case WithProperties(arg) => WithProperties(arg);
          case WithProperty(key, value) => WithProperty(key, value);
          case WithLink(rel, href, opts) => WithLink(rel, href, opts);
          case WithAbsoluteLink(rel, href, opts) => WithAbsoluteLink(rel, href, opts);
          case WithEmbeddedObject(rel, href, args) => WithEmbeddedObject(rel, href, args);
          case WithAbsoluteEmbeddedObject(rel, href, args) => WithAbsoluteEmbeddedObject(rel, href, args);
        }
        assert steps[..i + 1][..i] == steps[..i];
        i := i + 1;
      }
      assert steps[..|steps|] == steps;
    }
  }

  /**
   * `buildEmbeddedObject(model, state, resourceObject, rel, href, build)`: a fresh
   * builder on the skeleton `{ _links: { self: { href } }, _embedded: {} }` runs
   * `build`; its object goes under `_embedded[rel]`, and with the hypertext cache
   * pattern on its `self` link also under `_links[rel]`.
   */
  method BuildEmbeddedObject(ctx: Context, model: Value, resourceObject: Resource, rel: string, href: string,
                             build: seq<ObjectStep>) returns (r: Resource)
    ensures r == EmbedObject(ctx, model, resourceObject, rel, href, build)
    decreases build, 1
  {
    var builder := new EmbeddedObjectBuilder(model, Skeleton(href), ctx);
    builder.Run(build);
    var built := builder.resourceObject;
    r := resourceObject.(embedded := resourceObject.embedded[rel := One(built)]);
    if ctx.server.activateHypertextCachePattern && "self" in built.links {
      r := r.(links := r.links[rel := built.links["self"]]);
    }
  }

  /** `EmbeddedArrayBuilder`: builds one embedded resource object per model, element `i` for `models[i]`. */
  class EmbeddedArrayBuilder {
    const models: seq<Value>
    const ctx: Context
    const resourceObjects: array<Resource>

    predicate Valid()
      reads this
    {
      resourceObjects.Length == |models|
    }

    constructor(models: seq<Value>, resourceObjects: array<Resource>, ctx: Context)
      requires resourceObjects.Length == |models|
      ensures Valid()
      ensures this.models == models && this.resourceObjects == resourceObjects && this.ctx == ctx
    {
      this.models := models;
      this.resourceObjects := resourceObjects;
      this.ctx := ctx;
    }

    /** `withSelfLinks(pattern, opts)`: `withAbsoluteLinks('self', pattern, opts)`. */
    method WithSelfLinks(pattern: string, opts: LinkOpts)
      requires Valid()
      modifies resourceObjects
      ensures resourceObjects[..] == ApplyArrayStep(ctx, models, old(resourceObjects[..]), ArrayStep.WithSelfLinks(pattern, opts))
    {
      WithAbsoluteLinks("self", pattern, opts);
    }

    /** `withAbsoluteLinks(rel, pattern, opts)`: `withLinks` with the pattern resolved against the base URL. */
    method WithAbsoluteLinks(rel: string, pattern: string, opts: LinkOpts)
      requires Valid()
      modifies resourceObjects
      ensures resourceObjects[..] == ApplyArrayStep(ctx, models, old(resourceObjects[..]), ArrayStep.WithAbsoluteLinks(rel, pattern, opts))
    {
      WithLinks(rel, AbsoluteUrl(ctx, pattern), opts);
    }

    /** `withLinks(rel, pattern, opts)`: element `i` links to the pattern filled from `models[i]`. */
    method WithLinks(rel: string, pattern: string, opts: LinkOpts)
      requires Valid()
      modifies resourceObjects
      ensures resourceObjects[..] == ApplyArrayStep(ctx, models, old(resourceObjects[..]), ArrayStep.WithLinks(rel, pattern, opts))
    {
      for i := 0 to |models|
        invariant forall j :: 0 <= j < i ==>
                    resourceObjects[j] == ApplyArrayStepAt(ctx, models[j], old(resourceObjects[j]), ArrayStep.WithLinks(rel, pattern, opts))
        invariant forall j :: i <= j < |models| ==> resourceObjects[j] == old(resourceObjects[j])
      {
        resourceObjects[i] := resourceObjects[i].(links := resourceObjects[i].links[rel := Link(FillInPlaceholder(pattern, models[i]), opts)]);
      }
    }

    /**
     * `withProperties(define)`: element `i` becomes `{ ...define(models[i]), ...element }`;
     * `define` defaults to copying the model's primitive members.
     */
    method WithProperties(define: Option<Value -> map<string, Value>>)
      requires Valid()
      modifies resourceObjects
      ensures resourceObjects[..] == ApplyArrayStep(ctx, models, old(resourceObjects[..]), WithArrayProperties(define))
    {
      for i := 0 to |models|
        invariant forall j :: 0 <= j < i ==>
                    resourceObjects[j] == ApplyArrayStepAt(ctx, models[j], old(resourceObjects[j]), WithArrayProperties(define))
        invariant forall j :: i <= j < |models| ==> resourceObjects[j] == old(resourceObjects[j])
      {
        var defined := DefinedProperties(define, models[i]);
        var spread := SpreadUnder(defined, resourceObjects[i]);
        assert spread == ApplyArrayStepAt(ctx, models[i], resourceObjects[i], WithArrayProperties(define));
        ghost var before := resourceObjects[..];
        resourceObjects[i] := spread;
        assert forall j :: 0 <= j < |models| && j != i ==> resourceObjects[j] == before[j];
      }
    }

    /** Runs a `build` callback: its calls on this builder, in order. */
    method Run(steps: seq<ArrayStep>)
      requires Valid()
      modifies resourceObjects
      ensures resourceObjects[..] == ApplyArraySteps(ctx, models, old(resourceObjects[..]), steps)
    {
      var i := 0;
      while i < |steps|
        invariant 0 <= i <= |steps|
        invariant resourceObjects[..] == ApplyArraySteps(ctx, models, old(resourceObjects[..]), steps[..i])
      {
        match steps[i] {
          case WithSelfLinks(pattern, opts) => WithSelfLinks(pattern, opts);
          case WithAbsoluteLinks(rel, pattern, opts) => WithAbsoluteLinks(rel, pattern, opts);
          case WithLinks(rel, pattern, opts) => WithLinks(rel, pattern, opts);
          case WithArrayProperties(define) => WithProperties(define);
        }
        assert steps[..i + 1][..i] == steps[..i];
        i := i + 1;
      }
      assert steps[..|steps|] == steps;
    }
  }

  /** The properties `withProperties(define)` spreads under the element built for `model`. */
  method DefinedProperties(define: Option<Value -> map<string, Value>>, model: Value) returns (defined: map<string, Value>)
    ensures defined == Defined(define, model)
  {
    match define {
      case None => defined := CopyPrimitiveProperties(model, map[]);
      case Some(f) => defined := f(model);
    }
  }

  /**
   * `buildEmbeddedArray(state, resourceObject, rel, models, build)`: one
   * `{ _links: {}, _embedded: {} }` pushed per model, a fresh builder runs
   * `build` over them, and the array goes under `_embedded[rel]`.
   */
  method BuildEmbeddedArray(ctx: Context, resourceObject: Resource, rel: string, models: seq<Value>,
                            build: seq<ArrayStep>) returns (r: Resource)
    ensures r == EmbedArray(ctx, resourceObject, rel, models, build)
  {
    var objs := new Resource[|models|];
    for i := 0 to |models|
      invariant forall j :: 0 <= j < i ==> objs[j] == Blank()
    {
      objs[i] := Blank();
    }
    assert objs[..] == Blanks(|models|);
    var builder := new EmbeddedArrayBuilder(models, objs, ctx);
    builder.Run(build);
    r := resourceObject.(embedded := resourceObject.embedded[rel := Many(builder.resourceObjects[..])]);
  }
}
