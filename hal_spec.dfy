/**
 * What the embedded-object and embedded-array builders compute, as functions
 * on HAL documents. A builder callback `(builder) => builder.withX(..).withY(..)`
 * is written as the script of calls it makes, `[WithX(..), WithY(..)]`; the
 * identity callback every `build` parameter defaults to is the empty script.
 */
module HalSpec {
  import opened Wrappers
  import opened JsValues
  import opened CopyProperties
  import opened Url
  import opened HalFormat

  /** The argument of `EmbeddedObjectBuilder.withProperties`. */
  datatype PropsArg =
    | ModelProps                   // no argument: the builder's model
    | MappedProps(f: Value -> Value) // a function of the model
    | GivenProps(obj: Value)       // an object

  /** The overloads of `withEmbeddedObject` and `addEmbeddedObject`. */
  datatype EmbedArgs =
    | FromModel(build: seq<ObjectStep>)             // (rel, href, build): embed `model[rel]`
    | WithObject(obj: Value, build: seq<ObjectStep>) // (rel, href, object, build)

  /** One call on an `EmbeddedObjectBuilder`. */
  datatype ObjectStep =
    | WithProperties(arg: PropsArg)
    | WithProperty(key: string, value: Value)
    | WithLink(rel: string, href: string, opts: LinkOpts)
    | WithAbsoluteLink(rel: string, href: string, opts: LinkOpts)
    | WithEmbeddedObject(rel: string, href: string, args: EmbedArgs)
    | WithAbsoluteEmbeddedObject(rel: string, href: string, args: EmbedArgs)

  /** One call on an `EmbeddedArrayBuilder`; `None` is `withProperties()` with its default. */
  datatype ArrayStep =
    | WithSelfLinks(pattern: string, opts: LinkOpts)
    | WithAbsoluteLinks(rel: string, pattern: string, opts: LinkOpts)
    | WithLinks(rel: string, pattern: string, opts: LinkOpts)
    | WithArrayProperties(define: Option<Value -> map<string, Value>>)

  /** The object whose entries `withProperties` copies. */
  function PropsSource(model: Value, arg: PropsArg): map<string, Value> {
    match arg
    case ModelProps => Entries(model)
    case MappedProps(f) => Entries(f(model))
    case GivenProps(obj) => Entries(obj)
  }

  /** `resourceObject._links[rel] = { href, ...opts }`. */
  function PutLink(r: Resource, rel: string, href: string, opts: LinkOpts): (r': Resource)
    ensures r'.links.Keys == r.links.Keys + {rel} && r'.links[rel] == Link(href, opts)
    ensures forall k :: k in r.links && k != rel ==> r'.links[k] == r.links[k]
    ensures r'.embedded == r.embedded && r'.props == r.props
  {
    r.(links := r.links[rel := Link(href, opts)])
  }

  /**
   * The model and the script `withEmbeddedObject` hands to `buildEmbeddedObject`:
   * the overload without an object embeds the builder model's `rel` member and
   * runs the given script on it.
   */
  function EmbedTarget(model: Value, rel: string, args: EmbedArgs): (t: (Value, seq<ObjectStep>))
    ensures args.FromModel? ==> t == (Get(model, rel), args.build)
    ensures args.WithObject? ==> t == (args.obj, args.build)
  {
    match args
    case FromModel(build) => (Get(model, rel), build)
    case WithObject(obj, build) => (obj, build)
  }

  /**
   * `buildEmbeddedObject(model, state, parent, rel, href, build)`: the embedded
   * object starts as a skeleton with `self` = `href`, the script runs on it, it
   * is stored under `_embedded[rel]`, and with the hypertext cache pattern
   * switched on its `self` link is also copied to the parent's `_links[rel]`.
   * Nothing else of the parent changes.
   */
  function EmbedObject(ctx: Context, model: Value, parent: Resource, rel: string, href: string,
                       build: seq<ObjectStep>): (r: Resource)
    ensures rel in r.embedded && r.embedded[rel] == One(ApplyObjectSteps(ctx, model, Skeleton(href), build))
    ensures forall k :: k in parent.embedded && k != rel ==> k in r.embedded && r.embedded[k] == parent.embedded[k]
    ensures r.embedded.Keys == parent.embedded.Keys + {rel}
    ensures ctx.server.activateHypertextCachePattern ==>
              r.links == parent.links[rel := r.embedded[rel].obj.links["self"]]
    ensures !ctx.server.activateHypertextCachePattern ==> r.links == parent.links
    ensures r.props == parent.props
    decreases build, 2
  {
    var built := ApplyObjectSteps(ctx, model, Skeleton(href), build);
    var withEmbedded := parent.(embedded := parent.embedded[rel := One(built)]);
    if ctx.server.activateHypertextCachePattern && "self" in built.links then
      withEmbedded.(links := withEmbedded.links[rel := built.links["self"]])
    else
      withEmbedded
  }

  /**
   * The effect of one builder call; links and embedded entries are only ever
   * added or replaced, never removed.
   */
  function ApplyObjectStep(ctx: Context, model: Value, r: Resource, step: ObjectStep): (r': Resource)
    ensures r.links.Keys <= r'.links.Keys && r.embedded.Keys <= r'.embedded.Keys
    decreases step, 0
  {
    match step
    case WithProperties(arg) =>
      r.(props := PrimitiveOverlay(PropsSource(model, arg), r.props))
    case WithProperty(key, value) =>
      r.(props := r.props[key := value])
    case WithLink(rel, href, opts) =>
      PutLink(r, rel, href, opts)
    case WithAbsoluteLink(rel, href, opts) =>
      PutLink(r, rel, AbsoluteUrl(ctx, href), opts)
    case WithEmbeddedObject(rel, href, args) =>
      var t := EmbedTarget(model, rel, args);
      EmbedObject(ctx, t.0, r, rel, href, t.1)
    case WithAbsoluteEmbeddedObject(rel, href, args) =>
      var t := EmbedTarget(model, rel, args);
      EmbedObject(ctx, t.0, r, rel, AbsoluteUrl(ctx, href), t.1)
  }

  /** The calls of a script, in order. */
  function ApplyObjectSteps(ctx: Context, model: Value, r: Resource, steps: seq<ObjectStep>): (r': Resource)
    ensures r.links.Keys <= r'.links.Keys && r.embedded.Keys <= r'.embedded.Keys
    decreases steps, 1
  {
    if steps == [] then r
    else ApplyObjectStep(ctx, model, ApplyObjectSteps(ctx, model, r, steps[..|steps| - 1]), steps[|steps| - 1])
  }

  /** Running `a` and then `b` is running the script `a + b`. */
  lemma {:induction false} ApplyObjectStepsAppend(ctx: Context, model: Value, r: Resource,
                                                  a: seq<ObjectStep>, b: seq<ObjectStep>)
    ensures ApplyObjectSteps(ctx, model, r, a + b) == ApplyObjectSteps(ctx, model, ApplyObjectSteps(ctx, model, r, a), b)
    decreases |b|
  {
    if b == [] {
      assert a + b == a;
    } else {
      var b' := b[..|b| - 1];
      assert (a + b)[..|a + b| - 1] == a + b';
      assert (a + b)[|a + b| - 1] == b[|b| - 1];
      ApplyObjectStepsAppend(ctx, model, r, a, b');
    }
  }

  /** Every embedded object keeps a `self` link, whatever its script does. */
  lemma EmbeddedObjectHasSelf(ctx: Context, model: Value, parent: Resource, rel: string, href: string,
                              build: seq<ObjectStep>)
    ensures HasSelf(EmbedObject(ctx, model, parent, rel, href, build).embedded[rel].obj)
  {
  }

  /**
   * With the hypertext cache pattern on, the parent links to the embedded
   * object by its `self` link; with an empty script that is `href` itself.
   */
  lemma CachePatternLinksSelf(ctx: Context, model: Value, parent: Resource, rel: string, href: string)
    requires ctx.server.activateHypertextCachePattern
    ensures EmbedObject(ctx, model, parent, rel, href, []).links[rel] == Link(href, NoOpts)
  {
  }

  /** The call sets no link, or sets one under a relation other than `self`. */
  predicate KeepsSelf(step: ObjectStep) {
    step.WithProperties? || step.WithProperty? || step.rel != "self"
  }

  /** One call that keeps `self` leaves the `self` link as it was. */
  lemma SelfKeptByStep(ctx: Context, model: Value, r: Resource, step: ObjectStep)
    requires HasSelf(r) && KeepsSelf(step)
    ensures ApplyObjectStep(ctx, model, r, step).links["self"] == r.links["self"]
  {
    match step
    case WithProperties(_) =>
    case WithProperty(_, _) =>
    case WithLink(_, _, _) =>
    case WithAbsoluteLink(_, _, _) =>
    case WithEmbeddedObject(rel, href, args) =>
      var t := EmbedTarget(model, rel, args);
      var e := EmbedObject(ctx, t.0, r, rel, href, t.1);
      assert e.links["self"] == r.links["self"];
    case WithAbsoluteEmbeddedObject(rel, href, args) =>
      var t := EmbedTarget(model, rel, args);
      var e := EmbedObject(ctx, t.0, r, rel, AbsoluteUrl(ctx, href), t.1);
      assert e.links["self"] == r.links["self"];
  }

  /** The skeleton's `self` link survives every script whose calls keep `self`. */
  lemma {:induction false} SelfKeptUnlessRelinked(ctx: Context, model: Value, r: Resource, steps: seq<ObjectStep>)
    requires HasSelf(r)
    requires forall i :: 0 <= i < |steps| ==> KeepsSelf(steps[i])
    ensures ApplyObjectSteps(ctx, model, r, steps).links["self"] == r.links["self"]
    decreases |steps|
  {
    if steps != [] {
      var init := steps[..|steps| - 1];
      SelfKeptUnlessRelinked(ctx, model, r, init);
      SelfKeptByStep(ctx, model, ApplyObjectSteps(ctx, model, r, init), steps[|steps| - 1]);
    }
  }

  // ---------------------------------------------------------------------
  // Embedded arrays

  /** `{ ...define(model), ...resourceObject }`: the object's own members win, `_links` and `_embedded` included. */
  function SpreadUnder(defined: map<string, Value>, r: Resource): (r': Resource)
    ensures r'.links == r.links && r'.embedded == r.embedded
  {
    r.(props := (defined - {"_links", "_embedded"}) + r.props)
  }

  /**
   * In the spread the element's own properties win; a defined property is added
   * only where the element has none, and never as `_links` or `_embedded`.
   */
  lemma SpreadKeepsOwnMembers(defined: map<string, Value>, r: Resource)
    ensures SpreadUnder(defined, r).props.Keys == (defined.Keys - {"_links", "_embedded"}) + r.props.Keys
    ensures forall k :: k in r.props ==> SpreadUnder(defined, r).props[k] == r.props[k]
    ensures forall k :: k in defined && k !in r.props && k != "_links" && k != "_embedded" ==>
              SpreadUnder(defined, r).props[k] == defined[k]
  {
  }

  /** The properties `withProperties(define)` puts under one element; by default its model's primitive members. */
  function Defined(define: Option<Value -> map<string, Value>>, model: Value): map<string, Value> {
    match define
    case None => PrimitiveOverlay(Entries(model), map[])
    case Some(f) => f(model)
  }

  /**
   * What one array-builder call does to the element built for `model`: the link
   * calls fill the pattern's placeholders from that model (after resolving the
   * pattern against the base URL for the absolute variants).
   */
  function ApplyArrayStepAt(ctx: Context, model: Value, r: Resource, step: ArrayStep): Resource {
    match step
    case WithSelfLinks(pattern, opts) => PutLink(r, "self", FillInPlaceholder(AbsoluteUrl(ctx, pattern), model), opts)
    case WithAbsoluteLinks(rel, pattern, opts) => PutLink(r, rel, FillInPlaceholder(AbsoluteUrl(ctx, pattern), model), opts)
    case WithLinks(rel, pattern, opts) => PutLink(r, rel, FillInPlaceholder(pattern, model), opts)
    case WithArrayProperties(define) => SpreadUnder(Defined(define, model), r)
  }

  /** The calls of a script on the element built for one model. */
  function ApplyArrayStepsAt(ctx: Context, model: Value, r: Resource, steps: seq<ArrayStep>): Resource
    decreases |steps|
  {
    if steps == [] then r
    else ApplyArrayStepAt(ctx, model, ApplyArrayStepsAt(ctx, model, r, steps[..|steps| - 1]), steps[|steps| - 1])
  }

  /** One array-builder call: its loop treats element `i` with `models[i]`. */
  function ApplyArrayStep(ctx: Context, models: seq<Value>, objs: seq<Resource>, step: ArrayStep): (r: seq<Resource>)
    requires |objs| == |models|
    ensures |r| == |objs|
  {
    seq(|objs|, i requires 0 <= i < |objs| => ApplyArrayStepAt(ctx, models[i], objs[i], step))
  }

  /** The calls of a script on the whole array. */
  function ApplyArraySteps(ctx: Context, models: seq<Value>, objs: seq<Resource>, steps: seq<ArrayStep>): (r: seq<Resource>)
    requires |objs| == |models|
    ensures |r| == |objs|
    decreases |steps|
  {
    if steps == [] then objs
    else ApplyArrayStep(ctx, models, ApplyArraySteps(ctx, models, objs, steps[..|steps| - 1]), steps[|steps| - 1])
  }

  /**
   * A script acts on each element independently: element `i` of the result
   * depends only on `models[i]` and the element it started from.
   */
  lemma {:induction false} ArrayStepsArePointwise(ctx: Context, models: seq<Value>, objs: seq<Resource>,
                                                  steps: seq<ArrayStep>, i: int)
    requires |objs| == |models| && 0 <= i < |objs|
    ensures ApplyArraySteps(ctx, models, objs, steps)[i] == ApplyArrayStepsAt(ctx, models[i], objs[i], steps)
    decreases |steps|
  {
    if steps != [] {
      ArrayStepsArePointwise(ctx, models, objs, steps[..|steps| - 1], i);
    }
  }

  /** `Array(n)` of `{ _links: {}, _embedded: {} }`. */
  function Blanks(n: nat): (r: seq<Resource>)
    ensures |r| == n && forall i :: 0 <= i < n ==> r[i] == Blank()
  {
    seq(n, _ => Blank())
  }

  /**
   * `buildEmbeddedArray(state, parent, rel, models, build)` (and
   * `addEmbeddedArray`): one blank element per model, the script run over them,
   * the array stored under `_embedded[rel]`. The parent's links and properties
   * are untouched: the cache pattern applies to single objects only.
   */
  function EmbedArray(ctx: Context, parent: Resource, rel: string, models: seq<Value>, build: seq<ArrayStep>): (r: Resource)
    ensures rel in r.embedded && r.embedded[rel].Many? && |r.embedded[rel].objs| == |models|
    ensures forall i :: 0 <= i < |models| ==>
              r.embedded[rel].objs[i] == ApplyArrayStepsAt(ctx, models[i], Blank(), build)
    ensures r.embedded == parent.embedded[rel := r.embedded[rel]]
    ensures r.links == parent.links && r.props == parent.props
  {
    var objs := ApplyArraySteps(ctx, models, Blanks(|models|), build);
    forall i | 0 <= i < |models|
      ensures objs[i] == ApplyArrayStepsAt(ctx, models[i], Blank(), build)
    {
      ArrayStepsArePointwise(ctx, models, Blanks(|models|), build, i);
    }
    parent.(embedded := parent.embedded[rel := Many(objs)])
  }

  /** `withSelfLinks(pattern)` gives element `i` the `self` link filled from `models[i]`. */
  lemma SelfLinksFilledPerModel(ctx: Context, parent: Resource, rel: string, models: seq<Value>,
                                pattern: string, i: int)
    requires 0 <= i < |models|
    ensures EmbedArray(ctx, parent, rel, models, [WithSelfLinks(pattern, NoOpts)]).embedded[rel].objs[i].links
         == map["self" := Link(FillInPlaceholder(AbsoluteUrl(ctx, pattern), models[i]), NoOpts)]
  {
    var steps := [WithSelfLinks(pattern, NoOpts)];
    assert steps[..0] == [];
    assert ApplyArrayStepsAt(ctx, models[i], Blank(), steps)
        == PutLink(Blank(), "self", FillInPlaceholder(AbsoluteUrl(ctx, pattern), models[i]), NoOpts);
  }

  /** Without `withProperties` no element gets any property, and without link calls none gets a link. */
  lemma {:induction false} ArrayElementsStartBlank(ctx: Context, model: Value, steps: seq<ArrayStep>)
    requires forall i :: 0 <= i < |steps| ==> !steps[i].WithArrayProperties?
    ensures ApplyArrayStepsAt(ctx, model, Blank(), steps).props == map[]
    decreases |steps|
  {
    if steps != [] {
      ArrayElementsStartBlank(ctx, model, steps[..|steps| - 1]);
    }
  }

  // ---------------------------------------------------------------------
  // The two builder methods as written

  /**
   * `EmbeddedObjectBuilder.withLink` as written: unlike `AbstractState.addLink`,
   * it resolves `href` against the base URL.
   */
  function WithLinkAsWritten(ctx: Context, r: Resource, rel: string, href: string, opts: LinkOpts): (r': Resource)
    ensures rel in r'.links && r'.links[rel].href == AbsoluteUrl(ctx, href)
  {
    PutLink(r, rel, AbsoluteUrl(ctx, href), opts)
  }

  /** `EmbeddedObjectBuilder.withAbsoluteLink` as written: resolves `href`, then calls `withLink`. */
  function WithAbsoluteLinkAsWritten(ctx: Context, r: Resource, rel: string, href: string, opts: LinkOpts): (r': Resource)
    ensures rel in r'.links && r'.links[rel].href == AbsoluteUrl(ctx, AbsoluteUrl(ctx, href))
  {
    WithLinkAsWritten(ctx, r, rel, AbsoluteUrl(ctx, href), opts)
  }

  /**
   * The base URL goes into the link twice: for any non-empty base URL the link
   * written by `withAbsoluteLink` is strictly longer than the resolved `href`,
   * so it is never the URL `absoluteUrl(href)` the method is named for.
   */
  lemma AbsoluteLinkResolvedTwice(ctx: Context, r: Resource, rel: string, href: string, opts: LinkOpts)
    requires |BaseUrl(ctx)| > 0
    ensures WithAbsoluteLinkAsWritten(ctx, r, rel, href, opts).links[rel].href != AbsoluteUrl(ctx, href)
    ensures |WithAbsoluteLinkAsWritten(ctx, r, rel, href, opts).links[rel].href| > |AbsoluteUrl(ctx, href)|
  {
    var once := AbsoluteUrl(ctx, href);
    assert |StripSlash(once)| >= |once| - 1;
  }

  /**
   * The corrected calls: `withLink` stores `href` as given and `withAbsoluteLink`
   * stores `absoluteUrl(href)`, as `addLink` and `addAbsoluteLink` of the states do.
   */
  lemma CorrectedLinksResolveOnce(ctx: Context, model: Value, r: Resource, rel: string, href: string, opts: LinkOpts)
    ensures ApplyObjectStep(ctx, model, r, WithLink(rel, href, opts)).links[rel] == Link(href, opts)
    ensures ApplyObjectStep(ctx, model, r, WithAbsoluteLink(rel, href, opts)).links[rel] == Link(AbsoluteUrl(ctx, href), opts)
  {
  }

  /**
   * `withEmbeddedObject`'s overload choice as written: it tests whether the
   * third argument is undefined, so for `(rel, href, build)` the callback itself
   * becomes the model and the missing fourth argument makes the script empty.
   */
  function EmbedTargetAsWritten(model: Value, rel: string, args: EmbedArgs): (t: (Value, seq<ObjectStep>))
    ensures args.FromModel? ==> t.1 == []
    ensures args.WithObject? ==> t == (args.obj, args.build)
  {
    match args
    case FromModel(build) => (Fn, [])
    case WithObject(obj, build) => (obj, build)
  }

  /**
   * With the overload choice as written, the callback of `(rel, href, build)`
   * never runs: a script that sets a property leaves the embedded object
   * without it, while the corrected choice sets it.
   */
  lemma EmbeddedBuildIgnoredAsWritten(ctx: Context, model: Value, parent: Resource, rel: string, href: string)
    ensures var t := EmbedTargetAsWritten(model, rel, FromModel([WithProperty("k", Str("v"))]));
            "k" !in EmbedObject(ctx, t.0, parent, rel, href, t.1).embedded[rel].obj.props
    ensures var t := EmbedTarget(model, rel, FromModel([WithProperty("k", Str("v"))]));
            EmbedObject(ctx, t.0, parent, rel, href, t.1).embedded[rel].obj.props == map["k" := Str("v")]
  {
    var steps := [WithProperty("k", Str("v"))];
    assert steps[..0] == [];
  }
}
