/**
 * The HAL document shapes of src/hal/hal-format.ts: link objects and resource
 * objects with their `_links`, `_embedded` and plain properties.
 */
module HalFormat {
  import opened Wrappers
  import opened JsValues

  /** The optional members of a HAL link object besides `href`. */
  datatype LinkOpts = LinkOpts(
    templated: Option<bool>,
    title: Option<string>,
    hreflang: Option<string>,
    mediaType: Option<string>,  // the `type` member
    deprecation: Option<string>,
    name: Option<string>)

  /** The `{}` every link option parameter defaults to. */
  const NoOpts := LinkOpts(None, None, None, None, None, None)

  /** A link object `{ href, ...opts }`. */
  datatype Link = Link(href: string, opts: LinkOpts)

  /**
   * A resource object: `_links` by relation type, `_embedded` by relation type,
   * and the remaining properties.
   */
  datatype Resource = Resource(links: map<string, Link>, embedded: map<string, Embedded>, props: map<string, Value>)

  /** An embedded entry is one resource object or an array of them. */
  datatype Embedded = One(obj: Resource) | Many(objs: seq<Resource>)

  /** The resource carries the `self` link every HAL resource object should have. */
  predicate HasSelf(r: Resource) {
    "self" in r.links
  }

  /** `{ _links: { self: { href } }, _embedded: {} }`, the start of every state and embedded object. */
  function Skeleton(href: string): (r: Resource)
    ensures HasSelf(r) && r.links["self"] == Link(href, NoOpts)
    ensures r.links.Keys == {"self"} && r.embedded == map[] && r.props == map[]
  {
    Resource(map["self" := Link(href, NoOpts)], map[], map[])
  }

  /** `{ _links: {}, _embedded: {} }`, the start of each element of an embedded array. */
  function Blank(): (r: Resource)
    ensures !HasSelf(r) && r.links == map[] && r.embedded == map[] && r.props == map[]
  {
    Resource(map[], map[], map[])
  }
}
