/** The property projector: which values count as primitive, and copying them onto a target. */
module CopyProperties {
  import opened JsValues

  /**
   * `isPrimitiveValue`: strings, numbers and booleans are primitive, and so is
   * an array whose first element is truthy and itself primitive.
   */
  predicate IsPrimitiveValue(v: Value)
    ensures IsPrimitiveValue(v) ==> IsScalar(Innermost(v))
    ensures IsPrimitiveValue(v) && v.Arr? ==> Truthy(Innermost(v))
    decreases v
  {
    match v
    case Str(_) => true
    case Num(_) => true
    case Bool(_) => true
    case Arr(elems) => |elems| > 0 && Truthy(elems[0]) && IsPrimitiveValue(elems[0])
    case _ => false
  }

  predicate IsScalar(v: Value) {
    v.Str? || v.Num? || v.Bool?
  }

  /** The value reached by following first elements down through non-empty arrays. */
  function Innermost(v: Value): Value
    decreases v
  {
    if v.Arr? && |v.elems| > 0 then Innermost(v.elems[0]) else v
  }

  /**
   * An independent reading of `isPrimitiveValue`: a value is primitive iff it is a
   * scalar, or an array whose innermost first element is a truthy scalar. So empty
   * arrays, arrays of objects and arrays starting with 0, "" or false are not.
   */
  lemma {:induction false} PrimitiveIffInnermostTruthyScalar(v: Value)
    ensures IsPrimitiveValue(v) <==> IsScalar(v) || (v.Arr? && IsScalar(Innermost(v)) && Truthy(Innermost(v)))
    decreases v
  {
    if v.Arr? && |v.elems| > 0 {
      PrimitiveIffInnermostTruthyScalar(v.elems[0]);
    }
  }

  /** The keys of `source` whose values are primitive. */
  function PrimitiveKeys(source: map<string, Value>): set<string> {
    set k | k in source && IsPrimitiveValue(source[k])
  }

  /** `target` after every primitive-valued entry of `source` was written into it. */
  function PrimitiveOverlay(source: map<string, Value>, target: map<string, Value>): (r: map<string, Value>)
    ensures r.Keys == target.Keys + PrimitiveKeys(source)
    ensures forall k :: k in PrimitiveKeys(source) ==> r[k] == source[k]
    ensures forall k :: k in target && k !in PrimitiveKeys(source) ==> r[k] == target[k]
  {
    map k | k in target.Keys + PrimitiveKeys(source) ::
      if k in PrimitiveKeys(source) then source[k] else target[k]
  }

  /**
   * `copyPrimitiveProperties(source, target)`: walks the entries of `source` and
   * writes each primitive one into `target`, overwriting what was there; the
   * updated target is returned.
   */
  method CopyPrimitiveProperties(source: Value, target: map<string, Value>) returns (r: map<string, Value>)
    ensures r == PrimitiveOverlay(Entries(source), target)
  {
    var entries := Entries(source);
    var todo := entries.Keys;
    r := target;
    while todo != {}
      invariant todo <= entries.Keys
      invariant forall k :: k in r <==> k in target || (k in PrimitiveKeys(entries) && k !in todo)
      invariant forall k :: k in r ==> r[k] == if k in PrimitiveKeys(entries) && k !in todo then entries[k] else target[k]
      decreases todo
    {
      var key :| key in todo;
      if IsPrimitiveValue(entries[key]) {
        r := r[key := entries[key]];
      }
      todo := todo - {key};
    }
  }

  /** Copying the same source a second time changes nothing. */
  lemma CopyIsIdempotent(source: map<string, Value>, target: map<string, Value>)
    ensures PrimitiveOverlay(source, PrimitiveOverlay(source, target)) == PrimitiveOverlay(source, target)
  {
  }
}
