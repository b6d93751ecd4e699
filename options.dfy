/**
 * The option merge extend_object of scroller.js and the Scroller defaults.
 *
 * A JavaScript object is a class holding a finite map from property names to
 * values; extend_object copies every own property of the second object onto the
 * first, in place, and returns the first.
 */
module Options {
  import opened Wrappers

  /**
   * An option value. `undefined` is Undefined: passed as inViewport's factor it
   * gives way to the parameter's default 0. Any other value that JavaScript
   * arithmetic coerces to a number is that number; every other value, which it
   * coerces to NaN (a non-numeric string, an object), is NonNumeric.
   */
  datatype Value = Undefined | Number(n: real) | NonNumeric(text: string)

  type Props = map<string, Value>

  class JsObject {
    var props: Props

    constructor (props: Props)
      ensures this.props == props
    {
      this.props := props;
    }
  }

  /** The properties of `o1` after extend_object(o1, o2): a right-biased overwrite. */
  function Extend(o1: Props, o2: Props): (r: Props)
    ensures r.Keys == o1.Keys + o2.Keys
    ensures forall k :: k in o2 ==> r[k] == o2[k]
    ensures forall k :: k in o1 && k !in o2 ==> r[k] == o1[k]
  {
    o1 + o2
  }

  /** extend_object: copies the own properties of `o2` onto `o1` and returns `o1`. */
  method ExtendObject(o1: JsObject, o2: Props) returns (r: JsObject)
    modifies o1
    ensures r == o1
    ensures o1.props == Extend(old(o1.props), o2)
  {
    var remaining := o2.Keys;
    while remaining != {}
      invariant remaining <= o2.Keys
      invariant o1.props == old(o1.props) + map k | k in o2.Keys - remaining :: o2[k]
      decreases remaining
    {
      var key :| key in remaining;
      o1.props := o1.props[key := o2[key]];
      remaining := remaining - {key};
    }
    assert (map k | k in o2.Keys - remaining :: o2[k]) == o2;
    r := o1;
  }

  /** Merging in an empty object (or a missing one) leaves the first unchanged. */
  lemma ExtendByEmpty(o1: Props)
    ensures Extend(o1, map[]) == o1
  {
  }

  /** Merging the same overrides twice is the same as merging them once. */
  lemma ExtendIdempotent(o1: Props, o2: Props)
    ensures Extend(Extend(o1, o2), o2) == Extend(o1, o2)
  {
  }

  const ViewportFactorKey: string := "viewportFactor"

  /** The defaults record of a new Scroller. */
  function Defaults(): (d: Props)
    ensures d.Keys == {ViewportFactorKey}
    ensures EffectiveFactor(d) == Some(0.3)
  {
    map[ViewportFactorKey := Number(0.3)]
  }

  /**
   * The factor inViewport computes with when scrollPage passes
   * `options.viewportFactor`: a missing or undefined property gives way to the
   * default parameter 0, a numeric value is itself, and a value that coerces
   * to NaN is None.
   */
  function EffectiveFactor(options: Props): (f: Option<real>)
    ensures ViewportFactorKey !in options ==> f == Some(0.0)
    ensures ViewportFactorKey in options && options[ViewportFactorKey].Undefined? ==> f == Some(0.0)
    ensures ViewportFactorKey in options && options[ViewportFactorKey].Number? ==>
              f == Some(options[ViewportFactorKey].n)
    ensures ViewportFactorKey in options && options[ViewportFactorKey].NonNumeric? ==> f == None
  {
    if ViewportFactorKey !in options then Some(0.0)
    else match options[ViewportFactorKey]
      case Undefined => Some(0.0)
      case Number(n) => Some(n)
      case NonNumeric(_) => None
  }

  /**
   * A new Scroller's viewportFactor is 0.3 unless the caller's options supply one,
   * in which case it is the supplied one; a supplied `undefined` overwrites the
   * default, so scrollPage then tests at factor 0.
   */
  lemma MergedFactor(user: Props)
    ensures ViewportFactorKey in Extend(Defaults(), user)
    ensures ViewportFactorKey !in user ==> EffectiveFactor(Extend(Defaults(), user)) == Some(0.3)
    ensures ViewportFactorKey in user ==>
              EffectiveFactor(Extend(Defaults(), user)) == EffectiveFactor(user)
    ensures ViewportFactorKey in user && user[ViewportFactorKey].Undefined? ==>
              EffectiveFactor(Extend(Defaults(), user)) == Some(0.0)
    ensures user == map[] ==> Extend(Defaults(), user) == Defaults()
  {
  }
}
