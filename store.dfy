/**
 * The application's preference store: string values under string keys,
 * shared by both caches and the purchase breadcrumb (and, across processes,
 * by every instance built on the same application context).
 */
module Store {
  import opened Wrappers

  /** Keys outside `keys` are bound, and bound to the same value, in both maps. */
  ghost predicate SameExcept(m: map<string, string>, m': map<string, string>, keys: set<string>) {
    forall k :: k !in keys ==> (k in m <==> k in m') && (k in m ==> m[k] == m'[k])
  }

  class Preferences {
    var values: map<string, string>

    constructor (initial: map<string, string>)
      ensures values == initial
    {
      values := initial;
    }

    /** `loadString(key, defaultValue)`. */
    function LoadString(key: string, defaultValue: string): (r: string)
      reads this
    {
      if key in values then values[key] else defaultValue
    }

    /** `loadString(key, null)`. */
    function Load(key: string): (r: Option<string>)
      reads this
    {
      if key in values then Some(values[key]) else None
    }

    /** `saveString(key, value)`; saving `null` removes the key. */
    method SaveString(key: string, value: Option<string>)
      modifies this
      ensures Load(key) == value
      ensures SameExcept(values, old(values), {key})
    {
      match value
      case Some(v) => values := values[key := v];
      case None => values := values - {key};
    }
  }
}
