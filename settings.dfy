/**
 * `mergeConfigWithUrlParams`: the defaults, with each URL parameter copied over
 * when its key is a configuration key other than `debugurl`. The URL
 * parameters arrive already parsed; their string-to-value coercion is not part
 * of this model.
 */
module Settings {

  const DebugUrl: string := "debugurl"

  /**
   * The names an object literal inherits from `Object.prototype`, for which
   * JavaScript's `key in obj` is true although the literal never declared
   * them (`__proto__` is left out: assigning a primitive to it creates no key).
   */
  const InheritedNames: set<string> := {
    "constructor", "hasOwnProperty", "isPrototypeOf", "propertyIsEnumerable",
    "toLocaleString", "toString", "valueOf",
    "__defineGetter__", "__defineSetter__", "__lookupGetter__", "__lookupSetter__"
  }

  /** JavaScript's `key in defaults` on an object literal. */
  predicate InObject<V>(key: string, defaults: map<string, V>)
  {
    key in defaults || key in InheritedNames
  }

  /** The merge as the code performs it, with `in` seeing inherited names. */
  function MergeAsWritten<V>(defaults: map<string, V>, params: map<string, V>): (merged: map<string, V>)
    // the merged object has the default keys plus any inherited name passed as a parameter
    ensures merged.Keys == defaults.Keys + (params.Keys * InheritedNames)
  {
    map key | key in defaults.Keys + params.Keys && (key in defaults || (key != DebugUrl && InObject(key, defaults)))
      :: if key in params && key != DebugUrl && InObject(key, defaults) then params[key] else defaults[key]
  }

  /** A URL parameter named after an inherited name slips into the configuration. */
  lemma MergeAsWrittenAcceptsInheritedName()
    ensures var merged := MergeAsWritten(map["fadeTimeout" := 10000], map["toString" := 1]);
      "toString" in merged && merged.Keys != {"fadeTimeout"}
  {
    var merged := MergeAsWritten(map["fadeTimeout" := 10000], map["toString" := 1]);
    assert "toString" in InheritedNames;
    assert "toString" in merged;
  }

  /** The merge as intended: only keys the defaults declare. */
  function MergeConfig<V>(defaults: map<string, V>, params: map<string, V>): (merged: map<string, V>)
    // exactly the default keys
    ensures merged.Keys == defaults.Keys
    // a parameter wins over the default, except for `debugurl`
    ensures forall key :: key in defaults && key in params && key != DebugUrl ==> merged[key] == params[key]
    ensures forall key :: key in defaults && (key !in params || key == DebugUrl) ==> merged[key] == defaults[key]
  {
    map key | key in defaults :: if key in params && key != DebugUrl then params[key] else defaults[key]
  }

  /** The two merges agree on every default key; the written one only adds inherited names. */
  lemma MergeAsWrittenExtendsIntended<V>(defaults: map<string, V>, params: map<string, V>)
    ensures forall key :: key in defaults ==>
      (key in MergeAsWritten(defaults, params) && MergeAsWritten(defaults, params)[key] == MergeConfig(defaults, params)[key])
    ensures (params.Keys * InheritedNames) <= defaults.Keys ==> MergeAsWritten(defaults, params) == MergeConfig(defaults, params)
  {
  }

  /** Merging the same parameters twice changes nothing more. */
  lemma MergeConfigIdempotent<V>(defaults: map<string, V>, params: map<string, V>)
    ensures MergeConfig(MergeConfig(defaults, params), params) == MergeConfig(defaults, params)
  {
  }
}
