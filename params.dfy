/** The invocation's parameter map (a Java `Map<String, Serializable>`) and
    the sanitisation the invoker applies to it before the action runs. */
module Params {

  /** A parameter value as the invoker observes it: Java's `null`, or an
      object known only through its `toString()`. */
  datatype Value = Null | Obj(text: string)

  type ParamEntries = map<string, Value>

  // Reserved keys. Their spellings are defined in ActionUtil and LocaleHelper;
  // the model relies only on the six of them being pairwise distinct.
  const ActionClassKey: string := "ActionAdapterQuartzJob-ActionClass"
  const ActionIdKey: string := "ActionAdapterQuartzJob-ActionId"
  const ActionUserKey: string := "ActionAdapterQuartzJob-ActionUser"
  const StreamProviderKey: string := "ActionAdapterQuartzJob-StreamProvider"
  const UiPassParamKey: string := "uiPassParam"
  const UserLocaleKey: string := "user_locale"

  /** The scheduler-infrastructure markers removed before the action runs. */
  const ControlKeys: set<string> :=
    {ActionClassKey, ActionIdKey, ActionUserKey, StreamProviderKey, UiPassParamKey}

  /** The three markers removed before the stream provider is built. */
  const IdentityKeys: set<string> := {ActionClassKey, ActionIdKey, ActionUserKey}

  /** Java's `params.get(k)`: `null` both for a missing key and for a key
      mapped to `null`. */
  function Lookup(p: ParamEntries, k: string): Value
  {
    if k in p then p[k] else Null
  }

  /** The test guarding the locale injection: the locale entry is `null`
      (missing or mapped to null) or its string form is empty. */
  predicate LocaleMissing(p: ParamEntries)
  {
    Lookup(p, UserLocaleKey) == Null || Lookup(p, UserLocaleKey).text == ""
  }

  /** The map after the locale step: the default locale is put in when the
      caller supplied none, and nothing else changes. */
  function WithLocale(p: ParamEntries, defaultLocale: Value): (r: ParamEntries)
    ensures UserLocaleKey in r
    ensures LocaleMissing(p) ==> r[UserLocaleKey] == defaultLocale
    ensures !LocaleMissing(p) ==> r == p && r[UserLocaleKey] == p[UserLocaleKey]
    ensures r.Keys == p.Keys + {UserLocaleKey}
    ensures forall k :: k in p && k != UserLocaleKey ==> r[k] == p[k]
  {
    if LocaleMissing(p) then p[UserLocaleKey := defaultLocale] else p
  }

  /** The map the stream provider is built from: locale injected and the
      first three markers removed, but the stream-provider marker still there. */
  function ProviderView(p: ParamEntries, defaultLocale: Value): (r: ParamEntries)
    ensures StreamProviderKey in r <==> StreamProviderKey in p
    ensures StreamProviderKey in p ==> r[StreamProviderKey] == p[StreamProviderKey]
    ensures forall k :: k in IdentityKeys ==> k !in r
    ensures forall k :: k !in IdentityKeys ==>
      (k in r <==> k in WithLocale(p, defaultLocale)) &&
      (k in r ==> r[k] == WithLocale(p, defaultLocale)[k])
  {
    WithLocale(p, defaultLocale) - {ActionClassKey} - {ActionIdKey} - {ActionUserKey}
  }

  /** The map the action finally receives. */
  function Sanitized(p: ParamEntries, defaultLocale: Value): (r: ParamEntries)
    ensures UserLocaleKey in r
    ensures r[UserLocaleKey] == if LocaleMissing(p) then defaultLocale else p[UserLocaleKey]
    ensures forall k :: k in ControlKeys ==> k !in r
    ensures forall k :: k != UserLocaleKey && k !in ControlKeys ==> (k in r <==> k in p)
    ensures forall k :: k in p && k != UserLocaleKey && k !in ControlKeys ==> r[k] == p[k]
  {
    ProviderView(p, defaultLocale) - {StreamProviderKey} - {UiPassParamKey}
  }

  /** Sanitising an already sanitised map changes nothing: removing absent
      keys is a no-op and the locale slot is already resolved (or is
      resolved to the same default again). */
  lemma SanitizedIdempotent(p: ParamEntries, defaultLocale: Value)
    ensures Sanitized(Sanitized(p, defaultLocale), defaultLocale) == Sanitized(p, defaultLocale)
  {
  }

  /** A mutable Java `Map` whose `put` and `remove` succeed; the invoker
      changes its entries in place. */
  class ParamMap {
    var entries: ParamEntries

    constructor (initial: ParamEntries)
      ensures entries == initial
    {
      entries := initial;
    }

    /** `Map.put`: binds `k` to `v`, replacing any earlier binding. */
    method Put(k: string, v: Value)
      modifies this
      ensures entries == old(entries)[k := v]
    {
      entries := entries[k := v];
    }

    /** `Map.remove`: unbinds `k`; a missing key leaves the map as it was. */
    method Remove(k: string)
      modifies this
      ensures entries == old(entries) - {k}
      ensures k !in old(entries) ==> entries == old(entries)
    {
      entries := entries - {k};
    }
  }
}
