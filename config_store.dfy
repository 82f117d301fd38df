/** The shared configuration store the command handlers write to: a map from
    (plugin, setting) to a value, read with a default as `configDB.get` does. */
module ConfigStore {

  /** A (plugin name, setting name) pair. */
  type Key = (string, string)

  /** The values plugins keep in the store. */
  datatype Value = Bool(b: bool) | Int(i: int) | Str(s: string)

  type Store = map<Key, Value>

  /** The keys this bridge reads or writes. */
  const SWITCH_ENABLED: Key := ("switch", "enabled")
  const SWITCH_ON: Key := ("switch", "on")
  const SWITCH_AMPS: Key := ("switch", "amps")
  const SCHEDULER_ENABLED: Key := ("scheduler", "enabled")
  const LOADMANAGEMENT_ENABLED: Key := ("loadmanagement", "enabled")

  /** Python truthiness of a stored value. */
  predicate Truthy(v: Value)
  {
    match v
    case Bool(b) => b
    case Int(i) => i != 0
    case Str(s) => s != ""
  }

  /** `configDB.get(plugin, key, default)`. */
  function Lookup(store: Store, key: Key, default: Value): (v: Value)
    ensures key in store ==> v == store[key]
    ensures key !in store ==> v == default
  {
    if key in store then store[key] else default
  }

  /** A flag read as `configDB.get(plugin, key, False)` and used as a condition. */
  predicate Flag(store: Store, key: Key)
  {
    Truthy(Lookup(store, key, Bool(false)))
  }

  /** Every key outside `keys` has the same presence and value in both stores. */
  ghost predicate UnchangedOutside(before: Store, after: Store, keys: set<Key>)
  {
    forall k :: k !in keys ==> (k in before <==> k in after) && (k in before ==> before[k] == after[k])
  }

  /** Writing a batch of settings changes no key outside the batch, and each
      written key reads back the written value. */
  lemma WriteBatch(store: Store, writes: Store)
    ensures UnchangedOutside(store, store + writes, writes.Keys)
    ensures forall k :: k in writes ==> Lookup(store + writes, k, Bool(false)) == writes[k]
  {
  }

  /** The store object shared with the other plugins. */
  class ConfigDB {
    var entries: Store

    constructor (initial: Store)
      ensures entries == initial
    {
      entries := initial;
    }

    /** `configDB.set(plugin, key, value)`. */
    method Set(plugin: string, key: string, value: Value)
      modifies this
      ensures entries == old(entries)[(plugin, key) := value]
    {
      entries := entries[(plugin, key) := value];
    }
  }
}
