/** Python's `dict.get(key, default)` on a dictionary modelled as a map. */
module Dicts {
  /** The value stored under `key`, or `default` when the key is absent. */
  function GetOr<V>(data: map<string, V>, key: string, default: V): V
  {
    if key in data then data[key] else default
  }
}
