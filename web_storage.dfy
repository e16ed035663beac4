/**
 * The browser's `localStorage`: a durable map from string keys to string
 * values, shared by every store created in the same origin. Only the three
 * operations the session store calls are modelled.
 */
module WebStorage {
  import opened Wrappers

  type Storage = map<string, string>

  /** What `getItem(key)` answers: the stored string, or null when the key is absent. */
  function Lookup(items: Storage, key: string): Option<string>
  {
    if key in items then Some(items[key]) else None
  }

  /** Every key outside `keys` has the same entry (or the same absence) in both maps. */
  ghost predicate AgreeOutside(before: Storage, after: Storage, keys: set<string>)
  {
    forall k :: k !in keys ==> Lookup(after, k) == Lookup(before, k)
  }

  class LocalStorage {
    var items: Storage

    constructor (initial: Storage)
      ensures items == initial
    {
      items := initial;
    }

    method GetItem(key: string) returns (r: Option<string>)
      ensures r == Lookup(items, key)
    {
      if key in items {
        r := Some(items[key]);
      } else {
        r := None;
      }
    }

    method SetItem(key: string, value: string)
      modifies this
      ensures items == old(items)[key := value]
    {
      items := items[key := value];
    }

    method RemoveItem(key: string)
      modifies this
      ensures items == old(items) - {key}
    {
      items := items - {key};
    }
  }
}
