/** Browser `localStorage`, shared by the session service and the recent-search
    list (frontend/src/app): a map from keys to stored strings. */
module LocalStore {
  import opened Wrappers

  /** The stored items. */
  type Store = map<string, string>

  /** `localStorage.getItem(key)`: the stored string, `null` (`None`) when
      nothing is stored under the key. */
  function GetItem(st: Store, key: string): (r: Option<string>)
    ensures r.Some? <==> key in st
    ensures r.Some? ==> r.value == st[key]
  {
    if key in st then Some(st[key]) else None
  }

  /** `localStorage.setItem(key, value)`: reads of `key` now give `value`;
      every other key reads as before. */
  function SetItem(st: Store, key: string, value: string): (r: Store)
    ensures GetItem(r, key) == Some(value)
    ensures forall k :: k != key ==> GetItem(r, k) == GetItem(st, k)
  {
    st[key := value]
  }

  /** `localStorage.removeItem(key)`: reads of `key` now give `null`; every
      other key reads as before. */
  function RemoveItem(st: Store, key: string): (r: Store)
    ensures GetItem(r, key).None?
    ensures forall k :: k != key ==> GetItem(r, k) == GetItem(st, k)
  {
    st - {key}
  }
}
