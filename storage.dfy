/**
 * The browser's `localStorage`, as a map from keys to string values.
 * Persistence across reloads is the auth context's initialisation step.
 */
module Storage {
  import opened Common

  type Store = map<string, string>

  const TokenKey := "token"

  /** `localStorage.getItem(key)`: the stored string, or null when absent. */
  function GetItem(s: Store, key: string): (r: Option<string>)
    ensures r.Some? <==> key in s
    ensures r.Some? ==> r.value == s[key]
  {
    if key in s then Some(s[key]) else None
  }

  /** `localStorage.setItem(key, value)`. */
  function SetItem(s: Store, key: string, value: string): (r: Store)
    ensures GetItem(r, key) == Some(value)
    ensures forall k :: k != key ==> GetItem(r, k) == GetItem(s, k)
    ensures r.Keys == s.Keys + {key}
  {
    s[key := value]
  }

  /** `localStorage.removeItem(key)`; removing an absent key changes nothing. */
  function RemoveItem(s: Store, key: string): (r: Store)
    ensures GetItem(r, key) == None
    ensures forall k :: k != key ==> GetItem(r, k) == GetItem(s, k)
    ensures key !in s ==> r == s
  {
    s - {key}
  }
}
