/**
 * The browser's `localStorage` as the console uses it, and the session flag
 * kept in it under the key `isAdmin`.
 */
module Session {
  import opened Wrappers

  const IsAdminKey := "isAdmin"
  const TrueText := "true"

  /** A string-to-string store that survives page loads. */
  class Storage {
    var items: map<string, string>

    constructor (initial: map<string, string>)
      ensures items == initial
    {
      items := initial;
    }

    /** `getItem(key)`: the stored string, or `null` (here `None`) when the key is absent. */
    function GetItem(key: string): (v: Option<string>)
      reads this
      ensures v.Some? <==> key in items
      ensures v.Some? ==> v.value == items[key]
    {
      if key in items then Some(items[key]) else None
    }

    /** `setItem(key, value)`. */
    method SetItem(key: string, value: string)
      modifies this
      ensures items == old(items)[key := value]
    {
      items := items[key := value];
    }

    /** `removeItem(key)`. */
    method RemoveItem(key: string)
      modifies this
      ensures items == old(items) - {key}
    {
      items := items - {key};
    }
  }

  /** `localStorage.getItem('isAdmin') === 'true'`. */
  function IsAdmin(stored: Option<string>): (b: bool)
    ensures b <==> stored.Some? && stored.value == TrueText
  {
    stored == Some(TrueText)
  }

  /** The flag as read from a store. */
  function StoredIsAdmin(store: Storage): (b: bool)
    reads store
    ensures b <==> IsAdminKey in store.items && store.items[IsAdminKey] == TrueText
  {
    IsAdmin(store.GetItem(IsAdminKey))
  }
}
