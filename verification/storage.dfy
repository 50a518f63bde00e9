/** The browser's durable key-value storage (`localStorage`), one object shared by the
    session store, the theme controller and the caches that check for a token. */
module Storage {
  import opened Wrappers
  import opened Text

  const AuthTokenKey: string := "authToken"
  const UserKey: string := "user"
  const TransactionsKey: string := "transactions"
  const ThemeKey: string := "theme"

  /** `getItem`: the stored string, or null. */
  function Lookup(entries: map<string, string>, key: string): (v: Option<string>)
    ensures v.Some? <==> key in entries
    ensures v.Some? ==> v.value == entries[key]
  {
    if key in entries then Some(entries[key]) else None
  }

  /** `if (localStorage.getItem(key))`. */
  predicate HasItem(entries: map<string, string>, key: string) {
    IsTruthy(Lookup(entries, key))
  }

  class LocalStorage {
    var entries: map<string, string>

    constructor (initial: map<string, string>)
      ensures entries == initial
    {
      entries := initial;
    }

    method SetItem(key: string, value: string)
      modifies this
      ensures entries == old(entries)[key := value]
    {
      entries := entries[key := value];
    }

    method RemoveItem(key: string)
      modifies this
      ensures entries == old(entries) - {key}
    {
      entries := entries - {key};
    }
  }
}
