/** The browser's `localStorage`: one string-to-string map shared by the
    session (App.tsx) and the API client (src/services/api.ts). */
module WebStorage {
  import opened Types

  /** Key of the serialised user. */
  const UserKey := "user"
  /** Key of the bearer token. */
  const TokenKey := "token"

  class LocalStorage {
    var items: map<string, string>

    constructor (initial: map<string, string>)
      ensures items == initial
    {
      items := initial;
    }

    /** `getItem`: the stored string, or `null` when the key is absent. */
    function GetItem(key: string): Option<string>
      reads this
    {
      if key in items then Some(items[key]) else None
    }

    method SetItem(key: string, value: string)
      modifies this
      ensures items == old(items)[key := value]
    {
      items := items[key := value];
    }

    method RemoveItem(key: string)
      modifies this
      ensures items == old(items) - {key}
    {
      items := items - {key};
    }
  }
}
