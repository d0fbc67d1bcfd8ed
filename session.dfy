/** The browser's `localStorage` as the components use it: a map from keys to
    texts, read with `getItem` (absent keys read as `null`) and written with
    `setItem` / `removeItem`. */
module Session {
  import opened JsValues

  const AuthTokenKey := "authToken"
  const UserTypeKey := "userType"
  const UserNameKey := "userName"
  const UserDataKey := "userData"

  type Storage = map<string, string>

  /** `localStorage.getItem(key)`. */
  function GetItem(m: Storage, key: string): Option<string> {
    if key in m then Some(m[key]) else None
  }

  /** The text `setItem` stores for a value that may be `undefined`:
      `String(undefined)` is "undefined". */
  function StoredText(v: Option<string>): (t: string)
    ensures v.Some? ==> t == v.value
    ensures v.None? ==> t != ""
  {
    v.GetOr("undefined")
  }

  /** The storage shared by every screen of one browser context. */
  class Store {
    var items: Storage

    constructor (initial: Storage)
      ensures items == initial
    {
      items := initial;
    }

    method SetItem(key: string, value: string)
      modifies this
      ensures items == old(items)[key := value]
    {
      items := items[key := value];
    }

    method RemoveItem(key: string)
      modifies this
      ensures items == old(items) - {key}
    {
      items := items - {key};
    }
  }
}
