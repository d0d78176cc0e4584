/**
 * The browser's `localStorage`, shared by the session provider, the sidebar
 * and the API client, and the outcome of a request to the API.
 */
module Browser {
  import opened Wrappers

  const ACCESS_TOKEN: string := "access_token"
  const REFRESH_TOKEN: string := "refresh_token"

  /** The outcome of one API call: the response data, or a rejected promise. */
  datatype Response<T> = Success(data: T) | Failure

  class LocalStorage {
    var items: map<string, string>

    /** The store as the page finds it, with whatever an earlier visit left in it. */
    constructor (items: map<string, string>)
      ensures this.items == items
    {
      this.items := items;
    }

    /** `localStorage.getItem(key)`: the stored string, or `null`. */
    function GetItem(key: string): (v: Option<string>)
      reads this
      ensures v.Some? <==> key in items
      ensures v.Some? ==> v.value == items[key]
    {
      if key in items then Some(items[key]) else None
    }

    method SetItem(key: string, value: string)
      modifies this
      ensures items == old(items)[key := value]
    {
      items := items[key := value];
    }

    method RemoveItem(key: string)
      modifies this
      ensures items == old(items) - {key}
    {
      items := items - {key};
    }
  }

  /** JavaScript truthiness of a value read from storage: present and not empty. */
  predicate IsTruthy(v: Option<string>)
  {
    v.Some? && v.value != ""
  }
}
