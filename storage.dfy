/** The browser's `localStorage`: a string-to-string dictionary that the
    app reads and updates in place. */
module Storage {
  import opened Wrappers

  class LocalStorage {
    var items: map<string, string>

    /** A store holding what earlier sessions left behind. */
    constructor (initial: map<string, string>)
      ensures items == initial
    {
      items := initial;
    }

    /** `getItem(key)`: `null` for a missing key. */
    function GetItem(key: string): Option<string>
      reads this
    {
      if key in items then Some(items[key]) else None
    }

    /** `setItem(key, value)`. */
    method SetItem(key: string, value: string)
      modifies this
      ensures items == old(items)[key := value]
    {
      items := items[key := value];
    }

    /** `removeItem(key)`; removing a missing key is allowed. */
    method RemoveItem(key: string)
      modifies this
      ensures items == old(items) - {key}
    {
      items := items - {key};
    }
  }
}
