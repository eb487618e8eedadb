/** The browser's `localStorage`: one process-wide map from keys to strings that every
    page reads and that App, the profile-completion page and the staff-profile page write. */
module Storage {
  import opened Wrappers

  class LocalStorage {
    var items: map<string, string>

    constructor (initial: map<string, string>)
      ensures items == initial
    {
      items := initial;
    }

    /** `localStorage.getItem(key)`: `None` stands for `null`. */
    function GetItem(key: string): (r: Option<string>)
      reads this
      ensures r.Some? <==> key in items
      ensures r.Some? ==> r.value == items[key]
    {
      if key in items then Some(items[key]) else None
    }

    /** `localStorage.setItem(key, value)`. */
    method SetItem(key: string, value: string)
      modifies this
      ensures items == old(items)[key := value]
    {
      items := items[key := value];
    }

    /** `localStorage.removeItem(key)`; removing an absent key changes nothing. */
    method RemoveItem(key: string)
      modifies this
      ensures items == old(items) - {key}
    {
      items := items - {key};
    }
  }
}
