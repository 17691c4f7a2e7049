/** The browser state the pages share: `localStorage` as a map from key to
    string, and the router's current location as `route`. */
module Browser {
  import opened Js

  /** `localStorage.getItem(key)`; `None` is `null`. */
  function Lookup(storage: map<string, string>, key: string): (r: Option<string>)
    ensures r.Some? <==> key in storage
    ensures r.Some? ==> r.value == storage[key]
  {
    if key in storage then Some(storage[key]) else None
  }

  class Window {
    var storage: map<string, string>
    var route: string

    constructor (storage: map<string, string>, route: string)
      ensures this.storage == storage && this.route == route
    {
      this.storage := storage;
      this.route := route;
    }

    /** `localStorage.setItem(key, value)`. */
    method SetItem(key: string, value: string)
      modifies this
      ensures storage == old(storage)[key := value]
      ensures route == old(route)
    {
      storage := storage[key := value];
    }

    /** `localStorage.removeItem(key)`. */
    method RemoveItem(key: string)
      modifies this
      ensures storage == old(storage) - {key}
      ensures route == old(route)
    {
      storage := storage - {key};
    }

    /** `navigate(to)`. */
    method Navigate(to: string)
      modifies this
      ensures route == to
      ensures storage == old(storage)
    {
      route := to;
    }
  }
}
