/** The browser state the client reads and writes: `localStorage`, a map from
    keys to strings, and the current path, which `window.location.href` and
    react-router's `navigate` both set. Page reloads and history are not
    modelled. */
module Browser {
  import opened Wrappers

  class Window {
    var storage: map<string, string>
    var location: string

    constructor(storage: map<string, string>, location: string)
      ensures this.storage == storage && this.location == location
    {
      this.storage := storage;
      this.location := location;
    }

    /** `localStorage.getItem(k)`: None stands for `null`. */
    function GetItem(k: string): (v: Option<string>)
      reads this
      ensures v.Some? <==> k in storage
      ensures v.Some? ==> v.value == storage[k]
    {
      if k in storage then Some(storage[k]) else None
    }

    /** `localStorage.setItem(k, v)`. */
    method SetItem(k: string, v: string)
      modifies this
      ensures storage == old(storage)[k := v] && location == old(location)
    {
      storage := storage[k := v];
    }

    /** `localStorage.removeItem(k)`. */
    method RemoveItem(k: string)
      modifies this
      ensures storage == old(storage) - {k} && location == old(location)
    {
      storage := storage - {k};
    }

    /** `navigate(path)` or `window.location.href = path`. */
    method Navigate(path: string)
      modifies this
      ensures location == path && storage == old(storage)
    {
      location := path;
    }
  }

  /** Whether the stored value under `k` is truthy: present and not empty. */
  predicate Holds(storage: map<string, string>, k: string)
  {
    k in storage && storage[k] != ""
  }
}
