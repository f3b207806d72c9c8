// The parts of the browser that the page script reads and writes, reduced to
// plain values: optional strings for `getItem` results, JavaScript truthiness
// for the `if (...)` and `||` tests on them, and Web Storage as two maps.

module Browser {

  datatype Option<T> = None | Some(value: T)

  /** The value `getItem(key)` returns for `m`: `null` when the key is absent. */
  function Get(m: map<string, string>, key: string): (r: Option<string>)
    ensures r == None <==> key !in m
    ensures key in m ==> r.value == m[key]
  {
    if key in m then Some(m[key]) else None
  }

  /** JavaScript truthiness of a string-or-null: `null` and `""` are falsy. */
  predicate Truthy(v: Option<string>): (b: bool)
    ensures b <==> v != None && v != Some("")
  {
    v.Some? && v.value != ""
  }

  /** `localStorage` (kept across sessions) and `sessionStorage` (kept for
      the browsing session), each a map from key to string value. */
  class Storage {
    var local: map<string, string>
    var session: map<string, string>

    constructor (local: map<string, string>, session: map<string, string>)
      ensures this.local == local && this.session == session
    {
      this.local := local;
      this.session := session;
    }

    /** `localStorage.setItem(key, value)`: only that key changes. */
    method SetLocal(key: string, value: string)
      modifies this
      ensures local == old(local)[key := value]
      ensures session == old(session)
    {
      local := local[key := value];
    }

    /** `sessionStorage.setItem(key, value)`: only that key changes. */
    method SetSession(key: string, value: string)
      modifies this
      ensures session == old(session)[key := value]
      ensures local == old(local)
    {
      session := session[key := value];
    }
  }
}
