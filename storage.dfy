/** The browser's `localStorage` and `sessionStorage`: a string-to-string
    table updated in place. */
module WebStorage {
  import opened Common

  /** The table `m` without the keys that satisfy `matches`. */
  function Without(m: map<string, string>, matches: string -> bool): (r: map<string, string>)
    ensures forall k :: k in r <==> k in m && !matches(k)
    ensures forall k | k in r :: r[k] == m[k]
  {
    map k | k in m && !matches(k) :: m[k]
  }

  /** Removing the matching keys a second time changes nothing. */
  lemma WithoutIdempotent(m: map<string, string>, matches: string -> bool)
    ensures Without(Without(m, matches), matches) == Without(m, matches)
  {
    var once := Without(m, matches);
    assert Without(once, matches).Keys == once.Keys;
  }

  class Storage {
    var items: map<string, string>

    constructor (initial: map<string, string>)
      ensures items == initial
    {
      items := initial;
    }

    /** `getItem(key)`: the stored string, or null when the key is absent. */
    function GetItem(key: string): (r: Option<string>)
      reads this
      ensures r.Some? <==> key in items
      ensures r.Some? ==> r.value == items[key]
    {
      if key in items then Some(items[key]) else None
    }

    /** `setItem(key, value)`. */
    method SetItem(key: string, value: string)
      modifies this
      ensures items == old(items)[key := value]
    {
      items := items[key := value];
    }

    /** `removeItem(key)`; removing an absent key changes nothing. */
    method RemoveItem(key: string)
      modifies this
      ensures items == old(items) - {key}
    {
      items := items - {key};
    }

    /** `clear()`. */
    method Clear()
      modifies this
      ensures items == map[]
    {
      items := map[];
    }
  }
}
