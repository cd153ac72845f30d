/** The two pieces of global browser state the pages share: `localStorage` (a string map)
    and `window.location.hash`. */
module Browser {
  import opened Wrappers

  const TokenKey := "token"
  const UserIdKey := "userId"
  const UserNameKey := "userName"

  class Window {
    var storage: map<string, string>
    var hash: string

    constructor (storage: map<string, string>, hash: string)
      ensures this.storage == storage && this.hash == hash
    {
      this.storage := storage;
      this.hash := hash;
    }

    /** `localStorage.getItem(key)`: `null` when the key is absent. */
    function GetItem(key: string): (v: Option<string>)
      reads this
      ensures v.Some? <==> key in storage
      ensures v.Some? ==> v.value == storage[key]
    {
      if key in storage then Some(storage[key]) else None
    }

    /** `localStorage.setItem(key, value)`. */
    method SetItem(key: string, value: string)
      modifies this
      ensures storage == old(storage)[key := value]
      ensures hash == old(hash)
    {
      storage := storage[key := value];
    }

    /** `localStorage.removeItem(key)`: removing an absent key changes nothing. */
    method RemoveItem(key: string)
      modifies this
      ensures storage == old(storage) - {key}
      ensures hash == old(hash)
    {
      storage := storage - {key};
    }

    /** `window.location.hash = h`. */
    method Navigate(h: string)
      modifies this
      ensures hash == h && storage == old(storage)
    {
      hash := h;
    }
  }
}
