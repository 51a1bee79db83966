/** The parts of the browser the session code touches: `localStorage`, the
    page location (both `window.location.href` and the router's `push`), and
    the console's error channel. */
module Browser {
  import opened Wrappers

  /** The single storage key the client uses for the persisted admin. */
  const UserKey: string := "user"

  /** The path of the login page. */
  const LoginPath: string := "/login"

  /** A navigation the client asks for: a client-side `router.push`, or a full
      page load by assigning `window.location.href`. */
  datatype Navigation = RouterPush(path: string) | LocationAssign(href: string)

  /** `localStorage.getItem(key)` followed by a JavaScript truthiness test:
      an entry that is missing or holds the empty string counts as absent. */
  function SavedEntry(storage: map<string, string>, key: string): (e: Option<string>)
    ensures e.Some? <==> key in storage && storage[key] != ""
    ensures e.Some? ==> e.value == storage[key]
  {
    if key in storage && storage[key] != "" then Some(storage[key]) else None
  }

  /** How `setItem` and `removeItem` show through `SavedEntry`: a write is
      read back unless it wrote the empty string, a removal reads as absent,
      and other keys are not affected. */
  lemma SavedEntryAfterWrites(storage: map<string, string>, key: string, value: string, other: string)
    requires other != key
    ensures SavedEntry(storage[key := value], key) == (if value == "" then None else Some(value))
    ensures SavedEntry(storage - {key}, key) == None
    ensures SavedEntry(storage[key := value], other) == SavedEntry(storage, other)
    ensures SavedEntry(storage - {key}, other) == SavedEntry(storage, other)
  {
  }

  class Window {
    /** `localStorage`, as a map from key to stored text. */
    var storage: map<string, string>
    /** Every navigation requested so far, oldest first. */
    var navigations: seq<Navigation>
    /** Every message written with `console.error`, oldest first. */
    var consoleErrors: seq<string>

    constructor (storage: map<string, string>)
      ensures this.storage == storage && navigations == [] && consoleErrors == []
    {
      this.storage := storage;
      navigations := [];
      consoleErrors := [];
    }

    /** `localStorage.removeItem(key)`. */
    method RemoveItem(key: string)
      modifies this
      ensures storage == old(storage) - {key} && key !in storage
      ensures navigations == old(navigations) && consoleErrors == old(consoleErrors)
    {
      storage := storage - {key};
    }

    /** `localStorage.setItem(key, value)`. */
    method SetItem(key: string, value: string)
      modifies this
      ensures storage == old(storage)[key := value]
      ensures navigations == old(navigations) && consoleErrors == old(consoleErrors)
    {
      storage := storage[key := value];
    }

    /** A navigation request (`router.push` or `window.location.href = ...`). */
    method Navigate(n: Navigation)
      modifies this
      ensures navigations == old(navigations) + [n]
      ensures storage == old(storage) && consoleErrors == old(consoleErrors)
    {
      navigations := navigations + [n];
    }

    /** `console.error(message, ...)`. */
    method LogError(message: string)
      modifies this
      ensures consoleErrors == old(consoleErrors) + [message]
      ensures storage == old(storage) && navigations == old(navigations)
    {
      consoleErrors := consoleErrors + [message];
    }
  }

  /** What the response interceptor does to the window for one settled
      request: when the request failed with status 401 the persisted admin is
      removed and the page is sent to the login path; otherwise nothing. */
  twostate predicate ResponseEffects(w: Window, unauthorized: bool)
    reads w
  {
    && w.storage == (if unauthorized then old(w.storage) - {UserKey} else old(w.storage))
    && w.navigations == old(w.navigations) + (if unauthorized then [LocationAssign(LoginPath)] else [])
    && w.consoleErrors == old(w.consoleErrors)
  }
}
