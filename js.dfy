/** The few JavaScript and browser notions the stores depend on: a value that may be
    null, JavaScript truthiness of a stored string, and the browser's localStorage
    restricted to the one key the client uses ('token'). */
module Js {

  /** A JavaScript value that may be null or undefined (None) or present (Some). */
  datatype Option<+T> = None | Some(value: T)

  /** JavaScript truthiness of a string-or-null: null and the empty string are falsy,
      every other string is truthy. */
  predicate Truthy(s: Option<string>) {
    s.Some? && s.value != ""
  }

  /** window.localStorage, restricted to the key 'token'. `token` is what
      localStorage.getItem('token') returns: None when the key is absent. */
  class LocalStorage {
    var token: Option<string>

    constructor (initial: Option<string>)
      ensures token == initial
    {
      token := initial;
    }
  }
}
