/**
 * The browser's persistent key-value store (localStorage) as the storefront
 * uses it: three keys, each either absent or holding a value. The cart key
 * holds the serialized line items, `authToken` the session token and `user`
 * the serialized user record.
 */
module Storage {
  import opened Wrappers

  /** One cart line item, as stored under the `cart` key. Prices are in cents. */
  datatype Line = Line(id: int, image: string, title: string, price: int, quantity: int)

  /** A value read with getItem is truthy in JavaScript when present and non-empty. */
  predicate Truthy(v: Option<string>)
  {
    v.Some? && v.value != ""
  }

  class Store {
    /** The `cart` key; None when the key is absent. */
    var cart: Option<seq<Line>>
    /** The `authToken` key. */
    var authToken: Option<string>
    /** The `user` key, holding the serialized user record. */
    var user: Option<string>

    /** A store in which no key is set. */
    constructor ()
      ensures cart == None && authToken == None && user == None
    {
      cart := None;
      authToken := None;
      user := None;
    }
  }
}
