/** Shared data of the Raffine frontend: catalog listings, cart lines, the
    signed-in user, what the profile endpoint returns, and the browser's
    localStorage as a key-value store of typed documents. */
module Domain {

  datatype Option<T> = None | Some(value: T)

  /** What a collaborator call yields: a value, or the message of the error it threw. */
  datatype Result<T> = Ok(value: T) | Err(message: string)

  /** A catalog listing. `id` is the frontend identity (`service.id`) and
      `mongoId` the document store's `_id`; either may be absent, and two absent
      identities compare equal, as `undefined === undefined` does. The rating
      is in tenths of a star (4.9 is 49). Display-only fields are not modelled. */
  datatype Service = Service(
    id: Option<string>,
    mongoId: Option<string>,
    name: string,
    description: string,
    category: string,
    serviceType: string,
    priceValue: int,
    rating: int)

  /** A cart line `{ ...service, quantity }`: its identity is the service's `id`. */
  datatype CartLine = CartLine(service: Service, quantity: int)
  {
    function Id(): Option<string> { service.id }
  }

  /** The record the login endpoint returns and the session stores. */
  datatype User = User(mongoId: string, name: string, email: string, token: string)

  /** One entry `{ service, quantity }` of the profile's cart, service populated. */
  datatype RemoteLine = RemoteLine(service: Service, quantity: int)

  /** The profile endpoint's answer; `favorites` or `cart` may be missing. */
  datatype Profile = Profile(favorites: Option<seq<Service>>, cart: Option<seq<RemoteLine>>)

  /** A backend cart entry `{ service: ref, quantity }`. */
  datatype PayloadLine = PayloadLine(service: Option<string>, quantity: int)

  /** `item._id || item.id`: the store's id when it is present and non-empty,
      otherwise the frontend id. */
  function BackendRef(s: Service): (r: Option<string>)
    ensures s.mongoId.Some? && s.mongoId.value != "" ==> r == s.mongoId
    ensures (s.mongoId.None? || s.mongoId.value == "") ==> r == s.id
  {
    if s.mongoId.Some? && s.mongoId.value != "" then s.mongoId else s.id
  }

  /** A JSON document the frontend writes with `JSON.stringify`. */
  datatype Doc = CartDoc(lines: seq<CartLine>) | FavoritesDoc(services: seq<Service>) | UserDoc(user: User)

  /** A localStorage value: an encoded document, or raw text that is not
      the encoding of any document (a remembered email, or a corrupt entry). */
  datatype Stored = Json(doc: Doc) | Raw(text: string)

  /** JavaScript truthiness of the string `localStorage.getItem` returns:
      only the empty string is falsy; an encoded document never is. */
  predicate Truthy(v: Stored) {
    v.Json? || v.text != ""
  }

  const UserKey: string := "raffine_user"
  const CartKey: string := "raffine_cart"
  const FavoritesKey: string := "raffine_favorites"
  const RememberKey: string := "raffine_remember_email"

  /** The browser's localStorage: synchronous get, set and remove. */
  class LocalStorage {
    var entries: map<string, Stored>

    constructor (initial: map<string, Stored>)
      ensures entries == initial
    {
      entries := initial;
    }

    function GetItem(key: string): (r: Option<Stored>)
      reads this
      ensures r.Some? <==> key in entries
      ensures r.Some? ==> r.value == entries[key]
    {
      if key in entries then Some(entries[key]) else None
    }

    method SetItem(key: string, value: Stored)
      modifies this
      ensures entries == old(entries)[key := value]
    {
      entries := entries[key := value];
    }

    method RemoveItem(key: string)
      modifies this
      ensures entries == old(entries) - {key}
      ensures key !in entries
    {
      entries := entries - {key};
    }
  }
}
