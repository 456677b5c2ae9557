/**
 * The contact record as the REST backend stores and returns it. Every field
 * other than the server-assigned id may be missing from the JSON object.
 */
module Contacts {
  import opened Wrappers

  datatype Contact = Contact(
    id: string,
    name: Option<string>,
    email: Option<string>,
    phone: Option<string>,
    address: Option<string>,
    favourite: Option<bool>,
    avatar: Option<string>)

  /** A contact record without its `id` key: the body of a create or update
      request. */
  datatype Details = Details(
    name: Option<string>,
    email: Option<string>,
    phone: Option<string>,
    address: Option<string>,
    favourite: Option<bool>,
    avatar: Option<string>)

  /** The rest object of the destructuring `{ id, ...rest } = c`. */
  function WithoutId(c: Contact): (d: Details)
    ensures WithId(c.id, d) == c
  {
    Details(c.name, c.email, c.phone, c.address, c.favourite, c.avatar)
  }

  /** The spread `{ id, ...d }` of an id-less record. */
  function WithId(id: string, d: Details): (c: Contact)
    ensures c.id == id
  {
    Contact(id, d.name, d.email, d.phone, d.address, d.favourite, d.avatar)
  }

  /** Spreading an id in and destructuring it out again are inverse. */
  lemma WithIdRoundTrip(id: string, d: Details)
    ensures WithId(id, d).id == id
    ensures WithoutId(WithId(id, d)) == d
  {
  }

  /** `s || ""` for an optional string. */
  function StringOrEmpty(s: Option<string>): (r: string)
    ensures s.Some? ==> r == s.value
    ensures s.None? ==> r == ""
  {
    match s
    case Some(v) => v
    case None => ""
  }

  /** `b || false` for an optional flag, which is also how `!b` reads it. */
  function FlagOrFalse(b: Option<bool>): (r: bool)
    ensures r <==> b == Some(true)
  {
    match b
    case Some(v) => v
    case None => false
  }
}
