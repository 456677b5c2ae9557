/**
 * The REST client of the contact manager (src/api/contactApi.js): how each
 * of its four calls builds its HTTP request, and how it turns the response
 * into a result or an error. The network itself is not modelled: a request
 * is a value, and the response it gets is an input.
 */
module Api {
  import opened Wrappers
  import opened Js
  import opened Contacts

  const ContactsPath := "/contacts"
  const ContactPathPrefix := "/contacts/"

  /** The page size the client always asks for. */
  const PageLimit := "10"

  const CreateFailed := "Failed to create contact"
  const UpdateFailed := "Failed to update contact"
  const DeleteFailed := "Failed to delete contact"

  datatype Verb = GET | POST | PUT | DELETE

  datatype Body = NoBody | Json(details: Details)

  /** An HTTP request relative to the fixed base URL; `query` is the
      URLSearchParams list in order, before percent-encoding. */
  datatype Request = Request(verb: Verb, path: string, query: seq<(string, string)>, body: Body)

  /** What the client reads from a response: `response.ok`, the
      `X-Total-Count` header (`None` when absent) and the parsed JSON body. */
  datatype Response<P> = Response(ok: bool, totalCount: Option<string>, payload: P)

  /** How an async call settles: with a value, or by throwing an Error. */
  datatype Outcome<T> = Resolved(value: T) | Rejected(message: string)

  /** What fetchContacts resolves to: `{ contacts, total }`. */
  datatype PageResult = PageResult(contacts: seq<Contact>, total: JsNumber)

  /** The three mutations, by the argument each API function takes. */
  datatype Mutation = Create(details: Details) | Update(contact: Contact) | Delete(id: string)

  // ---------------------------------------------------------------------
  // fetchContacts
  // ---------------------------------------------------------------------

  /** The query of the list request: `_page` and `_limit` always, then `q`
      for a non-empty search text, then `favourite=true` for the favourites
      filter. */
  function ListQuery(page: int, search: string, showFavorites: bool): (q: seq<(string, string)>)
    ensures |q| == 2 + (if search != "" then 1 else 0) + (if showFavorites then 1 else 0)
    ensures q[0] == ("_page", IntToString(page)) && q[1] == ("_limit", PageLimit)
  {
    [("_page", IntToString(page)), ("_limit", PageLimit)]
    + (if search != "" then [("q", search)] else [])
    + (if showFavorites then [("favourite", "true")] else [])
  }

  /** `params.getAll(key)`: the values stored under a key, in order. */
  function Values(params: seq<(string, string)>, key: string): seq<string>
  {
    if params == [] then []
    else (if params[0].0 == key then [params[0].1] else []) + Values(params[1..], key)
  }

  lemma {:induction false} ValuesAppend(a: seq<(string, string)>, b: seq<(string, string)>, key: string)
    ensures Values(a + b, key) == Values(a, key) + Values(b, key)
  {
    if a == [] {
      assert a + b == b;
    } else {
      assert (a + b)[1..] == a[1..] + b;
      ValuesAppend(a[1..], b, key);
    }
  }

  /** The values under one key of the list query, parameter by parameter. */
  lemma ListQueryValues(page: int, search: string, showFavorites: bool, key: string)
    ensures Values(ListQuery(page, search, showFavorites), key)
      == (if key == "_page" then [IntToString(page)] else [])
         + (if key == "_limit" then [PageLimit] else [])
         + (if search != "" && key == "q" then [search] else [])
         + (if showFavorites && key == "favourite" then ["true"] else [])
  {
    var pg, lim := [("_page", IntToString(page))], [("_limit", PageLimit)];
    var qs := if search != "" then [("q", search)] else [];
    var fs := if showFavorites then [("favourite", "true")] else [];
    assert ListQuery(page, search, showFavorites) == pg + lim + qs + fs;
    ValuesAppend(pg + lim + qs, fs, key);
    ValuesAppend(pg + lim, qs, key);
    ValuesAppend(pg, lim, key);
  }

  /** Each key of the list query carries exactly the values the client
      means it to, and no other key occurs. */
  lemma ListQueryLookup(page: int, search: string, showFavorites: bool, key: string)
    ensures var q := ListQuery(page, search, showFavorites);
      && q[0] == ("_page", IntToString(page))
      && q[1] == ("_limit", "10")
      && Values(q, "_page") == [IntToString(page)]
      && Values(q, "_limit") == ["10"]
      && Values(q, "q") == (if search != "" then [search] else [])
      && Values(q, "favourite") == (if showFavorites then ["true"] else [])
      && (key != "_page" && key != "_limit" && key != "q" && key != "favourite" ==> Values(q, key) == [])
  {
    ListQueryValues(page, search, showFavorites, key);
    ListQueryValues(page, search, showFavorites, "_page");
    ListQueryValues(page, search, showFavorites, "_limit");
    ListQueryValues(page, search, showFavorites, "q");
    ListQueryValues(page, search, showFavorites, "favourite");
  }

  /** When both filters are on, the search text comes before the
      favourites flag, right after the two paging parameters. */
  lemma ListQueryOrder(page: int, search: string)
    requires search != ""
    ensures ListQuery(page, search, true)[2..] == [("q", search), ("favourite", "true")]
  {
  }

  /** The list query as fetchContacts builds it, by appending to a
      URLSearchParams that starts out with `_page` and `_limit`. */
  method ListParams(page: int, search: string, showFavorites: bool) returns (params: seq<(string, string)>)
    ensures params == ListQuery(page, search, showFavorites)
  {
    params := [("_page", IntToString(page)), ("_limit", PageLimit)];
    if search != "" {
      params := params + [("q", search)];
    }
    if showFavorites {
      params := params + [("favourite", "true")];
    }
  }

  /** fetchContacts: the GET request it sends and what it resolves to for
      the given response. It never looks at `response.ok`: a failed
      response still yields its body as the contacts and its header as the
      total. */
  method FetchContacts(page: int, search: string, showFavorites: bool, response: Response<seq<Contact>>)
    returns (request: Request, result: PageResult)
    ensures request == Request(GET, ContactsPath, ListQuery(page, search, showFavorites), NoBody)
    ensures result.contacts == response.payload
    ensures result.total == HeaderNumber(response.totalCount)
  {
    var params := ListParams(page, search, showFavorites);
    request := Request(GET, ContactsPath, params, NoBody);
    result := PageResult(response.payload, HeaderNumber(response.totalCount));
  }

  // ---------------------------------------------------------------------
  // createContact, updateContact, deleteContact
  // ---------------------------------------------------------------------

  /** The path of one contact, `/contacts/${id}`. */
  function ContactPath(id: string): (p: string)
    ensures ContactPathPrefix <= p && p[|ContactPathPrefix|..] == id
  {
    ContactPathPrefix + id
  }

  /** The id a path addresses, if it is the path of one contact. */
  function TargetId(path: string): (r: Option<string>)
    ensures r.Some? ==> ContactPath(r.value) == path
  {
    if ContactPathPrefix <= path then Some(path[|ContactPathPrefix|..]) else None
  }

  /** The request each mutation sends. The update body is the contact with
      its `id` removed; create sends its argument as it is; delete has no
      body. */
  function MutationRequest(m: Mutation): (r: Request)
    ensures r.query == []
    ensures m.Create? ==> r.verb == POST && r.path == ContactsPath && r.body == Json(m.details)
    ensures m.Update? ==> r.verb == PUT && r.path == ContactPath(m.contact.id)
                          && r.body == Json(WithoutId(m.contact))
    ensures m.Delete? ==> r.verb == DELETE && r.path == ContactPath(m.id) && r.body == NoBody
  {
    match m
    case Create(d) => Request(POST, ContactsPath, [], Json(d))
    case Update(c) => Request(PUT, ContactPath(c.id), [], Json(WithoutId(c)))
    case Delete(id) => Request(DELETE, ContactPath(id), [], NoBody)
  }

  /** The update and delete requests address exactly the contact they are
      about, and the update request carries everything needed to rebuild
      the contact; the create request addresses the collection. */
  lemma MutationRequestTarget(m: Mutation)
    ensures m.Create? ==> TargetId(MutationRequest(m).path) == None
    ensures m.Delete? ==> TargetId(MutationRequest(m).path) == Some(m.id)
    ensures m.Update? ==> var r := MutationRequest(m);
      TargetId(r.path) == Some(m.contact.id) && WithId(TargetId(r.path).value, r.body.details) == m.contact
  {
  }

  /** The fixed message each mutation throws on a non-OK response. */
  function FailureMessage(m: Mutation): (msg: string)
    ensures msg == CreateFailed <==> m.Create?
    ensures msg == UpdateFailed <==> m.Update?
    ensures msg == DeleteFailed <==> m.Delete?
  {
    match m
    case Create(_) => CreateFailed
    case Update(_) => UpdateFailed
    case Delete(_) => DeleteFailed
  }

  /** How a mutation settles: a non-OK response becomes an Error with the
      mutation's message; otherwise create and update resolve to the parsed
      body and delete to `undefined` (`None`). */
  function MutationOutcome(m: Mutation, response: Response<Contact>): (r: Outcome<Option<Contact>>)
    ensures r.Rejected? <==> !response.ok
    ensures r.Rejected? ==> r.message == FailureMessage(m)
    ensures r.Resolved? && m.Delete? ==> r.value == None
    ensures r.Resolved? && !m.Delete? ==> r.value == Some(response.payload)
  {
    if !response.ok then Rejected(FailureMessage(m))
    else if m.Delete? then Resolved(None)
    else Resolved(Some(response.payload))
  }
}
