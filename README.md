# Contact manager: a Dafny model of its client-side logic

This project models the logic of a browser contact manager, built as a React
app over a REST `/contacts` backend. It covers:

- the pagination arithmetic and dialog state of the contact list;
- the search and favourites filters in the global store;
- the toolbar handlers that write those filters and go back to page 1;
- how the API client builds its requests and turns responses into results or errors;
- the validation schema and submit payload of the create/edit dialog.

Rendering is not modelled. The network, the validation library's email regex
and the query/cache layer appear only as inputs.

Files, one module each:

- `wrappers.dfy` (`Wrappers`): `Option`, used for JavaScript's `null` and `undefined`.
- `js.dfy` (`Js`): the JavaScript built-ins the code relies on:
  - `Array.prototype.slice`, with negative indices counting from the back;
  - `String(n)` for integers;
  - `Number(x)` for a header value that may be `null`.
- `contacts.dfy` (`Contacts`): the contact record. Every key but `id` may be
  missing. An id-less `Details` record is the body of create and update requests.
- `api.dfy` (`Api`): `src/api/contactApi.js`. Requests are values
  (verb, path, ordered query pairs, body). Responses are inputs (ok flag,
  `X-Total-Count` header, parsed body).
- `store.dfy` (`Store`): `src/store/contactStore.js`. A class with the three
  store fields. Each setter is a shallow merge of a one-key patch.
- `form_modal.dfy` (`FormModal`): `src/components/ContactFormModal.jsx`. It has:
  - the schema as predicates;
  - the reset values and the edit/create payload;
  - a class for the dialog's form values and snackbar.
- `list_view.dfy` (`ListView`): the live component of
  `src/components/ContactListView.jsx` (lines 292-528). It has:
  - the derived pagination values as functions;
  - a class holding `currentPage`, `formOpen`, `editingContact`,
    `selectedContact`, the query's current result, and a log of the
    refetches and mutations the handlers ask for.
- `toolbar.dfy` (`Toolbar`): `src/components/ContactToolbar.jsx`. Each handler
  writes the store and then resets the list's page.

Facts about the code that the model keeps as they are:

- A phone number must have 10 to 20 characters after an optional `+`.
- `fetchContacts` never checks `response.ok`.
- A missing `X-Total-Count` header gives a total of 0.
- The favourite toggle re-sends six keys and drops `avatar`.
- Every successful form submit, create or edit, resets the page to 1.
- The detail dialog's Delete sends no delete request. It closes the dialog,
  goes back to page 1 and refetches the list.
- Nothing clamps a page that lies past the total: `ListView.VisibleRowsPastTotal`
  states what the list shows then.

## Model

| member | source | states |
|---|---|---|
| `Js.Slice` | contact-manager/src/components/ContactListView.jsx:310 | `slice(start, end)` resolves both bounds relative to the length. A negative bound counts from the back, and both are clamped to the length. The result is the elements between the resolved bounds, or empty. |
| `Js.SliceFromStartIsPrefix` | contact-manager/src/components/ContactListView.jsx:310 | `slice(0, end)` is a prefix of the array. Its length is `min(end, len)` for `end >= 0` and `max(len + end, 0)` for a negative `end`. |
| `Js.DecimalString` | contact-manager/src/api/contactApi.js:5 | `String(n)` for a non-negative integer is a non-empty run of digits with no leading zero. |
| `Js.IntToString` | contact-manager/src/api/contactApi.js:5 | `String(i)` reads back as `i`: for `i >= 0` it is a digit run whose decimal value is `i`, and for `i < 0` it is `-` followed by a digit run whose value is `-i`. |
| `Js.DecimalRoundTrip` | contact-manager/src/api/contactApi.js:5-13 | Reading the decimal spelling of `n` back as a number gives `n`. |
| `Js.HeaderNumber` | contact-manager/src/api/contactApi.js:11-13 | `Number(header)`: an absent header (`null`) and the empty string give 0, a run of digits gives its value, and any other text gives NaN. |
| `Js.HeaderNumberOfDecimal` | contact-manager/src/api/contactApi.js:11-13 | A header carrying the decimal spelling of `n` is read as exactly `n`. |
| `Contacts.WithoutId` | contact-manager/src/api/contactApi.js:26 | The rest of `{ id, ...rest }` holds every other field of the contact. Spreading the id back in gives the original contact. |
| `Contacts.WithId` | contact-manager/src/components/ContactFormModal.jsx:156 | `{ id, ...d }` carries the given id. `WithoutId` and `WithIdRoundTrip` show that it is the inverse of removing the id. |
| `Contacts.WithIdRoundTrip` | contact-manager/src/components/ContactFormModal.jsx:156 | `{ id, ...d }` carries the given id, and destructuring it again gives back exactly `d`. |
| `Contacts.StringOrEmpty` | contact-manager/src/components/ContactFormModal.jsx:138-141 | `x \|\| ""` is the string when there is one, otherwise `""`. |
| `Contacts.FlagOrFalse` | contact-manager/src/components/ContactFormModal.jsx:142 | `x \|\| false` is true exactly when the flag is present and true. |
| `Api.ListQuery` | contact-manager/src/api/contactApi.js:5-7 | The query has `_page` and then `_limit` first, and one more pair for each filter that is on. |
| `Api.ListQueryValues` | contact-manager/src/api/contactApi.js:5-7 | Under any key, the query holds the page for `_page`, `"10"` for `_limit`, the search for `q` when it is non-empty, and `"true"` for `favourite` when the filter is on, in that order. |
| `Api.ListQueryLookup` | contact-manager/src/api/contactApi.js:5-7 | The list query starts with `_page=String(page)` and then `_limit=10`. `q` holds the search exactly when the search is non-empty. `favourite=true` occurs exactly when the favourites filter is on. No other key occurs. |
| `Api.ListQueryOrder` | contact-manager/src/api/contactApi.js:5-7 | With both filters on, `q` comes right after the paging keys and `favourite` after `q`. |
| `Api.ListParams` | contact-manager/src/api/contactApi.js:5-7 | The parameters built by the in-place appends are exactly the list query. |
| `Api.FetchContacts` | contact-manager/src/api/contactApi.js:4-14 | It sends a GET of `/contacts` with the list query and no body. It resolves to the response body as the contacts and `Number(X-Total-Count)` as the total, whatever `ok` says. |
| `Api.TargetId` | contact-manager/src/api/contactApi.js:27 | A path read as one contact's path, `/contacts/{id}`, gives back that path when the id is re-spelled. |
| `Api.ContactPath` | contact-manager/src/api/contactApi.js:27-37 | `/contacts/${id}`: the path starts with `/contacts/` and the rest is exactly the id. |
| `Api.FailureMessage` | contact-manager/src/api/contactApi.js:22-40 | Each mutation has its own message: "Failed to create contact", "Failed to update contact" or "Failed to delete contact". Each message belongs to exactly one kind of mutation. |
| `Api.MutationRequest` | contact-manager/src/api/contactApi.js:16-39 | Create is a POST of `/contacts` with its argument as the body. Update is a PUT of `/contacts/{id}` whose body is the contact with `id` removed. Delete is a DELETE of `/contacts/{id}` with no body. None of them has a query. |
| `Api.MutationRequestTarget` | contact-manager/src/api/contactApi.js:26-38 | Update and delete address exactly their contact's id, and create addresses no single contact. Path id plus update body rebuild the updated contact. |
| `Api.MutationOutcome` | contact-manager/src/api/contactApi.js:22-40 | A mutation rejects exactly when the response is not OK, with that mutation's fixed message. Otherwise create and update resolve to the parsed body, and delete resolves to nothing. |
| `Store.Merge` | contact-manager/src/store/contactStore.js:8-10 | Merging a one-key patch sets the patched field to the new value and keeps the other two fields. |
| `Store.MergeIdempotent` | contact-manager/src/store/contactStore.js:8-10 | Applying a setter twice with the same value equals applying it once. |
| `Store.ContactStore.constructor` | contact-manager/src/store/contactStore.js:5-7 | The initial state is `search = ""`, `showFavorites = false`, `selectedContactId = null`. |
| `Store.ContactStore.Set` | contact-manager/src/store/contactStore.js:8-10 | The new state is the old state merged with the patch. |
| `Store.ContactStore.SetSearch` | contact-manager/src/store/contactStore.js:8 | `search` takes the value. The other two fields are unchanged. |
| `Store.ContactStore.SetShowFavorites` | contact-manager/src/store/contactStore.js:9 | `showFavorites` takes the value. The other two fields are unchanged. |
| `Store.ContactStore.SetSelectedContactId` | contact-manager/src/store/contactStore.js:10 | `selectedContactId` takes the value. The other two fields are unchanged. |
| `Toolbar.HandleSearchChange` | contact-manager/src/components/ContactToolbar.jsx:28-31 | The store's `search` becomes the typed text and `showFavorites` is unchanged. The list goes back to page 1, so the next query key is (1, text, old favourites flag). |
| `Toolbar.HandleFavoritesToggle` | contact-manager/src/components/ContactToolbar.jsx:34-37 | `showFavorites` becomes the switch's state and `search` is unchanged. The list goes back to page 1 and the next query key is (1, old search, flag). |
| `FormModal.PhoneAcceptedShape` | contact-manager/src/components/ContactFormModal.jsx:43-45 | An accepted phone has 10 to 21 characters. Every character is a digit, whitespace or `-`, except a `+`, which may stand only first. |
| `FormModal.PhoneRunAccepted` | contact-manager/src/components/ContactFormModal.jsx:43-45 | Any 10 to 20 digits, whitespace characters or hyphens are accepted, with or without a leading `+`. |
| `FormModal.NameAccepted` | contact-manager/src/components/ContactFormModal.jsx:41 | The name is non-empty and has 2 to 50 characters. |
| `FormModal.EmailAccepted` | contact-manager/src/components/ContactFormModal.jsx:42 | The email is non-empty, well-formed by the email test, and at most 100 characters. |
| `FormModal.PhoneAccepted` | contact-manager/src/components/ContactFormModal.jsx:43-45 | The phone is non-empty and matches `^[+]?[\d\s-]{10,20}$`, with `\s` as ECMAScript defines it. |
| `FormModal.AddressAccepted` | contact-manager/src/components/ContactFormModal.jsx:46 | The address is non-empty and has 10 to 200 characters. |
| `FormModal.PhoneRejections` | contact-manager/src/components/ContactFormModal.jsx:43-45 | Any string with a `+` after the first position is rejected. |
| `FormModal.ShortPhoneRejected` | contact-manager/src/components/ContactFormModal.jsx:43-45 | Any phone shorter than 10 characters, such as `"12"`, is rejected. |
| `FormModal.FieldErrors` | contact-manager/src/components/ContactFormModal.jsx:40-48 | A field has an error exactly when its rule fails. Name: non-empty, 2-50 characters. Email: non-empty, well-formed, at most 100 characters. Phone: matches the pattern. Address: non-empty, 10-200 characters. `favourite` never fails. |
| `FormModal.IsEditMode` | contact-manager/src/components/ContactFormModal.jsx:107 | `!!contact`: the dialog is in edit mode exactly when it is given a contact. |
| `FormModal.ResetValues` | contact-manager/src/components/ContactFormModal.jsx:134-148 | With a contact, each field takes the contact's value, or `""`/`false` where it is missing. Without one, the fields take the defaults: empty strings and `favourite = false`. |
| `FormModal.FormDetails` | contact-manager/src/components/ContactFormModal.jsx:154-156 | The submitted form data as a record holds its five values and no avatar. |
| `FormModal.SubmitPayload` | contact-manager/src/components/ContactFormModal.jsx:154-156 | It is an update exactly in edit mode, which is exactly when a contact is supplied. The update carries `contact.id` and otherwise exactly the form data. A create carries the form data unchanged. |
| `FormModal.HandleSubmit` | contact-manager/src/components/ContactFormModal.jsx:325 | A mutation is issued exactly when no field has an error, and it is the submit payload. |
| `FormModal.ShortPhoneIssuesNothing` | contact-manager/src/components/ContactFormModal.jsx:43-45 | A submission with phone `"12"` has a phone error and issues no mutation. |
| `FormModal.EditSubmitRequest` | contact-manager/src/components/ContactFormModal.jsx:154-156 | An edit submission becomes a PUT of `/contacts/{contact.id}` whose body is exactly the form data. |
| `FormModal.UnchangedEditRoundTrip` | contact-manager/src/components/ContactFormModal.jsx:134-156 | Opening a complete contact and submitting it unchanged sends the same contact back, without its avatar. |
| `FormModal.ContactForm.Submit` | contact-manager/src/components/ContactFormModal.jsx:325-326 | The submit button issues nothing while a create or an update is pending, so nothing is submitted twice. Otherwise it issues `HandleSubmit` of the form's current values. |
| `FormModal.ContactForm.Cancel` | contact-manager/src/components/ContactFormModal.jsx:306-310 | Cancel's click calls `onClose` exactly when no create or update is pending, and calls nothing while one is. Its `disabled` is `isLoading`, which is `creating \|\| updating` (line 175). |
| `FormModal.SuccessMessage` | contact-manager/src/components/ContactFormModal.jsx:157-159 | Plain definition: "Contact updated successfully!" in edit mode, "Contact added successfully!" otherwise. `ContactForm.MutationSucceeded` states where it is shown. |
| `FormModal.ContactForm.constructor` | contact-manager/src/components/ContactFormModal.jsx:121-131 | The form starts with the default values and a closed snackbar with severity "success". |
| `FormModal.ContactForm.OpenEffect` | contact-manager/src/components/ContactFormModal.jsx:134-148 | While open, the values are reset to the contact's values or to the defaults. While closed, they are untouched. |
| `FormModal.ContactForm.SetFavourite` | contact-manager/src/components/ContactFormModal.jsx:286 | The checkbox sets only the `favourite` value. |
| `FormModal.ContactForm.MutationSucceeded` | contact-manager/src/components/ContactFormModal.jsx:161-170 | The snackbar opens with the mode's success message. Then `onClose` is called, and then `onSuccess` only if one was given. |
| `FormModal.ContactForm.CloseSnackbar` | contact-manager/src/components/ContactFormModal.jsx:346 | The snackbar closes and keeps its message and severity. |
| `ListView.PageLimitIsPageSize` | contact-manager/src/api/contactApi.js:5 | The `_limit` the client sends is the page size of 10 that the list slices by (ContactListView.jsx lines 307-310). |
| `ListView.DisplayTotal` | contact-manager/src/components/ContactListView.jsx:306 | `data?.total \|\| 0`: 0 when there is no data or the total is 0 or NaN, otherwise the total. |
| `ListView.FetchedContacts` | contact-manager/src/components/ContactListView.jsx:305 | Plain definition of `data?.contacts \|\| []`. `ContactListView.Display` states that without data no row is shown. |
| `ListView.TotalPages` | contact-manager/src/components/ContactListView.jsx:307 | `ceil(total/10)`: the least `n` with `total <= 10n`. It is 0 exactly when the total is 0. |
| `ListView.LabelPages` | contact-manager/src/components/ContactListView.jsx:469 | `totalPages \|\| 1`: the page count, or 1 when it is 0. |
| `ListView.StartIndex` | contact-manager/src/components/ContactListView.jsx:308 | `startIdx = (currentPage - 1) * 10`. |
| `ListView.EndIndex` | contact-manager/src/components/ContactListView.jsx:309 | `Math.min(startIdx + 10, total)`: at most both operands and equal to one of them. |
| `ListView.VisibleRows` | contact-manager/src/components/ContactListView.jsx:310 | `contacts.slice(0, endIdx - startIdx)`: always a prefix of the fetched page. |
| `ListView.VisibleRowsWithinTotal` | contact-manager/src/components/ContactListView.jsx:308-310 | When `startIdx <= total`, the rows shown are a prefix of the fetched page. Its length is `min(\|contacts\|, min(startIdx+10, total) - startIdx)`, so at most 10 and at most `total - startIdx`. |
| `ListView.ConsistentPageShownWhole` | contact-manager/src/components/ContactListView.jsx:308-310 | A fetched page holding as many contacts as the total leaves for it is shown whole. |
| `ListView.VisibleRowsPastTotal` | contact-manager/src/components/ContactListView.jsx:308-310 | When the page starts past the total, the negative slice end drops `startIdx - total` rows from the end of the fetched page. |
| `ListView.TwentyFiveContacts` | contact-manager/src/components/ContactListView.jsx:307-310 | 25 contacts give 3 pages. Page 4 shows nothing of a fetched page of at most five contacts. |
| `ListView.FavouritePayload` | contact-manager/src/components/ContactListView.jsx:336-343 | The toggle payload has the same id, name, email, phone and address, the favourite flag negated, and no avatar. |
| `ListView.FavouriteToggleTwice` | contact-manager/src/components/ContactListView.jsx:336-343 | Toggling twice restores the contact, except for its avatar. |
| `ListView.FavouriteRequest` | contact-manager/src/components/ContactListView.jsx:333-347 | The toggle becomes a PUT of `/contacts/{id}` carrying the five copied fields and the flipped flag. |
| `ListView.ContactListView.constructor` | contact-manager/src/components/ContactListView.jsx:294-297 | It starts on page 1 with no form open, no contact edited or selected, no data and nothing requested. |
| `ListView.ContactListView.PreviousDisabled` | contact-manager/src/components/ContactListView.jsx:462 | Previous is disabled exactly on page 1. |
| `ListView.ContactListView.NextDisabled` | contact-manager/src/components/ContactListView.jsx:474 | Next is disabled exactly when `currentPage >= totalPages`. |
| `ListView.ContactListView.PageLabel` | contact-manager/src/components/ContactListView.jsx:469 | The label shows the current page, the page count (at least 1) and the total. |
| `ListView.ContactListView.Display` | contact-manager/src/components/ContactListView.jsx:398-403 | "Loading" shows exactly while loading. "No contacts found" shows exactly when not loading and no row is visible. The rows shown are a non-empty prefix of the fetched contacts, and at most 10 on a page that starts within the total. Without data, no row is ever shown. |
| `ListView.ContactListView.QueryKey` | contact-manager/src/components/ContactListView.jsx:299-303 | Plain definition: the current page and the store's two filters. The Toolbar handlers state the key after each change. |
| `ListView.ContactListView.ReceiveData` | contact-manager/src/components/ContactListView.jsx:299 | The query's new result replaces the data and nothing else. |
| `ListView.ContactListView.HandleNext` | contact-manager/src/components/ContactListView.jsx:312-316 | The page goes up by exactly 1 when Next is enabled (`currentPage < totalPages`) and is unchanged otherwise. It keeps `1 <= currentPage <= max(1, totalPages)`. |
| `ListView.ContactListView.HandlePrevious` | contact-manager/src/components/ContactListView.jsx:318-322 | The page goes down by exactly 1 when Previous is enabled (`currentPage != 1`) and is unchanged otherwise. It keeps `currentPage >= 1` and the page range. |
| `ListView.ContactListView.HandleAddClick` | contact-manager/src/components/ContactListView.jsx:324-327 | No contact is edited (create mode), and the form is open. |
| `ListView.ContactListView.HandleQuickView` | contact-manager/src/components/ContactListView.jsx:329-331 | The given contact becomes the selected one. |
| `ListView.ContactListView.CloseQuickView` | contact-manager/src/components/ContactListView.jsx:352 | No contact is selected. |
| `ListView.ContactListView.HandleToggleFavorite` | contact-manager/src/components/ContactListView.jsx:333-350 | Exactly one update of the favourite payload is requested, with a refetch on success. |
| `ListView.ContactListView.ResetPage` | contact-manager/src/components/ContactListView.jsx:384 | The toolbar's reset sets the page to 1. |
| `ListView.ContactListView.CloseForm` | contact-manager/src/components/ContactListView.jsx:500 | The form is closed. |
| `ListView.ContactListView.FormSucceeded` | contact-manager/src/components/ContactListView.jsx:502-506 | The form is closed, the page is 1 and exactly one refetch is requested. |
| `ListView.ContactListView.HandleFormNotify` | contact-manager/src/components/ContactListView.jsx:500-506 | `onClose` only closes the form. `onSuccess` also resets the page and refetches. |
| `ListView.ContactListView.FormMutationSucceeded` | contact-manager/src/components/ContactListView.jsx:498-506 | After a successful submit the form is closed, the page is 1, and one refetch is requested. The snackbar is open, with severity "success" and the message for the mode the list opened the form in. |
| `ListView.ContactListView.FormCancel` | contact-manager/src/components/ContactListView.jsx:498-500 | Cancel closes the form when no create or update is pending, and leaves it as it was while one is. |
| `ListView.ContactListView.DetailEdit` | contact-manager/src/components/ContactListView.jsx:514-518 | The contact becomes the edited one, the form opens in edit mode and the detail dialog closes. |
| `ListView.ContactListView.DetailDelete` | contact-manager/src/components/ContactListView.jsx:519-523 | The detail dialog closes, the page is 1, and only a refetch is requested. No delete is requested. |
| `ListView.EmptyResultScenario` | contact-manager/src/components/ContactListView.jsx:398-401 | An empty result gives total 0, "Page 1 of 1", "No contacts found", and both paging buttons disabled. |

## Left out

- The query/cache layer (`src/hooks/useContact.js`) is library behaviour and is
  not part of this model. That covers request deduplication, `staleTime`,
  `keepPreviousData`, invalidation of `['contacts']` and the `alert` on error.
  The list's query result is an input (`ReceiveData`), its key is a plain
  value (`QueryKey`), and refetches and mutations are entries in the list's
  effect log.
- Network I/O is not modelled: `fetch`, `response.json()`, the base URL
  `http://localhost:3001`, JSON serialisation and URLSearchParams
  percent-encoding. A response whose body is not JSON, or not an array for
  the list, is not modelled either.
- The email-syntax test of the validation library is a parameter
  (`emailSyntax`). Only its required and length rules are modelled.
- FormModal.FieldErrors: does not model which message each failing rule
  shows. It records only whether each field fails.
- FormModal.FieldErrors: counts string length in Unicode characters. JavaScript counts
  UTF-16 code units, so the two differ for characters outside the Basic
  Multilingual Plane.
- Js.HeaderNumber: models `Number(s)` only for `null`, `""` and runs of ASCII
  digits. Every other header text is modelled as NaN. JavaScript also accepts
  surrounding whitespace, a sign, a fraction, an exponent, hexadecimal/octal/binary
  and `Infinity`. It also gives the exact value of a digit run of any length,
  where JavaScript rounds values above 2^53 to the nearest double.
- The mutation-pending flags (`creating`, `updating`) come from the query
  layer and are inputs. The buttons' gating on them is modelled
  (`ContactForm.Submit`, `ContactForm.Cancel`). The spinner is not.
- Toolbar.HandleSearchChange, Toolbar.HandleFavoritesToggle: write the store
  before resetting the page, but the model states only the final state. Nothing
  can observe the order in between.
- Rendering, styling, transitions and snackbar timing are not modelled.
  That includes the dialog titles and button labels.
- `ContactDetailDialog.jsx`, `App.jsx` and `ContactsPage.jsx` are presentation and
  routing only and are not part of this model. The dialog's Edit and Delete
  callbacks are modelled on the list side.
- The commented-out earlier revision at the top of `ContactListView.jsx`
  (lines 1-265) is not modelled.
- Asynchronous ordering is not modelled: refetch timing, stale-while-revalidate
  and racing mutations.
