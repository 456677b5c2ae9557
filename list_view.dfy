/**
 * The contact list (src/components/ContactListView.jsx, the component at
 * lines 292-528): the pagination arithmetic it derives from the fetched
 * page, and the component's state (current page, form and detail dialogs)
 * as the event handlers overwrite it.
 */
module ListView {
  import opened Wrappers
  import opened Js
  import opened Contacts
  import opened Api
  import FormModal
  import Store

  const PageSize := 10

  // ---------------------------------------------------------------------
  // Derived values
  // ---------------------------------------------------------------------

  /** The `_limit` the list request sends is the spelling of the page size
      the list slices by. */
  lemma PageLimitIsPageSize()
    ensures PageLimit == DecimalString(PageSize)
  {
  }

  /** `data?.total || 0`: the total of the fetched result, or 0 while there
      is none and when the total is 0 or NaN. */
  function DisplayTotal(data: Option<PageResult>): (t: nat)
    ensures data.None? ==> t == 0
    ensures data.Some? && data.value.total.Truthy() ==> t == data.value.total.value
    ensures data.Some? && !data.value.total.Truthy() ==> t == 0
  {
    match data
    case None => 0
    case Some(p) => if p.total.Num? then p.total.value else 0
  }

  /** `data?.contacts || []`. */
  function FetchedContacts(data: Option<PageResult>): seq<Contact>
  {
    match data
    case None => []
    case Some(p) => p.contacts
  }

  /** `Math.ceil(total / 10)`: the number of pages of ten that hold `total`
      contacts. */
  function TotalPages(total: nat): (n: nat)
    ensures total <= n * PageSize
    ensures n > 0 ==> (n - 1) * PageSize < total
    ensures n == 0 <==> total == 0
  {
    (total + PageSize - 1) / PageSize
  }

  /** `totalPages || 1`: the page count the label shows. */
  function LabelPages(totalPages: nat): (n: nat)
    ensures n >= 1
    ensures totalPages > 0 ==> n == totalPages
    ensures totalPages == 0 ==> n == 1
  {
    if totalPages == 0 then 1 else totalPages
  }

  function StartIndex(page: int): int
  {
    (page - 1) * PageSize
  }

  /** `Math.min(startIdx + 10, total)`. */
  function EndIndex(page: int, total: nat): (e: int)
    ensures e <= StartIndex(page) + PageSize && e <= total
    ensures e == StartIndex(page) + PageSize || e == total
  {
    var s := StartIndex(page);
    if s + PageSize < total then s + PageSize else total
  }

  /** `contacts.slice(0, endIdx - startIdx)`: the rows of the fetched page
      that the list shows. */
  function VisibleRows(contacts: seq<Contact>, page: int, total: nat): (rows: seq<Contact>)
    ensures |rows| <= |contacts| && rows == contacts[..|rows|]
  {
    Slice(contacts, 0, EndIndex(page, total) - StartIndex(page))
  }

  /** On a page that starts within the total, the list shows a prefix of the
      fetched page: at most ten rows, and no more than the contacts left
      from the page's first index on. */
  lemma VisibleRowsWithinTotal(contacts: seq<Contact>, page: int, total: nat)
    requires page >= 1 && StartIndex(page) <= total
    ensures var want := EndIndex(page, total) - StartIndex(page);
      var k := if |contacts| < want then |contacts| else want;
      && 0 <= want
      && VisibleRows(contacts, page, total) == contacts[..k]
      && k <= PageSize
      && k <= total - StartIndex(page)
  {
  }

  /** When the fetched page has as many contacts as the total leaves for it,
      the list shows all of them. */
  lemma ConsistentPageShownWhole(contacts: seq<Contact>, page: int, total: nat)
    requires page >= 1 && StartIndex(page) <= total
    requires |contacts| == if total - StartIndex(page) < PageSize then total - StartIndex(page) else PageSize
    ensures VisibleRows(contacts, page, total) == contacts
  {
  }

  /** On a page that starts past the total, the slice end is negative and
      counts from the back: the list drops that many rows from the end of
      the fetched page (all of them when the page is short enough). */
  lemma VisibleRowsPastTotal(contacts: seq<Contact>, page: int, total: nat)
    requires StartIndex(page) > total
    ensures var drop := StartIndex(page) - total;
      VisibleRows(contacts, page, total) == contacts[..if |contacts| > drop then |contacts| - drop else 0]
  {
  }

  /** 25 contacts make three pages; a fourth page starts past the total, so
      a fetched page of up to five contacts shows nothing. */
  lemma TwentyFiveContacts(contacts: seq<Contact>)
    requires |contacts| <= 5
    ensures TotalPages(25) == 3
    ensures VisibleRows(contacts, 4, 25) == []
  {
  }

  /** The update the favourite toggle sends: the contact's id, name, email,
      phone and address, the favourite flag negated (`!undefined` is true),
      and nothing else, so no avatar. */
  function FavouritePayload(c: Contact): (p: Contact)
    ensures p.id == c.id && p.name == c.name && p.email == c.email
    ensures p.phone == c.phone && p.address == c.address
    ensures p.favourite.Some? && p.favourite.value != FlagOrFalse(c.favourite)
    ensures p.avatar == None
  {
    Contact(c.id, c.name, c.email, c.phone, c.address, Some(!FlagOrFalse(c.favourite)), None)
  }

  /** Toggling twice restores a contact's flag; only its avatar is lost. */
  lemma FavouriteToggleTwice(c: Contact)
    requires c.favourite.Some?
    ensures FavouritePayload(FavouritePayload(c)) == c.(avatar := None)
  {
  }

  /** The favourite toggle is a full replace of the contact's record at the
      contact's own path. */
  lemma FavouriteRequest(c: Contact)
    ensures MutationRequest(Update(FavouritePayload(c))) ==
      Request(PUT, ContactPath(c.id), [], Json(Details(c.name, c.email, c.phone, c.address,
                                                       Some(!FlagOrFalse(c.favourite)), None)))
  {
  }

  // ---------------------------------------------------------------------
  // The component
  // ---------------------------------------------------------------------

  /** What the list area shows. */
  datatype ListDisplay = Loading | NoContacts | Rows(rows: seq<Contact>)

  /** What the handlers ask of the query layer, in order. */
  datatype Effect =
    | Refetch
    | MutateThenRefetch(m: Mutation)   // a mutation whose success triggers a refetch

  class ContactListView {
    var currentPage: int
    var formOpen: bool
    var editingContact: Option<Contact>
    var selectedContact: Option<Contact>
    /** The result the contacts query currently holds. */
    var data: Option<PageResult>
    var effects: seq<Effect>

    /** The page never drops below the first. */
    ghost predicate Valid()
      reads this
    {
      currentPage >= 1
    }

    /** The page is one that exists, or the first when there are none. */
    ghost predicate PageInRange()
      reads this
    {
      1 <= currentPage <= LabelPages(PageCount())
    }

    constructor ()
      ensures Valid() && PageInRange()
      ensures currentPage == 1 && !formOpen
      ensures editingContact == None && selectedContact == None
      ensures data == None && effects == []
    {
      currentPage := 1;
      formOpen := false;
      editingContact := None;
      selectedContact := None;
      data := None;
      effects := [];
    }

    function Total(): nat
      reads this
    {
      DisplayTotal(data)
    }

    function PageCount(): nat
      reads this
    {
      TotalPages(Total())
    }

    function VisibleContacts(): seq<Contact>
      reads this
    {
      VisibleRows(FetchedContacts(data), currentPage, Total())
    }

    predicate PreviousDisabled()
      reads this
    {
      currentPage == 1
    }

    predicate NextDisabled()
      reads this
    {
      currentPage >= PageCount()
    }

    /** The label `Page {currentPage} of {totalPages || 1} (Total: {total}
        contacts)` as its three numbers. */
    function PageLabel(): (shown: (int, nat, nat))
      reads this
      ensures shown.0 == currentPage && shown.2 == Total()
      ensures shown.1 >= 1 && (PageCount() > 0 ==> shown.1 == PageCount())
    {
      (currentPage, LabelPages(PageCount()), Total())
    }

    /** Loading text, the empty text, or the visible rows. */
    function Display(isLoading: bool): (d: ListDisplay)
      reads this
      ensures d.Loading? <==> isLoading
      ensures d.NoContacts? <==> !isLoading && VisibleContacts() == []
      ensures d.Rows? ==> d.rows != [] && |d.rows| <= |FetchedContacts(data)| && d.rows == FetchedContacts(data)[..|d.rows|]
      ensures d.Rows? && StartIndex(currentPage) <= Total() ==> |d.rows| <= PageSize
      ensures data.None? ==> !d.Rows?
    {
      if isLoading then Loading
      else if |VisibleContacts()| == 0 then NoContacts
      else Rows(VisibleContacts())
    }

    /** The key the contacts query is fetched under. */
    function QueryKey(store: Store.ContactStore): (key: (int, string, bool))
      reads this, store
    {
      (currentPage, store.search, store.showFavorites)
    }

    /** The query layer delivers a (new) result. */
    method ReceiveData(d: Option<PageResult>)
      modifies this`data
      ensures data == d
    {
      data := d;
    }

    method HandleNext()
      requires Valid()
      modifies this`currentPage
      ensures Valid()
      ensures currentPage == if old(NextDisabled()) then old(currentPage) else old(currentPage) + 1
      ensures old(PageInRange()) ==> PageInRange()
    {
      if currentPage < PageCount() {
        currentPage := currentPage + 1;
      }
    }

    method HandlePrevious()
      requires Valid()
      modifies this`currentPage
      ensures Valid()
      ensures currentPage == if old(PreviousDisabled()) then old(currentPage) else old(currentPage) - 1
      ensures old(PageInRange()) ==> PageInRange()
    {
      if currentPage > 1 {
        currentPage := currentPage - 1;
      }
    }

    /** "+ ADD CONTACT": open the form in create mode. */
    method HandleAddClick()
      modifies this`editingContact, this`formOpen
      ensures editingContact == None && formOpen
      ensures !FormModal.IsEditMode(editingContact)
    {
      editingContact := None;
      formOpen := true;
    }

    method HandleQuickView(c: Contact)
      modifies this`selectedContact
      ensures selectedContact == Some(c)
    {
      selectedContact := Some(c);
    }

    method CloseQuickView()
      modifies this`selectedContact
      ensures selectedContact == None
    {
      selectedContact := None;
    }

    /** The star button: an update of the contact with its flag flipped,
        refetching on success. */
    method HandleToggleFavorite(c: Contact)
      modifies this`effects
      ensures effects == old(effects) + [MutateThenRefetch(Update(FavouritePayload(c)))]
    {
      effects := effects + [MutateThenRefetch(Update(FavouritePayload(c)))];
    }

    /** The toolbar's `onResetPage`. */
    method ResetPage()
      modifies this`currentPage
      ensures currentPage == 1
      ensures Valid() && PageInRange()
    {
      currentPage := 1;
    }

    /** The form's `onClose`. */
    method CloseForm()
      modifies this`formOpen
      ensures !formOpen
    {
      formOpen := false;
    }

    /** The form's `onSuccess`: close it, go back to the first page and
        refetch. */
    method FormSucceeded()
      modifies this`formOpen, this`currentPage, this`effects
      ensures !formOpen && currentPage == 1
      ensures Valid() && PageInRange()
      ensures effects == old(effects) + [Refetch]
    {
      formOpen := false;
      currentPage := 1;
      effects := effects + [Refetch];
    }

    method HandleFormNotify(n: FormModal.Notify)
      modifies this`formOpen, this`currentPage, this`effects
      ensures n.OnClose? ==> !formOpen && currentPage == old(currentPage) && effects == old(effects)
      ensures n.OnSuccess? ==> !formOpen && currentPage == 1 && effects == old(effects) + [Refetch]
    {
      match n
      case OnClose => CloseForm();
      case OnSuccess => FormSucceeded();
    }

    /** A click on the form's Cancel: the form stays open while a create or
        an update is pending, and closes otherwise. */
    method FormCancel(form: FormModal.ContactForm, creating: bool, updating: bool)
      modifies this`formOpen
      ensures formOpen == (old(formOpen) && FormModal.IsLoading(creating, updating))
    {
      var calls := form.Cancel(creating, updating);
      if FormModal.OnClose in calls {
        CloseForm();
      }
    }

    /** A submit of the form succeeds: the form runs its success callback,
        which calls this view's `onClose` and then its `onSuccess`. */
    method FormMutationSucceeded(form: FormModal.ContactForm)
      modifies this`formOpen, this`currentPage, this`effects, form`snackbar
      ensures !formOpen && currentPage == 1 && Valid()
      ensures effects == old(effects) + [Refetch]
      ensures form.snackbar == FormModal.Snackbar(true, FormModal.SuccessMessage(FormModal.IsEditMode(editingContact)), "success")
    {
      var calls := form.MutationSucceeded(editingContact, true);
      HandleFormNotify(calls[0]);
      HandleFormNotify(calls[1]);
    }

    /** The detail dialog's Edit: open the form on that contact and close
        the detail dialog. */
    method DetailEdit(c: Contact)
      modifies this`editingContact, this`formOpen, this`selectedContact
      ensures editingContact == Some(c) && formOpen && selectedContact == None
      ensures FormModal.IsEditMode(editingContact)
    {
      editingContact := Some(c);
      formOpen := true;
      CloseQuickView();
    }

    /** The detail dialog's Delete: close the dialog, go back to the first
        page and refetch. The id it is given is ignored and no delete
        request is issued. */
    method DetailDelete(id: string)
      modifies this`selectedContact, this`currentPage, this`effects
      ensures selectedContact == None && currentPage == 1
      ensures Valid() && PageInRange()
      ensures effects == old(effects) + [Refetch]
    {
      CloseQuickView();
      currentPage := 1;
      effects := effects + [Refetch];
    }
  }

  /** An empty result: total 0, no pages, "Page 1 of 1", the empty text, and
      both paging buttons disabled on the first page. */
  lemma EmptyResultScenario(v: ContactListView)
    requires v.data == Some(PageResult([], Num(0))) && v.currentPage == 1
    ensures v.Total() == 0 && v.PageCount() == 0
    ensures v.PageLabel() == (1, 1, 0)
    ensures v.Display(false) == NoContacts
    ensures v.PreviousDisabled() && v.NextDisabled()
  {
  }
}
