/**
 * The toolbar above the list (src/components/ContactToolbar.jsx): each of
 * its two handlers writes one filter of the store and then calls the
 * list's `onResetPage`.
 */
module Toolbar {
  import Store
  import ListView

  /** The search field's onChange with the typed text. */
  method HandleSearchChange(store: Store.ContactStore, view: ListView.ContactListView, value: string)
    modifies store, view`currentPage
    ensures store.search == value
    ensures store.showFavorites == old(store.showFavorites)
    ensures store.selectedContactId == old(store.selectedContactId)
    ensures view.currentPage == 1 && view.Valid() && view.PageInRange()
    ensures view.QueryKey(store) == (1, value, old(store.showFavorites))
  {
    store.SetSearch(value);
    view.ResetPage();
  }

  /** The "Show Favourites" switch's onChange with its checked state. */
  method HandleFavoritesToggle(store: Store.ContactStore, view: ListView.ContactListView, checked: bool)
    modifies store, view`currentPage
    ensures store.showFavorites == checked
    ensures store.search == old(store.search)
    ensures store.selectedContactId == old(store.selectedContactId)
    ensures view.currentPage == 1 && view.Valid() && view.PageInRange()
    ensures view.QueryKey(store) == (1, old(store.search), checked)
  {
    store.SetShowFavorites(checked);
    view.ResetPage();
  }
}
