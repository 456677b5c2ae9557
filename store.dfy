/**
 * The process-wide UI store (src/store/contactStore.js): three fields, and
 * one setter per field, each of which calls the store's `set` with a
 * one-key object that is shallowly merged into the current state.
 */
module Store {
  import opened Wrappers

  /** A snapshot of the store's three fields. */
  datatype Filters = Filters(search: string, showFavorites: bool, selectedContactId: Option<string>)

  /** The one-key objects the setters pass to `set`. */
  datatype Patch =
    | SearchPatch(search: string)
    | FavoritesPatch(showFavorites: bool)
    | SelectedPatch(selectedContactId: Option<string>)

  /** The shallow merge `{ ...state, ...patch }`: the patched field takes the
      new value and the other two keep theirs. */
  function Merge(st: Filters, p: Patch): (r: Filters)
    ensures p.SearchPatch? ==>
      (r.search == p.search && r.showFavorites == st.showFavorites && r.selectedContactId == st.selectedContactId)
    ensures p.FavoritesPatch? ==>
      (r.showFavorites == p.showFavorites && r.search == st.search && r.selectedContactId == st.selectedContactId)
    ensures p.SelectedPatch? ==>
      (r.selectedContactId == p.selectedContactId && r.search == st.search && r.showFavorites == st.showFavorites)
  {
    match p
    case SearchPatch(s) => st.(search := s)
    case FavoritesPatch(b) => st.(showFavorites := b)
    case SelectedPatch(id) => st.(selectedContactId := id)
  }

  /** Applying the same patch twice is the same as applying it once. */
  lemma MergeIdempotent(st: Filters, p: Patch)
    ensures Merge(Merge(st, p), p) == Merge(st, p)
  {
  }

  /** The initial state of the store. */
  const InitialFilters := Filters("", false, None)

  class ContactStore {
    var search: string
    var showFavorites: bool
    var selectedContactId: Option<string>

    function State(): Filters
      reads this
    {
      Filters(search, showFavorites, selectedContactId)
    }

    constructor ()
      ensures State() == InitialFilters
      ensures search == "" && !showFavorites && selectedContactId == None
    {
      search := "";
      showFavorites := false;
      selectedContactId := None;
    }

    /** zustand's `set` with a one-key object. */
    method Set(p: Patch)
      modifies this
      ensures State() == Merge(old(State()), p)
    {
      match p
      case SearchPatch(s) => search := s;
      case FavoritesPatch(b) => showFavorites := b;
      case SelectedPatch(id) => selectedContactId := id;
    }

    method SetSearch(value: string)
      modifies this
      ensures search == value
      ensures showFavorites == old(showFavorites) && selectedContactId == old(selectedContactId)
    {
      Set(SearchPatch(value));
    }

    method SetShowFavorites(value: bool)
      modifies this
      ensures showFavorites == value
      ensures search == old(search) && selectedContactId == old(selectedContactId)
    {
      Set(FavoritesPatch(value));
    }

    method SetSelectedContactId(id: Option<string>)
      modifies this
      ensures selectedContactId == id
      ensures search == old(search) && showFavorites == old(showFavorites)
    {
      Set(SelectedPatch(id));
    }
  }
}
