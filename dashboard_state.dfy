/** The dashboard screen's state and the handlers that change it
    (src/pages/Dashboard.jsx). The HTTP calls are replaced by their
    outcomes, passed in by the caller; `window.confirm` by a boolean. */
module DashboardState {
  import opened JsValues
  import opened InventoryList

  class Dashboard {
    var electronics: seq<Item>
    var isLoading: bool
    var isRefreshing: bool
    var error: string
    var editingItem: Option<Item>
    var isModalOpen: bool
    var searchTerm: string

    /** The state on mount, before the first fetch has answered. */
    constructor ()
      ensures electronics == [] && isLoading && !isRefreshing && error == ""
      ensures editingItem == None && !isModalOpen && searchTerm == ""
    {
      electronics := [];
      isLoading := true;
      isRefreshing := false;
      error := "";
      editingItem := None;
      isModalOpen := false;
      searchTerm := "";
    }

    function CurrentScreen(): Screen
      reads this
    {
      ScreenFor(isLoading, error, electronics)
    }

    /** `fetchElectronics(showRefreshLoader)`: on mount, on "Try Again"
        (without the refresh loader), on "Refresh" and after an add (with it). */
    method FetchElectronics(showRefreshLoader: bool, outcome: FetchOutcome)
      modifies this
      ensures electronics == FetchedList(outcome, old(electronics))
      ensures error == FetchErrorMessage(outcome)
      ensures !isLoading && !isRefreshing
      ensures CurrentScreen().ListScreen?
      ensures editingItem == old(editingItem) && isModalOpen == old(isModalOpen)
      ensures searchTerm == old(searchTerm)
    {
      if showRefreshLoader {
        isRefreshing := true;
      } else {
        isLoading := true;
      }
      error := "";
      // the `try` block: only a 200 answer with a list replaces the list
      var failed := FetchFails(outcome);
      if !failed && outcome.status == 200 {
        match outcome.body {
          case Wrapped(rs) => electronics := NormaliseAll(rs);
          case Bare(rs) => electronics := NormaliseAll(rs);
        }
      }
      // the `catch` block: message by status, then the sample components
      if failed {
        error := FetchErrorMessage(outcome);
        electronics := SampleItems;
      }
      isLoading := false;
      isRefreshing := false;
      FetchNeverShowsErrorScreen(outcome, old(electronics));
    }

    /** `handleAddElectronics(data)`, called by the editor after a successful
        save: an edit overwrites the matching rows in place and ends the edit;
        an add reloads the whole list with the refresh loader. */
    method HandleAddElectronics(data: Submitted, reload: FetchOutcome)
      modifies this
      ensures old(editingItem).Some? ==>
        && electronics == UpdateById(old(electronics), old(editingItem).value.id, data)
        && editingItem == None
        && error == old(error) && isLoading == old(isLoading) && isRefreshing == old(isRefreshing)
      ensures old(editingItem).None? ==>
        && electronics == FetchedList(reload, old(electronics))
        && error == FetchErrorMessage(reload)
        && editingItem == None && !isLoading && !isRefreshing
      ensures isModalOpen == old(isModalOpen) && searchTerm == old(searchTerm)
    {
      if editingItem.Some? {
        electronics := UpdateById(electronics, editingItem.value.id, data);
        editingItem := None;
      } else {
        FetchElectronics(true, reload);
      }
    }

    /** `handleDelete(id)`: nothing happens unless the user confirms; a 200
        answer drops the rows with the id; an error answer keeps the list and
        sets the error text. Returns whether a request was sent. */
    method HandleDelete(id: Option<string>, confirmed: bool, outcome: DeleteOutcome) returns (requested: bool)
      modifies this
      ensures requested == confirmed
      ensures electronics ==
        if confirmed && outcome == DeleteResponded(200) then RemoveId(old(electronics), id) else old(electronics)
      ensures error == if confirmed && DeleteFails(outcome) then DeleteErrorMessage(outcome) else old(error)
      ensures isLoading == old(isLoading) && isRefreshing == old(isRefreshing)
      ensures editingItem == old(editingItem) && isModalOpen == old(isModalOpen) && searchTerm == old(searchTerm)
    {
      requested := confirmed;
      if confirmed {
        if DeleteFails(outcome) {
          error := DeleteErrorMessage(outcome);
        } else if outcome.status == 200 {
          electronics := RemoveId(electronics, id);
        }
      }
    }

    /** `handleEdit(item)`: open the editor on a row. */
    method HandleEdit(item: Item)
      modifies this
      ensures editingItem == Some(item) && isModalOpen
      ensures electronics == old(electronics) && error == old(error) && searchTerm == old(searchTerm)
      ensures isLoading == old(isLoading) && isRefreshing == old(isRefreshing)
    {
      editingItem := Some(item);
      isModalOpen := true;
    }

    /** The "Add Component" buttons: open the editor with no row. */
    method OpenAddModal()
      modifies this
      ensures editingItem == None && isModalOpen
      ensures electronics == old(electronics) && error == old(error) && searchTerm == old(searchTerm)
      ensures isLoading == old(isLoading) && isRefreshing == old(isRefreshing)
    {
      editingItem := None;
      isModalOpen := true;
    }

    /** The editor's `onClose`: close it and forget the edited row. */
    method CloseModal()
      modifies this
      ensures editingItem == None && !isModalOpen
      ensures electronics == old(electronics) && error == old(error) && searchTerm == old(searchTerm)
      ensures isLoading == old(isLoading) && isRefreshing == old(isRefreshing)
    {
      isModalOpen := false;
      editingItem := None;
    }

    /** The "×" on the error banner. */
    method DismissError()
      modifies this`error
      ensures error == ""
    {
      error := "";
    }

    /** Typing in the search box. */
    method SetSearchTerm(term: string)
      modifies this`searchTerm
      ensures searchTerm == term
    {
      searchTerm := term;
    }
  }
}
