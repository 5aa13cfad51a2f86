/**
 * The supplier list page: its state cells, the fetch effect keyed on the
 * filters and pagination, the guarded handlers, and the enablement of the
 * pagination buttons.
 */
module PemasokPage {
  import opened Wrappers
  import opened Http
  import Decimal
  import PemasokStore
  import PemasokForm
  import ListViews
  import JsText

  /** The dependencies of the fetch effect, which are also its arguments. */
  datatype FetchKey = FetchKey(jenis: string, nama: string, page: int, size: int)

  /** The query a fetch with these arguments sends. */
  function Query(k: FetchKey): seq<QueryParam> {
    PemasokStore.PemasokQuery(k.jenis, k.nama, k.page, k.size)
  }

  /** The effect re-runs, with the new arguments, exactly when a dependency changed. */
  function Refetch(before: FetchKey, after: FetchKey): (r: Option<seq<QueryParam>>)
    ensures r.Some? <==> before != after
    ensures r.Some? ==> Lookup(r.value, "jenisPemasok") == (if after.jenis != "" then Some(after.jenis) else None)
    ensures r.Some? ==> Lookup(r.value, "namaPemasok") == (if after.nama != "" then Some(after.nama) else None)
    ensures r.Some? ==> Lookup(r.value, "page") == Some(Decimal.IntToDecimal(after.page))
    ensures r.Some? ==> Lookup(r.value, "size") == Some(Decimal.IntToDecimal(after.size))
  {
    PemasokStore.PemasokQueryLookup(after.jenis, after.nama, after.page, after.size);
    if before == after then None else Some(Query(after))
  }

  /** `handlePageChange` applies a page only inside `[0, totalPages)`. */
  predicate PageAccepted(newPage: int, totalPages: int) {
    0 <= newPage < totalPages
  }

  /**
   * The view the page renders for the store's state: the `loading` and
   * `error` early returns, then the empty notice or the table.
   */
  function Screen(store: PemasokStore.Store): ListViews.ListScreen
    reads store`loading, store`error, store`pemasokList
  {
    ListViews.ListScreenFor(store.loading, store.error, |store.pemasokList|)
  }

  /** The pagination bar sits inside the table view and needs at least one page. */
  predicate PaginationShown(screen: ListViews.ListScreen, totalPages: int) {
    screen.Table? && totalPages >= 1
  }

  /**
   * The bar is on screen exactly when nothing is loading, the error is not
   * truthy, the list is non-empty and there is at least one page.
   */
  lemma PaginationShownWhen(store: PemasokStore.Store)
    ensures PaginationShown(Screen(store), store.totalPages) <==>
      !store.loading && !JsText.Truthy(store.error) && |store.pemasokList| > 0 && store.totalPages >= 1
  {
  }

  /** The Previous button is disabled on the first page. */
  predicate PrevDisabled(current: int) {
    current == 0
  }

  /** The Next button is disabled on the last page. */
  predicate NextDisabled(current: int, totalPages: int) {
    current == totalPages - 1
  }

  /** The one-based page number shown between the buttons, as in "Page n of totalPages". */
  function DisplayedPage(current: int): int {
    current + 1
  }

  /**
   * On an existing page the bar is shown whenever the table is, and its label
   * lies in `1..totalPages`; Previous is disabled exactly when the label is 1
   * and Next exactly when it is `totalPages`.
   */
  lemma DisplayedPageInRange(screen: ListViews.ListScreen, current: int, totalPages: int)
    requires 0 <= current < totalPages
    ensures PaginationShown(screen, totalPages) <==> screen.Table?
    ensures 1 <= DisplayedPage(current) <= totalPages
    ensures PrevDisabled(current) <==> DisplayedPage(current) == 1
    ensures NextDisabled(current, totalPages) <==> DisplayedPage(current) == totalPages
  {
  }

  /**
   * On a page inside the range, a button is enabled exactly when the page
   * change its click asks for would be accepted.
   */
  lemma NavigationAgrees(current: int, totalPages: int)
    requires 0 <= current < totalPages
    ensures !PrevDisabled(current) <==> PageAccepted(current - 1, totalPages)
    ensures !NextDisabled(current, totalPages) <==> PageAccepted(current + 1, totalPages)
  {
  }

  /** A fetch has begun on the store. */
  predicate Fetching(store: PemasokStore.Store)
    reads store`loading, store`error
  {
    store.loading && store.error == None
  }

  class Page {
    var isModalOpen: bool
    var editingPemasok: Option<PemasokStore.Pemasok>
    var isConfirmModalOpen: bool
    var pemasokToDeleteId: Option<int>
    var filterJenisPemasok: string
    var searchNamaPemasok: string
    var filterNamaPemasok: string
    var currentPage: int
    var itemsPerPage: int
    /** The store's `pageNumber` and `pageSize` the synchronising effect last saw. */
    var seenPageNumber: int
    var seenPageSize: int

    function Key(): FetchKey
      reads this`filterJenisPemasok, this`filterNamaPemasok, this`currentPage, this`itemsPerPage
    {
      FetchKey(filterJenisPemasok, filterNamaPemasok, currentPage, itemsPerPage)
    }

    /** The first render: closed dialogs, empty filters, pagination taken from the store. */
    constructor (store: PemasokStore.Store)
      ensures !isModalOpen && editingPemasok == None && !isConfirmModalOpen && pemasokToDeleteId == None
      ensures filterJenisPemasok == "" && searchNamaPemasok == "" && filterNamaPemasok == ""
      ensures currentPage == store.pageNumber && itemsPerPage == store.pageSize
      ensures seenPageNumber == store.pageNumber && seenPageSize == store.pageSize
    {
      isModalOpen := false;
      editingPemasok := None;
      isConfirmModalOpen := false;
      pemasokToDeleteId := None;
      filterJenisPemasok := "";
      searchNamaPemasok := "";
      filterNamaPemasok := "";
      currentPage := store.pageNumber;
      itemsPerPage := store.pageSize;
      seenPageNumber := store.pageNumber;
      seenPageSize := store.pageSize;
    }

    /** The fetch effect's first run, after mounting. */
    method Mount(store: PemasokStore.Store) returns (params: seq<QueryParam>)
      modifies store`loading, store`error
      ensures params == Query(Key())
      ensures Fetching(store)
    {
      var k := Key();
      params := store.BeginFetch(PemasokStore.FetchArgs(Some(k.jenis), Some(k.nama), Some(k.page), Some(k.size)));
    }

    /** The fetch effect after a render whose dependencies were `before`. */
    method Refresh(before: FetchKey, store: PemasokStore.Store) returns (params: Option<seq<QueryParam>>)
      modifies store`loading, store`error
      ensures params == Refetch(before, Key())
      ensures params.Some? ==> Fetching(store)
      ensures params.None? ==> store.loading == old(store.loading) && store.error == old(store.error)
    {
      var k := Key();
      if before == k {
        return None;
      }
      var q := store.BeginFetch(PemasokStore.FetchArgs(Some(k.jenis), Some(k.nama), Some(k.page), Some(k.size)));
      params := Some(q);
    }

    /** The effect that copies the store's pagination whenever the store's values change. */
    method SyncFromStore(store: PemasokStore.Store) returns (params: Option<seq<QueryParam>>)
      modifies this`currentPage, this`itemsPerPage, this`seenPageNumber, this`seenPageSize, store`loading, store`error
      ensures seenPageNumber == store.pageNumber && seenPageSize == store.pageSize
      ensures (old(seenPageNumber), old(seenPageSize)) != (store.pageNumber, store.pageSize) ==>
        currentPage == store.pageNumber && itemsPerPage == store.pageSize
      ensures (old(seenPageNumber), old(seenPageSize)) == (store.pageNumber, store.pageSize) ==>
        currentPage == old(currentPage) && itemsPerPage == old(itemsPerPage)
      ensures params == Refetch(old(Key()), Key())
      ensures params.Some? ==> Fetching(store)
      ensures params.None? ==> store.loading == old(store.loading) && store.error == old(store.error)
    {
      var before := Key();
      if (seenPageNumber, seenPageSize) != (store.pageNumber, store.pageSize) {
        currentPage := store.pageNumber;
        itemsPerPage := store.pageSize;
      }
      seenPageNumber := store.pageNumber;
      seenPageSize := store.pageSize;
      params := Refresh(before, store);
    }

    /** `handlePageChange`: the page moves only to an existing page. */
    method HandlePageChange(newPage: int, store: PemasokStore.Store) returns (params: Option<seq<QueryParam>>)
      modifies this`currentPage, store`loading, store`error
      ensures currentPage == (if PageAccepted(newPage, store.totalPages) then newPage else old(currentPage))
      ensures params.Some? <==> PageAccepted(newPage, store.totalPages) && newPage != old(currentPage)
      ensures params == Refetch(old(Key()), Key())
      ensures params.Some? ==> Fetching(store)
      ensures params.None? ==> store.loading == old(store.loading) && store.error == old(store.error)
    {
      var before := Key();
      if PageAccepted(newPage, store.totalPages) {
        currentPage := newPage;
      }
      params := Refresh(before, store);
    }

    /** `handleItemsPerPageChange`: a new page size always returns to the first page. */
    method HandleItemsPerPageChange(size: int, store: PemasokStore.Store) returns (params: Option<seq<QueryParam>>)
      modifies this`itemsPerPage, this`currentPage, store`loading, store`error
      ensures itemsPerPage == size && currentPage == 0
      ensures params == Refetch(old(Key()), Key())
      ensures params.Some? ==> Fetching(store)
      ensures params.None? ==> store.loading == old(store.loading) && store.error == old(store.error)
    {
      var before := Key();
      itemsPerPage := size;
      currentPage := 0;
      params := Refresh(before, store);
    }

    /** Typing into the search box changes only the uncommitted search text. */
    method SetSearchInput(s: string)
      modifies this`searchNamaPemasok
      ensures searchNamaPemasok == s
    {
      searchNamaPemasok := s;
    }

    /** `handleSearchKeyDown`: only Enter commits the search text to the fetch filter. */
    method HandleSearchKeyDown(key: string, store: PemasokStore.Store) returns (params: Option<seq<QueryParam>>)
      modifies this`filterNamaPemasok, store`loading, store`error
      ensures filterNamaPemasok == (if key == "Enter" then searchNamaPemasok else old(filterNamaPemasok))
      ensures params == Refetch(old(Key()), Key())
      ensures params.Some? ==> Fetching(store)
      ensures params.None? ==> store.loading == old(store.loading) && store.error == old(store.error)
    {
      var before := Key();
      if key == "Enter" {
        filterNamaPemasok := searchNamaPemasok;
      }
      params := Refresh(before, store);
    }

    /** Choosing a category in the filter select. */
    method SetFilterJenis(jenis: string, store: PemasokStore.Store) returns (params: Option<seq<QueryParam>>)
      modifies this`filterJenisPemasok, store`loading, store`error
      ensures filterJenisPemasok == jenis
      ensures params == Refetch(old(Key()), Key())
      ensures params.Some? ==> Fetching(store)
      ensures params.None? ==> store.loading == old(store.loading) && store.error == old(store.error)
    {
      var before := Key();
      filterJenisPemasok := jenis;
      params := Refresh(before, store);
    }

    /** `openModal`: edit the given record, or add a new one when none is given. */
    method OpenModal(p: Option<PemasokStore.Pemasok>)
      modifies this`editingPemasok, this`isModalOpen
      ensures editingPemasok == p && isModalOpen
    {
      editingPemasok := p;
      isModalOpen := true;
    }

    method CloseModal()
      modifies this`editingPemasok, this`isModalOpen
      ensures editingPemasok == None && !isModalOpen
    {
      isModalOpen := false;
      editingPemasok := None;
    }

    /** The form inside the modal submits; a closed form closes the modal. */
    method SubmitForm(form: PemasokForm.Form, store: PemasokStore.Store, reply: Reply<()>) returns (request: Option<PemasokForm.Request>)
      requires form.editing == editingPemasok
      modifies form`issues, store`loading, store`error, this`editingPemasok, this`isModalOpen
      ensures form.issues == PemasokForm.Issues(form.values)
      ensures request == PemasokForm.RequestFor(form.values, old(editingPemasok))
      ensures PemasokForm.Valid(form.values) ==> !isModalOpen && editingPemasok == None
      ensures PemasokForm.Valid(form.values) ==> store.loading == reply.Ok?
      ensures PemasokForm.Valid(form.values) ==> store.error == (if reply.Ok? then None
        else ErrorAfter(reply, PemasokForm.SaveFallback(old(editingPemasok))))
      ensures !PemasokForm.Valid(form.values) ==> isModalOpen == old(isModalOpen) && editingPemasok == old(editingPemasok)
      ensures !PemasokForm.Valid(form.values) ==> store.loading == old(store.loading) && store.error == old(store.error)
    {
      var closed;
      request, closed := form.Submit(store, reply);
      if closed {
        CloseModal();
      }
    }

    /** The first step of a delete: remember the id and ask for confirmation. */
    method HandleDeleteClick(id: int)
      modifies this`pemasokToDeleteId, this`isConfirmModalOpen
      ensures pemasokToDeleteId == Some(id) && isConfirmModalOpen
    {
      pemasokToDeleteId := Some(id);
      isConfirmModalOpen := true;
    }

    /** Confirming deletes the remembered supplier, then forgets it and closes the dialog. */
    method HandleConfirmDelete(store: PemasokStore.Store, reply: Reply<()>) returns (deleted: Option<int>, refetch: Option<seq<QueryParam>>)
      modifies this`pemasokToDeleteId, this`isConfirmModalOpen, store`loading, store`error
      ensures deleted == old(pemasokToDeleteId)
      ensures deleted.Some? ==> pemasokToDeleteId == None && !isConfirmModalOpen
      ensures deleted.Some? ==> (refetch.Some? <==> reply.Ok?)
      ensures deleted.Some? ==> store.loading == reply.Ok?
      ensures deleted.Some? && reply.Ok? ==>
        store.error == None && refetch == Some(PemasokStore.PemasokQuery("", "", PemasokStore.DefaultPage, PemasokStore.DefaultSize))
      ensures deleted.Some? && !reply.Ok? ==> store.error == ErrorAfter(reply, PemasokStore.DeleteFallback)
      ensures deleted.None? ==> pemasokToDeleteId == None && refetch == None && isConfirmModalOpen == old(isConfirmModalOpen)
      ensures deleted.None? ==> store.loading == old(store.loading) && store.error == old(store.error)
    {
      deleted := pemasokToDeleteId;
      refetch := None;
      if pemasokToDeleteId.Some? {
        refetch := store.DeletePemasok(pemasokToDeleteId.value, reply);
        isConfirmModalOpen := false;
        pemasokToDeleteId := None;
      }
    }

    /** Cancelling forgets the id and closes the dialog without deleting. */
    method HandleCancelDelete()
      modifies this`pemasokToDeleteId, this`isConfirmModalOpen
      ensures pemasokToDeleteId == None && !isConfirmModalOpen
    {
      isConfirmModalOpen := false;
      pemasokToDeleteId := None;
    }
  }
}
