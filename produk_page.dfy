/**
 * The product list page: both list fetches on mount, the edit modal, the
 * two-step delete and which of its four views is rendered.
 */
module ProdukPage {
  import opened Wrappers
  import opened Http
  import ListViews
  import ProdukStore
  import PemasokStore
  import ProdukForm

  /** The view the page renders for the product store's state. */
  function Screen(store: ProdukStore.Store): ListViews.ListScreen
    reads store`loading, store`error, store`produkList
  {
    ListViews.ListScreenFor(store.loading, store.error, |store.produkList|)
  }

  class Page {
    var isModalOpen: bool
    var selectedProduk: Option<ProdukStore.Produk>
    var isConfirmModalOpen: bool
    var produkToDelete: Option<int>

    constructor ()
      ensures !isModalOpen && selectedProduk == None && !isConfirmModalOpen && produkToDelete == None
    {
      isModalOpen := false;
      selectedProduk := None;
      isConfirmModalOpen := false;
      produkToDelete := None;
    }

    /** The mount effect fetches every product and the first page of suppliers, without filters. */
    method Mount(produkStore: ProdukStore.Store, pemasokStore: PemasokStore.Store)
      returns (produkQuery: seq<QueryParam>, pemasokQuery: seq<QueryParam>)
      modifies produkStore`loading, produkStore`error, pemasokStore`loading, pemasokStore`error
      ensures produkQuery == [] && pemasokQuery == PemasokStore.PemasokQuery("", "", 0, 10)
      ensures produkStore.loading && produkStore.error == None
      ensures pemasokStore.loading && pemasokStore.error == None
    {
      produkQuery := produkStore.BeginFetch(ProdukStore.NoArgs);
      pemasokQuery := pemasokStore.BeginFetch(PemasokStore.NoArgs);
    }

    method OpenModal(p: Option<ProdukStore.Produk>)
      modifies this`selectedProduk, this`isModalOpen
      ensures selectedProduk == p && isModalOpen
    {
      selectedProduk := p;
      isModalOpen := true;
    }

    method CloseModal()
      modifies this`selectedProduk, this`isModalOpen
      ensures selectedProduk == None && !isModalOpen
    {
      isModalOpen := false;
      selectedProduk := None;
    }

    /** The form inside the modal submits; a closed form closes the modal. */
    method SubmitForm(form: ProdukForm.Form, store: ProdukStore.Store, reply: Reply<()>) returns (request: Option<ProdukForm.Request>)
      requires form.editing == selectedProduk
      modifies form`issues, store`loading, store`error, this`selectedProduk, this`isModalOpen
      ensures form.issues == ProdukForm.Issues(form.values)
      ensures request == ProdukForm.RequestFor(form.values, old(selectedProduk))
      ensures ProdukForm.Valid(form.values) ==> !isModalOpen && selectedProduk == None
      ensures ProdukForm.Valid(form.values) ==> store.loading == reply.Ok?
      ensures ProdukForm.Valid(form.values) ==> store.error == (if reply.Ok? then None
        else ErrorAfter(reply, ProdukForm.SaveFallback(old(selectedProduk))))
      ensures !ProdukForm.Valid(form.values) ==> isModalOpen == old(isModalOpen) && selectedProduk == old(selectedProduk)
      ensures !ProdukForm.Valid(form.values) ==> store.loading == old(store.loading) && store.error == old(store.error)
    {
      var closed;
      request, closed := form.Submit(store, reply);
      if closed {
        CloseModal();
      }
    }

    method HandleDeleteClick(id: int)
      modifies this`produkToDelete, this`isConfirmModalOpen
      ensures produkToDelete == Some(id) && isConfirmModalOpen
    {
      produkToDelete := Some(id);
      isConfirmModalOpen := true;
    }

    /** Confirming deletes the remembered product, then forgets it and closes the dialog. */
    method HandleConfirmDelete(store: ProdukStore.Store, reply: Reply<()>) returns (deleted: Option<int>, refetch: Option<seq<QueryParam>>)
      modifies this`produkToDelete, this`isConfirmModalOpen, store`loading, store`error
      ensures deleted == old(produkToDelete)
      ensures deleted.Some? ==> produkToDelete == None && !isConfirmModalOpen
      ensures deleted.Some? ==> (refetch.Some? <==> reply.Ok?)
      ensures deleted.Some? ==> store.loading == reply.Ok?
      ensures deleted.Some? && reply.Ok? ==> store.error == None && refetch == Some([])
      ensures deleted.Some? && !reply.Ok? ==> store.error == ErrorAfter(reply, ProdukStore.DeleteFallback)
      ensures deleted.None? ==> produkToDelete == None && refetch == None && isConfirmModalOpen == old(isConfirmModalOpen)
      ensures deleted.None? ==> store.loading == old(store.loading) && store.error == old(store.error)
    {
      deleted := produkToDelete;
      refetch := None;
      if produkToDelete.Some? {
        refetch := store.DeleteProduk(produkToDelete.value, reply);
        isConfirmModalOpen := false;
        produkToDelete := None;
      }
    }

    method HandleCancelDelete()
      modifies this`produkToDelete, this`isConfirmModalOpen
      ensures produkToDelete == None && !isConfirmModalOpen
    {
      isConfirmModalOpen := false;
      produkToDelete := None;
    }
  }
}
