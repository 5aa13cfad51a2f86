/**
 * The product (produk) cache store: the fetched product list and the
 * request lifecycle flags, updated by fetch, add, update and delete.
 * Replies of the REST API are inputs (see Http.Reply).
 */
module ProdukStore {
  import opened Wrappers
  import opened Http
  import Decimal

  datatype JenisProduk = BahanPokok | Makanan | Minuman

  /** The wire name of a product category. */
  function JenisName(j: JenisProduk): string {
    match j
    case BahanPokok => "BahanPokok"
    case Makanan => "Makanan"
    case Minuman => "Minuman"
  }

  datatype Produk = Produk(
    id: int,
    namaProduk: string,
    harga: real,
    stok: int,
    jenisProduk: JenisProduk,
    pemasokId: int,
    namaPemasok: string,
    createdAt: string,
    updatedAt: string)

  /** The body of add/update: a product without its server-owned fields. */
  datatype ProdukInput = ProdukInput(namaProduk: string, harga: real, stok: int, jenisProduk: JenisProduk, pemasokId: int)

  /** The `pemasokId` filter: the empty string (its default) or a number. */
  datatype IdFilter = Blank | Id(n: int)

  /** The arguments of `fetchProduk`; None is an omitted argument. */
  datatype FetchArgs = FetchArgs(jenisProduk: Option<string>, pemasokId: Option<IdFilter>, namaProduk: Option<string>)

  const NoArgs := FetchArgs(None, None, None)

  const FetchFallback := "Failed to fetch produk data"
  const AddFallback := "Failed to add produk"
  const UpdateFallback := "Failed to update produk"
  const DeleteFallback := "Failed to delete produk"

  /** A `pemasokId` filter is sent iff it is truthy: a non-zero number. */
  predicate IdTruthy(f: IdFilter) {
    f.Id? && f.n != 0
  }

  /** Position of a key in the product query, used to state the order of the parameters. */
  function Rank(key: string): int {
    if key == "jenisProduk" then 0
    else if key == "pemasokId" then 1
    else if key == "namaProduk" then 2
    else 3
  }

  /**
   * The query of `GET /produk`: each filter only when it is truthy, in the
   * order jenisProduk, pemasokId, namaProduk, and no paging parameters.
   */
  function ProdukQuery(jenis: string, pemasokId: IdFilter, nama: string): (r: seq<QueryParam>)
    ensures |r| == (if jenis != "" then 1 else 0) + (if IdTruthy(pemasokId) then 1 else 0) + (if nama != "" then 1 else 0)
  {
    Filter("jenisProduk", jenis) + IdParam(pemasokId) + Filter("namaProduk", nama)
  }

  /** The `pemasokId` parameter, sent as decimal text only when truthy. */
  function IdParam(f: IdFilter): (r: seq<QueryParam>)
    ensures |r| == (if IdTruthy(f) then 1 else 0)
    ensures forall k :: Lookup(r, k) == (if IdTruthy(f) && k == "pemasokId" then Some(Decimal.IntToDecimal(f.n)) else None)
    ensures forall i :: 0 <= i < |r| ==> r[i].key == "pemasokId"
  {
    if IdTruthy(f) then [QueryParam("pemasokId", Decimal.IntToDecimal(f.n))] else []
  }

  /** Each filter is found with its value exactly when truthy, and no paging parameter ever is. */
  lemma ProdukQueryLookup(jenis: string, pemasokId: IdFilter, nama: string)
    ensures var r := ProdukQuery(jenis, pemasokId, nama);
      Lookup(r, "jenisProduk") == (if jenis != "" then Some(jenis) else None)
      && Lookup(r, "pemasokId") == (if IdTruthy(pemasokId) then Some(Decimal.IntToDecimal(pemasokId.n)) else None)
      && Lookup(r, "namaProduk") == (if nama != "" then Some(nama) else None)
      && Lookup(r, "page") == None && Lookup(r, "size") == None
  {
    var a, b, c := Filter("jenisProduk", jenis), IdParam(pemasokId), Filter("namaProduk", nama);
    assert ProdukQuery(jenis, pemasokId, nama) == a + b + c;
    LookupAppend(a, b, "jenisProduk");
    LookupAppend(a, b, "pemasokId");
    LookupAppend(a, b, "namaProduk");
    LookupAppend(a, b, "page");
    LookupAppend(a, b, "size");
    LookupAppend(a + b, c, "jenisProduk");
    LookupAppend(a + b, c, "pemasokId");
    LookupAppend(a + b, c, "namaProduk");
    LookupAppend(a + b, c, "page");
    LookupAppend(a + b, c, "size");
  }

  /** The parameters come in the fixed order jenisProduk, pemasokId, namaProduk. */
  lemma ProdukQueryOrdered(jenis: string, pemasokId: IdFilter, nama: string)
    ensures var r := ProdukQuery(jenis, pemasokId, nama);
      forall i, j :: 0 <= i < j < |r| ==> Rank(r[i].key) < Rank(r[j].key) < 3
  {
    var a, b, c := Filter("jenisProduk", jenis), IdParam(pemasokId), Filter("namaProduk", nama);
    var r := ProdukQuery(jenis, pemasokId, nama);
    assert r == a + b + c;
    forall i | 0 <= i < |r|
      ensures Rank(r[i].key) == (if i < |a| then 0 else if i < |a| + |b| then 1 else 2)
    {
      if i < |a| {
        assert r[i] == a[i];
      } else if i < |a| + |b| {
        assert r[i] == b[i - |a|];
      } else {
        assert r[i] == c[i - |a| - |b|];
      }
    }
  }

  /** The `URLSearchParams` of `fetchProduk`, appended to step by step. */
  method BuildProdukQuery(jenis: string, pemasokId: IdFilter, nama: string) returns (params: seq<QueryParam>)
    ensures params == ProdukQuery(jenis, pemasokId, nama)
  {
    params := [];
    if jenis != "" {
      params := params + [QueryParam("jenisProduk", jenis)];
    }
    if IdTruthy(pemasokId) {
      params := params + [QueryParam("pemasokId", Decimal.IntToDecimal(pemasokId.n))];
    }
    if nama != "" {
      params := params + [QueryParam("namaProduk", nama)];
    }
  }

  class Store {
    var produkList: seq<Produk>
    var loading: bool
    var error: Option<string>

    /** The initial state: no products, nothing in flight, no error. */
    constructor ()
      ensures produkList == [] && !loading && error == None
    {
      produkList, loading, error := [], false, None;
    }

    /** The synchronous start of `fetchProduk`: in flight, error cleared, query built. */
    method BeginFetch(args: FetchArgs) returns (params: seq<QueryParam>)
      modifies this`loading, this`error
      ensures loading && error == None
      ensures params == ProdukQuery(args.jenisProduk.GetOr(""), args.pemasokId.GetOr(Blank), args.namaProduk.GetOr(""))
    {
      loading, error := true, None;
      params := BuildProdukQuery(args.jenisProduk.GetOr(""), args.pemasokId.GetOr(Blank), args.namaProduk.GetOr(""));
    }

    /** The completion of `fetchProduk`: success replaces the list, anything else records the error. */
    method FinishFetch(reply: Reply<seq<Produk>>)
      modifies this`produkList, this`loading, this`error
      ensures !loading
      ensures reply.Ok? ==> produkList == reply.payload && error == old(error)
      ensures !reply.Ok? ==> produkList == old(produkList) && error == ErrorAfter(reply, FetchFallback)
    {
      match reply
      case Ok(list) =>
        produkList, loading := list, false;
      case _ =>
        error, loading := ErrorAfter(reply, FetchFallback), false;
    }

    /** `fetchProduk(args)` awaited to the end with the given reply. */
    method FetchProduk(args: FetchArgs, reply: Reply<seq<Produk>>) returns (params: seq<QueryParam>)
      modifies this`produkList, this`loading, this`error
      ensures params == ProdukQuery(args.jenisProduk.GetOr(""), args.pemasokId.GetOr(Blank), args.namaProduk.GetOr(""))
      ensures !loading
      ensures reply.Ok? ==> produkList == reply.payload && error == None
      ensures !reply.Ok? ==> produkList == old(produkList) && error == ErrorAfter(reply, FetchFallback)
    {
      params := BeginFetch(args);
      FinishFetch(reply);
    }

    /**
     * How every mutation ends: success fires `fetchProduk()` with no filters
     * (returned as the refetch's query); failure records the error.
     */
    method Settle(reply: Reply<()>, fallback: string) returns (refetch: Option<seq<QueryParam>>)
      modifies this`loading, this`error
      ensures refetch.Some? <==> reply.Ok?
      ensures reply.Ok? ==> refetch == Some([]) && loading && error == None
      ensures !reply.Ok? ==> !loading && error == ErrorAfter(reply, fallback)
    {
      if reply.Ok? {
        var params := BeginFetch(NoArgs);
        refetch := Some(params);
      } else {
        error, loading := ErrorAfter(reply, fallback), false;
        refetch := None;
      }
    }

    /** `addProduk(produk)`. */
    method AddProduk(produk: ProdukInput, reply: Reply<()>) returns (refetch: Option<seq<QueryParam>>)
      modifies this`loading, this`error
      ensures refetch.Some? <==> reply.Ok?
      ensures reply.Ok? ==> refetch == Some([]) && loading && error == None
      ensures !reply.Ok? ==> !loading && error == ErrorAfter(reply, AddFallback)
    {
      loading, error := true, None;
      refetch := Settle(reply, AddFallback);
    }

    /** `updateProduk(id, produk)`. */
    method UpdateProduk(id: int, produk: ProdukInput, reply: Reply<()>) returns (refetch: Option<seq<QueryParam>>)
      modifies this`loading, this`error
      ensures refetch.Some? <==> reply.Ok?
      ensures reply.Ok? ==> refetch == Some([]) && loading && error == None
      ensures !reply.Ok? ==> !loading && error == ErrorAfter(reply, UpdateFallback)
    {
      loading, error := true, None;
      refetch := Settle(reply, UpdateFallback);
    }

    /** `deleteProduk(id)`. */
    method DeleteProduk(id: int, reply: Reply<()>) returns (refetch: Option<seq<QueryParam>>)
      modifies this`loading, this`error
      ensures refetch.Some? <==> reply.Ok?
      ensures reply.Ok? ==> refetch == Some([]) && loading && error == None
      ensures !reply.Ok? ==> !loading && error == ErrorAfter(reply, DeleteFallback)
    {
      loading, error := true, None;
      refetch := Settle(reply, DeleteFallback);
    }
  }
}
