/**
 * The supplier (pemasok) cache store: the last fetched page of suppliers,
 * the supplier shown on the detail page, the request lifecycle flags and
 * the pagination metadata, updated by fetch, add, update and delete.
 * Replies of the REST API are inputs (see Http.Reply).
 */
module PemasokStore {
  import opened Wrappers
  import opened Http
  import Decimal
  import JsText

  datatype JenisPemasok = Yayasan | PT | CV | Bumdes
  datatype Status = Pending | Approve | Reject

  datatype Pemasok = Pemasok(
    id: int,
    namaPemasok: string,
    nik: string,
    alamat: string,
    telepon: string,
    jenisPemasok: JenisPemasok,
    latitude: Option<real>,
    longitude: Option<real>,
    createdAt: string,
    updatedAt: string,
    logoUrl: Option<string>,
    status: Status,
    email: string)

  /** The `data` of a successful list reply: one page of suppliers and its metadata. */
  datatype Paged = Paged(content: seq<Pemasok>, number: int, size: int, totalElements: int, totalPages: int)

  /** The arguments of `fetchPemasok`; None is an omitted argument. */
  datatype FetchArgs = FetchArgs(jenisPemasok: Option<string>, namaPemasok: Option<string>, page: Option<int>, size: Option<int>)

  /** `fetchPemasok()` called with no arguments, as the refetch after a mutation does. */
  const NoArgs := FetchArgs(None, None, None, None)

  const DefaultPage := 0
  const DefaultSize := 10

  const FetchFallback := "Failed to fetch pemasok data"
  const DetailFallback := "Failed to fetch pemasok details"
  const AddFallback := "Failed to add pemasok"
  const UpdateFallback := "Failed to update pemasok"
  const DeleteFallback := "Failed to delete pemasok"

  /** Position of a key in the supplier query, used to state the order of the parameters. */
  function Rank(key: string): int {
    if key == "jenisPemasok" then 0
    else if key == "namaPemasok" then 1
    else if key == "page" then 2
    else if key == "size" then 3
    else 4
  }

  /**
   * The query of `GET /pemasok`: the two filters only when non-empty, then
   * `page` and `size`, always, last and in that order.
   */
  function PemasokQuery(jenis: string, nama: string, page: int, size: int): (r: seq<QueryParam>)
    ensures |r| == 2 + (if jenis != "" then 1 else 0) + (if nama != "" then 1 else 0)
    ensures r[|r| - 2] == QueryParam("page", Decimal.IntToDecimal(page))
    ensures r[|r| - 1] == QueryParam("size", Decimal.IntToDecimal(size))
  {
    Filter("jenisPemasok", jenis) + Filter("namaPemasok", nama)
    + [QueryParam("page", Decimal.IntToDecimal(page)), QueryParam("size", Decimal.IntToDecimal(size))]
  }

  /** Each filter is found with its value exactly when set, and `page` and `size` always are. */
  lemma PemasokQueryLookup(jenis: string, nama: string, page: int, size: int)
    ensures var r := PemasokQuery(jenis, nama, page, size);
      Lookup(r, "jenisPemasok") == (if jenis != "" then Some(jenis) else None)
      && Lookup(r, "namaPemasok") == (if nama != "" then Some(nama) else None)
      && Lookup(r, "page") == Some(Decimal.IntToDecimal(page))
      && Lookup(r, "size") == Some(Decimal.IntToDecimal(size))
  {
    var a, b := Filter("jenisPemasok", jenis), Filter("namaPemasok", nama);
    var c := [QueryParam("page", Decimal.IntToDecimal(page)), QueryParam("size", Decimal.IntToDecimal(size))];
    assert PemasokQuery(jenis, nama, page, size) == a + b + c;
    LookupAppend(a, b, "jenisPemasok");
    LookupAppend(a, b, "namaPemasok");
    LookupAppend(a + b, c, "jenisPemasok");
    LookupAppend(a + b, c, "namaPemasok");
    LookupAppend(a + b, c, "page");
    LookupAppend(a + b, c, "size");
  }

  /** The parameters come in the fixed order jenisPemasok, namaPemasok, page, size. */
  lemma PemasokQueryOrdered(jenis: string, nama: string, page: int, size: int)
    ensures var r := PemasokQuery(jenis, nama, page, size);
      forall i, j :: 0 <= i < j < |r| ==> Rank(r[i].key) < Rank(r[j].key) < 4
  {
    var a, b := Filter("jenisPemasok", jenis), Filter("namaPemasok", nama);
    var c := [QueryParam("page", Decimal.IntToDecimal(page)), QueryParam("size", Decimal.IntToDecimal(size))];
    var r := PemasokQuery(jenis, nama, page, size);
    assert r == a + b + c;
    forall i | 0 <= i < |r|
      ensures Rank(r[i].key) == (if i < |a| then 0 else if i < |a| + |b| then 1 else 2 + (i - |a| - |b|))
    {
      if i < |a| {
        assert r[i] == a[i];
      } else if i < |a| + |b| {
        assert r[i] == b[i - |a|];
      } else {
        assert r[i] == c[i - |a| - |b|];
      }
    }
  }

  /** The `URLSearchParams` of `fetchPemasok`, appended to step by step. */
  method BuildPemasokQuery(jenis: string, nama: string, page: int, size: int) returns (params: seq<QueryParam>)
    ensures params == PemasokQuery(jenis, nama, page, size)
  {
    params := [];
    if jenis != "" {
      params := params + [QueryParam("jenisPemasok", jenis)];
    }
    if nama != "" {
      params := params + [QueryParam("namaPemasok", nama)];
    }
    params := params + [QueryParam("page", Decimal.IntToDecimal(page))];
    params := params + [QueryParam("size", Decimal.IntToDecimal(size))];
  }

  // ---------------------------------------------------------------------------
  // The multipart body of addPemasok / updatePemasok

  /** A `File` chosen in a file input. */
  datatype FileRef = FileRef(name: string)

  /**
   * The value of one property of the object handed to add/update. Non-file
   * values are given as the text `String(value)` produces for them.
   */
  datatype DataValue = Null | Undefined | Text(text: string) | Upload(file: FileRef)

  /** One own enumerable property of that object, in `for...in` order. */
  datatype FormEntry = FormEntry(key: string, value: DataValue)

  /** One `FormData.append(name, value)`. */
  datatype FormPart = StringPart(name: string, text: string) | FilePart(name: string, file: FileRef)

  predicate Present(v: DataValue) {
    !v.Null? && !v.Undefined?
  }

  /** JavaScript truthiness of a present value: files always, strings when non-empty. */
  predicate IsTruthy(v: DataValue) {
    match v
    case Null => false
    case Undefined => false
    case Text(s) => s != ""
    case Upload(_) => true
  }

  /** `String(value)` of a present value; a File other than `logoFile` would print as an object. */
  function Stringify(v: DataValue): string
    requires Present(v)
  {
    match v
    case Text(s) => s
    case Upload(_) => "[object File]"
  }

  /** What one loop iteration appends: nothing, a `logo` part for the file, or the entry under its own key. */
  function Appended(e: FormEntry): (r: seq<FormPart>)
    ensures |r| <= 1
    ensures forall p :: p in r ==> p.name != "logoFile" && Present(e.value)
    ensures forall p :: p in r ==> (p.name == "logo" <==> e.key == "logoFile" || e.key == "logo")
  {
    if !Present(e.value) then []
    else if e.key == "logoFile" && IsTruthy(e.value) then
      (match e.value
       case Upload(f) => [FilePart("logo", f)]
       case Text(s) => [StringPart("logo", s)])
    else if e.key != "logoFile" then [StringPart(e.key, Stringify(e.value))]
    else []
  }

  /** The parts the loop appends for the entries, in iteration order. */
  function FormParts(entries: seq<FormEntry>): seq<FormPart> {
    if entries == [] then []
    else FormParts(entries[..|entries| - 1]) + Appended(entries[|entries| - 1])
  }

  /** The `for...in` loop of addPemasok and updatePemasok that fills the `FormData`. */
  method BuildFormData(data: seq<FormEntry>) returns (parts: seq<FormPart>)
    ensures parts == FormParts(data)
  {
    parts := [];
    var i := 0;
    while i < |data|
      invariant 0 <= i <= |data|
      invariant parts == FormParts(data[..i])
    {
      var e := data[i];
      if e.value != Null && e.value != Undefined {
        if e.key == "logoFile" && IsTruthy(e.value) {
          match e.value
          case Upload(f) => parts := parts + [FilePart("logo", f)];
          case Text(s) => parts := parts + [StringPart("logo", s)];
        } else if e.key != "logoFile" {
          parts := parts + [StringPart(e.key, Stringify(e.value))];
        }
      }
      assert data[..i + 1][..i] == data[..i];
      i := i + 1;
    }
    assert data[..i] == data;
  }

  /** The loop keeps iteration order: the parts of a concatenation are concatenated. */
  lemma {:induction false} FormPartsAppend(a: seq<FormEntry>, b: seq<FormEntry>)
    ensures FormParts(a + b) == FormParts(a) + FormParts(b)
    decreases |b|
  {
    if b == [] {
      assert a + b == a;
    } else {
      var b', last := b[..|b| - 1], b[|b| - 1];
      assert (a + b)[..|a + b| - 1] == a + b';
      assert (a + b)[|a + b| - 1] == last;
      assert FormParts(a + b) == FormParts(a + b') + Appended(last);
      assert FormParts(b) == FormParts(b') + Appended(last);
      FormPartsAppend(a, b');
    }
  }

  /** Every part of the body was appended by the iteration of some entry, returned as `i`. */
  lemma {:induction false} FormPartSource(entries: seq<FormEntry>, p: FormPart) returns (i: int)
    requires p in FormParts(entries)
    ensures 0 <= i < |entries| && p in Appended(entries[i])
    decreases |entries|
  {
    var init := entries[..|entries| - 1];
    if p in FormParts(init) {
      i := FormPartSource(init, p);
      assert entries[i] == init[i];
    } else {
      i := |entries| - 1;
    }
  }

  /** Whatever the iteration of an entry appends is in the body. */
  lemma {:induction false} FormPartSent(entries: seq<FormEntry>, i: int, p: FormPart)
    requires 0 <= i < |entries| && p in Appended(entries[i])
    ensures p in FormParts(entries)
    decreases |entries|
  {
    var init := entries[..|entries| - 1];
    if i < |init| {
      assert init[i] == entries[i];
      FormPartSent(init, i, p);
    }
  }

  /** A part is in the body exactly when the iteration of one entry appended it. */
  lemma FormPartsMember(entries: seq<FormEntry>, p: FormPart)
    ensures p in FormParts(entries) <==> exists i :: 0 <= i < |entries| && p in Appended(entries[i])
  {
    if p in FormParts(entries) {
      var i := FormPartSource(entries, p);
    }
    if exists i :: 0 <= i < |entries| && p in Appended(entries[i]) {
      var i :| 0 <= i < |entries| && p in Appended(entries[i]);
      FormPartSent(entries, i, p);
    }
  }

  /** The body never carries a `logoFile` part, and every part comes from a present (non-null) value. */
  lemma NoLogoFilePart(entries: seq<FormEntry>, p: FormPart)
    requires p in FormParts(entries)
    ensures p.name != "logoFile"
    ensures exists i :: 0 <= i < |entries| && Present(entries[i].value) && p in Appended(entries[i])
  {
    FormPartsMember(entries, p);
  }

  /** A `logoFile` set to a file (or non-empty text) is sent as a `logo` part carrying that file (or text). */
  lemma LogoFileSent(entries: seq<FormEntry>, i: int)
    requires 0 <= i < |entries| && entries[i].key == "logoFile" && IsTruthy(entries[i].value)
    ensures entries[i].value.Upload? ==> FilePart("logo", entries[i].value.file) in FormParts(entries)
    ensures entries[i].value.Text? ==> StringPart("logo", entries[i].value.text) in FormParts(entries)
  {
    FormPartSent(entries, i, Appended(entries[i])[0]);
  }

  /**
   * When the object has no property literally named `logo`, a `logo` part
   * can only come from a `logoFile` set to a file (or non-empty text).
   */
  lemma LogoPartFromLogoFile(entries: seq<FormEntry>, p: FormPart) returns (i: int)
    requires forall k :: 0 <= k < |entries| ==> entries[k].key != "logo"
    requires p in FormParts(entries) && p.name == "logo"
    ensures 0 <= i < |entries| && entries[i].key == "logoFile" && IsTruthy(entries[i].value)
  {
    FormPartsMember(entries, p);
    i :| 0 <= i < |entries| && p in Appended(entries[i]);
    FromLogoEntry(entries[i], p);
  }

  lemma FromLogoEntry(e: FormEntry, p: FormPart)
    requires e.key != "logo" && p in Appended(e) && p.name == "logo"
    ensures e.key == "logoFile" && IsTruthy(e.value)
  {
  }

  /** A present entry under any key but `logoFile` is sent under its own name with its text. */
  lemma KeptEntry(entries: seq<FormEntry>, i: int)
    requires 0 <= i < |entries| && Present(entries[i].value) && entries[i].key != "logoFile"
    ensures StringPart(entries[i].key, Stringify(entries[i].value)) in FormParts(entries)
  {
    FormPartsMember(entries, StringPart(entries[i].key, Stringify(entries[i].value)));
  }

  // ---------------------------------------------------------------------------
  // The store

  class Store {
    var pemasokList: seq<Pemasok>
    var selectedPemasok: Option<Pemasok>
    var loading: bool
    var error: Option<string>
    var pageNumber: int
    var pageSize: int
    var totalElements: int
    var totalPages: int

    /** The initial state: nothing loaded, first page of ten, no totals. */
    constructor ()
      ensures pemasokList == [] && selectedPemasok == None && !loading && error == None
      ensures pageNumber == DefaultPage && pageSize == DefaultSize && totalElements == 0 && totalPages == 0
    {
      pemasokList, selectedPemasok, loading, error := [], None, false, None;
      pageNumber, pageSize, totalElements, totalPages := DefaultPage, DefaultSize, 0, 0;
    }

    /**
     * The synchronous start of `fetchPemasok`: the request is marked in flight,
     * the error cleared, and the query built from the arguments, an omitted
     * argument taking its default.
     */
    method BeginFetch(args: FetchArgs) returns (params: seq<QueryParam>)
      modifies this`loading, this`error
      ensures loading && error == None
      ensures params == PemasokQuery(args.jenisPemasok.GetOr(""), args.namaPemasok.GetOr(""),
                                     args.page.GetOr(DefaultPage), args.size.GetOr(DefaultSize))
    {
      loading, error := true, None;
      params := BuildPemasokQuery(args.jenisPemasok.GetOr(""), args.namaPemasok.GetOr(""),
                                  args.page.GetOr(DefaultPage), args.size.GetOr(DefaultSize));
    }

    /**
     * The completion of `fetchPemasok`: a successful reply replaces the list and
     * the four pagination fields; any other reply leaves them and records the error.
     */
    method FinishFetch(reply: Reply<Paged>)
      modifies this`pemasokList, this`pageNumber, this`pageSize, this`totalElements, this`totalPages,
               this`loading, this`error
      ensures !loading
      ensures reply.Ok? ==> var page := reply.payload;
        pemasokList == page.content && pageNumber == page.number && pageSize == page.size
        && totalElements == page.totalElements && totalPages == page.totalPages && error == old(error)
      ensures !reply.Ok? ==>
        pemasokList == old(pemasokList) && pageNumber == old(pageNumber) && pageSize == old(pageSize)
        && totalElements == old(totalElements) && totalPages == old(totalPages)
        && error == ErrorAfter(reply, FetchFallback)
    {
      match reply
      case Ok(page) =>
        pemasokList, pageNumber, pageSize := page.content, page.number, page.size;
        totalElements, totalPages := page.totalElements, page.totalPages;
        loading := false;
      case _ =>
        error, loading := ErrorAfter(reply, FetchFallback), false;
    }

    /** `fetchPemasok(args)` awaited to the end with the given reply. */
    method FetchPemasok(args: FetchArgs, reply: Reply<Paged>) returns (params: seq<QueryParam>)
      modifies this`pemasokList, this`pageNumber, this`pageSize, this`totalElements, this`totalPages,
               this`loading, this`error
      ensures params == PemasokQuery(args.jenisPemasok.GetOr(""), args.namaPemasok.GetOr(""),
                                     args.page.GetOr(DefaultPage), args.size.GetOr(DefaultSize))
      ensures !loading
      ensures reply.Ok? ==> var page := reply.payload;
        pemasokList == page.content && pageNumber == page.number && pageSize == page.size
        && totalElements == page.totalElements && totalPages == page.totalPages && error == None
      ensures !reply.Ok? ==>
        pemasokList == old(pemasokList) && pageNumber == old(pageNumber) && pageSize == old(pageSize)
        && totalElements == old(totalElements) && totalPages == old(totalPages)
        && error == ErrorAfter(reply, FetchFallback)
    {
      params := BeginFetch(args);
      FinishFetch(reply);
    }

    /**
     * `fetchPemasokById(id)`: the selection is cleared before the request and
     * set only by a successful reply.
     */
    method FetchPemasokById(id: string, reply: Reply<Pemasok>)
      modifies this`selectedPemasok, this`loading, this`error
      ensures !loading
      ensures selectedPemasok == (if reply.Ok? then Some(reply.payload) else None)
      ensures error == (if reply.Ok? then None else ErrorAfter(reply, DetailFallback))
    {
      loading, error, selectedPemasok := true, None, None;
      match reply
      case Ok(p) =>
        selectedPemasok, loading := Some(p), false;
      case _ =>
        error, loading := ErrorAfter(reply, DetailFallback), false;
    }

    /**
     * How every mutation ends: success fires `fetchPemasok()` with no arguments
     * (returned as the refetch's query, its reply arriving later through
     * FinishFetch); failure records the error and ends the request.
     */
    method Settle(reply: Reply<()>, fallback: string) returns (refetch: Option<seq<QueryParam>>)
      modifies this`loading, this`error
      ensures refetch.Some? <==> reply.Ok?
      ensures reply.Ok? ==> refetch == Some(PemasokQuery("", "", DefaultPage, DefaultSize)) && loading && error == None
      ensures !reply.Ok? ==> !loading && error == ErrorAfter(reply, fallback)
    {
      if reply.Ok? {
        var params := BeginFetch(NoArgs);
        refetch := Some(params);
      } else {
        error, loading := ErrorAfter(reply, fallback), false;
        refetch := None;
      }
    }

    /** `addPemasok(data)`: the multipart body sent, and the refetch a success fires. */
    method AddPemasok(data: seq<FormEntry>, reply: Reply<()>) returns (body: seq<FormPart>, refetch: Option<seq<QueryParam>>)
      modifies this`loading, this`error
      ensures body == FormParts(data)
      ensures refetch.Some? <==> reply.Ok?
      ensures reply.Ok? ==> refetch == Some(PemasokQuery("", "", DefaultPage, DefaultSize)) && loading && error == None
      ensures !reply.Ok? ==> !loading && error == ErrorAfter(reply, AddFallback)
    {
      loading, error := true, None;
      body := BuildFormData(data);
      refetch := Settle(reply, AddFallback);
    }

    /** `updatePemasok(id, data)`: as add, sent to `/pemasok/<id>`. */
    method UpdatePemasok(id: int, data: seq<FormEntry>, reply: Reply<()>) returns (body: seq<FormPart>, refetch: Option<seq<QueryParam>>)
      modifies this`loading, this`error
      ensures body == FormParts(data)
      ensures refetch.Some? <==> reply.Ok?
      ensures reply.Ok? ==> refetch == Some(PemasokQuery("", "", DefaultPage, DefaultSize)) && loading && error == None
      ensures !reply.Ok? ==> !loading && error == ErrorAfter(reply, UpdateFallback)
    {
      loading, error := true, None;
      body := BuildFormData(data);
      refetch := Settle(reply, UpdateFallback);
    }

    /** `deletePemasok(id)`. */
    method DeletePemasok(id: int, reply: Reply<()>) returns (refetch: Option<seq<QueryParam>>)
      modifies this`loading, this`error
      ensures refetch.Some? <==> reply.Ok?
      ensures reply.Ok? ==> refetch == Some(PemasokQuery("", "", DefaultPage, DefaultSize)) && loading && error == None
      ensures !reply.Ok? ==> !loading && error == ErrorAfter(reply, DeleteFallback)
    {
      loading, error := true, None;
      refetch := Settle(reply, DeleteFallback);
    }
  }
}
