/**
 * The product form: the `produkSchema` acceptance rule over the coerced input
 * values, the issues it reports, the reset effect and the submit handler.
 */
module ProdukForm {
  import opened Wrappers
  import opened Http
  import ProdukStore

  /**
   * The form's values once `z.coerce.number()` has turned the number inputs
   * into numbers: price, stock and supplier id are reals, and the category is
   * the text of the selected option.
   */
  datatype Inputs = Inputs(namaProduk: string, harga: real, stok: real, jenisProduk: string, pemasokId: real)

  datatype Field = NamaProduk | Harga | Stok | JenisProduk | PemasokId

  datatype Issue = Issue(field: Field, message: string)

  const IntMessage := "Expected integer, received float"

  /** `z.enum` over the three category names: the category a text denotes, if any. */
  function ParseJenis(s: string): (r: Option<ProdukStore.JenisProduk>)
    ensures r.Some? ==> ProdukStore.JenisName(r.value) == s
  {
    if s == "BahanPokok" then Some(ProdukStore.BahanPokok)
    else if s == "Makanan" then Some(ProdukStore.Makanan)
    else if s == "Minuman" then Some(ProdukStore.Minuman)
    else None
  }

  /** Every category name reads back as that category. */
  lemma ParseJenisName(j: ProdukStore.JenisProduk)
    ensures ParseJenis(ProdukStore.JenisName(j)) == Some(j)
  {
  }

  /** `.int()`: the number has no fractional part. */
  predicate IsInteger(x: real) {
    x.Floor as real == x
  }

  predicate FieldOk(v: Inputs, f: Field) {
    match f
    case NamaProduk => |v.namaProduk| >= 1
    case Harga => v.harga >= 0.0
    case Stok => IsInteger(v.stok) && v.stok >= 0.0
    case JenisProduk => ParseJenis(v.jenisProduk).Some?
    case PemasokId => IsInteger(v.pemasokId) && v.pemasokId >= 1.0
  }

  predicate Valid(v: Inputs) {
    FieldOk(v, NamaProduk) && FieldOk(v, Harga) && FieldOk(v, Stok) && FieldOk(v, JenisProduk) && FieldOk(v, PemasokId)
  }

  /** The issues of one field; an integer field runs both its checks. */
  function FieldIssues(v: Inputs, f: Field): seq<Issue> {
    match f
    case NamaProduk =>
      if |v.namaProduk| < 1 then [Issue(NamaProduk, "Nama Produk is required")] else []
    case Harga =>
      if v.harga < 0.0 then [Issue(Harga, "Harga must be a positive number")] else []
    case Stok =>
      (if !IsInteger(v.stok) then [Issue(Stok, IntMessage)] else [])
      + (if v.stok < 0.0 then [Issue(Stok, "Stok must be a non-negative integer")] else [])
    case JenisProduk =>
      if ParseJenis(v.jenisProduk).None? then [Issue(JenisProduk, "Jenis Produk is required")] else []
    case PemasokId =>
      (if !IsInteger(v.pemasokId) then [Issue(PemasokId, IntMessage)] else [])
      + (if v.pemasokId < 1.0 then [Issue(PemasokId, "Pemasok is required")] else [])
  }

  function Issues(v: Inputs): seq<Issue> {
    FieldIssues(v, NamaProduk) + FieldIssues(v, Harga) + FieldIssues(v, Stok)
    + FieldIssues(v, JenisProduk) + FieldIssues(v, PemasokId)
  }

  lemma FieldIssuesAgree(v: Inputs, f: Field)
    ensures FieldIssues(v, f) == [] <==> FieldOk(v, f)
    ensures forall i :: 0 <= i < |FieldIssues(v, f)| ==> FieldIssues(v, f)[i].field == f
  {
  }

  /** The schema reports nothing exactly when it accepts. */
  lemma IssuesEmptyIffValid(v: Inputs)
    ensures Issues(v) == [] <==> Valid(v)
  {
    FieldIssuesAgree(v, NamaProduk);
    FieldIssuesAgree(v, Harga);
    FieldIssuesAgree(v, Stok);
    FieldIssuesAgree(v, JenisProduk);
    FieldIssuesAgree(v, PemasokId);
  }

  /** Some issue in the list names the field. */
  predicate Names(issues: seq<Issue>, f: Field) {
    exists i :: 0 <= i < |issues| && issues[i].field == f
  }

  /** A field is named in a concatenation exactly when it is named in one of the parts. */
  lemma NamesAppend(a: seq<Issue>, b: seq<Issue>, f: Field)
    ensures Names(a + b, f) <==> Names(a, f) || Names(b, f)
  {
    if Names(a + b, f) {
      var i :| 0 <= i < |a + b| && (a + b)[i].field == f;
      if i < |a| {
        assert (a + b)[i] == a[i];
      } else {
        assert (a + b)[i] == b[i - |a|];
      }
    }
    if Names(a, f) {
      var i :| 0 <= i < |a| && a[i].field == f;
      assert (a + b)[i] == a[i];
    }
    if Names(b, f) {
      var i :| 0 <= i < |b| && b[i].field == f;
      assert (a + b)[|a| + i] == b[i];
    }
  }

  /** A field's own issues name exactly that field, and only when it is rejected. */
  lemma NamesOwn(v: Inputs, g: Field, f: Field)
    ensures Names(FieldIssues(v, g), f) <==> g == f && !FieldOk(v, g)
  {
    FieldIssuesAgree(v, g);
    if !FieldOk(v, g) {
      assert FieldIssues(v, g)[0].field == g;
    }
  }

  /** A field is named by some issue exactly when that field is rejected. */
  lemma IssuesNameRejectedFields(v: Inputs, f: Field)
    ensures Names(Issues(v), f) <==> !FieldOk(v, f)
  {
    NamesOwn(v, NamaProduk, f);
    NamesOwn(v, Harga, f);
    NamesOwn(v, Stok, f);
    NamesOwn(v, JenisProduk, f);
    NamesOwn(v, PemasokId, f);
    NamesAppend(FieldIssues(v, NamaProduk), FieldIssues(v, Harga), f);
    NamesAppend(FieldIssues(v, NamaProduk) + FieldIssues(v, Harga), FieldIssues(v, Stok), f);
    NamesAppend(FieldIssues(v, NamaProduk) + FieldIssues(v, Harga) + FieldIssues(v, Stok), FieldIssues(v, JenisProduk), f);
    NamesAppend(FieldIssues(v, NamaProduk) + FieldIssues(v, Harga) + FieldIssues(v, Stok) + FieldIssues(v, JenisProduk), FieldIssues(v, PemasokId), f);
  }

  /** The values the schema hands to the submit handler. */
  function Parsed(v: Inputs): (p: ProdukStore.ProdukInput)
    requires Valid(v)
    ensures p.namaProduk == v.namaProduk && p.harga == v.harga
    ensures p.stok as real == v.stok && p.stok >= 0
    ensures p.pemasokId as real == v.pemasokId && p.pemasokId >= 1
    ensures ProdukStore.JenisName(p.jenisProduk) == v.jenisProduk
  {
    ProdukStore.ProdukInput(v.namaProduk, v.harga, v.stok.Floor, ParseJenis(v.jenisProduk).value, v.pemasokId.Floor)
  }

  /** What the reset effect loads: the edited product, or the blank defaults. */
  function ResetValues(editing: Option<ProdukStore.Produk>): Inputs {
    match editing
    case Some(p) => Inputs(p.namaProduk, p.harga, p.stok as real, ProdukStore.JenisName(p.jenisProduk), p.pemasokId as real)
    case None => Inputs("", 0.0, 0.0, "BahanPokok", 0.0)
  }

  /** The blank form is rejected for exactly the empty name and the missing supplier. */
  lemma NewFormRejected()
    ensures !Valid(ResetValues(None))
    ensures Issues(ResetValues(None)) == [Issue(NamaProduk, "Nama Produk is required"), Issue(PemasokId, "Pemasok is required")]
  {
  }

  /**
   * Loading a product into the form and submitting it unchanged is accepted
   * exactly when the product itself meets the schema, and then sends back the
   * product's own fields.
   */
  lemma EditRoundTrip(p: ProdukStore.Produk)
    ensures Valid(ResetValues(Some(p))) <==> p.namaProduk != "" && p.harga >= 0.0 && p.stok >= 0 && p.pemasokId >= 1
    ensures Valid(ResetValues(Some(p))) ==>
      Parsed(ResetValues(Some(p))) == ProdukStore.ProdukInput(p.namaProduk, p.harga, p.stok, p.jenisProduk, p.pemasokId)
  {
    ParseJenisName(p.jenisProduk);
  }

  datatype Request = AddRequest(produk: ProdukStore.ProdukInput) | UpdateRequest(id: int, produk: ProdukStore.ProdukInput)

  /**
   * The request a submit sends: none for rejected values; otherwise the
   * parsed product, as an update of the edited product or as an add.
   */
  function RequestFor(v: Inputs, editing: Option<ProdukStore.Produk>): (r: Option<Request>)
    ensures r.Some? <==> Valid(v)
    ensures r.Some? ==> r.value.produk == Parsed(v)
    ensures r.Some? ==> (r.value.UpdateRequest? <==> editing.Some?)
    ensures r.Some? && editing.Some? ==> r.value.id == editing.value.id
  {
    if !Valid(v) then None
    else if editing.Some? then Some(UpdateRequest(editing.value.id, Parsed(v)))
    else Some(AddRequest(Parsed(v)))
  }

  /** The store's fallback message for the save a submit starts. */
  function SaveFallback(editing: Option<ProdukStore.Produk>): string {
    if editing.Some? then ProdukStore.UpdateFallback else ProdukStore.AddFallback
  }

  /** The form component's own state and the `produk` prop it last saw. */
  class Form {
    var values: Inputs
    var issues: seq<Issue>
    var editing: Option<ProdukStore.Produk>

    constructor (editing: Option<ProdukStore.Produk>)
      ensures this.editing == editing && values == ResetValues(editing) && issues == []
    {
      this.editing := editing;
      values := ResetValues(editing);
      issues := [];
    }

    method SetValues(v: Inputs)
      modifies this`values
      ensures values == v
    {
      values := v;
    }

    /** A new `produk` prop: the reset effect runs only when it changed. */
    method ReceiveEditing(e: Option<ProdukStore.Produk>)
      modifies this`values, this`issues, this`editing
      ensures editing == e
      ensures e != old(editing) ==> values == ResetValues(e) && issues == []
      ensures e == old(editing) ==> values == old(values) && issues == old(issues)
    {
      if e != editing {
        values := ResetValues(e);
        issues := [];
      }
      editing := e;
    }

    /**
     * `handleSubmit(onSubmit)`: rejected values only show their issues;
     * accepted ones go to update (when editing) or add, and the modal is then
     * asked to close: the store reports failures itself and never throws.
     */
    method Submit(store: ProdukStore.Store, reply: Reply<()>) returns (request: Option<Request>, closed: bool)
      modifies this`issues, store`loading, store`error
      ensures issues == Issues(values)
      ensures request == RequestFor(values, editing)
      ensures closed <==> Valid(values)
      ensures !Valid(values) ==> store.loading == old(store.loading) && store.error == old(store.error)
      ensures Valid(values) ==> store.loading == reply.Ok?
      ensures Valid(values) ==> store.error == (if reply.Ok? then None
        else ErrorAfter(reply, SaveFallback(editing)))
    {
      IssuesEmptyIffValid(values);
      issues := Issues(values);
      if issues != [] {
        return None, false;
      }
      var refetch;
      match editing {
        case Some(p) =>
          refetch := store.UpdateProduk(p.id, Parsed(values), reply);
          request := Some(UpdateRequest(p.id, Parsed(values)));
        case None =>
          refetch := store.AddProduk(Parsed(values), reply);
          request := Some(AddRequest(Parsed(values)));
      }
      closed := true;
    }
  }
}
