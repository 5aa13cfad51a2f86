/**
 * The supplier form: the `pemasokSchema` acceptance rule and the issues it
 * reports, the reset effect that loads the edited record or blanks the form,
 * and the submit handler that adds or updates through the store.
 */
module PemasokForm {
  import opened Wrappers
  import opened Http
  import PemasokStore

  datatype Inputs = Inputs(namaPemasok: string, nik: string, alamat: string, telepon: string)

  datatype Field = NamaPemasok | Nik | Alamat | Telepon

  /** One failed check of the schema, with the message shown under the field. */
  datatype Issue = Issue(field: Field, message: string)

  const NikMaxLength := 16
  const TeleponMaxLength := 15

  /** The rule for one field: required strings, and upper bounds for NIK and telephone. */
  predicate FieldOk(v: Inputs, f: Field) {
    match f
    case NamaPemasok => |v.namaPemasok| >= 1
    case Nik => 1 <= |v.nik| <= NikMaxLength
    case Alamat => |v.alamat| >= 1
    case Telepon => 1 <= |v.telepon| <= TeleponMaxLength
  }

  /** The form is accepted iff every field is. */
  predicate Valid(v: Inputs) {
    FieldOk(v, NamaPemasok) && FieldOk(v, Nik) && FieldOk(v, Alamat) && FieldOk(v, Telepon)
  }

  /** The issues of one field, checks in declaration order. */
  function FieldIssues(v: Inputs, f: Field): seq<Issue> {
    match f
    case NamaPemasok =>
      if |v.namaPemasok| < 1 then [Issue(NamaPemasok, "Nama Pemasok is required")] else []
    case Nik =>
      (if |v.nik| < 1 then [Issue(Nik, "NIK is required")] else [])
      + (if |v.nik| > NikMaxLength then [Issue(Nik, "NIK must be at most 16 characters")] else [])
    case Alamat =>
      if |v.alamat| < 1 then [Issue(Alamat, "Alamat is required")] else []
    case Telepon =>
      (if |v.telepon| < 1 then [Issue(Telepon, "Telepon is required")] else [])
      + (if |v.telepon| > TeleponMaxLength then [Issue(Telepon, "Telepon must be at most 15 characters")] else [])
  }

  /** Everything the schema reports about the inputs, field by field. */
  function Issues(v: Inputs): seq<Issue> {
    FieldIssues(v, NamaPemasok) + FieldIssues(v, Nik) + FieldIssues(v, Alamat) + FieldIssues(v, Telepon)
  }

  /** A field's own issues name that field, and there are some exactly when the field is rejected. */
  lemma FieldIssuesAgree(v: Inputs, f: Field)
    ensures FieldIssues(v, f) == [] <==> FieldOk(v, f)
    ensures forall i :: 0 <= i < |FieldIssues(v, f)| ==> FieldIssues(v, f)[i].field == f
  {
  }

  /** The schema reports nothing exactly when it accepts. */
  lemma IssuesEmptyIffValid(v: Inputs)
    ensures Issues(v) == [] <==> Valid(v)
  {
    FieldIssuesAgree(v, NamaPemasok);
    FieldIssuesAgree(v, Nik);
    FieldIssuesAgree(v, Alamat);
    FieldIssuesAgree(v, Telepon);
  }

  /** Some issue in the list names the field. */
  predicate Names(issues: seq<Issue>, f: Field) {
    exists i :: 0 <= i < |issues| && issues[i].field == f
  }

  /** A field is named in a concatenation exactly when it is named in one of the parts. */
  lemma NamesAppend(a: seq<Issue>, b: seq<Issue>, f: Field)
    ensures Names(a + b, f) <==> Names(a, f) || Names(b, f)
  {
    if Names(a + b, f) {
      var i :| 0 <= i < |a + b| && (a + b)[i].field == f;
      if i < |a| {
        assert (a + b)[i] == a[i];
      } else {
        assert (a + b)[i] == b[i - |a|];
      }
    }
    if Names(a, f) {
      var i :| 0 <= i < |a| && a[i].field == f;
      assert (a + b)[i] == a[i];
    }
    if Names(b, f) {
      var i :| 0 <= i < |b| && b[i].field == f;
      assert (a + b)[|a| + i] == b[i];
    }
  }

  /** A field's own issues name exactly that field, and only when it is rejected. */
  lemma NamesOwn(v: Inputs, g: Field, f: Field)
    ensures Names(FieldIssues(v, g), f) <==> g == f && !FieldOk(v, g)
  {
    FieldIssuesAgree(v, g);
    if !FieldOk(v, g) {
      assert FieldIssues(v, g)[0].field == g;
    }
  }

  /** A field is named by some issue exactly when that field is rejected. */
  lemma IssuesNameRejectedFields(v: Inputs, f: Field)
    ensures Names(Issues(v), f) <==> !FieldOk(v, f)
  {
    NamesOwn(v, NamaPemasok, f);
    NamesOwn(v, Nik, f);
    NamesOwn(v, Alamat, f);
    NamesOwn(v, Telepon, f);
    NamesAppend(FieldIssues(v, NamaPemasok), FieldIssues(v, Nik), f);
    NamesAppend(FieldIssues(v, NamaPemasok) + FieldIssues(v, Nik), FieldIssues(v, Alamat), f);
    NamesAppend(FieldIssues(v, NamaPemasok) + FieldIssues(v, Nik) + FieldIssues(v, Alamat), FieldIssues(v, Telepon), f);
  }

  const OverLongMessages: set<string> := {"NIK must be at most 16 characters", "Telepon must be at most 15 characters"}

  /** An over-long NIK or telephone number is always rejected. */
  lemma OverLongRejected(v: Inputs)
    requires |v.nik| > NikMaxLength || |v.telepon| > TeleponMaxLength
    ensures !Valid(v)
    ensures exists i :: 0 <= i < |Issues(v)| && Issues(v)[i].message in OverLongMessages
  {
    if |v.nik| > NikMaxLength {
      assert Issues(v)[|FieldIssues(v, NamaPemasok)|].message == "NIK must be at most 16 characters";
    } else {
      var k := |FieldIssues(v, NamaPemasok)| + |FieldIssues(v, Nik)| + |FieldIssues(v, Alamat)|;
      assert Issues(v)[k].message == "Telepon must be at most 15 characters";
    }
  }

  /** What the reset effect loads: the edited record's four fields, or four empty strings. */
  function ResetValues(editing: Option<PemasokStore.Pemasok>): Inputs {
    match editing
    case Some(p) => Inputs(p.namaPemasok, p.nik, p.alamat, p.telepon)
    case None => Inputs("", "", "", "")
  }

  /** The blank "new" form is rejected, with every field reported as required. */
  lemma NewFormRejected()
    ensures !Valid(ResetValues(None))
    ensures Issues(ResetValues(None)) == [
      Issue(NamaPemasok, "Nama Pemasok is required"), Issue(Nik, "NIK is required"),
      Issue(Alamat, "Alamat is required"), Issue(Telepon, "Telepon is required")]
  {
  }

  /** The object handed to the store: the four fields, in schema order. */
  function Entries(v: Inputs): seq<PemasokStore.FormEntry> {
    [PemasokStore.FormEntry("namaPemasok", PemasokStore.Text(v.namaPemasok)),
     PemasokStore.FormEntry("nik", PemasokStore.Text(v.nik)),
     PemasokStore.FormEntry("alamat", PemasokStore.Text(v.alamat)),
     PemasokStore.FormEntry("telepon", PemasokStore.Text(v.telepon))]
  }

  /** A submitted form becomes exactly four text parts, and never a logo. */
  lemma SubmittedBody(v: Inputs)
    ensures PemasokStore.FormParts(Entries(v)) == [
      PemasokStore.StringPart("namaPemasok", v.namaPemasok), PemasokStore.StringPart("nik", v.nik),
      PemasokStore.StringPart("alamat", v.alamat), PemasokStore.StringPart("telepon", v.telepon)]
  {
    var e := Entries(v);
    var p0, p1 := PemasokStore.StringPart("namaPemasok", v.namaPemasok), PemasokStore.StringPart("nik", v.nik);
    var p2, p3 := PemasokStore.StringPart("alamat", v.alamat), PemasokStore.StringPart("telepon", v.telepon);
    assert PemasokStore.Appended(e[0]) == [p0];
    assert PemasokStore.Appended(e[1]) == [p1];
    assert PemasokStore.Appended(e[2]) == [p2];
    assert PemasokStore.Appended(e[3]) == [p3];
    assert e[..1][..0] == [];
    assert PemasokStore.FormParts(e[..1]) == [p0];
    assert e[..2][..1] == e[..1];
    assert PemasokStore.FormParts(e[..2]) == [p0, p1];
    assert e[..3][..2] == e[..2];
    assert PemasokStore.FormParts(e[..3]) == [p0, p1, p2];
    assert e[..3] == e[..|e| - 1];
  }

  /** What the submit handler sent to the store. */
  datatype Request = AddRequest(body: seq<PemasokStore.FormPart>) | UpdateRequest(id: int, body: seq<PemasokStore.FormPart>)

  /**
   * The request a submit sends: none for rejected values; otherwise the
   * multipart body of the values, as an update of the edited record or as an add.
   */
  function RequestFor(v: Inputs, editing: Option<PemasokStore.Pemasok>): (r: Option<Request>)
    ensures r.Some? <==> Valid(v)
    ensures r.Some? ==> r.value.body == PemasokStore.FormParts(Entries(v))
    ensures r.Some? ==> (r.value.UpdateRequest? <==> editing.Some?)
    ensures r.Some? && editing.Some? ==> r.value.id == editing.value.id
  {
    if !Valid(v) then None
    else if editing.Some? then Some(UpdateRequest(editing.value.id, PemasokStore.FormParts(Entries(v))))
    else Some(AddRequest(PemasokStore.FormParts(Entries(v))))
  }

  /** The store's fallback message for the save a submit starts. */
  function SaveFallback(editing: Option<PemasokStore.Pemasok>): string {
    if editing.Some? then PemasokStore.UpdateFallback else PemasokStore.AddFallback
  }

  /** The form component's own state, and the `editingPemasok` prop it last saw. */
  class Form {
    var values: Inputs
    var issues: seq<Issue>
    var editing: Option<PemasokStore.Pemasok>

    /** Mounting runs the reset effect once. */
    constructor (editing: Option<PemasokStore.Pemasok>)
      ensures this.editing == editing && values == ResetValues(editing) && issues == []
    {
      this.editing := editing;
      values := ResetValues(editing);
      issues := [];
    }

    /** The user typing into the registered inputs. */
    method SetValues(v: Inputs)
      modifies this`values
      ensures values == v
    {
      values := v;
    }

    /** A new `editingPemasok` prop: the reset effect runs only when it changed. */
    method ReceiveEditing(e: Option<PemasokStore.Pemasok>)
      modifies this`values, this`issues, this`editing
      ensures editing == e
      ensures e != old(editing) ==> values == ResetValues(e) && issues == []
      ensures e == old(editing) ==> values == old(values) && issues == old(issues)
    {
      if e != editing {
        values := ResetValues(e);
        issues := [];
      }
      editing := e;
    }

    /**
     * `handleSubmit(onSubmit)`: rejected inputs only show their issues; accepted
     * inputs are sent to update (when editing) or add, and then the modal is
     * asked to close, whatever the store made of the reply.
     */
    method Submit(store: PemasokStore.Store, reply: Reply<()>) returns (request: Option<Request>, closed: bool)
      modifies this`issues, store`loading, store`error
      ensures issues == Issues(values)
      ensures request == RequestFor(values, editing)
      ensures closed <==> Valid(values)
      ensures !Valid(values) ==> store.loading == old(store.loading) && store.error == old(store.error)
      ensures Valid(values) ==> store.loading == reply.Ok?
      ensures Valid(values) ==> store.error == (if reply.Ok? then None
        else ErrorAfter(reply, SaveFallback(editing)))
    {
      IssuesEmptyIffValid(values);
      issues := Issues(values);
      if issues != [] {
        return None, false;
      }
      var body, refetch;
      match editing {
        case Some(p) =>
          body, refetch := store.UpdatePemasok(p.id, Entries(values), reply);
          request := Some(UpdateRequest(p.id, body));
        case None =>
          body, refetch := store.AddPemasok(Entries(values), reply);
          request := Some(AddRequest(body));
      }
      closed := true;
    }
  }
}
