/** The newer products admin page: the table's load, the edit form with its trimmed and validated
    payload, save (update or create, then reload), delete (confirmed, then reload), and the
    start and cancel of an edit. Replies and the confirmation are inputs; `calls` records the
    requests the page makes. */
module AdminProducts {
  import opened Base
  import opened Text
  import opened Js
  import opened ApiClient

  /** The form as the page holds it: whatever `startEdit` copied in, or the text typed. */
  datatype ProductForm = ProductForm(id: Val, name: Val, description: Val, category: Val, price: Val,
                                     stockQuantity: Val, imageUrl: Val)

  const EmptyForm: ProductForm :=
    ProductForm(Undefined, Str(""), Str(""), Str(""), NumVal(0.0), NumVal(0.0), Str(""))

  /** The body of a create or an update. */
  datatype Payload = Payload(name: string, description: string, category: string, price: Number,
                             stockQuantity: Number, imageUrl: string)

  datatype Request = LoadRows | Create(payload: Payload) | Update(id: string, payload: Payload) | Delete(id: string)

  const NameRequired: string := "Name is required"

  /** `value.trim()` on a form field: a string is trimmed; anything else has no `trim` and throws. */
  function TrimField(v: Val, field: string): (r: Result<string, string>)
    ensures r.Ok? <==> v.Str?
    ensures r.Ok? ==> r.value == Trim(v.s)
  {
    if v.Str? then Ok(Trim(v.s))
    else if Nullish(v) then Err(TypeErrorText)
    else Err("form." + field + ".trim is not a function")
  }

  /** The payload `save` builds, or the message of what it throws: the text fields trimmed, the
      numbers converted with `Number`, and an empty trimmed name refused. */
  function SaveRequest(form: ProductForm): (r: Result<Payload, string>)
    ensures r.Ok? <==> form.name.Str? && form.description.Str? && form.category.Str? && form.imageUrl.Str?
                       && Trim(form.name.s) != ""
    ensures r.Ok? ==> r.value == Payload(Trim(form.name.s), Trim(form.description.s), Trim(form.category.s),
                                         ToNumber(form.price), ToNumber(form.stockQuantity), Trim(form.imageUrl.s))
    ensures (form.name.Str? && form.description.Str? && form.category.Str? && form.imageUrl.Str?
             && Trim(form.name.s) == "") ==> r == Err(NameRequired)
  {
    match TrimField(form.name, "name")
    case Err(e) => Err(e)
    case Ok(name) =>
      match TrimField(form.description, "description")
      case Err(e) => Err(e)
      case Ok(description) =>
        match TrimField(form.category, "category")
        case Err(e) => Err(e)
        case Ok(category) =>
          var price := ToNumber(form.price);
          var stock := ToNumber(form.stockQuantity);
          match TrimField(form.imageUrl, "imageUrl")
          case Err(e) => Err(e)
          case Ok(imageUrl) =>
            if name == "" then Err(NameRequired)
            else Ok(Payload(name, description, category, price, stock, imageUrl))
  }

  /** `startEdit`'s form: each field copied, '' or 0 when it is null or undefined. */
  function FormOf(p: Val): (r: ProductForm)
    ensures !Nullish(r.name) && !Nullish(r.price) && !Nullish(r.stockQuantity)
    ensures Get(p, "name").Str? ==> r.name == Get(p, "name")
    ensures r.id == Get(p, "id")
    ensures r.name == (if Nullish(Get(p, "name")) then Str("") else Get(p, "name"))
    ensures r.description == (if Nullish(Get(p, "description")) then Str("") else Get(p, "description"))
    ensures r.category == (if Nullish(Get(p, "category")) then Str("") else Get(p, "category"))
    ensures r.price == (if Nullish(Get(p, "price")) then NumVal(0.0) else Get(p, "price"))
    ensures r.stockQuantity == (if Nullish(Get(p, "stockQuantity")) then NumVal(0.0) else Get(p, "stockQuantity"))
    ensures r.imageUrl == (if Nullish(Get(p, "imageUrl")) then Str("") else Get(p, "imageUrl"))
  {
    ProductForm(Get(p, "id"), Coalesce(Get(p, "name"), Str("")), Coalesce(Get(p, "description"), Str("")),
                Coalesce(Get(p, "category"), Str("")), Coalesce(Get(p, "price"), NumVal(0.0)),
                Coalesce(Get(p, "stockQuantity"), NumVal(0.0)), Coalesce(Get(p, "imageUrl"), Str("")))
  }

  /** Saving a row opened for editing, unchanged, sends the row's own fields back. */
  lemma EditedRowSavesItself(p: Val, name: string, description: string, category: string, price: real,
                             stock: real, imageUrl: string)
    requires Get(p, "name") == Str(name) && Get(p, "description") == Str(description)
    requires Get(p, "category") == Str(category) && Get(p, "imageUrl") == Str(imageUrl)
    requires Get(p, "price") == NumVal(price) && Get(p, "stockQuantity") == NumVal(stock)
    requires Trim(name) == name && name != "" && Trim(description) == description
    requires Trim(category) == category && Trim(imageUrl) == imageUrl
    ensures SaveRequest(FormOf(p)) == Ok(Payload(name, description, category, Fin(price), Fin(stock), imageUrl))
  {
    var f := FormOf(p);
    assert f.name == Str(name) && f.description == Str(description) && f.category == Str(category);
    assert f.imageUrl == Str(imageUrl) && f.price == NumVal(price) && f.stockQuantity == NumVal(stock);
  }

  /** A blank name is refused, and the page shows the refusal the way it shows any error: with no
      response, the status reads "Unknown". */
  lemma BlankNameShown(form: ProductForm)
    requires form == EmptyForm.(name := Str("  "))
    ensures SaveRequest(form) == Err(NameRequired)
    ensures ExtractErrorMessage(Failure(None, NameRequired)) == "Unknown: " + NameRequired
  {
    assert IsSpace(' ');
    assert Trim("  ") == "";
  }

  /** The rows and the error after `load`: an array reply replaces the rows, any other reply
      empties them; a failure keeps them and stores the extracted message. */
  function AfterLoad(rows: seq<Val>, reply: Result<Val, Failure>): (r: (seq<Val>, Option<string>))
    ensures reply.Ok? ==> r.1.None? && (reply.value.Arr? ==> r.0 == reply.value.elems)
                          && (!reply.value.Arr? ==> r.0 == [])
    ensures reply.Err? ==> r == (rows, Some(ExtractErrorMessage(reply.error)))
  {
    match reply
    case Ok(data) => (if data.Arr? then data.elems else [], None)
    case Err(f) => (rows, Some(ExtractErrorMessage(f)))
  }

  class AdminProductsPage {
    var rows: seq<Val>
    var loading: bool
    var saving: bool
    var error: Option<string>
    var form: ProductForm
    var editingId: Val
    ghost var calls: seq<Request>

    constructor()
      ensures rows == [] && !loading && !saving && error.None? && form == EmptyForm && editingId == Null
      ensures calls == []
    {
      rows := [];
      loading := false;
      saving := false;
      error := None;
      form := EmptyForm;
      editingId := Null;
      calls := [];
    }

    /** `load` */
    method Load(reply: Result<Val, Failure>)
      modifies this
      ensures (rows, error) == AfterLoad(old(rows), reply) && !loading && calls == old(calls) + [LoadRows]
      ensures form == old(form) && editingId == old(editingId) && saving == old(saving)
    {
      loading := true;
      error := None;
      calls := calls + [LoadRows];
      match reply {
        case Ok(data) => rows := if data.Arr? then data.elems else [];
        case Err(f) => error := Some(ExtractErrorMessage(f));
      }
      loading := false;
    }

    /** `startEdit(p)` */
    method StartEdit(p: Val)
      modifies this
      ensures editingId == Get(p, "id") && form == FormOf(p)
      ensures rows == old(rows) && error == old(error) && calls == old(calls)
      ensures loading == old(loading) && saving == old(saving)
    {
      editingId := Get(p, "id");
      form := FormOf(p);
    }

    /** `cancelEdit` */
    method CancelEdit()
      modifies this
      ensures editingId == Null && form == EmptyForm
      ensures rows == old(rows) && error == old(error) && calls == old(calls)
      ensures loading == old(loading) && saving == old(saving)
    {
      editingId := Null;
      form := EmptyForm;
    }

    /** `save`: a payload that cannot be built or has no name stores its message and sends
        nothing; otherwise the update (while editing) or the create; after success the reload and
        the reset of the form; after failure the extracted message, with the form kept. */
    method Save(saved: Result<Val, Failure>, reloaded: Result<Val, Failure>)
      modifies this
      ensures !saving
      ensures SaveRequest(old(form)).Err? ==>
                calls == old(calls) && rows == old(rows) && form == old(form) && editingId == old(editingId)
                && error == Some(ExtractErrorMessage(Failure(None, SaveRequest(old(form)).error)))
                && loading == old(loading)
      ensures SaveRequest(old(form)).Ok? ==>
                var payload := SaveRequest(old(form)).value;
                var request := if Truthy(old(editingId)) then Update(ToJsString(old(editingId)), payload)
                               else Create(payload);
                if saved.Err? then
                  calls == old(calls) + [request] && rows == old(rows) && form == old(form)
                  && editingId == old(editingId) && error == Some(ExtractErrorMessage(saved.error))
                  && loading == old(loading)
                else
                  calls == old(calls) + [request, LoadRows] && (rows, error) == AfterLoad(old(rows), reloaded)
                  && form == EmptyForm && editingId == Null && !loading
    {
      saving := true;
      error := None;
      var built := SaveRequest(form);
      if built.Err? {
        error := Some(ExtractErrorMessage(Failure(None, built.error)));
        saving := false;
        return;
      }
      var request := if Truthy(editingId) then Update(ToJsString(editingId), built.value) else Create(built.value);
      Submit(request, saved, reloaded);
    }

    /** The part of `save` after the payload is built: the request, then the reload and the reset
        after success, or the extracted message after failure. */
    method Submit(request: Request, saved: Result<Val, Failure>, reloaded: Result<Val, Failure>)
      modifies this
      ensures !saving
      ensures saved.Err? ==>
                calls == old(calls) + [request] && rows == old(rows) && form == old(form)
                && editingId == old(editingId) && error == Some(ExtractErrorMessage(saved.error))
                && loading == old(loading)
      ensures saved.Ok? ==>
                calls == old(calls) + [request, LoadRows] && (rows, error) == AfterLoad(old(rows), reloaded)
                && form == EmptyForm && editingId == Null && !loading
    {
      ghost var before := calls;
      calls := calls + [request];
      if saved.Err? {
        error := Some(ExtractErrorMessage(saved.error));
        saving := false;
        return;
      }
      Load(reloaded);
      assert calls == before + [request, LoadRows];
      CancelEdit();
      saving := false;
    }

    /** `del(id)`: nothing unless confirmed; then the delete, and the reload after success or the
        extracted message after failure. */
    method Del(id: string, confirmed: bool, deleted: Result<Val, Failure>, reloaded: Result<Val, Failure>)
      modifies this
      ensures form == old(form) && editingId == old(editingId) && saving == old(saving)
      ensures !(confirmed && deleted.Ok?) ==> loading == old(loading)
      ensures confirmed && deleted.Ok? ==> !loading
      ensures !confirmed ==> rows == old(rows) && error == old(error) && calls == old(calls)
      ensures confirmed && deleted.Err? ==>
                calls == old(calls) + [Delete(id)] && rows == old(rows) && error == Some(ExtractErrorMessage(deleted.error))
      ensures confirmed && deleted.Ok? ==>
                calls == old(calls) + [Delete(id), LoadRows] && (rows, error) == AfterLoad(old(rows), reloaded)
    {
      if !confirmed {
        return;
      }
      calls := calls + [Delete(id)];
      if deleted.Err? {
        error := Some(ExtractErrorMessage(deleted.error));
        return;
      }
      Load(reloaded);
    }
  }
}
