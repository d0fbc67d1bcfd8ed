/** The add/edit component dialog (src/pages/AddElectronics.jsx): its six
    text fields, the error map `validateForm` fills, prefill and reset, the
    `parseInt` coercion before submitting, and the messages for failed saves. */
module ItemEditor {
  import opened JsValues
  import opened JsStrings
  import opened JsNumbers
  import opened InventoryList

  /** The choices the two drop-downs offer. Validation does not consult them. */
  const Categories: seq<string> := [
    "Microcontroller", "Sensor", "Motor", "Display", "Power Supply",
    "Communication Module", "Storage", "Passive Component", "Other"
  ]
  const Suppliers: seq<string> := [
    "Arduino", "Raspberry Pi", "Adafruit", "SparkFun", "Seeed Studio", "DFRobot",
    "Pololu", "Texas Instruments", "STMicroelectronics", "Espressif", "Other"
  ]

  datatype Field = Name | Category | Stock | MinStock | Specifications | Supplier

  /** The keys of the `errors` object: one per field, plus `submit`. */
  datatype ErrorKey = FieldError(field: Field) | SubmitError

  /** `formData`: every field is the text of its input. */
  datatype Form = Form(
    name: string,
    category: string,
    stock: string,
    min_stock: string,
    specifications: string,
    supplier: string)
  {
    function Get(f: Field): string {
      match f
      case Name => name
      case Category => category
      case Stock => stock
      case MinStock => min_stock
      case Specifications => specifications
      case Supplier => supplier
    }

    /** `{ ...prev, [name]: value }`. */
    function Set(f: Field, v: string): (r: Form)
      ensures r.Get(f) == v
      ensures forall g :: g != f ==> r.Get(g) == Get(g)
    {
      match f
      case Name => this.(name := v)
      case Category => this.(category := v)
      case Stock => this.(stock := v)
      case MinStock => this.(min_stock := v)
      case Specifications => this.(specifications := v)
      case Supplier => this.(supplier := v)
    }
  }

  const EmptyForm := Form("", "", "", "", "", "")

  const NameRequired := "Component name is required"
  const CategoryRequired := "Category is required"
  const StockRequired := "Stock quantity is required"
  const StockNegative := "Stock quantity must be positive"
  const MinStockRequired := "Minimum stock is required"
  const MinStockNegative := "Minimum stock must be positive"
  const SupplierRequired := "Supplier is required"

  /** The rule `validateForm` applies to one field: the message it records,
      if any. */
  function FieldProblem(form: Form, f: Field): Option<string> {
    match f
    case Name => if Trim(form.name) == "" then Some(NameRequired) else None
    case Category => if form.category == "" then Some(CategoryRequired) else None
    case Stock =>
      if form.stock == "" then Some(StockRequired)
      else if Negative(ParseInt(form.stock)) then Some(StockNegative)
      else None
    case MinStock =>
      if form.min_stock == "" then Some(MinStockRequired)
      else if Negative(ParseInt(form.min_stock)) then Some(MinStockNegative)
      else None
    case Specifications => None
    case Supplier => if form.supplier == "" then Some(SupplierRequired) else None
  }

  /** One step of `validateForm`: record the field's message, if it has one. */
  function Record(m: map<ErrorKey, string>, form: Form, f: Field): map<ErrorKey, string> {
    var problem := FieldProblem(form, f);
    if problem.Some? then m[FieldError(f) := problem.value] else m
  }

  /** The error map `validateForm` builds, field by field in the order of
      the source. */
  function ValidationErrors(form: Form): map<ErrorKey, string> {
    var m0: map<ErrorKey, string> := map[];
    Record(Record(Record(Record(Record(m0, form, Name), form, Category), form, Stock), form, MinStock), form, Supplier)
  }

  lemma RecordStep(m: map<ErrorKey, string>, form: Form, f: Field, k: ErrorKey)
    ensures k in Record(m, form, f) <==> k in m || (k == FieldError(f) && FieldProblem(form, f).Some?)
    ensures k in Record(m, form, f) ==>
      Record(m, form, f)[k] == if k == FieldError(f) && FieldProblem(form, f).Some? then FieldProblem(form, f).value else m[k]
  {
  }

  /** The map holds exactly one entry per failing field, with that field's
      message, and nothing under `submit`. */
  lemma ValidationErrorsMeaning(form: Form)
    ensures forall f :: FieldError(f) in ValidationErrors(form) <==> FieldProblem(form, f).Some?
    ensures forall f :: FieldError(f) in ValidationErrors(form) ==>
      ValidationErrors(form)[FieldError(f)] == FieldProblem(form, f).value
    ensures SubmitError !in ValidationErrors(form)
  {
    var m0: map<ErrorKey, string> := map[];
    var m1 := Record(m0, form, Name);
    var m2 := Record(m1, form, Category);
    var m3 := Record(m2, form, Stock);
    var m4 := Record(m3, form, MinStock);
    var m5 := Record(m4, form, Supplier);
    assert m5 == ValidationErrors(form);
    forall k
      ensures k in m5 <==> k.FieldError? && k.field != Specifications && FieldProblem(form, k.field).Some?
      ensures k in m5 ==> m5[k] == FieldProblem(form, k.field).value
    {
      RecordStep(m0, form, Name, k);
      RecordStep(m1, form, Category, k);
      RecordStep(m2, form, Stock, k);
      RecordStep(m3, form, MinStock, k);
      RecordStep(m4, form, Supplier, k);
    }
    forall f ensures FieldError(f) in m5 <==> FieldProblem(form, f).Some? {
      if f == Specifications {
        assert FieldProblem(form, f).None?;
      }
    }
  }

  predicate IsValid(form: Form) {
    forall f :: FieldProblem(form, f).None?
  }

  /** `Object.keys(newErrors).length === 0` exactly when every field passes. */
  lemma ValidIffNoErrors(form: Form)
    ensures IsValid(form) <==> ValidationErrors(form) == map[]
  {
    var m := ValidationErrors(form);
    ValidationErrorsMeaning(form);
    if !IsValid(form) {
      var f :| FieldProblem(form, f).Some?;
      assert FieldError(f) in m;
    } else {
      forall k ensures k !in m {
        if k.FieldError? {
          assert FieldProblem(form, k.field).None?;
        }
      }
      assert m.Keys == {};
    }
  }

  /** A name is refused exactly when it is empty after trimming. */
  lemma NameRule(form: Form)
    ensures FieldProblem(form, Name).Some? <==> Blank(form.name)
    ensures FieldProblem(form, Name).Some? ==> FieldProblem(form, Name).value == NameRequired
  {
    TrimEmptyIffBlank(form.name);
  }

  /** An empty stock text is "required"; otherwise only a text that parses to
      a negative number is refused, and such a text starts with '-' after its
      leading white space. Text without digits parses to NaN and is accepted. */
  lemma StockRule(form: Form)
    ensures form.stock == "" ==> FieldProblem(form, Stock) == Some(StockRequired)
    ensures form.stock != "" ==>
      (FieldProblem(form, Stock) == Some(StockNegative) <==> Negative(ParseInt(form.stock)))
    ensures FieldProblem(form, Stock) == Some(StockNegative) ==>
      var t := TrimStart(form.stock); |t| > 0 && t[0] == '-'
    ensures form.stock != "" && ParseInt(form.stock) == NaN ==> FieldProblem(form, Stock).None?
  {
  }

  /** The minimum stock follows the same two rules with its own messages. */
  lemma MinStockRule(form: Form)
    ensures form.min_stock == "" ==> FieldProblem(form, MinStock) == Some(MinStockRequired)
    ensures form.min_stock != "" ==>
      (FieldProblem(form, MinStock) == Some(MinStockNegative) <==> Negative(ParseInt(form.min_stock)))
  {
  }

  /** The specifications never matter to validation, and category and
      supplier are only checked for being non-empty: any text passes,
      whether or not it is one of the drop-down choices. */
  lemma OnlyNonEmptinessOfChoices(form: Form, v: string)
    ensures forall f :: FieldProblem(form.Set(Specifications, v), f) == FieldProblem(form, f)
    ensures v != "" ==> FieldProblem(form.Set(Category, v), Category).None?
    ensures v != "" ==> FieldProblem(form.Set(Supplier, v), Supplier).None?
  {
  }

  /** A form with a made-up category and supplier and a non-numeric stock
      passes validation. */
  lemma UnlistedChoicesPass()
    ensures "Gadget" !in Categories && "Nobody" !in Suppliers
    ensures IsValid(Form("Relay", "Gadget", "many", "2", "", "Nobody"))
  {
    var form := Form("Relay", "Gadget", "many", "2", "", "Nobody");
    assert Trim(form.name) != "" by {
      TrimEmptyIffBlank(form.name);
      assert !IsJsSpace(form.name[0]);
    }
    assert ParseInt("many") == NaN by {
      assert TrimStart("many") == "many" by { assert !IsJsSpace("many"[0]); }
      assert LeadingDigits("many") == [];
    }
    assert ParseInt("2") == Num(2) by {
      ParseIntText(2);
      assert IntText(2) == "2";
    }
    forall f ensures FieldProblem(form, f).None? {
    }
  }

  /** A stock of "-1" is refused with the "must be positive" message. */
  lemma MinusOneRefused(form: Form)
    requires form.stock == "-1"
    ensures FieldProblem(form, Stock) == Some(StockNegative)
    ensures !IsValid(form)
  {
    ParseIntText(-1);
    assert IntText(-1) == "-1";
  }

  /** `processedData`: the form with both stock texts run through `parseInt`. */
  function Process(form: Form): Submitted {
    Submitted(form.name, form.category, ParseInt(form.stock), ParseInt(form.min_stock),
              form.specifications, form.supplier)
  }

  /** The editor's `editingItem` prop as it reads it: any field may be missing,
      and the minimum stock may sit under either key. */
  datatype EditSource = EditSource(
    name: Option<string>,
    category: Option<string>,
    stock: JsNum,
    minStock: JsNum,
    min_stock: JsNum,
    specifications: Option<string>,
    supplier: Option<string>)

  /** A dashboard row as the editor receives it. Rows never carry a
      `min_stock` that differs from `minStock`, so it is left out. */
  function EditSourceOf(item: Item): EditSource {
    EditSource(Some(item.name), Some(item.category), item.stock, item.minStock, Undefined,
               Some(item.specifications), Some(item.supplier))
  }

  /** The form the prefill effect sets: the edited item's fields as text,
      `minStock` preferred over `min_stock`, missing values as ''; or the
      empty form when adding. */
  function PrefillForm(editing: Option<EditSource>): (form: Form)
    ensures editing.None? ==> form == EmptyForm
    ensures editing.Some? && editing.value.minStock != Undefined ==>
      form.min_stock == NumText(editing.value.minStock)
    ensures editing.Some? && editing.value.minStock == Undefined ==>
      form.min_stock == NumText(editing.value.min_stock)
  {
    match editing
    case None => EmptyForm
    case Some(e) =>
      var minText := NumText(e.minStock);
      Form(e.name.GetOr(""), e.category.GetOr(""), NumText(e.stock),
           if minText != "" then minText else NumText(e.min_stock),
           e.specifications.GetOr(""), e.supplier.GetOr(""))
  }

  /** Opening a row for editing and saving it unchanged writes the row back
      as it was, as long as its stock fields are whole numbers: prefill
      prints them and `parseInt` reads the same numbers back. */
  lemma EditUnchangedRoundTrip(item: Item)
    requires item.stock.Num? && item.minStock.Num?
    ensures Overwrite(item, Process(PrefillForm(Some(EditSourceOf(item))))) == item
  {
    ParseIntText(item.stock.n);
    ParseIntText(item.minStock.n);
  }

  /** What a save request can come back with: a response (with the server's
      `error` text, if any), no response, or a failure with neither. */
  datatype SaveOutcome = SaveResponded(status: int, errorText: Option<string>) | SaveNoResponse | SaveRequestFailed

  predicate SaveFails(o: SaveOutcome) {
    !(o.SaveResponded? && IsSuccessStatus(o.status))
  }

  /** A save succeeds on 200 for an update and on 201 for an add; any other
      2xx answer neither succeeds nor fails. */
  predicate SaveSucceeds(editing: bool, o: SaveOutcome) {
    o.SaveResponded? && o.status == (if editing then 200 else 201)
  }

  /** The message a failed save shows. */
  function SaveErrorMessage(editing: bool, o: SaveOutcome): (msg: string)
    requires SaveFails(o)
    ensures msg != ""
    ensures o.SaveResponded? && o.status == 400 ==>
      msg == (if TruthyText(o.errorText) then o.errorText.value else "Invalid data provided")
    ensures o.SaveResponded? && o.status == 404 ==> msg == "Component not found"
    ensures o.SaveResponded? && o.status == 500 ==> msg == "Server error. Please try again later."
    ensures o.SaveNoResponse? ==> msg == "Network error. Please check your connection."
  {
    var generic := if editing then "Failed to update component. Please try again."
                   else "Failed to add component. Please try again.";
    match o
    case SaveResponded(status, text) =>
      if status == 400 then (if TruthyText(text) then text.value else "Invalid data provided")
      else if status == 404 then "Component not found"
      else if status == 500 then "Server error. Please try again later."
      else generic
    case SaveNoResponse => "Network error. Please check your connection."
    case SaveRequestFailed => generic
  }

  /** What the dialog hands its parent through `onSubmit` after a successful
      save: the processed form on update; on add the server's record, which
      the dashboard does not use. */
  datatype Notice = Updated(data: Submitted) | Added

  class Editor {
    var formData: Form
    var errors: map<ErrorKey, string>
    var isLoading: bool

    constructor ()
      ensures formData == EmptyForm && errors == map[] && !isLoading
    {
      formData := EmptyForm;
      errors := map[];
      isLoading := false;
    }

    /** `handleInputChange`: set the field; clear its error only if one is
        showing (the key then stays, holding ''). */
    method HandleInputChange(f: Field, value: string)
      modifies this
      ensures formData == old(formData).Set(f, value)
      ensures FieldError(f) in old(errors) && old(errors)[FieldError(f)] != "" ==>
        errors == old(errors)[FieldError(f) := ""]
      ensures !(FieldError(f) in old(errors) && old(errors)[FieldError(f)] != "") ==>
        errors == old(errors)
      ensures isLoading == old(isLoading)
    {
      formData := formData.Set(f, value);
      if FieldError(f) in errors && errors[FieldError(f)] != "" {
        errors := errors[FieldError(f) := ""];
      }
    }

    /** `validateForm`: build the error map field by field (name, category,
        stock, minimum stock, supplier), replace the old map with it (dropping
        any submit message), and report whether it is empty. */
    method ValidateForm() returns (ok: bool)
      modifies this`errors
      ensures errors == ValidationErrors(formData)
      ensures ok <==> IsValid(formData)
      ensures ok <==> errors == map[]
    {
      var newErrors: map<ErrorKey, string> := map[];
      newErrors := Record(newErrors, formData, Name);
      newErrors := Record(newErrors, formData, Category);
      newErrors := Record(newErrors, formData, Stock);
      newErrors := Record(newErrors, formData, MinStock);
      newErrors := Record(newErrors, formData, Supplier);
      errors := newErrors;
      ok := |newErrors| == 0;
      ValidIffNoErrors(formData);
    }

    /** The prefill effect, run when the dialog opens or the edited row
        changes; it also clears every error. */
    method Prefill(editing: Option<EditSource>)
      modifies this
      ensures formData == PrefillForm(editing) && errors == map[]
      ensures isLoading == old(isLoading)
    {
      formData := PrefillForm(editing);
      errors := map[];
    }

    /** `handleClose`: reset the form and the errors (then the parent's
        `onClose`, see Dashboard.CloseModal). */
    method HandleClose()
      modifies this
      ensures formData == EmptyForm && errors == map[]
      ensures isLoading == old(isLoading)
    {
      formData := EmptyForm;
      errors := map[];
    }

    /** `handleSubmit`. An invalid form stops after validation: no request,
        `isLoading` untouched. Otherwise the processed form is sent (PUT when
        editing, POST when adding) and `isLoading` ends false; a failed save
        stores its message under `submit`. Returns the request body, if one
        was sent, and what the parent is told. */
    method HandleSubmit(editing: bool, outcome: SaveOutcome) returns (sent: Option<Submitted>, notice: Option<Notice>)
      modifies this
      ensures formData == old(formData)
      ensures !IsValid(old(formData)) ==>
        sent == None && notice == None && isLoading == old(isLoading)
        && errors == ValidationErrors(old(formData))
      ensures IsValid(old(formData)) ==>
        && sent == Some(Process(old(formData)))
        && !isLoading
        && errors.Keys == {SubmitError}
        && errors[SubmitError] == (if SaveFails(outcome) then SaveErrorMessage(editing, outcome) else "")
        && (notice.Some? <==> SaveSucceeds(editing, outcome))
        && (notice.Some? ==> notice.value == if editing then Updated(Process(old(formData))) else Added)
    {
      var valid := ValidateForm();
      if !valid {
        sent, notice := None, None;
        return;
      }
      isLoading := true;
      errors := errors[SubmitError := ""];
      var processed := Process(formData);
      sent := Some(processed);
      notice := None;
      match outcome {
        case SaveResponded(status, text) =>
          if IsSuccessStatus(status) {
            if editing && status == 200 {
              notice := Some(Updated(processed));
            } else if !editing && status == 201 {
              notice := Some(Added);
            }
          } else {
            errors := errors[SubmitError := SaveErrorMessage(editing, outcome)];
          }
        case SaveNoResponse =>
          errors := errors[SubmitError := SaveErrorMessage(editing, outcome)];
        case SaveRequestFailed =>
          errors := errors[SubmitError := SaveErrorMessage(editing, outcome)];
      }
      isLoading := false;
    }
  }
}
