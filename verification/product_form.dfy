/** The admin product form: it loads an existing product into the form
    store once, validates the fields, edits the specification map row by
    row, and submits a create or update payload. The submit callback and
    the cancel callback belong to the caller and are not modelled beyond
    being called. */
module ProductForm {
  import opened Wrappers
  import opened JsText
  import opened Types
  import opened ProductFormStore

  // ---------------- validation ----------------

  /** The keys of the error dictionary, one per checked field. */
  datatype Field = Name | Description | Price | ImageUrl | Stock | CategoryId

  /** Whether the check on field `k` fails on `f`. */
  predicate Fails(f: FormData, k: Field) {
    match k
    case Name => Blank(f.name)
    case Description => Blank(f.description)
    case Price => f.price <= 0
    case ImageUrl => Blank(f.imageUrl)
    case Stock => f.stock < 0
    case CategoryId => f.categoryId == ""
  }

  function Message(k: Field): string {
    match k
    case Name => "Name is required"
    case Description => "Description is required"
    case Price => "Price must be > 0"
    case ImageUrl => "Image URL is required"
    case Stock => "Stock cannot be negative"
    case CategoryId => "Category required"
  }

  /** The error dictionary, one entry per failing check. */
  function ValidationErrors(f: FormData): map<Field, string> {
    map k: Field | Fails(f, k) :: Message(k)
  }

  /** A form the validator accepts. */
  predicate FormValid(f: FormData) {
    !Blank(f.name) && !Blank(f.description) && f.price > 0
    && !Blank(f.imageUrl) && f.stock >= 0 && f.categoryId != ""
  }

  /** The validator reports nothing exactly on a valid form, and each field
      that fails is reported under its own key. */
  lemma ValidationErrorsEmptyIff(f: FormData)
    ensures ValidationErrors(f) == map[] <==> FormValid(f)
    ensures forall k :: k in ValidationErrors(f) <==> Fails(f, k)
  {
    if !FormValid(f) {
      var k: Field :| Fails(f, k);
      assert k in ValidationErrors(f);
    }
  }

  /** `validate`'s body: the dictionary is filled one check at a time. */
  method CollectErrors(f: FormData) returns (errs: map<Field, string>)
    ensures errs == ValidationErrors(f)
    ensures |errs| == 0 <==> FormValid(f)
  {
    BlankChecks(f);
    errs := map[];
    if Trim(f.name) == "" { errs := errs[Name := "Name is required"]; }
    if Trim(f.description) == "" { errs := errs[Description := "Description is required"]; }
    if f.price <= 0 { errs := errs[Price := "Price must be > 0"]; }
    if Trim(f.imageUrl) == "" { errs := errs[ImageUrl := "Image URL is required"]; }
    if f.stock < 0 { errs := errs[Stock := "Stock cannot be negative"]; }
    if f.categoryId == "" { errs := errs[CategoryId := "Category required"]; }
    forall k ensures k in errs <==> Fails(f, k) {
      match k
      case Name =>
      case Description =>
      case Price =>
      case ImageUrl =>
      case Stock =>
      case CategoryId =>
    }
    forall k | k in errs ensures errs[k] == Message(k) {
    }
    SameErrors(errs, f);
  }

  /** The three text checks of `validate`, read through `trim`. */
  lemma BlankChecks(f: FormData)
    ensures (Trim(f.name) == "") == Fails(f, Name)
    ensures (Trim(f.description) == "") == Fails(f, Description)
    ensures (Trim(f.imageUrl) == "") == Fails(f, ImageUrl)
  {
    TrimEmptyIffBlank(f.name);
    TrimEmptyIffBlank(f.description);
    TrimEmptyIffBlank(f.imageUrl);
  }

  /** Two dictionaries with the same failing keys and the same messages
      are the same dictionary. */
  lemma SameErrors(errs: map<Field, string>, f: FormData)
    requires forall k :: k in errs <==> Fails(f, k)
    requires forall k :: k in errs ==> errs[k] == Message(k)
    ensures errs == ValidationErrors(f)
    ensures |errs| == 0 <==> FormValid(f)
  {
    ValidationErrorsEmptyIff(f);
    if |errs| == 0 {
      assert errs == map[];
    }
  }

  // ---------------- loading an existing product ----------------

  /** Every specification value as text, `null` and `undefined` as "". */
  function StringSpecs(m: map<string, JsValue>): (r: Specs)
    ensures r.Keys == m.Keys
    ensures forall k :: k in m && (m[k] == JNull || m[k] == JUndefined) ==> r[k] == ""
    ensures forall k :: k in m && m[k].JString? ==> r[k] == m[k].s
  {
    map k | k in m :: SpecText(m[k])
  }

  /** The form filled from an existing product. */
  function InitialForm(p: Product): FormData {
    FormData(p.name, p.description, p.price, p.imageUrl, p.stock, p.categoryId.GetOr(""),
      StringSpecs(p.specifications))
  }

  /** A whole-number specification is shown as its decimal text and reads
      back as the same number. */
  lemma NumberSpecRoundTrip(m: map<string, JsValue>, k: string)
    requires k in m && m[k].JNumber?
    ensures ParseInt(StringSpecs(m)[k]) == Some(m[k].n)
  {
    ParseIntOfIntToString(m[k].n);
  }

  // ---------------- editing the specification map ----------------

  /** Saving an edited row: the old key goes, the new key holds the new
      value. */
  function Renamed(specs: Specs, key: string, newKey: string, newValue: string): Specs {
    WithSpec(WithoutSpec(specs, key), newKey, newValue)
  }

  /** A rename keeps every other key and its value, and drops the old key
      unless it is also the new one. */
  lemma RenameEffect(specs: Specs, key: string, newKey: string, newValue: string)
    ensures var r := Renamed(specs, key, newKey, newValue);
      newKey in r && r[newKey] == newValue
      && (key != newKey ==> key !in r)
      && (forall k :: k != key && k != newKey ==> (k in r <==> k in specs))
      && (forall k :: k != key && k != newKey && k in specs ==> r[k] == specs[k])
  {
  }

  /** Renaming a key to itself only replaces its value. */
  lemma RenameToSelf(specs: Specs, key: string, newValue: string)
    ensures Renamed(specs, key, key, newValue) == WithSpec(specs, key, newValue)
  {
  }

  /** The specification map `handleSubmit` merges the pending "new spec"
      inputs into when both are non-blank. */
  function PendingMerged(specs: Specs, newSpecKey: string, newSpecValue: string): Specs {
    if Trim(newSpecKey) != "" && Trim(newSpecValue) != "" then WithSpec(specs, Trim(newSpecKey), Trim(newSpecValue))
    else specs
  }

  // ---------------- the payload ----------------

  /** The object handed to `onSubmit`: an update carries the product id, a
      creation does not. Specification values are kept as text. */
  datatype ProductPayload = ProductPayload(
    id: Option<string>,
    name: string,
    description: string,
    price: int,
    imageUrl: string,
    stock: int,
    categoryId: string,
    specifications: Specs)

  function PayloadFor(initialData: Option<Product>, f: FormData): (p: ProductPayload)
    ensures p.id.Some? <==> initialData.Some?
    ensures p.id.Some? ==> p.id.value == initialData.value.id
    ensures f == FormData(p.name, p.description, p.price, p.imageUrl, p.stock, p.categoryId, p.specifications)
  {
    ProductPayload(if initialData.Some? then Some(initialData.value.id) else None,
      f.name, f.description, f.price, f.imageUrl, f.stock, f.categoryId, f.specs)
  }

  /** The form the submission is built from, as written: the values of the
      render the click belongs to, so a pending specification merged in the
      same click is not among them. */
  function SubmittedFormAsWritten(rendered: FormData, newSpecKey: string, newSpecValue: string): FormData {
    rendered
  }

  /** The form the submission is meant to carry: the rendered fields with
      the pending specification merged in. */
  function SubmittedForm(rendered: FormData, newSpecKey: string, newSpecValue: string): (f: FormData)
    ensures f == rendered.(specs := PendingMerged(rendered.specs, newSpecKey, newSpecValue))
    ensures Trim(newSpecKey) != "" && Trim(newSpecValue) != "" ==>
      Trim(newSpecKey) in f.specs && f.specs[Trim(newSpecKey)] == Trim(newSpecValue)
  {
    rendered.(specs := PendingMerged(rendered.specs, newSpecKey, newSpecValue))
  }

  /** A specification typed into the "new spec" inputs and submitted
      without pressing "Add" is missing from the payload as written, while
      the intended payload carries it. */
  lemma PendingSpecDropped()
    ensures var rendered := FormData("CPU", "fast", 100, "u", 1, "c", map[]);
      "cores" !in SubmittedFormAsWritten(rendered, "cores", "8").specs
      && "cores" in SubmittedForm(rendered, "cores", "8").specs
  {
    var rendered := FormData("CPU", "fast", 100, "u", 1, "c", map[]);
    assert !IsSpace('c') && !IsSpace('8') && !IsSpace('s');
    assert TrimStart("cores") == "cores" && TrimEnd("cores") == "cores";
    assert TrimStart("8") == "8" && TrimEnd("8") == "8";
    assert "cores" in PendingMerged(rendered.specs, "cores", "8");
  }

  class Form {
    const store: FormStore
    const initialData: Option<Product>
    var editingKey: Option<string>
    var tempKey: string
    var tempValue: string
    var newSpecKey: string
    var newSpecValue: string
    var errors: map<Field, string>
    var initialized: bool

    constructor (store: FormStore, initialData: Option<Product>)
      ensures this.store == store && this.initialData == initialData
      ensures editingKey == None && tempKey == "" && tempValue == ""
      ensures newSpecKey == "" && newSpecValue == "" && errors == map[] && !initialized
    {
      this.store := store;
      this.initialData := initialData;
      editingKey := None;
      tempKey, tempValue, newSpecKey, newSpecValue := "", "", "", "";
      errors := map[];
      initialized := false;
    }

    /** The initialisation effect: fills the store from `initialData` the
      first time it runs and never again. */
    method Initialize()
      modifies this, store
      ensures initialized
      ensures old(initialized) || initialData.None? ==> store.Partialize() == old(store.Partialize())
      ensures !old(initialized) && initialData.Some? ==> store.Partialize() == InitialForm(initialData.value)
      ensures store.hasHydrated == old(store.hasHydrated)
      ensures editingKey == old(editingKey) && errors == old(errors)
    {
      if initialized {
        return;
      }
      if initialData.Some? {
        var p := initialData.value;
        store.SetName(p.name);
        store.SetDescription(p.description);
        store.SetPrice(p.price);
        store.SetImageUrl(p.imageUrl);
        store.SetStock(p.stock);
        store.SetCategoryId(p.categoryId.GetOr(""));
        if |p.specifications| > 0 {
          store.SetSpecs(StringSpecs(p.specifications));
        } else {
          store.SetSpecs(map[]);
        }
      }
      initialized := true;
    }

    /** `validate`, over the field values of the current render. */
    method Validate(rendered: FormData) returns (ok: bool)
      modifies this
      ensures errors == ValidationErrors(rendered)
      ensures ok <==> FormValid(rendered)
      ensures editingKey == old(editingKey) && newSpecKey == old(newSpecKey) && newSpecValue == old(newSpecValue)
      ensures tempKey == old(tempKey) && tempValue == old(tempValue) && initialized == old(initialized)
    {
      var newErrors := CollectErrors(rendered);
      errors := newErrors;
      ok := |newErrors| == 0;
    }

    /** `handleCancel`: the form store is cleared, then the caller's cancel
      callback runs. */
    method HandleCancel()
      modifies store
      ensures store.Partialize() == EmptyForm && store.hasHydrated == old(store.hasHydrated)
    {
      store.ClearForm();
    }

    /** `handleRemoveSpec`: deleting the key being edited also ends the edit. */
    method HandleRemoveSpec(key: string)
      modifies this, store
      ensures store.Partialize() == old(store.Partialize()).(specs := WithoutSpec(old(store.specs), key))
      ensures editingKey == if old(editingKey) == Some(key) then None else old(editingKey)
      ensures tempKey == old(tempKey) && tempValue == old(tempValue)
      ensures newSpecKey == old(newSpecKey) && newSpecValue == old(newSpecValue)
      ensures errors == old(errors) && initialized == old(initialized)
      ensures store.hasHydrated == old(store.hasHydrated)
    {
      store.RemoveSpec(key);
      if editingKey == Some(key) {
        editingKey := None;
      }
    }

    /** The "Remove" button of a row: the key goes, but the edit state is
      left as it was. */
    method RemoveButton(key: string)
      modifies store
      ensures store.Partialize() == old(store.Partialize()).(specs := WithoutSpec(old(store.specs), key))
      ensures key !in store.specs
    {
      var updated := store.specs;
      updated := updated - {key};
      store.SetSpecs(updated);
    }

    /** The "Edit"/"Save" button of the row for `key`. On a row that is not
      being edited it starts editing with the row's key and value; on the
      row being edited it saves the trimmed inputs under the trimmed key,
      unless either is blank. */
    method EditOrSave(key: string)
      requires key in store.specs
      modifies this, store
      ensures old(editingKey) != Some(key) ==>
        editingKey == Some(key) && tempKey == key && tempValue == old(store.specs)[key]
        && store.Partialize() == old(store.Partialize())
      ensures old(editingKey) == Some(key) && (Blank(old(tempKey)) || Blank(old(tempValue))) ==>
        editingKey == old(editingKey) && store.Partialize() == old(store.Partialize())
      ensures old(editingKey) == Some(key) && !Blank(old(tempKey)) && !Blank(old(tempValue)) ==>
        editingKey == Some("")
        && store.Partialize() == old(store.Partialize()).(specs :=
             Renamed(old(store.specs), key, Trim(old(tempKey)), Trim(old(tempValue))))
      ensures old(editingKey) == Some(key) ==> tempKey == old(tempKey) && tempValue == old(tempValue)
      ensures newSpecKey == old(newSpecKey) && newSpecValue == old(newSpecValue)
      ensures errors == old(errors) && initialized == old(initialized)
      ensures store.hasHydrated == old(store.hasHydrated)
    {
      if editingKey == Some(key) {
        TrimEmptyIffBlank(tempKey);
        TrimEmptyIffBlank(tempValue);
        var newKey := Trim(tempKey);
        var newValue := Trim(tempValue);
        if newKey == "" || newValue == "" {
          return;
        }
        var updated := store.specs;
        updated := updated - {key};
        updated := updated[newKey := newValue];
        store.SetSpecs(updated);
        editingKey := Some("");
      } else {
        editingKey := Some(key);
        tempKey := key;
        tempValue := store.specs[key];
      }
    }

    /** The "Add" button: trims both inputs, ignores a blank one, otherwise
      inserts or overwrites the key and empties both inputs. */
    method AddButton()
      modifies this, store
      ensures Blank(old(newSpecKey)) || Blank(old(newSpecValue)) ==>
        store.Partialize() == old(store.Partialize())
        && newSpecKey == old(newSpecKey) && newSpecValue == old(newSpecValue)
      ensures !Blank(old(newSpecKey)) && !Blank(old(newSpecValue)) ==>
        store.Partialize() == old(store.Partialize()).(specs :=
          WithSpec(old(store.specs), Trim(old(newSpecKey)), Trim(old(newSpecValue))))
        && newSpecKey == "" && newSpecValue == ""
      ensures store.specs == PendingMerged(old(store.specs), old(newSpecKey), old(newSpecValue))
      ensures editingKey == old(editingKey)
    {
      TrimEmptyIffBlank(newSpecKey);
      TrimEmptyIffBlank(newSpecValue);
      var key := Trim(newSpecKey);
      var val := Trim(newSpecValue);
      if key == "" || val == "" {
        return;
      }
      store.SetSpecs(store.specs[key := val]);
      newSpecKey := "";
      newSpecValue := "";
    }

    /** The first half of `handleSubmit`, shared by both versions below:
      merge a pending specification into the store and empty the inputs,
      then validate the values of the current render. */
    method MergePendingAndValidate(rendered: FormData) returns (ok: bool)
      requires rendered == store.Partialize()
      modifies this, store
      ensures store.Partialize() == rendered.(specs := PendingMerged(rendered.specs, old(newSpecKey), old(newSpecValue)))
      ensures store.hasHydrated == old(store.hasHydrated)
      ensures !Blank(old(newSpecKey)) && !Blank(old(newSpecValue)) ==> newSpecKey == "" && newSpecValue == ""
      ensures Blank(old(newSpecKey)) || Blank(old(newSpecValue)) ==>
        newSpecKey == old(newSpecKey) && newSpecValue == old(newSpecValue)
      ensures editingKey == old(editingKey) && tempKey == old(tempKey) && tempValue == old(tempValue)
      ensures initialized == old(initialized)
      ensures errors == ValidationErrors(rendered)
      ensures ok <==> FormValid(rendered)
    {
      TrimEmptyIffBlank(newSpecKey);
      TrimEmptyIffBlank(newSpecValue);
      var k := Trim(newSpecKey);
      var v := Trim(newSpecValue);
      if k != "" && v != "" {
        store.SetSpecs(rendered.specs[k := v]);
        newSpecKey := "";
        newSpecValue := "";
      }
      ok := Validate(rendered);
    }

    /** `handleSubmit` as written: the payload is built from the render's
      specification map, so a pending specification is not submitted, and
      the store is cleared afterwards. */
    method HandleSubmitAsWritten() returns (payload: Option<ProductPayload>)
      modifies this, store
      ensures payload.Some? <==> FormValid(old(store.Partialize()))
      ensures payload.Some? ==>
        payload.value == PayloadFor(initialData, SubmittedFormAsWritten(old(store.Partialize()), old(newSpecKey), old(newSpecValue)))
      ensures payload.Some? ==> store.Partialize() == EmptyForm
      ensures payload.None? ==>
        store.Partialize() == SubmittedForm(old(store.Partialize()), old(newSpecKey), old(newSpecValue))
      ensures errors == ValidationErrors(old(store.Partialize()))
      ensures store.hasHydrated == old(store.hasHydrated)
      ensures !Blank(old(newSpecKey)) && !Blank(old(newSpecValue)) ==> newSpecKey == "" && newSpecValue == ""
      ensures Blank(old(newSpecKey)) || Blank(old(newSpecValue)) ==>
        newSpecKey == old(newSpecKey) && newSpecValue == old(newSpecValue)
      ensures editingKey == old(editingKey) && tempKey == old(tempKey) && tempValue == old(tempValue)
    {
      var rendered := store.Partialize();
      var ok := MergePendingAndValidate(rendered);
      if !ok {
        return None;
      }
      payload := Some(PayloadFor(initialData, rendered));
      store.ClearForm();
    }

    /** `handleSubmit` as intended: the payload carries the pending
      specification merged in the same click. On a valid form the store is
      cleared after the submission; on an invalid one the errors are shown
      and the merged specification stays in the store. */
    method HandleSubmit() returns (payload: Option<ProductPayload>)
      modifies this, store
      ensures payload.Some? <==> FormValid(old(store.Partialize()))
      ensures payload.Some? ==>
        payload.value == PayloadFor(initialData, SubmittedForm(old(store.Partialize()), old(newSpecKey), old(newSpecValue)))
      ensures payload.Some? ==> store.Partialize() == EmptyForm
      ensures payload.None? ==>
        store.Partialize() == SubmittedForm(old(store.Partialize()), old(newSpecKey), old(newSpecValue))
      ensures errors == ValidationErrors(old(store.Partialize()))
      ensures store.hasHydrated == old(store.hasHydrated)
      ensures !Blank(old(newSpecKey)) && !Blank(old(newSpecValue)) ==> newSpecKey == "" && newSpecValue == ""
      ensures Blank(old(newSpecKey)) || Blank(old(newSpecValue)) ==>
        newSpecKey == old(newSpecKey) && newSpecValue == old(newSpecValue)
      ensures editingKey == old(editingKey) && tempKey == old(tempKey) && tempValue == old(tempValue)
    {
      var rendered := store.Partialize();
      var submitted := SubmittedForm(rendered, newSpecKey, newSpecValue);
      var ok := MergePendingAndValidate(rendered);
      if !ok {
        return None;
      }
      payload := Some(PayloadFor(initialData, submitted));
      store.ClearForm();
    }
  }
}
