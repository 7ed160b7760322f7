/** The persisted interface store: the admin search text, the product
    category filter, the product sort, a text draft and a half-filled
    "new product" form. Persistence itself is not modelled. */
module UiStore {
  import opened Wrappers
  import AdminProducts

  datatype NewProductForm = NewProductForm(
    name: string,
    description: string,
    price: int,
    imageUrl: string,
    stock: int,
    categoryId: string,
    specs: map<string, string>)

  const EmptyNewProductForm: NewProductForm := NewProductForm("", "", 0, "", 0, "", map[])

  /** A partial form: the fields the caller supplies. */
  datatype NewProductPatch = NewProductPatch(
    name: Option<string>,
    description: Option<string>,
    price: Option<int>,
    imageUrl: Option<string>,
    stock: Option<int>,
    categoryId: Option<string>,
    specs: Option<map<string, string>>)

  const NoChanges: NewProductPatch := NewProductPatch(None, None, None, None, None, None, None)

  /** `{ ...form, ...patch }`. */
  function Merge(form: NewProductForm, patch: NewProductPatch): NewProductForm {
    NewProductForm(
      patch.name.GetOr(form.name),
      patch.description.GetOr(form.description),
      patch.price.GetOr(form.price),
      patch.imageUrl.GetOr(form.imageUrl),
      patch.stock.GetOr(form.stock),
      patch.categoryId.GetOr(form.categoryId),
      patch.specs.GetOr(form.specs))
  }

  /** The patch that spreads `first` and then `second`. */
  function Then(first: NewProductPatch, second: NewProductPatch): NewProductPatch {
    NewProductPatch(
      if second.name.Some? then second.name else first.name,
      if second.description.Some? then second.description else first.description,
      if second.price.Some? then second.price else first.price,
      if second.imageUrl.Some? then second.imageUrl else first.imageUrl,
      if second.stock.Some? then second.stock else first.stock,
      if second.categoryId.Some? then second.categoryId else first.categoryId,
      if second.specs.Some? then second.specs else first.specs)
  }

  /** A supplied field is overwritten, every other field is kept; an empty
      patch changes nothing, and applying a patch again changes nothing
      more. */
  lemma MergeEffect(form: NewProductForm, patch: NewProductPatch)
    ensures patch.name.Some? ==> Merge(form, patch).name == patch.name.value
    ensures patch.name.None? ==> Merge(form, patch).name == form.name
    ensures patch.description.Some? ==> Merge(form, patch).description == patch.description.value
    ensures patch.description.None? ==> Merge(form, patch).description == form.description
    ensures patch.price.Some? ==> Merge(form, patch).price == patch.price.value
    ensures patch.price.None? ==> Merge(form, patch).price == form.price
    ensures patch.imageUrl.Some? ==> Merge(form, patch).imageUrl == patch.imageUrl.value
    ensures patch.imageUrl.None? ==> Merge(form, patch).imageUrl == form.imageUrl
    ensures patch.stock.Some? ==> Merge(form, patch).stock == patch.stock.value
    ensures patch.stock.None? ==> Merge(form, patch).stock == form.stock
    ensures patch.categoryId.Some? ==> Merge(form, patch).categoryId == patch.categoryId.value
    ensures patch.categoryId.None? ==> Merge(form, patch).categoryId == form.categoryId
    ensures patch.specs.Some? ==> Merge(form, patch).specs == patch.specs.value
    ensures patch.specs.None? ==> Merge(form, patch).specs == form.specs
    ensures Merge(form, NoChanges) == form
    ensures Merge(Merge(form, patch), patch) == Merge(form, patch)
  {
  }

  /** Two successive updates are one update with the later values winning. */
  lemma MergeThen(form: NewProductForm, first: NewProductPatch, second: NewProductPatch)
    ensures Merge(Merge(form, first), second) == Merge(form, Then(first, second))
  {
  }

  class Ui {
    var adminSearchQuery: string
    var productsFilterCategory: string
    var productsSortField: string
    var productsSortDirection: AdminProducts.SortDirection
    var draftText: string
    var newProductForm: NewProductForm

    constructor ()
      ensures adminSearchQuery == productsFilterCategory == draftText == ""
      ensures productsSortField == "name" && productsSortDirection == AdminProducts.Asc
      ensures newProductForm == EmptyNewProductForm
    {
      adminSearchQuery, productsFilterCategory, draftText := "", "", "";
      productsSortField, productsSortDirection := "name", AdminProducts.Asc;
      newProductForm := EmptyNewProductForm;
    }

    method SetAdminSearchQuery(value: string)
      modifies this
      ensures adminSearchQuery == value
      ensures productsFilterCategory == old(productsFilterCategory) && productsSortField == old(productsSortField)
      ensures productsSortDirection == old(productsSortDirection) && draftText == old(draftText)
      ensures newProductForm == old(newProductForm)
    {
      adminSearchQuery := value;
    }

    method SetProductsFilterCategory(value: string)
      modifies this
      ensures productsFilterCategory == value
      ensures adminSearchQuery == old(adminSearchQuery) && productsSortField == old(productsSortField)
      ensures productsSortDirection == old(productsSortDirection) && draftText == old(draftText)
      ensures newProductForm == old(newProductForm)
    {
      productsFilterCategory := value;
    }

    method SetProductsSortField(field: string)
      modifies this
      ensures productsSortField == field
      ensures adminSearchQuery == old(adminSearchQuery) && productsFilterCategory == old(productsFilterCategory)
      ensures productsSortDirection == old(productsSortDirection) && draftText == old(draftText)
      ensures newProductForm == old(newProductForm)
    {
      productsSortField := field;
    }

    method SetProductsSortDirection(direction: AdminProducts.SortDirection)
      modifies this
      ensures productsSortDirection == direction
      ensures adminSearchQuery == old(adminSearchQuery) && productsFilterCategory == old(productsFilterCategory)
      ensures productsSortField == old(productsSortField) && draftText == old(draftText)
      ensures newProductForm == old(newProductForm)
    {
      productsSortDirection := direction;
    }

    method SetDraftText(value: string)
      modifies this
      ensures draftText == value
      ensures adminSearchQuery == old(adminSearchQuery) && productsFilterCategory == old(productsFilterCategory)
      ensures productsSortField == old(productsSortField) && productsSortDirection == old(productsSortDirection)
      ensures newProductForm == old(newProductForm)
    {
      draftText := value;
    }

    method ClearDraftText()
      modifies this
      ensures draftText == ""
      ensures adminSearchQuery == old(adminSearchQuery) && productsFilterCategory == old(productsFilterCategory)
      ensures productsSortField == old(productsSortField) && productsSortDirection == old(productsSortDirection)
      ensures newProductForm == old(newProductForm)
    {
      draftText := "";
    }

    method SetNewProductForm(patch: NewProductPatch)
      modifies this
      ensures newProductForm == Merge(old(newProductForm), patch)
      ensures adminSearchQuery == old(adminSearchQuery) && productsFilterCategory == old(productsFilterCategory)
      ensures productsSortField == old(productsSortField) && productsSortDirection == old(productsSortDirection)
      ensures draftText == old(draftText)
    {
      newProductForm := Merge(newProductForm, patch);
    }

    method ClearNewProductForm()
      modifies this
      ensures newProductForm == EmptyNewProductForm
      ensures adminSearchQuery == old(adminSearchQuery) && productsFilterCategory == old(productsFilterCategory)
      ensures productsSortField == old(productsSortField) && productsSortDirection == old(productsSortDirection)
      ensures draftText == old(draftText)
    {
      newProductForm := EmptyNewProductForm;
    }
  }
}
