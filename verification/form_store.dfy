/** The persisted admin form record: five text fields that a partial
    update merges into and a clear resets. Persistence is not modelled. */
module FormStore {
  import opened Wrappers

  datatype FormRecord = FormRecord(name: string, description: string, imageUrl: string, price: string, categoryId: string)

  const EmptyRecord: FormRecord := FormRecord("", "", "", "", "")

  datatype FormPatch = FormPatch(
    name: Option<string>,
    description: Option<string>,
    imageUrl: Option<string>,
    price: Option<string>,
    categoryId: Option<string>)

  const NoChanges: FormPatch := FormPatch(None, None, None, None, None)

  /** `{ ...formData, ...data }`. */
  function Merge(record: FormRecord, patch: FormPatch): FormRecord {
    FormRecord(
      patch.name.GetOr(record.name),
      patch.description.GetOr(record.description),
      patch.imageUrl.GetOr(record.imageUrl),
      patch.price.GetOr(record.price),
      patch.categoryId.GetOr(record.categoryId))
  }

  /** The supplied keys are overwritten and only they; `setFormData({})`
      changes nothing. */
  lemma MergeEffect(record: FormRecord, patch: FormPatch)
    ensures patch.name.Some? ==> Merge(record, patch).name == patch.name.value
    ensures patch.name.None? ==> Merge(record, patch).name == record.name
    ensures patch.description.Some? ==> Merge(record, patch).description == patch.description.value
    ensures patch.description.None? ==> Merge(record, patch).description == record.description
    ensures patch.imageUrl.Some? ==> Merge(record, patch).imageUrl == patch.imageUrl.value
    ensures patch.imageUrl.None? ==> Merge(record, patch).imageUrl == record.imageUrl
    ensures patch.price.Some? ==> Merge(record, patch).price == patch.price.value
    ensures patch.price.None? ==> Merge(record, patch).price == record.price
    ensures patch.categoryId.Some? ==> Merge(record, patch).categoryId == patch.categoryId.value
    ensures patch.categoryId.None? ==> Merge(record, patch).categoryId == record.categoryId
    ensures Merge(record, NoChanges) == record
  {
  }

  /** A patch supplying every key replaces the whole record, whatever it
      held: clearing is such a patch. */
  lemma FullPatchReplaces(record: FormRecord, other: FormRecord)
    ensures Merge(record, FormPatch(Some(other.name), Some(other.description), Some(other.imageUrl), Some(other.price), Some(other.categoryId))) == other
  {
  }

  class Store {
    var formData: FormRecord

    constructor ()
      ensures formData == EmptyRecord
    {
      formData := EmptyRecord;
    }

    method SetFormData(patch: FormPatch)
      modifies this
      ensures formData == Merge(old(formData), patch)
    {
      formData := Merge(formData, patch);
    }

    method ClearFormData()
      modifies this
      ensures formData == EmptyRecord
    {
      formData := EmptyRecord;
    }
  }
}
