/** The persisted product-form store: seven form fields, the specification
    map, and a flag telling whether the saved copy has been loaded back.
    Prices and stock are integers here (prices in cents). */
module ProductFormStore {
  import opened Wrappers

  type Specs = map<string, string>

  /** The seven form fields: exactly what `partialize` saves. */
  datatype FormData = FormData(
    name: string,
    description: string,
    price: int,
    imageUrl: string,
    stock: int,
    categoryId: string,
    specs: Specs)

  /** The initial values, which `clearForm` restores. */
  const EmptyForm: FormData := FormData("", "", 0, "", 0, "", map[])

  /** `{ ...specs, [key]: value }`: used by `addSpec` and `editSpec` alike. */
  function WithSpec(specs: Specs, key: string, value: string): (r: Specs)
    ensures key in r && r[key] == value
    ensures forall k :: k != key ==> (k in r <==> k in specs)
    ensures forall k :: k != key && k in specs ==> r[k] == specs[k]
  {
    specs[key := value]
  }

  /** A copy of `specs` with `delete copy[key]`. */
  function WithoutSpec(specs: Specs, key: string): (r: Specs)
    ensures key !in r
    ensures forall k :: k != key ==> (k in r <==> k in specs)
    ensures forall k :: k in r ==> r[k] == specs[k]
  {
    specs - {key}
  }

  /** Deleting a key that is not there changes nothing. */
  lemma RemoveAbsentSpec(specs: Specs, key: string)
    requires key !in specs
    ensures WithoutSpec(specs, key) == specs
  {
  }

  /** Overwriting a key and then deleting it is the same as deleting it. */
  lemma AddThenRemoveSpec(specs: Specs, key: string, value: string)
    ensures WithoutSpec(WithSpec(specs, key, value), key) == WithoutSpec(specs, key)
  {
  }

  class FormStore {
    var name: string
    var description: string
    var price: int
    var imageUrl: string
    var stock: int
    var categoryId: string
    var specs: Specs
    var hasHydrated: bool

    /** `partialize`: the saved part of the state, never `hasHydrated`. */
    function Partialize(): FormData
      reads this
    {
      FormData(name, description, price, imageUrl, stock, categoryId, specs)
    }

    constructor ()
      ensures Partialize() == EmptyForm && !hasHydrated
    {
      name, description, price, imageUrl, stock, categoryId, specs := "", "", 0, "", 0, "", map[];
      hasHydrated := false;
    }

    method SetName(v: string)
      modifies this
      ensures Partialize() == old(Partialize()).(name := v) && hasHydrated == old(hasHydrated)
    {
      name := v;
    }

    method SetDescription(v: string)
      modifies this
      ensures Partialize() == old(Partialize()).(description := v) && hasHydrated == old(hasHydrated)
    {
      description := v;
    }

    method SetPrice(v: int)
      modifies this
      ensures Partialize() == old(Partialize()).(price := v) && hasHydrated == old(hasHydrated)
    {
      price := v;
    }

    method SetImageUrl(v: string)
      modifies this
      ensures Partialize() == old(Partialize()).(imageUrl := v) && hasHydrated == old(hasHydrated)
    {
      imageUrl := v;
    }

    method SetStock(v: int)
      modifies this
      ensures Partialize() == old(Partialize()).(stock := v) && hasHydrated == old(hasHydrated)
    {
      stock := v;
    }

    method SetCategoryId(v: string)
      modifies this
      ensures Partialize() == old(Partialize()).(categoryId := v) && hasHydrated == old(hasHydrated)
    {
      categoryId := v;
    }

    /** `setSpecs`: replaces the whole map. */
    method SetSpecs(s: Specs)
      modifies this
      ensures Partialize() == old(Partialize()).(specs := s) && hasHydrated == old(hasHydrated)
    {
      specs := s;
    }

    method AddSpec(key: string, value: string)
      modifies this
      ensures Partialize() == old(Partialize()).(specs := WithSpec(old(specs), key, value))
      ensures hasHydrated == old(hasHydrated)
    {
      specs := specs[key := value];
    }

    method EditSpec(key: string, value: string)
      modifies this
      ensures Partialize() == old(Partialize()).(specs := WithSpec(old(specs), key, value))
      ensures hasHydrated == old(hasHydrated)
    {
      specs := specs[key := value];
    }

    method RemoveSpec(key: string)
      modifies this
      ensures Partialize() == old(Partialize()).(specs := WithoutSpec(old(specs), key))
      ensures key !in old(specs) ==> specs == old(specs)
      ensures hasHydrated == old(hasHydrated)
    {
      var newSpecs := specs;
      newSpecs := newSpecs - {key};
      specs := newSpecs;
    }

    /** `clearForm`: the seven fields go back to their initial values; the
      hydration flag is left alone. */
    method ClearForm()
      modifies this
      ensures Partialize() == EmptyForm && hasHydrated == old(hasHydrated)
    {
      name, description, price, imageUrl, stock, categoryId, specs := "", "", 0, "", 0, "", map[];
    }

    method SetHasHydrated(v: bool)
      modifies this
      ensures Partialize() == old(Partialize()) && hasHydrated == v
    {
      hasHydrated := v;
    }

    /** Loading the saved copy back: the saved fields, if any, replace the
      current ones, and then `onRehydrateStorage` sets the flag. */
    method Rehydrate(saved: Option<FormData>)
      modifies this
      ensures saved.Some? ==> Partialize() == saved.value
      ensures saved.None? ==> Partialize() == old(Partialize())
      ensures hasHydrated
    {
      if saved.Some? {
        var f := saved.value;
        name, description, price, imageUrl, stock, categoryId, specs :=
          f.name, f.description, f.price, f.imageUrl, f.stock, f.categoryId, f.specs;
      }
      SetHasHydrated(true);
    }
  }
}
