/** The persisted fields of the category dialog and the two operations on
    them. Persistence is not modelled. */
module CategoryModalStore {
  datatype ModalField = Name | Description | ImageUrl

  datatype ModalFields = ModalFields(name: string, description: string, imageUrl: string)

  const Cleared: ModalFields := ModalFields("", "", "")

  function Get(s: ModalFields, f: ModalField): string {
    match f
    case Name => s.name
    case Description => s.description
    case ImageUrl => s.imageUrl
  }

  /** `{ ...state, [field]: value }`. */
  function WithField(s: ModalFields, f: ModalField, value: string): (r: ModalFields)
    ensures Get(r, f) == value
    ensures forall g :: g != f ==> Get(r, g) == Get(s, g)
  {
    match f
    case Name => s.(name := value)
    case Description => s.(description := value)
    case ImageUrl => s.(imageUrl := value)
  }

  /** Setting one field twice keeps the later value; setting two different
      fields gives the same state in either order. */
  lemma WithFieldLaws(s: ModalFields, f: ModalField, g: ModalField, v: string, w: string)
    ensures WithField(WithField(s, f, v), f, w) == WithField(s, f, w)
    ensures f != g ==> WithField(WithField(s, f, v), g, w) == WithField(WithField(s, g, w), f, v)
  {
  }

  class CategoryModal {
    var name: string
    var description: string
    var imageUrl: string

    function Fields(): ModalFields
      reads this
    {
      ModalFields(name, description, imageUrl)
    }

    constructor ()
      ensures Fields() == Cleared
    {
      name, description, imageUrl := "", "", "";
    }

    method SetField(f: ModalField, value: string)
      modifies this
      ensures Fields() == WithField(old(Fields()), f, value)
    {
      match f
      case Name => name := value;
      case Description => description := value;
      case ImageUrl => imageUrl := value;
    }

    /** Whatever was set before, the fields are empty again. */
    method Reset()
      modifies this
      ensures Fields() == Cleared
      ensures forall f :: Get(Fields(), f) == ""
    {
      name, description, imageUrl := "", "", "";
    }
  }
}
