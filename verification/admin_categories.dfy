/** The admin category list: selection, the name check of the edit form,
    the client-side search, and the local list updates after a successful
    edit, add or delete. The database calls are remote and not modelled. */
module AdminCategories {
  import opened Wrappers
  import opened JsText
  import opened Types
  import AdminProducts

  // ---------------- selection ----------------

  /** `selectAll(e)`: a checked box selects every listed category, an
      unchecked one selects none. */
  function SelectAll(cs: seq<Category>, checked: bool): (sel: seq<string>)
    ensures checked ==> forall c :: c in cs ==> c.id in sel
    ensures checked ==> forall x :: x in sel ==> exists c :: c in cs && c.id == x
    ensures !checked ==> sel == []
  {
    if checked then Ids(cs, CategoryId) else []
  }

  /** `allSelected`: the header box is ticked when the selection is as long
      as the list. */
  predicate AllSelectedAsWritten(cs: seq<Category>, sel: seq<string>) {
    |cs| > 0 && |sel| == |cs|
  }

  /** Ticking the header box on a non-empty list ticks it; unticking it
      unticks it. */
  lemma SelectAllTicksBox(cs: seq<Category>)
    ensures |cs| > 0 ==> AllSelectedAsWritten(cs, SelectAll(cs, true))
    ensures !AllSelectedAsWritten(cs, SelectAll(cs, false))
  {
  }

  /** `toggleSelect` on this page is the same function as on the product
      page: it removes a present id and appends an absent one. */
  lemma ToggleSelectHere(sel: seq<string>, id: string)
    ensures id in sel ==> id !in AdminProducts.ToggleSelect(sel, id)
    ensures id !in sel ==> AdminProducts.ToggleSelect(sel, id) == sel + [id]
  {
  }

  // ---------------- validateForm ----------------

  /** `validateForm`: the error dictionary is filled step by step; only the
      trimmed name is checked. */
  method ValidateForm(name: string) returns (errors: map<string, string>, ok: bool)
    ensures "name" in errors <==> Blank(name)
    ensures "name" in errors ==> errors["name"] == "Name is required"
    ensures errors.Keys <= {"name"}
    ensures ok <==> !Blank(name)
  {
    TrimEmptyIffBlank(name);
    errors := map[];
    if Trim(name) == "" {
      errors := errors["name" := "Name is required"];
    }
    ok := |errors| == 0;
  }

  // ---------------- handleSearch ----------------

  /** A category matches when its name, or its non-empty description,
      contains the query, both lower-cased. The query is not trimmed. */
  predicate Matches(c: Category, query: string) {
    IncludesIgnoringCase(c.name, query)
    || (c.description.Some? && c.description.value != "" && IncludesIgnoringCase(c.description.value, query))
  }

  function FilterCategories(cs: seq<Category>, query: string): (r: seq<Category>)
    ensures forall c :: c in r <==> c in cs && Matches(c, query)
    ensures |r| <= |cs|
  {
    if cs == [] then []
    else (if Matches(cs[0], query) then [cs[0]] else []) + FilterCategories(cs[1..], query)
  }

  /** The filter keeps the list's order: it distributes over concatenation. */
  lemma {:induction false} FilterConcat(xs: seq<Category>, ys: seq<Category>, query: string)
    ensures FilterCategories(xs + ys, query) == FilterCategories(xs, query) + FilterCategories(ys, query)
  {
    if xs == [] {
      assert xs + ys == ys;
    } else {
      assert (xs + ys)[0] == xs[0] && (xs + ys)[1..] == xs[1..] + ys;
      FilterConcat(xs[1..], ys, query);
    }
  }

  datatype SearchOutcome =
    | Filtered(categories: seq<Category>)  // the list is replaced by the matches
    | Refetch                              // the whole list is fetched again

  function HandleSearch(cs: seq<Category>, query: string): SearchOutcome {
    if Trim(query) != "" then Filtered(FilterCategories(cs, query)) else Refetch
  }

  /** A blank query refetches; any other query keeps exactly the matching
      categories. */
  lemma HandleSearchEffect(cs: seq<Category>, query: string)
    ensures HandleSearch(cs, query) == Refetch <==> Blank(query)
    ensures !Blank(query) ==> forall c :: c in HandleSearch(cs, query).categories <==> c in cs && Matches(c, query)
  {
    TrimEmptyIffBlank(query);
  }

  // ---------------- local list updates ----------------

  /** The edit form's data; `id` is absent when the form was opened by
      "Add". */
  datatype CategoryFormData = CategoryFormData(id: Option<string>, name: string, description: string, imageUrl: string)

  /** `{ ...c, ...formData }`. */
  function Overlay(c: Category, fd: CategoryFormData): Category {
    c.(id := fd.id.GetOr(c.id), name := fd.name, description := Some(fd.description), imageUrl := Some(fd.imageUrl))
  }

  /** The list after a successful update of the category `currentId`. */
  function EditedLocally(cs: seq<Category>, currentId: string, fd: CategoryFormData): seq<Category> {
    seq(|cs|, i requires 0 <= i < |cs| => if cs[i].id == currentId then Overlay(cs[i], fd) else cs[i])
  }

  /** Only the edited category changes, and it takes the form's name,
      description and image; with the form opened on that category its id
      stays. */
  lemma EditedLocallyEffect(cs: seq<Category>, currentId: string, fd: CategoryFormData)
    requires fd.id == Some(currentId)
    ensures var r := EditedLocally(cs, currentId, fd);
      |r| == |cs|
      && (forall i :: 0 <= i < |cs| && cs[i].id != currentId ==> r[i] == cs[i])
      && (forall i :: 0 <= i < |cs| && cs[i].id == currentId ==>
            r[i] == cs[i].(name := fd.name, description := Some(fd.description), imageUrl := Some(fd.imageUrl)))
  {
  }

  /** The list after a successful insert: the returned row at the end. */
  function AddedLocally(cs: seq<Category>, row: Category): (r: seq<Category>)
    ensures |r| == |cs| + 1 && r[..|cs|] == cs && r[|cs|] == row
  {
    cs + [row]
  }

  /** The list after a successful delete of `id`. */
  function DeletedLocally(cs: seq<Category>, id: string): (r: seq<Category>)
    ensures forall c :: c in r <==> c in cs && c.id != id
  {
    if cs == [] then []
    else (if cs[0].id == id then [] else [cs[0]]) + DeletedLocally(cs[1..], id)
  }

  /** The delete keeps the order of the remaining categories. */
  lemma {:induction false} DeletedLocallyConcat(xs: seq<Category>, ys: seq<Category>, id: string)
    ensures DeletedLocally(xs + ys, id) == DeletedLocally(xs, id) + DeletedLocally(ys, id)
  {
    if xs == [] {
      assert xs + ys == ys;
    } else {
      assert (xs + ys)[0] == xs[0] && (xs + ys)[1..] == xs[1..] + ys;
      DeletedLocallyConcat(xs[1..], ys, id);
    }
  }

  /** Deleting an id that is not listed keeps the list as it is. */
  lemma {:induction false} DeleteAbsent(cs: seq<Category>, id: string)
    requires forall i :: 0 <= i < |cs| ==> cs[i].id != id
    ensures DeletedLocally(cs, id) == cs
  {
    if cs != [] {
      DeleteAbsent(cs[1..], id);
      assert [cs[0]] + cs[1..] == cs;
    }
  }
}
