/** The subcategory create/edit dialog: its validation rule and the values
    the form is filled with. */
module SubcategoryModal {
  import opened Js

  datatype CategoryOption = CategoryOption(id: int, name: string)

  /** `Partial<FormData>`: either field may be missing. */
  datatype InitialData = InitialData(name: Option<string>, categoryId: Option<int>)

  datatype FormValues = FormValues(name: string, categoryId: int)

  /** The schema: a non-empty name (the category id is any number). */
  predicate Accepts(v: FormValues)
  {
    |v.name| >= 1
  }

  /** `initialData?.name || ""` */
  function DefaultName(initial: Option<InitialData>): (r: string)
    ensures initial.Some? && Present(initial.value.name) ==> r == initial.value.name.value
    ensures !(initial.Some? && Present(initial.value.name)) ==> r == ""
  {
    if initial.Some? && Present(initial.value.name) then initial.value.name.value else ""
  }

  /** `initialData?.categoryId || categoryOptions[0]?.id || 0`: the first of
      the initial id and the first option's id that is not 0, else 0. */
  function DefaultCategoryId(initial: Option<InitialData>, options: seq<CategoryOption>): (r: int)
    ensures initial.Some? && PresentId(initial.value.categoryId) ==> r == initial.value.categoryId.value
    ensures !(initial.Some? && PresentId(initial.value.categoryId)) && options != [] && options[0].id != 0 ==>
              r == options[0].id
    ensures r != 0 ==> (initial.Some? && initial.value.categoryId == Some(r)) || (options != [] && options[0].id == r)
  {
    if initial.Some? && PresentId(initial.value.categoryId) then initial.value.categoryId.value
    else if options != [] && options[0].id != 0 then options[0].id
    else 0
  }

  function Defaults(initial: Option<InitialData>, options: seq<CategoryOption>): FormValues
  {
    FormValues(DefaultName(initial), DefaultCategoryId(initial, options))
  }

  /** The reset effect: when the dialog is open the form returns to the
      defaults, otherwise it keeps what it has. */
  function AfterEffect(open: bool, current: FormValues, initial: Option<InitialData>, options: seq<CategoryOption>): (r: FormValues)
    ensures open ==> r == Defaults(initial, options)
    ensures !open ==> r == current
  {
    if open then Defaults(initial, options) else current
  }

  /** The defaults pass validation exactly when a non-empty initial name was given. */
  lemma DefaultsAcceptedIffNamed(initial: Option<InitialData>, options: seq<CategoryOption>)
    ensures Accepts(Defaults(initial, options)) <==> initial.Some? && Present(initial.value.name)
  {
  }

  /** With no initial id, a new subcategory goes to the first listed
      category, or to 0 when the list is empty or starts with id 0. */
  lemma NewSubcategoryCategory(options: seq<CategoryOption>)
    ensures DefaultCategoryId(None, options) == (if options == [] then 0 else options[0].id)
  {
  }
}
