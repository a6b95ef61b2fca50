/** ListingsService.update: which edits send a listing back to moderation. */
module ListingUpdate {
  import opened Options
  import opened Text
  import opened Moderation

  type CategoryId = nat

  /** An optional property of the request body: `@IsOptional` lets both undefined and null through. */
  datatype Field = Absent | Null | Given(text: string)

  /** The request body. `rest` says whether the condition, status and images of the body parse. */
  datatype Payload = Payload(title: Field, description: Field, category: Field, department: Field, rest: bool)

  /** The moderated columns of `listings`. */
  datatype Row = Row(title: string, description: string, categoryId: CategoryId, department: Option<Department>)

  datatype Rejection = BadRequest | TypeError

  /** The columns that `data` sets and the decision of `shouldRemoderate`. */
  datatype Prepared = Prepared(
    title: Option<string>,
    description: Option<string>,
    categoryId: Option<CategoryId>,
    department: Option<Department>,
    remoderate: bool
  )

  /** The categories by slug, which is unique. */
  type Categories = map<string, CategoryId>

  predicate ValidCategories(cats: Categories) {
    forall a, b :: a in cats && b in cats && cats[a] == cats[b] ==> a == b
  }

  function SlugOf(cats: Categories, id: CategoryId): string
    requires ValidCategories(cats) && id in cats.Values
  {
    var slug :| slug in cats && cats[slug] == id;
    slug
  }

  function ParseDepartment(value: string): Result<Department, Rejection> {
    var v := Lower(Trim(value));
    if v == "cntt" then Ok(CNTT)
    else if v == "kinhtoe" then Ok(KINHTOE)
    else if v == "marketing" then Ok(MARKETING)
    else if v == "ngoaingu" then Ok(NGOAINGU)
    else if v == "luat" then Ok(LUAT)
    else if v == "quanly" then Ok(QUANLY)
    else if v == "kythuat" then Ok(KYTHUAT)
    else Err(BadRequest)
  }

  /** The value that the interface shows for a department, which is also the lower-case name that
      moderation reads. */
  function ShownName(d: Department): string {
    match d
    case CNTT => "cntt"
    case KINHTOE => "kinhtoe"
    case MARKETING => "marketing"
    case NGOAINGU => "ngoaingu"
    case LUAT => "luat"
    case QUANLY => "quanly"
    case KYTHUAT => "kythuat"
  }

  /** A department is read back from what is shown for it, up to case and white space, and from nothing
      else. */
  lemma DepartmentRoundTrip(value: string, d: Department)
    ensures ParseDepartment(value) == Ok(d) <==> Lower(Trim(value)) == ShownName(d)
    ensures ParseDepartment(value).Err? <==> forall e: Department :: Lower(Trim(value)) != ShownName(e)
  {
    if ParseDepartment(value).Err? {
      forall e: Department
        ensures Lower(Trim(value)) != ShownName(e)
      {
      }
    } else {
      assert Lower(Trim(value)) == ShownName(ParseDepartment(value).value);
    }
  }

  /** `shouldRemoderate`, with moderation enabled; calling trim on null throws. */
  function ShouldRemoderate(existing: Row, body: Payload, category: Option<CategoryId>): Result<bool, Rejection> {
    if body.title.Null? then Err(TypeError)
    else if body.title.Given? && Trim(body.title.text) != existing.title then Ok(true)
    else if body.description.Null? then Err(TypeError)
    else if body.description.Given? && Trim(body.description.text) != existing.description then Ok(true)
    else if body.category.Given? && Trim(body.category.text) != "" && category != Some(existing.categoryId) then Ok(true)
    else if body.department.Null? then Err(TypeError)
    else if body.department.Absent? || Trim(body.department.text) == "" then Ok(false)
    else
      match ParseDepartment(body.department.text)
      case Err(e) => Err(e)
      case Ok(d) => Ok(existing.department != Some(d))
  }

  /** Everything `update` computes before its write. */
  function Prepare(cats: Categories, existing: Row, body: Payload): Result<Prepared, Rejection> {
    var slug := if body.category.Given? then Lower(Trim(body.category.text)) else "";
    if slug != "" && slug !in cats then Err(BadRequest)
    else
      var category := if slug != "" then Some(cats[slug]) else None;
      if !body.rest then Err(BadRequest)
      else
        var department := if body.department.Given? && body.department.text != ""
                          then Some(ParseDepartment(body.department.text)) else None;
        if department.Some? && department.value.Err? then Err(BadRequest)
        else
          match ShouldRemoderate(existing, body, category)
          case Err(e) => Err(e)
          case Ok(remoderate) =>
            Ok(Prepared(
                 if body.title.Given? then Some(Trim(body.title.text)) else None,
                 if body.description.Given? then Some(Trim(body.description.text)) else None,
                 category,
                 if department.Some? then Some(department.value.value) else None,
                 remoderate))
  }

  /** The row after `listing.update`. */
  function Saved(existing: Row, p: Prepared): Row {
    Row(
      if p.title.Some? then p.title.value else existing.title,
      if p.description.Some? then p.description.value else existing.description,
      if p.categoryId.Some? then p.categoryId.value else existing.categoryId,
      if p.department.Some? then p.department else existing.department
    )
  }

  /** What `loadModerationInput` reads. */
  function InputOf(cats: Categories, row: Row): Input
    requires ValidCategories(cats) && row.categoryId in cats.Values
  {
    Input(row.title, row.description, SlugOf(cats, row.categoryId), row.department)
  }

  /** The edit in the terms of the moderation protocol. */
  function EditOf(cats: Categories, p: Prepared): Edit
    requires ValidCategories(cats) && (p.categoryId.Some? ==> p.categoryId.value in cats.Values)
  {
    Edit(p.title, p.description, if p.categoryId.Some? then Some(SlugOf(cats, p.categoryId.value)) else None, p.department)
  }

  lemma BlankDepartment(value: string)
    requires Trim(value) == ""
    ensures ParseDepartment(value).Err?
  {
    assert Lower("") == "";
  }

  lemma LowerEmpty(s: string)
    ensures Lower(s) == "" <==> s == ""
  {
    assert |Lower(s)| == |s|;
  }

  /** Remoderation is exact: for every accepted request, the listing goes back to moderation if and
      only if the input that moderation would load has changed. */
  lemma RemoderationIsExact(cats: Categories, existing: Row, body: Payload)
    requires ValidCategories(cats) && existing.categoryId in cats.Values
    requires Prepare(cats, existing, body).Ok?
    ensures
      var p := Prepare(cats, existing, body).value;
      && Saved(existing, p).categoryId in cats.Values
      && (p.remoderate <==> InputOf(cats, existing) != InputOf(cats, Saved(existing, p)))
      && (p.remoderate <==>
            || Saved(existing, p).title != existing.title || Saved(existing, p).description != existing.description
            || Saved(existing, p).categoryId != existing.categoryId || Saved(existing, p).department != existing.department)
  {
    if body.category.Given? {
      LowerEmpty(Trim(body.category.text));
    }
    if body.department.Given? && Trim(body.department.text) == "" {
      BlankDepartment(body.department.text);
    }
  }

  /** Which requests are accepted, and what is written: text trimmed, a category by its slug in lower case,
      a department by its shown name; what is absent, and a blank category, is left alone. */
  lemma AcceptedExactly(cats: Categories, existing: Row, body: Payload)
    requires ValidCategories(cats) && existing.categoryId in cats.Values
    ensures Prepare(cats, existing, body).Ok? ==>
      var row := Saved(existing, Prepare(cats, existing, body).value);
      && body.rest && !(body.title.Given? && row.title != Trim(body.title.text))
      && (!body.title.Given? ==> row.title == existing.title)
      && (body.description.Given? ==> row.description == Trim(body.description.text))
      && (!body.description.Given? ==> row.description == existing.description)
      && (if body.category.Given? && Lower(Trim(body.category.text)) != "" then
            Lower(Trim(body.category.text)) in cats && row.categoryId == cats[Lower(Trim(body.category.text))]
          else row.categoryId == existing.categoryId)
      && (if body.department.Given? && body.department.text != "" then
            row.department.Some? && Lower(Trim(body.department.text)) == ShownName(row.department.value)
          else row.department == existing.department)
    ensures Prepare(cats, existing, body) == Err(BadRequest) <==>
      || !body.rest
      || (body.category.Given? && Lower(Trim(body.category.text)) != "" && Lower(Trim(body.category.text)) !in cats)
      || (body.department.Given? && body.department.text != ""
          && forall d: Department :: Lower(Trim(body.department.text)) != ShownName(d))
    ensures Prepare(cats, existing, body) == Err(TypeError) ==>
      body.title.Null? || body.description.Null? || body.department.Null?
  {
    if body.department.Given? {
      if ParseDepartment(body.department.text).Ok? {
        DepartmentRoundTrip(body.department.text, ParseDepartment(body.department.text).value);
      } else {
        DepartmentRoundTrip(body.department.text, CNTT);
      }
      if Trim(body.department.text) == "" {
        BlankDepartment(body.department.text);
      }
    }
  }

  /** The decision and the write are those of the protocol's `WriteEdit` step. */
  lemma PrepareRefines(cats: Categories, existing: Row, body: Payload)
    requires ValidCategories(cats) && existing.categoryId in cats.Values
    requires Prepare(cats, existing, body).Ok?
    ensures
      var p := Prepare(cats, existing, body).value;
      && (p.categoryId.Some? ==> p.categoryId.value in cats.Values)
      && (p.remoderate <==> Remoderates(InputOf(cats, existing), EditOf(cats, p)))
      && forall row: Row | row.categoryId in cats.Values ::
           Saved(row, p).categoryId in cats.Values
           && InputOf(cats, Saved(row, p)) == Written(InputOf(cats, row), EditOf(cats, p))
  {
    RemoderationIsExact(cats, existing, body);
  }
}
