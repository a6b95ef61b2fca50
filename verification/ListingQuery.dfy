/** ListingsService.buildListWhere: the compilation of a list query into a database filter. */
module ListingQuery {
  import opened Options
  import opened Sets
  import opened Text
  import opened Moderation

  type CategoryId = nat

  datatype Condition = New | LikeNew | Good | Fair
  datatype ListingStatus = Selling | Reserved | Sold
  datatype Approval = ApprovalPending | ApprovalApproved | ApprovalRejected

  /** The parsers of the enum values; None stands for their exception. */
  datatype Parsers = Parsers(
    condition: string -> Option<Condition>,
    status: string -> Option<ListingStatus>,
    department: string -> Option<Department>,
    approval: string -> Option<Approval>
  )

  datatype Query = Query(
    search: Option<string>,
    category: Option<string>,
    categories: seq<string>,
    condition: Option<string>,
    conditions: seq<string>,
    department: Option<string>,
    departments: seq<string>,
    status: Option<string>,
    approval: Option<string>,
    minPrice: Option<int>,
    maxPrice: Option<int>
  )

  datatype Row = Row(
    title: string,
    description: string,
    price: int,
    category: CategoryId,
    condition: Condition,
    status: ListingStatus,
    department: Option<Department>,
    approval: Approval
  )

  datatype Rejection = Forbidden | BadRequest

  // ----- the filter and its meaning -----

  datatype Filter<T> = Equals(value: T) | In(values: seq<T>)

  datatype Where = Where(
    approval: Approval,
    search: Option<string>,
    category: Option<Filter<CategoryId>>,
    condition: Option<Filter<Condition>>,
    status: Option<ListingStatus>,
    department: Option<Filter<Department>>,
    price: Option<(Option<int>, Option<int>)>
  )

  predicate Admits<T(==)>(f: Option<Filter<T>>, v: T) {
    match f
    case None => true
    case Some(Equals(value)) => v == value
    case Some(In(values)) => v in values
  }

  /** `{ gte, lte }`, where undefined is no bound. */
  predicate InRange(bounds: (Option<int>, Option<int>), price: int) {
    (bounds.0.Some? ==> bounds.0.value <= price) && (bounds.1.Some? ==> price <= bounds.1.value)
  }

  /** What PostgreSQL returns; a NULL department satisfies no department filter. */
  predicate Satisfies(row: Row, w: Where, contains: (string, string) -> bool) {
    && row.approval == w.approval
    && (w.search.Some? ==> contains(row.title, w.search.value) || contains(row.description, w.search.value))
    && Admits(w.category, row.category)
    && Admits(w.condition, row.condition)
    && (w.status.Some? ==> row.status == w.status.value)
    && (w.department.Some? ==> row.department.Some? && Admits(w.department, row.department.value))
    && (w.price.Some? ==> InRange(w.price.value, row.price))
  }

  // ----- the words of a query -----

  /** `query.x?.trim()` as a truthy value. */
  function Word(s: Option<string>): Option<string> {
    if s.Some? && Trim(s.value) != "" then Some(Trim(s.value)) else None
  }

  predicate Distinct(words: seq<string>) {
    forall i, j :: 0 <= i < j < |words| ==> words[i] != words[j]
  }

  /** `Array.from(new Set(words))` */
  function Dedup(words: seq<string>): (r: seq<string>)
    ensures forall w :: w in r <==> w in words
    ensures Distinct(r)
  {
    if words == [] then []
    else
      var init := Dedup(words[..|words| - 1]);
      if words[|words| - 1] in init then init else init + [words[|words| - 1]]
  }

  /** `filter(Boolean)` */
  function NonEmpty(words: seq<string>): (r: seq<string>)
    ensures forall w :: w in r <==> w in words && w != ""
    ensures Distinct(words) ==> Distinct(r)
  {
    if words == [] then []
    else
      var init, last := words[..|words| - 1], words[|words| - 1];
      assert words == init + [last];
      assert Distinct(words) ==> Distinct(init) && last !in init;
      if last == "" then NonEmpty(init) else NonEmpty(init) + [last]
  }

  // ----- the requested filters, plainly -----

  /** A word counts if it is not empty and stands in the list or is the single value, trimmed. */
  predicate Asks(single: Option<string>, several: seq<string>, w: string) {
    w != "" && (w in several || (single.Some? && w == Trim(single.value)))
  }

  /** A category counts by its slug in lower case. */
  predicate AsksSlug(q: Query, slug: string) {
    && slug != ""
    && (|| (q.category.Some? && slug == Lower(Trim(q.category.value)))
        || exists w :: w in q.categories && slug == Lower(Trim(w)))
  }

  /** Without a word the column is free; otherwise one of the words must mean the value. */
  ghost predicate Matching<T>(single: Option<string>, several: seq<string>, parse: string -> Option<T>, v: T) {
    (forall w :: !Asks(single, several, w)) || exists w :: Asks(single, several, w) && parse(w) == Some(v)
  }

  ghost predicate MatchingCategory(q: Query, cats: map<string, CategoryId>, id: CategoryId) {
    (forall slug :: !AsksSlug(q, slug)) || exists slug :: AsksSlug(q, slug) && slug in cats && cats[slug] == id
  }

  ghost predicate Requested(q: Query, cats: map<string, CategoryId>, ps: Parsers, contains: (string, string) -> bool, row: Row) {
    && (if q.approval.Some? && q.approval.value != "" then ps.approval(q.approval.value) == Some(row.approval)
        else row.approval == ApprovalApproved)
    && (q.search.Some? && Trim(q.search.value) != "" ==>
          contains(row.title, Trim(q.search.value)) || contains(row.description, Trim(q.search.value)))
    && MatchingCategory(q, cats, row.category)
    && Matching(q.condition, q.conditions, ps.condition, row.condition)
    && (q.status.Some? && Trim(q.status.value) != "" ==> ps.status(q.status.value) == Some(row.status))
    && (|| (forall w :: !Asks(q.department, q.departments, w))
        || (row.department.Some? && Matching(q.department, q.departments, ps.department, row.department.value)))
    && (q.minPrice.Some? ==> q.minPrice.value <= row.price)
    && (q.maxPrice.Some? ==> row.price <= q.maxPrice.value)
  }

  /** A query that names something unknown. */
  ghost predicate Malformed(q: Query, cats: map<string, CategoryId>, ps: Parsers) {
    || (q.approval.Some? && q.approval.value != "" && ps.approval(q.approval.value).None?)
    || (exists slug :: AsksSlug(q, slug) && slug !in cats)
    || (exists w :: Asks(q.condition, q.conditions, w) && ps.condition(w).None?)
    || (q.status.Some? && Trim(q.status.value) != "" && ps.status(q.status.value).None?)
    || (exists w :: Asks(q.department, q.departments, w) && ps.department(w).None?)
  }

  // ----- compilation -----

  /** The single value, if it is one, and the list. */
  function Both(single: Option<string>, several: seq<string>): seq<string> {
    (if Word(single).Some? then [Word(single).value] else []) + several
  }

  function Normalized(words: seq<string>): seq<string> {
    seq(|words|, i requires 0 <= i < |words| => Lower(Trim(words[i])))
  }

  lemma BothAsks(single: Option<string>, several: seq<string>, w: string)
    ensures w in Both(single, several) && w != "" <==> Asks(single, several, w)
  {
  }

  lemma InNormalized(words: seq<string>, slug: string)
    ensures slug in Normalized(words) <==> exists w :: w in words && slug == Lower(Trim(w))
  {
    if slug in Normalized(words) {
      var i :| 0 <= i < |words| && Normalized(words)[i] == slug;
      assert words[i] in words;
    }
    if w :| w in words && slug == Lower(Trim(w)) {
      var i :| 0 <= i < |words| && words[i] == w;
      assert Normalized(words)[i] == slug;
    }
  }

  lemma NormalizedAsks(q: Query, slug: string)
    ensures slug in Normalized(Both(q.category, q.categories)) && slug != "" <==> AsksSlug(q, slug)
  {
    hide Trim, Lower, Normalized;
    InNormalized(Both(q.category, q.categories), slug);
    assert Lower("") == "" by { LowerExactly(""); }
    if q.category.Some? {
      var lead, tail := TrimExactly(q.category.value);
    }
  }

  /** `map` with a parser that throws on the first unknown word. */
  function ParseAll<T>(words: seq<string>, parse: string -> Option<T>): (r: Option<seq<T>>)
    ensures r.None? <==> exists w :: w in words && parse(w).None?
    ensures r.Some? ==> |r.value| == |words| && forall i :: 0 <= i < |words| ==> parse(words[i]) == Some(r.value[i])
  {
    if words == [] then Some([])
    else
      var rest := ParseAll(words[..|words| - 1], parse);
      var last := parse(words[|words| - 1]);
      assert forall w :: w in words <==> w in words[..|words| - 1] || w == words[|words| - 1];
      if rest.Some? && last.Some? then Some(rest.value + [last.value]) else None
  }

  /** `values.length === 1 ? values[0] : { in: values }`, and no filter for an empty list. */
  function Collapse<T>(values: seq<T>): Option<Filter<T>> {
    if |values| == 0 then None else if |values| == 1 then Some(Equals(values[0])) else Some(In(values))
  }

  lemma CollapseAdmits<T>(values: seq<T>, v: T)
    ensures Admits(Collapse(values), v) <==> values == [] || v in values
  {
  }

  /** `category.findMany` by slug, which is unique: every category that is named comes once, in any
      order.  The rows are given by their slugs. */
  method FindCategories(cats: map<string, CategoryId>, slugs: seq<string>) returns (rows: seq<string>)
    ensures Distinct(rows) && forall slug :: slug in rows <==> slug in slugs && slug in cats
  {
    rows := [];
    for n := 0 to |slugs|
      invariant Distinct(rows) && forall slug :: slug in rows <==> slug in slugs[..n] && slug in cats
    {
      assert slugs[..n + 1] == slugs[..n] + [slugs[n]];
      if slugs[n] in cats && slugs[n] !in rows {
        rows := rows + [slugs[n]];
      }
    }
    assert slugs[..|slugs|] == slugs;
  }

  function Elements(words: seq<string>): set<string> {
    set w | w in words
  }

  lemma {:induction false} DistinctSize(words: seq<string>)
    requires Distinct(words)
    ensures |Elements(words)| == |words|
  {
    if words != [] {
      var init, last := words[..|words| - 1], words[|words| - 1];
      DistinctSize(init);
      assert words == init + [last] && last !in init;
      assert Elements(words) == Elements(init) + {last};
    }
  }

  /** The length comparison tells whether every slug was found, because neither list repeats itself. */
  lemma AllFound(cats: map<string, CategoryId>, slugs: seq<string>, rows: seq<string>)
    requires Distinct(slugs) && Distinct(rows)
    requires forall slug :: slug in rows <==> slug in slugs && slug in cats
    ensures |rows| == |slugs| <==> forall slug :: slug in slugs ==> slug in cats
  {
    DistinctSize(slugs);
    DistinctSize(rows);
    assert Elements(rows) <= Elements(slugs);
    if exists slug :: slug in slugs && slug !in cats {
      var slug :| slug in slugs && slug !in cats;
      assert slug in Elements(slugs) && slug !in Elements(rows);
      SubsetSize(Elements(rows), Elements(slugs));
    } else {
      assert Elements(rows) == Elements(slugs);
    }
  }

  lemma WordsAdmit<T>(words: seq<string>, single: Option<string>, several: seq<string>, values: seq<T>,
                      parse: string -> Option<T>, v: T)
    requires forall w :: w in words <==> Asks(single, several, w)
    requires |values| == |words| && forall i :: 0 <= i < |words| ==> parse(words[i]) == Some(values[i])
    ensures Admits(Collapse(values), v) <==> Matching(single, several, parse, v)
  {
    CollapseAdmits(values, v);
    if words != [] {
      assert words[0] in words;
    }
    if v in values {
      var i :| 0 <= i < |values| && values[i] == v;
      assert words[i] in words && parse(words[i]) == Some(v);
    }
    if exists w :: Asks(single, several, w) && parse(w) == Some(v) {
      var w :| Asks(single, several, w) && parse(w) == Some(v);
      assert w in words;
      var i :| 0 <= i < |words| && words[i] == w;
      assert values[i] == v;
    }
  }

  /** One enum column: the filter that the words compile to admits a value if and only if one of them
      means it, with duplicates, singletons and empty words included. */
  method CompileWords<T(==)>(single: Option<string>, several: seq<string>, parse: string -> Option<T>)
    returns (r: Result<Option<Filter<T>>, Rejection>)
    ensures r.Err? <==> exists w :: Asks(single, several, w) && parse(w).None?
    ensures r.Ok? ==> (r.value.None? <==> forall w :: !Asks(single, several, w))
    ensures r.Ok? ==> forall v :: Admits(r.value, v) <==> Matching(single, several, parse, v)
  {
    var words := NonEmpty(Dedup(Both(single, several)));
    forall w
      ensures w in words <==> Asks(single, several, w)
    {
      BothAsks(single, several, w);
    }
    var parsed := ParseAll(words, parse);
    if parsed.None? {
      return Err(BadRequest);
    }
    var values := parsed.value;
    forall v
      ensures Admits(Collapse(values), v) <==> Matching(single, several, parse, v)
    {
      WordsAdmit(words, single, several, values, parse, v);
    }
    assert words != [] ==> words[0] in words;
    r := Ok(Collapse(values));
  }

  method CompileCategories(q: Query, cats: map<string, CategoryId>) returns (r: Result<Option<Filter<CategoryId>>, Rejection>)
    ensures r.Err? <==> exists slug :: AsksSlug(q, slug) && slug !in cats
    ensures r.Ok? ==> forall id :: Admits(r.value, id) <==> MatchingCategory(q, cats, id)
  {
    var slugs := Dedup(NonEmpty(Normalized(Both(q.category, q.categories))));
    forall slug
      ensures slug in slugs <==> AsksSlug(q, slug)
    {
      NormalizedAsks(q, slug);
    }
    if |slugs| == 0 {
      return Ok(None);
    }
    assert slugs[0] in slugs;
    var categories := FindCategories(cats, slugs);
    AllFound(cats, slugs, categories);
    if |categories| != |slugs| {
      return Err(BadRequest);
    }
    var ids := seq(|categories|, i requires 0 <= i < |categories| => cats[categories[i]]);
    forall id
      ensures Admits(Collapse(ids), id) <==> MatchingCategory(q, cats, id)
    {
      CategoryAdmits(cats, categories, ids, id);
    }
    r := Ok(Collapse(ids));
  }

  lemma CategoryAdmits(cats: map<string, CategoryId>, rows: seq<string>, ids: seq<CategoryId>, id: CategoryId)
    requires rows != [] && |ids| == |rows| && forall i :: 0 <= i < |rows| ==> rows[i] in cats && ids[i] == cats[rows[i]]
    ensures Admits(Collapse(ids), id) <==> exists slug :: slug in rows && slug in cats && cats[slug] == id
  {
    CollapseAdmits(ids, id);
    if exists slug :: slug in rows && slug in cats && cats[slug] == id {
      var slug :| slug in rows && slug in cats && cats[slug] == id;
      var i :| 0 <= i < |rows| && rows[i] == slug;
      assert ids[i] == id;
    }
    if id in ids {
      var i :| 0 <= i < |ids| && ids[i] == id;
      assert rows[i] in rows;
    }
  }

  /** The filter, column by column. */
  ghost predicate Compiled(q: Query, cats: map<string, CategoryId>, ps: Parsers, w: Where) {
    && (if q.approval.Some? && q.approval.value != "" then ps.approval(q.approval.value) == Some(w.approval)
        else w.approval == ApprovalApproved)
    && w.search == Word(q.search)
    && (forall id :: Admits(w.category, id) <==> MatchingCategory(q, cats, id))
    && (forall v :: Admits(w.condition, v) <==> Matching(q.condition, q.conditions, ps.condition, v))
    && w.status == (if Word(q.status).Some? then ps.status(q.status.value) else None)
    && (Word(q.status).Some? ==> w.status.Some?)
    && (w.department.None? <==> forall x :: !Asks(q.department, q.departments, x))
    && (forall v :: Admits(w.department, v) <==> Matching(q.department, q.departments, ps.department, v))
    && w.price == (if q.minPrice.Some? || q.maxPrice.Some? then Some((q.minPrice, q.maxPrice)) else None)
  }

  lemma CompiledMeans(q: Query, cats: map<string, CategoryId>, ps: Parsers, w: Where, row: Row, contains: (string, string) -> bool)
    requires Compiled(q, cats, ps, w)
    ensures Satisfies(row, w, contains) <==> Requested(q, cats, ps, contains, row)
  {
  }

  /** The compiled filter returns exactly the listings that satisfy every requested filter, and a
      query is rejected exactly when it asks for a status that only administrators may filter by, or
      names an unknown value or category. */
  method BuildListWhere(q: Query, isAdmin: bool, cats: map<string, CategoryId>, ps: Parsers) returns (r: Result<Where, Rejection>)
    ensures r == Err(Forbidden) <==> q.approval.Some? && q.approval.value != "" && !isAdmin
    ensures r == Err(BadRequest) <==> r != Err(Forbidden) && Malformed(q, cats, ps)
    ensures r.Ok? ==> forall row, contains :: Satisfies(row, r.value, contains) <==> Requested(q, cats, ps, contains, row)
  {
    var filtersApproval := q.approval.Some? && q.approval.value != "";
    if filtersApproval && !isAdmin {
      return Err(Forbidden);
    }
    var where := Where(ApprovalApproved, None, None, None, None, None, None);
    if filtersApproval {
      var approval := ps.approval(q.approval.value);
      if approval.None? {
        return Err(BadRequest);
      }
      where := where.(approval := approval.value);
    }
    where := where.(search := Word(q.search));
    var category := CompileCategories(q, cats);
    if category.Err? {
      return Err(BadRequest);
    }
    where := where.(category := category.value);
    var condition := CompileWords(q.condition, q.conditions, ps.condition);
    if condition.Err? {
      return Err(BadRequest);
    }
    where := where.(condition := condition.value);
    if Word(q.status).Some? {
      var status := ps.status(q.status.value);
      if status.None? {
        return Err(BadRequest);
      }
      where := where.(status := Some(status.value));
    }
    var department := CompileWords(q.department, q.departments, ps.department);
    if department.Err? {
      return Err(BadRequest);
    }
    where := where.(department := department.value);
    if q.minPrice.Some? || q.maxPrice.Some? {
      where := where.(price := Some((q.minPrice, q.maxPrice)));
    }
    assert Compiled(q, cats, ps, where);
    forall row, contains {
      CompiledMeans(q, cats, ps, where, row, contains);
    }
    r := Ok(where);
  }
}
