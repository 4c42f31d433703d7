/** `D1ContentRunner`, the store adapter the content routes build: the two
    tables as sequences of rows in insertion order, and each port operation
    as the statement it sends. */
module ContentRunner {
  import opened Common
  import opened ContentTypes
  import opened Slugs
  import opened DataValidation
  import opened ContentFx

  /** The WHERE clause of `findContentItemsByModel` and of its count query:
      the model, the status when one is given, and the search term when it is
      truthy. */
  predicate RowMatches(x: ContentItem, modelSlug: string, filters: QueryFilters, host: Host) {
    && x.modelSlug == modelSlug
    && (filters.status.Some? ==> x.status == filters.status.value)
    && (Truthy(filters.search) ==> host.likeMatch(x, filters.search.value))
  }

  /** The rows the WHERE clause keeps, in table order. */
  function Matching(rows: seq<ContentItem>, modelSlug: string, filters: QueryFilters, host: Host): (r: seq<ContentItem>)
    ensures forall i :: 0 <= i < |r| ==> r[i] in rows && RowMatches(r[i], modelSlug, filters, host)
    ensures forall i :: 0 <= i < |rows| && RowMatches(rows[i], modelSlug, filters, host) ==> rows[i] in r
    ensures |r| <= |rows|
  {
    Filter(rows, x => RowMatches(x, modelSlug, filters, host))
  }

  /** The result of `findContentItemsByModel` over a table: the matching rows
      newest first, windowed by limit and offset, with the count of all
      matching rows beside them. */
  function ItemsPage(rows: seq<ContentItem>, modelSlug: string, filters: QueryFilters, host: Host): (r: ItemPage)
    ensures forall i :: 0 <= i < |r.items| ==> r.items[i] in rows && RowMatches(r.items[i], modelSlug, filters, host)
    ensures r.total == |Matching(rows, modelSlug, filters, host)| <= |rows|
    ensures |r.items| <= r.total
  {
    var matching := Matching(rows, modelSlug, filters, host);
    var newest := Reverse(matching);
    assert forall i :: 0 <= i < |newest| ==> newest[i] in matching;
    ItemPage(Window(newest, filters.limit, filters.offset), |matching|)
  }

  /** The WHERE clause does not read the window. */
  lemma MatchingIgnoresWindow(rows: seq<ContentItem>, modelSlug: string, filters: QueryFilters, host: Host, limit: Option<int>, offset: Option<int>)
    ensures Matching(rows, modelSlug, filters, host) == Matching(rows, modelSlug, filters.(limit := limit, offset := offset), host)
  {
    var f2 := filters.(limit := limit, offset := offset);
    FilterSamePredicate(rows, x => RowMatches(x, modelSlug, filters, host), x => RowMatches(x, modelSlug, f2, host));
  }

  /** `total` counts every matching row, whatever the page window. */
  lemma TotalIgnoresWindow(rows: seq<ContentItem>, modelSlug: string, filters: QueryFilters, host: Host, limit: Option<int>, offset: Option<int>)
    ensures ItemsPage(rows, modelSlug, filters, host).total ==
            ItemsPage(rows, modelSlug, filters.(limit := limit, offset := offset), host).total
  {
    MatchingIgnoresWindow(rows, modelSlug, filters, host, limit, offset);
  }

  /** An offset without a limit is never sent. */
  lemma OffsetNeedsLimit(rows: seq<ContentItem>, modelSlug: string, filters: QueryFilters, host: Host)
    requires !NumTruthy(filters.limit)
    ensures ItemsPage(rows, modelSlug, filters, host) == ItemsPage(rows, modelSlug, filters.(offset := None), host)
  {
    MatchingIgnoresWindow(rows, modelSlug, filters, host, filters.limit, None);
  }

  /** Without a limit, the page is every matching row, newest first. */
  lemma UnlimitedPageIsNewestFirst(rows: seq<ContentItem>, modelSlug: string, filters: QueryFilters, host: Host)
    requires !NumTruthy(filters.limit)
    ensures ItemsPage(rows, modelSlug, filters, host).items == Reverse(Matching(rows, modelSlug, filters, host))
  {
  }

  /** `updateContentModel`'s new row: the shared columns, and updatedAt when
      the update carries a truthy one. */
  function UpdatedModel(m: ContentModel, u: ModelUpdates): ContentModel {
    ApplyModelColumns(m, u).(updatedAt := if Truthy(u.updatedAt) then u.updatedAt.value else m.updatedAt)
  }

  /** `updateContentItem`'s new row: the shared columns, then version and
      updatedAt when the update carries truthy ones. The version is the
      caller's value, not an increment. */
  function UpdatedItem(x: ContentItem, u: ItemUpdates): ContentItem {
    ApplySharedColumns(x, u).(version := if NumTruthy(u.version) then u.version.value else x.version,
                              updatedAt := if Truthy(u.updatedAt) then u.updatedAt.value else x.updatedAt)
  }

  /** The update builds no SET clause at all, which is an SQL syntax error. */
  predicate NoModelColumns(u: ModelUpdates) {
    !Truthy(u.name) && !Truthy(u.displayName) && u.description.None? &&
    u.fields.None? && u.settings.None? && !Truthy(u.updatedAt)
  }

  predicate NoItemColumns(u: ItemUpdates) {
    u.status.None? && u.data.None? && u.publishedAt.None? && u.slug.None? &&
    !NumTruthy(u.version) && !Truthy(u.updatedAt)
  }

  function StoredModel(m: ContentModel): ContentModel {
    m.(description := NonEmpty(m.description))
  }

  function StoredItem(x: ContentItem): ContentItem {
    x.(slug := NonEmpty(x.slug), publishedAt := NonEmpty(x.publishedAt))
  }

  const DuplicateKey := Unexpected("UNIQUE constraint failed: id")
  const EmptySetClause := Unexpected("SQL syntax error: empty SET clause")

  class D1ContentRunner {
    var models: seq<ContentModel>
    var items: seq<ContentItem>

    /** `id` is each table's primary key, and no stored column holds an empty
        string where the adapter writes `x || null`. */
    ghost predicate Valid()
      reads this
    {
      && UniqueKeys(models, ModelIdOf)
      && UniqueKeys(items, ItemIdOf)
      && (forall i :: 0 <= i < |models| ==> ModelNormalised(models[i]))
      && (forall i :: 0 <= i < |items| ==> ItemNormalised(items[i]))
    }

    constructor ()
      ensures Valid() && models == [] && items == []
    {
      models := [];
      items := [];
    }

    predicate HasModelId(id: string)
      reads this
    {
      exists i :: 0 <= i < |models| && models[i].id == id
    }

    predicate HasItemId(id: string)
      reads this
    {
      exists i :: 0 <= i < |items| && items[i].id == id
    }

    // ------------------------------------------------------------- models

    method CreateContentModel(model: ContentModel) returns (out: Outcome)
      requires Valid()
      modifies this
      ensures Valid()
      ensures old(HasModelId(model.id)) ==> out == Fail(DuplicateKey) && unchanged(this)
      ensures !old(HasModelId(model.id)) ==>
                out == Pass && models == old(models) + [StoredModel(model)] && items == old(items)
    {
      if HasModelId(model.id) {
        return Fail(DuplicateKey);
      }
      models := models + [StoredModel(model)];
      out := Pass;
    }

    function FindContentModelBySlug(slug: string): (r: Option<ContentModel>)
      reads this
      ensures r.None? <==> forall i :: 0 <= i < |models| ==> models[i].slug != slug
      ensures r.Some? ==> r.value in models && r.value.slug == slug
    {
      First(models, (m: ContentModel) => m.slug == slug)
    }

    function FindContentModelById(id: string): (r: Option<ContentModel>)
      reads this
      ensures r.None? <==> !HasModelId(id)
      ensures r.Some? ==> r.value in models && r.value.id == id
    {
      First(models, (m: ContentModel) => m.id == id)
    }

    /** `ORDER BY created_at DESC`: the newest row first. */
    function ListContentModels(): (r: seq<ContentModel>)
      reads this
      ensures |r| == |models|
      ensures forall i :: 0 <= i < |r| ==> r[i] == models[|models| - 1 - i]
    {
      Reverse(models)
    }

    method UpdateContentModel(id: string, updates: ModelUpdates) returns (out: Outcome)
      requires Valid()
      modifies this
      ensures Valid()
      ensures NoModelColumns(updates) ==> out == Fail(EmptySetClause) && unchanged(this)
      ensures !NoModelColumns(updates) ==>
                && out == Pass
                && models == MapWhere(old(models), (m: ContentModel) => m.id == id, (m: ContentModel) => UpdatedModel(m, updates))
                && items == old(items)
    {
      if NoModelColumns(updates) {
        return Fail(EmptySetClause);
      }
      var before := models;
      models := MapWhere(models, (m: ContentModel) => m.id == id, (m: ContentModel) => UpdatedModel(m, updates));
      assert forall i :: 0 <= i < |models| ==> models[i].id == before[i].id;
      out := Pass;
    }

    method DeleteContentModel(id: string)
      requires Valid()
      modifies this
      ensures Valid()
      ensures models == Filter(old(models), (m: ContentModel) => m.id != id) && items == old(items)
      ensures !HasModelId(id)
    {
      FilterKeepsUniqueKeys(models, (m: ContentModel) => m.id != id, ModelIdOf);
      models := Filter(models, (m: ContentModel) => m.id != id);
    }

    // -------------------------------------------------------------- items

    method CreateContentItem(item: ContentItem) returns (out: Outcome)
      requires Valid()
      modifies this
      ensures Valid()
      ensures old(HasItemId(item.id)) ==> out == Fail(DuplicateKey) && unchanged(this)
      ensures !old(HasItemId(item.id)) ==>
                out == Pass && items == old(items) + [StoredItem(item)] && models == old(models)
    {
      if HasItemId(item.id) {
        return Fail(DuplicateKey);
      }
      items := items + [StoredItem(item)];
      out := Pass;
    }

    /** `WHERE model_slug = ? AND (slug = ? OR id = ?)`: the key may be the
        item's slug or its id. */
    function FindContentItemBySlug(modelSlug: string, key: string): (r: Option<ContentItem>)
      reads this
      ensures r.None? <==> forall i :: 0 <= i < |items| ==>
                !(items[i].modelSlug == modelSlug && (items[i].slug == Some(key) || items[i].id == key))
      ensures r.Some? ==> r.value in items && r.value.modelSlug == modelSlug &&
                          (r.value.slug == Some(key) || r.value.id == key)
    {
      First(items, (x: ContentItem) => x.modelSlug == modelSlug && (x.slug == Some(key) || x.id == key))
    }

    function FindContentItemById(id: string): (r: Option<ContentItem>)
      reads this
      ensures r.None? <==> !HasItemId(id)
      ensures r.Some? ==> r.value in items && r.value.id == id
    {
      First(items, (x: ContentItem) => x.id == id)
    }

    function FindContentItemsByModel(modelSlug: string, filters: QueryFilters, host: Host): (r: ItemPage)
      reads this
      ensures r == ItemsPage(items, modelSlug, filters, host)
      ensures forall i :: 0 <= i < |r.items| ==> r.items[i] in items && RowMatches(r.items[i], modelSlug, filters, host)
      ensures r.total == |Matching(items, modelSlug, filters, host)| && |r.items| <= r.total
      ensures !NumTruthy(filters.limit) ==> r.items == Reverse(Matching(items, modelSlug, filters, host))
    {
      ItemsPage(items, modelSlug, filters, host)
    }

    method UpdateContentItem(id: string, updates: ItemUpdates) returns (out: Outcome)
      requires Valid()
      modifies this
      ensures Valid()
      ensures NoItemColumns(updates) ==> out == Fail(EmptySetClause) && unchanged(this)
      ensures !NoItemColumns(updates) ==>
                && out == Pass
                && items == MapWhere(old(items), (x: ContentItem) => x.id == id, (x: ContentItem) => UpdatedItem(x, updates))
                && models == old(models)
    {
      if NoItemColumns(updates) {
        return Fail(EmptySetClause);
      }
      var before := items;
      items := MapWhere(items, (x: ContentItem) => x.id == id, (x: ContentItem) => UpdatedItem(x, updates));
      assert forall i :: 0 <= i < |items| ==> items[i].id == before[i].id && ItemNormalised(items[i]);
      out := Pass;
    }

    method DeleteContentItem(id: string)
      requires Valid()
      modifies this
      ensures Valid()
      ensures items == Filter(old(items), (x: ContentItem) => x.id != id) && models == old(models)
      ensures !HasItemId(id)
    {
      FilterKeepsUniqueKeys(items, (x: ContentItem) => x.id != id, ItemIdOf);
      items := Filter(items, (x: ContentItem) => x.id != id);
    }

    // ---------------------------------------------------------- utilities

    /** `generateSlug`: probe `base`, `base-1`, `base-2`, ... in the model's
        namespace and return the first free one. */
    method GenerateSlug(text: string, modelSlug: string) returns (slug: string)
      ensures IsFirstFree(slug, Slugify(text), TakenSlugs(items, modelSlug))
      ensures !SlugTaken(items, modelSlug, slug)
    {
      var baseSlug := Slugify(text);
      slug := FirstFreeSlug(baseSlug, modelSlug);
    }

    /** The probe loop of `generateSlug`, from the base slug on. */
    method FirstFreeSlug(baseSlug: string, modelSlug: string) returns (slug: string)
      ensures IsFirstFree(slug, baseSlug, TakenSlugs(items, modelSlug))
      ensures !SlugTaken(items, modelSlug, slug)
    {
      ghost var taken := TakenSlugs(items, modelSlug);
      slug := baseSlug;
      var counter: nat := 1;
      while SlugTaken(items, modelSlug, slug)
        invariant slug == Candidate(baseSlug, counter - 1)
        invariant forall j: nat :: j < counter - 1 ==> Candidate(baseSlug, j) in taken
        decreases |taken| - (counter - 1)
      {
        assert slug in taken;
        OccupiedCandidatesBound(baseSlug, counter, taken);
        slug := Candidate(baseSlug, counter);
        counter := counter + 1;
      }
    }

    /** `validateContentData`, measuring length with `value.length`. */
    method ValidateContentData(model: ContentModel, data: map<string, Value>, host: Host) returns (report: ValidationReport)
      ensures report.errors == DataErrors(model.fields, data, host, ValueLength)
      ensures report.valid <==> report.errors == []
    {
      var errors: seq<string> := [];
      for i := 0 to |model.fields|
        invariant errors == DataErrors(model.fields[..i], data, host, ValueLength)
      {
        var field := model.fields[i];
        assert model.fields[..i + 1] == model.fields[..i] + [field];
        DataErrorsSnoc(model.fields[..i], field, data, host, ValueLength);
        var fieldErrors := CheckField(field, data, host, ValueLength);
        errors := errors + fieldErrors;
      }
      assert model.fields[..|model.fields|] == model.fields;
      report := ValidationReport(|errors| == 0, errors);
    }
  }

}
