/** `D1ContentRepository`, the second implementation of the store port. It
    has the runner's shape, with these differences: it fills in ids, versions
    and timestamps itself, increments `version` in the store, looks items up
    by slug only, has no search filter, and measures lengths on
    `value.toString()`. */
module D1Content {
  import opened Common
  import opened ContentTypes
  import opened Slugs
  import opened DataValidation
  import opened ContentFx
  import ContentRunner

  /** The WHERE clause of the listing and of its count: model and status. */
  predicate RowMatches(x: ContentItem, modelSlug: string, filters: QueryFilters) {
    && x.modelSlug == modelSlug
    && (filters.status.Some? ==> x.status == filters.status.value)
  }

  function Matching(rows: seq<ContentItem>, modelSlug: string, filters: QueryFilters): (r: seq<ContentItem>)
    ensures forall i :: 0 <= i < |r| ==> r[i] in rows && RowMatches(r[i], modelSlug, filters)
    ensures forall i :: 0 <= i < |rows| && RowMatches(rows[i], modelSlug, filters) ==> rows[i] in r
  {
    Filter(rows, x => RowMatches(x, modelSlug, filters))
  }

  function ItemsPage(rows: seq<ContentItem>, modelSlug: string, filters: QueryFilters): (r: ItemPage)
    ensures forall i :: 0 <= i < |r.items| ==> r.items[i] in rows && RowMatches(r.items[i], modelSlug, filters)
    ensures r.total == |Matching(rows, modelSlug, filters)|
    ensures |r.items| <= r.total
  {
    var matching := Matching(rows, modelSlug, filters);
    var newest := Reverse(matching);
    assert forall i :: 0 <= i < |newest| ==> newest[i] in matching;
    ItemPage(Window(newest, filters.limit, filters.offset), |matching|)
  }

  /** The repository's listing is the runner's listing with the search term
      dropped: a search filter has no effect here. */
  lemma ListingIgnoresSearch(rows: seq<ContentItem>, modelSlug: string, filters: QueryFilters, host: Host)
    ensures ItemsPage(rows, modelSlug, filters) ==
            ContentRunner.ItemsPage(rows, modelSlug, filters.(search := None), host)
  {
    var f2 := filters.(search := None);
    FilterSamePredicate(rows, x => RowMatches(x, modelSlug, filters), x => ContentRunner.RowMatches(x, modelSlug, f2, host));
  }

  /** `updateContentModel`'s new row: the shared columns and `updated_at = now`,
      whatever updatedAt the update carries. */
  function UpdatedModel(m: ContentModel, u: ModelUpdates, now: Timestamp): (r: ContentModel)
    ensures r.updatedAt == now
  {
    ApplyModelColumns(m, u).(updatedAt := now)
  }

  /** `updateContentItem`'s new row: the shared columns, `updated_at = now`
      and `version = version + 1`, whatever version and updatedAt the update
      carries. */
  function UpdatedItem(x: ContentItem, u: ItemUpdates, now: Timestamp): (r: ContentItem)
    ensures r.version == x.version + 1 && r.updatedAt == now
  {
    ApplySharedColumns(x, u).(version := x.version + 1, updatedAt := now)
  }

  /** For an update that carries a timestamp, the two adapters write the same
      row exactly when the caller asks for the increment the repository
      performs and the timestamp is the repository's clock. */
  lemma AdaptersAgreeOnIncrement(x: ContentItem, u: ItemUpdates, now: Timestamp)
    requires Truthy(u.updatedAt)
    ensures ContentRunner.UpdatedItem(x, u) == UpdatedItem(x, u, now) <==>
            (NumTruthy(u.version) && u.version.value == x.version + 1 && u.updatedAt.value == now)
  {
    var a, b := ContentRunner.UpdatedItem(x, u), UpdatedItem(x, u, now);
    if a == b {
      assert a.version == b.version && a.updatedAt == b.updatedAt;
    }
  }

  /** As the repository writes a new model: the given id or a fresh one, the
      description normalised, both timestamps `now`. */
  function StoredModel(m: ContentModel, freshId: string, now: Timestamp): (r: ContentModel)
    ensures r.id == (if m.id != "" then m.id else freshId)
    ensures r.createdAt == now && r.updatedAt == now
    ensures ModelNormalised(r)
  {
    m.(id := if m.id != "" then m.id else freshId,
       description := NonEmpty(m.description),
       createdAt := now,
       updatedAt := now)
  }

  /** As the repository writes a new item: the given id or a fresh one,
      version 1 when the given one is 0, and `now` for an empty timestamp. */
  function StoredItem(x: ContentItem, freshId: string, now: Timestamp): (r: ContentItem)
    ensures r.id == (if x.id != "" then x.id else freshId)
    ensures r.version == (if x.version != 0 then x.version else 1)
    ensures r.createdAt == (if x.createdAt != "" then x.createdAt else now)
    ensures r.updatedAt == (if x.updatedAt != "" then x.updatedAt else now)
    ensures ItemNormalised(r)
  {
    x.(id := if x.id != "" then x.id else freshId,
       slug := NonEmpty(x.slug),
       publishedAt := NonEmpty(x.publishedAt),
       version := if x.version != 0 then x.version else 1,
       createdAt := if x.createdAt != "" then x.createdAt else now,
       updatedAt := if x.updatedAt != "" then x.updatedAt else now)
  }

  const DuplicateKey := Unexpected("UNIQUE constraint failed: id")

  class D1ContentRepository {
    var models: seq<ContentModel>
    var items: seq<ContentItem>

    ghost predicate Valid()
      reads this
    {
      && UniqueKeys(models, ModelIdOf)
      && UniqueKeys(items, ItemIdOf)
      && (forall i :: 0 <= i < |models| ==> ModelNormalised(models[i]))
      && (forall i :: 0 <= i < |items| ==> ItemNormalised(items[i]))
    }

    constructor ()
      ensures Valid() && models == [] && items == []
    {
      models := [];
      items := [];
    }

    predicate HasModelId(id: string)
      reads this
    {
      exists i :: 0 <= i < |models| && models[i].id == id
    }

    predicate HasItemId(id: string)
      reads this
    {
      exists i :: 0 <= i < |items| && items[i].id == id
    }

    // ------------------------------------------------------------- models

    /** `freshId` and `now` stand for `crypto.randomUUID()` and the clock. */
    method CreateContentModel(model: ContentModel, freshId: string, now: Timestamp) returns (out: Outcome)
      requires Valid()
      modifies this
      ensures Valid()
      ensures var stored := StoredModel(model, freshId, now);
              && (old(HasModelId(stored.id)) ==> out == Fail(DuplicateKey) && unchanged(this))
              && (!old(HasModelId(stored.id)) ==>
                    out == Pass && models == old(models) + [stored] && items == old(items))
    {
      var stored := StoredModel(model, freshId, now);
      if HasModelId(stored.id) {
        return Fail(DuplicateKey);
      }
      models := models + [stored];
      out := Pass;
    }

    function FindContentModelBySlug(slug: string): (r: Option<ContentModel>)
      reads this
      ensures r.None? <==> forall i :: 0 <= i < |models| ==> models[i].slug != slug
      ensures r.Some? ==> r.value in models && r.value.slug == slug
    {
      First(models, (m: ContentModel) => m.slug == slug)
    }

    function FindContentModelById(id: string): (r: Option<ContentModel>)
      reads this
      ensures r.None? <==> !HasModelId(id)
      ensures r.Some? ==> r.value in models && r.value.id == id
    {
      First(models, (m: ContentModel) => m.id == id)
    }

    function ListContentModels(): (r: seq<ContentModel>)
      reads this
      ensures |r| == |models|
      ensures forall i :: 0 <= i < |r| ==> r[i] == models[|models| - 1 - i]
    {
      Reverse(models)
    }

    /** Always sets `updated_at`, so the SET clause is never empty. */
    method UpdateContentModel(id: string, updates: ModelUpdates, now: Timestamp)
      requires Valid()
      modifies this
      ensures Valid()
      ensures models == MapWhere(old(models), (m: ContentModel) => m.id == id, (m: ContentModel) => UpdatedModel(m, updates, now))
      ensures items == old(items)
    {
      var before := models;
      models := MapWhere(models, (m: ContentModel) => m.id == id, (m: ContentModel) => UpdatedModel(m, updates, now));
      assert forall i :: 0 <= i < |models| ==> models[i].id == before[i].id;
    }

    method DeleteContentModel(id: string)
      requires Valid()
      modifies this
      ensures Valid()
      ensures models == Filter(old(models), (m: ContentModel) => m.id != id) && items == old(items)
      ensures !HasModelId(id)
    {
      FilterKeepsUniqueKeys(models, (m: ContentModel) => m.id != id, ModelIdOf);
      models := Filter(models, (m: ContentModel) => m.id != id);
    }

    // -------------------------------------------------------------- items

    method CreateContentItem(item: ContentItem, freshId: string, now: Timestamp) returns (out: Outcome)
      requires Valid()
      modifies this
      ensures Valid()
      ensures var stored := StoredItem(item, freshId, now);
              && (old(HasItemId(stored.id)) ==> out == Fail(DuplicateKey) && unchanged(this))
              && (!old(HasItemId(stored.id)) ==>
                    out == Pass && items == old(items) + [stored] && models == old(models))
    {
      var stored := StoredItem(item, freshId, now);
      if HasItemId(stored.id) {
        return Fail(DuplicateKey);
      }
      items := items + [stored];
      out := Pass;
    }

    /** `WHERE model_slug = ? AND slug = ?`: never matches on the id. */
    function FindContentItemBySlug(modelSlug: string, slug: string): (r: Option<ContentItem>)
      reads this
      ensures r.None? <==> forall i :: 0 <= i < |items| ==> !(items[i].modelSlug == modelSlug && items[i].slug == Some(slug))
      ensures r.Some? ==> r.value in items && r.value.modelSlug == modelSlug && r.value.slug == Some(slug)
    {
      First(items, (x: ContentItem) => x.modelSlug == modelSlug && x.slug == Some(slug))
    }

    function FindContentItemById(id: string): (r: Option<ContentItem>)
      reads this
      ensures r.None? <==> !HasItemId(id)
      ensures r.Some? ==> r.value in items && r.value.id == id
    {
      First(items, (x: ContentItem) => x.id == id)
    }

    function FindContentItemsByModel(modelSlug: string, filters: QueryFilters): (r: ItemPage)
      reads this
      ensures r == ItemsPage(items, modelSlug, filters)
      ensures forall i :: 0 <= i < |r.items| ==> r.items[i] in items && RowMatches(r.items[i], modelSlug, filters)
      ensures r.total == |Matching(items, modelSlug, filters)| && |r.items| <= r.total
    {
      ItemsPage(items, modelSlug, filters)
    }

    /** Always sets `updated_at` and `version = version + 1`. */
    method UpdateContentItem(id: string, updates: ItemUpdates, now: Timestamp)
      requires Valid()
      modifies this
      ensures Valid()
      ensures items == MapWhere(old(items), (x: ContentItem) => x.id == id, (x: ContentItem) => UpdatedItem(x, updates, now))
      ensures models == old(models)
    {
      var before := items;
      items := MapWhere(items, (x: ContentItem) => x.id == id, (x: ContentItem) => UpdatedItem(x, updates, now));
      assert forall i :: 0 <= i < |items| ==> items[i].id == before[i].id && ItemNormalised(items[i]);
    }

    method DeleteContentItem(id: string)
      requires Valid()
      modifies this
      ensures Valid()
      ensures items == Filter(old(items), (x: ContentItem) => x.id != id) && models == old(models)
      ensures !HasItemId(id)
    {
      FilterKeepsUniqueKeys(items, (x: ContentItem) => x.id != id, ItemIdOf);
      items := Filter(items, (x: ContentItem) => x.id != id);
    }

    // ---------------------------------------------------------- utilities

    method GenerateSlug(text: string, modelSlug: string) returns (slug: string)
      ensures IsFirstFree(slug, Slugify(text), TakenSlugs(items, modelSlug))
      ensures !SlugTaken(items, modelSlug, slug)
    {
      var baseSlug := Slugify(text);
      slug := FirstFreeSlug(baseSlug, modelSlug);
    }

    /** The probe loop of `generateSlug`, from the base slug on. */
    method FirstFreeSlug(baseSlug: string, modelSlug: string) returns (slug: string)
      ensures IsFirstFree(slug, baseSlug, TakenSlugs(items, modelSlug))
      ensures !SlugTaken(items, modelSlug, slug)
    {
      ghost var taken := TakenSlugs(items, modelSlug);
      slug := baseSlug;
      var counter: nat := 1;
      while SlugTaken(items, modelSlug, slug)
        invariant slug == Candidate(baseSlug, counter - 1)
        invariant forall j: nat :: j < counter - 1 ==> Candidate(baseSlug, j) in taken
        decreases |taken| - (counter - 1)
      {
        assert slug in taken;
        OccupiedCandidatesBound(baseSlug, counter, taken);
        slug := Candidate(baseSlug, counter);
        counter := counter + 1;
      }
    }

    /** `validateContentData`, measuring length with `value.toString().length`. */
    method ValidateContentData(model: ContentModel, data: map<string, Value>, host: Host) returns (report: ValidationReport)
      ensures report.errors == DataErrors(model.fields, data, host, StringLength)
      ensures report.valid <==> report.errors == []
    {
      var errors: seq<string> := [];
      for i := 0 to |model.fields|
        invariant errors == DataErrors(model.fields[..i], data, host, StringLength)
      {
        var field := model.fields[i];
        assert model.fields[..i + 1] == model.fields[..i] + [field];
        DataErrorsSnoc(model.fields[..i], field, data, host, StringLength);
        var fieldErrors := CheckField(field, data, host, StringLength);
        errors := errors + fieldErrors;
      }
      assert model.fields[..|model.fields|] == model.fields;
      report := ValidationReport(|errors| == 0, errors);
    }
  }

  /** The lookups differ: a key that is some item's id but no item's slug
      finds that item through the runner and nothing through the repository. */
  lemma LookupByIdOnlyInRunner(runner: ContentRunner.D1ContentRunner, repo: D1ContentRepository, modelSlug: string, key: string, i: int)
    requires runner.items == repo.items
    requires 0 <= i < |repo.items| && repo.items[i].modelSlug == modelSlug && repo.items[i].id == key
    requires forall j :: 0 <= j < |repo.items| ==> repo.items[j].slug != Some(key)
    ensures runner.FindContentItemBySlug(modelSlug, key).Some?
    ensures repo.FindContentItemBySlug(modelSlug, key).None?
  {
  }
}
