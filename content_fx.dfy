/** The store port both adapters implement: its query filters, the page a
    listing returns, the partial updates it accepts, and the parts of their
    meaning the two adapters share (the page window, the column-wise update
    of the columns both treat alike, and the slug namespace of a model). */
module ContentFx {
  import opened Common
  import opened ContentTypes

  datatype QueryFilters = QueryFilters(
    status: Option<Status>,
    limit: Option<int>,
    offset: Option<int>,
    search: Option<string>)

  const NoFilters := QueryFilters(None, None, None, None)

  datatype ItemPage = ItemPage(items: seq<ContentItem>, total: int)

  /** `Partial<ContentModel>` as the content unit sends it. */
  datatype ModelUpdates = ModelUpdates(
    name: Option<string>,
    displayName: Option<string>,
    description: Option<string>,
    fields: Option<seq<ContentField>>,
    settings: Option<ModelSettings>,
    updatedAt: Option<string>)

  /** `Partial<ContentItem>` as the content unit sends it. */
  datatype ItemUpdates = ItemUpdates(
    status: Option<Status>,
    data: Option<map<string, Value>>,
    publishedAt: Option<string>,
    slug: Option<string>,
    version: Option<int>,
    updatedAt: Option<string>)

  /** A JavaScript number is falsy when it is 0. */
  predicate NumTruthy(n: Option<int>) {
    n.Some? && n.value != 0
  }

  /** How many rows `OFFSET ?` skips: only inside a truthy limit, and a
      negative offset counts as zero, as SQLite reads it. */
  function Skipped(count: nat, limit: Option<int>, offset: Option<int>): (k: nat)
    ensures k <= count
  {
    if NumTruthy(limit) && NumTruthy(offset) && offset.value > 0 then Min(offset.value, count) else 0
  }

  /** `LIMIT ? [OFFSET ?]`, added only for a truthy limit; a negative limit
      means no limit. The page is the run of rows after the skipped ones. */
  function Window<T>(rows: seq<T>, limit: Option<int>, offset: Option<int>): (r: seq<T>)
    ensures !NumTruthy(limit) ==> r == rows
    ensures NumTruthy(limit) && limit.value > 0 ==> |r| == Min(limit.value, |rows| - Skipped(|rows|, limit, offset))
    ensures |r| <= |rows| - Skipped(|rows|, limit, offset)
    ensures forall i :: 0 <= i < |r| ==> r[i] == rows[Skipped(|rows|, limit, offset) + i]
  {
    if !NumTruthy(limit) then rows
    else
      var rest := rows[Skipped(|rows|, limit, offset)..];
      if limit.value < 0 || limit.value >= |rest| then rest else rest[..limit.value]
  }

  /** The new row of the columns both adapters update alike: status and data
      when truthy (an object always is), publishedAt and slug whenever they
      are given. An empty string written there reads back as undefined. */
  function ApplySharedColumns(x: ContentItem, u: ItemUpdates): (r: ContentItem)
    ensures r.id == x.id && r.modelId == x.modelId && r.modelSlug == x.modelSlug
    ensures r.authorId == x.authorId && r.createdAt == x.createdAt
    ensures r.version == x.version && r.updatedAt == x.updatedAt
    ensures u.status.None? ==> r.status == x.status
    ensures u.data.None? ==> r.data == x.data
    ensures u.publishedAt.None? ==> r.publishedAt == x.publishedAt
    ensures u.slug.None? ==> r.slug == x.slug
  {
    x.(status := if u.status.Some? then u.status.value else x.status,
       data := if u.data.Some? then u.data.value else x.data,
       publishedAt := if u.publishedAt.Some? then NonEmpty(u.publishedAt) else x.publishedAt,
       slug := if u.slug.Some? then NonEmpty(u.slug) else x.slug)
  }

  /** The new row of `UPDATE content_models SET ...` for the columns both
      adapters treat alike: name and displayName when truthy, description
      whenever given, fields and settings when given (objects are truthy). */
  function ApplyModelColumns(m: ContentModel, u: ModelUpdates): (r: ContentModel)
    ensures r.id == m.id && r.slug == m.slug && r.createdAt == m.createdAt && r.updatedAt == m.updatedAt
    ensures !Truthy(u.name) ==> r.name == m.name
    ensures !Truthy(u.displayName) ==> r.displayName == m.displayName
    ensures u.description.None? ==> r.description == m.description
    ensures u.fields.None? ==> r.fields == m.fields
    ensures u.settings.None? ==> r.settings == m.settings
  {
    m.(name := if Truthy(u.name) then u.name.value else m.name,
       displayName := if Truthy(u.displayName) then u.displayName.value else m.displayName,
       description := if u.description.Some? then NonEmpty(u.description) else m.description,
       fields := if u.fields.Some? then u.fields.value else m.fields,
       settings := if u.settings.Some? then u.settings.value else m.settings)
  }

  /** A stored row never holds an empty string where the adapters write
      `x || null`, because such a column reads back as undefined. */
  predicate ItemNormalised(x: ContentItem) {
    x.slug != Some("") && x.publishedAt != Some("")
  }

  predicate ModelNormalised(m: ContentModel) {
    m.description != Some("")
  }

  lemma SharedColumnsKeepNormalised(x: ContentItem, u: ItemUpdates)
    requires ItemNormalised(x)
    ensures ItemNormalised(ApplySharedColumns(x, u))
  {
  }

  // ---------------------------------------------------------------------------
  // The slug namespace of a model

  /** `SELECT id FROM content_items WHERE model_slug = ? AND slug = ?` finds a row. */
  predicate SlugTaken(rows: seq<ContentItem>, modelSlug: string, slug: string) {
    exists i :: 0 <= i < |rows| && rows[i].modelSlug == modelSlug && rows[i].slug == Some(slug)
  }

  /** The slugs the items of one model occupy. */
  ghost function TakenSlugs(rows: seq<ContentItem>, modelSlug: string): (t: set<string>)
    ensures forall s :: s in t <==> SlugTaken(rows, modelSlug, s)
  {
    set i | 0 <= i < |rows| && rows[i].modelSlug == modelSlug && rows[i].slug.Some? :: rows[i].slug.value
  }
}
