/** `GET /api/settings` (app/api/settings/route.ts): the site config, the
    active categories and the active tools read from the store, converted to
    the client's format. */
module SettingsRoute {
  import opened Common
  import opened Text
  import opened Db
  import opened Sorting

  /** A category in the client's format. */
  datatype CategoryDto = CategoryDto(id: int, name: string, icon: string, toolCount: nat)

  /** A tool in the client's format; `categoryId` is the category's legacy id. */
  datatype ToolDto = ToolDto(
    id: int, name: string, description: Option<string>, logo: Option<string>, url: Option<string>,
    categoryId: int, isFeatured: bool, isNew: bool, viewCount: int, addedDate: Option<string>, tags: seq<string>)

  datatype Settings = Settings(siteConfig: SiteInfo, categories: seq<CategoryDto>, tools: seq<ToolDto>)

  /** The answer: the settings with status 200, or the failure with status 500. */
  datatype SettingsReply = Served(settings: Settings) | Failed(status: int, error: string)

  /** `{ id: legacy_id, name, icon, toolCount: tool_count || 0 }` */
  function CategoryDtoOf(c: CategoryRow): CategoryDto {
    CategoryDto(c.legacyId, c.name, c.icon, c.toolCount)
  }

  /** The index of the first row whose internal id is `categoryId`. */
  function FirstWithId(categories: seq<CategoryRow>, categoryId: int): (r: Option<nat>)
    ensures r.Some? ==> (r.value < |categories| && categories[r.value].id == categoryId
                         && forall j :: 0 <= j < r.value ==> categories[j].id != categoryId)
    ensures r.None? ==> forall j :: 0 <= j < |categories| ==> categories[j].id != categoryId
  {
    if categories == [] then None
    else if categories[0].id == categoryId then Some(0)
    else
      var rest := FirstWithId(categories[1..], categoryId);
      if rest.Some? then
        assert forall j :: 1 <= j < rest.value + 1 ==> categories[j] == categories[1..][j - 1];
        Some(rest.value + 1)
      else
        assert forall j :: 1 <= j < |categories| ==> categories[j] == categories[1..][j - 1];
        None
  }

  /** `getCategoryLegacyId`: the legacy id of the first category with that
      internal id, or 0 when there is none. */
  function CategoryLegacyId(categories: seq<CategoryRow>, categoryId: int): (r: int)
    ensures (forall j :: 0 <= j < |categories| ==> categories[j].id != categoryId) ==> r == 0
    ensures forall i ::
      (0 <= i < |categories| && categories[i].id == categoryId && forall j :: 0 <= j < i ==> categories[j].id != categoryId)
      ==> r == categories[i].legacyId
  {
    match FirstWithId(categories, categoryId)
    case None => 0
    case Some(i) => categories[i].legacyId
  }

  /** `parts.filter(Boolean)`: the non-empty pieces, in order. */
  function NonEmpty(parts: seq<string>): (r: seq<string>)
    ensures |r| <= |parts|
    ensures forall k :: 0 <= k < |r| ==> r[k] != ""
    ensures forall x :: x in r <==> x in parts && x != ""
  {
    if parts == [] then []
    else
      var rest := NonEmpty(parts[1..]);
      assert parts == [parts[0]] + parts[1..];
      if parts[0] == "" then rest else [parts[0]] + rest
  }

  /** Pieces that are all non-empty pass the filter unchanged. */
  lemma {:induction false} NonEmptyKeepsAll(parts: seq<string>)
    requires forall k :: 0 <= k < |parts| ==> parts[k] != ""
    ensures NonEmpty(parts) == parts
  {
    if parts != [] {
      NonEmptyKeepsAll(parts[1..]);
      assert parts == [parts[0]] + parts[1..];
    }
  }

  /** `tags ? tags.split(',').filter(Boolean) : []` */
  function TagList(tags: Option<string>): (r: seq<string>)
    ensures forall k :: 0 <= k < |r| ==> r[k] != "" && ',' !in r[k]
  {
    if tags.Some? && tags.value != "" then
      var parts := Split(tags.value, ',');
      var r := NonEmpty(parts);
      assert forall k :: 0 <= k < |r| ==> r[k] in parts;
      r
    else []
  }

  /** The client's tags are the tool's tag names whenever those are non-empty
      and free of commas. */
  lemma TagListOfColumn(names: seq<string>)
    requires forall k :: 0 <= k < |names| ==> names[k] != "" && ',' !in names[k]
    ensures TagList(TagsColumn(names)) == names
  {
    if names != [] {
      SplitJoin(names, ',');
      NonEmptyKeepsAll(names);
      assert Join(names, ",") != "" by {
        JoinNonEmpty(names, ",");
      }
    }
  }

  /** A join of pieces the first of which is non-empty is non-empty. */
  lemma JoinNonEmpty(parts: seq<string>, sep: string)
    requires parts != [] && parts[0] != ""
    ensures Join(parts, sep) != ""
  {
    if |parts| > 1 {
      assert |Join(parts, sep)| >= |parts[0]|;
    }
  }

  /** The client's format of a tool row, its category resolved through `categories`. */
  function ToolDtoOf(categories: seq<CategoryRow>, t: ToolRow): ToolDto {
    ToolDto(t.legacyId, t.name, t.description, t.logo, t.url, CategoryLegacyId(categories, t.categoryId),
            t.isFeatured == 1, t.isNew == 1, t.viewCount, t.addedDate, TagList(t.tags))
  }

  /** Both `map` calls keep the order and the number of rows. */
  function Formatted(site: SiteInfo, categories: seq<CategoryRow>, tools: seq<ToolRow>): (r: Settings)
    ensures r.siteConfig == site && |r.categories| == |categories| && |r.tools| == |tools|
    ensures forall i :: 0 <= i < |categories| ==> r.categories[i] == CategoryDtoOf(categories[i])
    ensures forall i :: 0 <= i < |tools| ==> r.tools[i] == ToolDtoOf(categories, tools[i])
  {
    Settings(site,
             seq(|categories|, i requires 0 <= i < |categories| => CategoryDtoOf(categories[i])),
             seq(|tools|, i requires 0 <= i < |tools| => ToolDtoOf(categories, tools[i])))
  }

  /** The route given the rows `getActiveTools` returned; a missing config
      row makes `getSiteConfig` throw, which is answered with 500. */
  function Response(s: Snapshot, tools: seq<ToolRow>): SettingsReply {
    match SiteConfigOf(s)
    case Err(_) => Failed(500, "读取设置失败")
    case Ok(site) => Served(Formatted(site, ActiveCategories(s), tools))
  }

  /** On the store's own listings, every tool's `categoryId` is the legacy id
      of its category, which is live, so the fallback 0 is never used. */
  lemma ListedToolsResolve(s: Snapshot, t: ToolRow)
    requires IsListedTool(s, t.id) && t == ListedRow(s, t.id)
    ensures CategoryLegacyId(ActiveCategories(s), t.categoryId) == CategoryOf(s, t.categoryId).legacyId
  {
    var rows := ActiveCategories(s);
    ActiveCategoriesSound(s);
    ActiveCategoriesComplete(s);
    var r :| r in rows && r.id == t.categoryId;
    var i :| 0 <= i < |rows| && rows[i] == r;
    var first := FirstWithId(rows, t.categoryId);
    assert rows[first.value] in rows;
  }

  /** `d` is the client's format of listed tool `id`. */
  predicate DescribesTool(s: Snapshot, d: ToolDto, id: int) {
    IsListedTool(s, id)
    && (var t := ToolOf(s, id);
        d.id == t.legacyId && d.name == t.name && d.description == t.description
        && d.logo == t.logo && d.url == t.url && d.addedDate == t.addedDate
        && d.categoryId == CategoryOf(s, t.categoryId.value).legacyId
        && d.isFeatured == (t.isFeatured == 1) && d.isNew == (t.isNew == 1) && d.viewCount == t.viewCount
        && d.tags == TagList(TagsColumn(TagNamesOf(s, id))))
  }

  /** `d` describes some listed tool. */
  ghost predicate DescribesSomeTool(s: Snapshot, d: ToolDto) {
    exists id :: DescribesTool(s, d, id)
  }

  /** A listing row converts to the description of its tool. */
  lemma DtoDescribesTool(s: Snapshot, t: ToolRow)
    requires IsListedTool(s, t.id) && t == ListedRow(s, t.id)
    ensures DescribesTool(s, ToolDtoOf(ActiveCategories(s), t), t.id)
  {
    ListedToolsResolve(s, t);
    assert t == RowWith(s, t.id, TagsColumn(TagNamesOf(s, t.id)));
  }

  /** Converting the store's own listing describes each of its tools, row by row. */
  lemma ResponseDescribesTools(s: Snapshot, tools: seq<ToolRow>)
    requires forall i :: 0 <= i < |tools| ==> IsListedTool(s, tools[i].id) && tools[i] == ListedRow(s, tools[i].id)
    requires Response(s, tools).Served?
    ensures |Response(s, tools).settings.tools| == |tools|
    ensures forall i :: 0 <= i < |tools| ==> DescribesTool(s, Response(s, tools).settings.tools[i], tools[i].id)
  {
    forall i | 0 <= i < |tools| ensures DescribesTool(s, Response(s, tools).settings.tools[i], tools[i].id) {
      DtoDescribesTool(s, tools[i]);
    }
  }

  /** Converting a complete listing describes every listed tool, and nothing else. */
  lemma ListingDescribed(s: Snapshot, tools: seq<ToolRow>)
    requires forall i :: 0 <= i < |tools| ==> IsListedTool(s, tools[i].id) && tools[i] == ListedRow(s, tools[i].id)
    requires forall id :: IsListedTool(s, id) ==> exists i :: 0 <= i < |tools| && tools[i].id == id
    requires Response(s, tools).Served?
    ensures forall i :: 0 <= i < |Response(s, tools).settings.tools| ==> DescribesSomeTool(s, Response(s, tools).settings.tools[i])
    ensures forall id :: IsListedTool(s, id) ==>
      exists i :: 0 <= i < |Response(s, tools).settings.tools| && DescribesTool(s, Response(s, tools).settings.tools[i], id)
  {
    ResponseDescribesTools(s, tools);
    var dtos := Response(s, tools).settings.tools;
    forall i | 0 <= i < |dtos| ensures DescribesSomeTool(s, dtos[i]) {
      assert DescribesTool(s, dtos[i], tools[i].id);
    }
    forall id | IsListedTool(s, id) ensures exists i :: 0 <= i < |dtos| && DescribesTool(s, dtos[i], id) {
      var i :| 0 <= i < |tools| && tools[i].id == id;
      assert DescribesTool(s, dtos[i], tools[i].id);
    }
  }

  /** `GET`: reads the three listings, then formats them. The answer is served
      exactly when the config row exists; then it holds every live category
      in display order and every listed tool, each tool described by its
      store row, with its category's legacy id and the tags of its tags column. */
  method Get(store: Store) returns (reply: SettingsReply)
    ensures reply.Served? <==> store.siteConfig.Some?
    ensures reply.Failed? ==> reply == Failed(500, "读取设置失败")
    ensures reply.Served? ==>
      var st := reply.settings;
      var s := store.State();
      |st.categories| == |ActiveCategories(s)| && |st.tools| == |ListedIds(s)|
      && (forall i :: 0 <= i < |st.categories| ==> st.categories[i] == CategoryDtoOf(ActiveCategories(s)[i]))
      && (forall i :: 0 <= i < |st.tools| ==> DescribesSomeTool(s, st.tools[i]))
      && (forall id :: IsListedTool(s, id) ==> exists i :: 0 <= i < |st.tools| && DescribesTool(s, st.tools[i], id))
  {
    var tools := store.GetActiveTools();
    reply := Response(store.State(), tools);
    if reply.Served? {
      ListingDescribed(store.State(), tools);
    }
  }
}
