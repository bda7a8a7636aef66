/** The catalogue's relational store (lib/db.ts) as a value, and the statements
    of its data-access helpers as functions on that value.

    A table whose rows are only ever appended is a sequence, and row `k` of it
    (0-based) has the SQLite rowid `k + 1`. Categories and tools are
    soft-deleted, never removed; tags are never removed; `tool_tags` rows are
    kept in insertion order, which is also the order `GROUP_CONCAT` lists
    them in here. */
module Db {
  import opened Common
  import opened Text
  import opened Sorting

  datatype Category = Category(legacyId: int, name: string, icon: string, displayOrder: int, isDeleted: bool)

  datatype Tool = Tool(
    legacyId: int, name: string,
    description: Option<string>, logo: Option<string>, url: Option<string>,
    categoryId: Option<nat>,
    isFeatured: int, isNew: int, viewCount: int,
    addedDate: Option<string>, isDeleted: bool)

  datatype Tag = Tag(name: string)

  datatype ToolTag = ToolTag(toolId: nat, tagId: nat)

  datatype SiteConfig = SiteConfig(siteName: string, description: string)

  /** The whole database: every table of the catalogue. `siteConfig` is the row with id 1, if any. */
  datatype Snapshot = Snapshot(
    categories: seq<Category>, tools: seq<Tool>, tags: seq<Tag>, toolTags: seq<ToolTag>,
    siteConfig: Option<SiteConfig>, keywords: seq<string>)

  /** A value bound to a `?` placeholder. */
  datatype SqlValue = SqlNull | SqlInt(i: int) | SqlText(text: string)

  /** The error better-sqlite3 throws when a foreign key does not hold. */
  const ForeignKeyError := JsError("SqliteError", Some("SQLITE_CONSTRAINT_FOREIGNKEY"), Some("FOREIGN KEY constraint failed"), None)

  predicate HasCategory(s: Snapshot, id: int) { 1 <= id <= |s.categories| }
  predicate HasTool(s: Snapshot, id: int) { 1 <= id <= |s.tools| }
  predicate HasTag(s: Snapshot, id: int) { 1 <= id <= |s.tags| }

  function CategoryOf(s: Snapshot, id: int): Category requires HasCategory(s, id) { s.categories[id - 1] }
  function ToolOf(s: Snapshot, id: int): Tool requires HasTool(s, id) { s.tools[id - 1] }

  predicate IsActiveCategory(s: Snapshot, id: int) {
    HasCategory(s, id) && !CategoryOf(s, id).isDeleted
  }

  /** A tool an `UPDATE … WHERE id = ? AND is_deleted = 0` matches. */
  predicate IsActiveTool(s: Snapshot, id: int) {
    HasTool(s, id) && !ToolOf(s, id).isDeleted
  }

  /** A tool the active listings show: not deleted, in a category that exists and is not deleted. */
  predicate IsListedTool(s: Snapshot, id: int) {
    IsActiveTool(s, id) && ToolOf(s, id).categoryId.Some? && IsActiveCategory(s, ToolOf(s, id).categoryId.value)
  }

  /** Text equality under `COLLATE NOCASE` (ASCII letters fold). */
  predicate SameNoCase(a: string, b: string) { Lower(a) == Lower(b) }

  /** The constraints the schema enforces, which every statement keeps. */
  predicate WellFormed(s: Snapshot) {
    // foreign keys
    (forall k :: 0 <= k < |s.toolTags| ==> HasTool(s, s.toolTags[k].toolId) && HasTag(s, s.toolTags[k].tagId)) &&
    (forall i :: 0 <= i < |s.tools| && s.tools[i].categoryId.Some? ==> HasCategory(s, s.tools[i].categoryId.value)) &&
    // unique (tool_id, tag_id), unique tag names under NOCASE, unique legacy ids
    (forall i, j :: 0 <= i < j < |s.toolTags| ==> s.toolTags[i] != s.toolTags[j]) &&
    (forall i, j :: 0 <= i < j < |s.tags| ==> !SameNoCase(s.tags[i].name, s.tags[j].name)) &&
    (forall i, j :: 0 <= i < j < |s.tools| ==> s.tools[i].legacyId != s.tools[j].legacyId) &&
    (forall i, j :: 0 <= i < j < |s.categories| ==> s.categories[i].legacyId != s.categories[j].legacyId)
  }

  // ---------------------------------------------------------------- tags of a tool

  /** The names of the tags `pairs` attach to `toolId`, in row order (the joined `GROUP_CONCAT` input). */
  function TagNames(tags: seq<Tag>, pairs: seq<ToolTag>, toolId: int): seq<string> {
    if pairs == [] then []
    else
      var p := pairs[|pairs| - 1];
      TagNames(tags, pairs[..|pairs| - 1], toolId) +
        (if p.toolId == toolId && 1 <= p.tagId <= |tags| then [tags[p.tagId - 1].name] else [])
  }

  function TagNamesOf(s: Snapshot, toolId: int): seq<string> {
    TagNames(s.tags, s.toolTags, toolId)
  }

  /** `tagsMap.get(id) || null` for the comma-joined tag names of a tool. */
  function TagsColumn(names: seq<string>): (r: Option<string>)
    ensures r.Some? <==> names != [] && Join(names, ",") != ""
    ensures r.Some? ==> r.value == Join(names, ",")
  {
    if names == [] then None
    else
      var joined := Join(names, ",");
      if joined == "" then None else Some(joined)
  }

  // ---------------------------------------------------------------- rows of the active listings

  /** A row of the active-tools listing (the `v_active_tools` columns the core reads). */
  datatype ToolRow = ToolRow(
    id: nat, legacyId: int, name: string,
    description: Option<string>, logo: Option<string>, url: Option<string>,
    categoryId: nat, categoryName: string,
    isFeatured: int, isNew: int, viewCount: int,
    addedDate: Option<string>, tags: Option<string>)

  function RowViewCount(r: ToolRow): int { r.viewCount }

  /** `ORDER BY view_count DESC` */
  function ByViewCount(): (ToolRow, ToolRow) -> bool { ViewCountDesc(RowViewCount) }

  /** The listing row of a listed tool, with the given `tags` column. */
  function RowWith(s: Snapshot, id: int, tags: Option<string>): (r: ToolRow)
    requires IsListedTool(s, id)
    ensures r.id == id && r.tags == tags
  {
    var t := ToolOf(s, id);
    var c := CategoryOf(s, t.categoryId.value);
    ToolRow(id, t.legacyId, t.name, t.description, t.logo, t.url, t.categoryId.value, c.name,
            t.isFeatured, t.isNew, t.viewCount, t.addedDate, tags)
  }

  /** The full listing row of a listed tool: its tags comma-joined, or null. */
  function ListedRow(s: Snapshot, id: int): (r: ToolRow)
    requires IsListedTool(s, id)
  {
    RowWith(s, id, TagsColumn(TagNamesOf(s, id)))
  }

  /** The ids of the listed tools, ascending. */
  function ListedIds(s: Snapshot): (r: seq<nat>)
    ensures forall i :: 0 <= i < |r| ==> IsListedTool(s, r[i])
    ensures forall id :: IsListedTool(s, id) ==> id in r
    ensures forall i, j :: 0 <= i < j < |r| ==> r[i] < r[j]
  {
    var keep := id => IsListedTool(s, id);
    SelectedSound(|s.tools|, keep);
    SelectedComplete(|s.tools|, keep);
    SelectedAscending(|s.tools|, keep);
    Selected(|s.tools|, keep)
  }

  /** The rows the active-tools statement selects, before sorting; the `tags` column is not selected. */
  function SelectedRows(s: Snapshot): (r: seq<ToolRow>)
    ensures |r| == |ListedIds(s)|
    ensures forall i :: 0 <= i < |r| ==> IsListedTool(s, r[i].id) && r[i] == RowWith(s, r[i].id, None)
    ensures forall id :: IsListedTool(s, id) ==> RowWith(s, id, None) in r
  {
    var ids := ListedIds(s);
    var r := seq(|ids|, i requires 0 <= i < |ids| => RowWith(s, ids[i], None));
    assert forall id :: IsListedTool(s, id) ==> RowWith(s, id, None) in r by {
      forall id | IsListedTool(s, id) ensures RowWith(s, id, None) in r {
        assert id in ids;
        var i :| 0 <= i < |ids| && ids[i] == id;
        assert r[i] == RowWith(s, id, None);
      }
    }
    r
  }

  /** The active-tools statement: the selected rows ordered by view count, highest first. */
  function ActiveToolsStatement(s: Snapshot): seq<ToolRow> {
    Sort(SelectedRows(s), ByViewCount())
  }

  /** Appending a group keeps the groups of the tools before `n`. */
  lemma TagGroupsSnoc(s: Snapshot, n: nat, rest: seq<(nat, string)>, g: (nat, string))
    requires 1 <= n <= |s.tools|
    requires forall id :: 1 <= id <= n - 1 && IsActiveTool(s, id) && TagNamesOf(s, id) != [] ==>
      exists k :: 0 <= k < |rest| && rest[k].0 == id
    ensures forall id :: 1 <= id <= n - 1 && IsActiveTool(s, id) && TagNamesOf(s, id) != [] ==>
      exists k :: 0 <= k < |rest + [g]| && (rest + [g])[k].0 == id
  {
    var r := rest + [g];
    forall id | 1 <= id <= n - 1 && IsActiveTool(s, id) && TagNamesOf(s, id) != []
      ensures exists k :: 0 <= k < |r| && r[k].0 == id
    {
      var k :| 0 <= k < |rest| && rest[k].0 == id;
      assert r[k] == rest[k];
    }
  }

  /** The tag-groups statement: one `(tool_id, names joined by ',')` row per
      non-deleted tool that has at least one tag. */
  function TagGroupsUpTo(s: Snapshot, n: nat): (r: seq<(nat, string)>)
    requires n <= |s.tools|
    ensures forall k :: 0 <= k < |r| ==>
      IsActiveTool(s, r[k].0) && r[k].0 <= n && TagNamesOf(s, r[k].0) != [] && r[k].1 == Join(TagNamesOf(s, r[k].0), ",")
    ensures forall id :: 1 <= id <= n && IsActiveTool(s, id) && TagNamesOf(s, id) != [] ==>
      exists k :: 0 <= k < |r| && r[k].0 == id
  {
    if n == 0 then []
    else
      var rest := TagGroupsUpTo(s, n - 1);
      if IsActiveTool(s, n) && TagNamesOf(s, n) != [] then
        var r := rest + [(n, Join(TagNamesOf(s, n), ","))];
        assert r[|rest|].0 == n;
        TagGroupsSnoc(s, n, rest, (n, Join(TagNamesOf(s, n), ",")));
        r
      else
        rest
  }

  function TagGroups(s: Snapshot): seq<(nat, string)> {
    TagGroupsUpTo(s, |s.tools|)
  }

  /** `getToolById`: the listing row of a tool by internal id, if it is listed. */
  function ToolById(s: Snapshot, id: int): (r: Option<ToolRow>)
    ensures r.Some? <==> IsListedTool(s, id)
    ensures r.Some? ==> r.value.id == id && r.value.tags == TagsColumn(TagNamesOf(s, id))
  {
    if IsListedTool(s, id) then Some(ListedRow(s, id)) else None
  }

  /** The first tool id in `lo..|tools|` satisfying the legacy-id search. */
  function FirstToolWithLegacyId(s: Snapshot, legacyId: int, lo: nat, listedOnly: bool): (r: Option<nat>)
    requires 1 <= lo
    ensures r.Some? ==> lo <= r.value && IsActiveTool(s, r.value) && ToolOf(s, r.value).legacyId == legacyId
    ensures r.Some? && listedOnly ==> IsListedTool(s, r.value)
    ensures r.None? <==> forall id :: lo <= id <= |s.tools| && IsActiveTool(s, id) && ToolOf(s, id).legacyId == legacyId ==> listedOnly && !IsListedTool(s, id)
    decreases |s.tools| + 1 - lo
  {
    if lo > |s.tools| then None
    else if IsActiveTool(s, lo) && ToolOf(s, lo).legacyId == legacyId && (!listedOnly || IsListedTool(s, lo)) then Some(lo)
    else FirstToolWithLegacyId(s, legacyId, lo + 1, listedOnly)
  }

  /** `getToolIdByLegacyId`: the internal id of the non-deleted tool with that
      legacy id, or null. A deleted tool is not found even if its category is active. */
  function ToolIdByLegacyId(s: Snapshot, legacyId: int): (r: Option<nat>)
    ensures r.Some? ==> IsActiveTool(s, r.value) && ToolOf(s, r.value).legacyId == legacyId
    ensures r.None? <==> forall id :: HasTool(s, id) && ToolOf(s, id).legacyId == legacyId ==> ToolOf(s, id).isDeleted
  {
    FirstToolWithLegacyId(s, legacyId, 1, false)
  }

  /** `getToolByLegacyId`: the listing row of the listed tool with that legacy id. */
  function ToolByLegacyId(s: Snapshot, legacyId: int): (r: Option<ToolRow>)
    ensures r.Some? ==> IsListedTool(s, r.value.id) && r.value == ListedRow(s, r.value.id) && r.value.legacyId == legacyId
    ensures r.None? <==> forall id :: IsListedTool(s, id) ==> ToolOf(s, id).legacyId != legacyId
  {
    match FirstToolWithLegacyId(s, legacyId, 1, true)
    case Some(id) => Some(ListedRow(s, id))
    case None => None
  }

  /** In a well-formed store the legacy-id lookup finds the only tool with that legacy id. */
  lemma ToolIdByLegacyIdUnique(s: Snapshot, legacyId: int, id: nat)
    requires WellFormed(s) && IsActiveTool(s, id) && ToolOf(s, id).legacyId == legacyId
    ensures ToolIdByLegacyId(s, legacyId) == Some(id)
  {
  }

  // ---------------------------------------------------------------- categories, config, tags

  /** A row of `v_category_stats`: an active category and the number of its non-deleted tools. */
  datatype CategoryRow = CategoryRow(id: nat, legacyId: int, name: string, icon: string, displayOrder: int, toolCount: nat)

  function CategoryDisplayOrder(r: CategoryRow): int { r.displayOrder }

  /** The number of non-deleted tools among the first `n` whose category is `categoryId`. */
  function ToolCountUpTo(s: Snapshot, categoryId: nat, n: nat): (r: nat)
    requires n <= |s.tools|
    ensures r <= n
  {
    if n == 0 then 0
    else
      var here := if !s.tools[n - 1].isDeleted && s.tools[n - 1].categoryId == Some(categoryId) then 1 else 0;
      ToolCountUpTo(s, categoryId, n - 1) + here
  }

  /** Appending a row keeps the rows of the categories before `n`. */
  lemma CategoryRowsSnoc(s: Snapshot, n: nat, rest: seq<CategoryRow>, row: CategoryRow)
    requires 1 <= n <= |s.categories|
    requires forall id :: 1 <= id <= n - 1 && IsActiveCategory(s, id) ==> exists i :: 0 <= i < |rest| && rest[i].id == id
    ensures forall id :: 1 <= id <= n - 1 && IsActiveCategory(s, id) ==>
      exists i :: 0 <= i < |rest + [row]| && (rest + [row])[i].id == id
  {
    var r := rest + [row];
    forall id | 1 <= id <= n - 1 && IsActiveCategory(s, id) ensures exists i :: 0 <= i < |r| && r[i].id == id {
      var i :| 0 <= i < |rest| && rest[i].id == id;
      assert r[i] == rest[i];
    }
  }

  function CategoryRowsUpTo(s: Snapshot, n: nat): (r: seq<CategoryRow>)
    requires n <= |s.categories|
    ensures forall i :: 0 <= i < |r| ==>
      (IsActiveCategory(s, r[i].id) && r[i].id <= n
       && r[i].legacyId == CategoryOf(s, r[i].id).legacyId && r[i].displayOrder == CategoryOf(s, r[i].id).displayOrder
       && r[i].toolCount == ToolCountUpTo(s, r[i].id, |s.tools|))
    ensures forall id :: 1 <= id <= n && IsActiveCategory(s, id) ==> exists i :: 0 <= i < |r| && r[i].id == id
  {
    if n == 0 then []
    else
      var rest := CategoryRowsUpTo(s, n - 1);
      if IsActiveCategory(s, n) then
        var c := s.categories[n - 1];
        var row := CategoryRow(n, c.legacyId, c.name, c.icon, c.displayOrder, ToolCountUpTo(s, n, |s.tools|));
        var r := rest + [row];
        assert r[|rest|].id == n;
        CategoryRowsSnoc(s, n, rest, row);
        r
      else rest
  }

  /** `getActiveCategories`: the active categories with their tool counts, by display order. */
  function ActiveCategories(s: Snapshot): seq<CategoryRow> {
    Sort(CategoryRowsUpTo(s, |s.categories|), KeyAsc(CategoryDisplayOrder))
  }

  /** The active-categories listing holds every active category once, with its
      tool count, and is ordered by display order. */
  lemma ActiveCategoriesSpec(s: Snapshot)
    ensures SortedBy(ActiveCategories(s), KeyAsc(CategoryDisplayOrder))
    ensures forall i, j :: 0 <= i < j < |ActiveCategories(s)| ==> ActiveCategories(s)[i].id != ActiveCategories(s)[j].id
    ensures forall r :: r in ActiveCategories(s) ==> IsActiveCategory(s, r.id) && r.toolCount == ToolCountUpTo(s, r.id, |s.tools|)
    ensures forall id :: IsActiveCategory(s, id) ==> exists r :: r in ActiveCategories(s) && r.id == id
  {
    KeyAscIsPreorder(CategoryDisplayOrder);
    SortSorted(CategoryRowsUpTo(s, |s.categories|), KeyAsc(CategoryDisplayOrder));
    ActiveCategoriesSound(s);
    ActiveCategoriesComplete(s);
    ActiveCategoriesOnce(s);
  }

  /** No category is listed twice. */
  lemma ActiveCategoriesOnce(s: Snapshot)
    ensures forall i, j :: 0 <= i < j < |ActiveCategories(s)| ==> ActiveCategories(s)[i].id != ActiveCategories(s)[j].id
  {
    var rows := CategoryRowsUpTo(s, |s.categories|);
    CategoryRowsAscending(s, |s.categories|);
    PermutationKeyDistinct(rows, ActiveCategories(s), CategoryRowId);
  }

  function CategoryRowId(row: CategoryRow): int { row.id }

  /** The category rows come in ascending id order. */
  lemma {:induction false} CategoryRowsAscending(s: Snapshot, n: nat)
    requires n <= |s.categories|
    ensures forall i, j :: 0 <= i < j < |CategoryRowsUpTo(s, n)| ==> CategoryRowsUpTo(s, n)[i].id < CategoryRowsUpTo(s, n)[j].id
  {
    if n > 0 {
      var m := n - 1;
      CategoryRowsAscending(s, m);
      CategoryRowsStep(s, m, n);
      AscendingStep(CategoryRowsUpTo(s, m), CategoryRowsUpTo(s, n), n);
    }
  }

  /** One more category appends its row exactly when it is active. */
  lemma CategoryRowsStep(s: Snapshot, m: nat, n: nat)
    requires n == m + 1 && n <= |s.categories|
    ensures forall i :: 0 <= i < |CategoryRowsUpTo(s, m)| ==> CategoryRowsUpTo(s, m)[i].id <= m
    ensures |CategoryRowsUpTo(s, m)| <= |CategoryRowsUpTo(s, n)| <= |CategoryRowsUpTo(s, m)| + 1
    ensures CategoryRowsUpTo(s, n)[..|CategoryRowsUpTo(s, m)|] == CategoryRowsUpTo(s, m)
    ensures |CategoryRowsUpTo(s, n)| > |CategoryRowsUpTo(s, m)| ==> CategoryRowsUpTo(s, n)[|CategoryRowsUpTo(s, m)|].id == n
  {
    var rest := CategoryRowsUpTo(s, m);
    var r := CategoryRowsUpTo(s, n);
    assert n - 1 == m;
    if IsActiveCategory(s, n) {
      var c := s.categories[n - 1];
      assert r == rest + [CategoryRow(n, c.legacyId, c.name, c.icon, c.displayOrder, ToolCountUpTo(s, n, |s.tools|))];
    } else {
      assert r == rest;
    }
  }

  lemma AscendingStep(rest: seq<CategoryRow>, r: seq<CategoryRow>, n: nat)
    requires forall i, j :: 0 <= i < j < |rest| ==> rest[i].id < rest[j].id
    requires forall i :: 0 <= i < |rest| ==> rest[i].id <= n - 1
    requires |rest| <= |r| <= |rest| + 1 && r[..|rest|] == rest
    requires |r| > |rest| ==> r[|rest|].id == n
    ensures forall i, j :: 0 <= i < j < |r| ==> r[i].id < r[j].id
  {
    forall i, j | 0 <= i < j < |r| ensures r[i].id < r[j].id {
      assert r[i] == rest[i];
      if j < |rest| {
        assert r[j] == rest[j];
      }
    }
  }

  lemma ActiveCategoriesSound(s: Snapshot)
    ensures forall r :: r in ActiveCategories(s) ==>
      IsActiveCategory(s, r.id) && r.toolCount == ToolCountUpTo(s, r.id, |s.tools|) && r.legacyId == CategoryOf(s, r.id).legacyId
  {
    var rows := CategoryRowsUpTo(s, |s.categories|);
    SortMembers(rows, KeyAsc(CategoryDisplayOrder));
    forall r | r in ActiveCategories(s)
      ensures IsActiveCategory(s, r.id) && r.toolCount == ToolCountUpTo(s, r.id, |s.tools|) && r.legacyId == CategoryOf(s, r.id).legacyId
    {
      assert r in rows;
      var i :| 0 <= i < |rows| && rows[i] == r;
    }
  }

  lemma ActiveCategoriesComplete(s: Snapshot)
    ensures forall id :: IsActiveCategory(s, id) ==> exists r :: r in ActiveCategories(s) && r.id == id
  {
    var rows := CategoryRowsUpTo(s, |s.categories|);
    SortMembers(rows, KeyAsc(CategoryDisplayOrder));
    forall id | IsActiveCategory(s, id) ensures exists r :: r in ActiveCategories(s) && r.id == id {
      var i :| 0 <= i < |rows| && rows[i].id == id;
      assert rows[i] in ActiveCategories(s);
    }
  }

  /** What `getSiteConfig` returns. */
  datatype SiteInfo = SiteInfo(siteName: string, description: string, keywords: seq<string>)

  /** Reading a property of the missing config row throws a TypeError. */
  const MissingConfigError := JsError("TypeError", None, Some("Cannot read properties of undefined (reading 'site_name')"), None)

  /** `getSiteConfig`: the config row with id 1 and every keyword in id order;
      without that row, a TypeError. */
  function SiteConfigOf(s: Snapshot): (r: Result<SiteInfo, JsError>)
    ensures r.Ok? <==> s.siteConfig.Some?
    ensures r.Ok? ==>
      (r.value.siteName == s.siteConfig.value.siteName
       && r.value.description == s.siteConfig.value.description && r.value.keywords == s.keywords)
  {
    match s.siteConfig
    case Some(c) => Ok(SiteInfo(c.siteName, c.description, s.keywords))
    case None => Err(MissingConfigError)
  }

  /** A tag as the tag statements return it. */
  datatype TagRow = TagRow(id: nat, name: string)

  function TagRowName(r: TagRow): string { r.name }

  /** `ORDER BY name` */
  function ByName(): (TagRow, TagRow) -> bool { TextAsc(TagRowName) }

  function AllTagRows(s: Snapshot): (r: seq<TagRow>)
    ensures |r| == |s.tags|
    ensures forall i :: 0 <= i < |r| ==> r[i] == TagRow(i + 1, s.tags[i].name)
  {
    seq(|s.tags|, i requires 0 <= i < |s.tags| => TagRow(i + 1, s.tags[i].name))
  }

  /** `getAllTags`: every tag, ordered by name. */
  function AllTags(s: Snapshot): seq<TagRow> {
    Sort(AllTagRows(s), ByName())
  }

  /** `r` is the row of an existing tag. */
  predicate IsTagRow(s: Snapshot, r: TagRow) {
    HasTag(s, r.id) && r.name == s.tags[r.id - 1].name
  }

  lemma AllTagsSpec(s: Snapshot)
    ensures SortedBy(AllTags(s), ByName())
    ensures multiset(AllTags(s)) == multiset(AllTagRows(s))
    ensures forall r :: r in AllTags(s) ==> IsTagRow(s, r)
  {
    var rows := AllTagRows(s);
    SortedByName(rows);
    SortMembers(rows, ByName());
    forall r | r in rows ensures IsTagRow(s, r) {
      var i :| 0 <= i < |rows| && rows[i] == r;
    }
  }

  /** The tags `pairs` attach to `toolId`, in row order. */
  function ToolTagRows(tags: seq<Tag>, pairs: seq<ToolTag>, toolId: int): (r: seq<TagRow>)
    ensures forall i :: 0 <= i < |r| ==>
      (1 <= r[i].id <= |tags| && r[i].name == tags[r[i].id - 1].name
       && 0 <= toolId && ToolTag(toolId as nat, r[i].id) in pairs)
    ensures |r| == |TagNames(tags, pairs, toolId)|
  {
    if pairs == [] then []
    else
      var p := pairs[|pairs| - 1];
      var rest := ToolTagRows(tags, pairs[..|pairs| - 1], toolId);
      var r := rest + (if p.toolId == toolId && 1 <= p.tagId <= |tags| then [TagRow(p.tagId, tags[p.tagId - 1].name)] else []);
      assert pairs == pairs[..|pairs| - 1] + [p];
      assert forall i :: 0 <= i < |rest| ==> rest[i] == r[i];
      r
  }

  /** `getToolTags`: the tags of one tool, ordered by name. */
  function ToolTagsOf(s: Snapshot, toolId: int): seq<TagRow> {
    Sort(ToolTagRows(s.tags, s.toolTags, toolId), ByName())
  }

  /** `r` is a tag row of a tag attached to `toolId`. */
  predicate AttachedTagRow(s: Snapshot, toolId: int, r: TagRow) {
    IsTagRow(s, r) && 0 <= toolId && ToolTag(toolId as nat, r.id) in s.toolTags
  }

  lemma ToolTagsOfSpec(s: Snapshot, toolId: int)
    ensures SortedBy(ToolTagsOf(s, toolId), ByName())
    ensures |ToolTagsOf(s, toolId)| == |TagNamesOf(s, toolId)|
    ensures forall r :: r in ToolTagsOf(s, toolId) <==> AttachedTagRow(s, toolId, r)
    ensures multiset(ToolTagsOf(s, toolId)) == multiset(ToolTagRows(s.tags, s.toolTags, toolId))
  {
    var rows := ToolTagRows(s.tags, s.toolTags, toolId);
    SortedByName(rows);
    SortLength(rows, ByName());
    SortMembers(rows, ByName());
    ToolTagRowsAttached(s, toolId);
  }

  /** Every pair of `toolId` with an existing tag gives a row. */
  lemma {:induction false} ToolTagRowsComplete(tags: seq<Tag>, pairs: seq<ToolTag>, toolId: int, tagId: int)
    requires 0 <= toolId && 1 <= tagId <= |tags| && ToolTag(toolId as nat, tagId as nat) in pairs
    ensures TagRow(tagId, tags[tagId - 1].name) in ToolTagRows(tags, pairs, toolId)
  {
    var init := pairs[..|pairs| - 1];
    assert pairs == init + [pairs[|pairs| - 1]];
    if ToolTag(toolId as nat, tagId as nat) in init {
      ToolTagRowsComplete(tags, init, toolId, tagId);
    }
  }

  lemma SortLength<T>(rows: seq<T>, le: (T, T) -> bool)
    ensures |Sort(rows, le)| == |rows|
  {
    assert |multiset(Sort(rows, le))| == |multiset(rows)|;
  }

  lemma ToolTagRowsAttached(s: Snapshot, toolId: int)
    ensures forall r :: r in ToolTagRows(s.tags, s.toolTags, toolId) <==> AttachedTagRow(s, toolId, r)
  {
    var rows := ToolTagRows(s.tags, s.toolTags, toolId);
    forall r | r in rows ensures AttachedTagRow(s, toolId, r) {
      var i :| 0 <= i < |rows| && rows[i] == r;
    }
    forall r | AttachedTagRow(s, toolId, r) ensures r in rows {
      ToolTagRowsComplete(s.tags, s.toolTags, toolId, r.id);
    }
  }

  lemma SortedByName(rows: seq<TagRow>)
    ensures SortedBy(Sort(rows, ByName()), ByName())
  {
    TextAscIsPreorder(TagRowName);
    SortSorted(rows, ByName());
  }

  // ---------------------------------------------------------------- writes

  /** `UPDATE tools SET view_count = view_count + 1 WHERE id = ? AND is_deleted = 0` */
  function ViewCountIncremented(s: Snapshot, id: int): Snapshot {
    if IsActiveTool(s, id) then
      s.(tools := s.tools[id - 1 := ToolOf(s, id).(viewCount := ToolOf(s, id).viewCount + 1)])
    else s
  }

  /** `UPDATE tools SET is_deleted = 1 WHERE id = ? AND is_deleted = 0` */
  function SoftDeleted(s: Snapshot, id: int): Snapshot {
    if IsActiveTool(s, id) then s.(tools := s.tools[id - 1 := ToolOf(s, id).(isDeleted := true)]) else s
  }

  /** The view count of an active tool goes up by exactly one; nothing else
      changes, and a deleted or missing id changes nothing at all. */
  lemma ViewCountIncrementedSpec(s: Snapshot, id: int)
    ensures var r := ViewCountIncremented(s, id);
      |r.tools| == |s.tools| && r.categories == s.categories && r.tags == s.tags && r.toolTags == s.toolTags
      && (forall k :: HasTool(s, k) && k != id ==> ToolOf(r, k) == ToolOf(s, k))
      && (IsActiveTool(s, id) ==> ToolOf(r, id) == ToolOf(s, id).(viewCount := ToolOf(s, id).viewCount + 1))
      && (!IsActiveTool(s, id) ==> r == s)
  {
  }

  /** Soft deletion marks an active tool deleted and touches nothing else; a
      second deletion of the same id changes nothing. */
  lemma SoftDeletedSpec(s: Snapshot, id: int)
    ensures var r := SoftDeleted(s, id);
      |r.tools| == |s.tools| && r.categories == s.categories && r.tags == s.tags && r.toolTags == s.toolTags
      && (forall k :: HasTool(s, k) && k != id ==> ToolOf(r, k) == ToolOf(s, k))
      && (HasTool(s, id) ==> ToolOf(r, id) == ToolOf(s, id).(isDeleted := true))
      && !IsActiveTool(r, id)
      && SoftDeleted(r, id) == r
  {
  }

  /** The fields `updateTool` may set; `None` is `undefined`, and `Some(None)`
      a text field sent as `null`. */
  datatype ToolPatch = ToolPatch(
    name: Option<string>, description: Option<Option<string>>, logo: Option<Option<string>>, url: Option<Option<string>>,
    categoryId: Option<int>, isFeatured: Option<int>, isNew: Option<int>)

  /** The columns `updateTool` can set, in the order it tests them. */
  datatype Column = NameColumn | DescriptionColumn | LogoColumn | UrlColumn | CategoryIdColumn | IsFeaturedColumn | IsNewColumn

  function ColumnName(c: Column): string {
    match c
    case NameColumn => "name"
    case DescriptionColumn => "description"
    case LogoColumn => "logo"
    case UrlColumn => "url"
    case CategoryIdColumn => "category_id"
    case IsFeaturedColumn => "is_featured"
    case IsNewColumn => "is_new"
  }

  /** The position of a column in that order. */
  function Ordinal(c: Column): nat {
    match c
    case NameColumn => 0
    case DescriptionColumn => 1
    case LogoColumn => 2
    case UrlColumn => 3
    case CategoryIdColumn => 4
    case IsFeaturedColumn => 5
    case IsNewColumn => 6
  }

  predicate Defines(p: ToolPatch, c: Column) {
    match c
    case NameColumn => p.name.Some?
    case DescriptionColumn => p.description.Some?
    case LogoColumn => p.logo.Some?
    case UrlColumn => p.url.Some?
    case CategoryIdColumn => p.categoryId.Some?
    case IsFeaturedColumn => p.isFeatured.Some?
    case IsNewColumn => p.isNew.Some?
  }

  /** The value bound to a defined field's `?`. */
  function ValueOf(p: ToolPatch, c: Column): SqlValue
    requires Defines(p, c)
  {
    match c
    case NameColumn => SqlText(p.name.value)
    case DescriptionColumn => TextOrNull(p.description.value)
    case LogoColumn => TextOrNull(p.logo.value)
    case UrlColumn => TextOrNull(p.url.value)
    case CategoryIdColumn => SqlInt(p.categoryId.value)
    case IsFeaturedColumn => SqlInt(p.isFeatured.value)
    case IsNewColumn => SqlInt(p.isNew.value)
  }

  /** The value bound for a nullable text field. */
  function TextOrNull(v: Option<string>): SqlValue {
    if v.Some? then SqlText(v.value) else SqlNull
  }

  /** The columns in the order `updateTool` tests them. */
  const AllColumns: seq<Column> := [NameColumn, DescriptionColumn, LogoColumn, UrlColumn, CategoryIdColumn, IsFeaturedColumn, IsNewColumn]

  /** The assignment one column contributes: one pair when the field is defined, none otherwise. */
  function Slot(p: ToolPatch, c: Column): seq<(Column, SqlValue)> {
    if Defines(p, c) then [(c, ValueOf(p, c))] else []
  }

  /** The slots of the columns `cs`, in order. */
  function SlotsOf(p: ToolPatch, cs: seq<Column>): seq<(Column, SqlValue)> {
    if cs == [] then [] else SlotsOf(p, cs[..|cs| - 1]) + Slot(p, cs[|cs| - 1])
  }

  /** The `(column, value)` pairs of the SET list: the defined fields, in the
      order name, description, logo, url, category_id, is_featured, is_new. */
  function Assignments(p: ToolPatch): seq<(Column, SqlValue)> {
    SlotsOf(p, AllColumns)
  }

  /** A patch with no defined field. */
  predicate IsEmptyPatch(p: ToolPatch) {
    p.name.None? && p.description.None? && p.logo.None? && p.url.None?
      && p.categoryId.None? && p.isFeatured.None? && p.isNew.None?
  }

  predicate HasColumn(a: seq<(Column, SqlValue)>, c: Column) {
    exists k :: 0 <= k < |a| && a[k].0 == c
  }

  /** Every column of `a` has an ordinal in `lo..hi - 1`, strictly increasing. */
  predicate OrderedWithin(a: seq<(Column, SqlValue)>, lo: nat, hi: nat) {
    (forall k :: 0 <= k < |a| ==> lo <= Ordinal(a[k].0) < hi) &&
    (forall i, j :: 0 <= i < j < |a| ==> Ordinal(a[i].0) < Ordinal(a[j].0))
  }

  lemma HasColumnAppend(a: seq<(Column, SqlValue)>, b: seq<(Column, SqlValue)>, c: Column)
    ensures HasColumn(a + b, c) <==> HasColumn(a, c) || HasColumn(b, c)
  {
    if HasColumn(a + b, c) {
      var k :| 0 <= k < |a + b| && (a + b)[k].0 == c;
      if k >= |a| {
        assert b[k - |a|].0 == c;
      }
    }
    if HasColumn(a, c) {
      var k :| 0 <= k < |a| && a[k].0 == c;
      assert (a + b)[k] == a[k];
    }
    if HasColumn(b, c) {
      var k :| 0 <= k < |b| && b[k].0 == c;
      assert (a + b)[|a| + k] == b[k];
    }
  }

  lemma OrderedAppend(a: seq<(Column, SqlValue)>, b: seq<(Column, SqlValue)>, lo: nat, mid: nat, hi: nat)
    requires lo <= mid <= hi
    requires OrderedWithin(a, lo, mid) && OrderedWithin(b, mid, hi)
    ensures OrderedWithin(a + b, lo, hi)
  {
    var ab := a + b;
    forall i, j | 0 <= i < j < |ab| ensures Ordinal(ab[i].0) < Ordinal(ab[j].0) {
      if j < |a| {
        assert ab[i] == a[i] && ab[j] == a[j];
      } else if i >= |a| {
        assert ab[i] == b[i - |a|] && ab[j] == b[j - |a|];
      } else {
        assert ab[i] == a[i] && ab[j] == b[j - |a|];
      }
    }
    forall k | 0 <= k < |ab| ensures lo <= Ordinal(ab[k].0) < hi {
      if k < |a| { assert ab[k] == a[k]; } else { assert ab[k] == b[k - |a|]; }
    }
  }

  lemma {:induction false} SlotsHaveColumn(p: ToolPatch, cs: seq<Column>, c: Column)
    ensures HasColumn(SlotsOf(p, cs), c) <==> c in cs && Defines(p, c)
  {
    if cs != [] {
      var init := cs[..|cs| - 1];
      var last := cs[|cs| - 1];
      SlotsHaveColumn(p, init, c);
      HasColumnAppend(SlotsOf(p, init), Slot(p, last), c);
      if Defines(p, last) {
        assert Slot(p, last)[0].0 == last;
      }
      assert cs == init + [last];
    }
  }

  lemma {:induction false} SlotsOrdered(p: ToolPatch, cs: seq<Column>, lo: nat, hi: nat)
    requires forall k :: 0 <= k < |cs| ==> lo <= Ordinal(cs[k]) < hi
    requires forall i, j :: 0 <= i < j < |cs| ==> Ordinal(cs[i]) < Ordinal(cs[j])
    ensures OrderedWithin(SlotsOf(p, cs), lo, hi)
  {
    if cs != [] {
      var init := cs[..|cs| - 1];
      var mid := Ordinal(cs[|cs| - 1]);
      forall k | 0 <= k < |init| ensures lo <= Ordinal(init[k]) < mid {
        assert init[k] == cs[k];
      }
      SlotsOrdered(p, init, lo, mid);
      assert OrderedWithin(Slot(p, cs[|cs| - 1]), mid, hi);
      OrderedAppend(SlotsOf(p, init), Slot(p, cs[|cs| - 1]), lo, mid, hi);
    }
  }

  /** The SET list names exactly the defined fields, each once, in the fixed column order. */
  lemma AssignmentsSpec(p: ToolPatch)
    ensures forall c :: HasColumn(Assignments(p), c) <==> Defines(p, c)
    ensures forall i, j :: 0 <= i < j < |Assignments(p)| ==> Ordinal(Assignments(p)[i].0) < Ordinal(Assignments(p)[j].0)
    ensures Assignments(p) == [] <==> IsEmptyPatch(p)
  {
    forall c ensures HasColumn(Assignments(p), c) <==> Defines(p, c) {
      SlotsHaveColumn(p, AllColumns, c);
      assert c in AllColumns by {
        match c
        case NameColumn => assert AllColumns[0] == c;
        case DescriptionColumn => assert AllColumns[1] == c;
        case LogoColumn => assert AllColumns[2] == c;
        case UrlColumn => assert AllColumns[3] == c;
        case CategoryIdColumn => assert AllColumns[4] == c;
        case IsFeaturedColumn => assert AllColumns[5] == c;
        case IsNewColumn => assert AllColumns[6] == c;
      }
    }
    SlotsOrdered(p, AllColumns, 0, 7);
    var a := Assignments(p);
    if a != [] {
      assert HasColumn(a, a[0].0);
    }
    if !IsEmptyPatch(p) {
      var c := if p.name.Some? then NameColumn else if p.description.Some? then DescriptionColumn
        else if p.logo.Some? then LogoColumn else if p.url.Some? then UrlColumn
        else if p.categoryId.Some? then CategoryIdColumn else if p.isFeatured.Some? then IsFeaturedColumn
        else IsNewColumn;
      assert Defines(p, c);
    }
  }

  /** The SET clause text: `col = ?` for each assignment, joined by `, `. */
  function SetClause(a: seq<(Column, SqlValue)>): string {
    Join(FieldsOf(a), ", ")
  }

  /** Writes one `col = ?` assignment into a tool row. */
  function Assign(t: Tool, c: Column, v: SqlValue): Tool {
    match (c, v)
    case (NameColumn, SqlText(x)) => t.(name := x)
    case (DescriptionColumn, SqlText(x)) => t.(description := Some(x))
    case (DescriptionColumn, SqlNull) => t.(description := None)
    case (LogoColumn, SqlText(x)) => t.(logo := Some(x))
    case (LogoColumn, SqlNull) => t.(logo := None)
    case (UrlColumn, SqlText(x)) => t.(url := Some(x))
    case (UrlColumn, SqlNull) => t.(url := None)
    case (CategoryIdColumn, SqlInt(x)) => t.(categoryId := if x >= 0 then Some(x) else None)
    case (IsFeaturedColumn, SqlInt(x)) => t.(isFeatured := x)
    case (IsNewColumn, SqlInt(x)) => t.(isNew := x)
    case _ => t
  }

  /** Executes a SET list, left to right. */
  function AssignAll(t: Tool, a: seq<(Column, SqlValue)>): Tool
    decreases |a|
  {
    if a == [] then t else AssignAll(Assign(t, a[0].0, a[0].1), a[1..])
  }

  /** Executing two SET lists one after the other is executing their concatenation. */
  lemma {:induction false} AssignAllAppend(t: Tool, a: seq<(Column, SqlValue)>, b: seq<(Column, SqlValue)>)
    ensures AssignAll(t, a + b) == AssignAll(AssignAll(t, a), b)
    decreases |a|
  {
    if a == [] {
      assert a + b == b;
    } else {
      assert (a + b)[0] == a[0];
      assert (a + b)[1..] == a[1..] + b;
      AssignAllAppend(Assign(t, a[0].0, a[0].1), a[1..], b);
    }
  }

  lemma AssignAllOne(t: Tool, a: seq<(Column, SqlValue)>)
    requires |a| <= 1
    ensures AssignAll(t, a) == if a == [] then t else Assign(t, a[0].0, a[0].1)
  {
    if a != [] {
      assert a[1..] == [];
    }
  }

  /** The row a patch produces, field by field. */
  function Patched(t: Tool, p: ToolPatch): Tool {
    t.(name := p.name.GetOr(t.name),
       description := p.description.GetOr(t.description),
       logo := p.logo.GetOr(t.logo),
       url := p.url.GetOr(t.url),
       categoryId := if p.categoryId.Some? then (if p.categoryId.value >= 0 then Some(p.categoryId.value) else None) else t.categoryId,
       isFeatured := p.isFeatured.GetOr(t.isFeatured),
       isNew := p.isNew.GetOr(t.isNew))
  }

  /** The assignment of one column, when the patch defines it. */
  function ApplyOne(t: Tool, p: ToolPatch, c: Column): Tool {
    if Defines(p, c) then Assign(t, c, ValueOf(p, c)) else t
  }

  /** Running the SET list of the columns `cs` one column at a time. */
  function ApplySlots(t: Tool, p: ToolPatch, cs: seq<Column>): Tool
    decreases |cs|
  {
    if cs == [] then t else ApplyOne(ApplySlots(t, p, cs[..|cs| - 1]), p, cs[|cs| - 1])
  }

  lemma {:induction false} SlotsExecute(t: Tool, p: ToolPatch, cs: seq<Column>)
    ensures AssignAll(t, SlotsOf(p, cs)) == ApplySlots(t, p, cs)
    decreases |cs|
  {
    if cs != [] {
      var init := cs[..|cs| - 1];
      var a := Slot(p, cs[|cs| - 1]);
      SlotsExecute(t, p, init);
      AssignAllAppend(t, SlotsOf(p, init), a);
      AssignAllOne(AssignAll(t, SlotsOf(p, init)), a);
    }
  }

  function ApplyInOrder(t: Tool, p: ToolPatch): Tool {
    ApplyOne(ApplyOne(ApplyOne(ApplyOne(ApplyOne(ApplyOne(ApplyOne(t,
      p, NameColumn), p, DescriptionColumn), p, LogoColumn), p, UrlColumn),
      p, CategoryIdColumn), p, IsFeaturedColumn), p, IsNewColumn)
  }

  lemma ApplySlotsSnoc(t: Tool, p: ToolPatch, cs: seq<Column>, c: Column)
    ensures ApplySlots(t, p, cs + [c]) == ApplyOne(ApplySlots(t, p, cs), p, c)
  {
    var s := cs + [c];
    assert s[..|s| - 1] == cs;
  }

  lemma ApplyAllColumns(t: Tool, p: ToolPatch)
    ensures ApplySlots(t, p, AllColumns) == ApplyInOrder(t, p)
  {
    var c0: seq<Column> := [];
    var c1 := c0 + [NameColumn];
    var c2 := c1 + [DescriptionColumn];
    var c3 := c2 + [LogoColumn];
    var c4 := c3 + [UrlColumn];
    var c5 := c4 + [CategoryIdColumn];
    var c6 := c5 + [IsFeaturedColumn];
    var c7 := c6 + [IsNewColumn];
    ApplySlotsSnoc(t, p, c0, NameColumn);
    ApplySlotsSnoc(t, p, c1, DescriptionColumn);
    ApplySlotsSnoc(t, p, c2, LogoColumn);
    ApplySlotsSnoc(t, p, c3, UrlColumn);
    ApplySlotsSnoc(t, p, c4, CategoryIdColumn);
    ApplySlotsSnoc(t, p, c5, IsFeaturedColumn);
    ApplySlotsSnoc(t, p, c6, IsNewColumn);
    assert c7 == AllColumns;
  }

  /** The seven assignments one after another patch the row. */
  lemma ApplyInOrderPatches(t: Tool, p: ToolPatch)
    ensures ApplyInOrder(t, p) == Patched(t, p)
  {
    var t1 := ApplyOne(t, p, NameColumn);
    AppliedName(t, p);
    var t2 := ApplyOne(t1, p, DescriptionColumn);
    AppliedDescription(t1, p);
    var t3 := ApplyOne(t2, p, LogoColumn);
    AppliedLogo(t2, p);
    var t4 := ApplyOne(t3, p, UrlColumn);
    AppliedUrl(t3, p);
    var t5 := ApplyOne(t4, p, CategoryIdColumn);
    AppliedCategoryId(t4, p);
    var t6 := ApplyOne(t5, p, IsFeaturedColumn);
    AppliedIsFeatured(t5, p);
    var t7 := ApplyOne(t6, p, IsNewColumn);
    AppliedIsNew(t6, p);
    assert t7.name == Patched(t, p).name && t7.description == Patched(t, p).description;
    assert t7.logo == Patched(t, p).logo && t7.url == Patched(t, p).url;
    assert t7.categoryId == Patched(t, p).categoryId;
    assert t7.isFeatured == Patched(t, p).isFeatured && t7.isNew == Patched(t, p).isNew;
  }

  lemma AppliedName(t: Tool, p: ToolPatch)
    ensures ApplyOne(t, p, NameColumn) == t.(name := p.name.GetOr(t.name))
  {
  }

  lemma AppliedDescription(t: Tool, p: ToolPatch)
    ensures ApplyOne(t, p, DescriptionColumn) == t.(description := p.description.GetOr(t.description))
  {
  }

  lemma AppliedLogo(t: Tool, p: ToolPatch)
    ensures ApplyOne(t, p, LogoColumn) == t.(logo := p.logo.GetOr(t.logo))
  {
  }

  lemma AppliedUrl(t: Tool, p: ToolPatch)
    ensures ApplyOne(t, p, UrlColumn) == t.(url := p.url.GetOr(t.url))
  {
  }

  lemma AppliedCategoryId(t: Tool, p: ToolPatch)
    ensures ApplyOne(t, p, CategoryIdColumn) == t.(categoryId := if p.categoryId.Some? then (if p.categoryId.value >= 0 then Some(p.categoryId.value) else None) else t.categoryId)
  {
  }

  lemma AppliedIsFeatured(t: Tool, p: ToolPatch)
    ensures ApplyOne(t, p, IsFeaturedColumn) == t.(isFeatured := p.isFeatured.GetOr(t.isFeatured))
  {
  }

  lemma AppliedIsNew(t: Tool, p: ToolPatch)
    ensures ApplyOne(t, p, IsNewColumn) == t.(isNew := p.isNew.GetOr(t.isNew))
  {
  }

  /** Running the built SET list on a row gives exactly the patched row. */
  lemma AssignmentsExecutePatch(t: Tool, p: ToolPatch)
    ensures AssignAll(t, Assignments(p)) == Patched(t, p)
  {
    SlotsExecute(t, p, AllColumns);
    ApplyAllColumns(t, p);
    ApplyInOrderPatches(t, p);
  }

  /** `updateTool`: no defined field runs no statement; otherwise the SET list is
      applied to the non-deleted tool with that id, and a `category_id` naming
      no category fails the foreign key and changes nothing. */
  function ToolUpdated(s: Snapshot, id: int, p: ToolPatch): Result<Snapshot, JsError> {
    if IsEmptyPatch(p) || !IsActiveTool(s, id) then Ok(s)
    else if p.categoryId.Some? && !HasCategory(s, p.categoryId.value) then Err(ForeignKeyError)
    else Ok(s.(tools := s.tools[id - 1 := Patched(ToolOf(s, id), p)]))
  }

  /** Only the addressed non-deleted tool changes, and only in the defined fields. */
  lemma ToolUpdatedSpec(s: Snapshot, id: int, p: ToolPatch)
    ensures match ToolUpdated(s, id, p)
      case Err(e) => e == ForeignKeyError && IsActiveTool(s, id) && p.categoryId.Some? && !HasCategory(s, p.categoryId.value)
      case Ok(r) =>
        |r.tools| == |s.tools| && r.categories == s.categories && r.tags == s.tags && r.toolTags == s.toolTags
        && (forall k :: HasTool(s, k) && k != id ==> ToolOf(r, k) == ToolOf(s, k))
        && (IsActiveTool(s, id) ==> ToolOf(r, id) == Patched(ToolOf(s, id), p))
        && (!IsActiveTool(s, id) || IsEmptyPatch(p) ==> r == s)
  {
  }

  /** The first tag in rows `lo..` whose name equals `name` under NOCASE. */
  function FindTagFrom(tags: seq<Tag>, name: string, lo: nat): (r: Option<nat>)
    ensures r.Some? ==> lo < r.value <= |tags| && SameNoCase(tags[r.value - 1].name, name)
    ensures r.None? ==> forall i :: lo <= i < |tags| ==> !SameNoCase(tags[i].name, name)
    decreases |tags| - lo
  {
    if lo >= |tags| then None
    else if SameNoCase(tags[lo].name, name) then Some(lo + 1)
    else FindTagFrom(tags, name, lo + 1)
  }

  /** `SELECT id FROM tags WHERE name = ? COLLATE NOCASE` */
  function FindTag(s: Snapshot, name: string): (r: Option<nat>)
    ensures r.Some? ==> HasTag(s, r.value) && SameNoCase(s.tags[r.value - 1].name, name)
    ensures r.None? ==> forall i :: 0 <= i < |s.tags| ==> !SameNoCase(s.tags[i].name, name)
  {
    FindTagFrom(s.tags, name, 0)
  }

  /** The tag that `addTagToTool` attaches: the existing one, or a new row. */
  function TagFor(s: Snapshot, name: string): (Snapshot, nat) {
    match FindTag(s, name)
    case Some(id) => (s, id)
    case None => (s.(tags := s.tags + [Tag(name)]), |s.tags| + 1)
  }

  /** `INSERT OR IGNORE INTO tool_tags`: the pair is added unless already present. */
  function PairInserted(pairs: seq<ToolTag>, p: ToolTag): seq<ToolTag> {
    if p in pairs then pairs else pairs + [p]
  }

  /** `addTagToTool` on an existing tool (the transaction's body). */
  function TagAttached(s: Snapshot, toolId: nat, name: string): Snapshot {
    var (s1, tagId) := TagFor(s, name);
    s1.(toolTags := PairInserted(s1.toolTags, ToolTag(toolId, tagId)))
  }

  /** `addTagToTool`: a missing tool fails the foreign key and the transaction
      leaves the store unchanged. */
  function TagAssociated(s: Snapshot, toolId: int, name: string): Result<Snapshot, JsError> {
    if HasTool(s, toolId) then Ok(TagAttached(s, toolId, name)) else Err(ForeignKeyError)
  }

  /** An existing NOCASE-equal tag is reused; otherwise exactly one tag is
      created. Afterwards the pair exists exactly once and no other pair changed. */
  lemma TagAttachedSpec(s: Snapshot, toolId: nat, name: string)
    requires WellFormed(s) && HasTool(s, toolId)
    ensures var r := TagAttached(s, toolId, name);
      r.tools == s.tools && r.categories == s.categories
      && (FindTag(s, name).Some? ==> r.tags == s.tags)
      && (FindTag(s, name).None? ==> r.tags == s.tags + [Tag(name)])
      && (exists tagId :: HasTag(r, tagId) && SameNoCase(r.tags[tagId - 1].name, name)
            && ToolTag(toolId, tagId) in r.toolTags
            && (forall q :: q in r.toolTags <==> q in s.toolTags || q == ToolTag(toolId, tagId)))
      && WellFormed(r)
  {
    var (s1, tagId) := TagFor(s, name);
    var r := TagAttached(s, toolId, name);
    assert HasTag(r, tagId) && SameNoCase(r.tags[tagId - 1].name, name);
    assert ToolTag(toolId, tagId) in r.toolTags;
    TagAttachedWellFormed(s, toolId, name);
  }

  lemma TagAttachedWellFormed(s: Snapshot, toolId: nat, name: string)
    requires WellFormed(s) && HasTool(s, toolId)
    ensures WellFormed(TagAttached(s, toolId, name))
  {
    var (s1, tagId) := TagFor(s, name);
    var r := TagAttached(s, toolId, name);
    if FindTag(s, name).None? {
      forall i, j | 0 <= i < j < |s1.tags| ensures !SameNoCase(s1.tags[i].name, s1.tags[j].name) {
        if j == |s.tags| {
          assert s1.tags[j].name == name;
        } else {
          assert s1.tags[i] == s.tags[i] && s1.tags[j] == s.tags[j];
        }
      }
    }
    var p := ToolTag(toolId, tagId);
    if p !in s1.toolTags {
      forall i, j | 0 <= i < j < |r.toolTags| ensures r.toolTags[i] != r.toolTags[j] {
        if j == |s1.toolTags| {
          assert r.toolTags[j] == p;
          assert r.toolTags[i] in s1.toolTags;
        }
      }
    }
  }

  /** `DELETE FROM tool_tags WHERE tool_id = ? AND tag_id = ?` */
  function PairRemoved(pairs: seq<ToolTag>, p: ToolTag): (r: seq<ToolTag>)
    ensures forall q :: q in r <==> q in pairs && q != p
    ensures |r| <= |pairs|
  {
    if pairs == [] then []
    else PairRemoved(pairs[..|pairs| - 1], p) + (if pairs[|pairs| - 1] == p then [] else [pairs[|pairs| - 1]])
  }

  /** `removeTagFromTool` */
  function TagDissociated(s: Snapshot, toolId: int, tagId: int): Snapshot {
    if toolId >= 0 && tagId >= 0 then s.(toolTags := PairRemoved(s.toolTags, ToolTag(toolId, tagId))) else s
  }

  /** Only that pair goes; every tag row stays. */
  lemma TagDissociatedSpec(s: Snapshot, toolId: int, tagId: int)
    requires WellFormed(s)
    ensures var r := TagDissociated(s, toolId, tagId);
      r.tags == s.tags && r.tools == s.tools && r.categories == s.categories
      && (forall q :: q in r.toolTags <==> q in s.toolTags && (q.toolId, q.tagId) != (toolId, tagId))
      && WellFormed(r)
  {
    var r := TagDissociated(s, toolId, tagId);
    if toolId >= 0 && tagId >= 0 {
      PairRemovedDistinct(s.toolTags, ToolTag(toolId, tagId));
      forall k | 0 <= k < |r.toolTags| ensures HasTool(r, r.toolTags[k].toolId) && HasTag(r, r.toolTags[k].tagId) {
        assert r.toolTags[k] in s.toolTags;
      }
    }
  }

  /** Where each kept pair came from: an increasing map into the old rows. */
  function PairRemovedIndex(pairs: seq<ToolTag>, p: ToolTag): (f: seq<nat>)
    ensures |f| == |PairRemoved(pairs, p)|
    ensures forall i :: 0 <= i < |f| ==> f[i] < |pairs| && PairRemoved(pairs, p)[i] == pairs[f[i]]
    ensures forall i, j :: 0 <= i < j < |f| ==> f[i] < f[j]
  {
    if pairs == [] then []
    else
      var rest := PairRemovedIndex(pairs[..|pairs| - 1], p);
      rest + (if pairs[|pairs| - 1] == p then [] else [|pairs| - 1])
  }

  /** Removing a pair from distinct pairs leaves distinct pairs. */
  lemma PairRemovedDistinct(pairs: seq<ToolTag>, p: ToolTag)
    requires forall i, j :: 0 <= i < j < |pairs| ==> pairs[i] != pairs[j]
    ensures forall i, j :: 0 <= i < j < |PairRemoved(pairs, p)| ==> PairRemoved(pairs, p)[i] != PairRemoved(pairs, p)[j]
  {
    var r := PairRemoved(pairs, p);
    var f := PairRemovedIndex(pairs, p);
    forall i, j | 0 <= i < j < |r| ensures r[i] != r[j] {
      assert r[i] == pairs[f[i]] && r[j] == pairs[f[j]];
    }
  }

  // ---------------------------------------------------------------- createTool

  /** What `createTool` receives; `None` is `undefined`. */
  datatype NewTool = NewTool(
    name: string, description: Option<string>, logo: Option<string>, url: Option<string>,
    categoryLegacyId: int, isFeatured: Option<int>, isNew: Option<int>, tags: Option<seq<string>>)

  /** What `createTool` returns. */
  datatype CreatedTool = CreatedTool(id: nat, legacyId: int)

  /** `value || null` for an optional text. */
  function OrNull(v: Option<string>): (r: Option<string>)
    ensures r.Some? <==> v.Some? && v.value != ""
    ensures r.Some? ==> r == v
  {
    if v.Some? && v.value != "" then v else None
  }

  /** `value || 0` for an optional number. */
  function OrZero(v: Option<int>): (r: int)
    ensures r == (if v.Some? then v.value else 0)
  {
    if v.Some? && v.value != 0 then v.value else 0
  }

  /** The first non-deleted category in rows `lo..` with that legacy id. */
  function FindCategoryFrom(s: Snapshot, legacyId: int, lo: nat): (r: Option<nat>)
    ensures r.Some? ==> lo < r.value && IsActiveCategory(s, r.value) && CategoryOf(s, r.value).legacyId == legacyId
    ensures r.None? ==> forall i :: lo <= i < |s.categories| ==> s.categories[i].isDeleted || s.categories[i].legacyId != legacyId
    decreases |s.categories| - lo
  {
    if lo >= |s.categories| then None
    else if !s.categories[lo].isDeleted && s.categories[lo].legacyId == legacyId then Some(lo + 1)
    else FindCategoryFrom(s, legacyId, lo + 1)
  }

  /** `SELECT id FROM categories WHERE legacy_id = ? AND is_deleted = 0` */
  function FindActiveCategory(s: Snapshot, legacyId: int): (r: Option<nat>)
    ensures r.Some? ==> IsActiveCategory(s, r.value) && CategoryOf(s, r.value).legacyId == legacyId
    ensures r.None? <==> forall id :: IsActiveCategory(s, id) ==> CategoryOf(s, id).legacyId != legacyId
  {
    FindCategoryFrom(s, legacyId, 0)
  }

  /** `MAX(legacy_id)` over every tool row, deleted ones included; `None` is NULL. */
  function MaxLegacyId(tools: seq<Tool>): (r: Option<int>)
    ensures r.None? <==> tools == []
    ensures r.Some? ==> forall i :: 0 <= i < |tools| ==> tools[i].legacyId <= r.value
    ensures r.Some? ==> exists i :: 0 <= i < |tools| && tools[i].legacyId == r.value
  {
    if tools == [] then None
    else
      var rest := MaxLegacyId(tools[..|tools| - 1]);
      var last := tools[|tools| - 1].legacyId;
      if rest.Some? && rest.value >= last then
        assert forall i :: 0 <= i < |tools| - 1 ==> tools[i] == tools[..|tools| - 1][i];
        rest
      else
        assert forall i :: 0 <= i < |tools| - 1 ==> tools[i] == tools[..|tools| - 1][i];
        Some(last)
  }

  /** `(MAX(legacy_id) || 0) + 1` */
  function NextLegacyId(tools: seq<Tool>): int {
    var m := MaxLegacyId(tools);
    (if m.Some? && m.value != 0 then m.value else 0) + 1
  }

  /** The new legacy id exceeds every legacy id ever assigned, deleted tools
      included, so it is never reused; it is 1 for an empty table. */
  lemma NextLegacyIdFresh(tools: seq<Tool>)
    ensures forall i :: 0 <= i < |tools| ==> tools[i].legacyId < NextLegacyId(tools)
    ensures tools == [] ==> NextLegacyId(tools) == 1
    ensures tools != [] ==> NextLegacyId(tools) == (if MaxLegacyId(tools).value == 0 then 1 else MaxLegacyId(tools).value + 1)
  {
  }

  /** The inserted tool row: defaults for the missing fields, `added_date` from the clock. */
  function NewToolRow(input: NewTool, legacyId: int, categoryId: nat, now: string): Tool {
    Tool(legacyId, input.name, OrNull(input.description), OrNull(input.logo), OrNull(input.url),
         Some(categoryId), OrZero(input.isFeatured), OrZero(input.isNew), 0, Some(now), false)
  }

  /** The tags added one after another, as the loop over `data.tags` does. */
  function TagsAttached(s: Snapshot, toolId: nat, names: seq<string>): (r: Snapshot)
    ensures r.tools == s.tools && r.categories == s.categories
  {
    if names == [] then s else TagAttached(TagsAttached(s, toolId, names[..|names| - 1]), toolId, names[|names| - 1])
  }

  /** `createTool`, one transaction. `now` is `datetime('now')`. */
  function ToolCreated(s: Snapshot, input: NewTool, now: string): Result<(Snapshot, CreatedTool), JsError> {
    match FindActiveCategory(s, input.categoryLegacyId)
    case None => Err(PlainError("分类不存在: " + ShowInt(input.categoryLegacyId)))
    case Some(categoryId) =>
      var toolId := |s.tools| + 1;
      var names := if input.tags.Some? then input.tags.value else [];
      Ok((TagsAttached(ToolInserted(s, input, categoryId, now), toolId, names), CreatedTool(toolId, NextLegacyId(s.tools))))
  }

  /** The store right after `createTool`'s insert, before its tags. */
  function ToolInserted(s: Snapshot, input: NewTool, categoryId: nat, now: string): Snapshot {
    s.(tools := s.tools + [NewToolRow(input, NextLegacyId(s.tools), categoryId, now)])
  }

  /** The insert keeps the schema's constraints: the legacy id is fresh and the category exists. */
  lemma ToolInsertedWellFormed(s: Snapshot, input: NewTool, categoryId: nat, now: string)
    requires WellFormed(s) && HasCategory(s, categoryId)
    ensures WellFormed(ToolInserted(s, input, categoryId, now))
  {
    var s1 := ToolInserted(s, input, categoryId, now);
    NextLegacyIdFresh(s.tools);
    forall i, j | 0 <= i < j < |s1.tools| ensures s1.tools[i].legacyId != s1.tools[j].legacyId {
      assert s1.tools[i] == s.tools[i];
      if j < |s.tools| {
        assert s1.tools[j] == s.tools[j];
      }
    }
    forall i | 0 <= i < |s1.tools| && s1.tools[i].categoryId.Some? ensures HasCategory(s1, s1.tools[i].categoryId.value) {
      if i < |s.tools| {
        assert s1.tools[i] == s.tools[i];
      }
    }
  }

  lemma {:induction false} TagsAttachedWellFormed(s: Snapshot, toolId: nat, names: seq<string>)
    requires WellFormed(s) && HasTool(s, toolId)
    ensures WellFormed(TagsAttached(s, toolId, names))
  {
    if names != [] {
      TagsAttachedWellFormed(s, toolId, names[..|names| - 1]);
      TagAttachedWellFormed(TagsAttached(s, toolId, names[..|names| - 1]), toolId, names[|names| - 1]);
    }
  }

  /** Tag names pairwise different under NOCASE. */
  predicate DistinctNoCase(names: seq<string>) {
    forall i, j :: 0 <= i < j < |names| ==> !SameNoCase(names[i], names[j])
  }

  /** Tag `tagId` exists and is named, under NOCASE, like one of `names`. */
  predicate NamedByOne(s: Snapshot, tagId: nat, names: seq<string>) {
    HasTag(s, tagId) && exists j :: 0 <= j < |names| && SameNoCase(s.tags[tagId - 1].name, names[j])
  }

  /** Tags appended after every tag the pairs use change no tool's tag names. */
  lemma {:induction false} TagNamesTagsGrow(tags: seq<Tag>, more: seq<Tag>, pairs: seq<ToolTag>, x: int)
    requires forall k :: 0 <= k < |pairs| ==> pairs[k].tagId <= |tags|
    ensures TagNames(tags + more, pairs, x) == TagNames(tags, pairs, x)
  {
    if pairs != [] {
      TagNamesTagsGrow(tags, more, pairs[..|pairs| - 1], x);
      var p := pairs[|pairs| - 1];
      if 1 <= p.tagId <= |tags| {
        assert (tags + more)[p.tagId - 1] == tags[p.tagId - 1];
      }
    }
  }

  /** A pair of another tool changes no tool's tag names but its own. */
  lemma TagNamesAppendOther(tags: seq<Tag>, pairs: seq<ToolTag>, p: ToolTag, x: int)
    requires p.toolId != x
    ensures TagNames(tags, pairs + [p], x) == TagNames(tags, pairs, x)
  {
    assert (pairs + [p])[..|pairs|] == pairs;
  }

  /** One attachment appends at most one tag and keeps every pair. */
  lemma TagAttachedAppends(s: Snapshot, toolId: nat, name: string)
    ensures var r := TagAttached(s, toolId, name);
      (r.tags == s.tags || r.tags == s.tags + [Tag(name)]) && (forall q :: q in s.toolTags ==> q in r.toolTags)
  {
  }

  /** The tag one attachment uses: named like `name`, and its pair is the only new one. */
  lemma TagAttachedPair(s: Snapshot, toolId: nat, name: string) returns (tagId: nat)
    ensures var r := TagAttached(s, toolId, name);
      HasTag(r, tagId) && SameNoCase(r.tags[tagId - 1].name, name)
      && r.toolTags == PairInserted(s.toolTags, ToolTag(toolId, tagId))
      && forall q :: q in r.toolTags <==> q in s.toolTags || q == ToolTag(toolId, tagId)
  {
    tagId := TagFor(s, name).1;
  }

  /** Attaching tags only appends tags and pairs: old tags keep their rows and
      every old pair stays. */
  lemma {:induction false} TagsAttachedGrows(s: Snapshot, toolId: nat, names: seq<string>)
    ensures var r := TagsAttached(s, toolId, names);
      |s.tags| <= |r.tags| && r.tags[..|s.tags|] == s.tags
      && (forall q :: q in s.toolTags ==> q in r.toolTags)
  {
    if names != [] {
      var init := names[..|names| - 1];
      var r0 := TagsAttached(s, toolId, init);
      TagsAttachedGrows(s, toolId, init);
      TagAttachedAppends(r0, toolId, names[|names| - 1]);
      var r := TagsAttached(s, toolId, names);
      assert r.tags[..|r0.tags|] == r0.tags;
      assert r.tags[..|s.tags|] == r0.tags[..|s.tags|];
    }
  }

  /** Every requested name ends up attached to the tool through a tag named
      like it under NOCASE. */
  lemma {:induction false} TagsAttachedCovers(s: Snapshot, toolId: nat, names: seq<string>)
    ensures var r := TagsAttached(s, toolId, names);
      forall k :: 0 <= k < |names| ==>
        exists tagId :: HasTag(r, tagId) && SameNoCase(r.tags[tagId - 1].name, names[k]) && ToolTag(toolId, tagId) in r.toolTags
  {
    if names != [] {
      var init := names[..|names| - 1];
      var last := names[|names| - 1];
      var r0 := TagsAttached(s, toolId, init);
      var r := TagsAttached(s, toolId, names);
      TagsAttachedCovers(s, toolId, init);
      TagAttachedAppends(r0, toolId, last);
      var lastId := TagAttachedPair(r0, toolId, last);
      CoversStep(r0, r, toolId, names, init, lastId);
    }
  }

  /** The step of `TagsAttachedCovers`, on the two stores alone. */
  lemma CoversStep(r0: Snapshot, r: Snapshot, toolId: nat, names: seq<string>, init: seq<string>, lastId: nat)
    requires names != [] && init == names[..|names| - 1]
    requires r.tags == r0.tags || r.tags == r0.tags + [Tag(names[|names| - 1])]
    requires forall q :: q in r0.toolTags ==> q in r.toolTags
    requires HasTag(r, lastId) && SameNoCase(r.tags[lastId - 1].name, names[|names| - 1]) && ToolTag(toolId, lastId) in r.toolTags
    requires forall k :: 0 <= k < |init| ==>
      exists tagId :: HasTag(r0, tagId) && SameNoCase(r0.tags[tagId - 1].name, init[k]) && ToolTag(toolId, tagId) in r0.toolTags
    ensures forall k :: 0 <= k < |names| ==>
      exists tagId :: HasTag(r, tagId) && SameNoCase(r.tags[tagId - 1].name, names[k]) && ToolTag(toolId, tagId) in r.toolTags
  {
    forall k | 0 <= k < |names|
      ensures exists tagId :: HasTag(r, tagId) && SameNoCase(r.tags[tagId - 1].name, names[k]) && ToolTag(toolId, tagId) in r.toolTags
    {
      if k < |init| {
        assert init[k] == names[k];
        var tagId :| HasTag(r0, tagId) && SameNoCase(r0.tags[tagId - 1].name, init[k]) && ToolTag(toolId, tagId) in r0.toolTags;
        assert r.tags[tagId - 1] == r0.tags[tagId - 1];
        assert HasTag(r, tagId) && SameNoCase(r.tags[tagId - 1].name, names[k]) && ToolTag(toolId, tagId) in r.toolTags;
      } else {
        assert HasTag(r, lastId) && SameNoCase(r.tags[lastId - 1].name, names[k]) && ToolTag(toolId, lastId) in r.toolTags;
      }
    }
  }

  /** Every pair after the attachment is an old pair or a pair of the tool with
      a tag named like one of the requested names. */
  lemma {:induction false} TagsAttachedOnly(s: Snapshot, toolId: nat, names: seq<string>)
    ensures var r := TagsAttached(s, toolId, names);
      forall q :: q in r.toolTags ==> q in s.toolTags || (q.toolId == toolId && NamedByOne(r, q.tagId, names))
  {
    if names != [] {
      var init := names[..|names| - 1];
      var last := names[|names| - 1];
      var r0 := TagsAttached(s, toolId, init);
      var r := TagsAttached(s, toolId, names);
      TagsAttachedOnly(s, toolId, init);
      TagAttachedAppends(r0, toolId, last);
      var lastId := TagAttachedPair(r0, toolId, last);
      OnlyStep(s, r0, r, toolId, names, init, lastId);
    }
  }

  /** The step of `TagsAttachedOnly`, on the stores alone. */
  lemma OnlyStep(s: Snapshot, r0: Snapshot, r: Snapshot, toolId: nat, names: seq<string>, init: seq<string>, lastId: nat)
    requires names != [] && init == names[..|names| - 1]
    requires r.tags == r0.tags || r.tags == r0.tags + [Tag(names[|names| - 1])]
    requires HasTag(r, lastId) && SameNoCase(r.tags[lastId - 1].name, names[|names| - 1])
    requires forall q :: q in r.toolTags <==> q in r0.toolTags || q == ToolTag(toolId, lastId)
    requires forall q :: q in r0.toolTags ==> q in s.toolTags || (q.toolId == toolId && NamedByOne(r0, q.tagId, init))
    ensures forall q :: q in r.toolTags ==> q in s.toolTags || (q.toolId == toolId && NamedByOne(r, q.tagId, names))
  {
    forall q | q in r.toolTags && q !in s.toolTags ensures q.toolId == toolId && NamedByOne(r, q.tagId, names) {
      if q in r0.toolTags {
        var j :| 0 <= j < |init| && SameNoCase(r0.tags[q.tagId - 1].name, init[j]);
        assert r.tags[q.tagId - 1] == r0.tags[q.tagId - 1];
        assert init[j] == names[j];
      } else {
        assert q == ToolTag(toolId, lastId);
        assert SameNoCase(r.tags[q.tagId - 1].name, names[|names| - 1]);
      }
    }
  }

  /** `createTool`'s tag loop: it keeps the schema's constraints, keeps every
      old tag and pair, attaches every requested name through a tag named
      like it under NOCASE, and adds no pair but those. */
  lemma TagsAttachedSpec(s: Snapshot, toolId: nat, names: seq<string>)
    requires WellFormed(s) && HasTool(s, toolId)
    ensures var r := TagsAttached(s, toolId, names);
      WellFormed(r) && |s.tags| <= |r.tags| && r.tags[..|s.tags|] == s.tags
      && (forall q :: q in s.toolTags ==> q in r.toolTags)
      && (forall k :: 0 <= k < |names| ==>
            exists tagId :: HasTag(r, tagId) && SameNoCase(r.tags[tagId - 1].name, names[k]) && ToolTag(toolId, tagId) in r.toolTags)
      && (forall q :: q in r.toolTags ==> q in s.toolTags || (q.toolId == toolId && NamedByOne(r, q.tagId, names)))
  {
    TagsAttachedWellFormed(s, toolId, names);
    TagsAttachedGrows(s, toolId, names);
    TagsAttachedCovers(s, toolId, names);
    TagsAttachedOnly(s, toolId, names);
  }

  /** With names that differ under NOCASE, a tool that had no tags ends up
      with exactly one tag per name, in the order given, each named like its
      name under NOCASE. */
  lemma {:induction false} TagsAttachedNames(s: Snapshot, toolId: nat, names: seq<string>)
    requires WellFormed(s) && HasTool(s, toolId) && DistinctNoCase(names)
    requires forall q :: q in s.toolTags ==> q.toolId != toolId
    ensures var r := TagsAttached(s, toolId, names);
      |TagNamesOf(r, toolId)| == |names|
      && forall k :: 0 <= k < |names| ==> SameNoCase(TagNamesOf(r, toolId)[k], names[k])
  {
    if names == [] {
      TagNamesNone(s.tags, s.toolTags, toolId);
    } else {
      var init := names[..|names| - 1];
      var last := names[|names| - 1];
      var r0 := TagsAttached(s, toolId, init);
      var r := TagsAttached(s, toolId, names);
      assert DistinctNoCase(init) by {
        forall i, j | 0 <= i < j < |init| ensures !SameNoCase(init[i], init[j]) {
          assert init[i] == names[i] && init[j] == names[j];
        }
      }
      TagsAttachedNames(s, toolId, init);
      TagsAttachedWellFormed(s, toolId, init);
      TagsAttachedOnly(s, toolId, init);
      TagAttachedAppends(r0, toolId, last);
      var lastId := TagAttachedPair(r0, toolId, last);
      NamesStep(r0, r, toolId, names, init, lastId);
    }
  }

  /** The step of `TagsAttachedNames`, on the two stores alone: the new pair
      is fresh, so it adds one name at the end. */
  lemma NamesStep(r0: Snapshot, r: Snapshot, toolId: nat, names: seq<string>, init: seq<string>, lastId: nat)
    requires names != [] && init == names[..|names| - 1] && DistinctNoCase(names)
    requires forall k :: 0 <= k < |r0.toolTags| ==> 1 <= r0.toolTags[k].tagId <= |r0.tags|
    requires r.tags == r0.tags || r.tags == r0.tags + [Tag(names[|names| - 1])]
    requires HasTag(r, lastId) && SameNoCase(r.tags[lastId - 1].name, names[|names| - 1])
    requires r.toolTags == PairInserted(r0.toolTags, ToolTag(toolId, lastId))
    requires forall q :: q in r0.toolTags && q.toolId == toolId ==> NamedByOne(r0, q.tagId, init)
    requires |TagNamesOf(r0, toolId)| == |init|
    requires forall k :: 0 <= k < |init| ==> SameNoCase(TagNamesOf(r0, toolId)[k], init[k])
    ensures |TagNamesOf(r, toolId)| == |names|
    ensures forall k :: 0 <= k < |names| ==> SameNoCase(TagNamesOf(r, toolId)[k], names[k])
  {
    var p := ToolTag(toolId, lastId);
    var last := names[|names| - 1];
    assert p !in r0.toolTags;
    assert r.toolTags == r0.toolTags + [p];
    assert r.toolTags[..|r0.toolTags|] == r0.toolTags;
    var before := TagNames(r.tags, r0.toolTags, toolId);
    assert TagNamesOf(r, toolId) == before + [r.tags[lastId - 1].name];
    if r.tags != r0.tags {
      TagNamesTagsGrow(r0.tags, [Tag(last)], r0.toolTags, toolId);
    }
    assert before == TagNamesOf(r0, toolId);
    forall k | 0 <= k < |names| ensures SameNoCase(TagNamesOf(r, toolId)[k], names[k]) {
      if k < |init| {
        assert init[k] == names[k];
        assert TagNamesOf(r, toolId)[k] == TagNamesOf(r0, toolId)[k];
      }
    }
  }

  /** A tool without pairs has no tag names. */
  lemma {:induction false} TagNamesNone(tags: seq<Tag>, pairs: seq<ToolTag>, toolId: int)
    requires forall q :: q in pairs ==> q.toolId != toolId
    ensures TagNames(tags, pairs, toolId) == []
  {
    if pairs != [] {
      assert pairs[|pairs| - 1] in pairs;
      TagNamesNone(tags, pairs[..|pairs| - 1], toolId);
    }
  }

  /** No pair of a well-formed store names a tool past the last row. */
  lemma NoPairsPastEnd(s: Snapshot, toolId: int)
    requires WellFormed(s) && toolId > |s.tools|
    ensures forall q :: q in s.toolTags ==> q.toolId != toolId
  {
    forall q | q in s.toolTags ensures q.toolId != toolId {
      var k :| 0 <= k < |s.toolTags| && s.toolTags[k] == q;
    }
  }

  /** In a well-formed store, a pair of `toolId` with a tag named like one of
      `names` exists once each name has some pair of `toolId`: tag names differ
      under NOCASE, so both tags are the same row. */
  lemma PairsOfNamed(r: Snapshot, toolId: nat, names: seq<string>)
    requires WellFormed(r)
    requires forall k :: 0 <= k < |names| ==>
      exists tagId :: HasTag(r, tagId) && SameNoCase(r.tags[tagId - 1].name, names[k]) && ToolTag(toolId, tagId) in r.toolTags
    ensures forall q: ToolTag :: q.toolId == toolId && NamedByOne(r, q.tagId, names) ==> q in r.toolTags
  {
    forall q: ToolTag | q.toolId == toolId && NamedByOne(r, q.tagId, names) ensures q in r.toolTags {
      var j :| 0 <= j < |names| && SameNoCase(r.tags[q.tagId - 1].name, names[j]);
      var tagId :| HasTag(r, tagId) && SameNoCase(r.tags[tagId - 1].name, names[j]) && ToolTag(toolId, tagId) in r.toolTags;
      assert SameNoCase(r.tags[q.tagId - 1].name, r.tags[tagId - 1].name);
      assert q.tagId == tagId;
    }
  }

  /** The tags of `toolId` in `r`, attached to it in a store with `tags` and
      `pairs`, are the ones asked for: the old tags and pairs stay; the tool's new pairs are exactly those
      with a tag named, under NOCASE, like one of the names, and every name
      has one. With names that differ under NOCASE, the tool has one tag per
      name, in order. */
  ghost predicate TagsAsRequested(tags: seq<Tag>, pairs: seq<ToolTag>, r: Snapshot, toolId: nat, names: seq<string>) {
    |tags| <= |r.tags| && r.tags[..|tags|] == tags
    && (forall q :: q in r.toolTags <==> q in pairs || (q.toolId == toolId && NamedByOne(r, q.tagId, names)))
    && (forall k :: 0 <= k < |names| ==>
          exists tagId :: HasTag(r, tagId) && SameNoCase(r.tags[tagId - 1].name, names[k]) && ToolTag(toolId, tagId) in r.toolTags)
    && (DistinctNoCase(names) ==>
          |TagNamesOf(r, toolId)| == |names|
          && forall k :: 0 <= k < |names| ==> SameNoCase(TagNamesOf(r, toolId)[k], names[k]))
  }

  /** The tags attached to a tool that had none are the ones asked for. */
  lemma TagsAttachedToNew(s: Snapshot, toolId: nat, names: seq<string>)
    requires WellFormed(s) && HasTool(s, toolId)
    requires forall q :: q in s.toolTags ==> q.toolId != toolId
    ensures TagsAsRequested(s.tags, s.toolTags, TagsAttached(s, toolId, names), toolId, names)
  {
    var r := TagsAttached(s, toolId, names);
    TagsAttachedSpec(s, toolId, names);
    PairsOfNamed(r, toolId, names);
    if DistinctNoCase(names) {
      TagsAttachedNames(s, toolId, names);
    }
  }

  /** What `createTool` does to the tags: the new tool had no pairs, and
      afterwards it has exactly the tags asked for. */
  lemma ToolCreatedTags(s: Snapshot, input: NewTool, now: string)
    requires WellFormed(s)
    ensures ToolCreated(s, input, now).Ok? ==>
      var (r, created) := ToolCreated(s, input, now).value;
      (forall q :: q in s.toolTags ==> q.toolId != created.id)
      && TagsAsRequested(s.tags, s.toolTags, r, created.id, if input.tags.Some? then input.tags.value else [])
  {
    var found := FindActiveCategory(s, input.categoryLegacyId);
    if found.Some? {
      var names := if input.tags.Some? then input.tags.value else [];
      var r := TagsAttached(ToolInserted(s, input, found.value, now), |s.tools| + 1, names);
      assert ToolCreated(s, input, now) == Ok((r, CreatedTool(|s.tools| + 1, NextLegacyId(s.tools))));
      InsertedTagsAsRequested(s, input, found.value, now, names);
    }
  }

  /** The tags attached right after the insert of `createTool`. */
  lemma InsertedTagsAsRequested(s: Snapshot, input: NewTool, categoryId: nat, now: string, names: seq<string>)
    requires WellFormed(s) && HasCategory(s, categoryId)
    ensures forall q :: q in s.toolTags ==> q.toolId != |s.tools| + 1
    ensures TagsAsRequested(s.tags, s.toolTags, TagsAttached(ToolInserted(s, input, categoryId, now), |s.tools| + 1, names), |s.tools| + 1, names)
  {
    var s1 := ToolInserted(s, input, categoryId, now);
    ToolInsertedWellFormed(s, input, categoryId, now);
    NoPairsPastEnd(s, |s.tools| + 1);
    TagsAttachedToNew(s1, |s.tools| + 1, names);
    assert s1.tags == s.tags && s1.toolTags == s.toolTags;
  }

  /** Creation fails, changing nothing, exactly when no non-deleted category has
      the legacy id. Otherwise it appends one tool with a fresh legacy id, the
      defaults for missing fields and the chosen category, and keeps the schema's constraints. */
  lemma ToolCreatedSpec(s: Snapshot, input: NewTool, now: string)
    requires WellFormed(s)
    ensures ToolCreated(s, input, now).Err? <==> forall id :: IsActiveCategory(s, id) ==> CategoryOf(s, id).legacyId != input.categoryLegacyId
    ensures match ToolCreated(s, input, now)
      case Err(e) => e.message == Some("分类不存在: " + ShowInt(input.categoryLegacyId))
      case Ok((r, created)) =>
        created.id == |s.tools| + 1 && |r.tools| == |s.tools| + 1 && r.tools[..|s.tools|] == s.tools
        && r.categories == s.categories && WellFormed(r)
        && (var t := ToolOf(r, created.id);
            t.legacyId == created.legacyId && t.name == input.name && !t.isDeleted && t.viewCount == 0
            && t.description == OrNull(input.description) && t.logo == OrNull(input.logo) && t.url == OrNull(input.url)
            && t.isFeatured == OrZero(input.isFeatured) && t.isNew == OrZero(input.isNew)
            && t.categoryId.Some? && IsActiveCategory(s, t.categoryId.value)
            && CategoryOf(s, t.categoryId.value).legacyId == input.categoryLegacyId
            && (forall i :: 0 <= i < |s.tools| ==> s.tools[i].legacyId < t.legacyId))
  {
    match FindActiveCategory(s, input.categoryLegacyId)
    case None =>
    case Some(categoryId) =>
      NextLegacyIdFresh(s.tools);
      ToolCreatedRow(s, input, now, categoryId);
      var r := ToolCreated(s, input, now).value.0;
      assert r.tools[..|s.tools|] == s.tools;
  }

  /** A creation whose category was found appends the new row after the old
      ones and keeps the schema's constraints. */
  lemma ToolCreatedRow(s: Snapshot, input: NewTool, now: string, categoryId: nat)
    requires WellFormed(s) && HasCategory(s, categoryId)
    ensures var r := TagsAttached(ToolInserted(s, input, categoryId, now), |s.tools| + 1, if input.tags.Some? then input.tags.value else []);
      r.tools == s.tools + [NewToolRow(input, NextLegacyId(s.tools), categoryId, now)] && WellFormed(r)
  {
    var s1 := ToolInserted(s, input, categoryId, now);
    ToolInsertedWellFormed(s, input, categoryId, now);
    var names := if input.tags.Some? then input.tags.value else [];
    TagsAttachedWellFormed(s1, |s.tools| + 1, names);
  }

  // ---------------------------------------------------------------- invariants of the simple writes

  lemma ViewCountIncrementedWellFormed(s: Snapshot, id: int)
    requires WellFormed(s)
    ensures WellFormed(ViewCountIncremented(s, id))
  {
    var r := ViewCountIncremented(s, id);
    if IsActiveTool(s, id) {
      forall i, j | 0 <= i < j < |r.tools| ensures r.tools[i].legacyId != r.tools[j].legacyId {
        assert r.tools[i].legacyId == s.tools[i].legacyId && r.tools[j].legacyId == s.tools[j].legacyId;
      }
      forall i | 0 <= i < |r.tools| && r.tools[i].categoryId.Some? ensures HasCategory(r, r.tools[i].categoryId.value) {
        assert r.tools[i].categoryId == s.tools[i].categoryId;
      }
    }
  }

  lemma SoftDeletedWellFormed(s: Snapshot, id: int)
    requires WellFormed(s)
    ensures WellFormed(SoftDeleted(s, id))
  {
    var r := SoftDeleted(s, id);
    if IsActiveTool(s, id) {
      forall i, j | 0 <= i < j < |r.tools| ensures r.tools[i].legacyId != r.tools[j].legacyId {
        assert r.tools[i].legacyId == s.tools[i].legacyId && r.tools[j].legacyId == s.tools[j].legacyId;
      }
      forall i | 0 <= i < |r.tools| && r.tools[i].categoryId.Some? ensures HasCategory(r, r.tools[i].categoryId.value) {
        assert r.tools[i].categoryId == s.tools[i].categoryId;
      }
    }
  }

  lemma ToolUpdatedWellFormed(s: Snapshot, id: int, p: ToolPatch)
    requires WellFormed(s)
    ensures ToolUpdated(s, id, p).Ok? ==> WellFormed(ToolUpdated(s, id, p).value)
  {
    if ToolUpdated(s, id, p).Ok? && !IsEmptyPatch(p) && IsActiveTool(s, id) {
      var r := ToolUpdated(s, id, p).value;
      forall i, j | 0 <= i < j < |r.tools| ensures r.tools[i].legacyId != r.tools[j].legacyId {
        assert r.tools[i].legacyId == s.tools[i].legacyId && r.tools[j].legacyId == s.tools[j].legacyId;
      }
      forall i | 0 <= i < |r.tools| && r.tools[i].categoryId.Some? ensures HasCategory(r, r.tools[i].categoryId.value) {
        if i != id - 1 {
          assert r.tools[i] == s.tools[i];
        }
      }
    }
  }

  // ---------------------------------------------------------------- extractLegacyId

  /** The longest suffix of `s` made of digits. */
  function DigitSuffix(s: string): (r: string)
    ensures |r| <= |s| && r == s[|s| - |r|..] && AllDigits(r)
    ensures |r| < |s| ==> !IsDigit(s[|s| - |r| - 1])
  {
    if s != [] && IsDigit(s[|s| - 1]) then DigitSuffix(s[..|s| - 1]) + [s[|s| - 1]] else []
  }

  /** The pattern `-(\d+)$` matches with its `-` at position `i`. */
  predicate DashDigitsAt(s: string, i: int) {
    0 <= i < |s| - 1 && s[i] == '-' && AllDigits(s[i + 1..])
  }

  /** `extractLegacyId`: the value of the digit run after a final `-`
      ("tool-001" is 1); a string not ending in `-<digits>` throws. */
  function ExtractLegacyId(s: string): (r: Result<nat, JsError>)
    ensures r.Err? ==> r.error == PlainError("无法从 ID 提取数字: " + s)
  {
    var d := DigitSuffix(s);
    if d != [] && |d| < |s| && s[|s| - |d| - 1] == '-' then Ok(DecimalValue(d))
    else Err(PlainError("无法从 ID 提取数字: " + s))
  }

  /** The pattern can match only where the final digit run begins: the run stops at a `-`. */
  lemma DashDigitsAtSuffix(s: string, i: int)
    requires DashDigitsAt(s, i)
    ensures i == |s| - |DigitSuffix(s)| - 1
  {
  }

  /** The parser succeeds exactly when the pattern matches, and then yields
      `parseInt` of the matched digits. */
  lemma ExtractLegacyIdSpec(s: string)
    ensures ExtractLegacyId(s).Ok? <==> exists i :: DashDigitsAt(s, i)
    ensures forall i :: DashDigitsAt(s, i) ==> ExtractLegacyId(s) == Ok(DecimalValue(s[i + 1..]))
  {
    if ExtractLegacyId(s).Ok? {
      ExtractedMatches(s);
    }
    forall i | DashDigitsAt(s, i) ensures ExtractLegacyId(s) == Ok(DecimalValue(s[i + 1..])) {
      MatchExtracted(s, i);
    }
  }

  lemma ExtractedMatches(s: string)
    requires ExtractLegacyId(s).Ok?
    ensures DashDigitsAt(s, |s| - |DigitSuffix(s)| - 1)
  {
  }

  lemma MatchExtracted(s: string, i: int)
    requires DashDigitsAt(s, i)
    ensures ExtractLegacyId(s) == Ok(DecimalValue(s[i + 1..]))
  {
    var d := DigitSuffix(s);
    DashDigitsAtSuffix(s, i);
    assert d == s[i + 1..];
  }

  /** The matched digits read by `parseInt(…, 10)` give the same value. */
  lemma ParseIntOfDigits(z: string)
    requires z != [] && AllDigits(z)
    ensures ParseInt(z) == Some(DecimalValue(z))
  {
    assert !IsSpace(z[0]) && z[0] != '-' && z[0] != '+';
    DigitPrefixOfDigits(z);
  }

  /** Leading zeros do not change the extracted number: "tool-" + "00" + "1" gives 1. */
  lemma {:induction false} DecimalValueZeros(zeros: string, ds: string)
    requires forall k :: 0 <= k < |zeros| ==> zeros[k] == '0'
    requires AllDigits(ds)
    ensures AllDigits(zeros + ds)
    ensures DecimalValue(zeros + ds) == DecimalValue(ds)
    decreases |zeros|
  {
    if zeros == [] {
      assert zeros + ds == ds;
    } else {
      var rest := zeros[1..] + ds;
      assert forall k :: 0 <= k < |zeros[1..]| ==> zeros[1..][k] == zeros[k + 1];
      DecimalValueZeros(zeros[1..], ds);
      assert zeros + ds == "0" + rest;
      assert AllDigits("0" + rest) by {
        forall k | 0 <= k < |"0" + rest| ensures IsDigit(("0" + rest)[k]) {
          if k > 0 { assert ("0" + rest)[k] == rest[k - 1]; }
        }
      }
      DecimalValueLeadingZero(rest);
    }
  }

  /** The id strings the catalogue writes, `<prefix>-<zero padding><n>`, give back `n`. */
  lemma ExtractLegacyIdRoundTrip(prefix: string, zeros: string, n: nat)
    requires forall k :: 0 <= k < |zeros| ==> zeros[k] == '0'
    ensures ExtractLegacyId(prefix + "-" + zeros + ShowNat(n)) == Ok(n)
  {
    var digits := zeros + ShowNat(n);
    var s := prefix + "-" + zeros + ShowNat(n);
    DecimalValueZeros(zeros, ShowNat(n));
    DecimalValueShowNat(n);
    assert s == prefix + "-" + digits;
    assert s[|prefix| + 1..] == digits;
    assert DashDigitsAt(s, |prefix|);
    ExtractLegacyIdSpec(s);
  }

  // ---------------------------------------------------------------- searchTools

  /** What the FTS statement does for a query: the matching rowids in rank
      order, or an error it raises. Matching and ranking are the engine's. */
  datatype FtsOutcome = Hits(rowids: seq<nat>) | EngineError(error: JsError)

  /** The hits joined with the listing view: only listed tools remain. */
  function ListedHits(s: Snapshot, rowids: seq<nat>): (r: seq<ToolRow>)
    ensures |r| <= |rowids|
    ensures forall i :: 0 <= i < |r| ==> IsListedTool(s, r[i].id) && r[i] == ListedRow(s, r[i].id) && r[i].id in rowids
  {
    if rowids == [] then []
    else
      var rest := ListedHits(s, rowids[..|rowids| - 1]);
      var id := rowids[|rowids| - 1];
      if IsListedTool(s, id) then rest + [ListedRow(s, id)] else rest
  }

  /** The ids of rows, in order. */
  function HitIds(rows: seq<ToolRow>): seq<nat> {
    seq(|rows|, i requires 0 <= i < |rows| => rows[i].id)
  }

  /** The hits are the listed tools among the matched rowids, kept in the
      engine's rank order and as often as the engine returns them, each as the
      listing shows it. */
  lemma ListedHitsSpec(s: Snapshot, rowids: seq<nat>)
    ensures Subsequence(HitIds(ListedHits(s, rowids)), rowids)
    ensures forall id: nat :: multiset(HitIds(ListedHits(s, rowids)))[id] == if IsListedTool(s, id) then multiset(rowids)[id] else 0
    ensures forall id: nat :: id in rowids && IsListedTool(s, id) ==> ListedRow(s, id) in ListedHits(s, rowids)
  {
    var r := ListedHits(s, rowids);
    ListedHitsOrdered(s, rowids);
    forall id: nat ensures multiset(HitIds(r))[id] == if IsListedTool(s, id) then multiset(rowids)[id] else 0 {
      ListedHitsCount(s, rowids, id);
    }
    forall id: nat | id in rowids && IsListedTool(s, id) ensures ListedRow(s, id) in r {
      assert id in multiset(HitIds(r));
      var i :| 0 <= i < |r| && HitIds(r)[i] == id;
      assert r[i] == ListedRow(s, id);
    }
  }

  lemma {:induction false} ListedHitsOrdered(s: Snapshot, rowids: seq<nat>)
    ensures Subsequence(HitIds(ListedHits(s, rowids)), rowids)
  {
    if rowids != [] {
      var init := rowids[..|rowids| - 1];
      var id := rowids[|rowids| - 1];
      var tail := if IsListedTool(s, id) then [id] else [];
      assert rowids == init + [id];
      ListedHitsOrdered(s, init);
      assert HitIds(ListedHits(s, rowids)) == HitIds(ListedHits(s, init)) + tail;
      assert Subsequence(tail, [id]);
      SubsequenceAppend(HitIds(ListedHits(s, init)), init, tail, [id]);
    }
  }

  lemma {:induction false} ListedHitsCount(s: Snapshot, rowids: seq<nat>, x: nat)
    ensures multiset(HitIds(ListedHits(s, rowids)))[x] == if IsListedTool(s, x) then multiset(rowids)[x] else 0
  {
    if rowids != [] {
      var init := rowids[..|rowids| - 1];
      var id := rowids[|rowids| - 1];
      var tail := if IsListedTool(s, id) then [id] else [];
      assert rowids == init + [id];
      ListedHitsCount(s, init, x);
      assert HitIds(ListedHits(s, rowids)) == HitIds(ListedHits(s, init)) + tail;
      FilterCountStep(HitIds(ListedHits(s, rowids)), HitIds(ListedHits(s, init)), rowids, init, id, IsListedTool(s, id), x, IsListedTool(s, x));
    }
  }

  /** `searchTools(query, limit)`: a blank query runs nothing and gives []; an
      engine error mentioning `fts5` gives []; any other error is rethrown.
      A negative `LIMIT` places no limit. */
  function SearchTools(s: Snapshot, query: string, limit: int, engine: FtsOutcome): (r: Result<seq<ToolRow>, JsError>)
    ensures Trim(query) == "" ==> r == Ok([])
    ensures Trim(query) != "" && engine.EngineError? ==>
      (if engine.error.message.Some? && Contains(engine.error.message.value, "fts5") then r == Ok([]) else r == Err(engine.error))
    ensures r.Ok? ==> 0 <= limit ==> |r.value| <= limit
    ensures r.Ok? ==> forall i :: 0 <= i < |r.value| ==> IsListedTool(s, r.value[i].id) && r.value[i] == ListedRow(s, r.value[i].id)
    ensures Trim(query) != "" && engine.Hits? ==>
      r == Ok(if limit < 0 then ListedHits(s, engine.rowids) else Take(ListedHits(s, engine.rowids), limit))
  {
    if query == "" || Trim(query) == "" then Ok([])
    else
      match engine
      case Hits(ids) =>
        var rows := ListedHits(s, ids);
        Ok(if limit < 0 then rows else Take(rows, limit))
      case EngineError(e) =>
        if e.message.Some? && Contains(e.message.value, "fts5") then Ok([]) else Err(e)
  }

  // ---------------------------------------------------------------- the store

  /** The database as the helpers see it: one field per table. */
  class Store {
    var categories: seq<Category>
    var tools: seq<Tool>
    var tags: seq<Tag>
    var toolTags: seq<ToolTag>
    var siteConfig: Option<SiteConfig>
    var keywords: seq<string>

    function State(): Snapshot
      reads this
    {
      Snapshot(categories, tools, tags, toolTags, siteConfig, keywords)
    }

    constructor(s: Snapshot)
      ensures State() == s
    {
      categories := s.categories;
      tools := s.tools;
      tags := s.tags;
      toolTags := s.toolTags;
      siteConfig := s.siteConfig;
      keywords := s.keywords;
    }

    method SetState(s: Snapshot)
      modifies this
      ensures State() == s
    {
      categories := s.categories;
      tools := s.tools;
      tags := s.tags;
      toolTags := s.toolTags;
      siteConfig := s.siteConfig;
      keywords := s.keywords;
    }

    /** `getActiveTools`: the tag groups go into a map, then each selected row
        gets its tag string (or null). The result lists every listed tool once,
        each as its full listing row, highest view count first. */
    method GetActiveTools() returns (rows: seq<ToolRow>)
      ensures |rows| == |ListedIds(State())|
      ensures SortedBy(rows, ByViewCount())
      ensures forall i :: 0 <= i < |rows| ==> IsListedTool(State(), rows[i].id) && rows[i] == ListedRow(State(), rows[i].id)
      ensures forall id :: IsListedTool(State(), id) ==> exists i :: 0 <= i < |rows| && rows[i].id == id
    {
      var s := State();
      var selected := ActiveToolsStatement(s);
      var tagsMap := TagsMapFrom(s, TagGroups(s));
      TagGroupsFillMap(s, tagsMap);
      rows := MergeTags(selected, tagsMap);
      MergedRowsSpec(s, tagsMap, rows);
    }

    /** `incrementViewCount` */
    method IncrementViewCount(id: int)
      modifies this
      ensures State() == ViewCountIncremented(old(State()), id)
    {
      if 1 <= id <= |tools| && !tools[id - 1].isDeleted {
        tools := tools[id - 1 := tools[id - 1].(viewCount := tools[id - 1].viewCount + 1)];
      }
    }

    /** `softDeleteTool` */
    method SoftDeleteTool(id: int)
      modifies this
      ensures State() == SoftDeleted(old(State()), id)
    {
      if 1 <= id <= |tools| && !tools[id - 1].isDeleted {
        tools := tools[id - 1 := tools[id - 1].(isDeleted := true)];
      }
    }

    /** `updateTool`: one `col = ?` and one value per defined field, in the
        fixed column order, then the id. No defined field runs no statement.
        The statement text and its parameters are returned beside the outcome. */
    method UpdateTool(id: int, p: ToolPatch) returns (sql: Option<string>, params: seq<SqlValue>, error: Option<JsError>)
      modifies this
      ensures sql.None? <==> IsEmptyPatch(p)
      ensures sql.Some? ==>
        (sql.value == "UPDATE tools SET " + SetClause(Assignments(p)) + " WHERE id = ? AND is_deleted = 0"
         && params == ParamsOf(Assignments(p)) + [SqlInt(id)])
      ensures match ToolUpdated(old(State()), id, p)
        case Ok(r) => State() == r && error.None?
        case Err(e) => State() == old(State()) && error == Some(e)
    {
      var fields, values := SetList(p);
      AssignmentsSpec(p);
      if |fields| == 0 {
        return None, [], None;
      }
      values := values + [SqlInt(id)];
      sql := Some("UPDATE tools SET " + Join(fields, ", ") + " WHERE id = ? AND is_deleted = 0");
      params := values;
      error := RunUpdate(id, p);
    }

    /** The prepared UPDATE run on a non-empty SET list. */
    method RunUpdate(id: int, p: ToolPatch) returns (error: Option<JsError>)
      requires !IsEmptyPatch(p)
      modifies this
      ensures match ToolUpdated(old(State()), id, p)
        case Ok(r) => State() == r && error.None?
        case Err(e) => State() == old(State()) && error == Some(e)
    {
      error := None;
      if 1 <= id <= |tools| && !tools[id - 1].isDeleted {
        if p.categoryId.Some? && !(1 <= p.categoryId.value <= |categories|) {
          error := Some(ForeignKeyError);
        } else {
          AssignmentsExecutePatch(tools[id - 1], p);
          tools := tools[id - 1 := AssignAll(tools[id - 1], Assignments(p))];
        }
      }
    }

    /** `addTagToTool`, one transaction: find the tag under NOCASE or insert it,
        then `INSERT OR IGNORE` the pair. A missing tool fails the pair's
        foreign key and the transaction undoes the tag insert. */
    method AddTagToTool(toolId: int, tagName: string) returns (error: Option<JsError>)
      modifies this
      ensures match TagAssociated(old(State()), toolId, tagName)
        case Ok(r) => State() == r && error.None?
        case Err(e) => State() == old(State()) && error == Some(e)
    {
      var saved := State();
      var tagId: nat;
      match FindTag(State(), tagName) {
        case Some(id) =>
          tagId := id;
        case None =>
          tags := tags + [Tag(tagName)];
          tagId := |tags|;
      }
      if !(1 <= toolId <= |tools|) {
        SetState(saved);
        return Some(ForeignKeyError);
      }
      toolTags := PairInserted(toolTags, ToolTag(toolId as nat, tagId));
      error := None;
    }

    /** `removeTagFromTool` */
    method RemoveTagFromTool(toolId: int, tagId: int)
      modifies this
      ensures State() == TagDissociated(old(State()), toolId, tagId)
    {
      if toolId >= 0 && tagId >= 0 {
        toolTags := PairRemoved(toolTags, ToolTag(toolId, tagId));
      }
    }

    /** `createTool`, one transaction: resolve the category, take the next
        legacy id, insert the row, then attach each tag in turn. */
    method CreateTool(input: NewTool, now: string) returns (r: Result<CreatedTool, JsError>)
      modifies this
      ensures match ToolCreated(old(State()), input, now)
        case Ok((s, created)) => State() == s && r == Ok(created)
        case Err(e) => State() == old(State()) && r == Err(e)
    {
      var category := FindActiveCategory(State(), input.categoryLegacyId);
      if category.None? {
        return Err(PlainError("分类不存在: " + ShowInt(input.categoryLegacyId)));
      }
      var newLegacyId := NextLegacyId(tools);
      ghost var s0 := State();
      tools := tools + [NewToolRow(input, newLegacyId, category.value, now)];
      var toolId := |tools|;
      assert State() == ToolInserted(s0, input, category.value, now);
      var names := if input.tags.Some? then input.tags.value else [];
      if input.tags.Some? && |input.tags.value| > 0 {
        AttachTags(toolId, names);
      }
      r := Ok(CreatedTool(toolId, newLegacyId));
    }

    /** The tag loop of `createTool`: `addTagToTool` for each name in turn. */
    method AttachTags(toolId: nat, names: seq<string>)
      requires HasTool(State(), toolId)
      modifies this
      ensures State() == TagsAttached(old(State()), toolId, names)
    {
      ghost var s1 := State();
      var i := 0;
      while i < |names|
        invariant 0 <= i <= |names|
        invariant State() == TagsAttached(s1, toolId, names[..i])
        invariant HasTool(State(), toolId)
      {
        assert names[..i + 1][..i] == names[..i];
        var e := AddTagToTool(toolId, names[i]);
        i := i + 1;
      }
      assert names[..i] == names;
    }
  }

  /** Appending one column's slot appends its `col = ?` text and its value. */
  lemma AppendSlot(a: seq<(Column, SqlValue)>, p: ToolPatch, c: Column)
    ensures FieldsOf(a + Slot(p, c)) == FieldsOf(a) + (if Defines(p, c) then [ColumnName(c) + " = ?"] else [])
    ensures ParamsOf(a + Slot(p, c)) == ParamsOf(a) + (if Defines(p, c) then [ValueOf(p, c)] else [])
  {
    if !Defines(p, c) {
      assert a + Slot(p, c) == a;
    }
  }

  /** The SET list is the seven slots one after another. */
  lemma SlotsOfSnoc(p: ToolPatch, cs: seq<Column>, c: Column)
    ensures SlotsOf(p, cs + [c]) == SlotsOf(p, cs) + Slot(p, c)
  {
    var s := cs + [c];
    assert s[..|s| - 1] == cs;
  }

  lemma AssignmentsUnfold(p: ToolPatch)
    ensures Assignments(p) == [] + Slot(p, NameColumn) + Slot(p, DescriptionColumn) + Slot(p, LogoColumn) + Slot(p, UrlColumn)
      + Slot(p, CategoryIdColumn) + Slot(p, IsFeaturedColumn) + Slot(p, IsNewColumn)
  {
    var c0: seq<Column> := [];
    var c1 := c0 + [NameColumn];
    var c2 := c1 + [DescriptionColumn];
    var c3 := c2 + [LogoColumn];
    var c4 := c3 + [UrlColumn];
    var c5 := c4 + [CategoryIdColumn];
    var c6 := c5 + [IsFeaturedColumn];
    var c7 := c6 + [IsNewColumn];
    SlotsOfSnoc(p, c0, NameColumn);
    SlotsOfSnoc(p, c1, DescriptionColumn);
    SlotsOfSnoc(p, c2, LogoColumn);
    SlotsOfSnoc(p, c3, UrlColumn);
    SlotsOfSnoc(p, c4, CategoryIdColumn);
    SlotsOfSnoc(p, c5, IsFeaturedColumn);
    SlotsOfSnoc(p, c6, IsNewColumn);
    assert c7 == AllColumns;
  }

  /** The sorted selection: every listed tool once, without its tags, highest view count first. */
  lemma ActiveToolsStatementSpec(s: Snapshot)
    ensures |ActiveToolsStatement(s)| == |ListedIds(s)|
    ensures SortedBy(ActiveToolsStatement(s), ByViewCount())
    ensures forall i :: 0 <= i < |ActiveToolsStatement(s)| ==>
      IsListedTool(s, ActiveToolsStatement(s)[i].id) && ActiveToolsStatement(s)[i] == RowWith(s, ActiveToolsStatement(s)[i].id, None)
    ensures forall id :: IsListedTool(s, id) ==> exists i :: 0 <= i < |ActiveToolsStatement(s)| && ActiveToolsStatement(s)[i].id == id
  {
    var sel := SelectedRows(s);
    var sorted := ActiveToolsStatement(s);
    ViewCountDescIsPreorder(RowViewCount);
    SortSorted(sel, ByViewCount());
    SortMembers(sel, ByViewCount());
    forall i | 0 <= i < |sorted| ensures IsListedTool(s, sorted[i].id) && sorted[i] == RowWith(s, sorted[i].id, None) {
      assert sorted[i] in sel;
    }
    forall id | IsListedTool(s, id) ensures exists i :: 0 <= i < |sorted| && sorted[i].id == id {
      assert RowWith(s, id, None) in sorted;
    }
  }

  /** `tagsResult.forEach(row => tagsMap.set(row.tool_id, row.tags))` */
  method TagsMapFrom(s: Snapshot, groups: seq<(nat, string)>) returns (tagsMap: map<nat, string>)
    requires forall k :: 0 <= k < |groups| ==> TagNamesOf(s, groups[k].0) != [] && groups[k].1 == Join(TagNamesOf(s, groups[k].0), ",")
    ensures forall id :: id in tagsMap ==> TagNamesOf(s, id) != [] && tagsMap[id] == Join(TagNamesOf(s, id), ",")
    ensures forall k :: 0 <= k < |groups| ==> groups[k].0 in tagsMap
  {
    tagsMap := map[];
    var k := 0;
    while k < |groups|
      invariant 0 <= k <= |groups|
      invariant forall id :: id in tagsMap ==> TagNamesOf(s, id) != [] && tagsMap[id] == Join(TagNamesOf(s, id), ",")
      invariant forall j :: 0 <= j < k ==> groups[j].0 in tagsMap
    {
      tagsMap := tagsMap[groups[k].0 := groups[k].1];
      k := k + 1;
    }
  }

  /** `tools.map(tool => ({...tool, tags: tagsMap.get(tool.id) || null}))` */
  method MergeTags(selected: seq<ToolRow>, tagsMap: map<nat, string>) returns (rows: seq<ToolRow>)
    ensures |rows| == |selected|
    ensures forall j :: 0 <= j < |rows| ==> rows[j] == selected[j].(tags := TagText(tagsMap, selected[j].id))
  {
    rows := [];
    var i := 0;
    while i < |selected|
      invariant 0 <= i <= |selected|
      invariant |rows| == i
      invariant forall j :: 0 <= j < i ==> rows[j] == selected[j].(tags := TagText(tagsMap, selected[j].id))
    {
      rows := rows + [selected[i].(tags := TagText(tagsMap, selected[i].id))];
      i := i + 1;
    }
  }

  /** `tagsMap.get(id) || null` */
  function TagText(tagsMap: map<nat, string>, id: nat): (r: Option<string>)
    ensures r.Some? <==> id in tagsMap && tagsMap[id] != ""
    ensures r.Some? ==> r.value == tagsMap[id]
  {
    if id in tagsMap && tagsMap[id] != "" then Some(tagsMap[id]) else None
  }

  /** A map from each non-deleted tool with tags to its joined tag names, and nothing else. */
  ghost predicate IsTagsMap(s: Snapshot, tagsMap: map<nat, string>) {
    (forall id :: id in tagsMap ==> TagNamesOf(s, id) != [] && tagsMap[id] == Join(TagNamesOf(s, id), ",")) &&
    (forall id :: IsActiveTool(s, id) && TagNamesOf(s, id) != [] ==> id in tagsMap)
  }

  /** Filling the map with every tag-groups row yields the tags map. */
  lemma TagGroupsFillMap(s: Snapshot, tagsMap: map<nat, string>)
    requires forall id :: id in tagsMap ==> TagNamesOf(s, id) != [] && tagsMap[id] == Join(TagNamesOf(s, id), ",")
    requires forall j :: 0 <= j < |TagGroups(s)| ==> TagGroups(s)[j].0 in tagsMap
    ensures IsTagsMap(s, tagsMap)
  {
    forall id | IsActiveTool(s, id) && TagNamesOf(s, id) != [] ensures id in tagsMap {
      var j :| 0 <= j < |TagGroups(s)| && TagGroups(s)[j].0 == id;
    }
  }

  /** Merging the statement's rows with the tags map gives the listing. */
  lemma MergedRowsSpec(s: Snapshot, tagsMap: map<nat, string>, rows: seq<ToolRow>)
    requires IsTagsMap(s, tagsMap)
    requires |rows| == |ActiveToolsStatement(s)|
    requires forall j :: 0 <= j < |rows| ==>
      rows[j] == ActiveToolsStatement(s)[j].(tags := TagText(tagsMap, ActiveToolsStatement(s)[j].id))
    ensures |rows| == |ListedIds(s)|
    ensures SortedBy(rows, ByViewCount())
    ensures forall i :: 0 <= i < |rows| ==> IsListedTool(s, rows[i].id) && rows[i] == ListedRow(s, rows[i].id)
    ensures forall id :: IsListedTool(s, id) ==> exists i :: 0 <= i < |rows| && rows[i].id == id
  {
    var sel := ActiveToolsStatement(s);
    ActiveToolsStatementSpec(s);
    MergedRowsListed(s, tagsMap, sel, rows);
    MergedRowsSorted(sel, rows);
    MergedRowsCover(s, sel, rows);
  }

  lemma MergedRowsListed(s: Snapshot, tagsMap: map<nat, string>, sel: seq<ToolRow>, rows: seq<ToolRow>)
    requires IsTagsMap(s, tagsMap)
    requires |rows| == |sel|
    requires forall j :: 0 <= j < |rows| ==> rows[j] == sel[j].(tags := TagText(tagsMap, sel[j].id))
    requires forall i :: 0 <= i < |sel| ==> IsListedTool(s, sel[i].id) && sel[i] == RowWith(s, sel[i].id, None)
    ensures forall i :: 0 <= i < |rows| ==> IsListedTool(s, rows[i].id) && rows[i] == ListedRow(s, rows[i].id)
  {
    forall i | 0 <= i < |rows| ensures IsListedTool(s, rows[i].id) && rows[i] == ListedRow(s, rows[i].id) {
      MergedRow(s, tagsMap, sel[i], rows[i]);
    }
  }

  /** Replacing the tags column keeps the view-count order. */
  lemma MergedRowsSorted(sel: seq<ToolRow>, rows: seq<ToolRow>)
    requires |rows| == |sel|
    requires forall j :: 0 <= j < |rows| ==> rows[j].viewCount == sel[j].viewCount
    requires SortedBy(sel, ByViewCount())
    ensures SortedBy(rows, ByViewCount())
  {
    forall a, b | 0 <= a < b < |rows| ensures ByViewCount()(rows[a], rows[b]) {
      assert ByViewCount()(sel[a], sel[b]);
      assert RowViewCount(sel[a]) >= RowViewCount(sel[b]);
      assert RowViewCount(rows[a]) >= RowViewCount(rows[b]);
    }
  }

  /** Replacing the tags column keeps the ids. */
  lemma MergedRowsCover(s: Snapshot, sel: seq<ToolRow>, rows: seq<ToolRow>)
    requires |rows| == |sel|
    requires forall j :: 0 <= j < |rows| ==> rows[j].id == sel[j].id
    requires forall id :: IsListedTool(s, id) ==> exists i :: 0 <= i < |sel| && sel[i].id == id
    ensures forall id :: IsListedTool(s, id) ==> exists i :: 0 <= i < |rows| && rows[i].id == id
  {
    forall id | IsListedTool(s, id) ensures exists i :: 0 <= i < |rows| && rows[i].id == id {
      var i :| 0 <= i < |sel| && sel[i].id == id;
      assert rows[i].id == id;
    }
  }

  /** One merged row is the full listing row of its tool. */
  lemma MergedRow(s: Snapshot, tagsMap: map<nat, string>, row: ToolRow, merged: ToolRow)
    requires IsTagsMap(s, tagsMap)
    requires IsListedTool(s, row.id) && row == RowWith(s, row.id, None)
    requires merged == row.(tags := TagText(tagsMap, row.id))
    ensures IsListedTool(s, merged.id) && merged == ListedRow(s, merged.id)
  {
    if TagNamesOf(s, row.id) == [] {
      assert row.id !in tagsMap;
    }
  }

  /** The pushes of `updateTool`: a `col = ?` text into `fields` and its value
      into `values` for each defined field, in the fixed column order. */
  method SetList(p: ToolPatch) returns (fields: seq<string>, values: seq<SqlValue>)
    ensures fields == FieldsOf(Assignments(p)) && values == ParamsOf(Assignments(p))
  {
    fields := [];
    values := [];
    ghost var built: seq<(Column, SqlValue)> := [];
    fields, values := PushDefined(fields, values, p, NameColumn);
    AppendSlot(built, p, NameColumn);
    built := built + Slot(p, NameColumn);
    fields, values := PushDefined(fields, values, p, DescriptionColumn);
    AppendSlot(built, p, DescriptionColumn);
    built := built + Slot(p, DescriptionColumn);
    fields, values := PushDefined(fields, values, p, LogoColumn);
    AppendSlot(built, p, LogoColumn);
    built := built + Slot(p, LogoColumn);
    fields, values := PushDefined(fields, values, p, UrlColumn);
    AppendSlot(built, p, UrlColumn);
    built := built + Slot(p, UrlColumn);
    fields, values := PushDefined(fields, values, p, CategoryIdColumn);
    AppendSlot(built, p, CategoryIdColumn);
    built := built + Slot(p, CategoryIdColumn);
    fields, values := PushDefined(fields, values, p, IsFeaturedColumn);
    AppendSlot(built, p, IsFeaturedColumn);
    built := built + Slot(p, IsFeaturedColumn);
    fields, values := PushDefined(fields, values, p, IsNewColumn);
    AppendSlot(built, p, IsNewColumn);
    built := built + Slot(p, IsNewColumn);
    AssignmentsUnfold(p);
  }

  /** One `if (updates.x !== undefined) { fields.push('x = ?'); values.push(updates.x); }`. */
  method PushDefined(fields: seq<string>, values: seq<SqlValue>, p: ToolPatch, c: Column)
    returns (fields': seq<string>, values': seq<SqlValue>)
    ensures fields' == fields + (if Defines(p, c) then [ColumnName(c) + " = ?"] else [])
    ensures values' == values + (if Defines(p, c) then [ValueOf(p, c)] else [])
  {
    fields', values' := fields, values;
    if Defines(p, c) {
      fields' := fields + [ColumnName(c) + " = ?"];
      values' := values + [ValueOf(p, c)];
    }
  }

  /** The `col = ?` texts of a SET list. */
  function FieldsOf(a: seq<(Column, SqlValue)>): (r: seq<string>)
    ensures |r| == |a|
  {
    seq(|a|, i requires 0 <= i < |a| => ColumnName(a[i].0) + " = ?")
  }

  /** The values bound to a SET list's placeholders, in order. */
  function ParamsOf(a: seq<(Column, SqlValue)>): (r: seq<SqlValue>)
    ensures |r| == |a|
  {
    seq(|a|, i requires 0 <= i < |a| => a[i].1)
  }
}
