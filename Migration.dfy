/** The one-off migration from `settings.json` into a freshly created database
    (scripts/migrate.js): the site configuration, the categories, the tools
    with their tags in batches, the per-stage log, the integrity checks, and
    the order of the stages.

    The store is the `Db.Snapshot` value. The constraints the statements can
    violate are those `Db.WellFormed` lists: unique legacy ids, unique tag
    names under NOCASE and unique (tool, tag) pairs.

    The functions take the slug parser as a parameter `parse`; the migration
    object passes `Db.ExtractLegacyId`, which is what the script calls. */
module Migration {
  import opened Common
  import opened Db

  /** `CONFIG.batchSize` */
  const BatchSize: nat := 100

  /** How a slug such as "tool-001" becomes a legacy id, or the error thrown. */
  type SlugParser = string -> Result<nat, JsError>

  // ---------------------------------------------------------------- the source data

  datatype SourceCategory = SourceCategory(id: string, name: string, icon: string)

  /** A tool of `settings.json`; `None` is a missing property. */
  datatype SourceTool = SourceTool(
    id: string, name: string, description: Option<string>, logo: Option<string>, url: Option<string>,
    categoryId: string, isFeatured: JsValue, isNew: JsValue, viewCount: Option<int>, addedDate: Option<string>,
    tags: Option<seq<string>>)

  datatype SourceSite = SourceSite(siteName: string, description: string, keywords: seq<string>)

  datatype SourceData = SourceData(siteConfig: SourceSite, categories: seq<SourceCategory>, tools: seq<SourceTool>)

  /** `this.stats` */
  datatype Stats = Stats(categories: nat, tools: nat, tags: nat, toolTags: nat)

  datatype Status = Running | Completed | Failed

  /** A `migration_log` row. */
  datatype LogEntry = LogEntry(batchName: string, status: Status, recordsMigrated: Option<int>, errorMessage: Option<string>)

  /** The store and the counters part-way through a stage, and what was thrown, if anything. */
  datatype Progress = Progress(store: Snapshot, stats: Stats, error: Option<JsError>)

  /** The error a `UNIQUE` constraint raises. */
  function UniqueError(columns: string): JsError {
    JsError("SqliteError", Some("SQLITE_CONSTRAINT_UNIQUE"), Some("UNIQUE constraint failed: " + columns), None)
  }

  /** The error for a `tool_tags` insert whose tool lookup bound NULL;
      `TagsOfNewTool` shows it is never raised. */
  const NullPairError := JsError("SqliteError", Some("SQLITE_CONSTRAINT_NOTNULL"), Some("NOT NULL constraint failed: tool_tags.tool_id"), None)

  // ---------------------------------------------------------------- site configuration

  /** `INSERT OR IGNORE INTO site_keywords (keyword)` for each keyword in turn. */
  function KeywordsInserted(existing: seq<string>, keywords: seq<string>): (r: seq<string>)
    ensures |existing| <= |r| <= |existing| + |keywords|
  {
    if keywords == [] then existing
    else
      var acc := KeywordsInserted(existing, keywords[..|keywords| - 1]);
      var kw := keywords[|keywords| - 1];
      assert keywords == keywords[..|keywords| - 1] + [kw];
      if kw in acc then acc else acc + [kw]
  }

  /** A keyword is in the table afterwards exactly when it was before or is in the source list. */
  lemma {:induction false} KeywordsInsertedMembers(existing: seq<string>, keywords: seq<string>)
    ensures forall k :: k in KeywordsInserted(existing, keywords) <==> k in existing || k in keywords
  {
    if keywords != [] {
      var init := keywords[..|keywords| - 1];
      KeywordsInsertedMembers(existing, init);
      assert keywords == init + [keywords[|keywords| - 1]];
    }
  }

  predicate Distinct<T(==)>(s: seq<T>) {
    forall i, j :: 0 <= i < j < |s| ==> s[i] != s[j]
  }

  /** The keyword table never holds a keyword twice. */
  lemma {:induction false} KeywordsInsertedDistinct(existing: seq<string>, keywords: seq<string>)
    requires Distinct(existing)
    ensures Distinct(KeywordsInserted(existing, keywords))
  {
    if keywords != [] {
      KeywordsInsertedDistinct(existing, keywords[..|keywords| - 1]);
      KeywordsInsertedMembers(existing, keywords[..|keywords| - 1]);
      var acc := KeywordsInserted(existing, keywords[..|keywords| - 1]);
      var kw := keywords[|keywords| - 1];
      if kw !in acc {
        var r := acc + [kw];
        forall i, j | 0 <= i < j < |r| ensures r[i] != r[j] {
          if j == |acc| {
            assert r[i] in acc;
          } else {
            assert r[i] == acc[i] && r[j] == acc[j];
          }
        }
      }
    }
  }

  /** `migrateSiteConfig`'s statements: the row with id 1, if there is one, takes
      the source's name and description; then the keywords are inserted. */
  function SiteConfigMigrated(s: Snapshot, site: SourceSite): Snapshot {
    var s1 := if s.siteConfig.Some? then s.(siteConfig := Some(SiteConfig(site.siteName, site.description))) else s;
    s1.(keywords := KeywordsInserted(s1.keywords, site.keywords))
  }

  // ---------------------------------------------------------------- categories

  /** `SELECT id FROM categories WHERE legacy_id = ?`, searching rows `lo..`. */
  function FirstCategoryId(cs: seq<Category>, legacyId: int, lo: nat): (r: Option<nat>)
    ensures r.Some? ==> lo < r.value <= |cs| && cs[r.value - 1].legacyId == legacyId
    ensures r.None? ==> forall i :: lo <= i < |cs| ==> cs[i].legacyId != legacyId
    decreases |cs| - lo
  {
    if lo >= |cs| then None
    else if cs[lo].legacyId == legacyId then Some(lo + 1)
    else FirstCategoryId(cs, legacyId, lo + 1)
  }

  /** One category of the `forEach`: its legacy id from the slug, then the
      insert with its index as display order, then the counter. */
  function CategoryStep(s: Snapshot, st: Stats, cat: SourceCategory, index: nat, parse: SlugParser): Progress {
    match parse(cat.id)
    case Err(e) => Progress(s, st, Some(e))
    case Ok(legacyId) =>
      if FirstCategoryId(s.categories, legacyId, 0).Some? then Progress(s, st, Some(UniqueError("categories.legacy_id")))
      else Progress(s.(categories := s.categories + [Category(legacyId, cat.name, cat.icon, index, false)]),
                    st.(categories := st.categories + 1), None)
  }

  /** The categories from index `i` on, stopping at the first error. */
  function CategoriesFrom(s: Snapshot, st: Stats, cats: seq<SourceCategory>, i: nat, parse: SlugParser): Progress
    requires i <= |cats|
    decreases |cats| - i
  {
    if i == |cats| then Progress(s, st, None)
    else
      var p := CategoryStep(s, st, cats[i], i, parse);
      if p.error.Some? then p else CategoriesFrom(p.store, p.stats, cats, i + 1, parse)
  }

  lemma AppendAssoc<T>(a: seq<T>, b: seq<T>, c: seq<T>)
    ensures (a + b) + c == a + (b + c)
  {
  }

  /** The legacy id a slug yields, 0 when it yields none (only used for slugs known to parse). */
  function LegacyIdOf(slug: string, parse: SlugParser): nat {
    match parse(slug)
    case Ok(n) => n
    case Err(_) => 0
  }

  /** The row inserted for the category at `index`. */
  function CategoryRowOf(cat: SourceCategory, index: nat, parse: SlugParser): Category {
    Category(LegacyIdOf(cat.id, parse), cat.name, cat.icon, index, false)
  }

  /** The rows inserted for the categories from index `i` on. */
  function CategoryRows(cats: seq<SourceCategory>, i: nat, parse: SlugParser): (r: seq<Category>)
    requires i <= |cats|
    ensures |r| == |cats| - i
    decreases |cats| - i
  {
    if i == |cats| then [] else [CategoryRowOf(cats[i], i, parse)] + CategoryRows(cats, i + 1, parse)
  }

  /** Row `k` of `CategoryRows(cats, i, parse)` is the one for category `i + k`. */
  lemma {:induction false} CategoryRowsAt(cats: seq<SourceCategory>, i: nat, parse: SlugParser, k: nat)
    requires i <= |cats| && k < |cats| - i
    ensures CategoryRows(cats, i, parse)[k] == CategoryRowOf(cats[i + k], i + k, parse)
    decreases k
  {
    if k > 0 {
      CategoryRowsAt(cats, i + 1, parse, k - 1);
    }
  }

  /** Every slug from index `i` on parses. */
  predicate CategorySlugsParse(cats: seq<SourceCategory>, i: nat, parse: SlugParser)
    decreases |cats| - i
  {
    i >= |cats| || (parse(cats[i].id).Ok? && CategorySlugsParse(cats, i + 1, parse))
  }

  /** A successful run appends one row per source category, in source order,
      with the legacy id from its slug and its 0-based index as display
      order, counts each one, and touches no other table. */
  lemma {:induction false} CategoriesFromSpec(s: Snapshot, st: Stats, cats: seq<SourceCategory>, i: nat, parse: SlugParser)
    requires i <= |cats|
    ensures var p := CategoriesFrom(s, st, cats, i, parse);
      p.error.None? ==>
        CategorySlugsParse(cats, i, parse)
        && p.store == s.(categories := s.categories + CategoryRows(cats, i, parse))
        && p.stats == st.(categories := st.categories + |cats| - i)
    decreases |cats| - i
  {
    if i == |cats| {
      assert s.categories + [] == s.categories;
    } else {
      var q := CategoryStep(s, st, cats[i], i, parse);
      if q.error.None? {
        CategoriesFromSpec(q.store, q.stats, cats, i + 1, parse);
        var row := CategoryRowOf(cats[i], i, parse);
        var rest := CategoryRows(cats, i + 1, parse);
        assert q.store.categories == s.categories + [row];
        AppendAssoc(s.categories, [row], rest);
      }
    }
  }

  /** Distinct legacy ids, parsed from every slug and not yet in the store, always migrate. */
  lemma {:induction false} CategoriesFromSucceeds(s: Snapshot, st: Stats, cats: seq<SourceCategory>, i: nat, parse: SlugParser)
    requires i <= |cats| && CategorySlugsParse(cats, i, parse)
    requires forall j, k :: i <= j < k < |cats| ==> parse(cats[j].id) != parse(cats[k].id)
    requires forall k, c :: i <= k < |cats| && 0 <= c < |s.categories| ==> Ok(s.categories[c].legacyId) != parse(cats[k].id)
    ensures CategoriesFrom(s, st, cats, i, parse).error.None?
    decreases |cats| - i
  {
    if i < |cats| {
      var q := CategoryStep(s, st, cats[i], i, parse);
      var legacyId := parse(cats[i].id).value;
      forall c | 0 <= c < |s.categories| ensures s.categories[c].legacyId != legacyId {
        assert Ok(s.categories[c].legacyId) != parse(cats[i].id);
      }
      forall k, c | i + 1 <= k < |cats| && 0 <= c < |q.store.categories|
        ensures Ok(q.store.categories[c].legacyId) != parse(cats[k].id)
      {
        if c == |s.categories| {
          assert Ok(q.store.categories[c].legacyId) == parse(cats[i].id);
        } else {
          assert q.store.categories[c] == s.categories[c];
        }
      }
      CategoriesFromSucceeds(q.store, q.stats, cats, i + 1, parse);
    }
  }

  /** Each category step keeps the schema's constraints. */
  lemma CategoryStepWellFormed(s: Snapshot, st: Stats, cat: SourceCategory, index: nat, parse: SlugParser)
    requires WellFormed(s)
    ensures WellFormed(CategoryStep(s, st, cat, index, parse).store)
  {
    var q := CategoryStep(s, st, cat, index, parse);
    if q.error.None? {
      var cs := q.store.categories;
      forall i, j | 0 <= i < j < |cs| ensures cs[i].legacyId != cs[j].legacyId {
        if j == |s.categories| {
          assert cs[i] == s.categories[i];
        } else {
          assert cs[i] == s.categories[i] && cs[j] == s.categories[j];
        }
      }
    }
  }

  lemma {:induction false} CategoriesFromWellFormed(s: Snapshot, st: Stats, cats: seq<SourceCategory>, i: nat, parse: SlugParser)
    requires i <= |cats| && WellFormed(s)
    ensures WellFormed(CategoriesFrom(s, st, cats, i, parse).store)
    decreases |cats| - i
  {
    if i < |cats| {
      var q := CategoryStep(s, st, cats[i], i, parse);
      CategoryStepWellFormed(s, st, cats[i], i, parse);
      if q.error.None? {
        CategoriesFromWellFormed(q.store, q.stats, cats, i + 1, parse);
      }
    }
  }

  // ---------------------------------------------------------------- tools and tags

  /** `SELECT id FROM tools WHERE legacy_id = ?`, searching rows `lo..`. */
  function FirstToolId(ts: seq<Tool>, legacyId: int, lo: nat): (r: Option<nat>)
    ensures r.Some? ==> lo < r.value <= |ts| && ts[r.value - 1].legacyId == legacyId
    ensures r.None? ==> forall i :: lo <= i < |ts| ==> ts[i].legacyId != legacyId
    decreases |ts| - lo
  {
    if lo >= |ts| then None
    else if ts[lo].legacyId == legacyId then Some(lo + 1)
    else FirstToolId(ts, legacyId, lo + 1)
  }

  /** `tool.flag ? 1 : 0` */
  function Flag(v: JsValue): (r: int)
    ensures r == 1 <==> Truthy(v)
    ensures r == 0 <==> !Truthy(v)
  {
    if Truthy(v) then 1 else 0
  }

  /** The tool row inserted for a source tool: empty or missing texts become
      NULL, flags 1 or 0, a missing view count 0, and the category found by its
      legacy id (NULL when no category has it). */
  function SourceToolRow(tool: SourceTool, legacyId: int, categoryId: Option<nat>): Tool {
    Tool(legacyId, tool.name, OrNull(tool.description), OrNull(tool.logo), OrNull(tool.url),
         categoryId, Flag(tool.isFeatured), Flag(tool.isNew), OrZero(tool.viewCount), OrNull(tool.addedDate), false)
  }

  /** One tag of a tool: `INSERT OR IGNORE INTO tags`, counted when it
      created a row; then the `tool_tags` insert of the tool and tag found by
      their lookups, which fails on a pair already present, and its counter.
      The tag lookup finds the row `Db.TagFor` names, as names are unique under NOCASE. */
  function TagStep(s: Snapshot, st: Stats, toolLegacyId: int, name: string): Progress {
    var (s1, tagId) := TagFor(s, name);
    var st1 := if |s1.tags| > |s.tags| then st.(tags := st.tags + 1) else st;
    match FirstToolId(s1.tools, toolLegacyId, 0)
    case None => Progress(s1, st1, Some(NullPairError))
    case Some(toolId) =>
      if ToolTag(toolId, tagId) in s1.toolTags then Progress(s1, st1, Some(UniqueError("tool_tags.tool_id, tool_tags.tag_id")))
      else Progress(s1.(toolTags := s1.toolTags + [ToolTag(toolId, tagId)]), st1.(toolTags := st1.toolTags + 1), None)
  }

  /** The tags from index `i` on, stopping at the first error. */
  function TagsFrom(s: Snapshot, st: Stats, toolLegacyId: int, names: seq<string>, i: nat): Progress
    requires i <= |names|
    decreases |names| - i
  {
    if i == |names| then Progress(s, st, None)
    else
      var p := TagStep(s, st, toolLegacyId, names[i]);
      if p.error.Some? then p else TagsFrom(p.store, p.stats, toolLegacyId, names, i + 1)
  }

  /** One tool of the `forEach`: both slugs parsed, the tool inserted and
      counted, then its tags when it has a non-empty tag list. */
  function ToolStep(s: Snapshot, st: Stats, tool: SourceTool, parse: SlugParser): Progress {
    match parse(tool.id)
    case Err(e) => Progress(s, st, Some(e))
    case Ok(toolLegacyId) =>
      match parse(tool.categoryId)
      case Err(e) => Progress(s, st, Some(e))
      case Ok(categoryLegacyId) =>
        if FirstToolId(s.tools, toolLegacyId, 0).Some? then Progress(s, st, Some(UniqueError("tools.legacy_id")))
        else
          var row := SourceToolRow(tool, toolLegacyId, FirstCategoryId(s.categories, categoryLegacyId, 0));
          ToolTagsStep(s.(tools := s.tools + [row]), st.(tools := st.tools + 1), tool, toolLegacyId)
  }

  /** After the insert: the tool's tags, when its tag list is non-empty. */
  function ToolTagsStep(s1: Snapshot, st1: Stats, tool: SourceTool, toolLegacyId: int): Progress {
    if tool.tags.Some? && |tool.tags.value| > 0 then TagsFrom(s1, st1, toolLegacyId, tool.tags.value, 0)
    else Progress(s1, st1, None)
  }

  /** The store after inserting the row of a tool whose slugs parse. */
  function WithToolRow(s: Snapshot, tool: SourceTool, parse: SlugParser): Snapshot {
    s.(tools := s.tools + [ToolRowOf(s.categories, tool, parse)])
  }

  /** A tool step that cannot insert leaves the store as it was and fails. */
  lemma ToolStepRefused(s: Snapshot, st: Stats, tool: SourceTool, parse: SlugParser)
    requires parse(tool.id).Err? || parse(tool.categoryId).Err? || FirstToolId(s.tools, parse(tool.id).value, 0).Some?
    ensures ToolStep(s, st, tool, parse).store == s && ToolStep(s, st, tool, parse).error.Some?
  {
  }

  /** A tool step that inserts is the insert followed by the tool's tags. */
  lemma ToolStepInserts(s: Snapshot, st: Stats, tool: SourceTool, parse: SlugParser)
    requires parse(tool.id).Ok? && parse(tool.categoryId).Ok? && FirstToolId(s.tools, parse(tool.id).value, 0).None?
    ensures ToolStep(s, st, tool, parse) ==
      ToolTagsStep(WithToolRow(s, tool, parse), st.(tools := st.tools + 1), tool, parse(tool.id).value)
  {
  }

  /** The tools one after another, stopping at the first error. */
  function ToolsRun(s: Snapshot, st: Stats, tools: seq<SourceTool>, parse: SlugParser): Progress
    decreases |tools|
  {
    if tools == [] then Progress(s, st, None)
    else
      var p := ToolStep(s, st, tools[0], parse);
      if p.error.Some? then p else ToolsRun(p.store, p.stats, tools[1..], parse)
  }

  /** `migrate(batch)`, one transaction: a failure rolls the store back to the
      start of the batch, while the counters keep what the batch added before it. */
  function Transaction(s: Snapshot, st: Stats, batch: seq<SourceTool>, parse: SlugParser): Progress {
    var p := ToolsRun(s, st, batch, parse);
    if p.error.Some? then Progress(s, p.stats, p.error) else p
  }

  function Min(a: int, b: int): int {
    if a < b then a else b
  }

  /** The loop over slices of `BatchSize` tools, stopping at the first failed batch. */
  function Batched(s: Snapshot, st: Stats, tools: seq<SourceTool>, parse: SlugParser): Progress
    decreases |tools|
  {
    if tools == [] then Progress(s, st, None)
    else
      var n := Min(BatchSize, |tools|);
      var p := Transaction(s, st, tools[..n], parse);
      if p.error.Some? then p else Batched(p.store, p.stats, tools[n..], parse)
  }

  /** After the slice at `i` ran: a failure ends the batches there, and a
      commit leaves the batches after the slice to run. */
  lemma BatchDone(s: Snapshot, st: Stats, tools: seq<SourceTool>, i: nat, parse: SlugParser,
                  s2: Snapshot, st2: Stats, error: Option<JsError>)
    requires i < |tools|
    requires Progress(s2, st2, error) == Transaction(s, st, tools[i..i + Min(BatchSize, |tools| - i)], parse)
    ensures error.Some? ==> Batched(s, st, tools[i..], parse) == Progress(s2, st2, error)
    ensures error.None? ==> Batched(s, st, tools[i..], parse) == Batched(s2, st2, tools[i + Min(BatchSize, |tools| - i)..], parse)
  {
    BatchedAt(s, st, tools, i, parse);
  }

  /** The batches from position `i` on: the slice starting there, then the rest. */
  lemma BatchedAt(s: Snapshot, st: Stats, tools: seq<SourceTool>, i: nat, parse: SlugParser)
    requires i < |tools|
    ensures var n := Min(BatchSize, |tools| - i);
      Batched(s, st, tools[i..], parse) ==
        (var p := Transaction(s, st, tools[i..i + n], parse);
         if p.error.Some? then p else Batched(p.store, p.stats, tools[i + n..], parse))
  {
    var rest := tools[i..];
    var n := Min(BatchSize, |rest|);
    assert rest[..n] == tools[i..i + n] && rest[n..] == tools[i + n..];
  }

  /** Running `a` and then `b` is running `a + b`. */
  lemma {:induction false} ToolsRunAppend(s: Snapshot, st: Stats, a: seq<SourceTool>, b: seq<SourceTool>, parse: SlugParser)
    ensures ToolsRun(s, st, a + b, parse) ==
      (var p := ToolsRun(s, st, a, parse); if p.error.Some? then p else ToolsRun(p.store, p.stats, b, parse))
    decreases |a|
  {
    if a == [] {
      assert a + b == b;
    } else {
      assert (a + b)[0] == a[0] && (a + b)[1..] == a[1..] + b;
      var p := ToolStep(s, st, a[0], parse);
      if p.error.None? {
        ToolsRunAppend(p.store, p.stats, a[1..], b, parse);
      }
    }
  }

  /** Batching changes nothing when every batch succeeds, and the first error
      is the one a single pass would meet. */
  lemma {:induction false} BatchedSequential(s: Snapshot, st: Stats, tools: seq<SourceTool>, parse: SlugParser)
    ensures Batched(s, st, tools, parse).error == ToolsRun(s, st, tools, parse).error
    ensures Batched(s, st, tools, parse).error.None? ==> Batched(s, st, tools, parse) == ToolsRun(s, st, tools, parse)
    decreases |tools|
  {
    if tools != [] {
      var n := Min(BatchSize, |tools|);
      assert tools == tools[..n] + tools[n..];
      ToolsRunAppend(s, st, tools[..n], tools[n..], parse);
      var p := ToolsRun(s, st, tools[..n], parse);
      if p.error.None? {
        BatchedSequential(p.store, p.stats, tools[n..], parse);
      }
    }
  }

  /** The number of tools in the batches that committed. */
  function CommittedCount(s: Snapshot, st: Stats, tools: seq<SourceTool>, parse: SlugParser): (r: nat)
    ensures r <= |tools|
    decreases |tools|
  {
    if tools == [] then 0
    else
      var n := Min(BatchSize, |tools|);
      var p := Transaction(s, st, tools[..n], parse);
      if p.error.Some? then 0 else n + CommittedCount(p.store, p.stats, tools[n..], parse)
  }

  /** The committed batches are whole: their count is a multiple of `BatchSize`. */
  lemma {:induction false} CommittedWholeBatches(s: Snapshot, st: Stats, tools: seq<SourceTool>, parse: SlugParser)
    requires Batched(s, st, tools, parse).error.Some?
    ensures CommittedCount(s, st, tools, parse) < |tools| && CommittedCount(s, st, tools, parse) % BatchSize == 0
    decreases |tools|
  {
    var n := Min(BatchSize, |tools|);
    var p := Transaction(s, st, tools[..n], parse);
    if p.error.None? {
      CommittedWholeBatches(p.store, p.stats, tools[n..], parse);
      BatchMultiple(CommittedCount(p.store, p.stats, tools[n..], parse));
    }
  }

  lemma BatchMultiple(k: int)
    requires k % BatchSize == 0
    ensures (BatchSize + k) % BatchSize == 0
  {
  }

  /** A failure keeps the batches before the failing one: the store is what a
      single pass over the tools of the committed batches gives. */
  lemma {:induction false} BatchedCommitsPrefix(s: Snapshot, st: Stats, tools: seq<SourceTool>, parse: SlugParser)
    requires Batched(s, st, tools, parse).error.Some?
    ensures var k := CommittedCount(s, st, tools, parse);
      k <= |tools| && ToolsRun(s, st, tools[..k], parse).error.None?
      && Batched(s, st, tools, parse).store == ToolsRun(s, st, tools[..k], parse).store
    decreases |tools|
  {
    var n := Min(BatchSize, |tools|);
    var p := ToolsRun(s, st, tools[..n], parse);
    if p.error.Some? {
      assert tools[..0] == [];
    } else {
      var rest := tools[n..];
      var k := CommittedCount(p.store, p.stats, rest, parse);
      PrefixOfSuffix(tools, n, k);
      BatchedCommitsPrefix(p.store, p.stats, rest, parse);
      RunAfterCleanRun(s, st, tools[..n], rest[..k], parse);
    }
  }

  /** After a run without error, running more tools continues from where it stopped. */
  lemma RunAfterCleanRun(s: Snapshot, st: Stats, a: seq<SourceTool>, b: seq<SourceTool>, parse: SlugParser)
    requires ToolsRun(s, st, a, parse).error.None?
    ensures ToolsRun(s, st, a + b, parse) == ToolsRun(ToolsRun(s, st, a, parse).store, ToolsRun(s, st, a, parse).stats, b, parse)
  {
    ToolsRunAppend(s, st, a, b, parse);
  }

  /** The number of tag occurrences in the source tools. */
  function TagOccurrences(tools: seq<SourceTool>): nat {
    if tools == [] then 0
    else (if tools[0].tags.Some? then |tools[0].tags.value| else 0) + TagOccurrences(tools[1..])
  }

  /** A tag step that succeeds is `Db.TagAttached` on the tool the lookup found. */
  lemma TagStepAttaches(s: Snapshot, st: Stats, toolLegacyId: int, name: string)
    ensures var p := TagStep(s, st, toolLegacyId, name);
      p.error.None? ==>
        FirstToolId(s.tools, toolLegacyId, 0).Some?
        && p.store == TagAttached(s, FirstToolId(s.tools, toolLegacyId, 0).value, name)
        && |p.store.toolTags| == |s.toolTags| + 1
        && p.stats == st.(tags := st.tags + |p.store.tags| - |s.tags|, toolTags := st.toolTags + 1)
  {
  }

  /** The counters track the rows: `stats.tags` grows by the tags created,
      `stats.toolTags` by the pairs inserted, which is one per tag name. */
  lemma {:induction false} TagsFromSpec(s: Snapshot, st: Stats, toolLegacyId: int, names: seq<string>, i: nat)
    requires i <= |names|
    ensures var p := TagsFrom(s, st, toolLegacyId, names, i);
      p.error.None? ==>
        p.store.tools == s.tools && p.store.categories == s.categories
        && p.store.siteConfig == s.siteConfig && p.store.keywords == s.keywords
        && |s.tags| <= |p.store.tags| && |p.store.toolTags| == |s.toolTags| + |names| - i
        && p.stats == st.(tags := st.tags + |p.store.tags| - |s.tags|, toolTags := st.toolTags + |names| - i)
    decreases |names| - i
  {
    if i < |names| {
      var q := TagStep(s, st, toolLegacyId, names[i]);
      TagStepAttaches(s, st, toolLegacyId, names[i]);
      if q.error.None? {
        TagsFromSpec(q.store, q.stats, toolLegacyId, names, i + 1);
      }
    }
  }

  /** The row inserted for a source tool, its category looked up among `categories`. */
  function ToolRowOf(categories: seq<Category>, tool: SourceTool, parse: SlugParser): Tool {
    SourceToolRow(tool, LegacyIdOf(tool.id, parse), FirstCategoryId(categories, LegacyIdOf(tool.categoryId, parse), 0))
  }

  /** The rows inserted for the source tools, in order. */
  function ToolRows(categories: seq<Category>, tools: seq<SourceTool>, parse: SlugParser): (r: seq<Tool>)
    ensures |r| == |tools|
  {
    if tools == [] then [] else [ToolRowOf(categories, tools[0], parse)] + ToolRows(categories, tools[1..], parse)
  }

  /** Row `k` of `ToolRows` is the one for tool `k`. */
  lemma {:induction false} ToolRowsAt(categories: seq<Category>, tools: seq<SourceTool>, parse: SlugParser, k: nat)
    requires k < |tools|
    ensures ToolRows(categories, tools, parse)[k] == ToolRowOf(categories, tools[k], parse)
    decreases k
  {
    if k > 0 {
      ToolRowsAt(categories, tools[1..], parse, k - 1);
    }
  }

  /** Both slugs of every tool parse. */
  predicate ToolSlugsParse(tools: seq<SourceTool>, parse: SlugParser) {
    tools == [] || (parse(tools[0].id).Ok? && parse(tools[0].categoryId).Ok? && ToolSlugsParse(tools[1..], parse))
  }

  /** One tool migrated: exactly its row appended, and the counters match the rows created for it. */
  lemma ToolStepSpec(s: Snapshot, st: Stats, tool: SourceTool, parse: SlugParser)
    ensures var p := ToolStep(s, st, tool, parse);
      p.error.None? ==>
        parse(tool.id).Ok? && parse(tool.categoryId).Ok?
        && p.store.tools == s.tools + [ToolRowOf(s.categories, tool, parse)]
        && p.store.categories == s.categories && p.store.siteConfig == s.siteConfig && p.store.keywords == s.keywords
        && |s.tags| <= |p.store.tags| && |p.store.toolTags| == |s.toolTags| + TagOccurrences([tool])
        && p.stats == st.(tools := st.tools + 1, tags := st.tags + |p.store.tags| - |s.tags|,
                          toolTags := st.toolTags + TagOccurrences([tool]))
  {
    if parse(tool.id).Err? || parse(tool.categoryId).Err? || FirstToolId(s.tools, parse(tool.id).value, 0).Some? {
      ToolStepRefused(s, st, tool, parse);
    } else {
      ToolStepInserts(s, st, tool, parse);
      ToolTagsStepSpec(WithToolRow(s, tool, parse), st.(tools := st.tools + 1), tool, parse(tool.id).value);
      assert [tool][1..] == [];
    }
  }

  lemma ToolTagsStepSpec(s1: Snapshot, st1: Stats, tool: SourceTool, toolLegacyId: int)
    ensures var p := ToolTagsStep(s1, st1, tool, toolLegacyId);
      p.error.None? ==>
        p.store.tools == s1.tools && p.store.categories == s1.categories
        && p.store.siteConfig == s1.siteConfig && p.store.keywords == s1.keywords
        && |s1.tags| <= |p.store.tags|
        && |p.store.toolTags| == |s1.toolTags| + (if tool.tags.Some? then |tool.tags.value| else 0)
        && p.stats == st1.(tags := st1.tags + |p.store.tags| - |s1.tags|,
                           toolTags := st1.toolTags + (if tool.tags.Some? then |tool.tags.value| else 0))
  {
    if tool.tags.Some? && |tool.tags.value| > 0 {
      TagsFromSpec(s1, st1, toolLegacyId, tool.tags.value, 0);
    }
  }

  /** A successful pass appends exactly one row per source tool, in source
      order, each with the category its slug names, and leaves the categories alone. */
  lemma {:induction false} ToolsRunRows(s: Snapshot, st: Stats, tools: seq<SourceTool>, parse: SlugParser)
    ensures var p := ToolsRun(s, st, tools, parse);
      p.error.None? ==>
        ToolSlugsParse(tools, parse) && p.store.tools == s.tools + ToolRows(s.categories, tools, parse)
        && p.store.categories == s.categories
    decreases |tools|
  {
    if tools == [] {
      assert s.tools + [] == s.tools;
    } else {
      var q := ToolStep(s, st, tools[0], parse);
      ToolStepSpec(s, st, tools[0], parse);
      if q.error.None? {
        ToolsRunRows(q.store, q.stats, tools[1..], parse);
        var p := ToolsRun(s, st, tools, parse);
        if p.error.None? {
          assert p == ToolsRun(q.store, q.stats, tools[1..], parse);
          AppendAssoc(s.tools, [ToolRowOf(s.categories, tools[0], parse)], ToolRows(s.categories, tools[1..], parse));
        }
      }
    }
  }

  /** A successful pass counts every tool, one pair per tag occurrence, and
      one tag per tag row it created. */
  lemma {:induction false} ToolsRunCounts(s: Snapshot, st: Stats, tools: seq<SourceTool>, parse: SlugParser)
    ensures var p := ToolsRun(s, st, tools, parse);
      p.error.None? ==>
        |s.tags| <= |p.store.tags| && |p.store.toolTags| == |s.toolTags| + TagOccurrences(tools)
        && p.stats == st.(tools := st.tools + |tools|, tags := st.tags + |p.store.tags| - |s.tags|,
                          toolTags := st.toolTags + TagOccurrences(tools))
    decreases |tools|
  {
    if tools != [] {
      var q := ToolStep(s, st, tools[0], parse);
      ToolStepSpec(s, st, tools[0], parse);
      if q.error.None? {
        ToolsRunCounts(q.store, q.stats, tools[1..], parse);
        var p := ToolsRun(s, st, tools, parse);
        if p.error.None? {
          assert p == ToolsRun(q.store, q.stats, tools[1..], parse);
          assert TagOccurrences([tools[0]]) + TagOccurrences(tools[1..]) == TagOccurrences(tools) by {
            assert [tools[0]][1..] == [];
          }
        }
      }
    }
  }

  /** The tag steps of a tool already inserted never bind a NULL tool. */
  lemma {:induction false} TagsOfNewTool(s: Snapshot, st: Stats, toolLegacyId: int, names: seq<string>, i: nat)
    requires i <= |names| && FirstToolId(s.tools, toolLegacyId, 0).Some?
    ensures TagsFrom(s, st, toolLegacyId, names, i).error != Some(NullPairError)
    decreases |names| - i
  {
    if i < |names| {
      var q := TagStep(s, st, toolLegacyId, names[i]);
      assert TagFor(s, names[i]).0.tools == s.tools;
      if q.error.None? {
        TagStepAttaches(s, st, toolLegacyId, names[i]);
        TagsOfNewTool(q.store, q.stats, toolLegacyId, names, i + 1);
      }
    }
  }

  /** Creating a tag row when no NOCASE-equal one exists keeps the constraints. */
  lemma TagForWellFormed(s: Snapshot, name: string)
    requires WellFormed(s)
    ensures WellFormed(TagFor(s, name).0)
  {
    var s1 := TagFor(s, name).0;
    if FindTag(s, name).None? {
      forall i, j | 0 <= i < j < |s1.tags| ensures !SameNoCase(s1.tags[i].name, s1.tags[j].name) {
        if j == |s.tags| {
          assert s1.tags[i] == s.tags[i] && s1.tags[j].name == name;
        } else {
          assert s1.tags[i] == s.tags[i] && s1.tags[j] == s.tags[j];
        }
      }
    }
  }

  /** Each tag step keeps the schema's constraints. */
  lemma TagStepWellFormed(s: Snapshot, st: Stats, toolLegacyId: int, name: string)
    requires WellFormed(s)
    ensures WellFormed(TagStep(s, st, toolLegacyId, name).store)
  {
    TagForWellFormed(s, name);
    TagStepAttaches(s, st, toolLegacyId, name);
    if TagStep(s, st, toolLegacyId, name).error.None? {
      TagAttachedWellFormed(s, FirstToolId(s.tools, toolLegacyId, 0).value, name);
    }
  }

  lemma {:induction false} TagsFromWellFormed(s: Snapshot, st: Stats, toolLegacyId: int, names: seq<string>, i: nat)
    requires i <= |names| && WellFormed(s)
    ensures WellFormed(TagsFrom(s, st, toolLegacyId, names, i).store)
    decreases |names| - i
  {
    if i < |names| {
      var q := TagStep(s, st, toolLegacyId, names[i]);
      TagStepWellFormed(s, st, toolLegacyId, names[i]);
      if q.error.None? {
        TagsFromWellFormed(q.store, q.stats, toolLegacyId, names, i + 1);
      }
    }
  }

  /** Inserting a tool whose legacy id is new, with the category the lookup found, keeps the constraints. */
  lemma ToolInsertWellFormed(s: Snapshot, tool: SourceTool, legacyId: int, categoryLegacyId: int)
    requires WellFormed(s) && FirstToolId(s.tools, legacyId, 0).None?
    ensures WellFormed(s.(tools := s.tools + [SourceToolRow(tool, legacyId, FirstCategoryId(s.categories, categoryLegacyId, 0))]))
  {
    var s1 := s.(tools := s.tools + [SourceToolRow(tool, legacyId, FirstCategoryId(s.categories, categoryLegacyId, 0))]);
    forall i, j | 0 <= i < j < |s1.tools| ensures s1.tools[i].legacyId != s1.tools[j].legacyId {
      if j == |s.tools| {
        assert s1.tools[i] == s.tools[i];
      } else {
        assert s1.tools[i] == s.tools[i] && s1.tools[j] == s.tools[j];
      }
    }
    forall i | 0 <= i < |s1.tools| && s1.tools[i].categoryId.Some? ensures HasCategory(s1, s1.tools[i].categoryId.value) {
      if i < |s.tools| {
        assert s1.tools[i] == s.tools[i];
      }
    }
    forall k | 0 <= k < |s1.toolTags| ensures HasTool(s1, s1.toolTags[k].toolId) && HasTag(s1, s1.toolTags[k].tagId) {
      assert HasTool(s, s.toolTags[k].toolId);
    }
  }

  /** Each tool step keeps the schema's constraints. */
  lemma ToolStepWellFormed(s: Snapshot, st: Stats, tool: SourceTool, parse: SlugParser)
    requires WellFormed(s)
    ensures WellFormed(ToolStep(s, st, tool, parse).store)
  {
    if parse(tool.id).Err? || parse(tool.categoryId).Err? || FirstToolId(s.tools, parse(tool.id).value, 0).Some? {
      ToolStepRefused(s, st, tool, parse);
    } else {
      ToolStepInserts(s, st, tool, parse);
      ToolInsertWellFormed(s, tool, parse(tool.id).value, parse(tool.categoryId).value);
      ToolTagsStepWellFormed(WithToolRow(s, tool, parse), st.(tools := st.tools + 1), tool, parse(tool.id).value);
    }
  }

  lemma ToolTagsStepWellFormed(s1: Snapshot, st1: Stats, tool: SourceTool, toolLegacyId: int)
    requires WellFormed(s1)
    ensures WellFormed(ToolTagsStep(s1, st1, tool, toolLegacyId).store)
  {
    if tool.tags.Some? && |tool.tags.value| > 0 {
      TagsFromWellFormed(s1, st1, toolLegacyId, tool.tags.value, 0);
    }
  }

  lemma {:induction false} ToolsRunWellFormed(s: Snapshot, st: Stats, tools: seq<SourceTool>, parse: SlugParser)
    requires WellFormed(s)
    ensures WellFormed(ToolsRun(s, st, tools, parse).store)
    decreases |tools|
  {
    if tools != [] {
      var q := ToolStep(s, st, tools[0], parse);
      ToolStepWellFormed(s, st, tools[0], parse);
      if q.error.None? {
        ToolsRunWellFormed(q.store, q.stats, tools[1..], parse);
      }
    }
  }

  /** Whatever the batches do, the store keeps the schema's constraints. */
  lemma {:induction false} BatchedWellFormed(s: Snapshot, st: Stats, tools: seq<SourceTool>, parse: SlugParser)
    requires WellFormed(s)
    ensures WellFormed(Batched(s, st, tools, parse).store)
    decreases |tools|
  {
    if tools != [] {
      var n := Min(BatchSize, |tools|);
      ToolsRunWellFormed(s, st, tools[..n], parse);
      var p := Transaction(s, st, tools[..n], parse);
      if p.error.None? {
        BatchedWellFormed(p.store, p.stats, tools[n..], parse);
      }
    }
  }

  /** Every pair of tool `toolId` uses a tag named, under NOCASE, like one of `names[..i]`. */
  predicate PairsNamedBy(s: Snapshot, toolId: nat, names: seq<string>, i: nat)
    requires i <= |names|
  {
    forall k :: 0 <= k < |s.toolTags| && s.toolTags[k].toolId == toolId ==>
      HasTag(s, s.toolTags[k].tagId) &&
      exists j :: 0 <= j < i && SameNoCase(s.tags[s.toolTags[k].tagId - 1].name, names[j])
  }

  /** The tag step for `names[i]` of a tool whose pairs use only tags named like
      `names[..i]` inserts a new pair, and the next name finds the same situation. */
  lemma TagStepSucceeds(s: Snapshot, st: Stats, toolLegacyId: int, names: seq<string>, i: nat, toolId: nat)
    requires i < |names| && WellFormed(s) && DistinctNoCase(names)
    requires FirstToolId(s.tools, toolLegacyId, 0) == Some(toolId)
    requires PairsNamedBy(s, toolId, names, i)
    ensures var q := TagStep(s, st, toolLegacyId, names[i]);
      q.error.None? && WellFormed(q.store) && q.store.tools == s.tools && PairsNamedBy(q.store, toolId, names, i + 1)
  {
    var (s1, tagId) := TagFor(s, names[i]);
    assert HasTag(s1, tagId) && SameNoCase(s1.tags[tagId - 1].name, names[i]);
    forall k | 0 <= k < |s.toolTags| && s.toolTags[k].toolId == toolId ensures s.toolTags[k].tagId != tagId {
      var j :| 0 <= j < i && SameNoCase(s.tags[s.toolTags[k].tagId - 1].name, names[j]);
      assert !SameNoCase(names[j], names[i]);
    }
    assert s1.tools == s.tools && s1.toolTags == s.toolTags && ToolTag(toolId, tagId) !in s1.toolTags;
    var q := TagStep(s, st, toolLegacyId, names[i]);
    assert q.error.None? && q.store == s1.(toolTags := s.toolTags + [ToolTag(toolId, tagId)]);
    TagStepWellFormed(s, st, toolLegacyId, names[i]);
    PairsNamedByAttach(s, toolId, names, i);
  }

  /** The tags of a tool go through when no two of its names are NOCASE-equal:
      each pair the tool already has uses a tag named like an earlier name, so
      the pair for the next name is new. */
  lemma {:induction false} TagsFromSucceeds(s: Snapshot, st: Stats, toolLegacyId: int, names: seq<string>, i: nat, toolId: nat)
    requires i <= |names| && WellFormed(s) && DistinctNoCase(names)
    requires FirstToolId(s.tools, toolLegacyId, 0) == Some(toolId)
    requires PairsNamedBy(s, toolId, names, i)
    ensures TagsFrom(s, st, toolLegacyId, names, i).error.None?
    decreases |names| - i
  {
    if i < |names| {
      TagStepSucceeds(s, st, toolLegacyId, names, i, toolId);
      var q := TagStep(s, st, toolLegacyId, names[i]);
      TagsFromSucceeds(q.store, q.stats, toolLegacyId, names, i + 1, toolId);
    }
  }

  /** Attaching the tag for `names[i]` extends the names the tool's pairs use to `names[..i + 1]`. */
  lemma PairsNamedByAttach(s: Snapshot, toolId: nat, names: seq<string>, i: nat)
    requires i < |names| && PairsNamedBy(s, toolId, names, i)
    ensures var (s1, tagId) := TagFor(s, names[i]);
      PairsNamedBy(s1.(toolTags := s.toolTags + [ToolTag(toolId, tagId)]), toolId, names, i + 1)
  {
    var (s1, tagId) := TagFor(s, names[i]);
    var r := s1.(toolTags := s.toolTags + [ToolTag(toolId, tagId)]);
    forall k | 0 <= k < |r.toolTags| && r.toolTags[k].toolId == toolId
      ensures HasTag(r, r.toolTags[k].tagId)
      ensures exists j :: 0 <= j < i + 1 && SameNoCase(r.tags[r.toolTags[k].tagId - 1].name, names[j])
    {
      if k < |s.toolTags| {
        var j :| 0 <= j < i && SameNoCase(s.tags[s.toolTags[k].tagId - 1].name, names[j]);
        assert r.tags[s.toolTags[k].tagId - 1] == s.tags[s.toolTags[k].tagId - 1];
      } else {
        assert SameNoCase(r.tags[tagId - 1].name, names[i]);
      }
    }
  }

  /** A tool whose slugs parse, whose legacy id is new and whose tag names
      are NOCASE-distinct always migrates. */
  lemma ToolStepSucceeds(s: Snapshot, st: Stats, tool: SourceTool, parse: SlugParser)
    requires WellFormed(s) && parse(tool.id).Ok? && parse(tool.categoryId).Ok?
    requires FirstToolId(s.tools, parse(tool.id).value, 0).None?
    requires tool.tags.Some? ==> DistinctNoCase(tool.tags.value)
    ensures ToolStep(s, st, tool, parse).error.None?
  {
    var legacyId := parse(tool.id).value;
    var categoryLegacyId := parse(tool.categoryId).value;
    var s1 := s.(tools := s.tools + [SourceToolRow(tool, legacyId, FirstCategoryId(s.categories, categoryLegacyId, 0))]);
    ToolInsertWellFormed(s, tool, legacyId, categoryLegacyId);
    if tool.tags.Some? && |tool.tags.value| > 0 {
      assert s1.tools[|s.tools|].legacyId == legacyId;
      var toolId := FirstToolId(s1.tools, legacyId, 0).value;
      assert toolId == |s.tools| + 1;
      forall k | 0 <= k < |s1.toolTags| ensures s1.toolTags[k].toolId != toolId {
        assert HasTool(s, s.toolTags[k].toolId);
      }
      var st1 := st.(tools := st.tools + 1);
      ToolStepInserts(s, st, tool, parse);
      assert WithToolRow(s, tool, parse) == s1;
      TagsFromSucceeds(s1, st1, legacyId, tool.tags.value, 0, toolId);
    }
  }

  /** Tools whose slugs parse, whose legacy ids are distinct and new to the
      store and whose tag lists are NOCASE-distinct all migrate. */
  lemma {:induction false} ToolsRunSucceeds(s: Snapshot, st: Stats, tools: seq<SourceTool>, parse: SlugParser)
    requires WellFormed(s) && ToolSlugsParse(tools, parse)
    requires forall j, k :: 0 <= j < k < |tools| ==> parse(tools[j].id) != parse(tools[k].id)
    requires forall k, c :: 0 <= k < |tools| && 0 <= c < |s.tools| ==> Ok(s.tools[c].legacyId) != parse(tools[k].id)
    requires forall k :: 0 <= k < |tools| && tools[k].tags.Some? ==> DistinctNoCase(tools[k].tags.value)
    ensures ToolsRun(s, st, tools, parse).error.None?
    decreases |tools|
  {
    if tools != [] {
      var legacyId := parse(tools[0].id).value;
      forall c | 0 <= c < |s.tools| ensures s.tools[c].legacyId != legacyId {
        assert Ok(s.tools[c].legacyId) != parse(tools[0].id);
      }
      ToolStepSucceeds(s, st, tools[0], parse);
      ToolStepSpec(s, st, tools[0], parse);
      ToolStepWellFormed(s, st, tools[0], parse);
      var q := ToolStep(s, st, tools[0], parse);
      var rest := tools[1..];
      forall k, c | 0 <= k < |rest| && 0 <= c < |q.store.tools| ensures Ok(q.store.tools[c].legacyId) != parse(rest[k].id) {
        assert rest[k] == tools[k + 1];
        if c == |s.tools| {
          assert Ok(q.store.tools[c].legacyId) == parse(tools[0].id);
        } else {
          assert q.store.tools[c] == s.tools[c];
        }
      }
      forall j, k | 0 <= j < k < |rest| ensures parse(rest[j].id) != parse(rest[k].id) {
        assert rest[j] == tools[j + 1] && rest[k] == tools[k + 1];
      }
      forall k | 0 <= k < |rest| && rest[k].tags.Some? ensures DistinctNoCase(rest[k].tags.value) {
        assert rest[k] == tools[k + 1];
      }
      ToolsRunSucceeds(q.store, q.stats, rest, parse);
    }
  }

  // ---------------------------------------------------------------- integrity checks

  function CountWhere<T>(xs: seq<T>, p: T -> bool): (r: nat)
    ensures r <= |xs|
    ensures r == 0 <==> forall k :: 0 <= k < |xs| ==> !p(xs[k])
  {
    if xs == [] then 0 else CountWhere(xs[..|xs| - 1], p) + (if p(xs[|xs| - 1]) then 1 else 0)
  }

  /** `category_id NOT IN (SELECT id FROM categories)`, as the script writes
      it: a NULL category id is counted only when there are no categories at
      all (NULL NOT IN an empty set is true). */
  predicate DanglingCategory(s: Snapshot, t: Tool) {
    if t.categoryId.Some? then !HasCategory(s, t.categoryId.value) else |s.categories| == 0
  }

  /** `category_id IS NULL OR category_id NOT IN (SELECT id FROM categories)`:
      a tool whose category was not found is counted too. */
  predicate MissingCategory(s: Snapshot, t: Tool) {
    t.categoryId.None? || !HasCategory(s, t.categoryId.value)
  }

  datatype Check = Check(name: string, count: int, expected: int)

  /** `is_deleted = 0` */
  predicate LiveCategory(c: Category) { !c.isDeleted }

  predicate LiveTool(t: Tool) { !t.isDeleted }

  /** The four checks of `verify`, each with the count its query returns and
      the expected count; the reference check counts NULL category ids too. */
  function Checks(s: Snapshot, data: SourceData): (r: seq<Check>)
    ensures |r| == 4
  {
    [Check("分类数量", CountWhere(s.categories, LiveCategory), |data.categories|),
     Check("工具数量", CountWhere(s.tools, LiveTool), |data.tools|),
     Check("外键完整性", CountWhere(s.tools, (t: Tool) => MissingCategory(s, t)), 0),
     Check("孤儿标签关联", CountWhere(s.toolTags, (p: ToolTag) => !HasTool(s, p.toolId)), 0)]
  }

  /** The checks as the script writes them, with `NOT IN` alone in the reference check. */
  function ChecksAsWritten(s: Snapshot, data: SourceData): (r: seq<Check>)
    ensures |r| == 4
  {
    Checks(s, data)[2 := Check("外键完整性", CountWhere(s.tools, (t: Tool) => DanglingCategory(s, t)), 0)]
  }

  const VerificationFailed := PlainError("数据验证失败！")

  /** Check `k` returns its expected count. */
  predicate CheckPasses(s: Snapshot, data: SourceData, k: nat)
    requires k < 4
  {
    Checks(s, data)[k].count == Checks(s, data)[k].expected
  }

  /** Every check returns its expected count. */
  predicate ChecksPass(s: Snapshot, data: SourceData) {
    forall k :: 0 <= k < 4 ==> CheckPasses(s, data, k)
  }

  /** A well-formed store passes the pair check; it passes the reference check
      exactly when every tool has a category, and the check as written
      whenever there is a category at all. */
  lemma WellFormedPassesReferenceChecks(s: Snapshot, data: SourceData)
    requires WellFormed(s)
    ensures Checks(s, data)[3].count == 0
    ensures Checks(s, data)[2].count == 0 <==> forall i :: 0 <= i < |s.tools| ==> s.tools[i].categoryId.Some?
    ensures |s.categories| > 0 ==> ChecksAsWritten(s, data)[2].count == 0 && ChecksAsWritten(s, data)[3].count == 0
  {
  }

  /** The reference check as written lets a tool without a category through
      when there is any category; the corrected check counts it, so
      verification fails. */
  lemma UnresolvedToolPassesAsWritten(s: Snapshot, data: SourceData, i: nat)
    requires WellFormed(s) && |s.categories| > 0 && i < |s.tools| && s.tools[i].categoryId.None?
    ensures ChecksAsWritten(s, data)[2].count == 0
    ensures Checks(s, data)[2].count > 0 && !ChecksPass(s, data)
  {
    assert MissingCategory(s, s.tools[i]);
    assert !CheckPasses(s, data, 2);
  }

  /** A tool whose category slug names no category gets a NULL category id, and
      as long as some category exists the reference check does not count it. */
  lemma UnresolvedCategoryPassesCheck(s: Snapshot, t: Tool)
    requires t.categoryId.None? && |s.categories| > 0
    ensures !DanglingCategory(s, t)
  {
  }

  lemma {:induction false} CountWhereAll<T>(xs: seq<T>, p: T -> bool)
    requires forall k :: 0 <= k < |xs| ==> p(xs[k])
    ensures CountWhere(xs, p) == |xs|
  {
    if xs != [] {
      CountWhereAll(xs[..|xs| - 1], p);
    }
  }

  /** The data tables as `initDatabase` leaves them: the database file is
      deleted and the schema recreated. */
  predicate EmptyTables(s: Snapshot) {
    s.categories == [] && s.tools == [] && s.tags == [] && s.toolTags == []
  }

  /** The category slug of tool `k` names a source category. */
  predicate CategoryResolves(data: SourceData, parse: SlugParser, k: nat)
    requires k < |data.tools|
  {
    exists j :: 0 <= j < |data.categories| && LegacyIdOf(data.categories[j].id, parse) == LegacyIdOf(data.tools[k].categoryId, parse)
  }

  /** Every tool's category slug names a source category. */
  predicate CategoriesResolve(data: SourceData, parse: SlugParser) {
    forall k :: 0 <= k < |data.tools| ==> CategoryResolves(data, parse, k)
  }

  /** Source data the statements accept: every slug parses, the category slugs
      and the tool slugs give distinct legacy ids, and no tool lists two
      NOCASE-equal tags. */
  predicate Migratable(data: SourceData, parse: SlugParser) {
    CategorySlugsParse(data.categories, 0, parse) && ToolSlugsParse(data.tools, parse)
    && (forall j, k :: 0 <= j < k < |data.categories| ==> parse(data.categories[j].id) != parse(data.categories[k].id))
    && (forall j, k :: 0 <= j < k < |data.tools| ==> parse(data.tools[j].id) != parse(data.tools[k].id))
    && (forall k :: 0 <= k < |data.tools| && data.tools[k].tags.Some? ==> DistinctNoCase(data.tools[k].tags.value))
  }

  /** The store after the site configuration and the categories, when they succeed. */
  function AfterCategories(s: Snapshot, st: Stats, data: SourceData, parse: SlugParser): Progress {
    CategoriesFrom(SiteConfigMigrated(s, data.siteConfig), st, data.categories, 0, parse)
  }

  /** Acceptable data migrates into empty tables: the categories and every tool
      batch succeed, leaving one row per source category and per source tool. */
  lemma MigratableDataMigrates(s: Snapshot, st: Stats, data: SourceData, parse: SlugParser)
    requires EmptyTables(s) && Migratable(data, parse)
    ensures var c := AfterCategories(s, st, data, parse);
      var t := Batched(c.store, c.stats, data.tools, parse);
      var categories := CategoryRows(data.categories, 0, parse);
      c.error.None? && t.error.None? && WellFormed(t.store)
      && t.store.categories == categories && t.store.tools == ToolRows(categories, data.tools, parse)
  {
    var s1 := SiteConfigMigrated(s, data.siteConfig);
    CategoriesFromSucceeds(s1, st, data.categories, 0, parse);
    CategoriesFromSpec(s1, st, data.categories, 0, parse);
    CategoriesFromWellFormed(s1, st, data.categories, 0, parse);
    var c := AfterCategories(s, st, data, parse);
    assert c.store.tools == [] && c.store.categories == CategoryRows(data.categories, 0, parse);
    ToolsRunSucceeds(c.store, c.stats, data.tools, parse);
    ToolsRunRows(c.store, c.stats, data.tools, parse);
    ToolsRunWellFormed(c.store, c.stats, data.tools, parse);
    BatchedSequential(c.store, c.stats, data.tools, parse);
  }

  /** The checks on the migrated rows: the category and tool counts match the
      source, no pair is orphaned, and the reference check passes exactly when
      every tool's category slug names a source category. */
  lemma MigratedRowsPassChecks(r: Snapshot, data: SourceData, parse: SlugParser)
    requires WellFormed(r) && r.categories == CategoryRows(data.categories, 0, parse)
    requires r.tools == ToolRows(r.categories, data.tools, parse)
    ensures CheckPasses(r, data, 0) && CheckPasses(r, data, 1) && CheckPasses(r, data, 3)
    ensures CheckPasses(r, data, 2) <==> CategoriesResolve(data, parse)
    ensures ChecksPass(r, data) <==> CategoriesResolve(data, parse)
  {
    MigratedRowCounts(r, data, parse);
    MigratedRowReferences(r, data, parse);
    ChecksPassEach(r, data);
  }

  /** All checks pass exactly when each of the four does. */
  lemma ChecksPassEach(s: Snapshot, data: SourceData)
    ensures ChecksPass(s, data) <==>
      CheckPasses(s, data, 0) && CheckPasses(s, data, 1) && CheckPasses(s, data, 2) && CheckPasses(s, data, 3)
  {
    if CheckPasses(s, data, 0) && CheckPasses(s, data, 1) && CheckPasses(s, data, 2) && CheckPasses(s, data, 3) {
      forall k | 0 <= k < 4 ensures CheckPasses(s, data, k) {
        assert k == 0 || k == 1 || k == 2 || k == 3;
      }
    }
  }

  lemma MigratedRowCounts(r: Snapshot, data: SourceData, parse: SlugParser)
    requires r.categories == CategoryRows(data.categories, 0, parse)
    requires r.tools == ToolRows(r.categories, data.tools, parse)
    ensures CheckPasses(r, data, 0) && CheckPasses(r, data, 1)
  {
    CategoryRowsLive(data.categories, parse);
    ToolRowsLive(r.categories, data.tools, parse);
  }

  /** On the migrated rows no pair is orphaned, and the reference check passes
      exactly when every tool's category slug names a source category. */
  lemma MigratedRowReferences(r: Snapshot, data: SourceData, parse: SlugParser)
    requires WellFormed(r) && r.categories == CategoryRows(data.categories, 0, parse)
    requires r.tools == ToolRows(r.categories, data.tools, parse)
    ensures CheckPasses(r, data, 3)
    ensures CheckPasses(r, data, 2) <==> CategoriesResolve(data, parse)
  {
    forall k | 0 <= k < |data.tools|
      ensures !MissingCategory(r, r.tools[k]) <==> CategoryResolves(data, parse, k)
    {
      ToolResolves(r, data, parse, k);
    }
    if CategoriesResolve(data, parse) {
      assert forall k :: 0 <= k < |r.tools| ==> !MissingCategory(r, r.tools[k]);
    } else {
      var k :| 0 <= k < |data.tools| && !CategoryResolves(data, parse, k);
      assert MissingCategory(r, r.tools[k]);
    }
  }

  /** The migrated row of tool `k` has a category exactly when its slug names a source category. */
  lemma ToolResolves(r: Snapshot, data: SourceData, parse: SlugParser, k: nat)
    requires WellFormed(r) && r.categories == CategoryRows(data.categories, 0, parse)
    requires r.tools == ToolRows(r.categories, data.tools, parse) && k < |data.tools|
    ensures !MissingCategory(r, r.tools[k]) <==> CategoryResolves(data, parse, k)
  {
    ToolRowsAt(r.categories, data.tools, parse, k);
    var legacyId := LegacyIdOf(data.tools[k].categoryId, parse);
    var found := FirstCategoryId(r.categories, legacyId, 0);
    if found.Some? {
      CategoryRowsAt(data.categories, 0, parse, found.value - 1);
      assert LegacyIdOf(data.categories[found.value - 1].id, parse) == legacyId;
    } else {
      forall j | 0 <= j < |data.categories| ensures LegacyIdOf(data.categories[j].id, parse) != legacyId {
        CategoryRowsAt(data.categories, 0, parse, j);
      }
    }
  }

  /** The reference check as written on the migrated rows: it passes exactly
      when there is a category or no tool, whether or not the tools' category
      slugs name a source category. */
  lemma MigratedRowsAsWritten(r: Snapshot, data: SourceData, parse: SlugParser)
    requires WellFormed(r) && |r.categories| == |data.categories|
    requires r.tools == ToolRows(r.categories, data.tools, parse)
    ensures ChecksAsWritten(r, data)[2].count == 0 <==> |data.categories| > 0 || |data.tools| == 0
  {
    if |data.categories| == 0 && |data.tools| > 0 {
      ToolRowsAt(r.categories, data.tools, parse, 0);
      assert DanglingCategory(r, r.tools[0]);
    }
  }

  /** Every category row is inserted live. */
  lemma CategoryRowsLive(cats: seq<SourceCategory>, parse: SlugParser)
    ensures CountWhere(CategoryRows(cats, 0, parse), LiveCategory) == |cats|
  {
    var rows := CategoryRows(cats, 0, parse);
    forall k | 0 <= k < |rows| ensures LiveCategory(rows[k]) {
      CategoryRowsAt(cats, 0, parse, k);
    }
    CountWhereAll(rows, LiveCategory);
  }

  /** Every tool row is inserted live. */
  lemma ToolRowsLive(categories: seq<Category>, tools: seq<SourceTool>, parse: SlugParser)
    ensures CountWhere(ToolRows(categories, tools, parse), LiveTool) == |tools|
  {
    var rows := ToolRows(categories, tools, parse);
    forall k | 0 <= k < |rows| ensures LiveTool(rows[k]) {
      ToolRowsAt(categories, tools, parse, k);
    }
    CountWhereAll(rows, LiveTool);
  }

  /** The whole migration of acceptable data into empty tables: every stage
      succeeds, and verification passes exactly when every tool's category
      slug names a source category. */
  lemma MigrationOfMigratableData(s: Snapshot, st: Stats, data: SourceData, parse: SlugParser)
    requires EmptyTables(s) && Migratable(data, parse)
    ensures var c := AfterCategories(s, st, data, parse);
      var t := Batched(c.store, c.stats, data.tools, parse);
      c.error.None? && t.error.None? && (ChecksPass(t.store, data) <==> CategoriesResolve(data, parse))
  {
    MigratableDataMigrates(s, st, data, parse);
    var c := AfterCategories(s, st, data, parse);
    MigratedRowsPassChecks(Batched(c.store, c.stats, data.tools, parse).store, data, parse);
  }

  // ---------------------------------------------------------------- the migration object

  datatype Stage = SiteConfigStage | CategoriesStage | ToolsStage | VerifyStage | ReportStage

  const AllStages: seq<Stage> := [SiteConfigStage, CategoriesStage, ToolsStage, VerifyStage, ReportStage]

  /** How `run` ends: the stages entered, the exit code passed to
      `process.exit` (none when it ends normally), and whether `close` ran. */
  datatype RunOutcome = RunOutcome(stages: seq<Stage>, exitCode: Option<int>, closed: bool)

  /** `DatabaseMigration` once `initDatabase` and `loadJsonData` have run. */
  class DatabaseMigration {
    var store: Snapshot
    const data: SourceData
    var stats: Stats
    var log: seq<LogEntry>

    /** `store` is the database as the schema leaves it; `data` the parsed JSON. */
    constructor(initial: Snapshot, data: SourceData)
      ensures store == initial && this.data == data && stats == Stats(0, 0, 0, 0) && log == []
    {
      store := initial;
      this.data := data;
      stats := Stats(0, 0, 0, 0);
      log := [];
    }

    /** `migrateSiteConfig`: its log row records the number of source keywords,
        however many of them were new. */
    method MigrateSiteConfig() returns (error: Option<JsError>)
      modifies this
      ensures store == SiteConfigMigrated(old(store), data.siteConfig) && stats == old(stats) && error.None?
      ensures log == old(log) + [LogEntry("site_config", Completed, Some(|data.siteConfig.keywords|), None)]
    {
      var logId := |log|;
      log := log + [LogEntry("site_config", Running, None, None)];
      if store.siteConfig.Some? {
        store := store.(siteConfig := Some(SiteConfig(data.siteConfig.siteName, data.siteConfig.description)));
      }
      var keywords := store.keywords;
      var i := 0;
      while i < |data.siteConfig.keywords|
        invariant 0 <= i <= |data.siteConfig.keywords|
        invariant keywords == KeywordsInserted(store.keywords, data.siteConfig.keywords[..i])
      {
        assert data.siteConfig.keywords[..i + 1][..i] == data.siteConfig.keywords[..i];
        if data.siteConfig.keywords[i] !in keywords {
          keywords := keywords + [data.siteConfig.keywords[i]];
        }
        i := i + 1;
      }
      assert data.siteConfig.keywords[..i] == data.siteConfig.keywords;
      store := store.(keywords := keywords);
      log := log[logId := LogEntry("site_config", Completed, Some(|data.siteConfig.keywords|), None)];
      error := None;
    }

    /** `migrateCategories`: one transaction over all categories. On success
        the log row records the category counter; on failure the categories
        are rolled back, the log row records the message, and the error is rethrown. */
    method MigrateCategories() returns (error: Option<JsError>)
      modifies this
      ensures var p := CategoriesFrom(old(store), old(stats), data.categories, 0, ExtractLegacyId);
        error == p.error && stats == p.stats && store == (if error.Some? then old(store) else p.store)
      ensures log == old(log) + [if error.None? then LogEntry("categories", Completed, Some(stats.categories), None)
                                 else LogEntry("categories", Failed, None, error.value.message)]
    {
      var logId := |log|;
      log := log + [LogEntry("categories", Running, None, None)];
      var s := store;
      var st := stats;
      error := None;
      var i := 0;
      while i < |data.categories| && error.None?
        invariant 0 <= i <= |data.categories|
        invariant error.None? ==> CategoriesFrom(old(store), old(stats), data.categories, 0, ExtractLegacyId)
                                    == CategoriesFrom(s, st, data.categories, i, ExtractLegacyId)
        invariant error.Some? ==> CategoriesFrom(old(store), old(stats), data.categories, 0, ExtractLegacyId) == Progress(s, st, error)
        invariant store == old(store) && log == old(log) + [LogEntry("categories", Running, None, None)]
      {
        var p := CategoryStep(s, st, data.categories[i], i, ExtractLegacyId);
        s, st, error := p.store, p.stats, p.error;
        i := i + 1;
      }
      stats := st;
      if error.Some? {
        log := log[logId := LogEntry("categories", Failed, None, error.value.message)];
        return;
      }
      store := s;
      log := log[logId := LogEntry("categories", Completed, Some(stats.categories), None)];
    }

    /** `migrate(batch)`: the tools of one batch in one transaction. */
    method RunBatch(batch: seq<SourceTool>) returns (error: Option<JsError>)
      modifies this
      ensures Progress(store, stats, error) == Transaction(old(store), old(stats), batch, ExtractLegacyId)
      ensures log == old(log)
    {
      var saved := store;
      error := None;
      var i := 0;
      while i < |batch|
        invariant 0 <= i <= |batch|
        invariant ToolsRun(saved, old(stats), batch, ExtractLegacyId) == ToolsRun(store, stats, batch[i..], ExtractLegacyId)
        invariant log == old(log)
      {
        assert batch[i..][0] == batch[i] && batch[i..][1..] == batch[i + 1..];
        var p := ToolStep(store, stats, batch[i], ExtractLegacyId);
        store, stats := p.store, p.stats;
        if p.error.Some? {
          store := saved;
          error := p.error;
          return;
        }
        i := i + 1;
      }
    }

    /** `migrateToolsAndTags`: the tools in slices of `BatchSize`, one
        transaction each. On success the log row records the tool counter; on
        failure the earlier batches stay, the log row records the message, and
        the error is rethrown. */
    method MigrateToolsAndTags() returns (error: Option<JsError>)
      modifies this
      ensures Progress(store, stats, error) == Batched(old(store), old(stats), data.tools, ExtractLegacyId)
      ensures log == old(log) + [if error.None? then LogEntry("tools_and_tags", Completed, Some(stats.tools), None)
                                 else LogEntry("tools_and_tags", Failed, None, error.value.message)]
    {
      var logId := |log|;
      log := log + [LogEntry("tools_and_tags", Running, None, None)];
      error := RunBatches();
      if error.Some? {
        log := log[logId := LogEntry("tools_and_tags", Failed, None, error.value.message)];
      } else {
        log := log[logId := LogEntry("tools_and_tags", Completed, Some(stats.tools), None)];
      }
    }

    /** The loop over the slices, stopping at the first batch that fails. */
    method RunBatches() returns (error: Option<JsError>)
      modifies this
      ensures Progress(store, stats, error) == Batched(old(store), old(stats), data.tools, ExtractLegacyId)
      ensures log == old(log)
    {
      error := None;
      var i := 0;
      assert data.tools[i..] == data.tools;
      while i < |data.tools|
        invariant 0 <= i <= |data.tools|
        invariant Batched(old(store), old(stats), data.tools, ExtractLegacyId)
                    == Batched(store, stats, data.tools[i..], ExtractLegacyId)
        invariant log == old(log)
        invariant error.None?
      {
        // The slice ends at `i + BatchSize` or at the end of the list; stepping
        // to its end is stepping by `BatchSize` for every slice but the last.
        var n := Min(BatchSize, |data.tools| - i);
        ghost var (s0, st0) := (store, stats);
        error := RunBatch(data.tools[i..i + n]);
        BatchDone(s0, st0, data.tools, i, ExtractLegacyId, store, stats, error);
        if error.Some? {
          return;
        }
        i := i + n;
      }
      assert data.tools[i..] == [];
    }

    /** `verify`: every check is evaluated; it throws exactly when one of them
        fails. It evaluates the corrected `Checks`, whose reference check also
        counts a tool left without a category; `ChecksAsWritten` is the
        script's `NOT IN` alone. */
    method Verify() returns (error: Option<JsError>)
      ensures error.Some? <==> !ChecksPass(store, data)
      ensures error.Some? ==> error == Some(VerificationFailed)
    {
      var checks := Checks(store, data);
      var allPassed := true;
      var i := 0;
      while i < |checks|
        invariant 0 <= i <= |checks|
        invariant allPassed <==> forall k :: 0 <= k < i ==> CheckPasses(store, data, k)
      {
        var passed := checks[i].count == checks[i].expected;
        assert passed == CheckPasses(store, data, i);
        if !passed {
          allPassed := false;
        }
        i := i + 1;
      }
      error := if allPassed then None else Some(VerificationFailed);
    }

    /** `run`: the stages in their fixed order. The first stage that throws
        ends the run with `process.exit(1)`, which stops the process before
        the `finally` block, so the connection is closed only after a run
        that succeeded. The report is printing only. Verification is the
        corrected one of `Verify`. */
    method Run() returns (outcome: RunOutcome)
      modifies this
      ensures 1 <= |outcome.stages| <= |AllStages| && outcome.stages == AllStages[..|outcome.stages|]
      ensures outcome.closed <==> outcome.exitCode.None?
      ensures outcome.exitCode.None? <==> outcome.stages == AllStages
      ensures outcome.exitCode.Some? ==> outcome.exitCode == Some(1)
      ensures EmptyTables(old(store)) && Migratable(data, ExtractLegacyId) ==>
        (outcome.exitCode.None? <==> CategoriesResolve(data, ExtractLegacyId))
    {
      if EmptyTables(store) && Migratable(data, ExtractLegacyId) {
        MigrationOfMigratableData(store, stats, data, ExtractLegacyId);
      }
      var reached := 1;
      var e := MigrateSiteConfig();
      if e.None? {
        reached := 2;
        e := MigrateCategories();
      }
      if e.None? {
        reached := 3;
        e := MigrateToolsAndTags();
      }
      if e.None? {
        reached := 4;
        e := Verify();
      }
      if e.None? {
        reached := 5;
      }
      outcome := RunOutcome(AllStages[..reached], if e.None? then None else Some(1), e.None?);
    }
  }
}
