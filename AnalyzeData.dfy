/** The pre-migration analysis of the settings file (scripts/analyze-data.js):
    the tag union, the flag counts, the tools per category, and the checks for
    orphan tools, duplicate ids and missing fields, in the order the script
    stops at them. Reading the file and the console report are left out; what
    the script decides is the `verdict`. */
module AnalyzeData {
  import opened Common

  /** A property of an entry: absent, or a JSON scalar. Equality is the
      script's `===`, `Set` and `Map` key equality alike, since a JSON file
      holds no `NaN`. */
  datatype Field = Absent | Null | Bool(b: bool) | Num(n: int) | Str(s: string)

  predicate Truthy(f: Field) {
    match f
    case Absent => false
    case Null => false
    case Bool(b) => b
    case Num(n) => n != 0
    case Str(s) => s != ""
  }

  /** A tool of the file; `tags` is `None` when it is not an array. */
  datatype ToolEntry = ToolEntry(id: Field, name: Field, categoryId: Field, isFeatured: Field, isNew: Field, tags: Option<seq<string>>)

  datatype CategoryEntry = CategoryEntry(id: Field, name: Field, icon: Field)

  datatype Data = Data(categories: seq<CategoryEntry>, tools: seq<ToolEntry>, keywords: seq<string>)

  /** Where the script stops: at the first failing check (exit status 1), or
      with every check passed and the estimated number of records. */
  datatype Verdict =
    | OrphanTools(orphans: seq<ToolEntry>)
    | DuplicateToolIds(toolIds: seq<Field>)
    | DuplicateCategoryIds(categoryIds: seq<Field>)
    | MissingFields
    | Ready(totalRecords: nat)

  /** What the script computes. */
  datatype Report = Report(uniqueTags: set<string>, featuredCount: nat, newCount: nat,
                           distribution: map<Field, nat>, verdict: Verdict)

  // ---------------------------------------------------------------- tags

  /** The tags of every tool whose `tags` is an array. */
  function TagUnion(tools: seq<ToolEntry>): set<string> {
    if tools == [] then {}
    else
      var last := tools[|tools| - 1];
      TagUnion(tools[..|tools| - 1]) + (if last.tags.Some? then set t | t in last.tags.value else {})
  }

  /** A tag is in the union exactly when some array-valued `tags` holds it. */
  lemma {:induction false} TagUnionMembers(tools: seq<ToolEntry>)
    ensures forall t :: t in TagUnion(tools) <==> exists i :: 0 <= i < |tools| && tools[i].tags.Some? && t in tools[i].tags.value
  {
    if tools != [] {
      var init := tools[..|tools| - 1];
      TagUnionMembers(init);
      assert forall i :: 0 <= i < |init| ==> init[i] == tools[i];
    }
  }

  // ---------------------------------------------------------------- counting

  predicate IsFeatured(t: ToolEntry) { Truthy(t.isFeatured) }
  predicate IsNew(t: ToolEntry) { Truthy(t.isNew) }

  /** `tools.filter(p)` */
  function Filter(tools: seq<ToolEntry>, p: ToolEntry -> bool): (r: seq<ToolEntry>)
    ensures |r| <= |tools|
    ensures forall x :: x in r ==> x in tools && p(x)
  {
    if tools == [] then []
    else
      var rest := Filter(tools[..|tools| - 1], p);
      if p(tools[|tools| - 1]) then rest + [tools[|tools| - 1]] else rest
  }

  /** The number of tools with the property. */
  function Count(tools: seq<ToolEntry>, p: ToolEntry -> bool): nat {
    if tools == [] then 0
    else Count(tools[..|tools| - 1], p) + (if p(tools[|tools| - 1]) then 1 else 0)
  }

  /** `filter(p).length` counts exactly the tools with the property, and the
      filter keeps every such tool. */
  lemma {:induction false} FilterCounts(tools: seq<ToolEntry>, p: ToolEntry -> bool)
    ensures |Filter(tools, p)| == Count(tools, p)
    ensures forall x :: x in tools && p(x) ==> x in Filter(tools, p)
  {
    if tools != [] {
      FilterCounts(tools[..|tools| - 1], p);
      assert forall x :: x in tools ==> x in tools[..|tools| - 1] || x == tools[|tools| - 1];
    }
  }

  /** A tool counts for a category when its `categoryId` is that id. */
  function InCategory(id: Field): ToolEntry -> bool {
    (t: ToolEntry) => t.categoryId == id
  }

  /** `new Set(data.categories.map(c => c.id))` */
  function CategoryIds(categories: seq<CategoryEntry>): set<Field> {
    set i | 0 <= i < |categories| :: categories[i].id
  }

  predicate IsOrphan(ids: set<Field>, t: ToolEntry) { t.categoryId !in ids }

  /** `data.tools.filter(t => !categoryIds.has(t.categoryId))` */
  function Orphans(data: Data): seq<ToolEntry> {
    var ids := CategoryIds(data.categories);
    Filter(data.tools, (t: ToolEntry) => IsOrphan(ids, t))
  }

  /** Every tool's category id is the id of some category. */
  predicate EveryToolCategorized(data: Data) {
    forall i :: 0 <= i < |data.tools| ==> exists j :: 0 <= j < |data.categories| && data.categories[j].id == data.tools[i].categoryId
  }

  /** The orphans are exactly the tools whose category id is no category's id. */
  lemma OrphansSpec(data: Data)
    ensures forall t :: t in Orphans(data) <==>
      t in data.tools && forall j :: 0 <= j < |data.categories| ==> data.categories[j].id != t.categoryId
    ensures Orphans(data) == [] <==> EveryToolCategorized(data)
  {
    var ids := CategoryIds(data.categories);
    FilterCounts(data.tools, (t: ToolEntry) => IsOrphan(ids, t));
    if Orphans(data) == [] {
      forall i | 0 <= i < |data.tools|
        ensures exists j :: 0 <= j < |data.categories| && data.categories[j].id == data.tools[i].categoryId
      {
        assert data.tools[i] in data.tools;
      }
    } else {
      assert Orphans(data)[0] in Orphans(data);
    }
  }

  // ---------------------------------------------------------------- duplicates

  /** `ids.indexOf(x)`: the first index holding `x`, or `|ids|` for -1. */
  function IndexOf(ids: seq<Field>, x: Field): (r: nat)
    ensures r <= |ids|
    ensures r < |ids| ==> ids[r] == x
    ensures forall k :: 0 <= k < r ==> ids[k] != x
  {
    if ids == [] then 0
    else if ids[0] == x then 0
    else 1 + IndexOf(ids[1..], x)
  }

  /** `ids.filter((id, index) => ids.indexOf(id) !== index)`, over the indices below `n`. */
  function DuplicatesUpTo(ids: seq<Field>, n: nat): (r: seq<Field>)
    requires n <= |ids|
    ensures |r| <= n
  {
    if n == 0 then []
    else
      var rest := DuplicatesUpTo(ids, n - 1);
      if IndexOf(ids, ids[n - 1]) != n - 1 then rest + [ids[n - 1]] else rest
  }

  function Duplicates(ids: seq<Field>): seq<Field> {
    DuplicatesUpTo(ids, |ids|)
  }

  predicate Distinct(ids: seq<Field>) {
    forall i, j :: 0 <= i < j < |ids| ==> ids[i] != ids[j]
  }

  /** Every later occurrence of a value is listed, so the list is empty
      exactly when the ids are pairwise distinct. */
  lemma {:induction false} DuplicatesUpToEmpty(ids: seq<Field>, n: nat)
    requires n <= |ids|
    ensures DuplicatesUpTo(ids, n) == [] <==> forall i, j :: 0 <= i < j < n ==> ids[i] != ids[j]
  {
    if n > 0 {
      DuplicatesUpToEmpty(ids, n - 1);
      var k := IndexOf(ids, ids[n - 1]);
      if k != n - 1 {
        assert k < n - 1;
      }
    }
  }

  lemma DuplicatesEmpty(ids: seq<Field>)
    ensures Duplicates(ids) == [] <==> Distinct(ids)
  {
    DuplicatesUpToEmpty(ids, |ids|);
  }

  function ToolIdsUpTo(tools: seq<ToolEntry>): (r: seq<Field>)
    ensures |r| == |tools| && forall i :: 0 <= i < |tools| ==> r[i] == tools[i].id
  {
    seq(|tools|, i requires 0 <= i < |tools| => tools[i].id)
  }

  function CategoryIdList(categories: seq<CategoryEntry>): (r: seq<Field>)
    ensures |r| == |categories| && forall i :: 0 <= i < |categories| ==> r[i] == categories[i].id
  {
    seq(|categories|, i requires 0 <= i < |categories| => categories[i].id)
  }

  // ---------------------------------------------------------------- required fields

  predicate ToolIncomplete(t: ToolEntry) {
    !Truthy(t.id) || !Truthy(t.name) || !Truthy(t.categoryId)
  }

  predicate CategoryIncomplete(c: CategoryEntry) {
    !Truthy(c.id) || !Truthy(c.name) || !Truthy(c.icon)
  }

  predicate HasIncomplete(data: Data) {
    (exists i :: 0 <= i < |data.tools| && ToolIncomplete(data.tools[i]))
    || (exists i :: 0 <= i < |data.categories| && CategoryIncomplete(data.categories[i]))
  }

  // ---------------------------------------------------------------- the verdict

  /** The checks in the script's order; the first failing one decides. */
  function VerdictOf(data: Data): Verdict {
    var orphans := Orphans(data);
    var duplicateTools := Duplicates(ToolIdsUpTo(data.tools));
    var duplicateCategories := Duplicates(CategoryIdList(data.categories));
    if orphans != [] then OrphanTools(orphans)
    else if duplicateTools != [] then DuplicateToolIds(duplicateTools)
    else if duplicateCategories != [] then DuplicateCategoryIds(duplicateCategories)
    else if HasIncomplete(data) then MissingFields
    else Ready(|data.categories| + |data.tools| + |TagUnion(data.tools)| + |data.keywords|)
  }

  /** The data is ready for migration exactly when every tool names an
      existing category, no tool id and no category id repeats, and no entry
      lacks a required field; the estimate counts categories, tools, distinct
      tags and keywords. */
  lemma VerdictSpec(data: Data)
    ensures VerdictOf(data).Ready? <==>
      EveryToolCategorized(data) && Distinct(ToolIdsUpTo(data.tools)) && Distinct(CategoryIdList(data.categories))
      && !HasIncomplete(data)
    ensures VerdictOf(data).Ready? ==>
      VerdictOf(data).totalRecords == |data.categories| + |data.tools| + |TagUnion(data.tools)| + |data.keywords|
  {
    OrphansSpec(data);
    DuplicatesEmpty(ToolIdsUpTo(data.tools));
    DuplicatesEmpty(CategoryIdList(data.categories));
  }

  // ---------------------------------------------------------------- the script

  /** The script's loops: the tag set, the category map and the `hasError`
      flag, then the checks in order. */
  method Analyze(data: Data) returns (report: Report)
    ensures report.uniqueTags == TagUnion(data.tools)
    ensures report.featuredCount == Count(data.tools, IsFeatured) && report.newCount == Count(data.tools, IsNew)
    ensures report.distribution.Keys == CategoryIds(data.categories)
    ensures forall id :: id in report.distribution ==> report.distribution[id] == Count(data.tools, InCategory(id))
    ensures report.verdict == VerdictOf(data)
  {
    var tags := TagSet(data.tools);
    FilterCounts(data.tools, IsFeatured);
    FilterCounts(data.tools, IsNew);
    var featuredCount := |Filter(data.tools, IsFeatured)|;
    var newCount := |Filter(data.tools, IsNew)|;
    var categoryMap := CategoryMap(data);
    var hasError := CheckFields(data);

    var verdict: Verdict;
    var orphans := Orphans(data);
    var duplicateTools := Duplicates(ToolIdsUpTo(data.tools));
    var duplicateCategories := Duplicates(CategoryIdList(data.categories));
    if |orphans| > 0 {
      verdict := OrphanTools(orphans);
    } else if |duplicateTools| > 0 {
      verdict := DuplicateToolIds(duplicateTools);
    } else if |duplicateCategories| > 0 {
      verdict := DuplicateCategoryIds(duplicateCategories);
    } else if hasError {
      verdict := MissingFields;
    } else {
      verdict := Ready(|data.categories| + |data.tools| + |tags| + |data.keywords|);
    }
    report := Report(tags, featuredCount, newCount, categoryMap, verdict);
  }

  /** `allTags`: the loop adding the tags of every array-valued `tags`. */
  method TagSet(tools: seq<ToolEntry>) returns (tags: set<string>)
    ensures tags == TagUnion(tools)
  {
    tags := {};
    var i := 0;
    while i < |tools|
      invariant 0 <= i <= |tools|
      invariant tags == TagUnion(tools[..i])
    {
      assert tools[..i + 1][..i] == tools[..i];
      if tools[i].tags.Some? {
        tags := tags + set t | t in tools[i].tags.value;
      }
      i := i + 1;
    }
    assert tools[..i] == tools;
  }

  /** The `hasError` flag: set by any tool or category lacking a required field. */
  method CheckFields(data: Data) returns (hasError: bool)
    ensures hasError == HasIncomplete(data)
  {
    hasError := false;
    var i := 0;
    while i < |data.tools|
      invariant 0 <= i <= |data.tools|
      invariant hasError <==> exists k :: 0 <= k < i && ToolIncomplete(data.tools[k])
    {
      if !Truthy(data.tools[i].id) { hasError := true; }
      if !Truthy(data.tools[i].name) { hasError := true; }
      if !Truthy(data.tools[i].categoryId) { hasError := true; }
      i := i + 1;
    }
    i := 0;
    while i < |data.categories|
      invariant 0 <= i <= |data.categories|
      invariant hasError <==>
        (exists k :: 0 <= k < |data.tools| && ToolIncomplete(data.tools[k]))
        || (exists k :: 0 <= k < i && CategoryIncomplete(data.categories[k]))
    {
      if !Truthy(data.categories[i].id) { hasError := true; }
      if !Truthy(data.categories[i].name) { hasError := true; }
      if !Truthy(data.categories[i].icon) { hasError := true; }
      i := i + 1;
    }
  }

  /** The category map: one zero entry per category id, then one increment per
      tool whose category id is a key. */
  method CategoryMap(data: Data) returns (counts: map<Field, nat>)
    ensures counts.Keys == CategoryIds(data.categories)
    ensures forall id :: id in counts ==> counts[id] == Count(data.tools, InCategory(id))
  {
    var zeros := ZeroCounts(data.categories);
    counts := CountTools(zeros, data.tools);
  }

  /** The first loop: a zero for every category id. */
  method ZeroCounts(categories: seq<CategoryEntry>) returns (counts: map<Field, nat>)
    ensures counts.Keys == CategoryIds(categories)
    ensures forall id :: id in counts ==> counts[id] == 0
  {
    counts := map[];
    var i := 0;
    while i < |categories|
      invariant 0 <= i <= |categories|
      invariant counts.Keys == CategoryIds(categories[..i])
      invariant forall id :: id in counts ==> counts[id] == 0
    {
      assert CategoryIds(categories[..i + 1]) == CategoryIds(categories[..i]) + {categories[i].id} by {
        assert forall k :: 0 <= k < i ==> categories[..i + 1][k] == categories[..i][k];
      }
      counts := counts[categories[i].id := 0];
      i := i + 1;
    }
    assert categories[..i] == categories;
  }

  /** The second loop: each tool adds one to its category's entry, if there is one. */
  method CountTools(zeros: map<Field, nat>, tools: seq<ToolEntry>) returns (counts: map<Field, nat>)
    requires forall id :: id in zeros ==> zeros[id] == 0
    ensures counts.Keys == zeros.Keys
    ensures forall id :: id in counts ==> counts[id] == Count(tools, InCategory(id))
  {
    counts := zeros;
    var i := 0;
    while i < |tools|
      invariant 0 <= i <= |tools|
      invariant counts.Keys == zeros.Keys
      invariant forall id :: id in counts ==> counts[id] == Count(tools[..i], InCategory(id))
    {
      var id := tools[i].categoryId;
      if id in counts {
        counts := counts[id := counts[id] + 1];
      }
      forall c | c in counts ensures counts[c] == Count(tools[..i + 1], InCategory(c)) {
        CountStep(tools, i, c);
      }
      i := i + 1;
    }
    assert tools[..i] == tools;
  }

  /** One more tool adds one to the count of its category and nothing to the others. */
  lemma CountStep(tools: seq<ToolEntry>, i: nat, id: Field)
    requires i < |tools|
    ensures Count(tools[..i + 1], InCategory(id)) == Count(tools[..i], InCategory(id)) + (if tools[i].categoryId == id then 1 else 0)
  {
    assert tools[..i + 1][..i] == tools[..i];
  }
}
