/** The full-text index of the catalogue (scripts/add-fts-index.js): the SQL
    comment stripper, the `tools_fts` table as a map from a tool's
    rowid to its four indexed columns, the initial sync, the five triggers that
    keep the index in step with `tools` and `tool_tags`, the trigger-creation
    loop and the final count check.

    The triggers are AFTER triggers: each one sees the store as it is once the
    statement that fired it has run. */
module SearchIndex {
  import opened Common
  import opened Text
  import opened Db

  // ---------------------------------------------------------------- the comment stripper

  /** A closing star-slash pair starts at position `k`. */
  predicate CloserAt(s: string, k: int) {
    0 <= k && k + 1 < |s| && s[k] == '*' && s[k + 1] == '/'
  }

  /** An opening slash-star pair starts at position `k`. */
  predicate OpenerAt(s: string, k: int) {
    0 <= k && k + 1 < |s| && s[k] == '/' && s[k + 1] == '*'
  }

  // The first `*/` that starts at or after position `i`.
  function CloseFrom(s: string, i: nat): (r: Option<nat>)
    ensures r.Some? ==> i <= r.value && CloserAt(s, r.value)
    ensures r.Some? ==> forall k :: i <= k < r.value ==> !CloserAt(s, k)
    ensures r.None? ==> forall k :: i <= k ==> !CloserAt(s, k)
    decreases |s| - i
  {
    if i + 2 > |s| then None
    else if CloserAt(s, i) then Some(i)
    else CloseFrom(s, i + 1)
  }

  // `s.replace(/\/\*[\s\S]*?\*\//g, '')`: every `/* … */` block, shortest
  // match first, is removed, scanning left to right without rescanning what
  // a removal joins together. An opener with no later `*/` stays, and so
  // does the rest of the text.
  function StripBlockComments(s: string): (r: string)
    ensures |r| <= |s|
    decreases |s|
  {
    if |s| < 2 then s
    else if OpenerAt(s, 0) then
      match CloseFrom(s, 2)
      case Some(j) => StripBlockComments(s[j + 2..])
      case None => s
    else [s[0]] + StripBlockComments(s[1..])
  }

  predicate NoOpener(s: string) {
    forall i :: 0 <= i < |s| ==> !OpenerAt(s, i)
  }

  predicate NoCloser(s: string) {
    forall i :: 0 <= i < |s| ==> !CloserAt(s, i)
  }

  // Text without a `/*` is left as it is.
  lemma {:induction false} StripNoOpener(s: string)
    requires NoOpener(s)
    ensures StripBlockComments(s) == s
  {
    if |s| >= 2 {
      assert !OpenerAt(s, 0);
      assert NoOpener(s[1..]) by {
        forall i | 0 <= i < |s[1..]| ensures !OpenerAt(s[1..], i) {
          assert !OpenerAt(s, i + 1);
        }
      }
      StripNoOpener(s[1..]);
    }
  }

  /** A comment written after text with no `/` is removed, and the text after
      it is stripped in turn. */
  lemma StripRemovesComment(a: string, body: string, b: string)
    requires '/' !in a
    requires NoCloser(body)
    ensures StripBlockComments(a + "/*" + body + "*/" + b) == a + StripBlockComments(b)
  {
    var c := "/*" + body + "*/" + b;
    StripLeadingComment(body, b);
    StripPlainPrefix(a, c);
    assert a + "/*" + body + "*/" + b == a + c;
  }

  // Text with no slash before an opener passes through unchanged.
  lemma {:induction false} StripPlainPrefix(a: string, c: string)
    requires '/' !in a
    requires |c| >= 2 && OpenerAt(c, 0)
    ensures StripBlockComments(a + c) == a + StripBlockComments(c)
  {
    if a != [] {
      var s := a + c;
      assert s[0] == a[0];
      assert !OpenerAt(s, 0);
      assert s[1..] == a[1..] + c;
      StripPlainPrefix(a[1..], c);
      assert [a[0]] + (a[1..] + StripBlockComments(c)) == a + StripBlockComments(c);
    } else {
      assert a + c == c;
    }
  }

  lemma StripLeadingComment(body: string, b: string)
    requires NoCloser(body)
    ensures StripBlockComments("/*" + body + "*/" + b) == StripBlockComments(b)
  {
    var s := "/*" + body + "*/" + b;
    var j := |body| + 2;
    assert OpenerAt(s, 0);
    assert CloserAt(s, j);
    forall k | 2 <= k < j ensures !CloserAt(s, k) {
      assert s[k] == body[k - 2];
      if k + 1 < j {
        assert s[k + 1] == body[k - 1];
        assert !CloserAt(body, k - 2);
      } else {
        assert s[k + 1] == '*';
      }
    }
    CloseFromFirst(s, 2, j);
    assert s[j + 2..] == b;
  }

  lemma {:induction false} CloseFromFirst(s: string, i: nat, j: nat)
    requires i <= j && CloserAt(s, j)
    requires forall k :: i <= k < j ==> !CloserAt(s, k)
    ensures CloseFrom(s, i) == Some(j)
    decreases j - i
  {
    if i < j {
      CloseFromFirst(s, i + 1, j);
    }
  }

  predicate IsCommentLine(line: string) {
    StartsWith(Trim(line), "--")
  }

  /** `.filter(line => !line.trim().startsWith('--'))` */
  function KeptLines(lines: seq<string>): (r: seq<string>)
    ensures |r| <= |lines|
    ensures forall k :: 0 <= k < |r| ==> !IsCommentLine(r[k]) && r[k] in lines
  {
    if lines == [] then []
    else
      var rest := KeptLines(lines[..|lines| - 1]);
      var last := lines[|lines| - 1];
      assert lines == lines[..|lines| - 1] + [last];
      rest + (if IsCommentLine(last) then [] else [last])
  }

  /** The kept lines are the lines in their order, each line that is not a
      comment as often as it occurs, and no comment line. */
  lemma KeptLinesSpec(lines: seq<string>)
    ensures Subsequence(KeptLines(lines), lines)
    ensures forall x :: multiset(KeptLines(lines))[x] == if IsCommentLine(x) then 0 else multiset(lines)[x]
  {
    KeptLinesOrdered(lines);
    forall x ensures multiset(KeptLines(lines))[x] == if IsCommentLine(x) then 0 else multiset(lines)[x] {
      KeptLinesCount(lines, x);
    }
  }

  lemma {:induction false} KeptLinesOrdered(lines: seq<string>)
    ensures Subsequence(KeptLines(lines), lines)
  {
    if lines != [] {
      var init := lines[..|lines| - 1];
      var last := lines[|lines| - 1];
      var tail := if IsCommentLine(last) then [] else [last];
      assert lines == init + [last];
      KeptLinesOrdered(init);
      assert KeptLines(lines) == KeptLines(init) + tail;
      assert Subsequence(tail, [last]);
      SubsequenceAppend(KeptLines(init), init, tail, [last]);
    }
  }

  lemma {:induction false} KeptLinesCount(lines: seq<string>, x: string)
    ensures multiset(KeptLines(lines))[x] == if IsCommentLine(x) then 0 else multiset(lines)[x]
  {
    if lines != [] {
      var init := lines[..|lines| - 1];
      var last := lines[|lines| - 1];
      var tail := if IsCommentLine(last) then [] else [last];
      assert lines == init + [last];
      KeptLinesCount(init, x);
      assert KeptLines(lines) == KeptLines(init) + tail;
      assert multiset(lines) == multiset(init) + multiset{last};
      assert multiset(KeptLines(lines)) == multiset(KeptLines(init)) + multiset(tail);
    }
  }

  /** Every line that is not a comment line is kept. */
  lemma {:induction false} KeptLinesComplete(lines: seq<string>, line: string)
    requires line in lines && !IsCommentLine(line)
    ensures line in KeptLines(lines)
  {
    var init := lines[..|lines| - 1];
    var last := lines[|lines| - 1];
    assert lines == init + [last];
    if line != last {
      KeptLinesComplete(init, line);
    }
  }

  lemma {:induction false} KeptLinesAll(lines: seq<string>)
    requires forall k :: 0 <= k < |lines| ==> !IsCommentLine(lines[k])
    ensures KeptLines(lines) == lines
  {
    if lines != [] {
      var init := lines[..|lines| - 1];
      assert lines == init + [lines[|lines| - 1]];
      KeptLinesAll(init);
    }
  }

  /** `cleanedSql`: block comments removed, then `--` lines dropped. */
  function CleanSql(sql: string): string {
    Join(KeptLines(Split(StripBlockComments(sql), '\n')), "\n")
  }

  /** No line of the cleaned text is a `--` comment line. */
  lemma CleanSqlHasNoCommentLine(sql: string)
    ensures forall k :: 0 <= k < |Split(CleanSql(sql), '\n')| ==> !IsCommentLine(Split(CleanSql(sql), '\n')[k])
  {
    var lines := Split(StripBlockComments(sql), '\n');
    var kept := KeptLines(lines);
    if kept == [] {
      assert CleanSql(sql) == "";
      assert Split("", '\n') == [""];
      assert Trim("") == "";
    } else {
      KeptHaveNoNewline(lines, kept);
      SplitJoin(kept, '\n');
    }
  }

  lemma KeptHaveNoNewline(lines: seq<string>, kept: seq<string>)
    requires forall k :: 0 <= k < |lines| ==> '\n' !in lines[k]
    requires forall k :: 0 <= k < |kept| ==> kept[k] in lines
    ensures forall k :: 0 <= k < |kept| ==> '\n' !in kept[k]
  {
    forall k | 0 <= k < |kept| ensures '\n' !in kept[k] {
      var j :| 0 <= j < |lines| && lines[j] == kept[k];
    }
  }

  // Text with no `/*` and no `--` line is left exactly as it is.
  lemma CleanSqlKeepsPlainText(sql: string)
    requires NoOpener(sql)
    requires forall k :: 0 <= k < |Split(sql, '\n')| ==> !IsCommentLine(Split(sql, '\n')[k])
    ensures CleanSql(sql) == sql
  {
    StripNoOpener(sql);
    KeptLinesAll(Split(sql, '\n'));
    JoinSplit(sql, '\n');
  }

  // ---------------------------------------------------------------- the index

  /** A row of `tools_fts`: name, description, tags and category_name. */
  datatype IndexRow = IndexRow(name: string, description: string, tags: string, categoryName: string)

  /** `COALESCE(c.name, '')` over `LEFT JOIN categories c ON t.category_id = c.id`:
      the category's name whether or not it is deleted, or '' when there is none. */
  function CategoryNameOf(s: Snapshot, t: Tool): string {
    if t.categoryId.Some? && HasCategory(s, t.categoryId.value) then CategoryOf(s, t.categoryId.value).name else ""
  }

  /** The index row every insert into `tools_fts` computes for tool `id`: the
      description or '', the tag names joined by spaces or '' (an empty
      `GROUP_CONCAT` is NULL), and the category name or ''. */
  function Derived(s: Snapshot, id: nat): (r: IndexRow)
    requires HasTool(s, id)
    ensures r.name == ToolOf(s, id).name
    ensures r.description == ToolOf(s, id).description.GetOr("")
    ensures TagNamesOf(s, id) == [] ==> r.tags == ""
  {
    var t := ToolOf(s, id);
    IndexRow(t.name, t.description.GetOr(""), Join(TagNamesOf(s, id), " "), CategoryNameOf(s, t))
  }

  /** The ids the count check compares with: `SELECT COUNT(*) FROM tools WHERE is_deleted = 0`. */
  function ActiveIds(s: Snapshot): (r: set<nat>)
    ensures forall id: nat :: id in r <==> IsActiveTool(s, id)
  {
    set id: nat | 1 <= id <= |s.tools| && IsActiveTool(s, id)
  }

  /** The invariant the triggers aim at: one row per non-deleted tool, holding
      its derived columns, and no other row. */
  ghost predicate Synced(s: Snapshot, index: map<nat, IndexRow>) {
    (forall id: nat :: id in index <==> IsActiveTool(s, id)) &&
    (forall id: nat :: id in index ==> HasTool(s, id) && index[id] == Derived(s, id))
  }

  /** The rows the initial `INSERT OR REPLACE … WHERE t.is_deleted = 0` writes. */
  function SyncedRows(s: Snapshot): (r: map<nat, IndexRow>)
    ensures r.Keys == ActiveIds(s)
    ensures forall id :: id in r ==> HasTool(s, id) && r[id] == Derived(s, id)
  {
    map id | id in ActiveIds(s) :: Derived(s, id)
  }

  /** The initial sync replaces the row of every non-deleted tool; rows already
      in the table for other ids stay. The result is in sync exactly when the
      table held no row for a tool that is not active. */
  lemma InitialSyncSpec(s: Snapshot, index: map<nat, IndexRow>)
    ensures Synced(s, index + SyncedRows(s)) <==> forall id :: id in index ==> IsActiveTool(s, id)
    ensures Synced(s, SyncedRows(s))
  {
    var r := index + SyncedRows(s);
    if forall id :: id in index ==> IsActiveTool(s, id) {
      forall id: nat ensures id in r <==> IsActiveTool(s, id) {
        assert id in r <==> id in index || id in SyncedRows(s);
      }
    }
    if Synced(s, r) {
      forall id | id in index ensures IsActiveTool(s, id) {
        assert id in r;
      }
    }
  }

  /** In a synced index the count check sees as many rows as active tools. */
  lemma SyncedCountsAgree(s: Snapshot, index: map<nat, IndexRow>)
    requires Synced(s, index)
    ensures |index| == |ActiveIds(s)|
  {
    assert index.Keys == ActiveIds(s);
  }

  /** A row left for a tool that is not active breaks the invariant. */
  lemma StaleRowNotSynced(s: Snapshot, index: map<nat, IndexRow>, id: nat)
    requires id in index && !IsActiveTool(s, id)
    ensures !Synced(s, index)
  {
  }

  // ---------------------------------------------------------------- the triggers

  datatype Trigger = InsertTrigger | UpdateTrigger | DeleteTrigger | TagInsertTrigger | TagDeleteTrigger

  const AllTriggers: seq<Trigger> := [InsertTrigger, UpdateTrigger, DeleteTrigger, TagInsertTrigger, TagDeleteTrigger]

  function TriggerName(t: Trigger): string {
    match t
    case InsertTrigger => "tools_fts_insert"
    case UpdateTrigger => "tools_fts_update"
    case DeleteTrigger => "tools_fts_delete"
    case TagInsertTrigger => "tools_fts_tag_insert"
    case TagDeleteTrigger => "tools_fts_tag_delete"
  }

  function AllTriggerSet(): set<Trigger> {
    set t | t in AllTriggers
  }

  /** `tools_fts_insert`, after a tool row `id` was inserted: a row is added
      only when the new tool is not deleted. */
  function AfterToolInsert(index: map<nat, IndexRow>, installed: set<Trigger>, s: Snapshot, id: nat): map<nat, IndexRow>
    requires HasTool(s, id)
  {
    if InsertTrigger in installed && !ToolOf(s, id).isDeleted then index[id := Derived(s, id)] else index
  }

  /** `tools_fts_update` and `tools_fts_delete`, after tool row `id` was
      updated: a tool left active has its row deleted and inserted again
      (whatever column changed, the view count included); a deleted one loses its row. */
  function AfterToolUpdate(index: map<nat, IndexRow>, installed: set<Trigger>, s: Snapshot, id: nat): map<nat, IndexRow>
    requires HasTool(s, id)
  {
    if !ToolOf(s, id).isDeleted then
      if UpdateTrigger in installed then (index - {id})[id := Derived(s, id)] else index
    else
      if DeleteTrigger in installed then index - {id} else index
  }

  /** `tools_fts_tag_insert` / `tools_fts_tag_delete`, after a `tool_tags` row
      of `toolId` was inserted or deleted: the tool's row is deleted and, when
      the tool is not deleted, inserted again. */
  function AfterPairChange(index: map<nat, IndexRow>, trigger: Trigger, installed: set<Trigger>, s: Snapshot, toolId: nat): map<nat, IndexRow> {
    if trigger !in installed then index
    else if IsActiveTool(s, toolId) then (index - {toolId})[toolId := Derived(s, toolId)]
    else index - {toolId}
  }

  /** A pair trigger that is installed re-derives the row of its tool, so the
      index stays in sync when no other tool's row changed. */
  lemma PairChangeTransfer(s: Snapshot, index: map<nat, IndexRow>, trigger: Trigger, r: Snapshot, id: nat)
    requires Synced(s, index) && trigger in AllTriggerSet()
    requires forall x: nat :: x != id ==> (IsActiveTool(r, x) <==> IsActiveTool(s, x))
    requires forall x: nat :: x != id && IsActiveTool(s, x) && IsActiveTool(r, x) ==> Derived(r, x) == Derived(s, x)
    ensures Synced(r, AfterPairChange(index, trigger, AllTriggerSet(), r, id))
  {
    SyncedTransfer(s, index, r, AfterPairChange(index, trigger, AllTriggerSet(), r, id), id);
  }

  /** The step every invariant proof below shares: only tool `id` may have
      changed, and its row is right. */
  lemma SyncedTransfer(s: Snapshot, index: map<nat, IndexRow>, r: Snapshot, index2: map<nat, IndexRow>, id: nat)
    requires Synced(s, index)
    requires forall x: nat :: x != id ==> (IsActiveTool(r, x) <==> IsActiveTool(s, x))
    requires forall x: nat :: x != id && IsActiveTool(s, x) && IsActiveTool(r, x) ==> Derived(r, x) == Derived(s, x)
    requires forall x: nat :: x != id ==> (x in index2 <==> x in index)
    requires forall x: nat :: x != id && x in index && x in index2 ==> index2[x] == index[x]
    requires id in index2 <==> IsActiveTool(r, id)
    requires id in index2 ==> index2[id] == Derived(r, id)
    ensures Synced(r, index2)
  {
    forall x: nat | x in index2 ensures HasTool(r, x) && index2[x] == Derived(r, x) {
      if x != id {
        assert x in index && IsActiveTool(s, x);
      }
    }
  }

  /** The derived row of a tool depends only on that tool, the categories and its tag names. */
  lemma DerivedFrame(s: Snapshot, r: Snapshot, x: nat)
    requires HasTool(s, x) && HasTool(r, x)
    requires ToolOf(r, x) == ToolOf(s, x) && r.categories == s.categories && TagNamesOf(r, x) == TagNamesOf(s, x)
    ensures Derived(r, x) == Derived(s, x)
  {
  }

  /** With all triggers in place, a view-count increment keeps the index in sync. */
  lemma ViewCountKeepsSynced(s: Snapshot, index: map<nat, IndexRow>, id: int)
    requires Synced(s, index)
    ensures var r := ViewCountIncremented(s, id);
      Synced(r, if IsActiveTool(s, id) then AfterToolUpdate(index, AllTriggerSet(), r, id) else index)
  {
    var r := ViewCountIncremented(s, id);
    if IsActiveTool(s, id) {
      assert UpdateTrigger in AllTriggerSet() by { assert AllTriggers[1] == UpdateTrigger; }
      var index2 := AfterToolUpdate(index, AllTriggerSet(), r, id);
      forall x: nat | x != id && IsActiveTool(s, x) && IsActiveTool(r, x) ensures Derived(r, x) == Derived(s, x) {
        DerivedFrame(s, r, x);
      }
      SyncedTransfer(s, index, r, index2, id);
    }
  }

  /** With all triggers in place, soft deletion removes exactly that tool's row. */
  lemma SoftDeleteKeepsSynced(s: Snapshot, index: map<nat, IndexRow>, id: int)
    requires Synced(s, index)
    ensures var r := SoftDeleted(s, id);
      Synced(r, if IsActiveTool(s, id) then AfterToolUpdate(index, AllTriggerSet(), r, id) else index)
    ensures IsActiveTool(s, id) ==> id !in AfterToolUpdate(index, AllTriggerSet(), SoftDeleted(s, id), id)
  {
    var r := SoftDeleted(s, id);
    if IsActiveTool(s, id) {
      assert DeleteTrigger in AllTriggerSet() by { assert AllTriggers[2] == DeleteTrigger; }
      var index2 := AfterToolUpdate(index, AllTriggerSet(), r, id);
      forall x: nat | x != id && IsActiveTool(s, x) && IsActiveTool(r, x) ensures Derived(r, x) == Derived(s, x) {
        DerivedFrame(s, r, x);
      }
      SyncedTransfer(s, index, r, index2, id);
    }
  }

  /** With all triggers in place, `updateTool` keeps the index in sync: the
      statement runs only for a non-empty patch and fires only on a match. */
  lemma ToolUpdateKeepsSynced(s: Snapshot, index: map<nat, IndexRow>, id: int, p: ToolPatch)
    requires Synced(s, index)
    requires ToolUpdated(s, id, p).Ok?
    ensures var r := ToolUpdated(s, id, p).value;
      Synced(r, if !IsEmptyPatch(p) && IsActiveTool(s, id) then AfterToolUpdate(index, AllTriggerSet(), r, id) else index)
  {
    var r := ToolUpdated(s, id, p).value;
    if !IsEmptyPatch(p) && IsActiveTool(s, id) {
      assert UpdateTrigger in AllTriggerSet() by { assert AllTriggers[1] == UpdateTrigger; }
      assert DeleteTrigger in AllTriggerSet() by { assert AllTriggers[2] == DeleteTrigger; }
      var index2 := AfterToolUpdate(index, AllTriggerSet(), r, id);
      forall x: nat | x != id && IsActiveTool(s, x) && IsActiveTool(r, x) ensures Derived(r, x) == Derived(s, x) {
        DerivedFrame(s, r, x);
      }
      SyncedTransfer(s, index, r, index2, id);
    }
  }

  // ---------------------------------------------------------------- tag names under the tag writes

  lemma {:induction false} TagNamesRemovedOther(tags: seq<Tag>, pairs: seq<ToolTag>, p: ToolTag, x: int)
    requires p.toolId != x
    ensures TagNames(tags, PairRemoved(pairs, p), x) == TagNames(tags, pairs, x)
  {
    if pairs != [] {
      var last := pairs[|pairs| - 1];
      assert pairs == pairs[..|pairs| - 1] + [last];
      var rest := PairRemoved(pairs[..|pairs| - 1], p);
      TagNamesRemovedOther(tags, pairs[..|pairs| - 1], p, x);
      if last != p {
        assert PairRemoved(pairs, p) == rest + [last];
        assert (rest + [last])[..|rest|] == rest;
      } else {
        assert PairRemoved(pairs, p) == rest + [];
        assert rest + [] == rest;
      }
    }
  }

  lemma {:induction false} PairRemovedAbsent(pairs: seq<ToolTag>, p: ToolTag)
    requires p !in pairs
    ensures PairRemoved(pairs, p) == pairs
  {
    if pairs != [] {
      assert pairs == pairs[..|pairs| - 1] + [pairs[|pairs| - 1]];
      PairRemovedAbsent(pairs[..|pairs| - 1], p);
    }
  }

  /** Whether `addTagToTool`'s `INSERT OR IGNORE` adds a pair (and so fires `tools_fts_tag_insert`). */
  predicate PairAdded(s: Snapshot, toolId: nat, name: string) {
    var (s1, tagId) := TagFor(s, name);
    ToolTag(toolId, tagId) !in s1.toolTags
  }

  /** The index after `addTagToTool` on an existing tool. */
  function AfterTagAttached(index: map<nat, IndexRow>, installed: set<Trigger>, s: Snapshot, toolId: nat, name: string): map<nat, IndexRow> {
    if PairAdded(s, toolId, name) then AfterPairChange(index, TagInsertTrigger, installed, TagAttached(s, toolId, name), toolId) else index
  }

  /** With all triggers in place, attaching a tag keeps the index in sync; a
      newly created tag row changes no other tool's row. */
  lemma TagAttachKeepsSynced(s: Snapshot, index: map<nat, IndexRow>, toolId: nat, name: string)
    requires WellFormed(s) && HasTool(s, toolId) && Synced(s, index)
    ensures Synced(TagAttached(s, toolId, name), AfterTagAttached(index, AllTriggerSet(), s, toolId, name))
  {
    var r := TagAttached(s, toolId, name);
    var index2 := AfterTagAttached(index, AllTriggerSet(), s, toolId, name);
    forall x: nat | IsActiveTool(s, x) ensures TagNamesOf(TagFor(s, name).0, x) == TagNamesOf(s, x) {
      TagForKeepsNames(s, name, x);
    }
    if PairAdded(s, toolId, name) {
      PairAddedKeepsSynced(s, index, toolId, name);
    } else {
      var s1 := TagFor(s, name).0;
      assert r == s1;
      forall x: nat | IsActiveTool(s, x) ensures Derived(r, x) == Derived(s, x) {
        DerivedFrame(s, r, x);
      }
      PairChangeTransfer(s, index, TagDeleteTrigger, r, toolId);
    }
  }

  /** Finding or creating the tag changes no tool's tag names. */
  lemma TagForKeepsNames(s: Snapshot, name: string, x: int)
    requires WellFormed(s)
    ensures var s1 := TagFor(s, name).0;
      s1.tools == s.tools && s1.categories == s.categories && s1.toolTags == s.toolTags
      && TagNamesOf(s1, x) == TagNamesOf(s, x)
  {
    if FindTag(s, name).None? {
      TagNamesTagsGrow(s.tags, [Tag(name)], s.toolTags, x);
    }
  }

  /** A new pair re-derives the row of its tool only. */
  lemma PairAddedKeepsSynced(s: Snapshot, index: map<nat, IndexRow>, toolId: nat, name: string)
    requires WellFormed(s) && HasTool(s, toolId) && Synced(s, index) && PairAdded(s, toolId, name)
    requires forall x: nat :: IsActiveTool(s, x) ==> TagNamesOf(TagFor(s, name).0, x) == TagNamesOf(s, x)
    ensures Synced(TagAttached(s, toolId, name), AfterTagAttached(index, AllTriggerSet(), s, toolId, name))
  {
    var (s1, tagId) := TagFor(s, name);
    TagForKeepsNames(s, name, toolId);
    var r := TagAttached(s, toolId, name);
    assert r.toolTags == s1.toolTags + [ToolTag(toolId, tagId)];
    assert TagInsertTrigger in AllTriggerSet() by { assert AllTriggers[3] == TagInsertTrigger; }
    forall x: nat | x != toolId && IsActiveTool(s, x) && IsActiveTool(r, x) ensures Derived(r, x) == Derived(s, x) {
      TagNamesAppendOther(s1.tags, s1.toolTags, ToolTag(toolId, tagId), x);
      DerivedFrame(s, r, x);
    }
    PairChangeTransfer(s, index, TagInsertTrigger, r, toolId);
  }

  /** With all triggers in place, `removeTagFromTool` keeps the index in sync;
      the trigger fires only when a row was deleted. */
  lemma TagDissociateKeepsSynced(s: Snapshot, index: map<nat, IndexRow>, toolId: nat, tagId: nat)
    requires Synced(s, index)
    ensures var r := TagDissociated(s, toolId, tagId);
      Synced(r, if ToolTag(toolId, tagId) in s.toolTags then AfterPairChange(index, TagDeleteTrigger, AllTriggerSet(), r, toolId) else index)
  {
    var p := ToolTag(toolId, tagId);
    var r := TagDissociated(s, toolId, tagId);
    if p in s.toolTags {
      assert TagDeleteTrigger in AllTriggerSet() by { assert AllTriggers[4] == TagDeleteTrigger; }
      forall x: nat | x != toolId && IsActiveTool(s, x) && IsActiveTool(r, x) ensures Derived(r, x) == Derived(s, x) {
        TagNamesRemovedOther(s.tags, s.toolTags, p, x);
        DerivedFrame(s, r, x);
      }
      PairChangeTransfer(s, index, TagDeleteTrigger, r, toolId);
    } else {
      PairRemovedAbsent(s.toolTags, p);
      assert r == s;
    }
  }

  /** The index after the tag loop of `createTool`. */
  function AfterTagsAttached(index: map<nat, IndexRow>, installed: set<Trigger>, s: Snapshot, toolId: nat, names: seq<string>): map<nat, IndexRow> {
    if names == [] then index
    else
      AfterTagAttached(AfterTagsAttached(index, installed, s, toolId, names[..|names| - 1]), installed,
                       TagsAttached(s, toolId, names[..|names| - 1]), toolId, names[|names| - 1])
  }

  lemma {:induction false} TagsAttachKeepSynced(s: Snapshot, index: map<nat, IndexRow>, toolId: nat, names: seq<string>)
    requires WellFormed(s) && HasTool(s, toolId) && Synced(s, index)
    ensures Synced(TagsAttached(s, toolId, names), AfterTagsAttached(index, AllTriggerSet(), s, toolId, names))
  {
    if names != [] {
      var init := names[..|names| - 1];
      TagsAttachKeepSynced(s, index, toolId, init);
      TagsAttachedWellFormed(s, toolId, init);
      TagAttachKeepsSynced(TagsAttached(s, toolId, init), AfterTagsAttached(index, AllTriggerSet(), s, toolId, init), toolId, names[|names| - 1]);
    }
  }

  /** The index after `createTool`: the tool insert fires first, then each tag attached. */
  function AfterToolCreated(index: map<nat, IndexRow>, installed: set<Trigger>, s: Snapshot, input: NewTool, now: string): map<nat, IndexRow> {
    match FindActiveCategory(s, input.categoryLegacyId)
    case None => index
    case Some(categoryId) =>
      var s1 := ToolInserted(s, input, categoryId, now);
      var toolId := |s.tools| + 1;
      var names := if input.tags.Some? then input.tags.value else [];
      AfterTagsAttached(AfterToolInsert(index, installed, s1, toolId), installed, s1, toolId, names)
  }

  /** With all triggers in place, creating a tool keeps the index in sync; a
      failed creation changes neither the store nor the index. */
  lemma ToolCreateKeepsSynced(s: Snapshot, index: map<nat, IndexRow>, input: NewTool, now: string)
    requires WellFormed(s) && Synced(s, index)
    ensures match ToolCreated(s, input, now)
      case Ok((r, _)) => Synced(r, AfterToolCreated(index, AllTriggerSet(), s, input, now))
      case Err(_) => AfterToolCreated(index, AllTriggerSet(), s, input, now) == index
  {
    match FindActiveCategory(s, input.categoryLegacyId)
    case None =>
    case Some(categoryId) =>
      InsertAndTagsKeepSynced(s, index, input, categoryId, now);
  }

  /** The insert, then the tags attached one by one. */
  lemma InsertAndTagsKeepSynced(s: Snapshot, index: map<nat, IndexRow>, input: NewTool, categoryId: nat, now: string)
    requires WellFormed(s) && Synced(s, index) && HasCategory(s, categoryId)
    ensures var s1 := ToolInserted(s, input, categoryId, now);
      var names := if input.tags.Some? then input.tags.value else [];
      Synced(TagsAttached(s1, |s.tools| + 1, names),
             AfterTagsAttached(AfterToolInsert(index, AllTriggerSet(), s1, |s.tools| + 1), AllTriggerSet(), s1, |s.tools| + 1, names))
  {
    var s1 := ToolInserted(s, input, categoryId, now);
    var names := if input.tags.Some? then input.tags.value else [];
    ToolInsertKeepsSynced(s, index, input, categoryId, now);
    ToolInsertedWellFormed(s, input, categoryId, now);
    TagsAttachKeepSynced(s1, AfterToolInsert(index, AllTriggerSet(), s1, |s.tools| + 1), |s.tools| + 1, names);
  }

  /** The insert trigger adds the new tool's row and leaves the others in sync. */
  lemma ToolInsertKeepsSynced(s: Snapshot, index: map<nat, IndexRow>, input: NewTool, categoryId: nat, now: string)
    requires Synced(s, index)
    ensures var s1 := ToolInserted(s, input, categoryId, now);
      Synced(s1, AfterToolInsert(index, AllTriggerSet(), s1, |s.tools| + 1))
  {
    var s1 := ToolInserted(s, input, categoryId, now);
    var toolId := |s.tools| + 1;
    assert InsertTrigger in AllTriggerSet() by { assert AllTriggers[0] == InsertTrigger; }
    var index1 := AfterToolInsert(index, AllTriggerSet(), s1, toolId);
    forall x: nat | x != toolId && IsActiveTool(s, x) && IsActiveTool(s1, x) ensures Derived(s1, x) == Derived(s, x) {
      assert ToolOf(s1, x) == ToolOf(s, x);
      DerivedFrame(s, s1, x);
    }
    forall x: nat | x != toolId ensures IsActiveTool(s1, x) <==> IsActiveTool(s, x) {
      if HasTool(s, x) {
        assert ToolOf(s1, x) == ToolOf(s, x);
      }
    }
    SyncedTransfer(s, index, s1, index1, toolId);
  }

  // ---------------------------------------------------------------- creating the table and the triggers

  /** What reading `err.message.includes(...)` throws when the error has no message. */
  const IncludesOnUndefined := JsError("TypeError", None, Some("Cannot read properties of undefined (reading 'includes')"), None)

  /** The catch around a `CREATE … IF NOT EXISTS`: success and an error whose
      message mentions 'already exists' go on; any other error is thrown again. */
  function CreationThrown(outcome: Option<JsError>): (r: Option<JsError>)
    ensures r.None? <==> outcome.None? || (outcome.value.message.Some? && Contains(outcome.value.message.value, "already exists"))
    ensures r.Some? && outcome.value.message.Some? ==> r == outcome
  {
    match outcome
    case None => None
    case Some(e) =>
      match e.message
      case None => Some(IncludesOnUndefined)
      case Some(m) => if Contains(m, "already exists") then None else Some(e)
  }

  /** The state of the creation loop: `triggerCount`, the triggers in place, and what it threw. */
  datatype LoopState = LoopState(count: nat, installed: set<Trigger>, thrown: Option<JsError>)

  function CreationStep(st: LoopState, t: Trigger, outcome: Option<JsError>): LoopState {
    if st.thrown.Some? then st
    else if outcome.None? then LoopState(st.count + 1, st.installed + {t}, None)
    else LoopState(st.count, st.installed, CreationThrown(outcome))
  }

  /** The loop over the trigger list, `outcomes[k]` being what creating `ts[k]` does. */
  function CreationLoop(installed: set<Trigger>, ts: seq<Trigger>, outcomes: seq<Option<JsError>>): LoopState
    requires |ts| == |outcomes|
  {
    if ts == [] then LoopState(0, installed, None)
    else CreationStep(CreationLoop(installed, ts[..|ts| - 1], outcomes[..|ts| - 1]), ts[|ts| - 1], outcomes[|ts| - 1])
  }

  /** The number of creations that did not throw. */
  function Succeeded(outcomes: seq<Option<JsError>>): (r: nat)
    ensures r <= |outcomes|
  {
    if outcomes == [] then 0 else Succeeded(outcomes[..|outcomes| - 1]) + (if outcomes[|outcomes| - 1].None? then 1 else 0)
  }

  /** The loop throws exactly when some creation fails with an error other than
      'already exists', and then it throws the first such error. Otherwise
      `triggerCount` is the number of creations that succeeded, and those
      triggers are in place. */
  lemma CreationLoopSpec(installed: set<Trigger>, ts: seq<Trigger>, outcomes: seq<Option<JsError>>)
    requires |ts| == |outcomes|
    ensures var st := CreationLoop(installed, ts, outcomes);
      (st.thrown.None? <==> forall k :: 0 <= k < |ts| ==> CreationThrown(outcomes[k]).None?)
      && (st.thrown.Some? ==> exists k :: 0 <= k < |ts| && st.thrown == CreationThrown(outcomes[k])
                                 && forall j :: 0 <= j < k ==> CreationThrown(outcomes[j]).None?)
      && (st.thrown.None? ==> st.count == Succeeded(outcomes)
                                && forall k :: 0 <= k < |ts| && outcomes[k].None? ==> ts[k] in st.installed)
      && (forall t :: t in st.installed ==> t in installed || t in ts)
  {
    CreationLoopThrows(installed, ts, outcomes);
    CreationLoopInstalls(installed, ts, outcomes);
  }

  /** The error part: the loop throws the first error that is not 'already exists'. */
  lemma {:induction false} CreationLoopThrows(installed: set<Trigger>, ts: seq<Trigger>, outcomes: seq<Option<JsError>>)
    requires |ts| == |outcomes|
    ensures var st := CreationLoop(installed, ts, outcomes);
      (st.thrown.None? <==> forall k :: 0 <= k < |ts| ==> CreationThrown(outcomes[k]).None?)
      && (st.thrown.Some? ==> exists k :: 0 <= k < |ts| && st.thrown == CreationThrown(outcomes[k])
                                 && forall j :: 0 <= j < k ==> CreationThrown(outcomes[j]).None?)
  {
    if ts != [] {
      var n := |ts| - 1;
      assert forall k :: 0 <= k < n ==> outcomes[..n][k] == outcomes[k];
      CreationLoopThrows(installed, ts[..n], outcomes[..n]);
      var prev := CreationLoop(installed, ts[..n], outcomes[..n]);
      var st := CreationLoop(installed, ts, outcomes);
      if prev.thrown.Some? {
        var k :| 0 <= k < n && prev.thrown == CreationThrown(outcomes[..n][k])
               && forall j :: 0 <= j < k ==> CreationThrown(outcomes[..n][j]).None?;
        assert st.thrown == CreationThrown(outcomes[k]);
      } else if st.thrown.Some? {
        assert st.thrown == CreationThrown(outcomes[n]);
      }
    }
  }

  /** The count and the triggers: without an error every creation that
      succeeded is counted and in place, and nothing else is added. */
  lemma {:induction false} CreationLoopInstalls(installed: set<Trigger>, ts: seq<Trigger>, outcomes: seq<Option<JsError>>)
    requires |ts| == |outcomes|
    ensures var st := CreationLoop(installed, ts, outcomes);
      (st.thrown.None? ==> st.count == Succeeded(outcomes)
                             && forall k :: 0 <= k < |ts| && outcomes[k].None? ==> ts[k] in st.installed)
      && (forall t :: t in st.installed ==> t in installed || t in ts)
  {
    if ts != [] {
      var n := |ts| - 1;
      assert forall k :: 0 <= k < n ==> outcomes[..n][k] == outcomes[k] && ts[..n][k] == ts[k];
      CreationLoopInstalls(installed, ts[..n], outcomes[..n]);
    }
  }

  /** Once the loop has thrown, the later triggers change nothing. */
  lemma {:induction false} CreationLoopThrownSticks(installed: set<Trigger>, ts: seq<Trigger>, outcomes: seq<Option<JsError>>, i: nat)
    requires |ts| == |outcomes| && i <= |ts|
    requires CreationLoop(installed, ts[..i], outcomes[..i]).thrown.Some?
    ensures CreationLoop(installed, ts, outcomes) == CreationLoop(installed, ts[..i], outcomes[..i])
    decreases |ts| - i
  {
    if i < |ts| {
      var n := |ts| - 1;
      assert ts[..n][..i] == ts[..i] && outcomes[..n][..i] == outcomes[..i];
      CreationLoopThrownSticks(installed, ts[..n], outcomes[..n], i);
    } else {
      assert ts[..i] == ts && outcomes[..i] == outcomes;
    }
  }

  /** What the script reports: rows after the initial sync, `triggerCount`, and the two counts it compares. */
  datatype SetupReport = SetupReport(synced: nat, triggerCount: nat, activeCount: nat, indexCount: nat, consistent: bool)

  /** The whole script, from the rows and triggers already there: create the
      table, sync, create the triggers, compare the counts. A mismatch of the
      counts is reported, not thrown. */
  function Setup(rows0: map<nat, IndexRow>, installed0: set<Trigger>, s: Snapshot,
                 tableOutcome: Option<JsError>, outcomes: seq<Option<JsError>>): (Result<SetupReport, JsError>, map<nat, IndexRow>, set<Trigger>)
    requires |outcomes| == |AllTriggers|
  {
    match CreationThrown(tableOutcome)
    case Some(e) => (Err(e), rows0, installed0)
    case None =>
      var rows1 := rows0 + SyncedRows(s);
      var loop := CreationLoop(installed0, AllTriggers, outcomes);
      if loop.thrown.Some? then (Err(loop.thrown.value), rows1, loop.installed)
      else (Ok(SetupReport(|rows1|, loop.count, |ActiveIds(s)|, |rows1|, |rows1| == |ActiveIds(s)|)), rows1, loop.installed)
  }

  /** The script fails exactly when the table or some trigger cannot be
      created for a reason other than 'already exists'. */
  lemma SetupFails(rows0: map<nat, IndexRow>, installed0: set<Trigger>, s: Snapshot,
                   tableOutcome: Option<JsError>, outcomes: seq<Option<JsError>>)
    requires |outcomes| == |AllTriggers|
    ensures Setup(rows0, installed0, s, tableOutcome, outcomes).0.Err? <==>
      CreationThrown(tableOutcome).Some? || exists k :: 0 <= k < |outcomes| && CreationThrown(outcomes[k]).Some?
  {
    CreationLoopSpec(installed0, AllTriggers, outcomes);
  }

  /** Run on a table holding no row for an inactive tool (a new table, say),
      a script that does not throw leaves the index in sync and reports equal counts. */
  lemma SetupSyncs(rows0: map<nat, IndexRow>, installed0: set<Trigger>, s: Snapshot,
                   tableOutcome: Option<JsError>, outcomes: seq<Option<JsError>>)
    requires |outcomes| == |AllTriggers|
    requires forall id :: id in rows0 ==> IsActiveTool(s, id)
    ensures var (r, rows, _) := Setup(rows0, installed0, s, tableOutcome, outcomes);
      r.Ok? ==> Synced(s, rows) && r.value.consistent && r.value.synced == r.value.activeCount
  {
    if CreationThrown(tableOutcome).None? {
      InitialSyncSpec(s, rows0);
      SyncedCountsAgree(s, rows0 + SyncedRows(s));
    }
  }

  /** A row left for an inactive tool makes the counts differ, which the script only reports. */
  lemma SetupReportsStaleRow(rows0: map<nat, IndexRow>, installed0: set<Trigger>, s: Snapshot,
                             tableOutcome: Option<JsError>, outcomes: seq<Option<JsError>>, id: nat)
    requires |outcomes| == |AllTriggers|
    requires id in rows0 && !IsActiveTool(s, id)
    ensures var r := Setup(rows0, installed0, s, tableOutcome, outcomes).0;
      r.Ok? ==> !r.value.consistent
  {
    if CreationThrown(tableOutcome).None? {
      var rows1 := rows0 + SyncedRows(s);
      MoreRowsThanActive(rows1, ActiveIds(s), id);
    }
  }

  /** A table holding every active id and one more has more rows than there are active ids. */
  lemma MoreRowsThanActive(rows: map<nat, IndexRow>, active: set<nat>, id: nat)
    requires active <= rows.Keys && id in rows && id !in active
    ensures |rows| > |active|
  {
    var held := active + {id};
    assert |held| == |active| + 1;
    assert rows.Keys == held + (rows.Keys - held);
    assert |rows| == |rows.Keys|;
  }

  /** `triggerCount` counts the creations that succeeded; when all five
      succeed, all five triggers are in place. */
  lemma SetupTriggers(rows0: map<nat, IndexRow>, installed0: set<Trigger>, s: Snapshot,
                      tableOutcome: Option<JsError>, outcomes: seq<Option<JsError>>)
    requires |outcomes| == |AllTriggers|
    ensures var (r, _, installed) := Setup(rows0, installed0, s, tableOutcome, outcomes);
      (r.Ok? ==> r.value.triggerCount == Succeeded(outcomes))
      && (r.Ok? && (forall k :: 0 <= k < |outcomes| ==> outcomes[k].None?) ==>
            r.value.triggerCount == |AllTriggers| && AllTriggerSet() <= installed)
  {
    var (r, _, installed) := Setup(rows0, installed0, s, tableOutcome, outcomes);
    CreationLoopSpec(installed0, AllTriggers, outcomes);
    if r.Ok? && (forall k :: 0 <= k < |outcomes| ==> outcomes[k].None?) {
      AllSucceeded(outcomes);
      forall t | t in AllTriggerSet() ensures t in installed {
        var k :| 0 <= k < |AllTriggers| && AllTriggers[k] == t;
      }
    }
  }

  lemma {:induction false} AllSucceeded(outcomes: seq<Option<JsError>>)
    requires forall k :: 0 <= k < |outcomes| ==> outcomes[k].None?
    ensures Succeeded(outcomes) == |outcomes|
  {
    if outcomes != [] {
      AllSucceeded(outcomes[..|outcomes| - 1]);
    }
  }

  // ---------------------------------------------------------------- the table as the script and the triggers change it

  /** `tools_fts` and the triggers on `tools` and `tool_tags`. */
  class FtsIndex {
    var rows: map<nat, IndexRow>
    var triggers: set<Trigger>

    constructor(rows: map<nat, IndexRow>, triggers: set<Trigger>)
      ensures this.rows == rows && this.triggers == triggers
    {
      this.rows := rows;
      this.triggers := triggers;
    }

    /** Step 2: `INSERT OR REPLACE … SELECT … WHERE t.is_deleted = 0`. */
    method Sync(s: Snapshot)
      modifies this
      ensures rows == old(rows) + SyncedRows(s) && triggers == old(triggers)
    {
      rows := rows + SyncedRows(s);
    }

    /** Step 3: the loop over the trigger list, counting creations that did not throw. */
    method InstallTriggers(outcomes: seq<Option<JsError>>) returns (triggerCount: nat, thrown: Option<JsError>)
      requires |outcomes| == |AllTriggers|
      modifies this
      ensures LoopState(triggerCount, triggers, thrown) == CreationLoop(old(triggers), AllTriggers, outcomes)
      ensures rows == old(rows)
    {
      triggerCount := 0;
      thrown := None;
      var i := 0;
      while i < |AllTriggers| && thrown.None?
        invariant 0 <= i <= |AllTriggers|
        invariant LoopState(triggerCount, triggers, thrown) == CreationLoop(old(triggers), AllTriggers[..i], outcomes[..i])
        invariant rows == old(rows)
      {
        assert AllTriggers[..i + 1][..i] == AllTriggers[..i] && outcomes[..i + 1][..i] == outcomes[..i];
        if outcomes[i].None? {
          triggers := triggers + {AllTriggers[i]};
          triggerCount := triggerCount + 1;
        } else {
          thrown := CreationThrown(outcomes[i]);
        }
        i := i + 1;
      }
      if thrown.Some? {
        CreationLoopThrownSticks(old(triggers), AllTriggers, outcomes, i);
      } else {
        assert AllTriggers[..i] == AllTriggers && outcomes[..i] == outcomes;
      }
    }

    /** The check after the triggers: do the index and the active tools have the same count? */
    method CountCheck(s: Snapshot) returns (consistent: bool)
      ensures consistent <==> |rows| == |ActiveIds(s)|
    {
      consistent := |rows| == |ActiveIds(s)|;
    }

    /** The script: each step in turn; a thrown error ends it. */
    method AddFtsIndex(s: Snapshot, tableOutcome: Option<JsError>, outcomes: seq<Option<JsError>>) returns (r: Result<SetupReport, JsError>)
      requires |outcomes| == |AllTriggers|
      modifies this
      ensures (r, rows, triggers) == Setup(old(rows), old(triggers), s, tableOutcome, outcomes)
    {
      var e := CreationThrown(tableOutcome);
      if e.Some? {
        return Err(e.value);
      }
      Sync(s);
      var synced := |rows|;
      var triggerCount, thrown := InstallTriggers(outcomes);
      if thrown.Some? {
        return Err(thrown.value);
      }
      var consistent := CountCheck(s);
      r := Ok(SetupReport(synced, triggerCount, |ActiveIds(s)|, |rows|, consistent));
    }

    /** `tools_fts_insert`, fired by inserting tool row `id`. */
    method OnToolInserted(s: Snapshot, id: nat)
      requires HasTool(s, id)
      modifies this
      ensures rows == AfterToolInsert(old(rows), triggers, s, id) && triggers == old(triggers)
    {
      if InsertTrigger in triggers && !ToolOf(s, id).isDeleted {
        rows := rows[id := Derived(s, id)];
      }
    }

    /** `tools_fts_update` or `tools_fts_delete`, fired by updating tool row `id`. */
    method OnToolUpdated(s: Snapshot, id: nat)
      requires HasTool(s, id)
      modifies this
      ensures rows == AfterToolUpdate(old(rows), triggers, s, id) && triggers == old(triggers)
    {
      if !ToolOf(s, id).isDeleted {
        if UpdateTrigger in triggers {
          rows := rows - {id};
          rows := rows[id := Derived(s, id)];
        }
      } else if DeleteTrigger in triggers {
        rows := rows - {id};
      }
    }

    /** `tools_fts_tag_insert` (`trigger` is `TagInsertTrigger`) or
        `tools_fts_tag_delete` (`TagDeleteTrigger`), fired by a `tool_tags` row of `toolId`. */
    method OnPairChanged(s: Snapshot, trigger: Trigger, toolId: nat)
      requires trigger == TagInsertTrigger || trigger == TagDeleteTrigger
      modifies this
      ensures rows == AfterPairChange(old(rows), trigger, triggers, s, toolId) && triggers == old(triggers)
    {
      if trigger in triggers {
        rows := rows - {toolId};
        if IsActiveTool(s, toolId) {
          rows := rows[toolId := Derived(s, toolId)];
        }
      }
    }
  }
}
