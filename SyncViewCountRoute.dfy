/** `POST /api/tools/sync-viewcount` (app/api/tools/sync-viewcount/route.ts):
    the view counts sent by the client replace those of the tools in the
    settings file. Reading and writing the file are the `file` parameter and
    the `written` result. */
module SyncViewCountRoute {
  import opened Common
  import opened Text

  /** A tool of the settings file: its `id`, its `viewCount`, and every other property. */
  datatype FileTool = FileTool(id: string, viewCount: JsValue, others: map<string, JsValue>)

  /** The settings file: its `tools` array and every other top-level property. */
  datatype SettingsFile = SettingsFile(tools: seq<FileTool>, others: map<string, JsValue>)

  /** What the route answers. */
  datatype SyncReply = Synced(message: string, updatedCount: nat) | Failed(status: int, error: string)

  /** The callback of `map` for one tool: `{ ...tool, viewCount }` when the
      body has a value for its id (a JSON body has no `undefined` values, so
      a present key is a defined value). */
  function SyncedTool(t: FileTool, viewCounts: map<string, JsValue>): FileTool {
    if t.id in viewCounts then t.(viewCount := viewCounts[t.id]) else t
  }

  /** `settings.tools.map(...)` */
  function SyncedTools(tools: seq<FileTool>, viewCounts: map<string, JsValue>): seq<FileTool> {
    if tools == [] then []
    else SyncedTools(tools[..|tools| - 1], viewCounts) + [SyncedTool(tools[|tools| - 1], viewCounts)]
  }

  /** How many tools the body has a value for. */
  function SyncCount(tools: seq<FileTool>, viewCounts: map<string, JsValue>): nat {
    if tools == [] then 0
    else SyncCount(tools[..|tools| - 1], viewCounts) + (if tools[|tools| - 1].id in viewCounts then 1 else 0)
  }

  /** Each tool keeps its place; a tool the body names gets exactly the sent
      view count and keeps every other property; the others are unchanged. */
  lemma {:induction false} SyncedToolsSpec(tools: seq<FileTool>, viewCounts: map<string, JsValue>)
    ensures |SyncedTools(tools, viewCounts)| == |tools|
    ensures forall i :: 0 <= i < |tools| ==>
      var r := SyncedTools(tools, viewCounts)[i];
      r.id == tools[i].id && r.others == tools[i].others
      && (if tools[i].id in viewCounts then r.viewCount == viewCounts[tools[i].id] else r == tools[i])
  {
    if tools != [] {
      SyncedToolsSpec(tools[..|tools| - 1], viewCounts);
    }
  }

  /** Keys that name no tool are ignored: only the entries for the file's ids matter. */
  lemma {:induction false} UnknownKeysIgnored(tools: seq<FileTool>, viewCounts: map<string, JsValue>, extra: map<string, JsValue>)
    requires forall k :: k in extra ==> k !in viewCounts && forall i :: 0 <= i < |tools| ==> tools[i].id != k
    ensures SyncedTools(tools, viewCounts + extra) == SyncedTools(tools, viewCounts)
    ensures SyncCount(tools, viewCounts + extra) == SyncCount(tools, viewCounts)
  {
    if tools != [] {
      UnknownKeysIgnored(tools[..|tools| - 1], viewCounts, extra);
    }
  }

  /** Sending the same counts again changes nothing more. */
  lemma {:induction false} SyncIdempotent(tools: seq<FileTool>, viewCounts: map<string, JsValue>)
    ensures SyncedTools(SyncedTools(tools, viewCounts), viewCounts) == SyncedTools(tools, viewCounts)
  {
    if tools != [] {
      var init := tools[..|tools| - 1];
      SyncIdempotent(init, viewCounts);
      var once := SyncedTools(tools, viewCounts);
      SyncedToolsSpec(init, viewCounts);
      assert once[..|once| - 1] == SyncedTools(init, viewCounts);
    }
  }

  /** The count is that of the tools the body names: at most all of them,
      all of them exactly when every id has a value, none exactly when no id has. */
  lemma {:induction false} SyncCountSpec(tools: seq<FileTool>, viewCounts: map<string, JsValue>)
    ensures SyncCount(tools, viewCounts) <= |tools|
    ensures SyncCount(tools, viewCounts) == |tools| <==> forall i :: 0 <= i < |tools| ==> tools[i].id in viewCounts
    ensures SyncCount(tools, viewCounts) == 0 <==> forall i :: 0 <= i < |tools| ==> tools[i].id !in viewCounts
  {
    if tools != [] {
      var init := tools[..|tools| - 1];
      SyncCountSpec(init, viewCounts);
      assert forall i :: 0 <= i < |init| ==> init[i] == tools[i];
    }
  }

  /** The `map` call with its counter, proved to compute both functions. */
  method SyncTools(tools: seq<FileTool>, viewCounts: map<string, JsValue>) returns (updated: seq<FileTool>, updatedCount: nat)
    ensures updated == SyncedTools(tools, viewCounts)
    ensures updatedCount == SyncCount(tools, viewCounts)
  {
    updated := [];
    updatedCount := 0;
    var i := 0;
    while i < |tools|
      invariant 0 <= i <= |tools|
      invariant updated == SyncedTools(tools[..i], viewCounts)
      invariant updatedCount == SyncCount(tools[..i], viewCounts)
    {
      assert tools[..i + 1][..i] == tools[..i];
      var tool := tools[i];
      if tool.id in viewCounts {
        updatedCount := updatedCount + 1;
        updated := updated + [tool.(viewCount := viewCounts[tool.id])];
      } else {
        updated := updated + [tool];
      }
      i := i + 1;
    }
    assert tools[..i] == tools;
  }

  /** The route. `file` is what reading and parsing the settings file gave
      (`None` when it threw or its `tools` is not an array); `written` is what
      it writes back: the same file with the updated tools. */
  method Post(file: Option<SettingsFile>, viewCounts: map<string, JsValue>) returns (written: Option<SettingsFile>, reply: SyncReply)
    ensures file.None? ==> written.None? && reply == Failed(500, "同步失败")
    ensures file.Some? ==>
      written == Some(file.value.(tools := SyncedTools(file.value.tools, viewCounts)))
      && reply == Synced("成功更新 " + ShowNat(SyncCount(file.value.tools, viewCounts)) + " 个工具的浏览次数",
                         SyncCount(file.value.tools, viewCounts))
  {
    if file.None? {
      return None, Failed(500, "同步失败");
    }
    var settings := file.value;
    var tools, updatedCount := SyncTools(settings.tools, viewCounts);
    settings := settings.(tools := tools);
    written := Some(settings);
    reply := Synced("成功更新 " + ShowNat(updatedCount) + " 个工具的浏览次数", updatedCount);
  }
}
