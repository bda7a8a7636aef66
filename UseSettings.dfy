/** The `useSettings` hook (app/hooks/useSettings.js): the settings loaded
    from `/api/settings`, and the three actions that call the API and then
    update the local tool list. Each `fetch` is a parameter: what it settled
    with. */
module UseSettings {
  import opened Common
  import SettingsRoute

  type Tool = SettingsRoute.ToolDto

  /** How a request settled: `fetch` or `response.json()` rejected with a
      message, the response was not ok, or its body was parsed. */
  datatype Fetched<T> = Rejected(message: string) | NotOk | Body(value: T)

  /** How an action's promise settles. */
  datatype Completion<T> = Returned(value: T) | Threw(message: string)

  /** The fields of the edit form that `updateTool` spreads over a tool;
      `None` is a key the form did not send. */
  datatype ToolPatch = ToolPatch(name: Option<string>, description: Option<Option<string>>,
                                 url: Option<Option<string>>, logo: Option<Option<string>>, categoryId: Option<int>)

  /** `{ ...tool, viewCount }` on the tools with that id. */
  function WithViewCount(tools: seq<Tool>, toolId: int, viewCount: int): seq<Tool> {
    seq(|tools|, i requires 0 <= i < |tools| => if tools[i].id == toolId then tools[i].(viewCount := viewCount) else tools[i])
  }

  /** `{ ...tool, ...updatedData }` */
  function Merged(t: Tool, patch: ToolPatch): Tool {
    t.(name := if patch.name.Some? then patch.name.value else t.name,
       description := if patch.description.Some? then patch.description.value else t.description,
       url := if patch.url.Some? then patch.url.value else t.url,
       logo := if patch.logo.Some? then patch.logo.value else t.logo,
       categoryId := if patch.categoryId.Some? then patch.categoryId.value else t.categoryId)
  }

  function WithPatch(tools: seq<Tool>, toolId: int, patch: ToolPatch): seq<Tool> {
    seq(|tools|, i requires 0 <= i < |tools| => if tools[i].id == toolId then Merged(tools[i], patch) else tools[i])
  }

  /** `tools.filter(tool => tool.id !== toolId)` */
  function Without(tools: seq<Tool>, toolId: int): seq<Tool> {
    if tools == [] then []
    else (if tools[0].id == toolId then [] else [tools[0]]) + Without(tools[1..], toolId)
  }

  /** The view updater changes the view count of the tools with that id and
      nothing else; the list keeps its length and order. */
  lemma WithViewCountSpec(tools: seq<Tool>, toolId: int, viewCount: int)
    ensures |WithViewCount(tools, toolId, viewCount)| == |tools|
    ensures forall i :: 0 <= i < |tools| ==>
      var r := WithViewCount(tools, toolId, viewCount)[i];
      if tools[i].id == toolId then r.viewCount == viewCount && r.(viewCount := tools[i].viewCount) == tools[i]
      else r == tools[i]
  {
  }

  /** The update merges the sent fields into the tools with that id; every
      field the form did not send, and every other tool, is unchanged. */
  lemma WithPatchSpec(tools: seq<Tool>, toolId: int, patch: ToolPatch)
    ensures |WithPatch(tools, toolId, patch)| == |tools|
    ensures forall i :: 0 <= i < |tools| && tools[i].id != toolId ==> WithPatch(tools, toolId, patch)[i] == tools[i]
    ensures forall i :: 0 <= i < |tools| && tools[i].id == toolId ==>
      var r := WithPatch(tools, toolId, patch)[i];
      r.tags == tools[i].tags && r.viewCount == tools[i].viewCount && r.isFeatured == tools[i].isFeatured
      && r.isNew == tools[i].isNew && r.addedDate == tools[i].addedDate
      && (patch.name.Some? ==> r.name == patch.name.value) && (patch.name.None? ==> r.name == tools[i].name)
      && (patch.description.Some? ==> r.description == patch.description.value)
      && (patch.description.None? ==> r.description == tools[i].description)
      && (patch.url.Some? ==> r.url == patch.url.value) && (patch.url.None? ==> r.url == tools[i].url)
      && (patch.logo.Some? ==> r.logo == patch.logo.value) && (patch.logo.None? ==> r.logo == tools[i].logo)
      && (patch.categoryId.Some? ==> r.categoryId == patch.categoryId.value)
      && (patch.categoryId.None? ==> r.categoryId == tools[i].categoryId)
    ensures patch == ToolPatch(None, None, None, None, None) ==> WithPatch(tools, toolId, patch) == tools
  {
    if patch == ToolPatch(None, None, None, None, None) {
      assert forall i :: 0 <= i < |tools| ==> WithPatch(tools, toolId, patch)[i] == tools[i];
    }
  }

  /** Deleting removes every tool with that id and keeps the others in order. */
  lemma WithoutSpec(tools: seq<Tool>, toolId: int)
    ensures Subsequence(Without(tools, toolId), tools)
    ensures forall t :: t in Without(tools, toolId) <==> t in tools && t.id != toolId
    ensures forall t :: multiset(Without(tools, toolId))[t] == if t.id != toolId then multiset(tools)[t] else 0
    ensures (forall i :: 0 <= i < |tools| ==> tools[i].id != toolId) ==> Without(tools, toolId) == tools
  {
    WithoutOrdered(tools, toolId);
    WithoutCounts(tools, toolId);
    if forall i :: 0 <= i < |tools| ==> tools[i].id != toolId {
      WithoutAbsent(tools, toolId);
    }
  }

  lemma {:induction false} WithoutOrdered(tools: seq<Tool>, toolId: int)
    ensures Subsequence(Without(tools, toolId), tools)
  {
    if tools != [] {
      WithoutOrdered(tools[1..], toolId);
      var rest := Without(tools[1..], toolId);
      assert tools == [tools[0]] + tools[1..];
      if tools[0].id == toolId {
        SubsequenceSkip(rest, tools[0], tools[1..]);
        assert Without(tools, toolId) == rest;
      } else {
        assert Without(tools, toolId) == [tools[0]] + rest;
      }
    }
  }

  lemma {:induction false} WithoutAbsent(tools: seq<Tool>, toolId: int)
    requires forall i :: 0 <= i < |tools| ==> tools[i].id != toolId
    ensures Without(tools, toolId) == tools
  {
    if tools != [] {
      assert forall i :: 1 <= i < |tools| ==> tools[1..][i - 1] == tools[i];
      WithoutAbsent(tools[1..], toolId);
      assert tools == [tools[0]] + tools[1..];
    }
  }

  lemma {:induction false} WithoutCounts(tools: seq<Tool>, toolId: int)
    ensures forall t :: multiset(Without(tools, toolId))[t] == if t.id != toolId then multiset(tools)[t] else 0
  {
    if tools != [] {
      WithoutCounts(tools[1..], toolId);
      assert tools == [tools[0]] + tools[1..];
      assert multiset(tools) == multiset{tools[0]} + multiset(tools[1..]);
    }
  }

  /** The hook's state. Below the provider (app/context/SettingsContext.jsx)
      the actions run only once the settings are loaded without error. */
  class SettingsHook {
    var settings: Option<SettingsRoute.Settings>
    var loading: bool
    var error: Option<string>

    constructor()
      ensures settings == None && loading && error == None
    {
      settings := None;
      loading := true;
      error := None;
    }

    /** The effect that loads the settings: the parsed body, or the error's message. */
    method Load(response: Fetched<SettingsRoute.Settings>)
      modifies this
      ensures !loading
      ensures response.Body? ==> settings == Some(response.value) && error == old(error)
      ensures response.NotOk? ==> settings == old(settings) && error == Some("加载配置失败")
      ensures response.Rejected? ==> settings == old(settings) && error == Some(response.message)
    {
      match response
      case Body(data) =>
        settings := Some(data);
        loading := false;
      case NotOk =>
        error := Some("加载配置失败");
        loading := false;
      case Rejected(m) =>
        error := Some(m);
        loading := false;
    }

    /** `incrementViewCount`: any failure is logged and swallowed. */
    method IncrementViewCount(toolId: int, response: Fetched<int>)
      requires settings.Some?
      modifies this
      ensures loading == old(loading) && error == old(error)
      ensures response.Body? ==>
        settings == Some(old(settings.value).(tools := WithViewCount(old(settings.value.tools), toolId, response.value)))
      ensures !response.Body? ==> settings == old(settings)
    {
      if response.Body? {
        var prev := settings.value;
        settings := Some(prev.(tools := WithViewCount(prev.tools, toolId, response.value)));
      }
    }

    /** `updateTool`: a failure is logged and thrown again, the list untouched. */
    method UpdateTool(toolId: int, patch: ToolPatch, response: Fetched<JsValue>) returns (c: Completion<JsValue>)
      requires settings.Some?
      modifies this
      ensures loading == old(loading) && error == old(error)
      ensures response.Body? ==>
        settings == Some(old(settings.value).(tools := WithPatch(old(settings.value.tools), toolId, patch)))
        && c == Returned(response.value)
      ensures response.NotOk? ==> settings == old(settings) && c == Threw("更新工具失败")
      ensures response.Rejected? ==> settings == old(settings) && c == Threw(response.message)
    {
      match response
      case Rejected(m) => c := Threw(m);
      case NotOk => c := Threw("更新工具失败");
      case Body(result) =>
        var prev := settings.value;
        settings := Some(prev.(tools := WithPatch(prev.tools, toolId, patch)));
        c := Returned(result);
    }

    /** `deleteTool`: a failure is logged and thrown again, the list untouched. */
    method DeleteTool(toolId: int, response: Fetched<JsValue>) returns (c: Completion<JsValue>)
      requires settings.Some?
      modifies this
      ensures loading == old(loading) && error == old(error)
      ensures response.Body? ==>
        settings == Some(old(settings.value).(tools := Without(old(settings.value.tools), toolId)))
        && c == Returned(response.value)
      ensures response.NotOk? ==> settings == old(settings) && c == Threw("删除工具失败")
      ensures response.Rejected? ==> settings == old(settings) && c == Threw(response.message)
    {
      match response
      case Rejected(m) => c := Threw(m);
      case NotOk => c := Threw("删除工具失败");
      case Body(result) =>
        var prev := settings.value;
        settings := Some(prev.(tools := Without(prev.tools, toolId)));
        c := Returned(result);
    }
  }
}
