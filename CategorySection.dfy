/** The tools of one category section (app/components/Content/CategorySection.jsx):
    the tools of that category, most viewed first. */
module CategorySection {
  import opened Common
  import opened Sorting
  import SettingsRoute

  type Tool = SettingsRoute.ToolDto

  function ToolViewCount(t: Tool): int { t.viewCount }

  /** `tools.filter(tool => tool.categoryId === categoryId)` */
  function InCategory(tools: seq<Tool>, categoryId: int): (r: seq<Tool>)
    ensures Subsequence(r, tools)
    ensures forall t :: t in r <==> t in tools && t.categoryId == categoryId
    ensures forall t :: multiset(r)[t] == if t.categoryId == categoryId then multiset(tools)[t] else 0
  {
    if tools == [] then []
    else
      var rest := InCategory(tools[1..], categoryId);
      SubsequenceSkip(rest, tools[0], tools[1..]);
      assert tools == [tools[0]] + tools[1..];
      if tools[0].categoryId == categoryId then [tools[0]] + rest else rest
  }

  /** `categoryTools`: the filter, then the sort by `b.viewCount - a.viewCount`. */
  function CategoryTools(tools: seq<Tool>, categoryId: int): seq<Tool> {
    Sort(InCategory(tools, categoryId), ViewCountDesc(ToolViewCount))
  }

  /** The section holds exactly the category's tools, each as often as in the
      list (a permutation of the filtered list, whose length is the count
      shown), ordered by view count, highest first. */
  lemma CategoryToolsSpec(tools: seq<Tool>, categoryId: int)
    ensures multiset(CategoryTools(tools, categoryId)) == multiset(InCategory(tools, categoryId))
    ensures |CategoryTools(tools, categoryId)| == |InCategory(tools, categoryId)|
    ensures forall t :: t in CategoryTools(tools, categoryId) <==> t in tools && t.categoryId == categoryId
    ensures forall i, j :: 0 <= i < j < |CategoryTools(tools, categoryId)| ==>
      CategoryTools(tools, categoryId)[i].viewCount >= CategoryTools(tools, categoryId)[j].viewCount
  {
    var f := InCategory(tools, categoryId);
    SortMembers(f, ViewCountDesc(ToolViewCount));
    ViewCountDescIsPreorder(ToolViewCount);
    SortSorted(f, ViewCountDesc(ToolViewCount));
    var r := CategoryTools(tools, categoryId);
    forall i, j | 0 <= i < j < |r| ensures r[i].viewCount >= r[j].viewCount {
      assert ViewCountDesc(ToolViewCount)(r[i], r[j]);
      assert ToolViewCount(r[i]) >= ToolViewCount(r[j]);
    }
  }
}
