/** The "frequently used" widget (app/components/Content/TabWidget.jsx): the
    20 most viewed tools, sorted on a copy, so the settings' own list keeps
    its order (the model works on values). */
module TabWidget {
  import opened Sorting
  import SettingsRoute

  type Tool = SettingsRoute.ToolDto

  const Shown: nat := 20

  function ToolViewCount(t: Tool): int { t.viewCount }

  /** `[...tools].sort((a, b) => b.viewCount - a.viewCount).slice(0, 20)` */
  function Popular(tools: seq<Tool>): seq<Tool> {
    Take(Sort(tools, ViewCountDesc(ToolViewCount)), Shown)
  }

  /** Twenty tools, or all of them when there are fewer; highest view count
      first; the shown tools are taken from the list, each at most as often
      as it occurs there (all of them when there are at most twenty), and
      none left out has more views than a shown one. */
  lemma PopularSpec(tools: seq<Tool>)
    ensures |Popular(tools)| == if |tools| < Shown then |tools| else Shown
    ensures forall i, j :: 0 <= i < j < |Popular(tools)| ==> Popular(tools)[i].viewCount >= Popular(tools)[j].viewCount
    ensures forall x :: x in Popular(tools) ==> x in tools
    ensures multiset(Popular(tools)) <= multiset(tools)
    ensures |tools| <= Shown ==> multiset(Popular(tools)) == multiset(tools)
    ensures forall x, y :: x in Popular(tools) && y in tools && y !in Popular(tools) ==> x.viewCount >= y.viewCount
  {
    var sorted := Sort(tools, ViewCountDesc(ToolViewCount));
    TakeCounts(sorted, Shown);
    if |tools| <= Shown {
      assert Popular(tools) == sorted[..|sorted|] == sorted;
    }
    SortMembers(tools, ViewCountDesc(ToolViewCount));
    forall x | x in Popular(tools) ensures x in tools {
      assert x in sorted;
    }
    PopularOrdered(tools);
    PopularBest(tools);
  }

  lemma PopularOrdered(tools: seq<Tool>)
    ensures forall i, j :: 0 <= i < j < |Popular(tools)| ==> Popular(tools)[i].viewCount >= Popular(tools)[j].viewCount
  {
    var le := ViewCountDesc(ToolViewCount);
    var sorted := Sort(tools, le);
    var r := Popular(tools);
    ViewCountDescIsPreorder(ToolViewCount);
    SortSorted(tools, le);
    forall i, j | 0 <= i < j < |r| ensures r[i].viewCount >= r[j].viewCount {
      assert r[i] == sorted[i] && r[j] == sorted[j];
      assert le(sorted[i], sorted[j]);
      assert ToolViewCount(sorted[i]) >= ToolViewCount(sorted[j]);
    }
  }

  lemma PopularBest(tools: seq<Tool>)
    ensures forall x, y :: x in Popular(tools) && y in tools && y !in Popular(tools) ==> x.viewCount >= y.viewCount
  {
    var le := ViewCountDesc(ToolViewCount);
    var sorted := Sort(tools, le);
    var r := Popular(tools);
    SortMembers(tools, le);
    ViewCountDescIsPreorder(ToolViewCount);
    SortSorted(tools, le);
    forall x, y | x in r && y in tools && y !in r ensures x.viewCount >= y.viewCount {
      var i :| 0 <= i < |r| && r[i] == x;
      var j :| 0 <= j < |sorted| && sorted[j] == y;
      assert j >= |r|;
      assert sorted[i] == x;
      assert le(sorted[i], sorted[j]);
      assert ToolViewCount(sorted[i]) >= ToolViewCount(sorted[j]);
    }
  }
}
