/** The grid of a category (app/components/Content/VirtualGrid.jsx): its
    layout and the list of cards it renders. */
module VirtualGrid {
  import opened Common
  import SettingsRoute

  type Tool = SettingsRoute.ToolDto

  const ItemsPerRow: nat := 4
  const ItemHeight: nat := 90

  datatype GridConfig = GridConfig(itemsPerRow: nat, totalRows: nat, itemHeight: nat)

  /** A card of the grid: the add-tool card of a category, or the card of the tool at `index`. */
  datatype GridItem = AddCard(categoryId: JsValue) | ToolItem(tool: Tool, index: nat)

  /** `tools?.length || 0` */
  function ToolCount(tools: Option<seq<Tool>>): nat {
    if tools.Some? then |tools.value| else 0
  }

  /** `gridConfig` with `Math.ceil(n / 4)`. */
  function GridConfigOf(tools: Option<seq<Tool>>): GridConfig {
    GridConfig(ItemsPerRow, (ToolCount(tools) + ItemsPerRow - 1) / ItemsPerRow, ItemHeight)
  }

  /** The rows are the fewest that hold every tool four to a row. */
  lemma GridConfigSpec(tools: Option<seq<Tool>>)
    ensures GridConfigOf(tools).itemsPerRow == 4 && GridConfigOf(tools).itemHeight == 90
    ensures GridConfigOf(tools).totalRows * 4 >= ToolCount(tools)
    ensures GridConfigOf(tools).totalRows > 0 ==> (GridConfigOf(tools).totalRows - 1) * 4 < ToolCount(tools)
    ensures GridConfigOf(tools).totalRows == 0 <==> ToolCount(tools) == 0
  {
  }

  /** `allItems`: no card for a missing or empty list; otherwise the add-tool
      card first when `categoryId` is truthy, then one card per tool in order. */
  method AllItems(tools: Option<seq<Tool>>, categoryId: JsValue) returns (items: seq<GridItem>)
    ensures tools.None? || tools.value == [] ==> items == []
    ensures tools.Some? && tools.value != [] ==>
      var offset := if Truthy(categoryId) then 1 else 0;
      |items| == |tools.value| + offset
      && (Truthy(categoryId) ==> items[0] == AddCard(categoryId))
      && forall i :: 0 <= i < |tools.value| ==> items[i + offset] == ToolItem(tools.value[i], i)
  {
    if tools.None? || |tools.value| == 0 {
      return [];
    }
    items := [];
    if Truthy(categoryId) {
      items := items + [AddCard(categoryId)];
    }
    var offset := |items|;
    var list := tools.value;
    var index := 0;
    while index < |list|
      invariant 0 <= index <= |list|
      invariant |items| == offset + index
      invariant Truthy(categoryId) ==> items[0] == AddCard(categoryId)
      invariant forall i :: 0 <= i < index ==> items[i + offset] == ToolItem(list[i], i)
    {
      items := items + [ToolItem(list[index], index)];
      index := index + 1;
    }
  }
}
