/** The drag-and-drop reordering of the category menu
    (app/components/Layout/CategoryMenu.jsx): the dragged category is taken
    out of a copy of the list and put back at the drop position, and the new
    list is sent as `{ id, displayOrder }` pairs numbered from 1. */
module CategoryMenu {
  import opened Common
  import SettingsRoute
  import CategoryOrderRoute

  type Category = SettingsRoute.CategoryDto

  /** `s.splice(i, 1)` on a copy. */
  function RemoveAt<T>(s: seq<T>, i: nat): (r: seq<T>)
    requires i < |s|
    ensures |r| == |s| - 1
  {
    s[..i] + s[i + 1..]
  }

  /** `s.splice(i, 0, x)` on a copy. */
  function InsertAt<T>(s: seq<T>, i: nat, x: T): (r: seq<T>)
    requires i <= |s|
    ensures |r| == |s| + 1
  {
    s[..i] + [x] + s[i..]
  }

  /** The list after dragging the element at `from` onto position `to`. */
  function Moved<T>(s: seq<T>, from: nat, to: nat): seq<T>
    requires from < |s| && to < |s|
  {
    InsertAt(RemoveAt(s, from), to, s[from])
  }

  /** Removing an element and putting it back where it was restores the list. */
  lemma InsertRemoved<T>(s: seq<T>, i: nat)
    requires i < |s|
    ensures InsertAt(RemoveAt(s, i), i, s[i]) == s
  {
    var r := RemoveAt(s, i);
    assert r[..i] == s[..i];
    assert r[i..] == s[i + 1..];
  }

  /** The moved list is a permutation of the list; the dragged element lands
      at `to`; taking it out again leaves the other elements in their old
      relative order. */
  lemma MovedSpec<T>(s: seq<T>, from: nat, to: nat)
    requires from < |s| && to < |s|
    ensures |Moved(s, from, to)| == |s|
    ensures multiset(Moved(s, from, to)) == multiset(s)
    ensures Moved(s, from, to)[to] == s[from]
    ensures RemoveAt(Moved(s, from, to), to) == RemoveAt(s, from)
  {
    var r := RemoveAt(s, from);
    var m := Moved(s, from, to);
    assert s == s[..from] + [s[from]] + s[from + 1..];
    assert multiset(s) == multiset(s[..from]) + multiset{s[from]} + multiset(s[from + 1..]);
    assert multiset(r) == multiset(s[..from]) + multiset(s[from + 1..]);
    assert r[..to] + r[to..] == r;
    assert multiset(r) == multiset(r[..to]) + multiset(r[to..]);
    assert m == r[..to] + [s[from]] + r[to..];
    assert multiset(m) == multiset(r[..to]) + multiset([s[from]]) + multiset(r[to..]);
    assert multiset(m) == multiset(r) + multiset{s[from]};
    assert m[..to] == r[..to];
    assert m[to + 1..] == r[to..];
  }

  /** Dragging back from `to` to `from` undoes the move. */
  lemma MoveBack<T>(s: seq<T>, from: nat, to: nat)
    requires from < |s| && to < |s|
    ensures Moved(Moved(s, from, to), to, from) == s
  {
    MovedSpec(s, from, to);
    InsertRemoved(s, from);
  }

  /** `newCategories.map((cat, idx) => ({ id: cat.id, displayOrder: idx + 1 }))` */
  function Renumbered(cats: seq<Category>): (r: seq<CategoryOrderRoute.OrderItem>)
    ensures |r| == |cats|
    ensures forall i :: 0 <= i < |cats| ==> r[i] == CategoryOrderRoute.OrderPair(cats[i].id, i + 1)
  {
    seq(|cats|, i requires 0 <= i < |cats| => CategoryOrderRoute.OrderPair(cats[i].id, i + 1))
  }

  /** The sent orders are 1, 2, ..., n: every pair binds, and distinct
      positions get distinct orders. */
  lemma RenumberedConsecutive(cats: seq<Category>)
    ensures forall i :: 0 <= i < |Renumbered(cats)| ==> Renumbered(cats)[i].OrderPair? && 1 <= Renumbered(cats)[i].displayOrder <= |cats|
    ensures forall i, j :: 0 <= i < j < |cats| ==> Renumbered(cats)[i].displayOrder < Renumbered(cats)[j].displayOrder
    ensures CategoryOrderRoute.FirstUnbindable(Renumbered(cats)).None?
  {
  }

  /** When the ids are distinct, the server gives each category the order of
      its position in the sent list. */
  lemma RenumberedLastOrder(cats: seq<Category>, k: nat)
    requires k < |cats| && forall i, j :: 0 <= i < j < |cats| ==> cats[i].id != cats[j].id
    ensures CategoryOrderRoute.LastOrder(Renumbered(cats), cats[k].id) == Some(k + 1)
  {
    var r := Renumbered(cats);
    var last := CategoryOrderRoute.LastOrder(r, cats[k].id);
    var j :| 0 <= j < |r| && r[j] == CategoryOrderRoute.OrderPair(cats[k].id, last.value)
             && forall m :: j < m < |r| && r[m].OrderPair? ==> r[m].id != cats[k].id;
    assert j == k;
  }

  /** What `updateCategoryOrder` gives: the context provides no such function
      (so the call throws a TypeError before anything is sent), or the
      returned promise resolved or rejected. */
  datatype UpdateCall = NoFunction | Settled(resolved: bool)

  /** The toast shown after a drop. */
  datatype Notice = Success(text: string) | Failure(text: string)

  /** The drag state of the menu. */
  class Menu {
    var draggedIndex: Option<nat>
    var dragOverIndex: Option<nat>

    constructor()
      ensures draggedIndex.None? && dragOverIndex.None?
    {
      draggedIndex := None;
      dragOverIndex := None;
    }

    /** `handleDragStart` */
    method DragStart(index: nat)
      modifies this
      ensures draggedIndex == Some(index) && dragOverIndex == old(dragOverIndex)
    {
      draggedIndex := Some(index);
    }

    /** `handleDragEnd` */
    method DragEnd()
      modifies this
      ensures draggedIndex.None? && dragOverIndex.None?
    {
      draggedIndex := None;
      dragOverIndex := None;
    }

    /** `handleDragOver`: passing over the dragged item itself marks nothing. */
    method DragOver(index: nat)
      modifies this
      ensures draggedIndex == old(draggedIndex)
      ensures dragOverIndex == if old(draggedIndex) == Some(index) then old(dragOverIndex) else Some(index)
    {
      if draggedIndex == Some(index) {
        return;
      }
      dragOverIndex := Some(index);
    }

    /** `handleDrop` on the rendered item `dropIndex` of `categories`. With no
        drag in progress, or a drop onto the dragged item, only the hover mark
        is cleared and nothing is sent. Otherwise the moved list, renumbered,
        is handed to `updateCategoryOrder` (`request`), the toast tells how
        the call settled, and both drag indices are reset either way. */
    method Drop(categories: seq<Category>, dropIndex: nat, call: UpdateCall)
      returns (request: Option<seq<CategoryOrderRoute.OrderItem>>, notice: Option<Notice>)
      requires dropIndex < |categories|
      requires draggedIndex.None? || draggedIndex.value < |categories|
      modifies this
      ensures old(draggedIndex).None? || old(draggedIndex) == Some(dropIndex) ==>
        request.None? && notice.None? && draggedIndex == old(draggedIndex) && dragOverIndex.None?
      ensures old(draggedIndex).Some? && old(draggedIndex) != Some(dropIndex) ==>
        draggedIndex.None? && dragOverIndex.None?
        && (call.NoFunction? ==> request.None? && notice == Some(Failure("更新分类顺序失败")))
        && (call.Settled? ==> request == Some(Renumbered(Moved(categories, old(draggedIndex).value, dropIndex))))
        && (call.Settled? && call.resolved ==> notice == Some(Success("分类顺序已更新")))
        && (call.Settled? && !call.resolved ==> notice == Some(Failure("更新分类顺序失败")))
    {
      if draggedIndex.None? || draggedIndex == Some(dropIndex) {
        dragOverIndex := None;
        return None, None;
      }
      var from := draggedIndex.value;
      var newCategories := categories;
      var draggedCategory := newCategories[from];
      newCategories := newCategories[..from] + newCategories[from + 1..];
      newCategories := newCategories[..dropIndex] + [draggedCategory] + newCategories[dropIndex..];
      var updatedCategories := seq(|newCategories|, idx requires 0 <= idx < |newCategories| =>
                                     CategoryOrderRoute.OrderPair(newCategories[idx].id, idx + 1));
      match call {
        case NoFunction =>
          request := None;
          notice := Some(Failure("更新分类顺序失败"));
        case Settled(resolved) =>
          request := Some(updatedCategories);
          notice := Some(if resolved then Success("分类顺序已更新") else Failure("更新分类顺序失败"));
      }
      draggedIndex := None;
      dragOverIndex := None;
    }
  }
}
