/** `PUT /api/categories/order` (app/api/categories/order/route.ts): the
    check on the body, then one `UPDATE categories SET display_order = ?
    WHERE legacy_id = ? AND is_deleted = 0` per element, all in one
    transaction. */
module CategoryOrderRoute {
  import opened Common
  import opened Db

  /** An element of the body's `categories` array: its `id` and
      `displayOrder`, or an element whose values SQLite refuses to bind, which
      makes the statement throw. */
  datatype OrderItem = OrderPair(id: int, displayOrder: int) | Unbindable(error: JsError)

  /** What the route answers. */
  datatype OrderReply = Reordered(message: string) | Refused(status: int, error: string, details: Option<string>)

  /** One category under one update. */
  function CategoryReordered(c: Category, legacyId: int, order: int): Category {
    if !c.isDeleted && c.legacyId == legacyId then c.(displayOrder := order) else c
  }

  /** One run of the update statement. */
  function OrderSet(cats: seq<Category>, legacyId: int, order: int): seq<Category> {
    seq(|cats|, i requires 0 <= i < |cats| => CategoryReordered(cats[i], legacyId, order))
  }

  /** An update changes the display order of the live categories with that
      legacy id, and nothing else. */
  lemma OrderSetSpec(cats: seq<Category>, legacyId: int, order: int)
    ensures |OrderSet(cats, legacyId, order)| == |cats|
    ensures forall i :: 0 <= i < |cats| ==>
      (if !cats[i].isDeleted && cats[i].legacyId == legacyId
       then OrderSet(cats, legacyId, order)[i] == cats[i].(displayOrder := order)
       else OrderSet(cats, legacyId, order)[i] == cats[i])
  {
  }

  /** The transaction's body: the updates in list order; the first element
      that cannot be bound throws. */
  function Applied(cats: seq<Category>, items: seq<OrderItem>): Result<seq<Category>, JsError> {
    if items == [] then Ok(cats)
    else
      match Applied(cats, items[..|items| - 1])
      case Err(e) => Err(e)
      case Ok(c) =>
        match items[|items| - 1]
        case OrderPair(id, order) => Ok(OrderSet(c, id, order))
        case Unbindable(e) => Err(e)
  }

  /** The display order the last pair naming `legacyId` sets, if any pair does. */
  function LastOrder(items: seq<OrderItem>, legacyId: int): (r: Option<int>)
    ensures r.Some? <==> exists k :: 0 <= k < |items| && items[k].OrderPair? && items[k].id == legacyId
    ensures r.Some? ==> exists k :: (0 <= k < |items| && items[k] == OrderPair(legacyId, r.value)
                                     && forall j :: k < j < |items| && items[j].OrderPair? ==> items[j].id != legacyId)
  {
    if items == [] then None
    else
      var last := items[|items| - 1];
      if last.OrderPair? && last.id == legacyId then
        assert items[|items| - 1] == OrderPair(legacyId, last.displayOrder);
        Some(last.displayOrder)
      else
        var rest := LastOrder(items[..|items| - 1], legacyId);
        LastOrderSkip(items, legacyId, rest);
        rest
  }

  /** A last element that is not a pair for `legacyId` changes nothing. */
  lemma LastOrderSkip(items: seq<OrderItem>, legacyId: int, rest: Option<int>)
    requires items != [] && !(items[|items| - 1].OrderPair? && items[|items| - 1].id == legacyId)
    requires var init := items[..|items| - 1];
      (rest.Some? <==> exists k :: 0 <= k < |init| && init[k].OrderPair? && init[k].id == legacyId)
      && (rest.Some? ==> exists k :: (0 <= k < |init| && init[k] == OrderPair(legacyId, rest.value)
                                      && forall j :: k < j < |init| && init[j].OrderPair? ==> init[j].id != legacyId))
    ensures rest.Some? <==> exists k :: 0 <= k < |items| && items[k].OrderPair? && items[k].id == legacyId
    ensures rest.Some? ==> exists k :: (0 <= k < |items| && items[k] == OrderPair(legacyId, rest.value)
                                        && forall j :: k < j < |items| && items[j].OrderPair? ==> items[j].id != legacyId)
  {
    var n := |items| - 1;
    var init := items[..n];
    if exists k :: 0 <= k < |items| && items[k].OrderPair? && items[k].id == legacyId {
      var k :| 0 <= k < |items| && items[k].OrderPair? && items[k].id == legacyId;
      assert k < n && init[k] == items[k];
    }
    if rest.Some? {
      var k :| 0 <= k < |init| && init[k] == OrderPair(legacyId, rest.value)
               && forall j :: k < j < |init| && init[j].OrderPair? ==> init[j].id != legacyId;
      assert items[k] == init[k];
      forall j | k < j < |items| && items[j].OrderPair? ensures items[j].id != legacyId {
        if j < n {
          assert items[j] == init[j];
        }
      }
    }
  }

  /** The index of the first element that cannot be bound, if any. */
  function FirstUnbindable(items: seq<OrderItem>): (r: Option<nat>)
    ensures r.Some? ==> (r.value < |items| && items[r.value].Unbindable?
                         && forall k :: 0 <= k < r.value ==> items[k].OrderPair?)
    ensures r.None? ==> forall k :: 0 <= k < |items| ==> items[k].OrderPair?
  {
    if items == [] then None
    else
      var rest := FirstUnbindable(items[..|items| - 1]);
      assert forall k :: 0 <= k < |items| - 1 ==> items[..|items| - 1][k] == items[k];
      if rest.Some? then rest
      else if items[|items| - 1].Unbindable? then Some(|items| - 1)
      else None
  }

  /** The whole transaction against its reference: it fails with the error of
      the first element that cannot be bound; otherwise every live category
      takes the display order of the last pair naming it, and every other
      category, deleted ones included, is unchanged. */
  lemma {:induction false} AppliedCharacterised(cats: seq<Category>, items: seq<OrderItem>)
    ensures Applied(cats, items).Err? <==> FirstUnbindable(items).Some?
    ensures Applied(cats, items).Err? ==> Applied(cats, items).error == items[FirstUnbindable(items).value].error
    ensures Applied(cats, items).Ok? ==>
      var r := Applied(cats, items).value;
      |r| == |cats|
      && forall i :: 0 <= i < |cats| ==>
        (if !cats[i].isDeleted && LastOrder(items, cats[i].legacyId).Some?
         then r[i] == cats[i].(displayOrder := LastOrder(items, cats[i].legacyId).value)
         else r[i] == cats[i])
  {
    if items != [] {
      var init := items[..|items| - 1];
      AppliedCharacterised(cats, init);
      if Applied(cats, init).Ok? && items[|items| - 1].OrderPair? {
        var c := Applied(cats, init).value;
        var last := items[|items| - 1];
        OrderSetSpec(c, last.id, last.displayOrder);
      }
    }
  }

  /** The categories keep their number, legacy ids, names, icons and deletion
      flags, so reordering keeps the schema's constraints. */
  lemma ReorderKeepsWellFormed(s: Snapshot, items: seq<OrderItem>)
    requires WellFormed(s) && Applied(s.categories, items).Ok?
    ensures WellFormed(s.(categories := Applied(s.categories, items).value))
  {
    AppliedCharacterised(s.categories, items);
    var r := Applied(s.categories, items).value;
    forall i | 0 <= i < |r| ensures r[i].legacyId == s.categories[i].legacyId {
    }
  }

  /** Once an element has thrown, the elements after it change nothing: the
      transaction ends with that error. */
  lemma {:induction false} AppliedFailsFrom(cats: seq<Category>, items: seq<OrderItem>, j: nat)
    requires j <= |items| && Applied(cats, items[..j]).Err?
    ensures Applied(cats, items) == Applied(cats, items[..j])
    decreases |items| - j
  {
    if j < |items| {
      assert items[..j + 1][..j] == items[..j];
      AppliedFailsFrom(cats, items, j + 1);
    } else {
      assert items[..j] == items;
    }
  }

  /** The route: a body whose `categories` is not an array (`None`) or is
      empty is refused with 400; otherwise the updates run in one
      transaction, which a throwing element rolls back entirely. */
  method Put(store: Store, categories: Option<seq<OrderItem>>) returns (reply: OrderReply)
    modifies store
    ensures categories.None? || categories.value == [] ==>
      reply == Refused(400, "无效的分类数据", None) && store.State() == old(store.State())
    ensures categories.Some? && categories.value != [] ==>
      match Applied(old(store.categories), categories.value)
      case Ok(c) => store.State() == old(store.State()).(categories := c) && reply == Reordered("分类顺序已更新")
      case Err(e) => store.State() == old(store.State()) && reply == Refused(500, "更新分类顺序失败", e.message)
  {
    if categories.None? || |categories.value| == 0 {
      return Refused(400, "无效的分类数据", None);
    }
    var items := categories.value;
    var saved := store.categories;
    var i := 0;
    while i < |items|
      invariant 0 <= i <= |items|
      invariant Applied(saved, items[..i]) == Ok(store.categories)
      invariant store.State() == old(store.State()).(categories := store.categories)
    {
      assert items[..i + 1][..i] == items[..i];
      match items[i]
      case Unbindable(e) =>
        assert Applied(saved, items[..i + 1]) == Err(e);
        AppliedFailsFrom(saved, items, i + 1);
        store.categories := saved;
        return Refused(500, "更新分类顺序失败", e.message);
      case OrderPair(id, order) =>
        store.categories := OrderSet(store.categories, id, order);
      i := i + 1;
    }
    assert items[..i] == items;
    reply := Reordered("分类顺序已更新");
  }
}
