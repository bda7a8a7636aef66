/** The add-tool card (app/components/Content/AddToolCard.jsx): the tag list
    edited in its dialog, the tag names it sends, and how it reads the
    route's answer. The request itself and the form are left out; `now` is
    `Date.now()`. */
module AddToolCard {
  import opened Common
  import opened Text

  /** A tag of the dialog, with its temporary id. */
  datatype TempTag = TempTag(id: string, name: string)

  const MaxTagLength: nat := 50

  /** What `handleAddTag` decides for the input: the warning it shows, or the
      name of the tag it appends. */
  function TagDecision(tags: seq<TempTag>, input: string): (r: Result<string, string>)
    ensures r.Ok? ==> r.value == Trim(input)
  {
    var tagName := Trim(input);
    if tagName == "" then Err("标签名称不能为空")
    else if |tagName| > MaxTagLength then Err("标签名称不能超过50个字符")
    else if exists k :: 0 <= k < |tags| && tags[k].name == tagName then Err("标签已存在")
    else Ok(tagName)
  }

  /** The names the dialog can hold: trimmed, non-empty, at most 50
      characters, and pairwise distinct. */
  predicate ValidTags(tags: seq<TempTag>) {
    (forall k :: 0 <= k < |tags| ==> ValidName(tags[k].name))
    && forall i, j :: 0 <= i < j < |tags| ==> tags[i].name != tags[j].name
  }

  predicate ValidName(name: string) {
    name != "" && |name| <= MaxTagLength && Trim(name) == name
  }

  /** The guards in order: a blank input, then a too long name, then an
      existing name (compared exactly, case included); anything else is
      accepted, and appending it keeps the names valid. */
  lemma TagDecisionSpec(tags: seq<TempTag>, input: string, id: string)
    ensures Trim(input) == "" ==> TagDecision(tags, input) == Err("标签名称不能为空")
    ensures Trim(input) != "" && |Trim(input)| > MaxTagLength ==> TagDecision(tags, input) == Err("标签名称不能超过50个字符")
    ensures Trim(input) != "" && |Trim(input)| <= MaxTagLength && (exists k :: 0 <= k < |tags| && tags[k].name == Trim(input)) ==>
      TagDecision(tags, input) == Err("标签已存在")
    ensures TagDecision(tags, input).Ok? <==>
      Trim(input) != "" && |Trim(input)| <= MaxTagLength && forall k :: 0 <= k < |tags| ==> tags[k].name != Trim(input)
    ensures ValidTags(tags) && TagDecision(tags, input).Ok? ==> ValidTags(tags + [TempTag(id, Trim(input))])
  {
    var name := Trim(input);
    if ValidTags(tags) && TagDecision(tags, input).Ok? {
      TrimIdempotent(input);
      assert ValidName(name);
      SnocValid(tags, TempTag(id, name));
    }
  }

  lemma SnocValid(tags: seq<TempTag>, t: TempTag)
    requires ValidTags(tags) && ValidName(t.name)
    requires forall k :: 0 <= k < |tags| ==> tags[k].name != t.name
    ensures ValidTags(tags + [t])
  {
    var r := tags + [t];
    assert forall k :: 0 <= k < |tags| ==> r[k] == tags[k];
  }

  /** `tags.filter(tag => tag.id !== tagId)` */
  function WithoutTag(tags: seq<TempTag>, tagId: string): seq<TempTag> {
    if tags == [] then []
    else (if tags[0].id == tagId then [] else [tags[0]]) + WithoutTag(tags[1..], tagId)
  }

  /** Removing keeps the other tags in order and drops exactly those with that id. */
  lemma WithoutTagSpec(tags: seq<TempTag>, tagId: string)
    ensures Subsequence(WithoutTag(tags, tagId), tags)
    ensures forall t :: t in WithoutTag(tags, tagId) <==> t in tags && t.id != tagId
    ensures forall t :: multiset(WithoutTag(tags, tagId))[t] == if t.id != tagId then multiset(tags)[t] else 0
  {
    WithoutTagOrdered(tags, tagId);
    WithoutTagCounts(tags, tagId);
  }

  lemma {:induction false} WithoutTagOrdered(tags: seq<TempTag>, tagId: string)
    ensures Subsequence(WithoutTag(tags, tagId), tags)
  {
    if tags != [] {
      WithoutTagOrdered(tags[1..], tagId);
      var rest := WithoutTag(tags[1..], tagId);
      assert tags == [tags[0]] + tags[1..];
      if tags[0].id == tagId {
        SubsequenceSkip(rest, tags[0], tags[1..]);
        assert WithoutTag(tags, tagId) == rest;
      } else {
        assert WithoutTag(tags, tagId) == [tags[0]] + rest;
      }
    }
  }

  lemma {:induction false} WithoutTagCounts(tags: seq<TempTag>, tagId: string)
    ensures forall t :: multiset(WithoutTag(tags, tagId))[t] == if t.id != tagId then multiset(tags)[t] else 0
  {
    if tags != [] {
      WithoutTagCounts(tags[1..], tagId);
      assert tags == [tags[0]] + tags[1..];
      assert multiset(tags) == multiset{tags[0]} + multiset(tags[1..]);
    }
  }

  /** Removing a tag keeps the names valid. */
  lemma {:induction false} WithoutTagKeepsValid(tags: seq<TempTag>, tagId: string)
    requires ValidTags(tags)
    ensures ValidTags(WithoutTag(tags, tagId))
  {
    if tags != [] {
      var tail := tags[1..];
      assert ValidTags(tail) by {
        assert forall k :: 0 <= k < |tail| ==> tail[k] == tags[k + 1];
      }
      WithoutTagKeepsValid(tail, tagId);
      if tags[0].id != tagId {
        var rest := WithoutTag(tail, tagId);
        assert WithoutTag(tags, tagId) == [tags[0]] + rest;
        NameNotInRest(tags, tagId);
        ConsValid(tags[0], rest);
      }
    }
  }

  /** The first name of valid tags is the name of no tag left after removing
      from the others. */
  lemma NameNotInRest(tags: seq<TempTag>, tagId: string)
    requires ValidTags(tags) && tags != []
    ensures forall j :: 0 <= j < |WithoutTag(tags[1..], tagId)| ==> WithoutTag(tags[1..], tagId)[j].name != tags[0].name
  {
    var tail := tags[1..];
    forall k | 0 <= k < |tail| ensures tail[k].name != tags[0].name {
      assert tail[k] == tags[k + 1];
    }
    WithoutTagAvoids(tail, tagId, tags[0].name);
  }

  /** Removing tags brings in no name. */
  lemma {:induction false} WithoutTagAvoids(tags: seq<TempTag>, tagId: string, name: string)
    requires forall k :: 0 <= k < |tags| ==> tags[k].name != name
    ensures forall j :: 0 <= j < |WithoutTag(tags, tagId)| ==> WithoutTag(tags, tagId)[j].name != name
  {
    if tags != [] {
      var tail := tags[1..];
      assert forall k :: 0 <= k < |tail| ==> tail[k] == tags[k + 1];
      WithoutTagAvoids(tail, tagId, name);
    }
  }

  lemma ConsValid(t: TempTag, rest: seq<TempTag>)
    requires ValidName(t.name) && ValidTags(rest)
    requires forall j :: 0 <= j < |rest| ==> rest[j].name != t.name
    ensures ValidTags([t] + rest)
  {
    var r := [t] + rest;
    assert forall k :: 1 <= k < |r| ==> r[k] == rest[k - 1];
  }

  /** `tags.map(tag => tag.name)`: the names sent, in list order. */
  function PayloadTags(tags: seq<TempTag>): (r: seq<string>)
    ensures |r| == |tags| && forall k :: 0 <= k < |tags| ==> r[k] == tags[k].name
  {
    seq(|tags|, k requires 0 <= k < |tags| => tags[k].name)
  }

  /** The sent names of valid tags are distinct, non-empty, at most 50
      characters and free of surrounding white space. */
  lemma PayloadOfValidTags(tags: seq<TempTag>)
    requires ValidTags(tags)
    ensures forall i, j :: 0 <= i < j < |tags| ==> PayloadTags(tags)[i] != PayloadTags(tags)[j]
    ensures forall k :: 0 <= k < |tags| ==> ValidName(PayloadTags(tags)[k])
  {
  }

  /** The fields of `data.data` that the card checks; `Undefined` is an absent one. */
  datatype ReturnedTool = ReturnedTool(id: JsValue, name: JsValue, categoryId: JsValue)

  /** The part of the answer the card reads: `success`, `data` (`None` when
      absent or null) and `error` (`None` when absent, null or empty). */
  datatype SaveBody = SaveBody(success: JsValue, data: Option<ReturnedTool>, error: Option<string>)

  /** `!newTool.id || !newTool.name || newTool.categoryId === undefined` */
  predicate ValidTool(t: ReturnedTool) {
    Truthy(t.id) && Truthy(t.name) && t.categoryId != Undefined
  }

  /** The toast after saving. */
  datatype Notice = Success(text: string) | Failure(text: string)

  /** `handleSave` after the request: `None` when validating the form, the
      request or parsing the answer threw. */
  function SaveNotice(body: Option<SaveBody>): (r: Notice)
    ensures r.Success? <==> body.Some? && Truthy(body.value.success) && body.value.data.Some? && ValidTool(body.value.data.value)
  {
    if body.None? then Failure("添加工具失败")
    else if Truthy(body.value.success) && body.value.data.Some? then
      if ValidTool(body.value.data.value) then Success("工具添加成功") else Failure("服务器返回了无效的工具数据")
    else Failure(if body.value.error.Some? then body.value.error.value else "添加工具失败")
  }

  /** The dialog's state. */
  class AddDialog {
    var modalVisible: bool
    var tags: seq<TempTag>
    var newTagInput: string
    var tagInputVisible: bool

    constructor()
      ensures !modalVisible && tags == [] && newTagInput == "" && !tagInputVisible
    {
      modalVisible := false;
      tags := [];
      newTagInput := "";
      tagInputVisible := false;
    }

    /** `handleClick`: opens the dialog with no tags. */
    method Open()
      modifies this
      ensures modalVisible && tags == [] && newTagInput == old(newTagInput) && tagInputVisible == old(tagInputVisible)
    {
      modalVisible := true;
      tags := [];
    }

    /** `handleAddTag`: a refused input leaves everything as it was and gives
        a warning; an accepted one is appended with id `temp-<now>`, and the
        input is cleared and hidden. */
    method AddTag(now: nat) returns (warning: Option<string>)
      modifies this
      ensures modalVisible == old(modalVisible)
      ensures TagDecision(old(tags), old(newTagInput)).Err? ==>
        warning == Some(TagDecision(old(tags), old(newTagInput)).error)
        && tags == old(tags) && newTagInput == old(newTagInput) && tagInputVisible == old(tagInputVisible)
      ensures TagDecision(old(tags), old(newTagInput)).Ok? ==>
        warning.None? && tags == old(tags) + [TempTag("temp-" + ShowNat(now), Trim(old(newTagInput)))]
        && newTagInput == "" && !tagInputVisible
    {
      var tagName := Trim(newTagInput);
      if tagName == "" {
        return Some("标签名称不能为空");
      }
      if |tagName| > MaxTagLength {
        return Some("标签名称不能超过50个字符");
      }
      var k := 0;
      while k < |tags|
        invariant 0 <= k <= |tags|
        invariant forall m :: 0 <= m < k ==> tags[m].name != tagName
      {
        if tags[k].name == tagName {
          return Some("标签已存在");
        }
        k := k + 1;
      }
      tags := tags + [TempTag("temp-" + ShowNat(now), tagName)];
      newTagInput := "";
      tagInputVisible := false;
      warning := None;
    }

    /** `handleRemoveTag` */
    method RemoveTag(tagId: string)
      modifies this
      ensures tags == WithoutTag(old(tags), tagId)
      ensures modalVisible == old(modalVisible) && newTagInput == old(newTagInput) && tagInputVisible == old(tagInputVisible)
    {
      tags := WithoutTag(tags, tagId);
    }

    /** The end of `handleSave`: on success the dialog closes and its tags are
        cleared; otherwise nothing changes. */
    method Saved(body: Option<SaveBody>) returns (notice: Notice)
      modifies this
      ensures notice == SaveNotice(body)
      ensures notice.Success? ==> !modalVisible && tags == [] && newTagInput == old(newTagInput) && tagInputVisible == old(tagInputVisible)
      ensures notice.Failure? ==>
        modalVisible == old(modalVisible) && tags == old(tags)
        && newTagInput == old(newTagInput) && tagInputVisible == old(tagInputVisible)
    {
      notice := SaveNotice(body);
      if notice.Success? {
        modalVisible := false;
        tags := [];
      }
    }
  }
}
