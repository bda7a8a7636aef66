/** `POST /api/tools` (app/api/tools/route.ts): the checks on the request,
    its normalisation into the input of `createTool`, the lookup of the new
    row, and the conversion of that row into the client's tool format. The
    request body is the parsed JSON; its text fields are strings when present. */
module ToolsRoute {
  import opened Common
  import opened Text
  import opened Db

  /** The fields of the body; `None` is a property that is absent or null. */
  datatype ToolRequest = ToolRequest(
    name: Option<string>, description: Option<string>, logo: Option<string>, url: Option<string>,
    categoryId: Option<int>, isFeatured: JsValue, isNew: JsValue, tags: Option<seq<string>>)

  /** A tool in the client's format. */
  datatype ToolDto = ToolDto(
    id: int, name: string, description: Option<string>, logo: Option<string>, url: Option<string>,
    categoryId: int, categoryName: string, isFeatured: bool, isNew: bool, viewCount: int,
    addedDate: Option<string>, tags: seq<string>)

  /** What the route answers: an error with its status, or the created tool with status 200. */
  datatype PostReply = Failed(status: int, error: string) | Created(tool: ToolDto, message: string)

  /** `value?.trim()` */
  function TrimmedOpt(v: Option<string>): Option<string> {
    if v.Some? then Some(Trim(v.value)) else None
  }

  /** The request's name is missing or blank. */
  predicate NameMissing(req: ToolRequest) {
    req.name.None? || Trim(req.name.value) == ""
  }

  /** `!categoryId`: absent, null or 0. */
  predicate CategoryMissing(req: ToolRequest) {
    req.categoryId.None? || req.categoryId.value == 0
  }

  /** The argument of `createTool`: trimmed texts, the flags as 1 or 0, and `tags || []`. */
  function Normalised(req: ToolRequest): NewTool
    requires req.name.Some? && req.categoryId.Some?
  {
    NewTool(Trim(req.name.value), TrimmedOpt(req.description), TrimmedOpt(req.logo), TrimmedOpt(req.url),
            req.categoryId.value,
            Some(if Truthy(req.isFeatured) then 1 else 0), Some(if Truthy(req.isNew) then 1 else 0),
            Some(if req.tags.Some? then req.tags.value else []))
  }

  /** `tags ? tags.split(',') : []`: the empty string and null give no tags;
      empty pieces are kept. */
  function TagList(tags: Option<string>): (r: seq<string>)
    ensures tags.Some? && tags.value != "" ==> Join(r, ",") == tags.value
    ensures tags.None? || tags.value == "" ==> r == []
  {
    if tags.Some? && tags.value != "" then
      JoinSplit(tags.value, ',');
      Split(tags.value, ',')
    else []
  }

  /** The client's format of a listing row; `categoryId` echoes the request. */
  function DtoOf(row: ToolRow, categoryId: int): ToolDto {
    ToolDto(row.legacyId, row.name, row.description, row.logo, row.url, categoryId, row.categoryName,
            row.isFeatured == 1, row.isNew == 1, row.viewCount, row.addedDate, TagList(row.tags))
  }

  /** `error.message || '创建工具失败'` */
  function FailureText(e: JsError): string {
    if e.message.Some? && e.message.value != "" then e.message.value else "创建工具失败"
  }

  /** The route on a store: the store afterwards and the answer. */
  function Post(s: Snapshot, req: ToolRequest, now: string): (Snapshot, PostReply) {
    if req.name.None? || req.name.value == "" || Trim(req.name.value) == "" then (s, Failed(400, "工具名称不能为空"))
    else if req.categoryId.None? || req.categoryId.value == 0 then (s, Failed(400, "分类ID不能为空"))
    else
      match ToolCreated(s, Normalised(req), now)
      case Err(e) => (s, Failed(500, FailureText(e)))
      case Ok((s2, created)) =>
        match ToolById(s2, created.id)
        case None => (s2, Failed(500, "创建工具失败"))
        case Some(row) => (s2, Created(DtoOf(row, req.categoryId.value), "工具创建成功"))
  }

  /** A missing or blank name, then a missing category, is refused with 400
      and nothing is created. */
  lemma PostRefusals(s: Snapshot, req: ToolRequest, now: string)
    ensures NameMissing(req) ==> Post(s, req, now) == (s, Failed(400, "工具名称不能为空"))
    ensures !NameMissing(req) && CategoryMissing(req) ==> Post(s, req, now) == (s, Failed(400, "分类ID不能为空"))
    ensures Post(s, req, now).1.Failed? && Post(s, req, now).1.status == 400 ==> Post(s, req, now).0 == s
  {
  }

  /** Naming no live category is a 500 with the helper's message, and nothing is created. */
  lemma PostUnknownCategory(s: Snapshot, req: ToolRequest, now: string)
    requires WellFormed(s) && !NameMissing(req) && !CategoryMissing(req)
    requires forall id :: IsActiveCategory(s, id) ==> CategoryOf(s, id).legacyId != req.categoryId.value
    ensures Post(s, req, now) == (s, Failed(500, "分类不存在: " + ShowInt(req.categoryId.value)))
  {
    ToolCreatedSpec(s, Normalised(req), now);
  }

  /** Naming a live category creates the tool, and the answer is never the
      missing-row failure: the tool gets a fresh legacy id, the trimmed name
      and texts (blank ones become null), the flags as booleans of the
      request's truthiness, no views, the clock's date, and the category's
      name, while `categoryId` echoes the request. */
  lemma PostCreates(s: Snapshot, req: ToolRequest, now: string)
    requires WellFormed(s) && !NameMissing(req) && !CategoryMissing(req)
    requires exists id :: IsActiveCategory(s, id) && CategoryOf(s, id).legacyId == req.categoryId.value
    ensures var (s2, reply) := Post(s, req, now);
      reply.Created? && reply.message == "工具创建成功"
      && WellFormed(s2) && |s2.tools| == |s.tools| + 1 && s2.tools[..|s.tools|] == s.tools && s2.categories == s.categories
      && (var t := reply.tool;
          (forall i :: 0 <= i < |s.tools| ==> s.tools[i].legacyId < t.id)
          && t.name == Trim(req.name.value) && t.categoryId == req.categoryId.value
          && t.description == OrNull(TrimmedOpt(req.description))
          && t.logo == OrNull(TrimmedOpt(req.logo)) && t.url == OrNull(TrimmedOpt(req.url))
          && t.isFeatured == Truthy(req.isFeatured) && t.isNew == Truthy(req.isNew)
          && t.viewCount == 0 && t.addedDate == Some(now)
          && FindActiveCategory(s, req.categoryId.value).Some?
          && t.categoryName == CategoryOf(s, FindActiveCategory(s, req.categoryId.value).value).name)
  {
    var input := Normalised(req);
    ToolCreatedSpec(s, input, now);
    var (s2, created) := ToolCreated(s, input, now).value;
    var t := ToolOf(s2, created.id);
    assert IsActiveCategory(s2, t.categoryId.value);
    assert IsListedTool(s2, created.id);
  }

  /** The created tool's tags re-joined with commas are its tags column, and
      they are the attached names when those hold no comma. */
  lemma PostCreatesTags(s: Snapshot, req: ToolRequest, now: string)
    requires WellFormed(s) && !NameMissing(req) && !CategoryMissing(req)
    requires exists id :: IsActiveCategory(s, id) && CategoryOf(s, id).legacyId == req.categoryId.value
    ensures var (s2, reply) := Post(s, req, now);
      reply.Created?
      && (var names := TagNamesOf(s2, |s.tools| + 1);
          (Join(names, ",") != "" ==> Join(reply.tool.tags, ",") == Join(names, ","))
          && (Join(names, ",") != "" && (forall k :: 0 <= k < |names| ==> ',' !in names[k]) ==> reply.tool.tags == names))
  {
    PostCreates(s, req, now);
    var (s2, created) := ToolCreated(s, Normalised(req), now).value;
    var names := TagNamesOf(s2, |s.tools| + 1);
    if Join(names, ",") != "" && (forall k :: 0 <= k < |names| ==> ',' !in names[k]) {
      assert names != [];
      SplitJoin(names, ',');
    }
  }

  /** The created tool's tags are the ones the request lists, matched to
      existing tags under NOCASE (`Db.TagsAsRequested`). */
  lemma PostAttachesRequestedTags(s: Snapshot, req: ToolRequest, now: string)
    requires WellFormed(s) && !NameMissing(req) && !CategoryMissing(req)
    requires exists id :: IsActiveCategory(s, id) && CategoryOf(s, id).legacyId == req.categoryId.value
    ensures TagsAsRequested(s.tags, s.toolTags, Post(s, req, now).0, |s.tools| + 1, if req.tags.Some? then req.tags.value else [])
  {
    var input := Normalised(req);
    assert FindActiveCategory(s, input.categoryLegacyId).Some?;
    ToolCreatedTags(s, input, now);
    PostStore(s, req, now);
  }

  /** An accepted request leaves the store `createTool` produced, with the
      new tool's id one past the last row. */
  lemma PostStore(s: Snapshot, req: ToolRequest, now: string)
    requires !NameMissing(req) && !CategoryMissing(req)
    requires FindActiveCategory(s, Normalised(req).categoryLegacyId).Some?
    ensures ToolCreated(s, Normalised(req), now).Ok?
    ensures Post(s, req, now).0 == ToolCreated(s, Normalised(req), now).value.0
    ensures ToolCreated(s, Normalised(req), now).value.1.id == |s.tools| + 1
  {
  }
}
