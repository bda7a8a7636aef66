/** The `useSearch` hook (app/hooks/useSearch.js): the tools whose name,
    description or one of whose tags contains the keyword, ignoring case. The
    debounce of the keyword is left out: the hook is modelled on the keyword
    it holds. */
module UseSearch {
  import opened Common
  import opened Text
  import SettingsRoute

  /** A tool as the client holds it: the settings route's format. */
  type Tool = SettingsRoute.ToolDto

  predicate TagMatches(tags: seq<string>, lowerKeyword: string) {
    exists k :: 0 <= k < |tags| && Contains(Lower(tags[k]), lowerKeyword)
  }

  /** The filter's test, with a null description matching nothing. */
  predicate Matches(t: Tool, lowerKeyword: string) {
    Contains(Lower(t.name), lowerKeyword)
    || (t.description.Some? && Contains(Lower(t.description.value), lowerKeyword))
    || TagMatches(t.tags, lowerKeyword)
  }

  /** `tools.filter(...)`: the matching tools, in their order. */
  function Keep(tools: seq<Tool>, lowerKeyword: string): (r: seq<Tool>)
    ensures Subsequence(r, tools)
    ensures forall x :: x in r <==> x in tools && Matches(x, lowerKeyword)
    ensures forall x :: multiset(r)[x] == if Matches(x, lowerKeyword) then multiset(tools)[x] else 0
  {
    if tools == [] then []
    else
      var rest := Keep(tools[1..], lowerKeyword);
      SubsequenceSkip(rest, tools[0], tools[1..]);
      assert tools == [tools[0]] + tools[1..];
      if Matches(tools[0], lowerKeyword) then [tools[0]] + rest else rest
  }

  /** `filteredTools`. A blank keyword gives the list itself; otherwise the
      result keeps the order of `tools` and holds exactly the tools matching
      the lower-cased keyword, which is not trimmed. */
  function Filtered(tools: seq<Tool>, keyword: string): (r: seq<Tool>)
    ensures Trim(keyword) == "" ==> r == tools
    ensures Subsequence(r, tools)
    ensures Trim(keyword) != "" ==> forall x :: x in r <==> x in tools && Matches(x, Lower(keyword))
    ensures Trim(keyword) != "" ==> forall x :: multiset(r)[x] == if Matches(x, Lower(keyword)) then multiset(tools)[x] else 0
  {
    if Trim(keyword) == "" then
      SubsequenceRefl(tools);
      tools
    else Keep(tools, Lower(keyword))
  }

  lemma {:induction false} SubsequenceRefl<T>(xs: seq<T>)
    ensures Subsequence(xs, xs)
  {
    if xs != [] {
      SubsequenceRefl(xs[1..]);
    }
  }

  /** No text of the tool has a space. */
  predicate SpaceFree(t: Tool) {
    ' ' !in t.name && (t.description.Some? ==> ' ' !in t.description.value)
    && forall j :: 0 <= j < |t.tags| ==> ' ' !in t.tags[j]
  }

  /** A text without spaces contains no keyword with a space, whatever the case. */
  lemma SpaceFreeMisses(text: string, lowerKeyword: string, k: nat)
    requires ' ' !in text && k < |lowerKeyword| && lowerKeyword[k] == ' '
    ensures !Contains(Lower(text), lowerKeyword)
  {
    var l := Lower(text);
    forall i | 0 <= i <= |l| - |lowerKeyword| ensures !OccursAt(l, lowerKeyword, i) {
      assert text[i + k] in text;
      assert l[i..i + |lowerKeyword|][k] == l[i + k];
    }
  }

  /** No tool matching, none is kept. */
  lemma {:induction false} KeepNone(tools: seq<Tool>, lowerKeyword: string)
    requires forall i :: 0 <= i < |tools| ==> !Matches(tools[i], lowerKeyword)
    ensures Keep(tools, lowerKeyword) == []
  {
    if tools != [] {
      assert forall i :: 1 <= i < |tools| ==> tools[1..][i - 1] == tools[i];
      KeepNone(tools[1..], lowerKeyword);
    }
  }

  /** The keyword is not trimmed: one with a space (" ai", say) finds none
      of the tools whose texts have no space, even those that contain the
      keyword's other characters. */
  lemma UntrimmedKeyword(tools: seq<Tool>, keyword: string, k: nat)
    requires Trim(keyword) != "" && k < |keyword| && keyword[k] == ' '
    requires forall i :: 0 <= i < |tools| ==> SpaceFree(tools[i])
    ensures Filtered(tools, keyword) == []
  {
    var lk := Lower(keyword);
    assert lk[k] == ' ';
    forall i | 0 <= i < |tools| ensures !Matches(tools[i], lk) {
      var t := tools[i];
      SpaceFreeMisses(t.name, lk, k);
      if t.description.Some? {
        SpaceFreeMisses(t.description.value, lk, k);
      }
      forall j | 0 <= j < |t.tags| ensures !Contains(Lower(t.tags[j]), lk) {
        SpaceFreeMisses(t.tags[j], lk, k);
      }
    }
    KeepNone(tools, lk);
  }

  // ---------------------------------------------------------------- as written

  /** The TypeError of `null.toLowerCase()`. */
  function NullDescriptionError(): JsError {
    JsError("TypeError", None, Some("Cannot read properties of null (reading 'toLowerCase')"), None)
  }

  /** The test as written: `tool.description.toLowerCase()` is evaluated
      when the name does not match, and throws on a null description. */
  function MatchesAsWritten(t: Tool, lowerKeyword: string): Result<bool, JsError> {
    if Contains(Lower(t.name), lowerKeyword) then Ok(true)
    else if t.description.None? then Err(NullDescriptionError())
    else if Contains(Lower(t.description.value), lowerKeyword) then Ok(true)
    else Ok(TagMatches(t.tags, lowerKeyword))
  }

  function KeepAsWritten(tools: seq<Tool>, lowerKeyword: string): Result<seq<Tool>, JsError> {
    if tools == [] then Ok([])
    else
      match MatchesAsWritten(tools[0], lowerKeyword)
      case Err(e) => Err(e)
      case Ok(keep) =>
        match KeepAsWritten(tools[1..], lowerKeyword)
        case Err(e) => Err(e)
        case Ok(rest) => Ok(if keep then [tools[0]] + rest else rest)
  }

  function FilteredAsWritten(tools: seq<Tool>, keyword: string): Result<seq<Tool>, JsError> {
    if Trim(keyword) == "" then Ok(tools) else KeepAsWritten(tools, Lower(keyword))
  }

  /** As written, the filter agrees with `Filtered` when every tool has a
      description, and throws as soon as a tool whose name does not match has none. */
  lemma {:induction false} KeepAsWrittenAgrees(tools: seq<Tool>, lowerKeyword: string)
    ensures (forall i :: 0 <= i < |tools| ==> tools[i].description.Some?) ==>
      KeepAsWritten(tools, lowerKeyword) == Ok(Keep(tools, lowerKeyword))
    ensures (exists i :: (0 <= i < |tools| && tools[i].description.None?
                          && !Contains(Lower(tools[i].name), lowerKeyword))) ==>
      KeepAsWritten(tools, lowerKeyword) == Err(NullDescriptionError())
  {
    if forall i :: 0 <= i < |tools| ==> tools[i].description.Some? {
      KeepAsWrittenDescribed(tools, lowerKeyword);
    }
    if exists i :: (0 <= i < |tools| && tools[i].description.None? && !Contains(Lower(tools[i].name), lowerKeyword)) {
      var i :| 0 <= i < |tools| && tools[i].description.None? && !Contains(Lower(tools[i].name), lowerKeyword);
      KeepAsWrittenThrowsAt(tools, lowerKeyword, i);
    }
  }

  lemma {:induction false} KeepAsWrittenDescribed(tools: seq<Tool>, lowerKeyword: string)
    requires forall i :: 0 <= i < |tools| ==> tools[i].description.Some?
    ensures KeepAsWritten(tools, lowerKeyword) == Ok(Keep(tools, lowerKeyword))
  {
    if tools != [] {
      var tail := tools[1..];
      assert forall i :: 0 <= i < |tail| ==> tail[i] == tools[i + 1];
      KeepAsWrittenDescribed(tail, lowerKeyword);
    }
  }

  lemma {:induction false} KeepAsWrittenThrowsAt(tools: seq<Tool>, lowerKeyword: string, i: nat)
    requires i < |tools| && tools[i].description.None? && !Contains(Lower(tools[i].name), lowerKeyword)
    ensures KeepAsWritten(tools, lowerKeyword) == Err(NullDescriptionError())
  {
    if i > 0 && MatchesAsWritten(tools[0], lowerKeyword).Ok? {
      var tail := tools[1..];
      assert tail[i - 1] == tools[i];
      KeepAsWrittenThrowsAt(tail, lowerKeyword, i - 1);
    }
  }

  /** A tool saved without a description has a null one, and a keyword its
      name lacks makes the filter throw, where the corrected filter keeps
      that tool exactly when one of its tags matches. */
  lemma FilteredAsWrittenThrows(tools: seq<Tool>, keyword: string, i: nat)
    requires Trim(keyword) != "" && i < |tools| && tools[i].description.None?
    requires !Contains(Lower(tools[i].name), Lower(keyword))
    ensures FilteredAsWritten(tools, keyword) == Err(NullDescriptionError())
    ensures tools[i] in Filtered(tools, keyword) <==> TagMatches(tools[i].tags, Lower(keyword))
  {
    assert tools[i] in tools;
    KeepAsWrittenAgrees(tools, Lower(keyword));
  }
}
