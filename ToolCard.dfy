/** `truncateDescription` of the tool card (app/components/Content/ToolCard.jsx). */
module ToolCard {
  import opened Common

  const Kept: nat := 6

  /** A falsy text gives ''; a longer text keeps its first six characters and ends in '...'. */
  function Truncated(text: Option<string>): string {
    if text.None? || text.value == "" then ""
    else if |text.value| > Kept then text.value[..Kept] + "..."
    else text.value
  }

  /** At most nine characters, beginning with a prefix of the text: the whole
      text up to six characters, otherwise six characters and the ellipsis. */
  lemma TruncatedSpec(text: Option<string>)
    ensures |Truncated(text)| <= Kept + 3
    ensures text.Some? && |text.value| <= Kept ==> Truncated(text) == text.value
    ensures text.Some? && |text.value| > Kept ==>
      Truncated(text)[..Kept] == text.value[..Kept] && Truncated(text)[Kept..] == "..."
    ensures text.None? ==> Truncated(text) == ""
  {
  }

  /** Truncating a truncated text changes nothing. */
  lemma TruncatedIdempotent(text: Option<string>)
    ensures Truncated(Some(Truncated(text))) == Truncated(text)
  {
    var r := Truncated(text);
    if text.Some? && |text.value| > Kept {
      assert r[..Kept] == text.value[..Kept];
    }
  }
}
