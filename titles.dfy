/** Chat titles: a title is derived from message content after removing
    the first embedded reasoning section. */
module Titles {
  import opened Options
  import opened Text

  const ReasoningStart := "[推理过程:开始]"
  const ReasoningEnd := "[推理过程:结束]"

  /** The title given to a chat whose content has nothing left to show. */
  const NewChatTitle := "新对话"

  /** The longest title prefix taken from the content. */
  const TitleLength := 20

  const Ellipsis := "..."

  /** The first reasoning section removed, as the non-global lazy pattern
      `\[推理过程:开始\]([\s\S]*?)\[推理过程:结束\]` does in `replace`: the
      section runs from the first start marker to the first end marker that
      follows it, and nothing is removed when no end marker follows. */
  function StripReasoning(s: string): (r: string)
    ensures |r| <= |s|
    ensures (forall k: nat :: !OccursAt(s, ReasoningStart, k)) ==> r == s
  {
    match IndexOfFrom(s, ReasoningStart, 0)
    case None => s
    case Some(p) =>
      match IndexOfFrom(s, ReasoningEnd, p + |ReasoningStart|)
      case None => s
      case Some(e) => s[..p] + s[e + |ReasoningEnd|..]
  }

  /** When a start marker at `p` (the first one) is closed by an end marker
      at `e` (the first after it), exactly `s[p..e + |end marker|]` is cut. */
  lemma StripRemovesFirstSpan(s: string, p: nat, e: nat)
    requires OccursAt(s, ReasoningStart, p)
    requires forall k :: 0 <= k < p ==> !OccursAt(s, ReasoningStart, k)
    requires p + |ReasoningStart| <= e && OccursAt(s, ReasoningEnd, e)
    requires forall k :: p + |ReasoningStart| <= k < e ==> !OccursAt(s, ReasoningEnd, k)
    ensures StripReasoning(s) == s[..p] + s[e + |ReasoningEnd|..]
  {
    var first := IndexOfFrom(s, ReasoningStart, 0);
    assert first == Some(p);
    var close := IndexOfFrom(s, ReasoningEnd, p + |ReasoningStart|);
    assert close == Some(e);
  }

  /** When no end marker follows the first start marker, the content is
      returned as is. */
  lemma StripKeepsUnclosedSection(s: string, p: nat)
    requires OccursAt(s, ReasoningStart, p)
    requires forall k :: 0 <= k < p ==> !OccursAt(s, ReasoningStart, k)
    requires forall k :: p + |ReasoningStart| <= k ==> !OccursAt(s, ReasoningEnd, k)
    ensures StripReasoning(s) == s
  {
    assert IndexOfFrom(s, ReasoningStart, 0) == Some(p);
  }

  /** Trimming the first `TitleLength` characters of already-trimmed text
      keeps a non-empty prefix of it unless the text is empty, and drops only
      white space from the end of those characters. */
  lemma TrimmedTake(clean: string)
    requires clean == [] || !IsJsSpace(clean[0])
    ensures var t := Trim(Take(clean, TitleLength));
      && |t| <= TitleLength
      && (t == [] <==> clean == [])
      && t == clean[..|t|]
      && AllSpace(clean[|t|..if |clean| < TitleLength then |clean| else TitleLength])
  {
    var t0 := Take(clean, TitleLength);
    if clean != [] {
      assert t0[0] == clean[0];
      assert !AllSpace(t0);
    }
  }

  /** `getTitle`: the first reasoning section removed and the rest trimmed;
      then its first `TitleLength` characters, trimmed again, followed by
      an ellipsis, or `NewChatTitle` when nothing is left. */
  function GetTitle(content: string): string {
    var clean := Trim(StripReasoning(content));
    var title := Trim(Take(clean, TitleLength));
    if |title| > 0 then title + Ellipsis else NewChatTitle
  }

  /** A derived title is `NewChatTitle` exactly when the content is blank
      once its reasoning section is removed; otherwise it has at most
      `TitleLength` characters before the ellipsis, and those are a prefix of
      the cleaned content that neither starts nor ends with white space, and
      only white space of the first `TitleLength` characters follows them. */
  lemma TitleShape(content: string)
    ensures GetTitle(content) == NewChatTitle <==> AllSpace(StripReasoning(content))
    ensures GetTitle(content) != NewChatTitle ==>
      |Ellipsis| < |GetTitle(content)| <= TitleLength + |Ellipsis|
    ensures GetTitle(content) != NewChatTitle ==>
      var r := GetTitle(content);
      var clean := Trim(StripReasoning(content));
      var head := r[..|r| - |Ellipsis|];
      && r == head + Ellipsis
      && |head| <= |clean| && head == clean[..|head|]
      && !IsJsSpace(head[0]) && !IsJsSpace(head[|head| - 1])
      && AllSpace(clean[|head|..if |clean| < TitleLength then |clean| else TitleLength])
  {
    var stripped := StripReasoning(content);
    var clean := Trim(stripped);
    var title := Trim(Take(clean, TitleLength));
    TrimmedTake(clean);
    var r := GetTitle(content);
    if title == [] {
      assert r == NewChatTitle;
    } else {
      assert r == title + Ellipsis;
      assert |r| == |title| + 3;
      assert r[..|r| - |Ellipsis|] == title;
    }
  }
}
