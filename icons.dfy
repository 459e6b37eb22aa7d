/** The icon given to an example question when a project configuration is
    saved: the first keyword group found in the lower-cased text decides. */
module Icons {
  import opened Options
  import opened Text

  /** A group of keywords and the icon they select. */
  datatype IconRule = IconRule(keywords: seq<string>, icon: string)

  /** The groups in the order they are tried. */
  const IconRules: seq<IconRule> := [
    IconRule(["新闻", "事件", "热点"], "bi-newspaper"),
    IconRule(["分析", "趋势", "走势"], "bi-graph-up"),
    IconRule(["技术", "科技", "编程"], "bi-code-slash"),
    IconRule(["金融", "股市", "市场"], "bi-cash-coin"),
    IconRule(["教育", "学习", "知识"], "bi-mortarboard"),
    IconRule(["数据", "统计"], "bi-clipboard-data"),
    IconRule(["全球", "国际", "世界"], "bi-globe"),
    IconRule(["公司", "企业", "机构"], "bi-building"),
    IconRule(["人", "社会"], "bi-people")
  ]

  /** The icon when no group matches. */
  const DefaultIcon := "bi-chat"

  /** Some keyword of `rule` occurs in `text`. */
  predicate Matches(text: string, rule: IconRule) {
    exists k :: 0 <= k < |rule.keywords| && Contains(text, rule.keywords[k])
  }

  /** The index of the first rule at or after `from` that matches. */
  function FirstMatch(text: string, rules: seq<IconRule>, from: nat): (r: Option<nat>)
    requires from <= |rules|
    ensures r.Some? ==> from <= r.value < |rules| && Matches(text, rules[r.value])
    ensures r.Some? ==> forall j :: from <= j < r.value ==> !Matches(text, rules[j])
    ensures r.None? ==> forall j :: from <= j < |rules| ==> !Matches(text, rules[j])
    decreases |rules| - from
  {
    if from == |rules| then None
    else if Matches(text, rules[from]) then Some(from)
    else FirstMatch(text, rules, from + 1)
  }

  /** ASCII upper-case letters lowered; every other character kept. */
  function ToLowerChar(c: char): char {
    if 'A' <= c <= 'Z' then (c as int + 32) as char else c
  }

  /** `toLowerCase`, for ASCII letters: no upper-case letter is left, each
      one becomes its lower-case letter, and every other character is kept
      in place. */
  function ToLower(s: string): (r: string)
    ensures |r| == |s|
    ensures forall k :: 0 <= k < |r| ==> !('A' <= r[k] <= 'Z')
    ensures forall k :: 0 <= k < |s| && 'A' <= s[k] <= 'Z' ==> r[k] as int == s[k] as int + 32
    ensures forall k :: 0 <= k < |s| && !('A' <= s[k] <= 'Z') ==> r[k] == s[k]
  {
    seq(|s|, k requires 0 <= k < |s| => ToLowerChar(s[k]))
  }

  /** The icon chosen for an example question: the icon of the first group
      with a keyword in the lower-cased text, or `DefaultIcon` when no group
      has one. */
  function ExampleIcon(text: string): (r: string)
    ensures (forall j :: 0 <= j < |IconRules| ==> !Matches(ToLower(text), IconRules[j]))
      <==> r == DefaultIcon
    ensures r != DefaultIcon ==>
      exists j :: 0 <= j < |IconRules| && r == IconRules[j].icon
        && Matches(ToLower(text), IconRules[j])
        && forall i :: 0 <= i < j ==> !Matches(ToLower(text), IconRules[i])
  {
    match FirstMatch(ToLower(text), IconRules, 0)
    case None => DefaultIcon
    case Some(j) =>
      assert IconRules[j].icon != DefaultIcon;
      IconRules[j].icon
  }

  /** No character of `kw` is an ASCII letter. */
  predicate NoAsciiLetters(kw: string) {
    forall k :: 0 <= k < |kw| ==> !('A' <= kw[k] <= 'Z') && !('a' <= kw[k] <= 'z')
  }

  /** A keyword without ASCII letters occurs in the lowered text exactly where
      it occurs in the text. */
  lemma LowerKeepsOccurrences(text: string, kw: string, k: nat)
    requires NoAsciiLetters(kw)
    ensures OccursAt(ToLower(text), kw, k) <==> OccursAt(text, kw, k)
  {
    var low := ToLower(text);
    if k + |kw| <= |text| {
      if OccursAt(text, kw, k) {
        forall i | 0 <= i < |kw| ensures low[k..k + |kw|][i] == kw[i] {
          assert text[k..k + |kw|][i] == kw[i];
        }
      }
      if OccursAt(low, kw, k) {
        forall i | 0 <= i < |kw| ensures text[k..k + |kw|][i] == kw[i] {
          assert low[k..k + |kw|][i] == kw[i];
        }
      }
    }
  }

  /** Lower-casing cannot change which keywords a text contains: no keyword
      holds an ASCII letter. */
  lemma LowerKeepsContains(text: string, kw: string)
    requires NoAsciiLetters(kw)
    ensures Contains(ToLower(text), kw) <==> Contains(text, kw)
  {
    ContainsIff(ToLower(text), kw);
    ContainsIff(text, kw);
    forall k: nat ensures OccursAt(ToLower(text), kw, k) <==> OccursAt(text, kw, k) {
      LowerKeepsOccurrences(text, kw, k);
    }
  }

  /** Every keyword of every group is free of ASCII letters. */
  lemma KeywordsHaveNoAsciiLetters(j: nat, k: nat)
    requires j < |IconRules| && k < |IconRules[j].keywords|
    ensures NoAsciiLetters(IconRules[j].keywords[k])
  {
    var kw := IconRules[j].keywords[k];
    forall i | 0 <= i < |kw| ensures kw[i] >= '\U{4E00}' {
      if j == 0 { } else if j == 1 { } else if j == 2 { } else if j == 3 { }
      else if j == 4 { } else if j == 5 { } else if j == 6 { } else if j == 7 { } else { }
    }
  }

  /** The lower-casing in the classifier is immaterial: the same icon is
      chosen for the text as written. */
  lemma ExampleIconIgnoresCase(text: string)
    ensures ExampleIcon(text) == match FirstMatch(text, IconRules, 0)
                                 case None => DefaultIcon
                                 case Some(j) => IconRules[j].icon
  {
    forall j | 0 <= j < |IconRules|
      ensures Matches(ToLower(text), IconRules[j]) <==> Matches(text, IconRules[j])
    {
      forall k | 0 <= k < |IconRules[j].keywords|
        ensures Contains(ToLower(text), IconRules[j].keywords[k]) <==> Contains(text, IconRules[j].keywords[k])
      {
        KeywordsHaveNoAsciiLetters(j, k);
        LowerKeepsContains(text, IconRules[j].keywords[k]);
      }
    }
    SameMatches(ToLower(text), text, IconRules, 0);
  }

  /** Two texts that match the same groups select the same first group. */
  lemma {:induction false} SameMatches(a: string, b: string, rules: seq<IconRule>, from: nat)
    requires from <= |rules|
    requires forall j :: 0 <= j < |rules| ==> (Matches(a, rules[j]) <==> Matches(b, rules[j]))
    ensures FirstMatch(a, rules, from) == FirstMatch(b, rules, from)
    decreases |rules| - from
  {
    if from < |rules| {
      SameMatches(a, b, rules, from + 1);
    }
  }
}
