/** `escapeHtml`: the five HTML-special characters replaced by entities,
    as five successive global replacements with `&` replaced first. */
module Html {

  /** The characters replaced, in the order of the passes. */
  const Specials: seq<char> := ['&', '<', '>', '"', '\'']

  /** The entity each pass writes, `Entities[k]` replacing `Specials[k]`. */
  const Entities: seq<string> := ["&amp;", "&lt;", "&gt;", "&quot;", "&#039;"]

  /** `s.replace(/c/g, rep)` for a single character `c`. */
  function ReplaceAll(s: string, c: char, rep: string): (r: string)
    ensures c !in rep ==> c !in r
  {
    if s == [] then [] else (if s[0] == c then rep else [s[0]]) + ReplaceAll(s[1..], c, rep)
  }

  /** Replacement distributes over concatenation: it works one character at
      a time. */
  lemma {:induction false} ReplaceAllAppend(a: string, b: string, c: char, rep: string)
    ensures ReplaceAll(a + b, c, rep) == ReplaceAll(a, c, rep) + ReplaceAll(b, c, rep)
  {
    if a == [] {
      assert a + b == b;
    } else {
      assert (a + b)[0] == a[0] && (a + b)[1..] == a[1..] + b;
      ReplaceAllAppend(a[1..], b, c, rep);
    }
  }

  /** Replacing a character that does not occur changes nothing. */
  lemma {:induction false} ReplaceAllAbsent(s: string, c: char, rep: string)
    requires c !in s
    ensures ReplaceAll(s, c, rep) == s
  {
    if s != [] {
      ReplaceAllAbsent(s[1..], c, rep);
    }
  }

  /** A character absent from the text and from the replacement stays absent. */
  lemma {:induction false} ReplaceAllKeepsAbsent(s: string, c: char, rep: string, x: char)
    requires x !in s && x !in rep
    ensures x !in ReplaceAll(s, c, rep)
  {
    if s != [] {
      ReplaceAllKeepsAbsent(s[1..], c, rep, x);
    }
  }

  /** A pass over a one-character string. */
  lemma OneCharPass(s: string, c: char, rep: string)
    requires |s| == 1
    ensures ReplaceAll(s, c, rep) == if s[0] == c then rep else s
  {
    assert ReplaceAll(s[1..], c, rep) == [];
  }

  /** Passes `k` to 4 applied in order. */
  function PassesFrom(s: string, k: nat): string
    requires k <= |Specials|
    decreases |Specials| - k
  {
    if k == |Specials| then s else PassesFrom(ReplaceAll(s, Specials[k], Entities[k]), k + 1)
  }

  /** `escapeHtml(unsafe)`: all five passes, `&` first. The result holds
      none of `< > " '`. */
  function EscapeHtml(unsafe: string): (r: string)
    ensures '<' !in r && '>' !in r && '"' !in r && '\'' !in r
  {
    PassesRemoveSpecials(unsafe, 0);
    PassesFrom(unsafe, 0)
  }

  /** An entity written by a pass contains none of the characters that later
      passes replace. */
  lemma EntityHasNoLaterSpecial(k: nat, m: nat)
    requires k < m < |Specials|
    ensures Specials[m] !in Entities[k]
  {
  }

  /** After passes `k..4`, none of `Specials[j]` with `0 < j` is left,
      provided those before `k` were already absent. */
  lemma {:induction false} PassesRemoveSpecials(s: string, k: nat)
    requires k <= |Specials|
    requires forall j :: 0 < j < k ==> Specials[j] !in s
    ensures forall j :: 0 < j < |Specials| ==> Specials[j] !in PassesFrom(s, k)
    decreases |Specials| - k
  {
    if k < |Specials| {
      var next := ReplaceAll(s, Specials[k], Entities[k]);
      forall j | 0 < j < k + 1
        ensures Specials[j] !in next
      {
        if j < k {
          assert Specials[j] !in Entities[k];
          ReplaceAllKeepsAbsent(s, Specials[k], Entities[k], Specials[j]);
        }
      }
      PassesRemoveSpecials(next, k + 1);
    }
  }

  /** None of `& < > " '` occurs. */
  predicate NoSpecials(s: string) {
    forall j :: 0 <= j < |Specials| ==> Specials[j] !in s
  }

  /** Passes `k..4` leave text alone that has none of their characters. */
  lemma {:induction false} PassesKeepAbsent(s: string, k: nat)
    requires k <= |Specials|
    requires forall j :: k <= j < |Specials| ==> Specials[j] !in s
    ensures PassesFrom(s, k) == s
    decreases |Specials| - k
  {
    if k < |Specials| {
      ReplaceAllAbsent(s, Specials[k], Entities[k]);
      PassesKeepAbsent(s, k + 1);
    }
  }

  /** Text without any of the five special characters is returned unchanged. */
  lemma EscapeHtmlKeepsPlainText(s: string)
    requires NoSpecials(s)
    ensures EscapeHtml(s) == s
  {
    PassesKeepAbsent(s, 0);
  }

  /** The entity for one character: an independent, single-pass definition. */
  function EscapeChar(c: char): string {
    match c
    case '&' => "&amp;"
    case '<' => "&lt;"
    case '>' => "&gt;"
    case '"' => "&quot;"
    case '\'' => "&#039;"
    case _ => [c]
  }

  /** Every character replaced by its entity, in one left-to-right pass. */
  function EscapeEach(s: string): string {
    if s == [] then [] else EscapeChar(s[0]) + EscapeEach(s[1..])
  }

  /** Passes distribute over concatenation. */
  lemma {:induction false} PassesAppend(a: string, b: string, k: nat)
    requires k <= |Specials|
    ensures PassesFrom(a + b, k) == PassesFrom(a, k) + PassesFrom(b, k)
    decreases |Specials| - k
  {
    if k < |Specials| {
      ReplaceAllAppend(a, b, Specials[k], Entities[k]);
      PassesAppend(ReplaceAll(a, Specials[k], Entities[k]), ReplaceAll(b, Specials[k], Entities[k]), k + 1);
    }
  }

  /** Passes `k..4` on one character: the pass for that character, if it
      is still to come, writes its entity, which no later pass touches. */
  lemma {:induction false} PassesOneChar(c: char, k: nat)
    requires k <= |Specials|
    ensures c in Specials[k..] ==> PassesFrom([c], k) == EscapeChar(c)
    ensures c !in Specials[k..] ==> PassesFrom([c], k) == [c]
    decreases |Specials| - k
  {
    if k < |Specials| {
      OneCharPass([c], Specials[k], Entities[k]);
      assert Specials[k..] == [Specials[k]] + Specials[k + 1..];
      if c == Specials[k] {
        forall j | k + 1 <= j < |Specials| ensures Specials[j] !in Entities[k] {
          EntityHasNoLaterSpecial(k, j);
        }
        PassesKeepAbsent(Entities[k], k + 1);
        EntityIsEscape(k);
      } else {
        PassesOneChar(c, k + 1);
      }
    }
  }

  /** The two tables agree with the single-pass definition. */
  lemma EntityIsEscape(k: nat)
    requires k < |Specials|
    ensures Entities[k] == EscapeChar(Specials[k])
  {
    if k == 0 { } else if k == 1 { } else if k == 2 { } else if k == 3 { } else { }
  }

  /** Replacing `&` first makes the five passes equal to the single
      per-character pass: no later pass touches an entity an earlier pass
      wrote. */
  lemma {:induction false} EscapeHtmlIsPerCharacter(s: string)
    ensures EscapeHtml(s) == EscapeEach(s)
  {
    if s != [] {
      assert s == [s[0]] + s[1..];
      PassesAppend([s[0]], s[1..], 0);
      PassesOneChar(s[0], 0);
      if s[0] !in Specials {
        assert EscapeChar(s[0]) == [s[0]];
      }
      EscapeHtmlIsPerCharacter(s[1..]);
    }
  }
}
