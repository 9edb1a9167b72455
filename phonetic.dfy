/**
 * The analyser's simplified phonetic transcript: the text is lower-cased and
 * six digraphs are rewritten one after another, each with `str.replace`.
 */
module Phonetic {
  import opened Text

  /** One rewrite of the phonetic map: a two-letter grapheme and its phoneme. */
  datatype Rule = Rule(grapheme: string, phoneme: string)

  /** The phonetic map in its insertion order. */
  const PhoneticMap: seq<Rule> := [
    Rule("th", "θ"),
    Rule("sh", "ʃ"),
    Rule("ch", "tʃ"),
    Rule("ng", "ŋ"),
    Rule("ph", "f"),
    Rule("gh", "f")
  ]

  /** The text after the rules have been applied in order, each to the result of the ones before. */
  function ApplyRules(s: string, rules: seq<Rule>): string
    requires forall k :: 0 <= k < |rules| ==> |rules[k].grapheme| > 0
    decreases |rules|
  {
    if |rules| == 0 then s
    else
      var last := rules[|rules| - 1];
      ReplaceAll(ApplyRules(s, rules[..|rules| - 1]), last.grapheme, last.phoneme)
  }

  /** What `_generate_phonetic_transcript` returns. */
  function PhoneticOf(text: string): string {
    if |text| == 0 then "[Invalid text]" else ApplyRules(Lower(text), PhoneticMap)
  }

  /** `_generate_phonetic_transcript`: lower-case, then rebind the text once per rule. */
  method PhoneticTranscript(text: string) returns (phonetic: string)
    ensures phonetic == PhoneticOf(text)
  {
    if |text| == 0 {
      return "[Invalid text]";
    }
    phonetic := Lower(text);
    for k := 0 to |PhoneticMap|
      invariant phonetic == ApplyRules(Lower(text), PhoneticMap[..k])
    {
      var rule := PhoneticMap[k];
      assert PhoneticMap[..k + 1][..k] == PhoneticMap[..k];
      phonetic := ReplaceAll(phonetic, rule.grapheme, rule.phoneme);
    }
    assert PhoneticMap[..|PhoneticMap|] == PhoneticMap;
  }

  // ---------------------------------------------------------------------
  // No digraph survives
  // ---------------------------------------------------------------------

  /** No `a` is directly followed by `b` in `s`. */
  predicate NoPair(s: string, a: char, b: char) {
    forall i :: 0 <= i < |s| - 1 ==> !(s[i] == a && s[i + 1] == b)
  }

  /** A replacement that cannot make an `a` meet a `b`, from inside or at either end. */
  predicate Harmless(phoneme: string, a: char, b: char) {
    |phoneme| > 0 && phoneme[0] != b && phoneme[|phoneme| - 1] != a && NoPair(phoneme, a, b)
  }

  /** The first character of a replacement's result. */
  lemma ReplaceAllHead(s: string, pat: string, rep: string)
    requires |pat| > 0 && |rep| > 0 && |s| > 0
    ensures |ReplaceAll(s, pat, rep)| > 0
    ensures ReplaceAll(s, pat, rep)[0] ==
      (if |s| >= |pat| && s[..|pat|] == pat then rep[0] else s[0])
  {
  }

  /** A two-letter pattern concatenated on the left keeps the pair free of `a b` across the join. */
  lemma NoPairConcat(x: string, y: string, a: char, b: char)
    requires NoPair(x, a, b) && NoPair(y, a, b)
    requires |x| > 0 && |y| > 0 ==> !(x[|x| - 1] == a && y[0] == b)
    ensures NoPair(x + y, a, b)
  {
    var s := x + y;
    forall i | 0 <= i < |s| - 1 ensures !(s[i] == a && s[i + 1] == b) {
      if i + 1 < |x| {
        assert s[i] == x[i] && s[i + 1] == x[i + 1];
      } else if i >= |x| {
        assert s[i] == y[i - |x|] && s[i + 1] == y[i + 1 - |x|];
      } else {
        assert s[i] == x[|x| - 1] && s[i + 1] == y[0];
      }
    }
  }

  /**
   * Replacing a two-letter pattern with a harmless phoneme leaves no `a b`
   * behind: either there was none, or the pattern is `a b` itself.
   */
  lemma {:induction false} ReplaceAllNoPair(s: string, pat: string, rep: string, a: char, b: char)
    requires |pat| == 2 && Harmless(rep, a, b)
    requires NoPair(s, a, b) || pat == [a, b]
    ensures NoPair(ReplaceAll(s, pat, rep), a, b)
    decreases |s|
  {
    if |s| < |pat| {
    } else if s[..|pat|] == pat {
      var rest := s[|pat|..];
      assert NoPair(rest, a, b) || pat == [a, b] by {
        if NoPair(s, a, b) {
          forall i | 0 <= i < |rest| - 1 ensures !(rest[i] == a && rest[i + 1] == b) {
            assert rest[i] == s[i + 2] && rest[i + 1] == s[i + 3];
          }
        }
      }
      ReplaceAllNoPair(rest, pat, rep, a, b);
      NoPairConcat(rep, ReplaceAll(rest, pat, rep), a, b);
    } else {
      var rest := s[1..];
      assert NoPair(rest, a, b) || pat == [a, b] by {
        if NoPair(s, a, b) {
          forall i | 0 <= i < |rest| - 1 ensures !(rest[i] == a && rest[i + 1] == b) {
            assert rest[i] == s[i + 1] && rest[i + 1] == s[i + 2];
          }
        }
      }
      ReplaceAllNoPair(rest, pat, rep, a, b);
      var tail := ReplaceAll(rest, pat, rep);
      if |tail| > 0 {
        ReplaceAllHead(rest, pat, rep);
        if !(|rest| >= |pat| && rest[..|pat|] == pat) {
          assert tail[0] == s[1];
          assert !(s[0] == a && s[1] == b) by {
            if pat == [a, b] {
              assert s[..|pat|] != pat;
              assert s[..2] == [s[0], s[1]];
            } else {
              assert 0 < |s| - 1;
            }
          }
        }
      }
      NoPairConcat([s[0]], tail, a, b);
    }
  }

  /** Every phoneme of `rules` is harmless for `a b`, and every grapheme has two letters. */
  predicate HarmlessRules(rules: seq<Rule>, a: char, b: char) {
    forall k :: 0 <= k < |rules| ==> |rules[k].grapheme| == 2 && Harmless(rules[k].phoneme, a, b)
  }

  /** Some rule rewrites exactly the digraph `a b`. */
  predicate RewritesPair(rules: seq<Rule>, a: char, b: char) {
    exists k :: 0 <= k < |rules| && rules[k].grapheme == [a, b]
  }

  /** Once a rule has removed `a b`, no later harmless rule brings it back. */
  lemma {:induction false} ApplyRulesNoPair(s: string, rules: seq<Rule>, a: char, b: char)
    requires HarmlessRules(rules, a, b)
    requires NoPair(s, a, b) || RewritesPair(rules, a, b)
    ensures NoPair(ApplyRules(s, rules), a, b)
    decreases |rules|
  {
    if |rules| > 0 {
      var init := rules[..|rules| - 1];
      var last := rules[|rules| - 1];
      if last.grapheme == [a, b] {
        ReplaceAllNoPair(ApplyRules(s, init), last.grapheme, last.phoneme, a, b);
      } else {
        assert NoPair(s, a, b) || RewritesPair(init, a, b) by {
          if !NoPair(s, a, b) {
            var k :| 0 <= k < |rules| && rules[k].grapheme == [a, b];
            assert k < |init| && init[k] == rules[k];
          }
        }
        assert HarmlessRules(init, a, b) by {
          forall k | 0 <= k < |init| ensures |init[k].grapheme| == 2 && Harmless(init[k].phoneme, a, b) {
            assert init[k] == rules[k];
          }
        }
        ApplyRulesNoPair(s, init, a, b);
        ReplaceAllNoPair(ApplyRules(s, init), last.grapheme, last.phoneme, a, b);
      }
    }
  }

  /** Whether `w` contains the digraph `g` (of two letters) anywhere. */
  predicate HasDigraph(w: string, g: string)
    requires |g| == 2
  {
    !NoPair(w, g[0], g[1])
  }

  /** None of the six digraphs of the map is left in a phonetic transcript of non-empty text. */
  lemma NoDigraphSurvives(text: string, k: nat)
    requires |text| > 0 && k < |PhoneticMap|
    ensures !HasDigraph(PhoneticOf(text), PhoneticMap[k].grapheme)
  {
    var g := PhoneticMap[k].grapheme;
    assert HarmlessRules(PhoneticMap, g[0], g[1]);
    assert PhoneticMap[k].grapheme == [g[0], g[1]];
    ApplyRulesNoPair(Lower(text), PhoneticMap, g[0], g[1]);
  }

  /** A replacement with a non-empty phoneme never empties a non-empty text. */
  lemma {:induction false} ReplaceAllNonEmpty(s: string, pat: string, rep: string)
    requires |pat| > 0 && |rep| > 0 && |s| > 0
    ensures |ReplaceAll(s, pat, rep)| > 0
  {
    ReplaceAllHead(s, pat, rep);
  }

  lemma {:induction false} ApplyRulesNonEmpty(s: string, rules: seq<Rule>)
    requires |s| > 0
    requires forall k :: 0 <= k < |rules| ==> |rules[k].grapheme| > 0 && |rules[k].phoneme| > 0
    ensures |ApplyRules(s, rules)| > 0
    decreases |rules|
  {
    if |rules| > 0 {
      var init := rules[..|rules| - 1];
      var last := rules[|rules| - 1];
      assert forall k :: 0 <= k < |init| ==> init[k] == rules[k];
      ApplyRulesNonEmpty(s, init);
      ReplaceAllNonEmpty(ApplyRules(s, init), last.grapheme, last.phoneme);
    }
  }

  /** The phonetic transcript is never empty, so its `[Not available]` fallback never applies. */
  lemma PhoneticNeverEmpty(text: string)
    ensures |PhoneticOf(text)| > 0
  {
    if |text| > 0 {
      ApplyRulesNonEmpty(Lower(text), PhoneticMap);
    }
  }
}
