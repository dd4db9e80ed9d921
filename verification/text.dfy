/** Substring search on strings, as used to look for failure markers in an
    HTML body. Characters are compared exactly: there is no case folding or
    normalisation, just as in a byte-wise substring test. */
module Text {

  /** `pattern` occurs in `text` starting at index `i`. */
  ghost predicate OccursAt(text: string, pattern: string, i: int)
  {
    0 <= i && i + |pattern| <= |text| && text[i..i + |pattern|] == pattern
  }

  /** Executable substring test: slides the pattern along the text. The empty
      pattern occurs in every text. */
  function Contains(text: string, pattern: string): bool
    decreases |text|
  {
    if |pattern| > |text| then false
    else if text[..|pattern|] == pattern then true
    else Contains(text[1..], pattern)
  }

  /** `Contains` is exactly "there is a position where the pattern occurs". */
  lemma {:induction false} ContainsIsSubstring(text: string, pattern: string)
    ensures Contains(text, pattern) <==> exists i :: OccursAt(text, pattern, i)
    decreases |text|
  {
    if |pattern| > |text| {
      assert forall i :: !OccursAt(text, pattern, i);
    } else if text[..|pattern|] == pattern {
      assert OccursAt(text, pattern, 0);
    } else {
      var rest := text[1..];
      ContainsIsSubstring(rest, pattern);
      if Contains(rest, pattern) {
        var j :| OccursAt(rest, pattern, j);
        assert text[j + 1..j + 1 + |pattern|] == rest[j..j + |pattern|];
        assert OccursAt(text, pattern, j + 1);
      } else {
        forall i | OccursAt(text, pattern, i)
          ensures false
        {
          assert i != 0;
          assert rest[i - 1..i - 1 + |pattern|] == text[i..i + |pattern|];
          assert OccursAt(rest, pattern, i - 1);
        }
      }
    }
  }

  /** A text that embeds the pattern between any prefix and suffix contains it. */
  lemma EmbeddedIsContained(prefix: string, pattern: string, suffix: string)
    ensures Contains(prefix + pattern + suffix, pattern)
  {
    var text := prefix + pattern + suffix;
    assert text[|prefix|..|prefix| + |pattern|] == pattern;
    assert OccursAt(text, pattern, |prefix|);
    ContainsIsSubstring(text, pattern);
  }
}
