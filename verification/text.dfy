/** The string functions the other modules share. */
module Text {
  predicate IsSpace(c: char) {
    || c == ' ' || ('\t' <= c <= '\r') || c == '\U{85}' || c == '\U{A0}' || c == '\U{1680}' || ('\U{2000}' <= c <= '\U{200A}')
    || c == '\U{2028}' || c == '\U{2029}' || c == '\U{202F}' || c == '\U{205F}' || c == '\U{3000}'
  }

  function TrimLeft(s: string): (t: string)
    ensures t == "" || !IsSpace(t[0])
  {
    if s != "" && IsSpace(s[0]) then TrimLeft(s[1..]) else s
  }

  function TrimSpace(s: string): (t: string)
    ensures t == "" || (!IsSpace(t[0]) && !IsSpace(t[|t| - 1]))
  {
    TrimRight(TrimLeft(s))
  }

  function TrimRight(s: string): (t: string)
    ensures |t| <= |s| && t == s[..|t|]
    ensures t == "" || (!IsSpace(t[|t| - 1]) && t[0] == s[0])
  {
    if s != "" && IsSpace(s[|s| - 1]) then TrimRight(s[..|s| - 1]) else s
  }

  /** Exactly the space around a text is trimmed. */
  lemma {:induction false} TrimSpaceExactly(before: string, s: string, after: string)
    requires (forall c | c in before :: IsSpace(c)) && (forall c | c in after :: IsSpace(c))
    requires s != "" ==> !IsSpace(s[0]) && !IsSpace(s[|s| - 1])
    ensures TrimSpace(before + s + after) == s
    decreases |before|
  {
    if before == "" {
      assert before + s + after == s + after;
      if s == "" {
        assert s + after == after;
        TrimLeftSpace(after);
      } else {
        assert TrimLeft(s + after) == s + after;
        TrimRightSpace(s, after);
      }
    } else {
      assert before[0] in before && forall c | c in before[1..] :: c in before;
      assert (before + s + after)[1..] == before[1..] + s + after;
      TrimSpaceExactly(before[1..], s, after);
    }
  }

  lemma {:induction false} TrimLeftSpace(after: string)
    requires forall c | c in after :: IsSpace(c)
    ensures TrimLeft(after) == ""
  {
    if after != "" {
      assert after[0] in after && forall c | c in after[1..] :: c in after;
      TrimLeftSpace(after[1..]);
    }
  }

  lemma {:induction false} TrimRightSpace(s: string, after: string)
    requires (forall c | c in after :: IsSpace(c)) && s != "" && !IsSpace(s[|s| - 1])
    ensures TrimRight(s + after) == s
    decreases |after|
  {
    if after == "" {
      assert s + after == s;
    } else {
      var n := |after| - 1;
      assert after[n] in after && forall c | c in after[..n] :: c in after;
      assert (s + after)[..|s| + n] == s + after[..n];
      TrimRightSpace(s, after[..n]);
    }
  }

  /** The first that is not blank, trimmed. */
  function FirstGiven(a: string, b: string): string { if TrimSpace(a) != "" then TrimSpace(a) else TrimSpace(b) }

  /** The first that is not empty. */
  function FirstNonEmpty(a: string, b: string): string { if a != "" then a else b }
}
