module Text {
  /** unicode.IsSpace, the characters both strings.TrimSpace and fmt skip. */
  predicate IsSpace(c: char) {
    || c == ' ' || '\t' <= c <= '\r' || c == '\U{85}' || c == '\U{A0}' || c == '\U{1680}'
    || '\U{2000}' <= c <= '\U{200A}' || c == '\U{2028}' || c == '\U{2029}' || c == '\U{202F}'
    || c == '\U{205F}' || c == '\U{3000}'
  }

  /** strings.TrimSpace */
  function TrimSpace(s: string): string {
    if s == [] then s
    else if IsSpace(s[0]) then TrimSpace(s[1..])
    else if IsSpace(s[|s| - 1]) then TrimSpace(s[..|s| - 1])
    else s
  }

  predicate Spaces(s: string) {
    forall i | 0 <= i < |s| :: IsSpace(s[i])
  }

  /** t is s without the white space at both ends. */
  ghost predicate Trimmed(s: string, t: string) {
    && (t != [] ==> !IsSpace(t[0]) && !IsSpace(t[|t| - 1]))
    && exists a, b :: s == a + t + b && Spaces(a) && Spaces(b)
  }

  lemma SpaceInFront(c: char, s: string, t: string)
    requires IsSpace(c) && Trimmed(s, t)
    ensures Trimmed([c] + s, t)
  {
    var a, b :| s == a + t + b && Spaces(a) && Spaces(b);
    assert [c] + s == ([c] + a) + t + b && Spaces([c] + a);
  }

  lemma SpaceBehind(c: char, s: string, t: string)
    requires IsSpace(c) && Trimmed(s, t)
    ensures Trimmed(s + [c], t)
  {
    var a, b :| s == a + t + b && Spaces(a) && Spaces(b);
    assert s + [c] == a + t + (b + [c]) && Spaces(b + [c]);
  }

  lemma NothingToTrim(s: string)
    requires s != [] ==> !IsSpace(s[0]) && !IsSpace(s[|s| - 1])
    ensures Trimmed(s, s)
  {
    assert s == [] + s + [] && Spaces([]);
  }

  /** Only white space is cut off, from both ends, and all of it. */
  lemma {:induction false} TrimSpaceIs(s: string)
    ensures Trimmed(s, TrimSpace(s))
    decreases |s|
  {
    if s == [] {
      NothingToTrim(s);
    } else if IsSpace(s[0]) {
      TrimSpaceIs(s[1..]);
      SpaceInFront(s[0], s[1..], TrimSpace(s));
      assert [s[0]] + s[1..] == s;
    } else if IsSpace(s[|s| - 1]) {
      TrimSpaceIs(s[..|s| - 1]);
      SpaceBehind(s[|s| - 1], s[..|s| - 1], TrimSpace(s));
      assert s[..|s| - 1] + [s[|s| - 1]] == s;
    } else {
      NothingToTrim(s);
    }
  }

  /** And no other text is trimmed from s. */
  lemma TrimmedIsUnique(s: string, t: string)
    requires Trimmed(s, t)
    ensures t == TrimSpace(s)
  {
    var a, b :| s == a + t + b && Spaces(a) && Spaces(b);
    CutFront(a, t, b);
    CutBack(t, b);
  }

  lemma {:induction false} CutFront(a: string, t: string, b: string)
    requires Spaces(a)
    ensures TrimSpace(a + t + b) == TrimSpace(t + b)
  {
    if a == [] {
      assert a + t + b == t + b;
    } else {
      CutFront(a[1..], t, b);
      assert (a + t + b)[1..] == a[1..] + t + b;
    }
  }

  lemma {:induction false} CutBack(t: string, b: string)
    requires Spaces(b) && (t != [] ==> !IsSpace(t[0]) && !IsSpace(t[|t| - 1]))
    ensures TrimSpace(t + b) == t
    decreases |b|
  {
    if b == [] {
      assert t + b == t;
    } else if t == [] {
      CutBack(t, b[1..]);
      assert (t + b)[1..] == t + b[1..];
    } else {
      CutBack(t, b[..|b| - 1]);
      assert (t + b)[..|t + b| - 1] == t + b[..|b| - 1];
    }
  }
}
