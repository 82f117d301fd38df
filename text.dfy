/** The string operations the command handlers rely on, with the meaning
    Python's `str` methods give them: `strip()`, `upper()`, `lower()` and
    `split(sep, 1)`, plus the segment arithmetic behind topic names. */
module Text {
  import opened Optional

  /** The characters Python's `str.isspace()` accepts, which `strip()` removes:
      the ASCII separators and the Unicode space and line separators. */
  predicate IsSpace(c: char)
  {
    || c == ' '
    || ('\t' <= c <= '\r')
    || ('\U{1C}' <= c <= '\U{1F}')
    || c == '\U{85}' || c == '\U{A0}' || c == '\U{1680}'
    || ('\U{2000}' <= c <= '\U{200A}')
    || c == '\U{2028}' || c == '\U{2029}' || c == '\U{202F}'
    || c == '\U{205F}' || c == '\U{3000}'
  }

  /** `s` with its leading white space removed. */
  function TrimStart(s: string): (r: string)
    ensures |r| <= |s| && r == s[|s| - |r|..]
    ensures forall i :: 0 <= i < |s| - |r| ==> IsSpace(s[i])
    ensures r != [] ==> !IsSpace(r[0])
  {
    if s != [] && IsSpace(s[0]) then TrimStart(s[1..]) else s
  }

  /** `s` with its trailing white space removed. */
  function TrimEnd(s: string): (r: string)
    ensures |r| <= |s| && r == s[..|r|]
    ensures forall i :: |r| <= i < |s| ==> IsSpace(s[i])
    ensures r != [] ==> !IsSpace(r[|r| - 1])
  {
    if s != [] && IsSpace(s[|s| - 1]) then TrimEnd(s[..|s| - 1]) else s
  }

  /** Python's `s.strip()`. */
  function Strip(s: string): (r: string)
    ensures |r| <= |s|
    ensures r != [] ==> !IsSpace(r[0]) && !IsSpace(r[|r| - 1])
  {
    TrimEnd(TrimStart(s))
  }

  predicate AllSpace(s: string)
  {
    forall i :: 0 <= i < |s| ==> IsSpace(s[i])
  }

  lemma {:induction false} TrimStartSkipsSpace(lead: string, t: string)
    requires AllSpace(lead)
    ensures TrimStart(lead + t) == TrimStart(t)
  {
    if lead != [] {
      assert (lead + t)[0] == lead[0] && IsSpace(lead[0]);
      assert (lead + t)[1..] == lead[1..] + t;
      TrimStartSkipsSpace(lead[1..], t);
    } else {
      assert lead + t == t;
    }
  }

  lemma {:induction false} TrimEndSkipsSpace(t: string, trail: string)
    requires AllSpace(trail)
    ensures TrimEnd(t + trail) == TrimEnd(t)
  {
    if trail != [] {
      var s := t + trail;
      assert s[|s| - 1] == trail[|trail| - 1] && IsSpace(trail[|trail| - 1]);
      assert s[..|s| - 1] == t + trail[..|trail| - 1];
      TrimEndSkipsSpace(t, trail[..|trail| - 1]);
    } else {
      assert t + trail == t;
    }
  }

  /** `strip()` removes exactly the white space around the text and nothing of it. */
  lemma StripPadded(lead: string, body: string, trail: string)
    requires AllSpace(lead) && AllSpace(trail)
    requires body != [] ==> !IsSpace(body[0]) && !IsSpace(body[|body| - 1])
    ensures Strip(lead + body + trail) == body
  {
    assert lead + body + trail == lead + (body + trail);
    TrimStartSkipsSpace(lead, body + trail);
    if body == [] {
      assert body + trail == trail;
      assert TrimStart(trail) == [];
    } else {
      assert TrimStart(body + trail) == body + trail;
      TrimEndSkipsSpace(body, trail);
    }
  }

  /** Python's `upper()` on one character, for the ASCII letters. */
  function UpperChar(c: char): char
  {
    if 'a' <= c <= 'z' then (c as int - 32) as char else c
  }

  /** Python's `lower()` on one character, for the ASCII letters. */
  function LowerChar(c: char): char
  {
    if 'A' <= c <= 'Z' then (c as int + 32) as char else c
  }

  /** Python's `s.upper()`. */
  function Upper(s: string): (r: string)
    ensures |r| == |s|
    ensures forall i :: 0 <= i < |s| ==> r[i] == UpperChar(s[i])
  {
    if s == [] then [] else [UpperChar(s[0])] + Upper(s[1..])
  }

  /** Python's `s.lower()`. */
  function Lower(s: string): (r: string)
    ensures |r| == |s|
    ensures forall i :: 0 <= i < |s| ==> r[i] == LowerChar(s[i])
  {
    if s == [] then [] else [LowerChar(s[0])] + Lower(s[1..])
  }

  /** Case-insensitive equality, letter by letter. */
  predicate SameIgnoringCase(a: string, b: string)
  {
    |a| == |b| && forall i :: 0 <= i < |a| ==> LowerChar(a[i]) == LowerChar(b[i])
  }

  /** Changing the case of a letter first does not change its other case. */
  lemma CaseMappingsAgree(c: char)
    ensures LowerChar(UpperChar(c)) == LowerChar(c)
    ensures UpperChar(LowerChar(c)) == UpperChar(c)
  {
  }

  /** Comparing `s.upper()` with an upper-case word is a case-insensitive match. */
  lemma UpperMatchesIgnoringCase(s: string, word: string)
    requires Upper(word) == word
    ensures Upper(s) == word <==> SameIgnoringCase(s, word)
  {
    if Upper(s) == word {
      forall i | 0 <= i < |s|
        ensures LowerChar(s[i]) == LowerChar(word[i])
      {
        assert word[i] == UpperChar(s[i]);
        CaseMappingsAgree(s[i]);
      }
    }
    if SameIgnoringCase(s, word) {
      forall i | 0 <= i < |s|
        ensures Upper(s)[i] == word[i]
      {
        assert UpperChar(word[i]) == word[i] by { assert Upper(word)[i] == UpperChar(word[i]); }
        CaseMappingsAgree(s[i]);
        CaseMappingsAgree(word[i]);
      }
    }
  }

  /** Comparing `s.lower()` with a lower-case word is a case-insensitive match. */
  lemma LowerMatchesIgnoringCase(s: string, word: string)
    requires Lower(word) == word
    ensures Lower(s) == word <==> SameIgnoringCase(s, word)
  {
    if Lower(s) == word {
      forall i | 0 <= i < |s|
        ensures LowerChar(s[i]) == LowerChar(word[i])
      {
        assert word[i] == LowerChar(s[i]);
      }
    }
    if SameIgnoringCase(s, word) {
      forall i | 0 <= i < |s|
        ensures Lower(s)[i] == word[i]
      {
        assert LowerChar(word[i]) == word[i] by { assert Lower(word)[i] == LowerChar(word[i]); }
      }
    }
  }

  /** A word without upper-case ASCII letters is its own `lower()`. */
  lemma LowerOfLowerCase(word: string)
    requires forall i :: 0 <= i < |word| ==> !('A' <= word[i] <= 'Z')
    ensures Lower(word) == word
  {
  }

  /** A word without lower-case ASCII letters is its own `upper()`. */
  lemma UpperOfUpperCase(word: string)
    requires forall i :: 0 <= i < |word| ==> !('a' <= word[i] <= 'z')
    ensures Upper(word) == word
  {
  }

  /** Python's `s.split(sep, 1)` when `sep in s`: the text before the first
      separator and everything after it; `None` when `s` has no separator. */
  function SplitAtFirst(s: string, sep: char): (r: Option<(string, string)>)
    ensures r.None? <==> sep !in s
    ensures r.Some? ==> s == r.value.0 + [sep] + r.value.1 && sep !in r.value.0
  {
    if s == [] then None
    else if s[0] == sep then Some(([], s[1..]))
    else match SplitAtFirst(s[1..], sep)
      case None => None
      case Some((head, rest)) => Some(([s[0]] + head, rest))
  }

  /** The split is unique: it cuts at the first separator and keeps every later one. */
  lemma {:induction false} SplitAtFirstOf(head: string, rest: string, sep: char)
    requires sep !in head
    ensures SplitAtFirst(head + [sep] + rest, sep) == Some((head, rest))
  {
    if head != [] {
      var s := head + [sep] + rest;
      assert s[0] == head[0] != sep;
      assert s[1..] == head[1..] + [sep] + rest;
      SplitAtFirstOf(head[1..], rest, sep);
      assert [s[0]] + head[1..] == head;
    } else {
      assert head + [sep] + rest == [sep] + rest;
    }
  }

  /** The part of `s` after its last `sep` (all of `s` when it has none). */
  function AfterLast(s: string, sep: char): (r: string)
    ensures |r| <= |s| && r == s[|s| - |r|..]
    ensures sep !in r
  {
    if s == [] || s[|s| - 1] == sep then []
    else AfterLast(s[..|s| - 1], sep) + [s[|s| - 1]]
  }

  /** The segment after the last separator is recovered exactly. */
  lemma {:induction false} AfterLastSegment(a: string, x: string, sep: char)
    requires sep !in x
    ensures AfterLast(a + [sep] + x, sep) == x
  {
    var s := a + [sep] + x;
    if x == [] {
      assert s[|s| - 1] == sep;
    } else {
      var init, last := x[..|x| - 1], x[|x| - 1];
      assert x == init + [last];
      assert last != sep && sep !in init;
      assert s[..|s| - 1] == a + [sep] + init;
      AfterLastSegment(a, init, sep);
    }
  }
}
