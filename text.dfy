/**
 * The three JavaScript string operations the two pages rely on:
 * `toLowerCase` (restricted to ASCII letters), `includes` and `trim`.
 */
module Text {

  // ---------------------------------------------------------------------------
  // Lower-casing
  // ---------------------------------------------------------------------------

  predicate IsAsciiUpper(c: char) {
    'A' <= c <= 'Z'
  }

  /** Lower-cases one ASCII letter; every other character is left as it is. */
  function LowerChar(c: char): (d: char)
    ensures IsAsciiUpper(c) ==> d as int == c as int + 32
    ensures !IsAsciiUpper(c) ==> d == c
    ensures !IsAsciiUpper(d)
  {
    if IsAsciiUpper(c) then (c as int + 32) as char else c
  }

  /** `s.toLowerCase()`, character by character. */
  function Lower(s: string): (r: string)
    ensures |r| == |s|
    ensures forall i :: 0 <= i < |s| ==> r[i] == LowerChar(s[i])
  {
    seq(|s|, i requires 0 <= i < |s| => LowerChar(s[i]))
  }

  /** Two strings that differ only in the case of their letters. */
  predicate SameUpToCase(a: string, b: string) {
    |a| == |b| && forall i :: 0 <= i < |a| ==> LowerChar(a[i]) == LowerChar(b[i])
  }

  lemma LowerIdempotent(s: string)
    ensures Lower(Lower(s)) == Lower(s)
  {
    assert forall i :: 0 <= i < |s| ==> Lower(Lower(s))[i] == Lower(s)[i];
  }

  lemma SameUpToCaseLower(a: string, b: string)
    requires SameUpToCase(a, b)
    ensures Lower(a) == Lower(b)
  {
    assert forall i :: 0 <= i < |a| ==> Lower(a)[i] == Lower(b)[i];
  }

  lemma LowerConcat(a: string, b: string)
    ensures Lower(a + b) == Lower(a) + Lower(b)
  {
    assert forall i :: 0 <= i < |a + b| ==> Lower(a + b)[i] == (Lower(a) + Lower(b))[i];
  }

  /** A string with no ASCII capital is its own lower-case form. */
  lemma LowerOfLowerCase(s: string)
    requires forall i :: 0 <= i < |s| ==> !IsAsciiUpper(s[i])
    ensures Lower(s) == s
  {
    assert forall i :: 0 <= i < |s| ==> Lower(s)[i] == s[i];
  }

  // ---------------------------------------------------------------------------
  // Substring containment
  // ---------------------------------------------------------------------------

  /** `t` occurs in `s` starting at position `i`. */
  predicate OccursAt(s: string, t: string, i: int) {
    0 <= i && i + |t| <= |s| && s[i..i + |t|] == t
  }

  /** `s.includes(t)`: `t` occurs somewhere in `s`. */
  predicate Includes(s: string, t: string) {
    exists i | 0 <= i <= |s| - |t| :: OccursAt(s, t, i)
  }

  /** The empty needle is found in every string. */
  lemma IncludesEmpty(s: string)
    ensures Includes(s, "")
  {
    assert OccursAt(s, "", 0);
  }

  /** A needle found in one part of a concatenation is found in the whole. */
  lemma IncludesConcat(a: string, b: string, t: string)
    requires Includes(a, t) || Includes(b, t)
    ensures Includes(a + b, t)
  {
    if Includes(a, t) {
      var i :| OccursAt(a, t, i);
      assert OccursAt(a, t, i);
      assert (a + b)[i..i + |t|] == a[i..i + |t|];
      assert OccursAt(a + b, t, i);
    } else {
      var i :| OccursAt(b, t, i);
      assert OccursAt(b, t, i);
      assert (a + b)[|a| + i..|a| + i + |t|] == b[i..i + |t|];
      assert OccursAt(a + b, t, |a| + i);
    }
  }

  /** Whatever contains `t + u` contains `t` ("genres" contains "genre"). */
  lemma IncludesPrefixOfNeedle(s: string, t: string, u: string)
    requires Includes(s, t + u)
    ensures Includes(s, t)
  {
    var i :| OccursAt(s, t + u, i);
    assert OccursAt(s, t + u, i);
    assert s[i..i + |t|] == (t + u)[..|t|] == t;
    assert OccursAt(s, t, i);
  }

  /** Every character of a needle that is found occurs in the haystack. */
  lemma IncludesChar(s: string, t: string, c: char)
    requires Includes(s, t) && c in t
    ensures c in s
  {
    var i :| OccursAt(s, t, i);
    assert OccursAt(s, t, i);
    var k :| 0 <= k < |t| && t[k] == c;
    assert s[i + k] == s[i..i + |t|][k] == c;
  }

  /** A keyword written anywhere in a text is found, in any case, in its lower-case form. */
  lemma IncludesLoweredPart(p: string, k: string, q: string)
    ensures Includes(Lower(p + k + q), Lower(k))
  {
    var lk := Lower(k);
    var rest := lk + Lower(q);
    assert Includes(rest, lk) by {
      assert rest[0..0 + |lk|] == lk;
      assert OccursAt(rest, lk, 0);
    }
    IncludesConcat(Lower(p), rest, lk);
    assert Lower(p + k + q) == Lower(p) + rest by {
      LowerConcat(k, q);
      LowerConcat(p, k + q);
      assert p + k + q == p + (k + q);
    }
  }

  /** A needle with a character that no character of `s` lowers to is not in `Lower(s)`. */
  lemma NotIncludesLowered(s: string, t: string, c: char)
    requires c in t
    requires forall d :: d in s ==> LowerChar(d) != c
    ensures !Includes(Lower(s), t)
  {
    if Includes(Lower(s), t) {
      IncludesChar(Lower(s), t, c);
    }
  }

  /** The capital form of a lower-case ASCII letter. */
  function UpperLetter(c: char): (u: char)
    requires 'a' <= c <= 'z'
    ensures IsAsciiUpper(u) && LowerChar(u) == c
  {
    (c as int - 32) as char
  }

  /** Neither `c` nor its capital `C` occurs in `s`. */
  predicate LacksLetter(s: string, c: char, C: char)
  {
    'a' <= c <= 'z' && C == UpperLetter(c) && c !in s && C !in s
  }

  /** A needle with a letter that `s` lacks in both cases is not in `Lower(s)`. */
  lemma NotIncludesLetter(s: string, t: string, c: char, C: char)
    requires c in t && LacksLetter(s, c, C)
    ensures !Includes(Lower(s), t)
  {
    forall d | d in s
      ensures LowerChar(d) != c
    {
      assert d != c && d != C;
    }
    NotIncludesLowered(s, t, c);
  }

  // ---------------------------------------------------------------------------
  // Trimming
  // ---------------------------------------------------------------------------

  /**
   * The characters `trim` removes: ECMAScript WhiteSpace (tab, vertical tab,
   * form feed, space, no-break space, byte order mark and the other Unicode
   * space separators) and LineTerminator (LF, CR, LS, PS).
   */
  predicate IsWhiteSpace(c: char) {
    || c == '\t' || c == '\n' || c == '\U{B}' || c == '\U{C}' || c == '\r'
    || c == ' ' || c == '\U{A0}' || c == '\U{1680}'
    || ('\U{2000}' <= c <= '\U{200A}')
    || c == '\U{2028}' || c == '\U{2029}' || c == '\U{202F}' || c == '\U{205F}'
    || c == '\U{3000}' || c == '\U{FEFF}'
  }

  predicate AllWhiteSpace(s: string) {
    forall i :: 0 <= i < |s| ==> IsWhiteSpace(s[i])
  }

  function TrimStart(s: string): string
  {
    if s != [] && IsWhiteSpace(s[0]) then TrimStart(s[1..]) else s
  }

  function TrimEnd(s: string): string
  {
    if s != [] && IsWhiteSpace(s[|s| - 1]) then TrimEnd(s[..|s| - 1]) else s
  }

  /** `s.trim()`. */
  function Trim(s: string): string
  {
    TrimEnd(TrimStart(s))
  }

  lemma {:induction false} TrimStartEmptyIff(s: string)
    ensures TrimStart(s) == [] <==> AllWhiteSpace(s)
  {
    if s != [] && IsWhiteSpace(s[0]) {
      TrimStartEmptyIff(s[1..]);
      assert AllWhiteSpace(s[1..]) ==> AllWhiteSpace(s) by {
        if AllWhiteSpace(s[1..]) {
          forall i | 0 < i < |s| ensures IsWhiteSpace(s[i]) {
            assert s[i] == s[1..][i - 1];
          }
        }
      }
    }
  }

  lemma {:induction false} TrimEndEmptyIff(s: string)
    ensures TrimEnd(s) == [] <==> AllWhiteSpace(s)
    decreases |s|
  {
    if s != [] && IsWhiteSpace(s[|s| - 1]) {
      var init := s[..|s| - 1];
      TrimEndEmptyIff(init);
      assert AllWhiteSpace(init) ==> AllWhiteSpace(s) by {
        if AllWhiteSpace(init) {
          forall i | 0 <= i < |s| - 1 ensures IsWhiteSpace(s[i]) {
            assert s[i] == init[i];
          }
        }
      }
    }
  }

  /** The trimmed text is empty exactly when the whole text is white space. */
  lemma TrimEmptyIff(s: string)
    ensures Trim(s) == [] <==> AllWhiteSpace(s)
  {
    TrimStartEmptyIff(s);
    TrimEndEmptyIff(TrimStart(s));
    if TrimStart(s) != [] {
      TrimStartNonEmpty(s);
    }
  }

  /** When something is left after `TrimStart`, it starts with a non-space. */
  lemma {:induction false} TrimStartNonEmpty(s: string)
    requires TrimStart(s) != []
    ensures !IsWhiteSpace(TrimStart(s)[0])
  {
    if s != [] && IsWhiteSpace(s[0]) {
      TrimStartNonEmpty(s[1..]);
    }
  }
}
