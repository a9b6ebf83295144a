/**
 The string primitives the application uses: `toLowerCase`, `includes`
 (substring search) and `trim`. Strings are sequences of Unicode scalar
 values; lower-casing folds only the ASCII letters A-Z.
 */
module Text {

  /** ASCII case folding of one character; every other character is kept. */
  function LowerChar(c: char): char {
    if 'A' <= c <= 'Z' then (c as int + 32) as char else c
  }

  /** The model of `s.toLowerCase()`, restricted to ASCII letters. */
  function Lower(s: string): (r: string)
    ensures |r| == |s|
    ensures forall i :: 0 <= i < |s| ==> r[i] == LowerChar(s[i])
  {
    seq(|s|, i requires 0 <= i < |s| => LowerChar(s[i]))
  }

  /** `p` is a prefix of `s`, compared character by character. */
  predicate IsPrefix(p: string, s: string) {
    |p| <= |s| && (|p| == 0 || (p[0] == s[0] && IsPrefix(p[1..], s[1..])))
  }

  /** The model of `s.includes(t)`: `t` occurs in `s` as a contiguous block. */
  predicate Contains(s: string, t: string) {
    |t| <= |s| && (IsPrefix(t, s) || Contains(s[1..], t))
  }

  /** `t` occurs in `s` starting at index `i`. */
  ghost predicate OccursAt(s: string, t: string, i: int) {
    0 <= i && i + |t| <= |s| && s[i..i + |t|] == t
  }

  lemma LowerCharIdempotent(c: char)
    ensures LowerChar(LowerChar(c)) == LowerChar(c)
  {
  }

  /** Lower-casing twice is lower-casing once. */
  lemma LowerIdempotent(s: string)
    ensures Lower(Lower(s)) == Lower(s)
  {
    forall i | 0 <= i < |s| ensures Lower(Lower(s))[i] == Lower(s)[i] {
      LowerCharIdempotent(s[i]);
    }
  }

  /** Lower-casing works character by character, so it distributes over `+`. */
  lemma LowerAppend(a: string, b: string)
    ensures Lower(a + b) == Lower(a) + Lower(b)
  {
    assert forall i :: 0 <= i < |a + b| ==> Lower(a + b)[i] == (Lower(a) + Lower(b))[i];
  }

  lemma {:induction false} IsPrefixIff(p: string, s: string)
    ensures IsPrefix(p, s) <==> |p| <= |s| && s[..|p|] == p
  {
    if |p| > 0 && |s| > 0 {
      IsPrefixIff(p[1..], s[1..]);
      if |p| <= |s| && s[..|p|] == p {
        assert s[1..][..|p[1..]|] == s[..|p|][1..];
      }
      if IsPrefix(p, s) {
        assert s[..|p|] == [s[0]] + s[1..][..|p[1..]|];
        assert p == [p[0]] + p[1..];
      }
    }
  }

  /** The recursive search agrees with the definition by an explicit position. */
  lemma {:induction false} ContainsIffOccurs(s: string, t: string)
    ensures Contains(s, t) <==> exists i :: OccursAt(s, t, i)
    decreases |s|
  {
    IsPrefixIff(t, s);
    if |t| <= |s| {
      if IsPrefix(t, s) {
        assert OccursAt(s, t, 0);
      } else if |s| > 0 {
        ContainsIffOccurs(s[1..], t);
        if Contains(s[1..], t) {
          var i :| OccursAt(s[1..], t, i);
          assert s[i + 1..i + 1 + |t|] == s[1..][i..i + |t|];
          assert OccursAt(s, t, i + 1);
        }
        if i :| OccursAt(s, t, i) {
          assert i != 0;
          assert s[1..][i - 1..i - 1 + |t|] == s[i..i + |t|];
          assert OccursAt(s[1..], t, i - 1);
        }
      }
    }
  }

  /** An explicit position is a witness for `includes`. */
  lemma ContainsAt(s: string, t: string, i: int)
    requires OccursAt(s, t, i)
    ensures Contains(s, t)
  {
    ContainsIffOccurs(s, t);
  }

  /** Every string includes the empty string. */
  lemma ContainsEmpty(s: string)
    ensures Contains(s, "")
  {
    ContainsAt(s, "", 0);
  }

  /** Every character covered by an occurrence of `t` is a character of `t`. */
  lemma CoveredCharOccurs(s: string, t: string, i: int, k: int)
    requires OccursAt(s, t, i) && i <= k < i + |t|
    ensures s[k] in t
  {
    assert s[k] == s[i..i + |t|][k - i];
  }

  /** A match in `a + [c] + b` of a string without `c` lies wholly in `a` or wholly in `b`. */
  lemma MatchAvoidsSeparator(a: string, c: char, b: string, t: string)
    requires c !in t && Contains(a + [c] + b, t)
    ensures Contains(a, t) || Contains(b, t)
  {
    var s := a + [c] + b;
    ContainsIffOccurs(s, t);
    var i :| OccursAt(s, t, i);
    if i + |t| <= |a| {
      assert s[i..i + |t|] == a[i..i + |t|];
      ContainsAt(a, t, i);
    } else if i >= |a| + 1 {
      assert s[|a| + 1..] == b;
      assert s[i..i + |t|] == s[|a| + 1..][i - |a| - 1..i - |a| - 1 + |t|];
      ContainsAt(b, t, i - |a| - 1);
    } else {
      CoveredCharOccurs(s, t, i, |a|);
      assert false;
    }
  }

  /** Text put in front of a match keeps the match. */
  lemma ContainsPrepend(x: string, y: string, t: string)
    requires Contains(y, t)
    ensures Contains(x + y, t)
  {
    ContainsIffOccurs(y, t);
    var i :| OccursAt(y, t, i);
    assert (x + y)[|x| + i..|x| + i + |t|] == y[i..i + |t|];
    ContainsAt(x + y, t, |x| + i);
  }

  /**
   A string without the separator `c` occurs in `a + [c] + b` exactly when
   it occurs in `a` or in `b`: it cannot straddle the separator.
   */
  lemma ContainsAroundSeparator(a: string, c: char, b: string, t: string)
    requires c !in t
    ensures Contains(a + [c] + b, t) <==> Contains(a, t) || Contains(b, t)
  {
    if Contains(a + [c] + b, t) {
      MatchAvoidsSeparator(a, c, b, t);
    }
    if Contains(a, t) {
      ContainsExtend(a, [c] + b, t);
      assert a + ([c] + b) == a + [c] + b;
    }
    if Contains(b, t) {
      ContainsPrepend(a + [c], b, t);
    }
  }

  /**
   A lower-case search for a string without spaces, over two pieces of text
   joined by a space, is decided piece by piece.
   */
  lemma ContainsAcrossSpace(a: string, b: string, t: string)
    requires ' ' !in t
    ensures Contains(Lower(a + " " + b), t) <==> Contains(Lower(a), t) || Contains(Lower(b), t)
  {
    LowerAppend(a + " ", b);
    LowerAppend(a, " ");
    assert Lower(" ") == [' '];
    ContainsAroundSeparator(Lower(a), ' ', Lower(b), t);
  }

  /** A string includes every block of it. */
  lemma ContainsWithin(a: string, t: string, b: string)
    ensures Contains(a + t + b, t)
  {
    assert (a + t + b)[|a|..|a| + |t|] == t;
    ContainsAt(a + t + b, t, |a|);
  }

  /** A string includes its own ending. */
  lemma ContainsEnd(p: string, t: string)
    ensures Contains(p + t, t)
  {
    assert p + t == p + t + "";
    ContainsWithin(p, t, "");
  }

  /** A three-piece phrase at the end of a string. */
  lemma ContainsPhrase3(p: string, a: string, b: string, c: string)
    ensures Contains(p + a + b + c, a + b + c)
  {
    assert p + a + b + c == p + (a + b + c);
    ContainsEnd(p, a + b + c);
  }

  /** A five-piece phrase at the end of a string. */
  lemma ContainsPhrase5(p: string, a: string, b: string, c: string, d: string, e: string)
    ensures Contains(p + a + b + c + d + e, a + b + c + d + e)
  {
    assert p + a + b + c + d + e == p + (a + b + c + d + e);
    ContainsEnd(p, a + b + c + d + e);
  }

  /** Text appended after a match keeps the match. */
  lemma ContainsExtend(x: string, y: string, t: string)
    requires Contains(x, t)
    ensures Contains(x + y, t)
  {
    ContainsIffOccurs(x, t);
    var i :| OccursAt(x, t, i);
    assert (x + y)[i..i + |t|] == x[i..i + |t|];
    ContainsAt(x + y, t, i);
  }

  /** Every character of a string `s` includes is a character of `s`. */
  lemma ContainsKeepsChars(s: string, t: string)
    requires Contains(s, t)
    ensures forall c :: c in t ==> c in s
  {
    ContainsIffOccurs(s, t);
    var i :| OccursAt(s, t, i);
    forall c | c in t ensures c in s {
      var j :| 0 <= j < |t| && t[j] == c;
      assert s[i + j] == s[i..i + |t|][j];
    }
  }

  /** A string lacking some character of `t` does not include `t`. */
  lemma MissingCharExcludes(s: string, t: string, c: char)
    requires c in t && c !in s
    ensures !Contains(s, t)
  {
    if Contains(s, t) {
      ContainsKeepsChars(s, t);
      assert false;
    }
  }

  /** A string that includes `t + u` includes `t`. */
  lemma ContainsFront(s: string, t: string, u: string)
    requires Contains(s, t + u)
    ensures Contains(s, t)
  {
    ContainsIffOccurs(s, t + u);
    var i :| OccursAt(s, t + u, i);
    assert s[i..i + |t|] == s[i..i + |t + u|][..|t|];
    ContainsAt(s, t, i);
  }

  /**
   The characters `String.prototype.trim` removes: the ECMAScript WhiteSpace
   (tab, vertical tab, form feed, space, no-break space, byte order mark and
   the Unicode space separators) and LineTerminator characters.
   */
  predicate IsWhitespace(c: char) {
    || c == '\U{9}' || c == '\U{B}' || c == '\U{C}' || c == ' '
    || c == '\U{A0}' || c == '\U{FEFF}' || c == '\U{1680}'
    || ('\U{2000}' <= c <= '\U{200A}') || c == '\U{202F}' || c == '\U{205F}' || c == '\U{3000}'
    || c == '\n' || c == '\r' || c == '\U{2028}' || c == '\U{2029}'
  }

  /** `s` without its leading whitespace. */
  function TrimStart(s: string): (r: string)
    ensures |r| <= |s| && r == s[|s| - |r|..]
    ensures forall k :: 0 <= k < |s| - |r| ==> IsWhitespace(s[k])
    ensures |r| == 0 || !IsWhitespace(r[0])
  {
    if |s| > 0 && IsWhitespace(s[0]) then TrimStart(s[1..]) else s
  }

  /** `s` without its trailing whitespace. */
  function TrimEnd(s: string): (r: string)
    ensures |r| <= |s| && r == s[..|r|]
    ensures forall k :: |r| <= k < |s| ==> IsWhitespace(s[k])
    ensures |r| == 0 || !IsWhitespace(r[|r| - 1])
  {
    if |s| > 0 && IsWhitespace(s[|s| - 1]) then TrimEnd(s[..|s| - 1]) else s
  }

  /** The model of `s.trim()`. */
  function Trim(s: string): string {
    TrimEnd(TrimStart(s))
  }

  /** Trimming leaves nothing exactly when the string is all whitespace. */
  lemma TrimEmptyIffBlank(s: string)
    ensures |Trim(s)| == 0 <==> forall k :: 0 <= k < |s| ==> IsWhitespace(s[k])
  {
    if |Trim(s)| == 0 {
      assert |TrimStart(s)| == 0;
    }
  }

}
