/** The string operations the keyword rules rely on: `str.lower()`, `str.strip()` and `in`. */
module Text {

  /** ASCII upper-case letters map to lower case; every other character is kept. */
  function LowerChar(c: char): (d: char)
    ensures 'A' <= c <= 'Z' ==> d as int == c as int + 32
    ensures !('A' <= c <= 'Z') ==> d == c
    ensures !('A' <= d <= 'Z')
  {
    if 'A' <= c <= 'Z' then (c as int + 32) as char else c
  }

  /** `s.lower()` restricted to ASCII letters. */
  function Lower(s: string): (r: string)
    ensures |r| == |s|
    ensures forall i :: 0 <= i < |s| ==> r[i] == LowerChar(s[i])
  {
    if s == [] then [] else [LowerChar(s[0])] + Lower(s[1..])
  }

  /** Lowering twice is lowering once. */
  lemma LowerIdempotent(s: string)
    ensures Lower(Lower(s)) == Lower(s)
  {
    assert forall i :: 0 <= i < |s| ==> LowerChar(LowerChar(s[i])) == LowerChar(s[i]);
  }

  /** The characters Python's `str.strip()` removes, restricted to ASCII. */
  predicate IsSpace(c: char) {
    c == ' ' || '\t' <= c <= '\r' || '\U{1C}' <= c <= '\U{1F}'
  }

  function TrimStart(s: string): (r: string)
    ensures |r| <= |s| && r == s[|s| - |r|..]
    ensures r != [] ==> !IsSpace(r[0])
    ensures forall i :: 0 <= i < |s| - |r| ==> IsSpace(s[i])
  {
    if s != [] && IsSpace(s[0]) then
      var r := TrimStart(s[1..]);
      assert forall i :: 1 <= i < |s| - |r| ==> IsSpace(s[i]) by {
        forall i | 1 <= i < |s| - |r| ensures IsSpace(s[i]) {
          assert s[i] == s[1..][i - 1];
        }
      }
      assert s[|s| - |r|..] == s[1..][|s| - 1 - |r|..];
      r
    else s
  }

  function TrimEnd(s: string): (r: string)
    ensures |r| <= |s| && r == s[..|r|]
    ensures r != [] ==> !IsSpace(r[|r| - 1])
    ensures forall i :: |r| <= i < |s| ==> IsSpace(s[i])
  {
    if s != [] && IsSpace(s[|s| - 1]) then
      var r := TrimEnd(s[..|s| - 1]);
      assert forall i :: |r| <= i < |s| - 1 ==> IsSpace(s[i]) by {
        forall i | |r| <= i < |s| - 1 ensures IsSpace(s[i]) {
          assert s[i] == s[..|s| - 1][i];
        }
      }
      assert s[..|r|] == s[..|s| - 1][..|r|];
      r
    else s
  }

  /** `r` is the slice of `s` starting at `a` and every character of `s` outside it is white space. */
  predicate StripWindow(s: string, r: string, a: int) {
    && 0 <= a <= |s| - |r| && r == s[a..a + |r|]
    && (forall i :: 0 <= i < a ==> IsSpace(s[i]))
    && (forall i :: a + |r| <= i < |s| ==> IsSpace(s[i]))
  }

  /** `s.strip()`: the slice of `s` left once the white space at both ends is removed. It is a
      contiguous slice of `s`, everything before and after it is white space, and it neither
      starts nor ends with white space (so it is empty exactly when `s` is all white space). */
  function Strip(s: string): (r: string)
    ensures |r| <= |s|
    ensures r != [] ==> !IsSpace(r[0]) && !IsSpace(r[|r| - 1])
    ensures exists a :: StripWindow(s, r, a)
  {
    StripFrame(s);
    TrimEnd(TrimStart(s))
  }

  /** Trimming the front and then the back leaves the slice starting where the front trim stopped. */
  lemma StripFrame(s: string)
    ensures StripWindow(s, TrimEnd(TrimStart(s)), |s| - |TrimStart(s)|)
  {
    TrimWindow(s, TrimStart(s), TrimEnd(TrimStart(s)));
  }

  /** A white-space prefix of `s` cut off to give `t`, then a white-space suffix of `t` cut off to
      give `r`, leaves `r` as a window of `s` with white space on both sides. */
  lemma TrimWindow(s: string, t: string, r: string)
    requires |t| <= |s| && t == s[|s| - |t|..]
    requires forall i :: 0 <= i < |s| - |t| ==> IsSpace(s[i])
    requires |r| <= |t| && r == t[..|r|]
    requires forall i :: |r| <= i < |t| ==> IsSpace(t[i])
    ensures StripWindow(s, r, |s| - |t|)
  {
    var a := |s| - |t|;
    forall i | a + |r| <= i < |s| ensures IsSpace(s[i]) {
      assert s[i] == t[i - a];
    }
  }

  /** White space before a word that does not start with white space is what `TrimStart` removes. */
  lemma TrimStartExact(pre: string, v: string)
    requires forall i :: 0 <= i < |pre| ==> IsSpace(pre[i])
    requires v != [] && !IsSpace(v[0])
    ensures TrimStart(pre + v) == v
  {
    var s := pre + v;
    assert s[|pre|] == v[0];
    assert TrimStart(s) == s[|pre|..];
  }

  /** White space after a word that does not end with white space is what `TrimEnd` removes. */
  lemma TrimEndExact(v: string, post: string)
    requires forall i :: 0 <= i < |post| ==> IsSpace(post[i])
    requires v != [] && !IsSpace(v[|v| - 1])
    ensures TrimEnd(v + post) == v
  {
    var s := v + post;
    assert s[|v| - 1] == v[|v| - 1];
    assert TrimEnd(s) == s[..|v|];
  }

  /** Leading and trailing white space around a word that neither starts nor ends with white space
      is exactly what `strip()` removes. */
  lemma StripExact(pre: string, w: string, post: string)
    requires forall i :: 0 <= i < |pre| ==> IsSpace(pre[i])
    requires forall i :: 0 <= i < |post| ==> IsSpace(post[i])
    requires w != [] && !IsSpace(w[0]) && !IsSpace(w[|w| - 1])
    ensures Strip(pre + w + post) == w
  {
    assert pre + w + post == pre + (w + post);
    TrimStartExact(pre, w + post);
    TrimEndExact(w, post);
  }

  /** The command-word normalisation `s.strip().lower()`: no white space at either end, no
      upper-case letter, and normalising twice is normalising once. */
  function Normalize(s: string): (r: string)
    ensures |r| <= |s|
    ensures r != [] ==> !IsSpace(r[0]) && !IsSpace(r[|r| - 1])
    ensures forall i :: 0 <= i < |r| ==> !('A' <= r[i] <= 'Z')
  {
    LowerKeepsEnds(Strip(s));
    Lower(Strip(s))
  }

  /** Lower-casing neither creates nor removes white space at the ends. */
  lemma LowerKeepsEnds(t: string)
    ensures t != [] ==> (IsSpace(Lower(t)[0]) <==> IsSpace(t[0]))
    ensures t != [] ==> (IsSpace(Lower(t)[|t| - 1]) <==> IsSpace(t[|t| - 1]))
  {
  }

  /** A normalised line normalises to itself. */
  lemma NormalizeIdempotent(s: string)
    ensures Normalize(Normalize(s)) == Normalize(s)
  {
    var n := Normalize(s);
    if n != [] {
      StripExact([], n, []);
      assert [] + n + [] == n;
    }
    LowerIdempotent(Strip(s));
  }

  predicate IsPrefix(p: string, s: string) {
    |p| <= |s| && s[..|p|] == p
  }

  /** Python's substring test `w in s`: the empty word occurs everywhere, and a word longer than
      `s` nowhere. */
  predicate Contains(s: string, w: string)
    ensures w == [] ==> Contains(s, w)
    ensures Contains(s, w) ==> |w| <= |s|
    decreases |s|
  {
    IsPrefix(w, s) || (s != [] && Contains(s[1..], w))
  }

  /** A one-character pattern occurs exactly when the character does. */
  lemma {:induction false} ContainsChar(s: string, c: char)
    ensures Contains(s, [c]) <==> c in s
  {
    if s != [] {
      ContainsChar(s[1..], c);
      assert s == [s[0]] + s[1..];
    }
  }

  /** Lower-casing never creates or removes a character that is not an ASCII letter, so
      `'?' in s.lower()` and `'?' in s` agree. */
  lemma LowerKeepsNonLetter(s: string, c: char)
    requires !('A' <= c <= 'Z') && !('a' <= c <= 'z')
    ensures Contains(Lower(s), [c]) <==> Contains(s, [c])
  {
    ContainsChar(s, c);
    ContainsChar(Lower(s), c);
    if c in Lower(s) {
      var i :| 0 <= i < |s| && Lower(s)[i] == c;
      assert s[i] == c;
    }
    if c in s {
      var i :| 0 <= i < |s| && s[i] == c;
      assert Lower(s)[i] == c;
    }
  }

  /** Python's `any(word in s for word in words)`. */
  predicate AnyContains(s: string, words: seq<string>) {
    exists k :: 0 <= k < |words| && Contains(s, words[k])
  }

  /** An occurrence in the left part is an occurrence in the whole. */
  lemma {:induction false} ContainsInLeft(a: string, b: string, w: string)
    requires Contains(a, w)
    ensures Contains(a + b, w)
    decreases |a|
  {
    if IsPrefix(w, a) {
      assert (a + b)[..|w|] == a[..|w|];
    } else {
      ContainsInLeft(a[1..], b, w);
      assert (a + b)[1..] == a[1..] + b;
    }
  }

  /** An occurrence in the right part is an occurrence in the whole. */
  lemma {:induction false} ContainsInRight(a: string, b: string, w: string)
    requires Contains(b, w)
    ensures Contains(a + b, w)
    decreases |a|
  {
    if a == [] {
      assert a + b == b;
    } else {
      ContainsInRight(a[1..], b, w);
      assert (a + b)[1..] == a[1..] + b;
    }
  }
}
