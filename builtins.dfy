/** The Python built-ins the core relies on: `str.lower`, `str.startswith`,
    `str.endswith`, `str.split()` without a separator, `int()` of a float,
    `str()` of an int, list indexing, and the code-point order in which
    `list.sort()` arranges strings. */
module Builtins {
  import opened Seqs

  // ---------------------------------------------------------------------
  // Case folding and affixes

  /** `str.lower` on one character; only ASCII letters are folded. */
  function LowerChar(c: char): char
  {
    if 'A' <= c <= 'Z' then (c as int + 32) as char else c
  }

  function Lower(s: string): (r: string)
    ensures |r| == |s|
    ensures forall i :: 0 <= i < |s| ==> r[i] == LowerChar(s[i])
    decreases |s|
  {
    if s == [] then [] else [LowerChar(s[0])] + Lower(s[1..])
  }

  lemma LowerAppend(a: string, b: string)
    ensures Lower(a + b) == Lower(a) + Lower(b)
  {
    assert forall i :: 0 <= i < |a + b| ==> (a + b)[i] == if i < |a| then a[i] else b[i - |a|];
  }

  predicate StartsWith(s: string, prefix: string)
  {
    |prefix| <= |s| && s[..|prefix|] == prefix
  }

  predicate EndsWith(s: string, suffix: string)
  {
    |suffix| <= |s| && s[|s| - |suffix|..] == suffix
  }

  /** `s.endswith(tuple)`: some suffix of the tuple matches. */
  predicate EndsWithAny(s: string, suffixes: seq<string>)
  {
    exists k :: 0 <= k < |suffixes| && EndsWith(s, suffixes[k])
  }

  lemma EndsWithConcat(a: string, b: string, suffix: string)
    requires EndsWith(b, suffix)
    ensures EndsWith(a + b, suffix)
  {
    assert (a + b)[|a + b| - |suffix|..] == b[|b| - |suffix|..];
  }

  lemma EndsWithTransitive(s: string, t: string, u: string)
    requires EndsWith(s, t) && EndsWith(t, u)
    ensures EndsWith(s, u)
  {
    assert s[|s| - |u|..] == t[|t| - |u|..];
  }

  // ---------------------------------------------------------------------
  // Whitespace splitting

  /** The characters `str.split()` treats as separators. */
  predicate IsSpace(c: char)
  {
    var n := c as int;
    (0x09 <= n <= 0x0D) || (0x1C <= n <= 0x20) || n == 0x85 || n == 0xA0 || n == 0x1680
    || (0x2000 <= n <= 0x200A) || n == 0x2028 || n == 0x2029 || n == 0x202F
    || n == 0x205F || n == 0x3000
  }

  /** `s.split()`: the maximal runs of non-whitespace characters, in order. */
  function Split(s: string): seq<string>
  {
    Tokens(s, [])
  }

  /** The tokens of `s` when the characters `cur` of an unfinished word come
      right before it. */
  function Tokens(s: string, cur: string): seq<string>
    decreases |s|
  {
    if s == [] then Flush(cur)
    else if IsSpace(s[0]) then Flush(cur) + Tokens(s[1..], [])
    else Tokens(s[1..], cur + [s[0]])
  }

  /** The unfinished word as a token, unless it is empty. */
  function Flush(cur: string): seq<string>
  {
    if cur == [] then [] else [cur]
  }

  predicate NoSpace(w: string)
  {
    forall i :: 0 <= i < |w| ==> !IsSpace(w[i])
  }

  /** Every token of `s.split()` is a non-empty run without whitespace. */
  lemma SplitWords(s: string)
    ensures forall k :: 0 <= k < |Split(s)| ==> Split(s)[k] != [] && NoSpace(Split(s)[k])
  {
    TokensWords(s, []);
  }

  lemma {:induction false} TokensWords(s: string, cur: string)
    requires NoSpace(cur)
    ensures forall k :: 0 <= k < |Tokens(s, cur)| ==> Tokens(s, cur)[k] != [] && NoSpace(Tokens(s, cur)[k])
    decreases |s|
  {
    if s != [] {
      if IsSpace(s[0]) {
        TokensWords(s[1..], []);
      } else {
        var cur' := cur + [s[0]];
        assert forall i :: 0 <= i < |cur'| ==> cur'[i] == if i < |cur| then cur[i] else s[0];
        TokensWords(s[1..], cur');
      }
    }
  }

  /** Splitting text followed by a suffix that starts with whitespace gives
      the text's tokens followed by the suffix's. */
  lemma SplitAppend(a: string, c: string)
    requires c != [] && IsSpace(c[0])
    ensures Split(a + c) == Split(a) + Split(c)
  {
    TokensAppend(a, c, []);
  }

  lemma {:induction false} TokensAppend(a: string, c: string, cur: string)
    requires c != [] && IsSpace(c[0])
    ensures Tokens(a + c, cur) == Tokens(a, cur) + Tokens(c, [])
    decreases |a|
  {
    if a == [] {
      assert a + c == c;
    } else {
      assert (a + c)[1..] == a[1..] + c;
      if IsSpace(a[0]) {
        TokensAppend(a[1..], c, []);
        AppendAssoc(Flush(cur), Tokens(a[1..], []), Tokens(c, []));
      } else {
        TokensAppend(a[1..], c, cur + [a[0]]);
      }
    }
  }

  /** `" ".join(ws)`. */
  function Unwords(ws: seq<string>): string
    decreases |ws|
  {
    if |ws| == 0 then []
    else if |ws| == 1 then ws[0]
    else ws[0] + " " + Unwords(ws[1..])
  }

  /** `split()` undoes `" ".join` on non-empty tokens without whitespace. */
  lemma {:induction false} SplitUnwords(ws: seq<string>)
    requires forall k :: 0 <= k < |ws| ==> ws[k] != [] && NoSpace(ws[k])
    ensures Split(Unwords(ws)) == ws
    decreases |ws|
  {
    if |ws| == 1 {
      SplitToken(ws[0]);
    } else if |ws| > 1 {
      var rest := Unwords(ws[1..]);
      var c := " " + rest;
      assert ws[0] + " " + rest == ws[0] + c;
      SplitAppend(ws[0], c);
      SplitToken(ws[0]);
      assert c[1..] == rest;
      assert Split(c) == Split(rest);
      SplitUnwords(ws[1..]);
      assert ws == [ws[0]] + ws[1..];
    }
  }

  /** A word without whitespace splits into itself. */
  lemma SplitToken(w: string)
    requires w != [] && NoSpace(w)
    ensures Split(w) == [w]
  {
    TokensOfWord(w, []);
    assert [] + w == w;
  }

  lemma {:induction false} TokensOfWord(w: string, cur: string)
    requires NoSpace(w)
    requires cur + w != []
    ensures Tokens(w, cur) == [cur + w]
    decreases |w|
  {
    if w == [] {
      assert cur + w == cur;
    } else {
      assert cur + w == (cur + [w[0]]) + w[1..];
      TokensOfWord(w[1..], cur + [w[0]]);
    }
  }

  // ---------------------------------------------------------------------
  // Numbers

  /** `int(x)` of a finite float: truncation toward zero. */
  function Trunc(x: real): (n: int)
    ensures 0.0 <= x ==> n as real <= x < n as real + 1.0
    ensures x < 0.0 ==> n as real - 1.0 < x <= n as real
  {
    if x >= 0.0 then x.Floor else -((-x).Floor)
  }

  predicate IsDigit(c: char)
  {
    '0' <= c <= '9'
  }

  function NatToString(n: nat): (s: string)
    ensures s != [] && forall i :: 0 <= i < |s| ==> IsDigit(s[i])
    decreases n
  {
    var d := "0123456789"[n % 10];
    if n < 10 then [d] else NatToString(n / 10) + [d]
  }

  /** `str(i)` for an int: an optional minus sign followed by decimal digits. */
  function IntToString(i: int): (s: string)
    ensures s != []
    ensures forall k :: 0 <= k < |s| ==> IsDigit(s[k]) || (k == 0 && s[k] == '-')
  {
    if i < 0 then "-" + NatToString(-i) else NatToString(i)
  }

  /** Whether `xs[idx]` is defined for a list of length `n`: Python accepts
      negative indices from -n upward, counting from the end. */
  predicate IndexInRange(idx: int, n: nat)
  {
    -(n as int) <= idx < n
  }

  function NormalIndex(idx: int, n: nat): (k: nat)
    requires IndexInRange(idx, n)
    ensures k < n
    ensures k == idx || k == idx + n
  {
    if idx < 0 then idx + n else idx
  }

  // ---------------------------------------------------------------------
  // String order and sorting

  /** `a <= b` on Python strings: lexicographic by code point. */
  predicate LexLe(a: string, b: string)
    decreases |a|
  {
    a == [] || (b != [] && (a[0] < b[0] || (a[0] == b[0] && LexLe(a[1..], b[1..]))))
  }

  lemma {:induction false} LexLeTotal(a: string, b: string)
    ensures LexLe(a, b) || LexLe(b, a)
    decreases |a|
  {
    if a != [] && b != [] && a[0] == b[0] {
      LexLeTotal(a[1..], b[1..]);
    }
  }

  lemma {:induction false} LexLeTransitive(a: string, b: string, c: string)
    requires LexLe(a, b) && LexLe(b, c)
    ensures LexLe(a, c)
    decreases |a|
  {
    if a != [] && a[0] == b[0] && b[0] == c[0] {
      LexLeTransitive(a[1..], b[1..], c[1..]);
    }
  }

  lemma {:induction false} LexLeAntisymmetric(a: string, b: string)
    requires LexLe(a, b) && LexLe(b, a)
    ensures a == b
    decreases |a|
  {
    if a != [] {
      LexLeAntisymmetric(a[1..], b[1..]);
      assert a == [a[0]] + a[1..] && b == [b[0]] + b[1..];
    }
  }

  predicate Sorted(s: seq<string>)
  {
    forall i, j :: 0 <= i < j < |s| ==> LexLe(s[i], s[j])
  }

  /** If `h` is below everything in `s` and `r` holds exactly the elements of
      `s` plus `x`, with `h` below `x` too, then `h` can lead `r`. */
  lemma HeadBelowAll(h: string, x: string, s: seq<string>, r: seq<string>)
    requires Sorted([h] + s) && LexLe(h, x) && Sorted(r)
    requires multiset(r) == multiset(s) + multiset{x}
    ensures Sorted([h] + r)
  {
    forall j | 0 <= j < |r|
      ensures LexLe(h, r[j])
    {
      assert r[j] in multiset(r);
      if r[j] != x {
        assert r[j] in multiset(s);
        var k :| 0 <= k < |s| && s[k] == r[j];
        assert ([h] + s)[0] == h && ([h] + s)[k + 1] == s[k];
      }
    }
    forall i, j | 0 <= i < j < |[h] + r|
      ensures LexLe(([h] + r)[i], ([h] + r)[j])
    {
      if i > 0 {
        assert ([h] + r)[i] == r[i - 1] && ([h] + r)[j] == r[j - 1];
      }
    }
  }

  /** A string below the head of a sorted list can go in front of it. */
  lemma PrependSorted(x: string, s: seq<string>)
    requires Sorted(s) && s != [] && LexLe(x, s[0])
    ensures Sorted([x] + s)
  {
    forall j | 0 <= j < |s| ensures LexLe(x, s[j]) {
      if j > 0 { LexLeTransitive(x, s[0], s[j]); }
    }
    forall i, j | 0 <= i < j < |[x] + s|
      ensures LexLe(([x] + s)[i], ([x] + s)[j])
    {
      if i > 0 { assert ([x] + s)[i] == s[i - 1]; }
    }
  }

  /** Inserting `x` into a sorted sequence keeps it sorted and adds exactly `x`. */
  function Insert(x: string, s: seq<string>): (r: seq<string>)
    requires Sorted(s)
    ensures Sorted(r)
    ensures multiset(r) == multiset(s) + multiset{x}
    decreases |s|
  {
    if s == [] then [x]
    else if LexLe(x, s[0]) then
      PrependSorted(x, s);
      [x] + s
    else
      LexLeTotal(x, s[0]);
      assert s == [s[0]] + s[1..];
      var rest := Insert(x, s[1..]);
      HeadBelowAll(s[0], x, s[1..], rest);
      [s[0]] + rest
  }

  /** `sorted(s)`: the elements of `s` in ascending code-point order. */
  function SortStrings(s: seq<string>): (r: seq<string>)
    ensures Sorted(r)
    ensures multiset(r) == multiset(s)
    decreases |s|
  {
    if s == [] then []
    else
      var n := |s| - 1;
      assert s == s[..n] + [s[n]];
      Insert(s[n], SortStrings(s[..n]))
  }
}
