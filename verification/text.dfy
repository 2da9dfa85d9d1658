/**
  The string operations the application relies on, with Python's meaning:
  `sep.join(xs)`, `s.split(c)` for a one-character separator, `s.split()` (split on runs of
  whitespace), `filter(None, xs)` over strings, and `s.split(c)[-1]`.
*/
module Text {
  import opened Wrappers

  /** `sep.join(xs)`. */
  function Join(sep: string, xs: seq<string>): string
  {
    if |xs| == 0 then ""
    else if |xs| == 1 then xs[0]
    else xs[0] + sep + Join(sep, xs[1..])
  }

  /** `s.split(c)`: the pieces between occurrences of `c`; never empty (`"".split(c) == [""]`). */
  function SplitOn(s: string, c: char): (r: seq<string>)
    ensures |r| >= 1
    ensures forall i :: 0 <= i < |r| ==> c !in r[i]
    decreases |s|
  {
    if |s| == 0 then [""]
    else
      var rest := SplitOn(s[1..], c);
      if s[0] == c then [""] + rest
      else [[s[0]] + rest[0]] + rest[1..]
  }

  lemma JoinSingleton(sep: string, x: string)
    ensures Join(sep, [x]) == x
  {
  }

  /** Extending the first element of a list extends the joined text by the same prefix. */
  lemma JoinExtendHead(sep: string, a: string, xs: seq<string>)
    requires |xs| >= 1
    ensures Join(sep, [a + xs[0]] + xs[1..]) == a + Join(sep, xs)
  {
    if |xs| == 1 {
      assert [a + xs[0]] + xs[1..] == [a + xs[0]];
    } else {
      assert ([a + xs[0]] + xs[1..])[1..] == xs[1..];
    }
  }

  /** Joining the pieces of a split with the separator gives back the original text. */
  lemma {:induction false} JoinSplitOn(s: string, c: char)
    ensures Join([c], SplitOn(s, c)) == s
    decreases |s|
  {
    if |s| > 0 {
      var rest := SplitOn(s[1..], c);
      JoinSplitOn(s[1..], c);
      if s[0] == c {
        assert ([""] + rest)[1..] == rest;
        assert s == [c] + s[1..];
      } else {
        JoinExtendHead([c], [s[0]], rest);
        assert s == [s[0]] + s[1..];
      }
    }
  }

  /** Splitting a join of separator-free pieces gives back the pieces. */
  lemma {:induction false} SplitOnJoin(xs: seq<string>, c: char)
    requires |xs| >= 1
    requires forall i :: 0 <= i < |xs| ==> c !in xs[i]
    ensures SplitOn(Join([c], xs), c) == xs
    decreases |xs|
  {
    if |xs| == 1 {
      SplitOnFree(xs[0], c);
    } else {
      SplitOnJoin(xs[1..], c);
      SplitOnPrefix(xs[0], Join([c], xs[1..]), c);
      assert Join([c], xs) == xs[0] + ([c] + Join([c], xs[1..]));
      assert [xs[0]] + xs[1..] == xs;
    }
  }

  /** A text without the separator splits into itself alone. */
  lemma {:induction false} SplitOnFree(s: string, c: char)
    requires c !in s
    ensures SplitOn(s, c) == [s]
    decreases |s|
  {
    if |s| > 0 {
      assert c !in s[1..];
      SplitOnFree(s[1..], c);
      assert [s[0]] + s[1..] == s;
    }
  }

  /** A separator-free prefix followed by the separator becomes a piece of its own. */
  lemma {:induction false} SplitOnPrefix(a: string, t: string, c: char)
    requires c !in a
    ensures SplitOn(a + ([c] + t), c) == [a] + SplitOn(t, c)
    decreases |a|
  {
    if |a| == 0 {
      assert a + ([c] + t) == [c] + t;
      assert ([c] + t)[1..] == t;
    } else {
      assert (a + ([c] + t))[1..] == a[1..] + ([c] + t);
      assert c !in a[1..];
      SplitOnPrefix(a[1..], t, c);
      assert [a[0]] + a[1..] == a;
    }
  }

  /** `s.split(c)[-1]`: the text after the last occurrence of `c` (all of `s` when there is none). */
  function LastSegment(s: string, c: char): string
  {
    var parts := SplitOn(s, c);
    parts[|parts| - 1]
  }

  /** The joined text ends with the last element, preceded by the separator when there are several. */
  lemma {:induction false} JoinLast(sep: string, xs: seq<string>)
    requires |xs| >= 2
    ensures Join(sep, xs) == Join(sep, xs[..|xs| - 1]) + sep + xs[|xs| - 1]
    decreases |xs|
  {
    if |xs| > 2 {
      JoinLast(sep, xs[1..]);
      assert xs[1..][..|xs| - 2] == xs[1..|xs| - 1];
      assert xs[..|xs| - 1][1..] == xs[1..|xs| - 1];
    } else {
      assert xs[..1] == [xs[0]];
    }
  }

  /**
    The last segment contains no separator and is a suffix of the text, preceded either by
    nothing (it is then the whole text) or by the separator itself.
  */
  lemma LastSegmentIsSuffix(s: string, c: char)
    ensures c !in LastSegment(s, c)
    ensures |LastSegment(s, c)| <= |s|
    ensures s[|s| - |LastSegment(s, c)|..] == LastSegment(s, c)
    ensures |LastSegment(s, c)| < |s| ==> s[|s| - |LastSegment(s, c)| - 1] == c
  {
    var parts := SplitOn(s, c);
    var last := parts[|parts| - 1];
    JoinSplitOn(s, c);
    if |parts| >= 2 {
      JoinLast([c], parts);
      var p := Join([c], parts[..|parts| - 1]);
      assert s == p + [c] + last;
      assert s[|s| - |last|..] == last;
    }
  }

  /** `s.split(c, 1)` unpacked into two: the text before the first `c` and the text after it; `None` when `s` has no `c`. */
  function SplitFirst(s: string, c: char): (r: Option<(string, string)>)
    ensures r.None? <==> c !in s
    ensures r.Some? ==> c !in r.value.0 && s == r.value.0 + [c] + r.value.1
  {
    if |s| == 0 then None
    else if s[0] == c then Some(("", s[1..]))
    else
      var rest := SplitFirst(s[1..], c);
      if rest.None? then None
      else
        assert s == [s[0]] + s[1..];
        Some(([s[0]] + rest.value.0, rest.value.1))
  }

  /** `a` is obtained from `b` by deleting elements. */
  predicate IsSubsequence<T(==)>(a: seq<T>, b: seq<T>)
    decreases |b|
  {
    || |a| == 0
    || (|b| > 0 && ((a[0] == b[0] && IsSubsequence(a[1..], b[1..])) || IsSubsequence(a, b[1..])))
  }

  /** Dropping a prefix of the larger sequence keeps a subsequence a subsequence of the whole. */
  lemma {:induction false} SubsequenceOfSuffix<T>(a: seq<T>, b: seq<T>, n: nat)
    requires n <= |b|
    requires IsSubsequence(a, b[n..])
    ensures IsSubsequence(a, b)
    decreases n
  {
    if n > 0 {
      assert b[1..][n - 1..] == b[n..];
      SubsequenceOfSuffix(a, b[1..], n - 1);
    }
  }

  /**
    `filter(None, xs)` over strings: the non-empty elements, in their order. The result is a
    subsequence of `xs` holding every non-empty element as often as `xs` does, and no empty one.
  */
  function FilterNonEmpty(xs: seq<string>): (r: seq<string>)
    ensures forall i :: 0 <= i < |r| ==> r[i] != ""
    ensures IsSubsequence(r, xs)
    ensures multiset(r) == multiset(xs)["" := 0]
  {
    if |xs| == 0 then []
    else
      assert xs == [xs[0]] + xs[1..];
      if xs[0] == "" then FilterNonEmpty(xs[1..])
      else
        var r := [xs[0]] + FilterNonEmpty(xs[1..]);
        assert r[1..] == FilterNonEmpty(xs[1..]);
        r
  }

  /** A list with no empty string is kept whole. */
  lemma {:induction false} FilterNonEmptyKeepsAll(xs: seq<string>)
    requires forall i :: 0 <= i < |xs| ==> xs[i] != ""
    ensures FilterNonEmpty(xs) == xs
  {
    if |xs| > 0 {
      FilterNonEmptyKeepsAll(xs[1..]);
      assert [xs[0]] + xs[1..] == xs;
    }
  }

  /** Every element of a subsequence is an element of the whole. */
  lemma {:induction false} SubsequenceElements<T>(a: seq<T>, b: seq<T>)
    requires IsSubsequence(a, b)
    ensures forall i :: 0 <= i < |a| ==> a[i] in b
    decreases |b|
  {
    if |a| > 0 {
      if a[0] == b[0] && IsSubsequence(a[1..], b[1..]) {
        SubsequenceElements(a[1..], b[1..]);
        forall i | 0 <= i < |a| ensures a[i] in b {
          if i > 0 {
            assert a[i] == a[1..][i - 1];
          }
        }
      } else {
        SubsequenceElements(a, b[1..]);
      }
    }
  }

  /** Python's `str.isspace` for one character. */
  predicate IsSpace(c: char)
  {
    || '\t' <= c <= '\r'
    || '\U{1c}' <= c <= '\U{1f}'
    || c == ' ' || c == '\U{85}' || c == '\U{a0}' || c == '\U{1680}'
    || '\U{2000}' <= c <= '\U{200a}'
    || c == '\U{2028}' || c == '\U{2029}' || c == '\U{202f}' || c == '\U{205f}' || c == '\U{3000}'
  }

  /** `s.lstrip()`: the text after its leading whitespace. */
  function LStrip(s: string): (r: string)
    ensures |r| <= |s| && r == s[|s| - |r|..]
    ensures |r| > 0 ==> !IsSpace(r[0])
    ensures forall i :: 0 <= i < |s| - |r| ==> IsSpace(s[i])
  {
    if |s| > 0 && IsSpace(s[0]) then LStrip(s[1..]) else s
  }

  /** `s.rstrip()`: the text before its trailing whitespace. */
  function RStrip(s: string): (r: string)
    ensures |r| <= |s| && r == s[..|r|]
    ensures |r| > 0 ==> !IsSpace(r[|r| - 1])
    ensures forall i :: |r| <= i < |s| ==> IsSpace(s[i])
  {
    if |s| > 0 && IsSpace(s[|s| - 1]) then RStrip(s[..|s| - 1]) else s
  }

  /** `s.strip()`: the text between its leading and its trailing whitespace, nothing else touched. */
  function Strip(s: string): (r: string)
    ensures StrippedFrom(s, |s| - |LStrip(s)|, r)
  {
    var t := LStrip(s);
    StripPieces(s, t, RStrip(t));
    RStrip(t)
  }

  /** `r` is the part of `s` from `k` on, with only whitespace cut at both ends, and does not begin or end with whitespace. */
  predicate StrippedFrom(s: string, k: nat, r: string)
  {
    && k + |r| <= |s| && r == s[k..k + |r|]
    && (forall i :: 0 <= i < k ==> IsSpace(s[i]))
    && (forall i :: k + |r| <= i < |s| ==> IsSpace(s[i]))
    && (|r| > 0 ==> !IsSpace(r[0]) && !IsSpace(r[|r| - 1]))
  }

  /** Cutting whitespace from the front (`t`) and then from the back (`r`) strips `s`. */
  lemma StripPieces(s: string, t: string, r: string)
    requires |t| <= |s| && t == s[|s| - |t|..]
    requires forall i :: 0 <= i < |s| - |t| ==> IsSpace(s[i])
    requires |r| <= |t| && r == t[..|r|]
    requires forall i :: |r| <= i < |t| ==> IsSpace(t[i])
    requires |r| > 0 ==> !IsSpace(t[0]) && !IsSpace(r[|r| - 1])
    ensures StrippedFrom(s, |s| - |t|, r)
  {
    var k := |s| - |t|;
    assert t[..|r|] == s[k..k + |r|];
    forall i | k + |r| <= i < |s|
      ensures IsSpace(s[i])
    {
      assert s[i] == t[i - k];
    }
    if |r| > 0 {
      assert r[0] == t[0];
    }
  }

  predicate IsWord(w: string)
  {
    |w| > 0 && forall i :: 0 <= i < |w| ==> !IsSpace(w[i])
  }

  /** `s.split()`: the maximal runs of non-whitespace characters, in order. */
  function Words(s: string): (r: seq<string>)
    ensures forall i :: 0 <= i < |r| ==> IsWord(r[i])
    ensures |s| > 0 && !IsSpace(s[0]) ==> |r| > 0 && IsWord(r[0]) && r[0][0] == s[0]
    ensures |r| <= |s|
    decreases |s|
  {
    if |s| == 0 then []
    else if IsSpace(s[0]) then Words(s[1..])
    else
      var t := Words(s[1..]);
      if |s| > 1 && !IsSpace(s[1]) then [[s[0]] + t[0]] + t[1..]
      else [[s[0]]] + t
  }

  /** Leading whitespace does not change the words. */
  lemma {:induction false} WordsSkipSpace(s: string)
    requires |s| > 0 && IsSpace(s[0])
    ensures Words(s) == Words(s[1..])
  {
  }

  /** A word followed by nothing or by whitespace is the first word. */
  lemma {:induction false} WordsPrefix(w: string, t: string)
    requires IsWord(w)
    requires t == [] || IsSpace(t[0])
    ensures Words(w + t) == [w] + Words(t)
    decreases |w|
  {
    if |w| == 1 {
      assert (w + t)[1..] == t;
      assert w == [(w + t)[0]];
    } else {
      var w' := w[1..];
      assert (w + t)[1..] == w' + t;
      WordsPrefix(w', t);
      assert [w[0]] + w' == w;
    }
  }

  /** Words joined by single spaces split back into the same words: `len(" ".join(ws).split()) == len(ws)`. */
  lemma {:induction false} WordsJoin(ws: seq<string>)
    requires forall i :: 0 <= i < |ws| ==> IsWord(ws[i])
    ensures Words(Join(" ", ws)) == ws
    decreases |ws|
  {
    if |ws| == 1 {
      WordsPrefix(ws[0], "");
      assert ws[0] + "" == ws[0];
    } else if |ws| > 1 {
      var rest := Join(" ", ws[1..]);
      var spaced := " " + rest;
      assert Join(" ", ws) == ws[0] + spaced;
      WordsPrefix(ws[0], spaced);
      assert spaced[1..] == rest;
      WordsSkipSpace(spaced);
      WordsJoin(ws[1..]);
      assert [ws[0]] + ws[1..] == ws;
    }
  }

  // ---------------------------------------------------------------------------------------------
  // Decimal digits

  predicate IsDigits(s: string)
  {
    forall i :: 0 <= i < |s| ==> '0' <= s[i] <= '9'
  }

  /** The value of a string of decimal digits. */
  function DigitsValue(s: string): nat
    requires IsDigits(s)
    decreases |s|
  {
    if |s| == 0 then 0 else DigitsValue(s[..|s| - 1]) * 10 + (s[|s| - 1] as int - '0' as int)
  }

  function Pow10(w: nat): nat
  {
    if w == 0 then 1 else 10 * Pow10(w - 1)
  }

  lemma Pow10Values()
    ensures Pow10(2) == 100 && Pow10(4) == 10000 && Pow10(6) == 1000000
  {
    assert Pow10(1) == 10;
    assert Pow10(3) == 1000;
    assert Pow10(5) == 100000;
  }

  /** `w` digits have a value below `10^w`. */
  lemma {:induction false} DigitsValueBound(s: string)
    requires IsDigits(s)
    ensures DigitsValue(s) < Pow10(|s|)
    decreases |s|
  {
    if |s| > 0 {
      DigitsValueBound(s[..|s| - 1]);
    }
  }

  /** `str(n)` for a natural number: its decimal digits without leading zeros. */
  function NatText(n: nat): (r: string)
    ensures |r| >= 1 && IsDigits(r)
    ensures |r| > 1 ==> r[0] != '0'
  {
    if n < 10 then [('0' as int + n) as char] else NatText(n / 10) + [('0' as int + n % 10) as char]
  }

  /** The decimal text reads back as the number. */
  lemma {:induction false} NatTextValue(n: nat)
    ensures DigitsValue(NatText(n)) == n
  {
    if n >= 10 {
      NatTextValue(n / 10);
      var r := NatText(n);
      assert r[..|r| - 1] == NatText(n / 10);
    } else {
      assert NatText(n)[..0] == "";
    }
  }

  /** `str(n)` for any integer. */
  function IntText(n: int): (r: string)
    ensures |r| >= 1
    ensures n >= 0 ==> IsDigits(r) && DigitsValue(r) == n
    ensures n < 0 ==> r[0] == '-' && IsDigits(r[1..]) && DigitsValue(r[1..]) == -n
  {
    NatTextValue(if n >= 0 then n else -n);
    if n >= 0 then NatText(n) else (assert ("-" + NatText(-n))[1..] == NatText(-n); "-" + NatText(-n))
  }
}
