/**
  `no_ansi_string`: Python's `re.sub(r"\x1b[^m]*m", "", s)`. Scanning left to right, an ESC that is
  followed somewhere later by an `m` starts a match that runs up to and including the first such
  `m` and is deleted; any other character is kept and the scan moves on by one.
*/
module Ansi {
  import opened Text

  const Esc: char := '\U{1b}'

  /** The position of the first `c` in `t`. */
  function IndexOf(t: string, c: char): (k: nat)
    requires c in t
    ensures k < |t| && t[k] == c
    ensures forall j :: 0 <= j < k ==> t[j] != c
  {
    if t[0] == c then 0 else 1 + IndexOf(t[1..], c)
  }

  /** Remove every leftmost, non-overlapping match of `\x1b[^m]*m`. */
  function NoAnsi(s: string): (r: string)
    ensures |r| <= |s|
    decreases |s|
  {
    if |s| == 0 then ""
    else if s[0] == Esc && 'm' in s[1..] then NoAnsi(s[IndexOf(s[1..], 'm') + 2..])
    else [s[0]] + NoAnsi(s[1..])
  }

  /** `s` still holds a match of the pattern: an ESC with an `m` somewhere after it. */
  predicate HasMatch(s: string)
  {
    exists i, j :: 0 <= i < j < |s| && s[i] == Esc && s[j] == 'm'
  }

  /** A text with no match is returned unchanged. */
  lemma {:induction false} NoAnsiWithoutMatch(s: string)
    requires !HasMatch(s)
    ensures NoAnsi(s) == s
    decreases |s|
  {
    if |s| > 0 {
      assert !HasMatch(s[1..]) by {
        forall i, j | 0 <= i < j < |s| - 1 && s[1..][i] == Esc
          ensures s[1..][j] != 'm'
        {
          assert s[i + 1] == Esc;
        }
      }
      NoAnsiWithoutMatch(s[1..]);
      assert [s[0]] + s[1..] == s;
    }
  }

  /** A text without ESC is returned unchanged. */
  lemma NoAnsiWithoutEsc(s: string)
    requires Esc !in s
    ensures NoAnsi(s) == s
  {
    NoAnsiWithoutMatch(s);
  }

  /** The output holds no match: no ESC that is later followed by an `m`. */
  lemma {:induction false} NoAnsiLeavesNoMatch(s: string)
    ensures !HasMatch(NoAnsi(s))
    decreases |s|
  {
    if |s| > 0 {
      if s[0] == Esc && 'm' in s[1..] {
        NoAnsiLeavesNoMatch(s[IndexOf(s[1..], 'm') + 2..]);
      } else {
        var t := s[1..];
        var r := NoAnsi(s);
        if s[0] == Esc {
          assert !HasMatch(t);
          NoAnsiWithoutMatch(t);
          assert r == s by { assert [s[0]] + t == s; }
          assert forall j :: 0 < j < |r| ==> r[j] != 'm' by {
            forall j | 0 < j < |r| ensures r[j] != 'm' { assert r[j] == t[j - 1]; }
          }
        } else {
          NoAnsiLeavesNoMatch(t);
          var r' := NoAnsi(t);
          assert r == [s[0]] + r';
          forall i, j | 0 <= i < j < |r| && r[i] == Esc
            ensures r[j] != 'm'
          {
            assert i > 0;
            assert r'[i - 1] == Esc;
          }
        }
      }
    }
  }

  /** Stripping twice is the same as stripping once. */
  lemma NoAnsiIdempotent(s: string)
    ensures NoAnsi(NoAnsi(s)) == NoAnsi(s)
  {
    NoAnsiLeavesNoMatch(s);
    NoAnsiWithoutMatch(NoAnsi(s));
  }

  /** The output only deletes characters of the input. */
  lemma {:induction false} NoAnsiIsSubsequence(s: string)
    ensures IsSubsequence(NoAnsi(s), s)
    decreases |s|
  {
    if |s| > 0 {
      if s[0] == Esc && 'm' in s[1..] {
        var n := IndexOf(s[1..], 'm') + 2;
        NoAnsiIsSubsequence(s[n..]);
        SubsequenceOfSuffix(NoAnsi(s), s, n);
      } else {
        NoAnsiIsSubsequence(s[1..]);
        assert NoAnsi(s)[1..] == NoAnsi(s[1..]);
      }
    }
  }

  /** The first `c` of a text is the first `c` of any prefix that contains one. */
  lemma IndexOfPrefix(t: string, c: char, n: nat)
    requires n <= |t| && c in t[..n]
    ensures IndexOf(t, c) == IndexOf(t[..n], c)
  {
    var k := IndexOf(t[..n], c);
    var k' := IndexOf(t, c);
    assert t[k] == c;
  }

  /**
    A tail of the text without any `m` (for instance one that starts with an ESC that has no later
    `m`) passes through unchanged, after the stripped head.
  */
  lemma {:induction false} NoAnsiTailWithoutM(s: string, i: nat)
    requires i <= |s| && 'm' !in s[i..]
    ensures NoAnsi(s) == NoAnsi(s[..i]) + s[i..]
    decreases |s|
  {
    if i == 0 {
      assert !HasMatch(s) by {
        forall a, b | 0 <= a < b < |s| && s[a] == Esc ensures s[b] != 'm' {
          assert s[b] == s[i..][b];
        }
      }
      NoAnsiWithoutMatch(s);
      assert s[..0] == "" && s[0..] == s;
    } else if s[0] == Esc && 'm' in s[1..] {
      TailAfterMatch(s, i);
    } else {
      TailAfterKept(s, i);
    }
  }

  /** A match at the start of the text that ends before position `i` is also the first match of `s[..i]`. */
  lemma MatchInPrefix(s: string, i: nat)
    requires 0 < i <= |s| && 'm' !in s[i..]
    requires s[0] == Esc && 'm' in s[1..]
    ensures var k := IndexOf(s[1..], 'm');
      k + 2 <= i && NoAnsi(s[..i]) == NoAnsi(s[k + 2..i])
  {
    var k := IndexOf(s[1..], 'm');
    assert k + 1 < i;
    var t := s[..i];
    assert t[0] == Esc && t[1..] == s[1..][..i - 1];
    assert 'm' in t[1..] by { assert t[1..][k] == 'm'; }
    IndexOfPrefix(s[1..], 'm', i - 1);
    assert IndexOf(t[1..], 'm') == k;
    assert NoAnsi(t) == NoAnsi(t[k + 2..]);
    assert t[k + 2..] == s[k + 2..i];
  }

  /** Step of NoAnsiTailWithoutM when the text starts with a match (which ends before the tail). */
  lemma {:induction false} TailAfterMatch(s: string, i: nat)
    requires 0 < i <= |s| && 'm' !in s[i..]
    requires s[0] == Esc && 'm' in s[1..]
    ensures NoAnsi(s) == NoAnsi(s[..i]) + s[i..]
    decreases |s|, 0
  {
    var k := IndexOf(s[1..], 'm');
    MatchInPrefix(s, i);
    var s', j := s[k + 2..], i - k - 2;
    assert NoAnsi(s) == NoAnsi(s');
    assert s'[..j] == s[k + 2..i];
    assert s'[j..] == s[i..];
    NoAnsiTailWithoutM(s', j);
  }

  /** Step of NoAnsiTailWithoutM when the first character is kept. */
  lemma {:induction false} TailAfterKept(s: string, i: nat)
    requires 0 < i <= |s| && 'm' !in s[i..]
    requires !(s[0] == Esc && 'm' in s[1..])
    ensures NoAnsi(s) == NoAnsi(s[..i]) + s[i..]
    decreases |s|, 0
  {
    var t := s[..i];
    assert t[1..] == s[1..][..i - 1];
    if s[0] == Esc {
      assert 'm' !in t[1..] by {
        forall j | 0 <= j < i - 1 ensures t[1..][j] != 'm' { assert t[1..][j] == s[1..][j]; }
      }
    }
    assert NoAnsi(t) == [s[0]] + NoAnsi(t[1..]);
    assert NoAnsi(s) == [s[0]] + NoAnsi(s[1..]);
    assert s[1..][i - 1..] == s[i..];
    NoAnsiTailWithoutM(s[1..], i - 1);
  }

  /** A prefix without ESC passes through, and the rest is stripped on its own. */
  lemma {:induction false} NoAnsiPlainPrefix(a: string, b: string)
    requires Esc !in a
    ensures NoAnsi(a + b) == a + NoAnsi(b)
    decreases |a|
  {
    if |a| > 0 {
      assert (a + b)[1..] == a[1..] + b;
      NoAnsiPlainPrefix(a[1..], b);
      assert [a[0]] + a[1..] == a;
    } else {
      assert a + b == b;
    }
  }

  /** A coloured text `ESC[31m t ESC[0m` with plain `t` is stripped down to `t`. */
  lemma NoAnsiColoured(t: string)
    requires Esc !in t
    ensures NoAnsi([Esc] + "[31m" + t + [Esc] + "[0m") == t
  {
    var reset := [Esc] + "[0m";
    var s := [Esc] + "[31m" + (t + reset);
    assert [Esc] + "[31m" + t + [Esc] + "[0m" == s;
    assert s[1..][3] == 'm';
    assert IndexOf(s[1..], 'm') == 3;
    assert s[5..] == t + reset;
    NoAnsiPlainPrefix(t, reset);
    assert reset[1..][2] == 'm';
    assert IndexOf(reset[1..], 'm') == 2;
    assert reset[4..] == "";
  }
}
