/** The three .NET string operations the OBJ loader relies on:
    char.IsWhiteSpace (through string.IsNullOrWhiteSpace), line.StartsWith("#")
    and line.Split(' ', StringSplitOptions.RemoveEmptyEntries). */
module Text {

  /** char.IsWhiteSpace: the Unicode White_Space characters, i.e. the control
      characters U+0009..U+000D and U+0085 and the space, line and paragraph
      separators. */
  predicate IsWhiteSpace(c: char)
  {
    var n := c as int;
    || 0x09 <= n <= 0x0D
    || n == 0x20
    || n == 0x85
    || n == 0xA0
    || n == 0x1680
    || 0x2000 <= n <= 0x200A
    || n == 0x2028
    || n == 0x2029
    || n == 0x202F
    || n == 0x205F
    || n == 0x3000
  }

  /** string.IsNullOrWhiteSpace on a non-null string: empty, or white space only. */
  predicate IsNullOrWhiteSpace(s: string)
  {
    forall i :: 0 <= i < |s| ==> IsWhiteSpace(s[i])
  }

  /** line.StartsWith("#"), taken as an ordinal comparison. */
  predicate StartsWithHash(s: string)
  {
    |s| > 0 && s[0] == '#'
  }

  /** The length of the run of non-space characters at the start of `s`. */
  function TokenLength(s: string): (n: nat)
    ensures n <= |s|
    ensures forall i :: 0 <= i < n ==> s[i] != ' '
    ensures n < |s| ==> s[n] == ' '
  {
    if |s| == 0 || s[0] == ' ' then 0 else 1 + TokenLength(s[1..])
  }

  /** s.Split(' ', StringSplitOptions.RemoveEmptyEntries): the maximal runs of
      characters other than ' ', in order. */
  function Split(s: string): (parts: seq<string>)
    ensures forall k :: 0 <= k < |parts| ==> |parts[k]| > 0 && ' ' !in parts[k]
    decreases |s|
  {
    if |s| == 0 then []
    else if s[0] == ' ' then Split(s[1..])
    else
      var n := TokenLength(s);
      [s[..n]] + Split(s[n..])
  }

  /** The string with every ' ' removed. */
  function WithoutSpaces(s: string): (r: string)
    ensures ' ' !in r
  {
    if |s| == 0 then [] else (if s[0] == ' ' then [] else [s[0]]) + WithoutSpaces(s[1..])
  }

  function Concat(parts: seq<string>): string
  {
    if |parts| == 0 then [] else parts[0] + Concat(parts[1..])
  }

  lemma {:induction false} WithoutSpacesAppend(a: string, b: string)
    ensures WithoutSpaces(a + b) == WithoutSpaces(a) + WithoutSpaces(b)
    decreases |a|
  {
    if |a| > 0 {
      assert (a + b)[1..] == a[1..] + b;
      WithoutSpacesAppend(a[1..], b);
    } else {
      assert a + b == b;
    }
  }

  lemma {:induction false} WithoutSpacesOfToken(t: string)
    requires ' ' !in t
    ensures WithoutSpaces(t) == t
  {
    if |t| > 0 {
      assert ' ' !in t[1..] by {
        forall i | 0 <= i < |t[1..]| ensures t[1..][i] != ' ' { assert t[1..][i] == t[i + 1]; }
      }
      WithoutSpacesOfToken(t[1..]);
      assert [t[0]] + t[1..] == t;
    }
  }

  /** Splitting loses nothing but the separators: the tokens put back together
      are the line with its spaces removed. */
  lemma {:induction false} SplitKeepsText(s: string)
    ensures Concat(Split(s)) == WithoutSpaces(s)
    decreases |s|
  {
    if |s| == 0 {
    } else if s[0] == ' ' {
      SplitKeepsText(s[1..]);
    } else {
      var n := TokenLength(s);
      assert s == s[..n] + s[n..];
      SplitKeepsText(s[n..]);
      WithoutSpacesAppend(s[..n], s[n..]);
      assert ' ' !in s[..n] by {
        forall i | 0 <= i < n ensures s[..n][i] != ' ' { }
      }
      WithoutSpacesOfToken(s[..n]);
      assert ([s[..n]] + Split(s[n..]))[1..] == Split(s[n..]);
    }
  }

  /** A character that is not white space is not a space either, so it ends up in a token:
      a line that is not blank splits into at least one token. */
  lemma {:induction false} NonBlankHasToken(s: string)
    requires !IsNullOrWhiteSpace(s)
    ensures |Split(s)| >= 1
    decreases |s|
  {
    if s[0] == ' ' {
      assert !IsNullOrWhiteSpace(s[1..]) by {
        var i :| 0 <= i < |s| && !IsWhiteSpace(s[i]);
        assert i > 0;
        assert s[1..][i - 1] == s[i];
      }
      NonBlankHasToken(s[1..]);
    }
  }

  /** Splitting at a space: the tokens of `a + " " + b` are those of `a`
      followed by those of `b`, so no token runs across a space and, with
      SingleToken, none breaks between two non-space characters. */
  lemma {:induction false} SplitAtSpace(a: string, b: string)
    ensures Split(a + " " + b) == Split(a) + Split(b)
    decreases |a|
  {
    var s := a + " " + b;
    if |a| == 0 {
      assert s[1..] == b;
    } else if a[0] == ' ' {
      assert s[1..] == a[1..] + " " + b;
      SplitAtSpace(a[1..], b);
    } else {
      var n := TokenLength(a);
      var m := TokenLength(s);
      assert forall i :: 0 <= i < |a| ==> s[i] == a[i];
      assert s[|a|] == ' ';
      assert m == n;
      assert s[..n] == a[..n];
      assert s[n..] == a[n..] + " " + b;
      SplitAtSpace(a[n..], b);
    }
  }

  /** A line with no ' ' in it is a single token, whatever other white space it holds. */
  lemma SingleToken(s: string)
    requires |s| > 0 && ' ' !in s
    ensures Split(s) == [s]
  {
    var n := TokenLength(s);
    assert n == |s|;
    assert s[..n] == s;
    assert Split(s[n..]) == [];
  }
}
