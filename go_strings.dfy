/** The three functions of Go's `strings` package that the client relies on:
    `TrimSpace` (applied to the submitted input line), and `Split` / `Join`
    on "\n" (used by the chat box's last-lines transform). Strings are
    sequences of Unicode scalar values, i.e. already-decoded runes. */
module GoStrings {

  /** The characters Go's `unicode.IsSpace` accepts: the Latin-1 spaces
      '\t', '\n', '\v', '\f', '\r', ' ', U+0085 and U+00A0, and the other
      characters of Unicode's White_Space property. */
  const SpaceChars: set<char> := {
    '\t', '\n', '\U{B}', '\U{C}', '\r', ' ', '\U{85}', '\U{A0}', '\U{1680}',
    '\U{2000}', '\U{2001}', '\U{2002}', '\U{2003}', '\U{2004}', '\U{2005}',
    '\U{2006}', '\U{2007}', '\U{2008}', '\U{2009}', '\U{200A}',
    '\U{2028}', '\U{2029}', '\U{202F}', '\U{205F}', '\U{3000}'
  }

  predicate IsSpace(c: char) {
    c in SpaceChars
  }

  predicate AllSpace(s: string) {
    forall i :: 0 <= i < |s| ==> IsSpace(s[i])
  }

  /** Neither end of `s` is a space character. */
  predicate Trimmed(s: string) {
    s == [] || (!IsSpace(s[0]) && !IsSpace(s[|s| - 1]))
  }

  /** The first index at or after `from` that holds no space character, or
      `|s|` when there is none: Go's forward scan for the start. */
  function TrimStart(s: string, from: nat): (k: nat)
    requires from <= |s|
    ensures from <= k <= |s|
    ensures forall j :: from <= j < k ==> IsSpace(s[j])
    ensures k < |s| ==> !IsSpace(s[k])
    decreases |s| - from
  {
    if from < |s| && IsSpace(s[from]) then TrimStart(s, from + 1) else from
  }

  /** Scanning backward from `upto`, never below `start`: the end of the last
      character that is not a space. Go's backward scan for the stop. */
  function TrimStop(s: string, start: nat, upto: nat): (k: nat)
    requires start <= upto <= |s|
    ensures start <= k <= upto
    ensures forall j :: k <= j < upto ==> IsSpace(s[j])
    ensures k > start ==> !IsSpace(s[k - 1])
    decreases upto
  {
    if upto > start && IsSpace(s[upto - 1]) then TrimStop(s, start, upto - 1) else upto
  }

  /** Go's `strings.TrimSpace`: `s` without its leading and trailing white space. */
  function TrimSpace(s: string): (r: string)
    ensures Trimmed(r)
  {
    var start := TrimStart(s, 0);
    s[start..TrimStop(s, start, |s|)]
  }

  /** `r` is what is left of `s` once white space is cut from both ends,
      the cut at the front being `i` characters long. */
  predicate IsTrimAt(r: string, s: string, i: int) {
    && Trimmed(r)
    && 0 <= i <= |s| - |r| && s[i..i + |r|] == r
    && AllSpace(s[..i]) && AllSpace(s[i + |r|..])
  }

  /** TrimSpace cuts exactly the white space at both ends: its result is a
      slice of the input with only spaces around it. */
  lemma TrimSpaceIsTrim(s: string)
    ensures IsTrimAt(TrimSpace(s), s, TrimStart(s, 0))
  {
    var start := TrimStart(s, 0);
    var stop := TrimStop(s, start, |s|);
    assert AllSpace(s[..start]) by {
      forall j | 0 <= j < start ensures IsSpace(s[..start][j]) {
        assert s[..start][j] == s[j];
      }
    }
    assert AllSpace(s[stop..]) by {
      forall j | 0 <= j < |s| - stop ensures IsSpace(s[stop..][j]) {
        assert s[stop..][j] == s[stop + j];
      }
    }
  }

  /** Conversely, any slice with no white space at its ends and only white
      space around it is what TrimSpace returns. */
  lemma TrimSpaceUnique(r: string, s: string, i: int)
    requires IsTrimAt(r, s, i)
    ensures TrimSpace(s) == r
  {
    var start := TrimStart(s, 0);
    var n := i + |r|;
    forall j | 0 <= j < i ensures IsSpace(s[j]) {
      assert s[..i][j] == s[j];
    }
    forall j | n <= j < |s| ensures IsSpace(s[j]) {
      assert s[n..][j - n] == s[j];
    }
    if r == [] {
      assert start == |s|;
    } else {
      assert s[i] == r[0] && s[n - 1] == r[|r| - 1];
      assert start == i;
      var stop := TrimStop(s, start, |s|);
      assert stop == n;
    }
  }

  /** So a trimmed string padded with white space on both sides trims back
      to itself: " /exit\t" and "/exit" are the same command. */
  lemma TrimSpaceOfPadded(p: string, r: string, q: string)
    requires AllSpace(p) && AllSpace(q) && Trimmed(r)
    ensures TrimSpace(p + r + q) == r
  {
    var s := p + r + q;
    assert s[..|p|] == p && s[|p|..|p| + |r|] == r && s[|p| + |r|..] == q;
    TrimSpaceUnique(r, s, |p|);
  }

  /** Trimming twice is trimming once. */
  lemma TrimSpaceIdempotent(s: string)
    ensures TrimSpace(TrimSpace(s)) == TrimSpace(s)
  {
    var r := TrimSpace(s);
    assert r[..0] == [] && r[0..|r|] == r && r[|r|..] == [];
    TrimSpaceUnique(r, r, 0);
  }

  /** Go's `strings.Split(s, "\n")`: the pieces between newlines, at least one. */
  function Split(s: string): (r: seq<string>)
    ensures |r| >= 1
    ensures forall k :: 0 <= k < |r| ==> '\n' !in r[k]
  {
    if |s| == 0 then [""]
    else if s[0] == '\n' then [""] + Split(s[1..])
    else
      var rest := Split(s[1..]);
      [[s[0]] + rest[0]] + rest[1..]
  }

  /** Go's `strings.Join(lines, "\n")`. */
  function Join(lines: seq<string>): (r: string)
    ensures |lines| >= 1 ==> |lines[0]| <= |r| && r[..|lines[0]|] == lines[0]
    ensures |lines| >= 2 ==> |lines[0]| < |r| && r[|lines[0]|] == '\n'
  {
    if |lines| == 0 then ""
    else if |lines| == 1 then lines[0]
    else lines[0] + "\n" + Join(lines[1..])
  }

  /** Joining the pieces of a split gives the string back. */
  lemma {:induction false} JoinSplit(s: string)
    ensures Join(Split(s)) == s
  {
    if |s| == 0 {
    } else if s[0] == '\n' {
      JoinSplit(s[1..]);
    } else {
      JoinSplit(s[1..]);
      var rest := Split(s[1..]);
      if |rest| == 1 {
      } else {
        assert ([[s[0]] + rest[0]] + rest[1..])[1..] == rest[1..];
      }
    }
  }

  lemma {:induction false} SplitOfPrefix(a: string, s: string)
    requires '\n' !in a
    ensures Split(a + s) == [a + Split(s)[0]] + Split(s)[1..]
    decreases |a|
  {
    if a != [] {
      assert (a + s)[0] == a[0] && (a + s)[1..] == a[1..] + s;
      SplitOfPrefix(a[1..], s);
      assert [a[0]] + (a[1..] + Split(s)[0]) == a + Split(s)[0];
    } else {
      assert a + s == s && a + Split(s)[0] == Split(s)[0];
      assert Split(s) == [Split(s)[0]] + Split(s)[1..];
    }
  }

  /** Splitting the join of newline-free pieces gives the pieces back. */
  lemma {:induction false} SplitJoin(lines: seq<string>)
    requires |lines| >= 1
    requires forall k :: 0 <= k < |lines| ==> '\n' !in lines[k]
    ensures Split(Join(lines)) == lines
  {
    if |lines| == 1 {
      SplitOfPrefix(lines[0], "");
      assert lines[0] + "" == lines[0];
    } else {
      SplitJoin(lines[1..]);
      var rest := Join(lines[1..]);
      assert Split("\n" + rest) == [""] + Split(rest) by {
        assert ("\n" + rest)[0] == '\n' && ("\n" + rest)[1..] == rest;
      }
      assert lines[0] + "\n" + rest == lines[0] + ("\n" + rest);
      SplitOfPrefix(lines[0], "\n" + rest);
      var t := Split("\n" + rest);
      assert t[0] == "" && t[1..] == lines[1..];
      assert lines[0] + t[0] == lines[0];
      assert lines == [lines[0]] + lines[1..];
    }
  }

  /** The join of a tail of the pieces is the tail of the join, after the
      first `k` pieces and the newline that follows them. */
  lemma {:induction false} JoinSuffix(lines: seq<string>, k: nat)
    requires 0 < k < |lines|
    ensures Join(lines) == Join(lines[..k]) + "\n" + Join(lines[k..])
  {
    if k > 1 {
      JoinSuffix(lines[1..], k - 1);
      assert lines[1..][..k - 1] == lines[..k][1..];
      assert lines[1..][k - 1..] == lines[k..];
    }
  }
}
