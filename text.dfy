/** The subset of Go's `strings` package that the sync engine relies on,
    written out over `seq<char>`. */
module Text {

  /** strings.HasPrefix(s, prefix) */
  predicate HasPrefix(s: string, prefix: string)
  {
    |prefix| <= |s| && s[..|prefix|] == prefix
  }

  /** strings.Contains(s, sub): some suffix of `s` starts with `sub`. */
  predicate Contains(s: string, sub: string)
    decreases |s|
  {
    HasPrefix(s, sub) || (|s| > 0 && Contains(s[1..], sub))
  }

  /** strings.Index(s, sub): a position at which `sub` occurs, or -1. */
  function Index(s: string, sub: string): (r: int)
    ensures r < 0 <==> !Contains(s, sub)
    ensures r >= 0 ==> r + |sub| <= |s| && s[r..r + |sub|] == sub
    decreases |s|
  {
    if HasPrefix(s, sub) then 0
    else if |s| == 0 then -1
    else
      var k := Index(s[1..], sub);
      if k < 0 then -1 else k + 1
  }

  /** The position Index finds is the first one: `sub` occurs at no
      earlier position. */
  lemma {:induction false} IndexIsFirst(s: string, sub: string)
    ensures forall j :: 0 <= j < Index(s, sub) ==> !HasPrefix(s[j..], sub)
    decreases |s|
  {
    if !HasPrefix(s, sub) && |s| > 0 {
      IndexIsFirst(s[1..], sub);
      forall j | 1 <= j < Index(s, sub) ensures !HasPrefix(s[j..], sub) {
        assert s[j..] == s[1..][j - 1..];
      }
    }
  }

  /** A `sub` found inside a part of `s` is found inside `s`. */
  lemma {:induction false} ContainsInSuffix(s: string, sub: string, i: nat)
    requires i <= |s|
    requires Contains(s[i..], sub)
    ensures Contains(s, sub)
    decreases i
  {
    if i > 0 {
      assert s[1..][i - 1..] == s[i..];
      ContainsInSuffix(s[1..], sub, i - 1);
    }
  }

  /** strings.ReplaceAll(s, from, to): every non-overlapping occurrence of
      `from`, scanning left to right, is replaced by `to`. */
  function ReplaceAll(s: string, from: string, to: string): string
    requires from != ""
    decreases |s|
  {
    if HasPrefix(s, from) then to + ReplaceAll(s[|from|..], from, to)
    else if s == [] then []
    else [s[0]] + ReplaceAll(s[1..], from, to)
  }

  /** unicode.IsSpace: the Latin-1 spaces '\t', '\n', '\v', '\f', '\r',
      ' ', U+0085 and U+00A0, and the other code points with the Unicode
      White_Space property. */
  predicate IsSpace(c: char)
  {
    || ('\t' <= c <= '\r') || c == ' ' || c == '\U{85}' || c == '\U{A0}'
    || c == '\U{1680}' || ('\U{2000}' <= c <= '\U{200A}')
    || c == '\U{2028}' || c == '\U{2029}' || c == '\U{202F}' || c == '\U{205F}' || c == '\U{3000}'
  }

  /** strings.TrimLeft, strings.TrimLeftFunc: drop the leading characters
      for which `cut` holds. */
  function TrimLeft(s: string, cut: char -> bool): string
    decreases |s|
  {
    if |s| > 0 && cut(s[0]) then TrimLeft(s[1..], cut) else s
  }

  /** strings.TrimRight, strings.TrimRightFunc: drop the trailing
      characters for which `cut` holds. */
  function TrimRight(s: string, cut: char -> bool): string
    decreases |s|
  {
    if |s| > 0 && cut(s[|s| - 1]) then TrimRight(s[..|s| - 1], cut) else s
  }

  /** TrimLeft removes a prefix of characters for which `cut` holds, and
      what is left does not start with one. */
  lemma {:induction false} TrimLeftMeaning(s: string, cut: char -> bool)
    ensures var r := TrimLeft(s, cut);
      && |r| <= |s| && r == s[|s| - |r|..]
      && (r == [] || !cut(r[0]))
      && forall i :: 0 <= i < |s| - |r| ==> cut(s[i])
    decreases |s|
  {
    if |s| > 0 && cut(s[0]) {
      TrimLeftMeaning(s[1..], cut);
      var r := TrimLeft(s, cut);
      forall i | 0 <= i < |s| - |r| ensures cut(s[i]) {
        if i > 0 { assert s[i] == s[1..][i - 1]; }
      }
    }
  }

  /** TrimRight removes a suffix of characters for which `cut` holds, and
      what is left does not end with one. */
  lemma {:induction false} TrimRightMeaning(s: string, cut: char -> bool)
    ensures var r := TrimRight(s, cut);
      && |r| <= |s| && r == s[..|r|]
      && (r == [] || !cut(r[|r| - 1]))
      && forall i :: |r| <= i < |s| ==> cut(s[i])
    decreases |s|
  {
    if |s| > 0 && cut(s[|s| - 1]) {
      TrimRightMeaning(s[..|s| - 1], cut);
      var r := TrimRight(s, cut);
      forall i | |r| <= i < |s| ensures cut(s[i]) {
        if i < |s| - 1 { assert s[i] == s[..|s| - 1][i]; }
      }
    }
  }

  /** strings.Trim(s, cutset), with the cut set given by its membership test. */
  function Trim(s: string, cut: char -> bool): string
  {
    TrimRight(TrimLeft(s, cut), cut)
  }

  /** strings.TrimSpace(s) */
  function TrimSpace(s: string): string
  {
    Trim(s, IsSpace)
  }

  /** Lower-casing of the ASCII letters; every other code point is kept. */
  function LowerChar(c: char): char
  {
    if 'A' <= c <= 'Z' then (c as int + 32) as char else c
  }

  function Lower(s: string): string
    decreases |s|
  {
    if s == [] then [] else [LowerChar(s[0])] + Lower(s[1..])
  }

  /** strings.Join(xs, sep) */
  function Join(xs: seq<string>, sep: string): string
    decreases |xs|
  {
    if |xs| == 0 then ""
    else if |xs| == 1 then xs[0]
    else xs[0] + sep + Join(xs[1..], sep)
  }

  /** Joining a list whose first item is non-empty gives a non-empty string. */
  lemma {:induction false} JoinNonEmpty(xs: seq<string>, sep: string)
    requires |xs| > 0 && xs[0] != ""
    ensures Join(xs, sep) != ""
  {
    if |xs| > 1 {
      assert |Join(xs, sep)| >= |xs[0]|;
    }
  }

  /** strings.Split(s, sep) for a non-empty separator: the pieces between
      the non-overlapping occurrences of `sep`, found left to right. */
  function Split(s: string, sep: string): (r: seq<string>)
    requires sep != ""
    ensures |r| >= 1
    decreases |s|
  {
    var i := Index(s, sep);
    if i < 0 then [s] else [s[..i]] + Split(s[i + |sep|..], sep)
  }

  /** The separator used for lists of options. */
  const ListSeparator := ", "

  /** When `head` does not contain ", ", the first ", " of head + ", " + tail
      is the one right after `head`: the separator cannot straddle the
      boundary, because it starts with ',' and its second character is ' '. */
  lemma IndexAfterHead(head: string, tail: string)
    requires !Contains(head, ListSeparator)
    ensures Index(head + ListSeparator + tail, ListSeparator) == |head|
  {
    var s := head + ListSeparator + tail;
    forall j | 0 <= j < |head| ensures !HasPrefix(s[j..], ListSeparator) {
      if j + 1 < |head| {
        assert s[j..][..2] == head[j..][..2];
        assert !HasPrefix(head[j..], ListSeparator) by {
          if HasPrefix(head[j..], ListSeparator) {
            ContainsInSuffix(head, ListSeparator, j);
          }
        }
      } else {
        assert s[j..][1] == ',';
      }
    }
    assert s[|head|..][..2] == ListSeparator;
    IndexAt(s, ListSeparator, |head|);
  }

  /** Index finds the position `p` when `sub` occurs there and nowhere
      earlier. */
  lemma {:induction false} IndexAt(s: string, sub: string, p: nat)
    requires p <= |s| && HasPrefix(s[p..], sub)
    requires forall j :: 0 <= j < p ==> !HasPrefix(s[j..], sub)
    ensures Index(s, sub) == p
    decreases p
  {
    assert s[0..] == s;
    if p > 0 {
      forall j | 0 <= j < p - 1 ensures !HasPrefix(s[1..][j..], sub) {
        assert s[1..][j..] == s[j + 1..];
      }
      assert s[1..][p - 1..] == s[p..];
      IndexAt(s[1..], sub, p - 1);
    }
  }

  /** The parts of a three-part concatenation, recovered by slicing. */
  lemma Slices(a: string, b: string, c: string)
    ensures (a + b + c)[..|a|] == a
    ensures (a + b + c)[|a| + |b|..] == c
  {
  }

  /** Splitting a joined list on ", " gives the list back, provided no item
      contains ", " itself. */
  lemma {:induction false} SplitJoin(xs: seq<string>)
    requires |xs| > 0
    requires forall x :: x in xs ==> !Contains(x, ListSeparator)
    ensures Split(Join(xs, ListSeparator), ListSeparator) == xs
    decreases |xs|
  {
    if |xs| == 1 {
      assert !Contains(xs[0], ListSeparator) by { assert xs[0] in xs; }
      assert Index(xs[0], ListSeparator) < 0;
    } else {
      var head, rest := xs[0], xs[1..];
      var tail := Join(rest, ListSeparator);
      assert head in xs;
      assert forall x :: x in rest ==> x in xs;
      var s := head + ListSeparator + tail;
      assert Join(xs, ListSeparator) == s;
      IndexAfterHead(head, tail);
      Slices(head, ListSeparator, tail);
      assert Split(s, ListSeparator) == [head] + Split(tail, ListSeparator);
      SplitJoin(rest);
      assert xs == [head] + rest;
    }
  }
}
