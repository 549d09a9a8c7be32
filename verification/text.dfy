/**
 The string operations of the .NET base library that the adapter relies on:
 String.Trim, String.StartsWith, String.Join, and the space-terminated
 argument string the Linker assembles with a StringBuilder.
 */
module Text {

  /** Char.IsWhiteSpace: the characters String.Trim strips from either end. */
  predicate IsWhiteSpace(c: char)
  {
    || ('\t' <= c <= '\r')
    || c == ' '
    || c == '\U{0085}'
    || c == '\U{00A0}'
    || c == '\U{1680}'
    || ('\U{2000}' <= c <= '\U{200A}')
    || c == '\U{2028}'
    || c == '\U{2029}'
    || c == '\U{202F}'
    || c == '\U{205F}'
    || c == '\U{3000}'
  }

  predicate AllWhiteSpace(s: string)
  {
    forall i :: 0 <= i < |s| ==> IsWhiteSpace(s[i])
  }

  /** Neither end of `s` is white space: the strings String.Trim leaves alone. */
  predicate IsTrimmed(s: string)
  {
    s == [] || (!IsWhiteSpace(s[0]) && !IsWhiteSpace(s[|s| - 1]))
  }

  /** String.TrimStart: drops the white space at the front. */
  function TrimStart(s: string): (r: string)
    ensures |r| <= |s|
    ensures r == [] || !IsWhiteSpace(r[0])
  {
    if s != [] && IsWhiteSpace(s[0]) then TrimStart(s[1..]) else s
  }

  /** String.TrimEnd: drops the white space at the back. */
  function TrimEnd(s: string): (r: string)
    ensures |r| <= |s|
    ensures r != [] ==> r[0] == s[0]
    ensures r == [] || !IsWhiteSpace(r[|r| - 1])
  {
    if s != [] && IsWhiteSpace(s[|s| - 1]) then TrimEnd(s[..|s| - 1]) else s
  }

  /** String.Trim: the result has no white space at either end. */
  function Trim(s: string): (r: string)
    ensures IsTrimmed(r)
    ensures |r| <= |s|
  {
    TrimEnd(TrimStart(s))
  }

  /** TrimStart keeps a suffix of its input and what it drops is white space. */
  lemma {:induction false} TrimStartDropsWhiteSpace(s: string)
    ensures TrimStart(s) == s[|s| - |TrimStart(s)|..]
    ensures AllWhiteSpace(s[..|s| - |TrimStart(s)|])
  {
    if s != [] && IsWhiteSpace(s[0]) {
      TrimStartDropsWhiteSpace(s[1..]);
      var n := |s| - |TrimStart(s)|;
      assert s[1..][n - 1..] == s[n..];
      assert s[..n] == [s[0]] + s[1..][..n - 1];
    }
  }

  /** TrimEnd keeps a prefix of its input and what it drops is white space. */
  lemma {:induction false} TrimEndDropsWhiteSpace(s: string)
    ensures TrimEnd(s) == s[..|TrimEnd(s)|]
    ensures AllWhiteSpace(s[|TrimEnd(s)|..])
  {
    if s != [] && IsWhiteSpace(s[|s| - 1]) {
      var p := s[..|s| - 1];
      TrimEndDropsWhiteSpace(p);
      assert p[..|TrimEnd(p)|] == s[..|TrimEnd(s)|];
      assert s[|TrimEnd(s)|..] == p[|TrimEnd(p)|..] + [s[|s| - 1]];
    }
  }

  /** What Trim keeps is `s` with a white-space prefix and a white-space suffix cut off. */
  lemma TrimCutsWhiteSpaceMargins(s: string)
    ensures exists i, j :: 0 <= i <= j <= |s| && Trim(s) == s[i..j] && AllWhiteSpace(s[..i]) && AllWhiteSpace(s[j..])
  {
    var t := TrimStart(s);
    var r := TrimEnd(t);
    TrimStartDropsWhiteSpace(s);
    TrimEndDropsWhiteSpace(t);
    var i := |s| - |t|;
    var j := i + |r|;
    assert t == s[i..];
    assert r == t[..|r|];
    assert s[i..j] == r;
    assert s[j..] == t[|r|..];
  }

  /** A white-space prefix of `s` stops at or before any non-white-space position. */
  lemma WhiteSpacePrefixBound(s: string, i: nat, a: nat)
    requires i <= |s| && a < |s| && AllWhiteSpace(s[..i]) && !IsWhiteSpace(s[a])
    ensures i <= a
  {
  }

  /** A white-space suffix of `s` starts after any non-white-space position. */
  lemma WhiteSpaceSuffixBound(s: string, j: nat, a: nat)
    requires j <= |s| && a < |s| && AllWhiteSpace(s[j..]) && !IsWhiteSpace(s[a])
    ensures a < j
  {
  }

  /** The only trimmed factor of `pre + core + post` with white-space margins is `core`. */
  lemma TrimmedFactorIsCore(pre: string, core: string, post: string, i: nat, j: nat)
    requires AllWhiteSpace(pre) && AllWhiteSpace(post) && IsTrimmed(core)
    requires i <= j <= |pre + core + post|
    requires AllWhiteSpace((pre + core + post)[..i]) && AllWhiteSpace((pre + core + post)[j..])
    requires IsTrimmed((pre + core + post)[i..j])
    ensures (pre + core + post)[i..j] == core
  {
    var s := pre + core + post;
    if core != [] {
      var a := |pre|;
      var b := |pre| + |core|;
      assert s[a] == core[0] && s[b - 1] == core[|core| - 1];
      WhiteSpacePrefixBound(s, i, a);
      WhiteSpaceSuffixBound(s, j, b - 1);
      assert s[i..j][0] == s[i] && s[i..j][j - i - 1] == s[j - 1];
      assert s[a..b] == core;
    }
  }

  /** Trim undoes any white-space padding around a string that has none at its ends. */
  lemma TrimRemovesPadding(pre: string, core: string, post: string)
    requires AllWhiteSpace(pre) && AllWhiteSpace(post) && IsTrimmed(core)
    ensures Trim(pre + core + post) == core
  {
    var s := pre + core + post;
    var r := Trim(s);
    TrimCutsWhiteSpaceMargins(s);
    var i, j :| 0 <= i <= j <= |s| && r == s[i..j] && AllWhiteSpace(s[..i]) && AllWhiteSpace(s[j..]);
    TrimmedFactorIsCore(pre, core, post, i, j);
  }

  /** TrimStart of a string of white space is empty. */
  lemma {:induction false} TrimStartOfWhiteSpace(s: string)
    requires AllWhiteSpace(s)
    ensures TrimStart(s) == []
  {
    if s != [] {
      TrimStartOfWhiteSpace(s[1..]);
    }
  }

  /** TrimEnd removes exactly a white-space suffix that follows a non-white-space character. */
  lemma {:induction false} TrimEndDropsSuffix(core: string, post: string)
    requires AllWhiteSpace(post)
    requires core == [] || !IsWhiteSpace(core[|core| - 1])
    ensures TrimEnd(core + post) == core
  {
    if post == [] {
      assert core + post == core;
    } else {
      var p := post[..|post| - 1];
      assert (core + post)[..|core + post| - 1] == core + p;
      TrimEndDropsSuffix(core, p);
    }
  }

  /** Trim of a string with no white space at its ends, followed by white space, gives back that string. */
  lemma TrimDropsTrailingWhiteSpace(core: string, post: string)
    requires AllWhiteSpace(post) && IsTrimmed(core)
    ensures Trim(core + post) == core
  {
    if core == [] {
      assert core + post == post;
      TrimStartOfWhiteSpace(post);
    } else {
      assert (core + post)[0] == core[0];
      TrimEndDropsSuffix(core, post);
    }
  }

  /** Trim of a string followed by white space is no longer than the string. */
  lemma TrimBeforeWhiteSpace(core: string, post: string)
    requires AllWhiteSpace(post)
    ensures |Trim(core + post)| <= |core|
  {
    var s := core + post;
    var t := TrimStart(s);
    var r := TrimEnd(t);
    TrimStartDropsWhiteSpace(s);
    TrimEndDropsWhiteSpace(t);
    if r != [] {
      var k := |s| - |t| + |r| - 1;
      assert s[k] == r[|r| - 1];
      assert s[|core|..] == post;
      WhiteSpaceSuffixBound(s, |core|, k);
    }
  }

  /** Trim changes a string exactly when one of its ends is white space. */
  lemma TrimFixedPoints(s: string)
    ensures Trim(s) == s <==> IsTrimmed(s)
  {
    if IsTrimmed(s) {
      TrimRemovesPadding([], s, []);
      assert [] + s + [] == s;
    }
  }

  /** String.StartsWith, compared ordinally. */
  predicate StartsWith(s: string, prefix: string)
  {
    prefix <= s
  }

  /** Every item followed by exactly one space, in order: the argument string a StringBuilder accumulates. */
  function SpaceTerminated(items: seq<string>): (r: string)
    ensures r == [] <==> items == []
    ensures |r| >= |items|
  {
    if items == [] then "" else items[0] + " " + SpaceTerminated(items[1..])
  }

  /** A non-empty argument string starts with the first item and a space, and ends with a space. */
  lemma {:induction false} SpaceTerminatedShape(items: seq<string>)
    requires items != []
    ensures items[0] + " " <= SpaceTerminated(items)
    ensures SpaceTerminated(items)[|SpaceTerminated(items)| - 1] == ' '
  {
    var r := SpaceTerminated(items);
    var rest := SpaceTerminated(items[1..]);
    assert r == (items[0] + " ") + rest;
    if items[1..] != [] {
      SpaceTerminatedShape(items[1..]);
      assert r[|r| - 1] == rest[|rest| - 1];
    }
  }

  lemma {:induction false} SpaceTerminatedAppend(a: seq<string>, b: seq<string>)
    ensures SpaceTerminated(a + b) == SpaceTerminated(a) + SpaceTerminated(b)
  {
    if a == [] {
      assert a + b == b;
    } else {
      assert (a + b)[1..] == a[1..] + b;
      SpaceTerminatedAppend(a[1..], b);
    }
  }

  /** Appending one item to the list appends that item and a space to the string. */
  lemma SpaceTerminatedSnoc(items: seq<string>, x: string)
    ensures SpaceTerminated(items + [x]) == SpaceTerminated(items) + x + " "
  {
    SpaceTerminatedAppend(items, [x]);
    assert [x][1..] == [];
  }

  /** String.Join: the items with `sep` between consecutive ones. */
  function Join(sep: string, items: seq<string>): (r: string)
    ensures items == [] ==> r == []
    ensures items != [] ==> items[0] <= r
    ensures |items| >= 2 ==> items[0] + sep <= r
  {
    if items == [] then ""
    else if |items| == 1 then items[0]
    else items[0] + sep + Join(sep, items[1..])
  }

  /** A space-joined list plus one trailing space is the space-terminated list. */
  lemma {:induction false} JoinThenSpace(items: seq<string>)
    requires items != []
    ensures Join(" ", items) + " " == SpaceTerminated(items)
  {
    if |items| > 1 {
      JoinThenSpace(items[1..]);
    }
  }

  /** The position of the first space in `s`, or |s| if there is none. */
  function SpaceIndex(s: string): (k: nat)
    ensures k <= |s|
    ensures forall i :: 0 <= i < k ==> s[i] != ' '
    ensures k < |s| ==> s[k] == ' '
  {
    if s == [] || s[0] == ' ' then 0 else 1 + SpaceIndex(s[1..])
  }

  /** Splits a command line at every space: each piece that a space ends, then any unterminated rest. */
  function Tokens(s: string): seq<string>
    decreases |s|
  {
    if s == [] then []
    else
      var k := SpaceIndex(s);
      if k == |s| then [s] else [s[..k]] + Tokens(s[k + 1..])
  }

  /**
   A space-terminated list of space-free items splits back into exactly those
   items: the argument string keeps their order and their number.
   */
  lemma {:induction false} TokensOfSpaceTerminated(items: seq<string>)
    requires forall i :: 0 <= i < |items| ==> ' ' !in items[i]
    ensures Tokens(SpaceTerminated(items)) == items
  {
    if items != [] {
      var x := items[0];
      var s := SpaceTerminated(items);
      var rest := SpaceTerminated(items[1..]);
      assert s == x + " " + rest;
      assert s[|x|] == ' ';
      var k := SpaceIndex(s);
      assert k == |x|;
      assert s[..k] == x;
      assert s[k + 1..] == rest;
      TokensOfSpaceTerminated(items[1..]);
      assert items == [x] + items[1..];
    }
  }
}
