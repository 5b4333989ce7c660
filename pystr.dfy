// The few Python str operations the reply cleaning relies on, with the
// semantics of CPython: startswith, the substring test `in`, split with an
// explicit separator, join, and strip (with a character set, or with no
// argument for whitespace).
module PyStr {

  /** str.isspace() for one character: the characters str.strip() removes by default. */
  predicate IsSpace(c: char) {
    c == ' ' || c == '\t' || c == '\n' || c == '\r' || c == '\U{0B}' || c == '\U{0C}'
    || ('\U{1C}' <= c <= '\U{1F}') || c == '\U{85}' || c == '\U{A0}' || c == '\U{1680}'
    || ('\U{2000}' <= c <= '\U{200A}') || c == '\U{2028}' || c == '\U{2029}'
    || c == '\U{202F}' || c == '\U{205F}' || c == '\U{3000}'
  }

  /** s.startswith(prefix), compared character by character. */
  predicate StartsWith(s: string, prefix: string) {
    prefix == [] || (s != [] && s[0] == prefix[0] && StartsWith(s[1..], prefix[1..]))
  }

  lemma {:induction false} StartsWithSlice(s: string, prefix: string)
    ensures StartsWith(s, prefix) <==> |prefix| <= |s| && s[..|prefix|] == prefix
  {
    if prefix != [] && s != [] {
      StartsWithSlice(s[1..], prefix[1..]);
      if |prefix| <= |s| && s[..|prefix|] == prefix {
        assert s[1..][..|prefix| - 1] == s[..|prefix|][1..];
      }
      if StartsWith(s, prefix) {
        assert s[..|prefix|] == [s[0]] + s[1..][..|prefix| - 1];
        assert prefix == [prefix[0]] + prefix[1..];
      }
    }
  }

  /** `sub in s`. */
  predicate Contains(s: string, sub: string)
    decreases |s|
  {
    StartsWith(s, sub) || (s != [] && Contains(s[1..], sub))
  }

  /** sub occurs in s starting at index i. */
  predicate OccursAt(s: string, sub: string, i: nat) {
    i + |sub| <= |s| && s[i..i + |sub|] == sub
  }

  /** The recursive test agrees with "sub occurs at some index of s". */
  lemma {:induction false} ContainsAt(s: string, sub: string)
    ensures Contains(s, sub) <==> exists i: nat :: OccursAt(s, sub, i)
  {
    StartsWithSlice(s, sub);
    if StartsWith(s, sub) {
      assert OccursAt(s, sub, 0);
    }
    if s != [] {
      ContainsAt(s[1..], sub);
      if Contains(s[1..], sub) {
        var i: nat :| OccursAt(s[1..], sub, i);
        assert s[i + 1..i + 1 + |sub|] == s[1..][i..i + |sub|];
        assert OccursAt(s, sub, i + 1);
      }
      if !StartsWith(s, sub) && exists i: nat :: OccursAt(s, sub, i) {
        var i: nat :| OccursAt(s, sub, i);
        assert i != 0;
        assert s[1..][i - 1..i - 1 + |sub|] == s[i..i + |sub|];
        assert OccursAt(s[1..], sub, i - 1);
      }
    } else if exists i: nat :: OccursAt(s, sub, i) {
      var i: nat :| OccursAt(s, sub, i);
      assert i == 0 && StartsWith(s, sub);
    }
  }

  /** s.split(sep): cut at every occurrence of sep, scanning left to right
      without overlap. */
  function Split(s: string, sep: string): (r: seq<string>)
    requires sep != []
    ensures |r| >= 1
    decreases |s|
  {
    if |s| < |sep| then [s]
    else if s[..|sep|] == sep then [""] + Split(s[|sep|..], sep)
    else
      var rest := Split(s[1..], sep);
      [[s[0]] + rest[0]] + rest[1..]
  }

  /** sep.join(pieces). */
  function Join(sep: string, pieces: seq<string>): string {
    if |pieces| == 0 then ""
    else if |pieces| == 1 then pieces[0]
    else pieces[0] + sep + Join(sep, pieces[1..])
  }

  lemma JoinPrependChar(sep: string, c: char, pieces: seq<string>)
    requires |pieces| >= 1
    ensures Join(sep, [[c] + pieces[0]] + pieces[1..]) == [c] + Join(sep, pieces)
  {
    var ps := [[c] + pieces[0]] + pieces[1..];
    assert ps[1..] == pieces[1..];
  }

  /** Joining the pieces of a split with the same separator gives the string back. */
  lemma {:induction false} JoinSplit(s: string, sep: string)
    requires sep != []
    ensures Join(sep, Split(s, sep)) == s
    decreases |s|
  {
    if |s| < |sep| {
    } else if s[..|sep|] == sep {
      var rest := Split(s[|sep|..], sep);
      JoinSplit(s[|sep|..], sep);
      assert ([""] + rest)[1..] == rest;
      assert s == sep + s[|sep|..];
    } else {
      var rest := Split(s[1..], sep);
      JoinSplit(s[1..], sep);
      JoinPrependChar(sep, s[0], rest);
      assert s == [s[0]] + s[1..];
    }
  }

  lemma {:induction false} ShortNeverContains(s: string, sub: string)
    requires |s| < |sub|
    ensures !Contains(s, sub)
    decreases |s|
  {
    StartsWithSlice(s, sub);
    if s != [] {
      ShortNeverContains(s[1..], sub);
    }
  }

  /** `sep in s` exactly when s.split(sep) yields more than one piece. */
  lemma {:induction false} SplitCutsIffContains(s: string, sep: string)
    requires sep != []
    ensures |Split(s, sep)| > 1 <==> Contains(s, sep)
    decreases |s|
  {
    StartsWithSlice(s, sep);
    if |s| < |sep| {
      ShortNeverContains(s, sep);
    } else if s[..|sep|] == sep {
    } else {
      SplitCutsIffContains(s[1..], sep);
    }
  }

  /** Splitting on one character leaves that character in no piece. */
  lemma {:induction false} SplitRemovesSeparator(s: string, c: char)
    ensures forall k :: 0 <= k < |Split(s, [c])| ==> c !in Split(s, [c])[k]
    decreases |s|
  {
    if |s| >= 1 {
      SplitRemovesSeparator(s[1..], c);
      if s[..1] == [c] {
        assert s[1..] == s[|[c]|..];
      }
    }
  }

  lemma {:induction false} JoinedPieceChars(sep: string, pieces: seq<string>, k: nat, x: char)
    requires k < |pieces| && x in pieces[k]
    ensures x in Join(sep, pieces)
  {
    if k > 0 {
      JoinedPieceChars(sep, pieces[1..], k - 1, x);
    }
  }

  /** Every character of a join comes from the separator or from a piece. */
  lemma {:induction false} JoinChars(sep: string, pieces: seq<string>, x: char)
    requires x in Join(sep, pieces)
    ensures x in sep || exists k :: 0 <= k < |pieces| && x in pieces[k]
  {
    if |pieces| > 1 && x !in pieces[0] && x !in sep {
      JoinChars(sep, pieces[1..], x);
      var k :| 0 <= k < |pieces[1..]| && x in pieces[1..][k];
      assert x in pieces[k + 1];
    }
  }

  /** Every character of every piece of a split comes from the split string. */
  lemma SplitChars(s: string, sep: string, k: nat, x: char)
    requires sep != [] && k < |Split(s, sep)| && x in Split(s, sep)[k]
    ensures x in s
  {
    JoinedPieceChars(sep, Split(s, sep), k, x);
    JoinSplit(s, sep);
  }

  /** Up to the first character of the separator, split keeps the text as its
      first piece and splits the rest on its own. */
  lemma {:induction false} SplitAtFirst(p: string, t: string, sep: string)
    requires sep != [] && sep[0] !in p
    ensures Split(p + sep + t, sep) == [p] + Split(t, sep)
    decreases |p|
  {
    var s := p + sep + t;
    if p == [] {
      assert s == sep + t;
      assert s[..|sep|] == sep && s[|sep|..] == t;
    } else {
      assert s[0] == p[0] != sep[0];
      assert s[..|sep|] != sep;
      assert s[1..] == p[1..] + sep + t;
      SplitAtFirst(p[1..], t, sep);
      assert [p[0]] + p[1..] == p;
    }
  }

  /** A string without the separator splits into itself alone. */
  lemma SplitWithout(s: string, sep: string)
    requires sep != [] && !Contains(s, sep)
    ensures Split(s, sep) == [s]
  {
    SplitCutsIffContains(s, sep);
    JoinSplit(s, sep);
  }

  /** s.lstrip(chars): drop leading characters while they satisfy drop. */
  function TrimStart(s: string, drop: char -> bool): (r: string)
    ensures |r| <= |s|
    ensures r != [] ==> !drop(r[0])
    decreases |s|
  {
    if s != [] && drop(s[0]) then TrimStart(s[1..], drop) else s
  }

  /** s.rstrip(chars): drop trailing characters while they satisfy drop. */
  function TrimEnd(s: string, drop: char -> bool): (r: string)
    ensures |r| <= |s|
    ensures r != [] ==> !drop(r[|r| - 1])
    decreases |s|
  {
    if s != [] && drop(s[|s| - 1]) then TrimEnd(s[..|s| - 1], drop) else s
  }

  /** lstrip keeps a suffix. */
  lemma {:induction false} TrimStartSuffix(s: string, drop: char -> bool)
    ensures TrimStart(s, drop) == s[|s| - |TrimStart(s, drop)|..]
    decreases |s|
  {
    if s != [] && drop(s[0]) {
      TrimStartSuffix(s[1..], drop);
    }
  }

  /** rstrip keeps a prefix. */
  lemma {:induction false} TrimEndPrefix(s: string, drop: char -> bool)
    ensures TrimEnd(s, drop) == s[..|TrimEnd(s, drop)|]
    decreases |s|
  {
    if s != [] && drop(s[|s| - 1]) {
      TrimEndPrefix(s[..|s| - 1], drop);
    }
  }

  /** s.strip(chars): lstrip then rstrip; neither end of the result can be
      dropped (TrimStartSuffix and TrimEndPrefix show what is kept). */
  function Strip(s: string, drop: char -> bool): (r: string)
    ensures |r| <= |s|
    ensures r != [] ==> !drop(r[0]) && !drop(r[|r| - 1])
  {
    TrimEndPrefix(TrimStart(s, drop), drop);
    TrimEnd(TrimStart(s, drop), drop)
  }

  /** lstrip removes only droppable characters. */
  lemma {:induction false} TrimStartRemovesOnlyDroppable(s: string, drop: char -> bool, k: nat)
    requires k < |s| - |TrimStart(s, drop)|
    ensures drop(s[k])
    decreases |s|
  {
    if k > 0 {
      TrimStartRemovesOnlyDroppable(s[1..], drop, k - 1);
    }
  }

  /** rstrip removes only droppable characters. */
  lemma {:induction false} TrimEndRemovesOnlyDroppable(s: string, drop: char -> bool, k: nat)
    requires |TrimEnd(s, drop)| <= k < |s|
    ensures drop(s[k])
    decreases |s|
  {
    if k < |s| - 1 {
      TrimEndRemovesOnlyDroppable(s[..|s| - 1], drop, k);
    }
  }

  /** Every character of a stripped string comes from the input. */
  lemma StripChars(s: string, drop: char -> bool, x: char)
    requires x in Strip(s, drop)
    ensures x in s
  {
    var t := TrimStart(s, drop);
    TrimEndPrefix(t, drop);
    TrimStartSuffix(s, drop);
  }
}
