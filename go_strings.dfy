/**
 * The parts of Go's `strings` package that the diagnostic parsers use, over
 * strings as sequences of characters. White space is the ASCII white space
 * (tab, newline, vertical tab, form feed, carriage return, space).
 */
module GoStrings {

  /** ASCII white space as `unicode.IsSpace` sees it. */
  predicate IsSpace(c: char) {
    c == ' ' || c == '\t' || c == '\n' || c == '\r' || c as int == 0x0B || c as int == 0x0C
  }

  predicate NoSpace(s: string) {
    forall i :: 0 <= i < |s| ==> !IsSpace(s[i])
  }

  /** strings.HasPrefix */
  predicate HasPrefix(s: string, prefix: string) {
    |prefix| <= |s| && s[..|prefix|] == prefix
  }

  /** strings.HasSuffix */
  predicate HasSuffix(s: string, suffix: string) {
    |suffix| <= |s| && s[|s| - |suffix|..] == suffix
  }

  /** `sub` occurs in `s` starting at position `i`. */
  predicate OccursAt(s: string, sub: string, i: nat) {
    i + |sub| <= |s| && s[i..i + |sub|] == sub
  }

  /** strings.Contains, as a left-to-right scan. */
  predicate Contains(s: string, sub: string)
    decreases |s|
  {
    HasPrefix(s, sub) || (s != [] && Contains(s[1..], sub))
  }

  /** The scan finds `sub` exactly when it occurs somewhere in `s`. */
  lemma {:induction false} ContainsOccurs(s: string, sub: string)
    ensures Contains(s, sub) <==> exists i: nat :: i <= |s| && OccursAt(s, sub, i)
    decreases |s|
  {
    if exists i: nat :: i <= |s| && OccursAt(s, sub, i) {
      var i: nat :| i <= |s| && OccursAt(s, sub, i);
      if i == 0 {
        assert HasPrefix(s, sub);
      } else {
        assert s[1..][i - 1..i - 1 + |sub|] == s[i..i + |sub|];
        assert OccursAt(s[1..], sub, i - 1);
        ContainsOccurs(s[1..], sub);
      }
    }
    if Contains(s, sub) {
      if HasPrefix(s, sub) {
        assert OccursAt(s, sub, 0);
      } else {
        ContainsOccurs(s[1..], sub);
        var j: nat :| j <= |s[1..]| && OccursAt(s[1..], sub, j);
        assert s[1..][j..j + |sub|] == s[j + 1..j + 1 + |sub|];
        assert OccursAt(s, sub, j + 1);
      }
    }
  }

  /** A string contains every string it is built around. */
  lemma ContainsInfix(a: string, sub: string, b: string)
    ensures Contains(a + sub + b, sub)
  {
    var s := a + sub + b;
    assert s[|a|..|a| + |sub|] == sub;
    assert OccursAt(s, sub, |a|);
    ContainsOccurs(s, sub);
  }

  /** What is left of `s` after one trailing `suffix`, as strings.TrimSuffix. */
  function TrimSuffix(s: string, suffix: string): (r: string)
    ensures HasSuffix(s, suffix) ==> r + suffix == s
    ensures !HasSuffix(s, suffix) ==> r == s
  {
    if HasSuffix(s, suffix) then s[..|s| - |suffix|] else s
  }

  // ---------------------------------------------------------------- Split

  /**
   * strings.Split with a one-character separator: the text between
   * separators, empty pieces included, so a string with n separators has
   * n + 1 pieces and the empty string has one (empty) piece.
   */
  function Split(s: string, sep: char): (pieces: seq<string>)
    ensures |pieces| >= 1
    decreases |s|
  {
    if s == [] then [[]]
    else
      var rest := Split(s[1..], sep);
      if s[0] == sep then [[]] + rest
      else [[s[0]] + rest[0]] + rest[1..]
  }

  /** strings.Join with a one-character separator. */
  function Join(pieces: seq<string>, sep: char): string
    decreases |pieces|
  {
    if pieces == [] then []
    else if |pieces| == 1 then pieces[0]
    else pieces[0] + [sep] + Join(pieces[1..], sep)
  }

  /** No piece contains the separator. */
  lemma {:induction false} SplitPiecesFree(s: string, sep: char)
    ensures forall k :: 0 <= k < |Split(s, sep)| ==> sep !in Split(s, sep)[k]
    decreases |s|
  {
    if s != [] {
      SplitPiecesFree(s[1..], sep);
    }
  }

  /** Joining the pieces back with the separator gives the original string. */
  lemma {:induction false} JoinSplit(s: string, sep: char)
    ensures Join(Split(s, sep), sep) == s
    decreases |s|
  {
    if s != [] {
      var rest := Split(s[1..], sep);
      JoinSplit(s[1..], sep);
      if s[0] == sep {
        assert Join([[]] + rest, sep) == [] + [sep] + Join(rest, sep);
      } else if |rest| == 1 {
        assert Split(s, sep) == [[s[0]] + rest[0]];
      } else {
        assert ([[s[0]] + rest[0]] + rest[1..])[1..] == rest[1..];
        assert Join(rest, sep) == rest[0] + [sep] + Join(rest[1..], sep);
      }
    }
  }

  /** A string without the separator is a single piece. */
  lemma {:induction false} SplitNoSep(s: string, sep: char)
    requires sep !in s
    ensures Split(s, sep) == [s]
    decreases |s|
  {
    if s != [] {
      SplitNoSep(s[1..], sep);
      assert [s[0]] + s[1..] == s;
    }
  }

  /** Splitting is a homomorphism: a separator between two texts separates their pieces. */
  lemma {:induction false} SplitAppend(a: string, sep: char, b: string)
    ensures Split(a + [sep] + b, sep) == Split(a, sep) + Split(b, sep)
    decreases |a|
  {
    var s := a + [sep] + b;
    if a == [] {
      assert s[1..] == b;
    } else {
      assert s[1..] == a[1..] + [sep] + b;
      SplitAppend(a[1..], sep, b);
    }
  }

  /** Two separator-free texts followed by separators are the first two pieces. */
  lemma SplitTwoPieces(a: string, b: string, sep: char, c: string)
    requires sep !in a && sep !in b
    ensures Split(a + [sep] + b + [sep] + c, sep) == [a, b] + Split(c, sep)
  {
    SplitAppend(a + [sep] + b, sep, c);
    SplitAppend(a, sep, b);
    SplitNoSep(a, sep);
    SplitNoSep(b, sep);
  }

  // ---------------------------------------------------------------- Fields

  /** The longest prefix of `s` without white space. */
  function Word(s: string): (w: string)
    ensures |w| <= |s| && w == s[..|w|] && NoSpace(w)
    ensures |w| < |s| ==> IsSpace(s[|w|])
    ensures s != [] && !IsSpace(s[0]) ==> |w| >= 1
    decreases |s|
  {
    if s == [] || IsSpace(s[0]) then [] else [s[0]] + Word(s[1..])
  }

  /** strings.Fields: the maximal runs of non-space characters, in order. */
  function Fields(s: string): (fields: seq<string>)
    ensures forall k :: 0 <= k < |fields| ==> fields[k] != [] && NoSpace(fields[k])
    decreases |s|
  {
    if s == [] then []
    else if IsSpace(s[0]) then Fields(s[1..])
    else
      var w := Word(s);
      [w] + Fields(s[|w|..])
  }

  lemma {:induction false} WordSpaceJoin(a: string, c: char, b: string)
    requires IsSpace(c)
    ensures Word(a + [c] + b) == Word(a)
    decreases |a|
  {
    if a != [] && !IsSpace(a[0]) {
      assert (a + [c] + b)[1..] == a[1..] + [c] + b;
      WordSpaceJoin(a[1..], c, b);
    }
  }

  /** A white-space character always separates the fields on its two sides. */
  lemma {:induction false} FieldsSpaceJoin(a: string, c: char, b: string)
    requires IsSpace(c)
    ensures Fields(a + [c] + b) == Fields(a) + Fields(b)
    decreases |a|
  {
    var s := a + [c] + b;
    if a == [] {
      assert s[1..] == b;
    } else if IsSpace(a[0]) {
      assert s[1..] == a[1..] + [c] + b;
      FieldsSpaceJoin(a[1..], c, b);
    } else {
      WordSpaceJoin(a, c, b);
      var w := Word(a);
      assert s[|w|..] == a[|w|..] + [c] + b;
      FieldsSpaceJoin(a[|w|..], c, b);
    }
  }

  /** A single token is its own only field. */
  lemma FieldsOfToken(w: string)
    requires w != [] && NoSpace(w)
    ensures Fields(w) == [w]
  {
    assert Word(w) == w;
    assert w[|w|..] == [];
  }

  /** Tokens joined by single spaces split back into the same tokens. */
  lemma {:induction false} FieldsJoin(tokens: seq<string>)
    requires forall k :: 0 <= k < |tokens| ==> tokens[k] != [] && NoSpace(tokens[k])
    ensures Fields(Join(tokens, ' ')) == tokens
    decreases |tokens|
  {
    if |tokens| == 1 {
      FieldsOfToken(tokens[0]);
    } else if |tokens| > 1 {
      FieldsOfToken(tokens[0]);
      FieldsJoin(tokens[1..]);
      FieldsSpaceJoin(tokens[0], ' ', Join(tokens[1..], ' '));
    }
  }

  lemma {:induction false} WordHasPrefix(s: string, p: string)
    requires HasPrefix(s, p) && NoSpace(p)
    ensures HasPrefix(Word(s), p)
    decreases |p|
  {
    if p != [] {
      assert s[1..][..|p| - 1] == p[1..];
      WordHasPrefix(s[1..], p[1..]);
    }
  }

  /** A string that starts with a non-empty token has a first field that starts with that token. */
  lemma FirstFieldHasPrefix(s: string, p: string)
    requires HasPrefix(s, p) && p != [] && NoSpace(p)
    ensures Fields(s) != [] && HasPrefix(Fields(s)[0], p)
  {
    assert s[0] == p[0];
    WordHasPrefix(s, p);
  }

  // ---------------------------------------------------------------- TrimSpace

  /** strings.TrimLeft with the white-space cutset: drop the leading white space. */
  function TrimLeft(s: string): string
    decreases |s|
  {
    if s != [] && IsSpace(s[0]) then TrimLeft(s[1..]) else s
  }

  /** strings.TrimRight with the white-space cutset: drop the trailing white space. */
  function TrimRight(s: string): string
    decreases |s|
  {
    if s != [] && IsSpace(s[|s| - 1]) then TrimRight(s[..|s| - 1]) else s
  }

  /** TrimLeft leaves a suffix that does not start with white space, and only white space goes. */
  lemma {:induction false} TrimLeftSuffix(s: string)
    ensures var r := TrimLeft(s);
      |r| <= |s| && r == s[|s| - |r|..]
      && (forall i :: 0 <= i < |s| - |r| ==> IsSpace(s[i]))
      && (r == [] || !IsSpace(r[0]))
    decreases |s|
  {
    if s != [] && IsSpace(s[0]) {
      TrimLeftSuffix(s[1..]);
      var r := TrimLeft(s[1..]);
      assert s[1..][|s| - 1 - |r|..] == s[|s| - |r|..];
      forall i | 0 < i < |s| - |r|
        ensures IsSpace(s[i])
      {
        assert s[i] == s[1..][i - 1];
      }
    }
  }

  /** TrimRight leaves a prefix that does not end with white space, and only white space goes. */
  lemma {:induction false} TrimRightPrefix(s: string)
    ensures var r := TrimRight(s);
      |r| <= |s| && r == s[..|r|]
      && (forall i :: |r| <= i < |s| ==> IsSpace(s[i]))
      && (r == [] || !IsSpace(r[|r| - 1]))
    decreases |s|
  {
    if s != [] && IsSpace(s[|s| - 1]) {
      TrimRightPrefix(s[..|s| - 1]);
      var r := TrimRight(s[..|s| - 1]);
      assert s[..|s| - 1][..|r|] == s[..|r|];
      forall i | |r| <= i < |s| - 1
        ensures IsSpace(s[i])
      {
        assert s[i] == s[..|s| - 1][i];
      }
    }
  }

  /**
   * strings.TrimSpace: the slice of `s` left after dropping its leading and
   * trailing white space; it neither starts nor ends with white space.
   */
  function TrimSpace(s: string): string {
    TrimRight(TrimLeft(s))
  }

  /** TrimSpace is the slice between the leading and trailing white space, with no space at its ends. */
  lemma TrimSpaceSlice(s: string)
    ensures |TrimLeft(s)| <= |s|
    ensures var r, i := TrimSpace(s), |s| - |TrimLeft(s)|;
      i + |r| <= |s| && r == s[i..i + |r|]
      && (forall j :: 0 <= j < i ==> IsSpace(s[j]))
      && (forall j :: i + |r| <= j < |s| ==> IsSpace(s[j]))
      && (r == [] || (!IsSpace(r[0]) && !IsSpace(r[|r| - 1])))
  {
    var l := TrimLeft(s);
    var r := TrimRight(l);
    TrimLeftSuffix(s);
    TrimRightPrefix(l);
    assert r == [] || r[0] == l[0];
  }

  /** TrimSpace removes exactly the white space around a word that has no space at its ends. */
  lemma TrimSpaceAround(pre: string, v: string, post: string)
    requires forall j :: 0 <= j < |pre| ==> IsSpace(pre[j])
    requires forall j :: 0 <= j < |post| ==> IsSpace(post[j])
    requires v == [] || (!IsSpace(v[0]) && !IsSpace(v[|v| - 1]))
    ensures TrimSpace(pre + v + post) == v
  {
    var s := pre + v + post;
    var r := TrimSpace(s);
    var i := |s| - |TrimLeft(s)|;
    TrimSpaceSlice(s);
    if v != [] {
      assert s[|pre|] == v[0];
      assert s[|pre| + |v| - 1] == v[|v| - 1];
      assert r != [];
      assert r[0] == s[i];
      assert i == |pre|;
      assert r[|r| - 1] == s[i + |r| - 1];
      assert i + |r| == |pre| + |v|;
      assert s[|pre|..|pre| + |v|] == v;
    }
  }

  // ---------------------------------------------------------------- ToLower

  /** ASCII lower-casing of one character. */
  function LowerChar(c: char): char {
    if 'A' <= c <= 'Z' then (c as int + 32) as char else c
  }

  /** strings.ToLower restricted to ASCII letters. */
  function ToLower(s: string): (r: string)
    ensures |r| == |s|
    ensures forall i :: 0 <= i < |s| ==> r[i] == LowerChar(s[i])
  {
    seq(|s|, i requires 0 <= i < |s| => LowerChar(s[i]))
  }
}
