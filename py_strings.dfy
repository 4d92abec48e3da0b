/**
 * The Python 2 string operations the proxy metrics use: str.split with a
 * one-character separator (with and without a split limit of 1), str.join,
 * str.strip with an explicit character set or with whitespace, startswith and
 * slicing from an index.
 */
module PyStrings {
  /** Python 2's string.whitespace: space, tab, newline, carriage return, vertical tab, form feed. */
  const Whitespace: set<char> := {' ', '\t', '\n', '\r', '\U{0B}', '\U{0C}'}

  /** The first position of `c` in `s`, or |s| when `c` does not occur. */
  function Find(s: string, c: char): (i: nat)
    ensures i <= |s|
  {
    if s == [] || s[0] == c then 0 else 1 + Find(s[1..], c)
  }

  /** Find stops at the first occurrence: nothing before it is `c`, and it is `c` unless it is the end. */
  lemma {:induction false} FindFirst(s: string, c: char)
    ensures forall j :: 0 <= j < Find(s, c) ==> s[j] != c
    ensures Find(s, c) < |s| ==> s[Find(s, c)] == c
    ensures Find(s, c) == |s| <==> c !in s
  {
    if s != [] && s[0] != c {
      FindFirst(s[1..], c);
      assert forall k :: 1 <= k < |s| ==> s[k] == s[1..][k - 1];
      assert s == [s[0]] + s[1..];
    }
  }

  /** s.split(sep): the pieces between separators; always at least one piece. */
  function Split(s: string, sep: char): (parts: seq<string>)
    ensures |parts| >= 1
    decreases |s|
  {
    var i := Find(s, sep);
    if i == |s| then [s]
    else [s[..i]] + Split(s[i + 1..], sep)
  }

  /** No piece of s.split(sep) holds the separator. */
  lemma {:induction false} SplitPiecesFree(s: string, sep: char)
    ensures forall k :: 0 <= k < |Split(s, sep)| ==> sep !in Split(s, sep)[k]
    decreases |s|
  {
    var i := Find(s, sep);
    FindFirst(s, sep);
    if i < |s| {
      SplitPiecesFree(s[i + 1..], sep);
      var rest := Split(s[i + 1..], sep);
      assert Split(s, sep) == [s[..i]] + rest;
      assert sep !in s[..i];
    }
  }

  /** sep.join(parts). */
  function Join(sep: char, parts: seq<string>): string
  {
    if parts == [] then ""
    else if |parts| == 1 then parts[0]
    else parts[0] + [sep] + Join(sep, parts[1..])
  }

  /** Splitting and joining again gives back the original string. */
  lemma {:induction false} JoinSplit(s: string, sep: char)
    ensures Join(sep, Split(s, sep)) == s
    decreases |s|
  {
    var i := Find(s, sep);
    FindFirst(s, sep);
    if i < |s| {
      JoinSplit(s[i + 1..], sep);
      var rest := Split(s[i + 1..], sep);
      assert ([s[..i]] + rest)[1..] == rest;
      assert s == s[..i] + [sep] + s[i + 1..];
    }
  }

  /** Joining pieces that hold no separator and splitting again gives back the pieces. */
  lemma {:induction false} SplitJoin(parts: seq<string>, sep: char)
    requires |parts| >= 1
    requires forall k :: 0 <= k < |parts| ==> sep !in parts[k]
    ensures Split(Join(sep, parts), sep) == parts
  {
    if |parts| > 1 {
      var s := Join(sep, parts);
      var tail := Join(sep, parts[1..]);
      assert s == parts[0] + ([sep] + tail);
      FindAfterPiece(parts[0], sep, tail);
      assert s[|parts[0]| + 1..] == tail;
      assert s[..|parts[0]|] == parts[0];
      assert Split(s, sep) == [parts[0]] + Split(tail, sep);
      SplitJoin(parts[1..], sep);
      assert parts == [parts[0]] + parts[1..];
    } else {
      FindFirst(parts[0], sep);
    }
  }

  lemma FindAfterPiece(piece: string, sep: char, tail: string)
    requires sep !in piece
    ensures Find(piece + ([sep] + tail), sep) == |piece|
  {
    var s := piece + ([sep] + tail);
    FindFirst(s, sep);
    assert s[|piece|] == sep;
    assert forall j :: 0 <= j < |piece| ==> s[j] == piece[j];
  }

  /** s.split(sep) has one piece more than `s` has separators. */
  lemma {:induction false} SplitCount(s: string, sep: char)
    ensures |Split(s, sep)| == multiset(s)[sep] + 1
    decreases |s|
  {
    var i := Find(s, sep);
    FindFirst(s, sep);
    if i == |s| {
      assert sep !in multiset(s);
    } else {
      SplitCount(s[i + 1..], sep);
      assert s == s[..i] + [sep] + s[i + 1..];
      assert sep !in multiset(s[..i]);
      assert multiset(s) == multiset(s[..i]) + multiset{sep} + multiset(s[i + 1..]);
    }
  }

  /**
   * s.split(sep, 1): the text before the first separator and the text after it,
   * or just `s` when there is no separator.
   */
  function SplitOnce(s: string, sep: char): (parts: seq<string>)
    ensures |parts| == 1 || |parts| == 2
  {
    var i := Find(s, sep);
    if i == |s| then [s] else [s[..i], s[i + 1..]]
  }

  /** s.split(sep, 1) cuts at the first separator and loses nothing else. */
  lemma SplitOnceCuts(s: string, sep: char)
    ensures |SplitOnce(s, sep)| == 1 <==> sep !in s
    ensures |SplitOnce(s, sep)| == 1 ==> SplitOnce(s, sep)[0] == s
    ensures |SplitOnce(s, sep)| == 2 ==>
              var parts := SplitOnce(s, sep);
              parts[0] + [sep] + parts[1] == s && sep !in parts[0]
  {
    var i := Find(s, sep);
    FindFirst(s, sep);
    if i < |s| {
      assert s == s[..i] + [sep] + s[i + 1..];
      assert sep !in s[..i];
    }
  }

  /** s.lstrip(chars): `s` without its leading characters from `chars`. */
  function LStrip(s: string, chars: set<char>): (r: string)
    ensures |r| <= |s|
  {
    if s != [] && s[0] in chars then LStrip(s[1..], chars) else s
  }

  /** s.lstrip(chars) is a suffix of `s` that does not start with a character from `chars`. */
  lemma {:induction false} LStripSuffix(s: string, chars: set<char>)
    ensures LStrip(s, chars) == s[|s| - |LStrip(s, chars)|..]
    ensures forall j :: 0 <= j < |s| - |LStrip(s, chars)| ==> s[j] in chars
    ensures LStrip(s, chars) == [] || LStrip(s, chars)[0] !in chars
  {
    if s != [] && s[0] in chars {
      LStripSuffix(s[1..], chars);
      assert forall j :: 1 <= j < |s| ==> s[j] == s[1..][j - 1];
      assert s[1..][|s| - 1 - |LStrip(s, chars)|..] == s[|s| - |LStrip(s, chars)|..];
    }
  }

  /** s.rstrip(chars): `s` without its trailing characters from `chars`. */
  function RStrip(s: string, chars: set<char>): (r: string)
    ensures |r| <= |s|
  {
    if s != [] && s[|s| - 1] in chars then RStrip(s[..|s| - 1], chars) else s
  }

  /** s.rstrip(chars) is a prefix of `s` that does not end with a character from `chars`. */
  lemma {:induction false} RStripPrefix(s: string, chars: set<char>)
    ensures RStrip(s, chars) == s[..|RStrip(s, chars)|]
    ensures forall j :: |RStrip(s, chars)| <= j < |s| ==> s[j] in chars
    ensures RStrip(s, chars) == [] || RStrip(s, chars)[|RStrip(s, chars)| - 1] !in chars
  {
    if s != [] && s[|s| - 1] in chars {
      var s' := s[..|s| - 1];
      RStripPrefix(s', chars);
      assert forall j :: 0 <= j < |s'| ==> s[j] == s'[j];
      assert s'[..|RStrip(s, chars)|] == s[..|RStrip(s, chars)|];
    }
  }

  /** s.strip(chars): `s` without its leading and trailing runs of characters from `chars`. */
  function Strip(s: string, chars: set<char>): (r: string)
    ensures |r| <= |s|
  {
    RStrip(LStrip(s, chars), chars)
  }

  /** What s.strip(chars) keeps is a slice of `s`, and all it removes is from `chars`. */
  lemma StripIsSlice(s: string, chars: set<char>)
    ensures exists a, b ::
              && 0 <= a <= b <= |s| && Strip(s, chars) == s[a..b]
              && (forall j :: 0 <= j < a ==> s[j] in chars)
              && (forall j :: b <= j < |s| ==> s[j] in chars)
  {
    var l := LStrip(s, chars);
    var r := RStrip(l, chars);
    LStripSuffix(s, chars);
    RStripPrefix(l, chars);
    var a := |s| - |l|;
    var b := a + |r|;
    assert r == s[a..b] by {
      assert l == s[a..];
      assert r == l[..|r|];
    }
    assert forall j :: b <= j < |s| ==> s[j] in chars by {
      forall j | b <= j < |s|
        ensures s[j] in chars
      {
        assert s[j] == l[j - a];
      }
    }
  }

  /** What s.strip(chars) keeps neither starts nor ends with a character from `chars`. */
  lemma StripHasEnds(s: string, chars: set<char>)
    ensures StripEnds(Strip(s, chars), chars)
  {
    var l := LStrip(s, chars);
    var r := RStrip(l, chars);
    LStripSuffix(s, chars);
    RStripPrefix(l, chars);
    if r != [] {
      assert r[0] == l[0];
    }
  }

  /** `s` neither starts nor ends with a character from `chars`. */
  predicate StripEnds(s: string, chars: set<char>)
  {
    s == [] || (s[0] !in chars && s[|s| - 1] !in chars)
  }

  /** Stripping a second time removes nothing more. */
  lemma StripIdempotent(s: string, chars: set<char>)
    ensures Strip(Strip(s, chars), chars) == Strip(s, chars)
  {
    StripHasEnds(s, chars);
    StripUnchanged(Strip(s, chars), chars);
  }

  /** A string that neither starts nor ends with a stripped character is left as it is. */
  lemma StripUnchanged(s: string, chars: set<char>)
    requires StripEnds(s, chars)
    ensures Strip(s, chars) == s
  {
    assert LStrip(s, chars) == s;
  }

  /** Leading characters from `chars` are all that s.lstrip(chars) removes. */
  lemma {:induction false} LStripPadding(pre: string, s: string, chars: set<char>)
    requires forall j :: 0 <= j < |pre| ==> pre[j] in chars
    requires s == [] || s[0] !in chars
    ensures LStrip(pre + s, chars) == s
  {
    if pre != [] {
      assert (pre + s)[1..] == pre[1..] + s;
      LStripPadding(pre[1..], s, chars);
    }
  }

  /** Trailing characters from `chars` are all that s.rstrip(chars) removes. */
  lemma {:induction false} RStripPadding(s: string, post: string, chars: set<char>)
    requires forall j :: 0 <= j < |post| ==> post[j] in chars
    requires s == [] || s[|s| - 1] !in chars
    ensures RStrip(s + post, chars) == s
  {
    if post != [] {
      var post' := post[..|post| - 1];
      assert (s + post)[..|s + post| - 1] == s + post';
      RStripPadding(s, post', chars);
    }
  }

  /** Stripping a padded string gives back what was padded. */
  lemma StripPadding(pre: string, s: string, post: string, chars: set<char>)
    requires forall j :: 0 <= j < |pre| ==> pre[j] in chars
    requires forall j :: 0 <= j < |post| ==> post[j] in chars
    requires s != [] && StripEnds(s, chars)
    ensures Strip(pre + s + post, chars) == s
  {
    assert pre + s + post == pre + (s + post);
    LStripPadding(pre, s + post, chars);
    RStripPadding(s, post, chars);
  }

  /** s.startswith(prefix). */
  predicate StartsWith(s: string, prefix: string)
  {
    |prefix| <= |s| && s[..|prefix|] == prefix
  }

  /** s[n:], which is empty when `s` is shorter than `n`. */
  function From(s: string, n: nat): (r: string)
    ensures |s| <= n ==> r == ""
    ensures |s| > n ==> |r| == |s| - n
  {
    if |s| <= n then "" else s[n..]
  }
}
