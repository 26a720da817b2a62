/**
 * The few JavaScript string operations the bot relies on: `trim`, `join`,
 * `startsWith` and `split(c)[0]`, stated over `seq<char>`.
 */
module Text {

  /**
   * The characters `String.prototype.trim` removes: the WhiteSpace and
   * LineTerminator code points of ECMAScript (sections 12.2 and 12.3 of
   * ECMA-262), that is tab, vertical tab, form feed, the byte order mark,
   * the space separators of Unicode category Zs, line feed, carriage
   * return and the line and paragraph separators.
   */
  predicate IsSpace(c: char) {
    if c < '\U{00A0}' then c == ' ' || '\t' <= c <= '\r'
    else IsWideSpace(c)
  }

  /** The white space above the Latin-1 control range. */
  predicate IsWideSpace(c: char) {
    c == '\U{00A0}' || c == '\U{1680}' || '\U{2000}' <= c <= '\U{200A}' || c == '\U{2028}' || c == '\U{2029}'
    || c == '\U{202F}' || c == '\U{205F}' || c == '\U{3000}' || c == '\U{FEFF}'
  }

  predicate AllSpace(s: string) {
    forall i :: 0 <= i < |s| ==> IsSpace(s[i])
  }

  /** The end of the run of white space that starts at index `i`. */
  function SpaceRunEnd(s: string, i: nat): (n: nat)
    requires i <= |s|
    ensures i <= n <= |s|
    ensures forall k :: i <= k < n ==> IsSpace(s[k])
    ensures n < |s| ==> !IsSpace(s[n])
    decreases |s| - i
  {
    if i < |s| && IsSpace(s[i]) then SpaceRunEnd(s, i + 1) else i
  }

  /** The start of the run of white space that ends just before index `j`. */
  function SpaceRunStart(s: string, j: nat): (n: nat)
    requires j <= |s|
    ensures n <= j
    ensures forall k :: n <= k < j ==> IsSpace(s[k])
    ensures n > 0 ==> !IsSpace(s[n - 1])
  {
    if j > 0 && IsSpace(s[j - 1]) then SpaceRunStart(s, j - 1) else j
  }

  /** Drops leading white space: the result is the longest suffix that does not start with a space. */
  function TrimStart(s: string): (r: string)
    ensures |r| <= |s|
    ensures AllSpace(s[..|s| - |r|])
    ensures r == [] || !IsSpace(r[0])
  {
    s[SpaceRunEnd(s, 0)..]
  }

  /** Drops trailing white space: the result is the longest prefix that does not end with a space. */
  function TrimEnd(s: string): (r: string)
    ensures |r| <= |s|
    ensures AllSpace(s[|r|..])
    ensures r == [] || !IsSpace(r[|r| - 1])
  {
    s[..SpaceRunStart(s, |s|)]
  }

  /** `TrimStart` keeps a suffix: the string is the dropped white space followed by the result. */
  lemma TrimStartSplits(s: string)
    ensures var r := TrimStart(s); s == s[..|s| - |r|] + r
  {
  }

  /** `TrimEnd` keeps a prefix: the string is the result followed by the dropped white space. */
  lemma TrimEndSplits(s: string)
    ensures var r := TrimEnd(s); s == r + s[|r|..]
  {
  }

  /** A concatenation is all white space iff both sides are. */
  lemma AllSpaceConcat(a: string, b: string)
    ensures AllSpace(a + b) <==> AllSpace(a) && AllSpace(b)
  {
    if AllSpace(a + b) {
      forall i | 0 <= i < |b|
        ensures IsSpace(b[i])
      {
        assert (a + b)[|a| + i] == b[i];
      }
      forall i | 0 <= i < |a|
        ensures IsSpace(a[i])
      {
        assert (a + b)[i] == a[i];
      }
    }
  }

  /** `s.trim()`: blank only when `s` is all white space, and otherwise starting and ending with other characters. */
  function Trim(s: string): (r: string)
    ensures |r| <= |s|
    ensures r == [] <==> AllSpace(s)
    ensures r == [] || (!IsSpace(r[0]) && !IsSpace(r[|r| - 1]))
  {
    TrimEnd(TrimStart(s))
  }

  /** What `trim` keeps is the text between the leading and the trailing runs of white space. */
  lemma TrimBounds(s: string)
    ensures var lo := SpaceRunEnd(s, 0);
      lo <= SpaceRunStart(s, |s|) || lo == |s|
    ensures var lo := SpaceRunEnd(s, 0);
      Trim(s) == if lo == |s| then [] else s[lo..SpaceRunStart(s, |s|)]
  {
    var lo := SpaceRunEnd(s, 0);
    if lo < |s| {
      TrimOfNonBlank(s, lo);
    } else {
      assert TrimStart(s) == [];
    }
  }

  lemma TrimOfNonBlank(s: string, lo: nat)
    requires lo == SpaceRunEnd(s, 0) < |s|
    ensures lo < SpaceRunStart(s, |s|) && Trim(s) == s[lo..SpaceRunStart(s, |s|)]
  {
    var hi := SpaceRunStart(s, |s|);
    var t := s[lo..];
    SpaceRunStartOfSuffix(s, lo);
    SliceOfSuffix(s, lo, hi);
    assert TrimStart(s) == t;
    assert TrimEnd(t) == t[..hi - lo];
  }

  lemma SliceOfSuffix(s: string, lo: nat, hi: nat)
    requires lo <= hi <= |s|
    ensures s[lo..][..hi - lo] == s[lo..hi]
  {
  }

  /** Dropping a prefix that ends before the trailing white space does not move where that white space starts. */
  lemma SpaceRunStartOfSuffix(s: string, lo: nat)
    requires lo < |s| && !IsSpace(s[lo])
    ensures lo < SpaceRunStart(s, |s|)
    ensures SpaceRunStart(s[lo..], |s| - lo) == SpaceRunStart(s, |s|) - lo
  {
    var hi := SpaceRunStart(s, |s|);
    var t := s[lo..];
    var m := SpaceRunStart(t, |t|);
    assert forall k :: 0 <= k < |t| ==> t[k] == s[lo + k];
  }

  /** `parts.join(sep)`: it begins with the first part and ends with the last. */
  function Join(parts: seq<string>, sep: string): (r: string)
    ensures |parts| == 0 ==> r == ""
    ensures |parts| >= 1 ==> |r| >= |parts[0]| && r[..|parts[0]|] == parts[0]
    ensures |parts| >= 1 ==> |r| >= |parts[|parts| - 1]| && r[|r| - |parts[|parts| - 1]|..] == parts[|parts| - 1]
  {
    if |parts| == 0 then ""
    else if |parts| == 1 then parts[0]
    else parts[0] + sep + Join(parts[1..], sep)
  }

  /** `tags.map(tag => "#" + tag).join(' ')`: blank only without tags, and otherwise starting with a '#'. */
  function Hashtags(tags: seq<string>): (r: string)
    ensures r == [] <==> |tags| == 0
    ensures |tags| >= 1 ==> r[0] == '#'
  {
    Join(seq(|tags|, i requires 0 <= i < |tags| => "#" + tags[i]), " ")
  }

  function StartsWith(s: string, prefix: string): bool {
    |prefix| <= |s| && s[..|prefix|] == prefix
  }

  /** The index of the first `c` at or after `i`, or |s| when there is none. */
  function IndexFrom(s: string, c: char, i: nat): (n: nat)
    requires i <= |s|
    ensures i <= n <= |s|
    ensures forall k :: i <= k < n ==> s[k] != c
    ensures n < |s| ==> s[n] == c
    decreases |s| - i
  {
    if i == |s| || s[i] == c then i else IndexFrom(s, c, i + 1)
  }

  /** `s.split(c)[0]`: the text before the first `c`, or all of `s` when there is none. */
  function BeforeFirst(s: string, c: char): (r: string)
    ensures |r| <= |s|
    ensures c !in r
    ensures |r| < |s| ==> s[|r|] == c
  {
    s[..IndexFrom(s, c, 0)]
  }

  /** Appending white space does not change what `trim` returns. */
  lemma TrimIgnoresTrailingSpace(s: string, w: string)
    requires AllSpace(w)
    ensures Trim(s + w) == Trim(s)
  {
    if AllSpace(s) {
      AllSpaceTrimStart(s + w);
      AllSpaceTrimStart(s);
    } else {
      TrimStartOfAppend(s, w);
      TrimEndOfAppend(TrimStart(s), w);
    }
  }

  lemma AllSpaceTrimStart(s: string)
    requires AllSpace(s)
    ensures TrimStart(s) == []
  {
  }

  lemma TrimStartOfAppend(s: string, w: string)
    requires !AllSpace(s)
    ensures TrimStart(s + w) == TrimStart(s) + w
  {
    var n, n' := SpaceRunEnd(s, 0), SpaceRunEnd(s + w, 0);
    assert n < |s|;
    assert forall k :: 0 <= k < |s| ==> (s + w)[k] == s[k];
    assert (s + w)[n..] == s[n..] + w;
  }

  lemma TrimEndOfAppend(s: string, w: string)
    requires AllSpace(w)
    ensures TrimEnd(s + w) == TrimEnd(s)
  {
    var m, m' := SpaceRunStart(s, |s|), SpaceRunStart(s + w, |s + w|);
    assert forall k :: 0 <= k < |s| ==> (s + w)[k] == s[k];
    assert forall k :: |s| <= k < |s + w| ==> (s + w)[k] == w[k - |s|];
    assert (s + w)[..m] == s[..m];
  }

  /** A string that neither starts nor ends with white space is its own trim. */
  lemma TrimOfClean(s: string)
    requires s != [] && !IsSpace(s[0]) && !IsSpace(s[|s| - 1])
    ensures Trim(s) == s
  {
  }

  /** `s.split(c)` for a one-character separator: the pieces between the separators, in order. */
  function Split(s: string, c: char): (r: seq<string>)
    ensures |r| >= 1
    ensures forall i :: 0 <= i < |r| ==> c !in r[i]
    decreases |s|
  {
    var head := BeforeFirst(s, c);
    if |head| == |s| then [s] else [head] + Split(s[|head| + 1..], c)
  }

  /** Splitting on the separator undoes a join of pieces that do not contain it. */
  lemma {:induction false} SplitJoin(parts: seq<string>, c: char)
    requires |parts| >= 1 && forall i :: 0 <= i < |parts| ==> c !in parts[i]
    ensures Split(Join(parts, [c]), c) == parts
  {
    var s := Join(parts, [c]);
    if |parts| == 1 {
      SplitWhole(parts[0], c);
    } else {
      var rest := Join(parts[1..], [c]);
      assert s == parts[0] + [c] + rest;
      SplitAtSeparator(parts[0], c, rest);
      SplitJoin(parts[1..], c);
      assert parts == [parts[0]] + parts[1..];
    }
  }

  lemma SplitWhole(s: string, c: char)
    requires c !in s
    ensures Split(s, c) == [s]
  {
    BeforeFirstWhole(s, c);
  }

  lemma BeforeFirstWhole(s: string, c: char)
    requires c !in s
    ensures BeforeFirst(s, c) == s
  {
  }

  lemma BeforeFirstOfSeparated(p: string, c: char, t: string)
    requires c !in p
    ensures BeforeFirst(p + [c] + t, c) == p
  {
    var s := p + [c] + t;
    assert forall k :: 0 <= k < |p| ==> s[k] == p[k];
    assert s[|p|] == c;
    assert s[..|p|] == p;
  }

  /** The hashtag string splits back, on spaces, into one "#tag" per tag when no tag holds a space. */
  lemma HashtagsSplit(tags: seq<string>)
    requires |tags| >= 1 && forall i :: 0 <= i < |tags| ==> ' ' !in tags[i]
    ensures Split(Hashtags(tags), ' ') == seq(|tags|, i requires 0 <= i < |tags| => "#" + tags[i])
  {
    var parts := seq(|tags|, i requires 0 <= i < |tags| => "#" + tags[i]);
    forall i | 0 <= i < |parts|
      ensures ' ' !in parts[i]
    {
      assert parts[i] == "#" + tags[i];
    }
    SplitJoin(parts, ' ');
  }
  /** Splitting at one separator splits the two sides independently. */
  lemma {:induction false} SplitAround(a: string, c: char, b: string)
    ensures Split(a + [c] + b, c) == Split(a, c) + Split(b, c)
    decreases |a|
  {
    var head := BeforeFirst(a, c);
    if |head| == |a| {
      assert head == a;
      SplitAtSeparator(a, c, b);
    } else {
      var a' := a[|head| + 1..];
      assert a == head + [c] + a';
      SplitAround(a', c, b);
      SplitAroundStep(head, c, a', b);
    }
  }

  /** One step of SplitAround: a first piece `head` is cut off on both sides. */
  lemma SplitAroundStep(head: string, c: char, a': string, b: string)
    requires c !in head
    requires Split(a' + [c] + b, c) == Split(a', c) + Split(b, c)
    ensures Split(head + [c] + a' + [c] + b, c) == Split(head + [c] + a', c) + Split(b, c)
  {
    var t := a' + [c] + b;
    calc {
      Split(head + [c] + a' + [c] + b, c);
      { assert head + [c] + a' + [c] + b == head + [c] + t; }
      Split(head + [c] + t, c);
      { SplitAtSeparator(head, c, t); }
      [head] + (Split(a', c) + Split(b, c));
      [head] + Split(a', c) + Split(b, c);
      { SplitAtSeparator(head, c, a'); }
      Split(head + [c] + a', c) + Split(b, c);
    }
  }

  /** A separator after a separator-free piece cuts off exactly that piece. */
  lemma SplitAtSeparator(p: string, c: char, t: string)
    requires c !in p
    ensures Split(p + [c] + t, c) == [p] + Split(t, c)
  {
    BeforeFirstOfSeparated(p, c, t);
    assert (p + [c] + t)[|p| + 1..] == t;
  }

  /** Trimming twice is trimming once. */
  lemma TrimIdempotent(s: string)
    ensures Trim(Trim(s)) == Trim(s)
  {
    var t := Trim(s);
    if t != [] {
      TrimOfClean(t);
    }
  }

  lemma SplitEmpty(c: char)
    ensures Split("", c) == [""]
  {
    assert BeforeFirst("", c) == "";
  }
}
