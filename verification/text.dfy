/** String operations the completion client relies on: joining the
    command-line words into one query, splitting it back, and the
    left-to-right, non-overlapping substitution that Rust's `str::replace`
    performs on the request template.
 */
module Text {

  /** `pat` occurs in `s` starting at index `i`. */
  predicate OccursAt(s: string, pat: string, i: int) {
    0 <= i && i + |pat| <= |s| && s[i..i + |pat|] == pat
  }

  /** An occurrence in a suffix of `s` is an occurrence in `s`, shifted. */
  lemma OccursInSuffix(s: string, pat: string, k: nat, i: int)
    requires k <= |s|
    ensures OccursAt(s[k..], pat, i) <==> i >= 0 && OccursAt(s, pat, i + k)
  {
    if 0 <= i && i + |pat| <= |s| - k {
      assert s[k..][i..i + |pat|] == s[i + k..i + k + |pat|];
    }
  }

  /** Replaces every occurrence of `pat` in `s` by `rep`, scanning from the
      left; after a match the scan resumes behind it in `s`, so the inserted
      `rep` is never searched again. A text that does not contain the
      pattern is left unchanged. */
  function Replace(s: string, pat: string, rep: string): (r: string)
    requires |pat| > 0
    ensures (forall i :: !OccursAt(s, pat, i)) ==> r == s
    decreases |s|
  {
    if |s| < |pat| then s
    else if s[..|pat|] == pat then
      assert OccursAt(s, pat, 0);
      rep + Replace(s[|pat|..], pat, rep)
    else
      NoMatchInTail(s, pat);
      [s[0]] + Replace(s[1..], pat, rep)
  }

  /** A text without the pattern has a tail without it, and is its first
      character followed by that tail. */
  lemma NoMatchInTail(s: string, pat: string)
    requires |s| > 0
    ensures (forall i :: !OccursAt(s, pat, i)) ==> (forall i :: !OccursAt(s[1..], pat, i))
    ensures [s[0]] + s[1..] == s
  {
    forall i | OccursAt(s[1..], pat, i) ensures OccursAt(s, pat, i + 1) {
      OccursInSuffix(s, pat, 1, i);
    }
  }

  /** The first occurrence of the pattern is replaced, the text before it is
      copied unchanged and the scan continues after it. */
  lemma {:induction false} ReplaceFirst(s: string, pat: string, rep: string, pre: string, post: string)
    requires |pat| > 0
    requires s == pre + pat + post
    requires forall i :: 0 <= i < |pre| ==> !OccursAt(s, pat, i)
    ensures Replace(s, pat, rep) == pre + rep + Replace(post, pat, rep)
    decreases |pre|
  {
    if |pre| == 0 {
      assert s[..|pat|] == pat;
      assert s[|pat|..] == post;
    } else {
      assert !OccursAt(s, pat, 0);
      assert s[1..] == pre[1..] + pat + post;
      forall i | 0 <= i < |pre| - 1 ensures !OccursAt(s[1..], pat, i) {
        OccursInSuffix(s, pat, 1, i);
      }
      ReplaceFirst(s[1..], pat, rep, pre[1..], post);
      assert [pre[0]] + pre[1..] == pre;
    }
  }

  /** A text holding the pattern exactly once becomes the text around it with
      `rep` in its place, whatever `rep` contains. */
  lemma ReplaceOnly(s: string, pat: string, rep: string, pre: string, post: string)
    requires |pat| > 0
    requires s == pre + pat + post
    requires forall i :: OccursAt(s, pat, i) ==> i == |pre|
    ensures Replace(s, pat, rep) == pre + rep + post
  {
    ReplaceFirst(s, pat, rep, pre, post);
    var k := |pre| + |pat|;
    assert s[k..] == post;
    forall i ensures !OccursAt(post, pat, i) {
      OccursInSuffix(s, pat, k, i);
    }
  }

  /** The parts written one after another with `sep` between neighbours, as
      Rust's `[String]::join` does; no parts give the empty string. */
  function Join(parts: seq<string>, sep: string): (r: string)
    // the joined text begins with the first part
    ensures |parts| >= 1 ==> |r| >= |parts[0]| && r[..|parts[0]|] == parts[0]
    decreases |parts|
  {
    if |parts| == 0 then ""
    else if |parts| == 1 then parts[0]
    else parts[0] + sep + Join(parts[1..], sep)
  }

  /** Appending a part appends the separator and that part, for every
      non-empty list of parts, whatever they contain. */
  lemma {:induction false} JoinAppend(parts: seq<string>, p: string, sep: string)
    requires |parts| >= 1
    ensures Join(parts + [p], sep) == Join(parts, sep) + sep + p
    decreases |parts|
  {
    var q := parts + [p];
    if |parts| > 1 {
      assert q[1..] == parts[1..] + [p];
      JoinAppend(parts[1..], p, sep);
    }
  }

  /** Cuts `s` at every `sep`; the pieces never contain `sep` and there is
      one more piece than there are separators. */
  function Split(s: string, sep: char): (r: seq<string>)
    ensures |r| >= 1
    ensures forall k :: 0 <= k < |r| ==> sep !in r[k]
    decreases |s|
  {
    if |s| == 0 then [""]
    else if s[0] == sep then [""] + Split(s[1..], sep)
    else
      var rest := Split(s[1..], sep);
      [[s[0]] + rest[0]] + rest[1..]
  }

  /** A text free of the separator is a single piece. */
  lemma {:induction false} SplitPiece(p: string, sep: char)
    requires sep !in p
    ensures Split(p, sep) == [p]
    decreases |p|
  {
    if |p| > 0 {
      SplitPiece(p[1..], sep);
      assert [p[0]] + p[1..] == p;
    }
  }

  /** Splitting stops at the first separator. */
  lemma {:induction false} SplitAfterPiece(p: string, sep: char, rest: string)
    requires sep !in p
    ensures Split(p + [sep] + rest, sep) == [p] + Split(rest, sep)
    decreases |p|
  {
    var s := p + [sep] + rest;
    if |p| == 0 {
      assert s[1..] == rest;
    } else {
      assert s[1..] == p[1..] + [sep] + rest;
      SplitAfterPiece(p[1..], sep, rest);
      assert [p[0]] + p[1..] == p;
    }
  }

  /** Joining with a separator that no part contains can be undone by
      splitting: the parts come back exactly. */
  lemma {:induction false} SplitJoin(parts: seq<string>, sep: char)
    requires |parts| >= 1
    requires forall k :: 0 <= k < |parts| ==> sep !in parts[k]
    ensures Split(Join(parts, [sep]), sep) == parts
    decreases |parts|
  {
    if |parts| == 1 {
      SplitPiece(parts[0], sep);
    } else {
      SplitAfterPiece(parts[0], sep, Join(parts[1..], [sep]));
      SplitJoin(parts[1..], sep);
      assert [parts[0]] + parts[1..] == parts;
    }
  }

  /** Prefixing the first part prefixes the joined text. */
  lemma JoinPrefixHead(x: string, parts: seq<string>, sep: string)
    requires |parts| >= 1
    ensures Join([x + parts[0]] + parts[1..], sep) == x + Join(parts, sep)
  {
    var q := [x + parts[0]] + parts[1..];
    if |parts| > 1 {
      assert q[1..] == parts[1..];
    }
  }

  /** Splitting and joining back with the same separator restores any text. */
  lemma {:induction false} JoinSplit(s: string, sep: char)
    ensures Join(Split(s, sep), [sep]) == s
    decreases |s|
  {
    if |s| > 0 {
      var rest := Split(s[1..], sep);
      JoinSplit(s[1..], sep);
      if s[0] == sep {
        var q := [""] + rest;
        assert q[1..] == rest;
      } else {
        JoinPrefixHead([s[0]], rest, [sep]);
      }
      assert [s[0]] + s[1..] == s;
    }
  }
}
