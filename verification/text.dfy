/** Joining strings with a separator, the inverse splitting, and the
    small facts about concatenation the manifest proofs rely on. */
module Text {

  /** The parts in order with `sep` between neighbours: nothing before the
      first part and nothing after the last. */
  function Join(parts: seq<string>, sep: string): string {
    if |parts| == 0 then ""
    else if |parts| == 1 then parts[0]
    else parts[0] + sep + Join(parts[1..], sep)
  }

  /** Appending a part to a non-empty list appends one separator and the
      part: the step an appending loop takes. */
  lemma {:induction false} JoinAppend(parts: seq<string>, part: string, sep: string)
    requires |parts| >= 1
    ensures Join(parts + [part], sep) == Join(parts, sep) + sep + part
    decreases |parts|
  {
    var all := parts + [part];
    if |parts| == 1 {
      assert all[1..] == [part];
    } else {
      assert all[1..] == parts[1..] + [part];
      JoinAppend(parts[1..], part, sep);
    }
  }

  /** Joining two non-empty lists is joining each and putting one separator
      between them; every part keeps its place. */
  lemma {:induction false} JoinConcat(a: seq<string>, b: seq<string>, sep: string)
    requires |a| >= 1 && |b| >= 1
    ensures Join(a + b, sep) == Join(a, sep) + sep + Join(b, sep)
    decreases |a|
  {
    var ab := a + b;
    if |a| == 1 {
      assert ab[1..] == b;
    } else {
      assert ab[1..] == a[1..] + b;
      JoinConcat(a[1..], b, sep);
    }
  }

  predicate StartsWith(s: string, prefix: string) {
    |prefix| <= |s| && s[..|prefix|] == prefix
  }

  predicate EndsWith(s: string, suffix: string) {
    |suffix| <= |s| && s[|s| - |suffix|..] == suffix
  }

  /** A joined non-empty list begins with its first part and ends with its
      last: no separator leads or trails. */
  lemma {:induction false} JoinEnds(parts: seq<string>, sep: string)
    requires |parts| >= 1
    ensures StartsWith(Join(parts, sep), parts[0])
    ensures EndsWith(Join(parts, sep), parts[|parts| - 1])
    decreases |parts|
  {
    if |parts| > 1 {
      JoinEnds(parts[1..], sep);
      var rest := Join(parts[1..], sep);
      var s := parts[0] + sep + rest;
      assert s[..|parts[0]|] == parts[0];
      assert s[|s| - |rest|..] == rest;
    }
  }

  predicate OccursAt(s: string, sep: string, i: nat) {
    i + |sep| <= |s| && s[i..i + |sep|] == sep
  }

  /** The first position at or after `from` where `sep` occurs, or `|s|`
      when there is none. */
  function IndexOf(s: string, sep: string, from: nat): (k: nat)
    requires from <= |s|
    ensures from <= k <= |s|
    ensures k < |s| ==> OccursAt(s, sep, k)
    decreases |s| - from
  {
    if from == |s| then |s|
    else if OccursAt(s, sep, from) then from
    else IndexOf(s, sep, from + 1)
  }

  /** Cuts `s` at every occurrence of `sep`, scanning left to right. */
  function Split(s: string, sep: string): (parts: seq<string>)
    requires |sep| >= 1
    ensures |parts| >= 1
    decreases |s|
  {
    var k := IndexOf(s, sep, 0);
    if k == |s| then [s] else [s[..k]] + Split(s[k + |sep|..], sep)
  }

  /** When the first character of `sep` does not occur in `s[from..m]`, the
      search does not stop before `m`. */
  lemma {:induction false} IndexOfSkips(s: string, sep: string, from: nat, m: nat)
    requires |sep| >= 1
    requires from <= m <= |s|
    requires forall j :: from <= j < m ==> s[j] != sep[0]
    ensures IndexOf(s, sep, from) == IndexOf(s, sep, m)
    decreases m - from
  {
    if from < m {
      assert s[from] != sep[0];
      assert !OccursAt(s, sep, from);
      IndexOfSkips(s, sep, from + 1, m);
    }
  }

  /** Splitting a joined list gives the list back, provided no part contains
      the separator's first character. */
  lemma {:induction false} SplitJoin(parts: seq<string>, sep: string)
    requires |sep| >= 1
    requires |parts| >= 1
    requires forall i :: 0 <= i < |parts| ==> sep[0] !in parts[i]
    ensures Split(Join(parts, sep), sep) == parts
    decreases |parts|
  {
    var s := Join(parts, sep);
    var x := parts[0];
    if |parts| == 1 {
      assert s == x;
      IndexOfSkips(s, sep, 0, |s|);
    } else {
      var rest := Join(parts[1..], sep);
      assert s == x + sep + rest;
      assert forall j :: 0 <= j < |x| ==> s[j] == x[j];
      IndexOfSkips(s, sep, 0, |x|);
      assert s[|x|..|x| + |sep|] == sep;
      assert IndexOf(s, sep, 0) == |x|;
      assert s[..|x|] == x;
      assert s[|x| + |sep|..] == rest;
      SplitJoin(parts[1..], sep);
      assert [x] + parts[1..] == parts;
    }
  }

  /** A separator character absent from both left-hand pieces fixes where
      they end: equal strings split at it into equal pieces. */
  lemma CutAtFirst(x: string, y: string, x': string, y': string, c: char)
    requires c !in x && c !in x'
    requires x + [c] + y == x' + [c] + y'
    ensures x == x' && y == y'
  {
    var s := x + [c] + y;
    IndexOfSkips(s, [c], 0, |x|);
    assert s[|x|..|x| + 1] == [c];
    IndexOfSkips(s, [c], 0, |x'|);
    assert s[|x'|..|x'| + 1] == [c];
    assert |x| == IndexOf(s, [c], 0) == |x'|;
    assert x == s[..|x|] == x';
    assert y == s[|x| + 1..] == y';
  }

  /** A concatenation starts with its left part and continues with its
      right part. */
  lemma AfterPrefix(pre: string, rest: string)
    ensures StartsWith(pre + rest, pre)
    ensures (pre + rest)[|pre|..] == rest
  {
  }

  /** Appending three strings one after another appends their
      concatenation. */
  lemma AppendThree(s: string, a: string, b: string, c: string)
    ensures s + a + b + c == s + (a + b + c)
  {
  }

  /** Appending five strings one after another appends their
      concatenation. */
  lemma AppendFive(s: string, a: string, b: string, c: string, d: string, e: string)
    ensures s + a + b + c + d + e == s + (a + b + c + d + e)
  {
  }

  /** A left-nested concatenation of four strings, nested to the right. */
  lemma NestRight(a: string, b: string, c: string, d: string)
    ensures a + b + c + d == a + (b + (c + d))
  {
  }

  /** Two lines joined by a newline split back into those two lines. */
  lemma SplitTwoLines(first: string, second: string)
    requires '\n' !in first && '\n' !in second
    ensures Split(first + "\n" + second, "\n") == [first, second]
  {
    assert first + "\n" + second == Join([first, second], "\n");
    SplitJoin([first, second], "\n");
  }

  /** Two strings built as `p + a + sep + b + d + e` around a one-character
      separator absent from `a` agree on `a` and on `b` when they are equal. */
  lemma CutFields(p: string, a: string, sep: string, b: string, a': string, b': string, d: string, e: string)
    requires |sep| == 1 && sep[0] !in a && sep[0] !in a'
    requires p + a + sep + b + d + e == p + a' + sep + b' + d + e
    ensures a == a' && b == b'
  {
    var q := d + e;
    assert sep == [sep[0]];
    assert p + a + sep + b + d + e == p + (a + [sep[0]] + (b + q));
    assert p + a' + sep + b' + d + e == p + (a' + [sep[0]] + (b' + q));
    CancelPrefix(p, a + [sep[0]] + (b + q), a' + [sep[0]] + (b' + q));
    CutAtFirst(a, b + q, a', b' + q, sep[0]);
    CancelSuffix(b, b', q);
  }

  /** A common prefix can be cancelled. */
  lemma CancelPrefix(p: string, a: string, b: string)
    requires p + a == p + b
    ensures a == b
  {
    assert a == (p + a)[|p|..];
  }

  /** A common suffix can be cancelled. */
  lemma CancelSuffix(a: string, b: string, q: string)
    requires a + q == b + q
    ensures a == b
  {
    assert a == (a + q)[..|a|];
  }
}
