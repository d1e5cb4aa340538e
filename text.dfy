/**
 * The JavaScript string operations that the link-preview service relies on,
 * written over `string` (= `seq<char>`): `startsWith`, `includes`, `indexOf`,
 * `replace` with a string pattern, `split` on a one-character separator,
 * `Array.prototype.join`, and `pop()` of a split.
 */
module Text {

  datatype Option<+T> = None | Some(value: T)

  /** `s.startsWith(p)` */
  predicate StartsWith(s: string, p: string) {
    |p| <= |s| && s[..|p|] == p
  }

  /** The text `p` occurs in `s` starting at index `i`. */
  predicate OccursAt(s: string, p: string, i: int) {
    0 <= i && i + |p| <= |s| && s[i..i + |p|] == p
  }

  /** `s.indexOf(p, from)`: the leftmost occurrence of `p` at or after `from`. */
  function IndexFrom(s: string, p: string, from: nat): (r: Option<nat>)
    ensures r.Some? ==> from <= r.value && OccursAt(s, p, r.value)
    ensures r.Some? ==> forall j :: from <= j < r.value ==> !OccursAt(s, p, j)
    ensures r.None? ==> forall j :: from <= j ==> !OccursAt(s, p, j)
    decreases |s| - from
  {
    if from + |p| > |s| then None
    else if s[from..from + |p|] == p then Some(from)
    else IndexFrom(s, p, from + 1)
  }

  /** `s.indexOf(p)`, with `None` for JavaScript's `-1`. */
  function IndexOf(s: string, p: string): Option<nat> {
    IndexFrom(s, p, 0)
  }

  /** `s.includes(p)` */
  predicate Contains(s: string, p: string) {
    IndexOf(s, p).Some?
  }

  /**
   * `s.replace(p, rep)` with a string pattern and a replacement without `$`
   * (JavaScript would expand `$&`, `$$` and the like in `rep`): only the
   * leftmost occurrence is replaced.
   */
  function ReplaceFirst(s: string, p: string, rep: string): string {
    match IndexOf(s, p)
    case None => s
    case Some(i) => s[..i] + rep + s[i + |p|..]
  }

  /** `s.split(c)` for a one-character separator `c`. */
  function Split(s: string, c: char): (r: seq<string>)
    ensures |r| >= 1
    ensures forall i :: 0 <= i < |r| ==> c !in r[i]
  {
    if s == [] then [""]
    else if s[0] == c then [""] + Split(s[1..], c)
    else
      var rest := Split(s[1..], c);
      [[s[0]] + rest[0]] + rest[1..]
  }

  /** `parts.join(sep)` */
  function Join(parts: seq<string>, sep: string): string {
    if |parts| == 0 then ""
    else if |parts| == 1 then parts[0]
    else parts[0] + sep + Join(parts[1..], sep)
  }

  /** `s.split(c)[0]`: the text before the first `c`. */
  function FirstField(s: string, c: char): string {
    Split(s, c)[0]
  }

  /** `s.split(c).pop()`: the text after the last `c`. */
  function LastField(s: string, c: char): string {
    var parts := Split(s, c);
    parts[|parts| - 1]
  }

  /** `s` is non-empty and made of ASCII decimal digits only. */
  predicate IsDigits(s: string) {
    |s| > 0 && forall i :: 0 <= i < |s| ==> '0' <= s[i] <= '9'
  }

  /** `toUpperCase` restricted to a single ASCII letter; every other character is kept. */
  function ToUpper(ch: char): (r: char)
    ensures !('a' <= r <= 'z')
    ensures !('a' <= ch <= 'z') ==> r == ch
  {
    if 'a' <= ch <= 'z' then (ch as int - 32) as char else ch
  }

  // ---------------------------------------------------------------------------
  // replace

  /** Only the leftmost occurrence is rewritten: whatever precedes it is kept and so is all that follows. */
  lemma ReplaceFirstAt(s: string, p: string, rep: string, a: string, b: string)
    requires s == a + p + b
    requires forall j :: 0 <= j < |a| ==> !OccursAt(s, p, j)
    ensures ReplaceFirst(s, p, rep) == a + rep + b
  {
    assert OccursAt(s, p, |a|) by {
      assert s[|a|..|a| + |p|] == p;
    }
    assert IndexOf(s, p) == Some(|a|);
    assert s[..|a|] == a;
    assert s[|a| + |p|..] == b;
  }

  /** Without an occurrence, replacing changes nothing. */
  lemma ReplaceFirstAbsent(s: string, p: string, rep: string)
    requires !Contains(s, p)
    ensures ReplaceFirst(s, p, rep) == s
  {
  }

  /** An occurrence anywhere makes `includes` true. */
  lemma OccursContains(s: string, p: string, i: int)
    requires OccursAt(s, p, i)
    ensures Contains(s, p)
  {
  }

  /** Text added in front keeps every occurrence. */
  lemma ContainsPrepend(u: string, s: string, p: string)
    requires Contains(s, p)
    ensures Contains(u + s, p)
  {
    var k := IndexOf(s, p).value;
    assert (u + s)[|u| + k..|u| + k + |p|] == s[k..k + |p|];
    OccursContains(u + s, p, |u| + k);
  }

  /** Text added behind keeps every occurrence. */
  lemma ContainsAppend(s: string, u: string, p: string)
    requires Contains(s, p)
    ensures Contains(s + u, p)
  {
    var k := IndexOf(s, p).value;
    assert (s + u)[k..k + |p|] == s[k..k + |p|];
    OccursContains(s + u, p, k);
  }

  /** A string whose first character differs from the prefix's does not start with it. */
  lemma FirstCharMismatch(s: string, p: string)
    requires |s| >= 1 && |p| >= 1 && s[0] != p[0]
    ensures !StartsWith(s, p)
  {
    assert |p| <= |s| ==> s[..|p|][0] == s[0];
  }

  /** A pattern with a character that `s` lacks does not occur in `s`. */
  lemma AbsentCharNotContained(s: string, p: string, k: nat)
    requires k < |p| && p[k] !in s
    ensures !Contains(s, p)
  {
    forall j | 0 <= j ensures !OccursAt(s, p, j) {
      if j + |p| <= |s| {
        assert s[j..j + |p|][k] == s[j + k];
        assert s[j + k] in s;
      }
    }
  }

  // ---------------------------------------------------------------------------
  // split and join

  /** A separator-free prefix followed by the separator becomes the first field. */
  lemma {:induction false} SplitCons(p: string, c: char, q: string)
    requires c !in p
    ensures Split(p + [c] + q, c) == [p] + Split(q, c)
  {
    var s := p + [c] + q;
    if p == [] {
      assert s[0] == c && s[1..] == q;
    } else {
      assert s[0] == p[0] && s[0] != c;
      assert s[1..] == p[1..] + [c] + q;
      SplitCons(p[1..], c, q);
      assert [p[0]] + p[1..] == p;
    }
  }

  /** A string without the separator splits into itself alone. */
  lemma {:induction false} SplitNoSeparator(p: string, c: char)
    requires c !in p
    ensures Split(p, c) == [p]
  {
    if p != [] {
      SplitNoSeparator(p[1..], c);
      assert [p[0]] + p[1..] == p;
    }
  }

  /** Joining the fields of a split with the separator gives the string back. */
  lemma {:induction false} JoinSplit(s: string, c: char)
    ensures Join(Split(s, c), [c]) == s
  {
    if s == [] {
    } else if s[0] == c {
      var rest := Split(s[1..], c);
      JoinSplit(s[1..], c);
      assert Split(s, c) == [""] + rest;
      assert ([""] + rest)[1..] == rest;
      assert Join([""] + rest, [c]) == "" + [c] + Join(rest, [c]);
      assert s == [c] + s[1..];
    } else {
      var rest := Split(s[1..], c);
      JoinSplit(s[1..], c);
      var r := [[s[0]] + rest[0]] + rest[1..];
      assert Split(s, c) == r;
      if |rest| == 1 {
        assert Join(r, [c]) == [s[0]] + rest[0];
      } else {
        assert r[1..] == rest[1..];
        assert Join(rest, [c]) == rest[0] + [c] + Join(rest[1..], [c]);
        assert Join(r, [c]) == ([s[0]] + rest[0]) + [c] + Join(rest[1..], [c]);
      }
      assert s == [s[0]] + s[1..];
    }
  }

  /** Splitting the join of separator-free fields gives the fields back. */
  lemma {:induction false} SplitJoin(parts: seq<string>, c: char)
    requires |parts| >= 1
    requires forall i :: 0 <= i < |parts| ==> c !in parts[i]
    ensures Split(Join(parts, [c]), c) == parts
  {
    if |parts| == 1 {
      SplitNoSeparator(parts[0], c);
    } else {
      SplitJoin(parts[1..], c);
      SplitCons(parts[0], c, Join(parts[1..], [c]));
      assert [parts[0]] + parts[1..] == parts;
    }
  }

  /** The last field of a join stands after the last separator. */
  lemma {:induction false} JoinLast(parts: seq<string>, sep: string)
    requires |parts| >= 2
    ensures Join(parts, sep) == Join(parts[..|parts| - 1], sep) + sep + parts[|parts| - 1]
  {
    if |parts| > 2 {
      JoinLast(parts[1..], sep);
      assert parts[1..][..|parts| - 2] == parts[..|parts| - 1][1..];
    }
  }

  /** Joining two non-empty lists is joining their joins. */
  lemma {:induction false} JoinAppend(a: seq<string>, b: seq<string>, sep: string)
    requires |a| >= 1 && |b| >= 1
    ensures Join(a + b, sep) == Join(a, sep) + sep + Join(b, sep)
  {
    if |a| == 1 {
      assert (a + b)[1..] == b;
    } else {
      JoinAppend(a[1..], b, sep);
      assert (a + b)[1..] == a[1..] + b;
    }
  }

  /**
   * `s.split(c)[0]` is the longest separator-free prefix of `s`: it is followed
   * by the end of `s` or by `c`.
   */
  lemma FirstFieldSpec(s: string, c: char)
    ensures var f := FirstField(s, c);
      |f| <= |s| && s[..|f|] == f && c !in f && (|f| == |s| || s[|f|] == c)
  {
    var parts := Split(s, c);
    JoinSplit(s, c);
    if |parts| >= 2 {
      assert s == parts[0] + [c] + Join(parts[1..], [c]);
    }
  }

  /**
   * `s.split(c).pop()` is the longest separator-free suffix of `s`: it is
   * preceded by the start of `s` or by `c`.
   */
  lemma LastFieldSpec(s: string, c: char)
    ensures var f := LastField(s, c);
      |f| <= |s| && s[|s| - |f|..] == f && c !in f && (|f| == |s| || s[|s| - |f| - 1] == c)
  {
    var parts := Split(s, c);
    JoinSplit(s, c);
    if |parts| >= 2 {
      JoinLast(parts, [c]);
      var init := Join(parts[..|parts| - 1], [c]);
      assert s == init + [c] + parts[|parts| - 1];
    }
  }

  /** The last field after a separator is everything after that separator, when no separator follows. */
  lemma {:induction false} LastFieldAfter(a: string, c: char, b: string)
    requires c !in b
    ensures |Split(a + [c] + b, c)| >= 2
    ensures LastField(a + [c] + b, c) == b
  {
    var s := a + [c] + b;
    if a == [] {
      assert s[0] == c && s[1..] == b;
      SplitNoSeparator(b, c);
    } else {
      assert s[1..] == a[1..] + [c] + b;
      LastFieldAfter(a[1..], c, b);
    }
  }
}
