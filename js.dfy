/** The small part of JavaScript's value semantics that the UI's handlers rely on:
    nullable strings and their truthiness, and the `String` methods `startsWith`,
    `endsWith` and `includes`, plus the layout of a multi-line template literal. */
module Js {

  /** `T | null`. */
  datatype Option<T> = None | Some(value: T)

  /** `!!s` for a `string | null`: false for `null` and for the empty string. */
  predicate Truthy(s: Option<string>) {
    s.Some? && s.value != ""
  }

  /** `s.startsWith(prefix)`. */
  predicate StartsWith(s: string, prefix: string) {
    |prefix| <= |s| && s[..|prefix|] == prefix
  }

  /** `s.endsWith(suffix)`. */
  predicate EndsWith(s: string, suffix: string) {
    |suffix| <= |s| && s[|s| - |suffix|..] == suffix
  }

  /** `s.includes(sub)`: `sub` occurs in `s` starting at some position. */
  predicate Includes(s: string, sub: string) {
    exists i :: 0 <= i <= |s| && StartsWith(s[i..], sub)
  }

  /** A template literal written over several source lines: the lines joined by newlines. */
  function JoinLines(lines: seq<string>): string {
    if |lines| == 0 then ""
    else if |lines| == 1 then lines[0]
    else lines[0] + "\n" + JoinLines(lines[1..])
  }

  lemma IncludesAt(s: string, sub: string, i: nat)
    requires i <= |s| && StartsWith(s[i..], sub)
    ensures Includes(s, sub)
  {
  }

  /** A string that starts with `prefix` includes it. */
  lemma StartsWithIncludes(s: string, prefix: string)
    requires StartsWith(s, prefix)
    ensures Includes(s, prefix)
  {
    assert s[0..] == s;
    IncludesAt(s, prefix, 0);
  }

  /** What a string includes, any string with it as a suffix includes too. */
  lemma IncludesInSuffix(a: string, b: string, sub: string)
    requires Includes(b, sub)
    ensures Includes(a + b, sub)
  {
    var i :| 0 <= i <= |b| && StartsWith(b[i..], sub);
    assert (a + b)[|a| + i..] == b[i..];
    IncludesAt(a + b, sub, |a| + i);
  }

  /** What a string includes, any string with it as a prefix includes too. */
  lemma IncludesInPrefix(a: string, b: string, sub: string)
    requires Includes(a, sub)
    ensures Includes(a + b, sub)
  {
    var i :| 0 <= i <= |a| && StartsWith(a[i..], sub);
    assert (a + b)[i..][..|sub|] == a[i..][..|sub|];
    IncludesAt(a + b, sub, i);
  }

  /** `includes` is transitive. */
  lemma IncludesTransitive(a: string, b: string, c: string)
    requires Includes(a, b) && Includes(b, c)
    ensures Includes(a, c)
  {
    var i :| 0 <= i <= |a| && StartsWith(a[i..], b);
    var j :| 0 <= j <= |b| && StartsWith(b[j..], c);
    forall k | 0 <= k < |c|
      ensures a[i + j + k] == c[k]
    {
      assert a[i..][..|b|][j + k] == b[j + k];
      assert b[j..][..|c|][k] == c[k];
    }
    assert a[i + j..][..|c|] == c;
    IncludesAt(a, c, i + j);
  }

  /** A string in which the first character of `sub` never occurs cannot include `sub`. */
  lemma NotIncludesWithoutFirstChar(s: string, sub: string)
    requires |sub| > 0 && sub[0] !in s
    ensures !Includes(s, sub)
  {
    forall i | 0 <= i <= |s|
      ensures !StartsWith(s[i..], sub)
    {
      if i < |s| {
        assert s[i..][0] == s[i];
      }
    }
  }

  /** Every line of a multi-line literal occurs in it. */
  lemma {:induction false} JoinLinesIncludes(lines: seq<string>, k: nat)
    requires k < |lines|
    ensures Includes(JoinLines(lines), lines[k])
  {
    if |lines| == 1 {
      StartsWithIncludes(lines[0], lines[0]);
    } else if k == 0 {
      var rest := "\n" + JoinLines(lines[1..]);
      assert JoinLines(lines) == lines[0] + rest;
      StartsWithIncludes(lines[0], lines[0]);
      IncludesInPrefix(lines[0], rest, lines[0]);
    } else {
      JoinLinesIncludes(lines[1..], k - 1);
      IncludesInSuffix(lines[0] + "\n", JoinLines(lines[1..]), lines[k]);
    }
  }

  /** A multi-line literal starts with its first line. */
  lemma JoinLinesStartsWith(lines: seq<string>)
    requires |lines| > 0
    ensures StartsWith(JoinLines(lines), lines[0])
  {
    if |lines| > 1 {
      var rest := "\n" + JoinLines(lines[1..]);
      assert JoinLines(lines) == lines[0] + rest;
      assert (lines[0] + rest)[..|lines[0]|] == lines[0];
    }
  }

  /** A multi-line literal ends with its last line. */
  lemma {:induction false} JoinLinesEndsWith(lines: seq<string>)
    requires |lines| > 0
    ensures EndsWith(JoinLines(lines), lines[|lines| - 1])
  {
    if |lines| > 1 {
      JoinLinesEndsWith(lines[1..]);
      var tail := JoinLines(lines[1..]);
      var last := lines[|lines| - 1];
      assert JoinLines(lines) == (lines[0] + "\n") + tail;
      assert ((lines[0] + "\n") + tail)[|(lines[0] + "\n") + tail| - |last|..] == tail[|tail| - |last|..];
    }
  }
}
