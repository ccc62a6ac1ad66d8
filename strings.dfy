/** The few JavaScript string operations the search route relies on:
    `String.prototype.includes` (case-sensitive substring test) and
    `Array.prototype.join` with a one-character separator, together with
    the splitting that undoes a join. */
module Strings {

  /** `t` is a prefix of `s`. */
  predicate StartsWith(s: string, t: string) {
    |t| <= |s| && s[..|t|] == t
  }

  /** `s.includes(t)`: some start position of `s`, scanned left to right,
      begins an occurrence of `t`. Matching is exact (case-sensitive). */
  predicate Includes(s: string, t: string)
    decreases |s|
  {
    StartsWith(s, t) || (|s| > 0 && Includes(s[1..], t))
  }

  /** The slice of `s` starting at `i` spells `t`. */
  ghost predicate OccursAt(t: string, s: string, i: int) {
    0 <= i && i + |t| <= |s| && s[i..i + |t|] == t
  }

  /** Reference definition of an occurrence: a slice of `s` equal to `t`. */
  ghost predicate OccursIn(t: string, s: string) {
    exists i :: OccursAt(t, s, i)
  }

  /** A position found by the scan is a slice equal to `t`. */
  lemma {:induction false} IncludesHasOccurrence(s: string, t: string)
    requires Includes(s, t)
    ensures OccursIn(t, s)
    decreases |s|
  {
    if StartsWith(s, t) {
      assert OccursAt(t, s, 0);
    } else {
      IncludesHasOccurrence(s[1..], t);
      var i :| OccursAt(t, s[1..], i);
      assert s[1..][i..i + |t|] == s[i + 1..i + 1 + |t|];
      assert OccursAt(t, s, i + 1);
    }
  }

  /** The scan finds every occurrence. */
  lemma {:induction false} OccurrenceIsIncluded(s: string, t: string, i: int)
    requires OccursAt(t, s, i)
    ensures Includes(s, t)
    decreases i
  {
    if i > 0 {
      assert s[1..][i - 1..i - 1 + |t|] == s[i..i + |t|];
      OccurrenceIsIncluded(s[1..], t, i - 1);
    } else {
      assert s[..|t|] == s[i..i + |t|];
    }
  }

  /** The scanning definition and the slice definition agree. */
  lemma IncludesIffOccurs(s: string, t: string)
    ensures Includes(s, t) <==> OccursIn(t, s)
  {
    if Includes(s, t) {
      IncludesHasOccurrence(s, t);
    }
    if OccursIn(t, s) {
      var i :| OccursAt(t, s, i);
      OccurrenceIsIncluded(s, t, i);
    }
  }

  /** A string that lacks one of the characters of `t` cannot include `t`. */
  lemma {:induction false} MissingCharExcludes(s: string, t: string, c: char)
    requires c in t && c !in s
    ensures !Includes(s, t)
    decreases |s|
  {
    var k :| 0 <= k < |t| && t[k] == c;
    assert k < |s| ==> s[k] != c;
    if |s| > 0 {
      assert forall j :: 0 <= j < |s[1..]| ==> s[1..][j] == s[j + 1];
      MissingCharExcludes(s[1..], t, c);
    }
  }

  /** Prepending `p` neither creates nor hides an occurrence of `t`, as long
      as no occurrence of `t` can begin at a position inside `p`. */
  lemma {:induction false} IncludesPastPrefix(p: string, m: string, t: string)
    requires forall i :: 0 <= i < |p| ==> !StartsWith((p + m)[i..], t)
    ensures Includes(p + m, t) == Includes(m, t)
    decreases |p|
  {
    if |p| > 0 {
      assert (p + m)[0..] == p + m;
      assert (p + m)[1..] == p[1..] + m;
      forall i | 0 <= i < |p[1..]| ensures !StartsWith((p[1..] + m)[i..], t) {
        assert (p[1..] + m)[i..] == (p + m)[i + 1..];
      }
      IncludesPastPrefix(p[1..], m, t);
    } else {
      assert p + m == m;
    }
  }

  /** `parts.join(sep)`: the parts in order with one separator between
      neighbours; no parts give the empty string. */
  function Join(parts: seq<string>, sep: char): string
    decreases |parts|
  {
    if |parts| == 0 then ""
    else if |parts| == 1 then parts[0]
    else parts[0] + [sep] + Join(parts[1..], sep)
  }

  /** The maximal runs of `s` between occurrences of `sep`; there is always
      at least one (the empty string splits into one empty piece). */
  function Split(s: string, sep: char): (pieces: seq<string>)
    ensures |pieces| >= 1
    decreases |s|
  {
    if |s| == 0 then [""]
    else
      var rest := Split(s[1..], sep);
      if s[0] == sep then [""] + rest
      else [[s[0]] + rest[0]] + rest[1..]
  }

  /** Number of occurrences of the character `c` in `s`. */
  function Count(s: string, c: char): nat
    decreases |s|
  {
    if |s| == 0 then 0 else (if s[0] == c then 1 else 0) + Count(s[1..], c)
  }

  /** No piece holds the separator. */
  ghost predicate SeparatorFree(parts: seq<string>, sep: char) {
    forall i :: 0 <= i < |parts| ==> sep !in parts[i]
  }

  lemma {:induction false} CountAppend(a: string, b: string, c: char)
    ensures Count(a + b, c) == Count(a, c) + Count(b, c)
    decreases |a|
  {
    if |a| == 0 {
      assert a + b == b;
    } else {
      assert (a + b)[1..] == a[1..] + b;
      CountAppend(a[1..], b, c);
    }
  }

  lemma {:induction false} CountAbsent(s: string, c: char)
    requires c !in s
    ensures Count(s, c) == 0
    decreases |s|
  {
    if |s| > 0 {
      assert forall j :: 0 <= j < |s[1..]| ==> s[1..][j] == s[j + 1];
      CountAbsent(s[1..], c);
    }
  }

  /** A string without the separator splits into itself. */
  lemma {:induction false} SplitAbsent(s: string, sep: char)
    requires sep !in s
    ensures Split(s, sep) == [s]
    decreases |s|
  {
    if |s| > 0 {
      assert forall j :: 0 <= j < |s[1..]| ==> s[1..][j] == s[j + 1];
      SplitAbsent(s[1..], sep);
      assert [s[0]] + s[1..] == s;
    }
  }

  /** Splitting `a + [sep] + b` yields `a` followed by the pieces of `b`,
      when `a` holds no separator. */
  lemma {:induction false} SplitAfterPiece(a: string, b: string, sep: char)
    requires sep !in a
    ensures Split(a + [sep] + b, sep) == [a] + Split(b, sep)
    decreases |a|
  {
    var s := a + [sep] + b;
    if |a| == 0 {
      assert s[0] == sep && s[1..] == b;
    } else {
      assert s[1..] == a[1..] + [sep] + b;
      assert forall j :: 0 <= j < |a[1..]| ==> a[1..][j] == a[j + 1];
      SplitAfterPiece(a[1..], b, sep);
      assert [a[0]] + a[1..] == a;
    }
  }

  /** Splitting undoes joining, when no part holds the separator. */
  lemma {:induction false} SplitJoin(parts: seq<string>, sep: char)
    requires |parts| >= 1 && SeparatorFree(parts, sep)
    ensures Split(Join(parts, sep), sep) == parts
    decreases |parts|
  {
    if |parts| == 1 {
      SplitAbsent(parts[0], sep);
    } else {
      SplitJoin(parts[1..], sep);
      SplitAfterPiece(parts[0], Join(parts[1..], sep), sep);
    }
  }

  /** Joining n separator-free parts puts exactly n - 1 separators in the
      result. */
  lemma {:induction false} JoinSeparatorCount(parts: seq<string>, sep: char)
    requires |parts| >= 1 && SeparatorFree(parts, sep)
    ensures Count(Join(parts, sep), sep) == |parts| - 1
    decreases |parts|
  {
    CountAbsent(parts[0], sep);
    if |parts| > 1 {
      JoinSeparatorCount(parts[1..], sep);
      CountAppend(parts[0] + [sep], Join(parts[1..], sep), sep);
      CountAppend(parts[0], [sep], sep);
      assert [sep][1..] == "";
    }
  }

  /** Joining a sequence with one more part at the end appends a separator
      and that part. */
  lemma {:induction false} JoinSnoc(parts: seq<string>, last: string, sep: char)
    requires |parts| >= 1
    ensures Join(parts + [last], sep) == Join(parts, sep) + [sep] + last
    decreases |parts|
  {
    if |parts| == 1 {
      assert (parts + [last])[1..] == [last];
    } else {
      assert (parts + [last])[1..] == parts[1..] + [last];
      JoinSnoc(parts[1..], last, sep);
    }
  }

  /** A character missing from both halves is missing from their
      concatenation. */
  lemma NotInConcat(a: string, b: string, c: char)
    requires c !in a && c !in b
    ensures c !in a + b
  {
  }
}
