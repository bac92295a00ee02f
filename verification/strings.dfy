/**
 The two string operations the resolver relies on, with Python's meaning:
 - `Contains(haystack, needle)` is `needle in haystack`;
 - `Split(s, sep)` is `s.split(sep)` for a one-character separator, which
   keeps empty segments and never returns an empty list.
 */
module Strings {

  /** `p` is a prefix of `s`. */
  predicate IsPrefix(p: string, s: string) {
    |p| <= |s| && s[..|p|] == p
  }

  /** `needle` occurs in `haystack` starting at position `i`. */
  ghost predicate OccursAt(haystack: string, needle: string, i: int) {
    0 <= i && i + |needle| <= |haystack| && haystack[i..i + |needle|] == needle
  }

  /** An occurrence is either at the front or an occurrence in the tail, shifted by one. */
  lemma OccursStep(haystack: string, needle: string)
    ensures (exists i :: OccursAt(haystack, needle, i)) <==>
              || IsPrefix(needle, haystack)
              || (|haystack| > 0 && exists i :: OccursAt(haystack[1..], needle, i))
  {
    if |haystack| > 0 {
      var tail := haystack[1..];
      forall i | OccursAt(tail, needle, i)
        ensures OccursAt(haystack, needle, i + 1)
      {
        assert haystack[i + 1..i + 1 + |needle|] == tail[i..i + |needle|];
      }
      forall i | 0 < i && OccursAt(haystack, needle, i)
        ensures OccursAt(tail, needle, i - 1)
      {
        assert tail[i - 1..i - 1 + |needle|] == haystack[i..i + |needle|];
      }
    }
    if IsPrefix(needle, haystack) {
      assert OccursAt(haystack, needle, 0);
    }
  }

  /**
   Python's substring test `needle in haystack`, scanning left to right: it
   holds exactly when the needle occurs at some position of the haystack.
   */
  function Contains(haystack: string, needle: string): (found: bool)
    ensures found <==> exists i :: OccursAt(haystack, needle, i)
    decreases |haystack|
  {
    OccursStep(haystack, needle);
    IsPrefix(needle, haystack) || (|haystack| > 0 && Contains(haystack[1..], needle))
  }

  /** A witness position is enough to establish containment. */
  lemma ContainsAt(haystack: string, needle: string, i: nat)
    requires i + |needle| <= |haystack|
    requires haystack[i..i + |needle|] == needle
    ensures Contains(haystack, needle)
  {
    assert OccursAt(haystack, needle, i);
  }

  /** A string contains every infix it was built around. */
  lemma ContainsInfix(before: string, needle: string, after: string)
    ensures Contains(before + needle + after, needle)
  {
    var haystack := before + needle + after;
    assert haystack[|before|..|before| + |needle|] == needle;
    ContainsAt(haystack, needle, |before|);
  }

  /** A needle holding a character the haystack lacks is not contained in it. */
  lemma {:induction false} MissingCharNotContained(haystack: string, needle: string, c: char)
    requires c in needle && c !in haystack
    ensures !Contains(haystack, needle)
    decreases |haystack|
  {
    var k :| 0 <= k < |needle| && needle[k] == c;
    if |needle| <= |haystack| {
      assert haystack[..|needle|][k] != c;
    }
    if |haystack| > 0 {
      assert c !in haystack[1..] by {
        forall k | 0 <= k < |haystack[1..]| ensures haystack[1..][k] != c {
          assert haystack[1..][k] == haystack[k + 1];
        }
      }
      MissingCharNotContained(haystack[1..], needle, c);
    }
  }

  /** Joins a non-empty list of segments with `sep`: Python's `sep.join(parts)`. */
  function Join(parts: seq<string>, sep: char): (s: string)
    requires |parts| >= 1
    ensures IsPrefix(parts[0], s)
    ensures |parts| > 1 ==> |s| > |parts[0]| && s[|parts[0]|] == sep
    ensures |parts| == 1 ==> s == parts[0]
    decreases |parts|
  {
    if |parts| == 1 then parts[0] else parts[0] + [sep] + Join(parts[1..], sep)
  }

  /** Python's `s.split(sep)`: the maximal sep-free segments, empty ones included. */
  function Split(s: string, sep: char): (parts: seq<string>)
    ensures |parts| >= 1
    ensures forall i :: 0 <= i < |parts| ==> sep !in parts[i]
    ensures Join(parts, sep) == s
    decreases |s|
  {
    if |s| == 0 then
      [""]
    else if s[0] == sep then
      var rest := Split(s[1..], sep);
      assert Join([""] + rest, sep) == [sep] + Join(rest, sep) by {
        assert ([""] + rest)[1..] == rest;
      }
      assert s == [s[0]] + s[1..];
      [""] + rest
    else
      var rest := Split(s[1..], sep);
      var head := [s[0]] + rest[0];
      var parts := [head] + rest[1..];
      assert sep !in head;
      assert Join(parts, sep) == [s[0]] + Join(rest, sep) by {
        if |rest| > 1 {
          assert parts[1..] == rest[1..];
        }
      }
      assert s == [s[0]] + s[1..];
      parts
  }

  /** `k` is the first `sep`-separated segment of `s`. */
  predicate FirstSegmentIs(s: string, k: string, sep: char) {
    sep !in k && IsPrefix(k, s) && (|s| == |k| || s[|k|] == sep)
  }

  /** A string has exactly one first segment. */
  lemma FirstSegmentUnique(s: string, a: string, b: string, sep: char)
    requires FirstSegmentIs(s, a, sep) && FirstSegmentIs(s, b, sep)
    ensures a == b
  {
    if |a| < |b| {
      assert false;
    } else if |b| < |a| {
      assert false;
    }
  }

  /** The head of a join of sep-free segments is its first segment. */
  lemma JoinFirstSegment(parts: seq<string>, sep: char)
    requires |parts| >= 1
    requires forall i :: 0 <= i < |parts| ==> sep !in parts[i]
    ensures FirstSegmentIs(Join(parts, sep), parts[0], sep)
  {
  }

  /** A sep-free string without the first character is still sep-free. */
  lemma TailSepFree(k: string, sep: char)
    requires |k| > 0 && sep !in k
    ensures sep !in k[1..]
  {
    forall j | 0 <= j < |k[1..]| ensures k[1..][j] != sep {
      assert k[1..][j] == k[j + 1];
    }
  }

  /** A sep-free string is a single segment. */
  lemma {:induction false} SplitOfSegment(k: string, sep: char)
    requires sep !in k
    ensures Split(k, sep) == [k]
    decreases |k|
  {
    if |k| > 0 {
      TailSepFree(k, sep);
      SplitOfSegment(k[1..], sep);
      assert [k[0]] + k[1..] == k;
    }
  }

  /** A leading separator closes an empty first segment. */
  lemma SplitAtSep(s: string, sep: char)
    requires |s| > 0 && s[0] == sep
    ensures Split(s, sep) == [""] + Split(s[1..], sep)
  {
  }

  /** A leading non-separator extends the first segment of the rest. */
  lemma SplitAtChar(s: string, sep: char)
    requires |s| > 0 && s[0] != sep
    ensures Split(s, sep) == [[s[0]] + Split(s[1..], sep)[0]] + Split(s[1..], sep)[1..]
  {
  }

  /** Splitting at the first separator peels off exactly one segment. */
  lemma {:induction false} SplitAtFirst(k: string, t: string, sep: char)
    requires sep !in k
    ensures Split(k + [sep] + t, sep) == [k] + Split(t, sep)
    decreases |k|
  {
    var s := k + [sep] + t;
    if |k| == 0 {
      assert s[1..] == t;
      SplitAtSep(s, sep);
    } else {
      TailSepFree(k, sep);
      SplitAtFirst(k[1..], t, sep);
      assert s[1..] == k[1..] + [sep] + t;
      SplitExtendsSegment(s, k, Split(t, sep), sep);
    }
  }

  /** The inductive step of `SplitAtFirst`: one more leading character joins the first segment. */
  lemma SplitExtendsSegment(s: string, k: string, later: seq<string>, sep: char)
    requires |k| > 0 && |s| > 0 && s[0] == k[0] && k[0] != sep
    requires Split(s[1..], sep) == [k[1..]] + later
    ensures Split(s, sep) == [k] + later
  {
    SplitAtChar(s, sep);
    assert [k[0]] + k[1..] == k;
  }

  /** Splitting undoes joining sep-free segments: the converse round trip. */
  lemma {:induction false} SplitJoin(parts: seq<string>, sep: char)
    requires |parts| >= 1
    requires forall i :: 0 <= i < |parts| ==> sep !in parts[i]
    ensures Split(Join(parts, sep), sep) == parts
    decreases |parts|
  {
    if |parts| == 1 {
      SplitOfSegment(parts[0], sep);
    } else {
      var tail := parts[1..];
      assert forall i :: 0 <= i < |tail| ==> sep !in tail[i] by {
        forall i | 0 <= i < |tail| ensures sep !in tail[i] {
          assert tail[i] == parts[i + 1];
        }
      }
      SplitJoin(tail, sep);
      SplitAtFirst(parts[0], Join(tail, sep), sep);
      assert parts == [parts[0]] + tail;
    }
  }

  /** The first segment of a split is the string's first segment. */
  lemma SplitHead(s: string, k: string, sep: char)
    requires FirstSegmentIs(s, k, sep)
    ensures Split(s, sep)[0] == k
  {
    if |s| == |k| {
      assert s == k;
      SplitOfSegment(k, sep);
    } else {
      var t := s[|k| + 1..];
      assert s == k + [sep] + t;
      SplitAtFirst(k, t, sep);
    }
  }
}
