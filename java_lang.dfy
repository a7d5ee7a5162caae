/**
 * The parts of java.lang.String the core relies on: trim(), replace(char, char),
 * the natural order of compareTo (used by Arrays.sort on a String[]), and joining
 * name segments with a one-character separator as the StringBuffer loops do.
 */
module JavaLang {

  // ---------------------------------------------------------------------------
  // String.trim(): drop every leading and trailing char whose code is <= U+0020
  // ---------------------------------------------------------------------------

  /** A char that String.trim() removes from either end. */
  predicate IsTrimmable(c: char) {
    c <= ' '
  }

  /** No trimmable char at either end. */
  predicate IsTrimmed(s: string) {
    |s| == 0 || (!IsTrimmable(s[0]) && !IsTrimmable(s[|s| - 1]))
  }

  /** Number of trimmable chars at the start of s. */
  function LeadingTrimmable(s: string): (n: nat)
    ensures n <= |s|
    ensures forall k :: 0 <= k < n ==> IsTrimmable(s[k])
    ensures n < |s| ==> !IsTrimmable(s[n])
  {
    if |s| > 0 && IsTrimmable(s[0]) then 1 + LeadingTrimmable(s[1..]) else 0
  }

  /** Number of trimmable chars at the end of s. */
  function TrailingTrimmable(s: string): (n: nat)
    ensures n <= |s|
    ensures forall k :: |s| - n <= k < |s| ==> IsTrimmable(s[k])
    ensures n < |s| ==> !IsTrimmable(s[|s| - 1 - n])
  {
    if |s| > 0 && IsTrimmable(s[|s| - 1]) then 1 + TrailingTrimmable(s[..|s| - 1]) else 0
  }

  /**
   * String.trim(): first the leading run is skipped, then the trailing run of what
   * is left. The result is the slice of s that starts after the leading run, and
   * everything of s after the result is trimmable.
   */
  function Trim(s: string): (r: string)
    ensures IsTrimmed(r)
    ensures LeadingTrimmable(s) + |r| <= |s|
    ensures r == s[LeadingTrimmable(s)..LeadingTrimmable(s) + |r|]
    ensures forall k :: LeadingTrimmable(s) + |r| <= k < |s| ==> IsTrimmable(s[k])
  {
    var rest := s[LeadingTrimmable(s)..];
    rest[..|rest| - TrailingTrimmable(rest)]
  }

  /** A trimmed string is its own trim. */
  lemma TrimOfTrimmed(s: string)
    requires IsTrimmed(s)
    ensures Trim(s) == s
  {
    assert LeadingTrimmable(s) == 0;
    assert TrailingTrimmable(s) == 0;
  }

  /** trim() is idempotent. */
  lemma TrimIdempotent(s: string)
    ensures Trim(Trim(s)) == Trim(s)
  {
    TrimOfTrimmed(Trim(s));
  }

  // ---------------------------------------------------------------------------
  // String.replace(char, char)
  // ---------------------------------------------------------------------------

  /** String.replace(oldChar, newChar): every occurrence of oldChar becomes newChar. */
  function Replace(s: string, oldChar: char, newChar: char): (r: string)
    ensures |r| == |s|
    ensures forall k :: 0 <= k < |s| ==> r[k] == (if s[k] == oldChar then newChar else s[k])
  {
    if |s| == 0 then "" else [if s[0] == oldChar then newChar else s[0]] + Replace(s[1..], oldChar, newChar)
  }

  // ---------------------------------------------------------------------------
  // Joining segments with a separator, and its inverse
  // ---------------------------------------------------------------------------

  /** The segments with sep between consecutive segments, and nowhere else. */
  function Join(segments: seq<string>, sep: char): string
  {
    if |segments| == 0 then ""
    else if |segments| == 1 then segments[0]
    else segments[0] + [sep] + Join(segments[1..], sep)
  }

  /** Every segment followed by sep: what a loop that appends "segment." per step builds. */
  function Terminated(segments: seq<string>, sep: char): string
  {
    if |segments| == 0 then ""
    else Terminated(segments[..|segments| - 1], sep) + segments[|segments| - 1] + [sep]
  }

  /** s cut at every occurrence of sep; there is always at least one piece. */
  function Split(s: string, sep: char): (pieces: seq<string>)
    ensures |pieces| > 0
  {
    if |s| == 0 then [""]
    else
      var rest := Split(s[1..], sep);
      if s[0] == sep then [""] + rest else [[s[0]] + rest[0]] + rest[1..]
  }

  /** Appending one segment adds the separator and that segment, nothing more. */
  lemma {:induction false} JoinSnoc(segments: seq<string>, last: string, sep: char)
    requires |segments| > 0
    ensures Join(segments + [last], sep) == Join(segments, sep) + [sep] + last
  {
    if |segments| == 1 {
      assert segments + [last] == [segments[0], last];
    } else {
      assert (segments + [last])[1..] == segments[1..] + [last];
      JoinSnoc(segments[1..], last, sep);
    }
  }

  /** A list of segments each followed by sep, then one more segment, is the joined list. */
  lemma {:induction false} TerminatedThenLast(segments: seq<string>, last: string, sep: char)
    ensures Terminated(segments, sep) + last == Join(segments + [last], sep)
  {
    if |segments| == 0 {
      assert segments + [last] == [last];
    } else {
      var init := segments[..|segments| - 1];
      var tail := segments[|segments| - 1];
      TerminatedThenLast(init, tail, sep);
      assert init + [tail] == segments;
      JoinSnoc(segments, last, sep);
    }
  }

  /** Joining what Split produced gives back the string. */
  lemma {:induction false} JoinSplit(s: string, sep: char)
    ensures Join(Split(s, sep), sep) == s
  {
    if |s| > 0 {
      var rest := Split(s[1..], sep);
      JoinSplit(s[1..], sep);
      if s[0] == sep {
        assert Split(s, sep) == [""] + rest;
        assert ([""] + rest)[1..] == rest;
      } else {
        var pieces := Split(s, sep);
        assert pieces == [[s[0]] + rest[0]] + rest[1..];
        assert pieces[1..] == rest[1..];
        if |rest| > 1 {
          assert Join(rest, sep) == rest[0] + [sep] + Join(rest[1..], sep);
        }
      }
    }
  }

  /** Splitting "head<sep>tail" when head holds no sep. */
  lemma {:induction false} SplitAfterHead(head: string, tail: string, sep: char)
    requires sep !in head
    ensures Split(head + [sep] + tail, sep) == [head] + Split(tail, sep)
  {
    if |head| == 0 {
      assert head + [sep] + tail == [sep] + tail;
      assert ([sep] + tail)[1..] == tail;
    } else {
      var s := head + [sep] + tail;
      assert s[1..] == head[1..] + [sep] + tail;
      SplitAfterHead(head[1..], tail, sep);
      assert [s[0]] + head[1..] == head;
    }
  }

  /** A string without sep is one piece. */
  lemma {:induction false} SplitWithoutSeparator(s: string, sep: char)
    requires sep !in s
    ensures Split(s, sep) == [s]
  {
    if |s| > 0 {
      SplitWithoutSeparator(s[1..], sep);
      assert [s[0]] + s[1..] == s;
    }
  }

  /** Splitting a joined non-empty list whose segments hold no sep gives the list back. */
  lemma {:induction false} SplitJoin(segments: seq<string>, sep: char)
    requires |segments| > 0
    requires forall i :: 0 <= i < |segments| ==> sep !in segments[i]
    ensures Split(Join(segments, sep), sep) == segments
  {
    if |segments| == 1 {
      SplitWithoutSeparator(segments[0], sep);
    } else {
      SplitJoin(segments[1..], sep);
      SplitAfterHead(segments[0], Join(segments[1..], sep), sep);
      assert [segments[0]] + segments[1..] == segments;
    }
  }

  /** Join is empty exactly for no segment or a single empty one. */
  lemma JoinEmpty(segments: seq<string>, sep: char)
    ensures Join(segments, sep) == "" <==> segments == [] || segments == [""]
  {
    if |segments| == 1 {
      assert segments == [segments[0]];
    }
  }

  // ---------------------------------------------------------------------------
  // String.compareTo order and Arrays.sort on a String[]
  // ---------------------------------------------------------------------------

  /**
   * a.compareTo(b) < 0: at the first position where the strings differ the char of a
   * is smaller, or a is a proper prefix of b.
   */
  predicate Less(a: string, b: string)
  {
    if |b| == 0 then false
    else if |a| == 0 then true
    else if a[0] != b[0] then a[0] < b[0]
    else Less(a[1..], b[1..])
  }

  lemma {:induction false} LessIrreflexive(a: string)
    ensures !Less(a, a)
  {
    if |a| > 0 {
      LessIrreflexive(a[1..]);
    }
  }

  lemma {:induction false} LessAsymmetric(a: string, b: string)
    requires Less(a, b)
    ensures !Less(b, a)
  {
    if |a| > 0 && a[0] == b[0] {
      LessAsymmetric(a[1..], b[1..]);
    }
  }

  lemma {:induction false} LessTransitive(a: string, b: string, c: string)
    requires Less(a, b) && Less(b, c)
    ensures Less(a, c)
  {
    if |a| > 0 && a[0] == b[0] && b[0] == c[0] {
      LessTransitive(a[1..], b[1..], c[1..]);
    }
  }

  lemma {:induction false} LessTotal(a: string, b: string)
    requires a != b
    ensures Less(a, b) || Less(b, a)
  {
    if |a| > 0 && |b| > 0 && a[0] == b[0] {
      assert a == [a[0]] + a[1..] && b == [b[0]] + b[1..];
      LessTotal(a[1..], b[1..]);
    }
  }

  /** Some element of a non-empty set is below every other element. */
  lemma {:induction false} LeastExists(s: set<string>)
    requires s != {}
    ensures exists m :: m in s && forall x :: x in s && x != m ==> Less(m, x)
    decreases |s|
  {
    var y :| y in s;
    if s != {y} {
      var rest := s - {y};
      LeastExists(rest);
      var m :| m in rest && forall x :: x in rest && x != m ==> Less(m, x);
      LessTotal(y, m);
      if Less(y, m) {
        forall x | x in s && x != y
          ensures Less(y, x)
        {
          if x != m {
            LessTransitive(y, m, x);
          }
        }
      } else {
        assert forall x :: x in s && x != m ==> Less(m, x);
      }
    }
  }

  /** The least element of a non-empty set of strings. */
  function Least(s: set<string>): (m: string)
    requires s != {}
    ensures m in s
    ensures forall x :: x in s && x != m ==> Less(m, x)
  {
    LeastExists(s);
    forall a, b | Less(a, b) ensures !Less(b, a) {
      LessAsymmetric(a, b);
    }
    var m :| m in s && forall x :: x in s && x != m ==> Less(m, x);
    m
  }

  predicate StrictlySorted(r: seq<string>)
  {
    forall i, j :: 0 <= i < j < |r| ==> Less(r[i], r[j])
  }

  /** The elements of s in ascending compareTo order, each once. */
  function SortedStrings(s: set<string>): (r: seq<string>)
    ensures |r| == |s|
    ensures forall x :: x in r <==> x in s
    ensures StrictlySorted(r)
    decreases |s|
  {
    if s == {} then []
    else
      var m := Least(s);
      [m] + SortedStrings(s - {m})
  }
}
