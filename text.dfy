/**
 The string operations the converter relies on: stripping surrounding
 whitespace from a line, splitting it on the delimiter, joining fields back
 together, and the ordering that comparing two strings with `<` gives.
 */
module Text {

  /** Whitespace that `strip()` removes, restricted to ASCII: space, the
      control characters TAB through CR, and the four separators 0x1C-0x1F. */
  predicate IsSpace(c: char) {
    c == ' ' || (9 <= c as int <= 13) || (28 <= c as int <= 31)
  }

  /** The index of the first non-whitespace character of `s` at or after
      `i`, or |s| when there is none. */
  function SpanStart(s: string, i: nat): (lo: nat)
    requires i <= |s|
    ensures i <= lo <= |s|
    ensures forall k :: i <= k < lo ==> IsSpace(s[k])
    ensures lo < |s| ==> !IsSpace(s[lo])
    decreases |s| - i
  {
    if i == |s| || !IsSpace(s[i]) then i else SpanStart(s, i + 1)
  }

  /** The index just past the last non-whitespace character of `s` before
      `j` and not before `lo`, or `lo` when there is none. */
  function SpanEnd(s: string, lo: nat, j: nat): (hi: nat)
    requires lo <= j <= |s|
    ensures lo <= hi <= j
    ensures forall k :: hi <= k < j ==> IsSpace(s[k])
    ensures lo < hi ==> !IsSpace(s[hi - 1])
    decreases j
  {
    if j == lo || !IsSpace(s[j - 1]) then j else SpanEnd(s, lo, j - 1)
  }

  /** `str.strip()` with no argument: the part of `s` between its leading
      and its trailing whitespace. */
  function Strip(s: string): (r: string)
    ensures |r| <= |s|
  {
    var lo := SpanStart(s, 0);
    s[lo..SpanEnd(s, lo, |s|)]
  }

  /** Stripping cuts whitespace off both ends and nothing else: what is left
      is a contiguous piece of the input that neither starts nor ends with
      whitespace, and everything cut off is whitespace. */
  lemma StripIsInfix(s: string)
    ensures var lo := SpanStart(s, 0);
      && lo + |Strip(s)| <= |s|
      && Strip(s) == s[lo..lo + |Strip(s)|]
      && (forall k :: 0 <= k < lo ==> IsSpace(s[k]))
      && (forall k :: lo + |Strip(s)| <= k < |s| ==> IsSpace(s[k]))
    ensures Strip(s) == [] || (!IsSpace(Strip(s)[0]) && !IsSpace(Strip(s)[|Strip(s)| - 1]))
  {
    var lo := SpanStart(s, 0);
    var hi := SpanEnd(s, lo, |s|);
    var r := Strip(s);
    assert r == s[lo..hi] && hi == lo + |r|;
    assert (forall k :: 0 <= k < lo ==> IsSpace(s[k])) && (forall k :: lo + |r| <= k < |s| ==> IsSpace(s[k]));
    if lo < hi {
      assert r[0] == s[lo] && r[|r| - 1] == s[hi - 1];
    }
  }

  /** Stripping twice is stripping once. */
  lemma StripIdempotent(s: string)
    ensures Strip(Strip(s)) == Strip(s)
  {
    var r := Strip(s);
    StripIsInfix(s);
    assert SpanStart(r, 0) == 0;
    assert SpanEnd(r, 0, |r|) == |r|;
    assert r[0..|r|] == r;
  }

  /** `s.split(sep)`: cuts `s` at each occurrence of `sep`, scanning from the
      left and never reusing a character of an occurrence already cut at. */
  function Split(s: string, sep: string): (parts: seq<string>)
    requires |sep| > 0
    ensures |parts| >= 1
    decreases |s|
  {
    if |s| < |sep| then [s]
    else if s[..|sep|] == sep then [""] + Split(s[|sep|..], sep)
    else
      var rest := Split(s[1..], sep);
      [[s[0]] + rest[0]] + rest[1..]
  }

  /** `sep.join(parts)`. */
  function Join(parts: seq<string>, sep: string): (s: string)
    ensures |parts| > 0 ==> parts[0] <= s
    decreases |parts|
  {
    if |parts| == 0 then ""
    else if |parts| == 1 then parts[0]
    else parts[0] + sep + Join(parts[1..], sep)
  }

  /** Joining the pieces of a split with the same separator gives back the
      string that was split. */
  lemma {:induction false} JoinSplit(s: string, sep: string)
    requires |sep| > 0
    ensures Join(Split(s, sep), sep) == s
    decreases |s|
  {
    if |s| < |sep| {
    } else if s[..|sep|] == sep {
      var tail := s[|sep|..];
      JoinSplit(tail, sep);
      calc {
        Join(Split(s, sep), sep);
        Join([""] + Split(tail, sep), sep);
        { JoinCons("", Split(tail, sep), sep); }
        "" + sep + Join(Split(tail, sep), sep);
        "" + sep + tail;
        { assert "" + sep == s[..|sep|]; }
        s[..|sep|] + s[|sep|..];
        s;
      }
    } else {
      var rest := Split(s[1..], sep);
      JoinSplit(s[1..], sep);
      calc {
        Join(Split(s, sep), sep);
        Join([[s[0]] + rest[0]] + rest[1..], sep);
        { JoinGlue(s[0], rest, sep); }
        [s[0]] + Join(rest, sep);
        [s[0]] + s[1..];
        s;
      }
    }
  }

  lemma JoinCons(p: string, rest: seq<string>, sep: string)
    requires |rest| >= 1
    ensures Join([p] + rest, sep) == p + sep + Join(rest, sep)
  {
    assert ([p] + rest)[1..] == rest;
  }

  /** Gluing a character onto the first field glues it onto the joined string. */
  lemma JoinGlue(c: char, rest: seq<string>, sep: string)
    requires |rest| >= 1
    ensures Join([[c] + rest[0]] + rest[1..], sep) == [c] + Join(rest, sep)
  {
    var parts := [[c] + rest[0]] + rest[1..];
    assert parts[1..] == rest[1..];
    if |rest| > 1 {
      assert Join(rest, sep) == rest[0] + sep + Join(rest[1..], sep);
      assert Join(parts, sep) == ([c] + rest[0]) + sep + Join(rest[1..], sep);
    }
  }

  /** A prefix free of the (one-character) separator stays glued to the
      first piece of what follows it. */
  lemma {:induction false} SplitAfterPlain(p: string, t: string, c: char)
    requires c !in p
    ensures Split(p + t, [c]) == [p + Split(t, [c])[0]] + Split(t, [c])[1..]
    decreases |p|
  {
    if p != [] {
      var s := p + t;
      assert s[..1] != [c] by { assert s[0] == p[0]; }
      assert s[1..] == p[1..] + t;
      SplitAfterPlain(p[1..], t, c);
      assert [s[0]] + (p[1..] + Split(t, [c])[0]) == p + Split(t, [c])[0];
    } else {
      var r := Split(t, [c]);
      assert p + t == t;
      assert p + r[0] == r[0];
      assert [r[0]] + r[1..] == r;
    }
  }

  /** Splitting on a one-character separator undoes joining with it, as long
      as no field contains that character. */
  lemma {:induction false} SplitJoin(parts: seq<string>, c: char)
    requires |parts| >= 1
    requires forall i :: 0 <= i < |parts| ==> c !in parts[i]
    ensures Split(Join(parts, [c]), [c]) == parts
    decreases |parts|
  {
    if |parts| == 1 {
      SplitAfterPlain(parts[0], "", c);
      assert parts[0] + "" == parts[0];
    } else {
      var tail := Join(parts[1..], [c]);
      var t := [c] + tail;
      SplitJoin(parts[1..], c);
      SplitAtSeparator(tail, c);
      calc {
        Split(Join(parts, [c]), [c]);
        Split(parts[0] + [c] + tail, [c]);
        { assert parts[0] + [c] + tail == parts[0] + t; }
        Split(parts[0] + t, [c]);
        { SplitAfterPlain(parts[0], t, c); }
        [parts[0] + Split(t, [c])[0]] + Split(t, [c])[1..];
        { assert Split(t, [c])[0] == "" && Split(t, [c])[1..] == parts[1..]; }
        [parts[0] + ""] + parts[1..];
        { assert parts[0] + "" == parts[0]; }
        [parts[0]] + parts[1..];
        { HeadTail(parts); }
        parts;
      }
    }
  }

  lemma HeadTail<T>(s: seq<T>)
    requires |s| > 0
    ensures [s[0]] + s[1..] == s
  {
  }

  lemma SplitAtSeparator(tail: string, c: char)
    ensures Split([c] + tail, [c]) == [""] + Split(tail, [c])
  {
    var t := [c] + tail;
    assert t[..1] == [c] && t[1..] == tail;
  }

  /** `a < b` on Python strings: lexicographic order of code points, a proper
      prefix coming first. */
  predicate StrLess(a: string, b: string)
    decreases |a|
  {
    if |a| == 0 then |b| > 0
    else if |b| == 0 then false
    else if a[0] != b[0] then a[0] < b[0]
    else StrLess(a[1..], b[1..])
  }

  /** The string order is a strict total order: exactly one of `a < b`,
      `a == b`, `b < a` holds. */
  lemma {:induction false} StrLessTrichotomy(a: string, b: string)
    ensures StrLess(a, b) || a == b || StrLess(b, a)
    ensures !(StrLess(a, b) && StrLess(b, a))
    decreases |a|
  {
    if |a| == 0 || |b| == 0 {
    } else if a[0] != b[0] {
    } else {
      StrLessTrichotomy(a[1..], b[1..]);
      if a[1..] == b[1..] {
        assert a == [a[0]] + a[1..] && b == [b[0]] + b[1..];
      }
    }
  }

  lemma {:induction false} StrLessIrreflexive(a: string)
    ensures !StrLess(a, a)
    decreases |a|
  {
    if |a| > 0 {
      StrLessIrreflexive(a[1..]);
    }
  }

  /** The string order is transitive. */
  lemma {:induction false} StrLessTransitive(a: string, b: string, c: string)
    requires StrLess(a, b) && StrLess(b, c)
    ensures StrLess(a, c)
    decreases |a|
  {
    if |a| > 0 && a[0] == b[0] && b[0] == c[0] {
      StrLessTransitive(a[1..], b[1..], c[1..]);
    }
  }
}
