/** Python string behaviour the pipeline relies on: `str()` of integers,
    `int()` of decimal text, `str.split`/`'_'.join`, `startswith`, `strip`,
    `os.path.basename` and `sorted()` on strings (code-point order). */
module Text {

  /** The text of a decimal digit. */
  function DigitChar(d: nat): (c: char)
    requires d < 10
    ensures '0' <= c <= '9'
  {
    ((('0' as int) + d) as char)
  }

  predicate IsDigit(c: char) { '0' <= c <= '9' }

  predicate AllDigits(s: string) { forall i :: 0 <= i < |s| ==> IsDigit(s[i]) }

  /** Python's `str(n)` for a non-negative integer. */
  function NatToString(n: nat): (s: string)
    ensures |s| > 0 && AllDigits(s)
  {
    if n < 10 then [DigitChar(n)] else NatToString(n / 10) + [DigitChar(n % 10)]
  }

  /** The value of a string of decimal digits. */
  function DigitsValue(s: string): nat
    requires AllDigits(s)
  {
    if |s| == 0 then 0
    else DigitsValue(s[..|s| - 1]) * 10 + ((s[|s| - 1] as int) - ('0' as int))
  }

  /** `int(str(n)) == n`: the printed form of a number reads back as that number. */
  lemma {:induction false} NatToStringRoundTrip(n: nat)
    ensures DigitsValue(NatToString(n)) == n
  {
    if n >= 10 {
      var s := NatToString(n);
      assert s[..|s| - 1] == NatToString(n / 10);
      NatToStringRoundTrip(n / 10);
    }
  }

  /** Different numbers print differently. */
  lemma NatToStringInjective(a: nat, b: nat)
    requires NatToString(a) == NatToString(b)
    ensures a == b
  {
    NatToStringRoundTrip(a);
    NatToStringRoundTrip(b);
  }

  /** Python's `str(i)` for any integer. */
  function IntToString(i: int): (s: string)
    ensures |s| > 0
  {
    if i < 0 then "-" + NatToString(-i) else NatToString(i)
  }

  /** `str(i)` is made of digits and at most a leading minus sign. */
  lemma IntToStringChars(i: int)
    ensures forall k :: 0 <= k < |IntToString(i)| ==> IntToString(i)[k] == '-' || IsDigit(IntToString(i)[k])
  {
    var d := NatToString(if i < 0 then -i else i);
    assert AllDigits(d);
  }

  /** Python's `int(s)` on an optionally signed string of decimal digits;
      `None` stands for the `ValueError` Python raises on other text. */
  function ParseInt(s: string): (r: Option<int>)
    ensures r.Some? ==> |s| > 0
  {
    if |s| > 0 && (s[0] == '-' || s[0] == '+') then
      var body := s[1..];
      if |body| > 0 && AllDigits(body) then
        var v: int := DigitsValue(body);
        Some(if s[0] == '-' then -v else v)
      else None
    else if |s| > 0 && AllDigits(s) then Some(DigitsValue(s))
    else None
  }

  /** `int(str(i)) == i` for every integer. */
  lemma IntToStringRoundTrip(i: int)
    ensures ParseInt(IntToString(i)) == Some(i)
  {
    var n: nat := if i < 0 then -i else i;
    var d := NatToString(n);
    assert DigitsValue(d) == n by {
      NatToStringRoundTrip(n);
    }
    if i < 0 {
      assert IntToString(i) == "-" + d;
      assert ("-" + d)[0] == '-' && ("-" + d)[1..] == d;
    } else {
      assert IntToString(i) == d && IsDigit(d[0]);
    }
  }

  datatype Option<+T> = None | Some(value: T)

  /** Python's `s.split(sep)` for a one-character separator: always at least
      one part, empty parts kept. */
  function Split(s: string, sep: char): (parts: seq<string>)
    ensures |parts| >= 1
  {
    if |s| == 0 then [""]
    else
      var rest := Split(s[1..], sep);
      if s[0] == sep then [""] + rest
      else [[s[0]] + rest[0]] + rest[1..]
  }

  /** Python's `sep.join(parts)`. */
  function Join(parts: seq<string>, sep: char): string
  {
    if |parts| == 0 then ""
    else if |parts| == 1 then parts[0]
    else parts[0] + [sep] + Join(parts[1..], sep)
  }

  /** Every part is free of the separator. */
  predicate NoSep(parts: seq<string>, sep: char)
  {
    forall i :: 0 <= i < |parts| ==> sep !in parts[i]
  }

  lemma {:induction false} SplitNoSep(s: string, sep: char)
    requires sep !in s
    ensures Split(s, sep) == [s]
  {
    if |s| > 0 {
      assert sep !in s[1..];
      SplitNoSep(s[1..], sep);
      assert [s[0]] + s[1..] == s;
    }
  }

  lemma {:induction false} SplitAfter(a: string, sep: char, b: string)
    requires sep !in a
    ensures Split(a + [sep] + b, sep) == [a] + Split(b, sep)
  {
    if |a| == 0 {
      assert a + [sep] + b == [sep] + b;
      assert ([sep] + b)[1..] == b;
    } else {
      assert (a + [sep] + b)[1..] == a[1..] + [sep] + b;
      assert sep !in a[1..];
      SplitAfter(a[1..], sep, b);
      assert [a[0]] + a[1..] == a;
    }
  }

  /** Splitting a join gives the parts back, when no part holds the separator. */
  lemma {:induction false} SplitJoin(parts: seq<string>, sep: char)
    requires |parts| > 0 && NoSep(parts, sep)
    ensures Split(Join(parts, sep), sep) == parts
  {
    if |parts| == 1 {
      SplitNoSep(parts[0], sep);
    } else {
      SplitJoin(parts[1..], sep);
      SplitAfter(parts[0], sep, Join(parts[1..], sep));
    }
  }

  /** Joining the parts of a split gives the text back. */
  lemma {:induction false} JoinSplit(s: string, sep: char)
    ensures Join(Split(s, sep), sep) == s
  {
    if |s| > 0 {
      JoinSplit(s[1..], sep);
      var rest := Split(s[1..], sep);
      if s[0] == sep {
        assert Join([""] + rest, sep) == "" + [sep] + Join(rest, sep);
        assert s == [s[0]] + s[1..];
      } else {
        var r := [[s[0]] + rest[0]] + rest[1..];
        if |rest| == 1 {
          assert s == [s[0]] + s[1..];
        } else {
          assert r[1..] == rest[1..];
          assert Join(rest, sep) == rest[0] + [sep] + Join(rest[1..], sep);
          assert s == [s[0]] + s[1..];
        }
      }
    }
  }

  /** A `'_'`-joined name determines its fields, so two names built from
      separator-free fields of the same count coincide only if every field does. */
  lemma JoinInjective(a: seq<string>, b: seq<string>, sep: char)
    requires |a| > 0 && |b| > 0 && NoSep(a, sep) && NoSep(b, sep)
    requires Join(a, sep) == Join(b, sep)
    ensures a == b
  {
    SplitJoin(a, sep);
    SplitJoin(b, sep);
  }

  /** Joining splits at any inner position. */
  lemma {:induction false} JoinAt(parts: seq<string>, sep: char, k: nat)
    requires 0 < k < |parts|
    ensures Join(parts, sep) == Join(parts[..k], sep) + [sep] + Join(parts[k..], sep)
    decreases k
  {
    if k == 1 {
      assert parts[..1] == [parts[0]];
    } else {
      JoinAt(parts[1..], sep, k - 1);
      assert parts[1..][..k - 1] == parts[..k][1..];
      assert parts[1..][k - 1..] == parts[k..];
    }
  }

  /** Joining two non-empty lists of parts joins their joins. */
  lemma JoinAppend(x: seq<string>, y: seq<string>, sep: char)
    requires |x| > 0 && |y| > 0
    ensures Join(x + y, sep) == Join(x, sep) + [sep] + Join(y, sep)
  {
    JoinAt(x + y, sep, |x|);
    assert (x + y)[..|x|] == x && (x + y)[|x|..] == y;
  }

  /** Lists whose tails join to the same text join to the same text after a common head. */
  lemma JoinSameTail(a: seq<string>, t: seq<string>, u: seq<string>, sep: char)
    requires |a| > 0 && |t| > 0 && |u| > 0 && Join(t, sep) == Join(u, sep)
    ensures Join(a + t, sep) == Join(a + u, sep)
  {
    JoinAppend(a, t, sep);
    JoinAppend(a, u, sep);
  }

  lemma ConcatAssoc<T>(a: seq<T>, b: seq<T>, c: seq<T>)
    ensures a + b + c == a + (b + c)
  {
  }

  /** A part that is itself a join of parts can be spliced into the list. */
  lemma JoinFlatten(a: seq<string>, b: seq<string>, c: seq<string>, sep: char)
    requires |a| > 0 && |b| > 0 && |c| > 0
    ensures Join(a + [Join(b, sep)] + c, sep) == Join(a + b + c, sep)
  {
    var t, u := [Join(b, sep)] + c, b + c;
    ConcatAssoc(a, [Join(b, sep)], c);
    ConcatAssoc(a, b, c);
    JoinAppend([Join(b, sep)], c, sep);
    JoinAppend(b, c, sep);
    JoinSameTail(a, t, u, sep);
  }

  lemma {:induction false} JoinNoSep(parts: seq<string>, sep: char, other: char)
    requires other != sep && NoSep(parts, other)
    ensures other !in Join(parts, sep)
  {
    if |parts| > 1 {
      JoinNoSep(parts[1..], sep, other);
    }
  }

  /** Python's list slice `xs[i:j]` for non-negative bounds (clamped to the length). */
  function Slice<T>(xs: seq<T>, i: nat, j: nat): seq<T>
  {
    var hi := if j < |xs| then j else |xs|;
    var lo := if i < hi then i else hi;
    xs[lo..hi]
  }

  /** Python's list slice `xs[i:]`. */
  function From<T>(xs: seq<T>, i: nat): seq<T>
  {
    if i < |xs| then xs[i..] else []
  }

  predicate StartsWith(s: string, prefix: string)
  {
    |prefix| <= |s| && s[..|prefix|] == prefix
  }

  /** Python's `sub in s` (also `re.search` with a pattern free of metacharacters). */
  predicate Contains(s: string, sub: string)
    decreases |s|
  {
    StartsWith(s, sub) || (|s| > 0 && Contains(s[1..], sub))
  }

  /** The characters `str.strip()` removes, restricted to ASCII. */
  predicate IsSpace(c: char)
  {
    c == ' ' || c == '\t' || c == '\n' || c == '\r' || c == '\U{0B}' || c == '\U{0C}'
    || c == '\U{1C}' || c == '\U{1D}' || c == '\U{1E}' || c == '\U{1F}'
  }

  function LStrip(s: string): (r: string)
    ensures |r| <= |s|
  {
    if |s| > 0 && IsSpace(s[0]) then LStrip(s[1..]) else s
  }

  function RStrip(s: string): string
  {
    if |s| > 0 && IsSpace(s[|s| - 1]) then RStrip(s[..|s| - 1]) else s
  }

  /** Python's `s.strip()`. */
  function Strip(s: string): string
  {
    RStrip(LStrip(s))
  }

  lemma {:induction false} LStripIsSuffix(s: string)
    ensures var t := LStrip(s);
            |t| <= |s| && t == s[|s| - |t|..]
            && (|t| > 0 ==> !IsSpace(t[0]))
            && forall i :: 0 <= i < |s| - |t| ==> IsSpace(s[i])
  {
    if |s| > 0 && IsSpace(s[0]) {
      LStripIsSuffix(s[1..]);
      var t := LStrip(s);
      forall i | 0 <= i < |s| - |t| ensures IsSpace(s[i]) {
        if i > 0 { assert s[i] == s[1..][i - 1]; }
      }
    }
  }

  lemma {:induction false} RStripIsPrefix(s: string)
    ensures var t := RStrip(s);
            |t| <= |s| && t == s[..|t|]
            && (|t| > 0 ==> !IsSpace(t[|t| - 1]))
            && forall i :: |t| <= i < |s| ==> IsSpace(s[i])
  {
    if |s| > 0 && IsSpace(s[|s| - 1]) {
      RStripIsPrefix(s[..|s| - 1]);
    }
  }

  /** `strip()` removes only whitespace, from both ends, and leaves none there. */
  lemma StripSpec(s: string)
    ensures var t, lo := Strip(s), |s| - |LStrip(s)|;
            lo + |t| <= |s| && t == s[lo..lo + |t|]
              && (forall i :: 0 <= i < lo ==> IsSpace(s[i]))
              && (forall i :: lo + |t| <= i < |s| ==> IsSpace(s[i]))
    ensures var t := Strip(s); |t| > 0 ==> !IsSpace(t[0]) && !IsSpace(t[|t| - 1])
  {
    var l := LStrip(s);
    LStripIsSuffix(s);
    RStripIsPrefix(l);
    var t := RStrip(l);
    var lo := |s| - |l|;
    assert t == s[lo..lo + |t|];
    forall i | lo + |t| <= i < |s| ensures IsSpace(s[i]) {
      assert s[i] == l[i - lo];
    }
  }

  /** Python's `s.replace(c, '')` for a single character. */
  function RemoveChar(s: string, c: char): string
  {
    if |s| == 0 then ""
    else (if s[0] == c then "" else [s[0]]) + RemoveChar(s[1..], c)
  }

  /** `replace` leaves no `c`, keeps every other character, and changes
      nothing in a text without `c`. */
  lemma {:induction false} RemoveCharSpec(s: string, c: char)
    ensures c !in RemoveChar(s, c)
    ensures forall x :: x in RemoveChar(s, c) ==> x in s
    ensures c !in s ==> RemoveChar(s, c) == s
  {
    if |s| > 0 {
      RemoveCharSpec(s[1..], c);
      assert [s[0]] + s[1..] == s;
    }
  }

  /** `os.path.basename`: the text after the last `'/'`. */
  function Basename(p: string): (b: string)
    ensures |b| <= |p|
  {
    if |p| == 0 || p[|p| - 1] == '/' then ""
    else
      var b' := Basename(p[..|p| - 1]);
      b' + [p[|p| - 1]]
  }

  /** The base name holds no '/', ends the path, and is all of it or follows
      a '/'. */
  lemma {:induction false} BasenameSpec(p: string)
    ensures var b := Basename(p);
            '/' !in b && b == p[|p| - |b|..] && (|b| < |p| ==> p[|p| - |b| - 1] == '/')
  {
    if |p| > 0 && p[|p| - 1] != '/' {
      var q := p[..|p| - 1];
      BasenameSpec(q);
      var b := Basename(q);
      assert p[|p| - |b| - 1..] == q[|q| - |b|..] + [p[|p| - 1]];
    }
  }

  /** Python's `a < b` on strings: lexicographic by code point. */
  predicate Less(a: string, b: string)
  {
    if |a| == 0 then |b| > 0
    else |b| > 0 && (a[0] < b[0] || (a[0] == b[0] && Less(a[1..], b[1..])))
  }

  predicate LessEq(a: string, b: string) { a == b || Less(a, b) }

  lemma {:induction false} LessIrreflexive(a: string)
    ensures !Less(a, a)
  {
    if |a| > 0 { LessIrreflexive(a[1..]); }
  }

  lemma {:induction false} LessTotal(a: string, b: string)
    ensures a == b || Less(a, b) || Less(b, a)
  {
    if |a| > 0 && |b| > 0 && a[0] == b[0] {
      LessTotal(a[1..], b[1..]);
      if a[1..] == b[1..] {
        assert a == [a[0]] + a[1..] && b == [b[0]] + b[1..];
      }
    }
  }

  lemma {:induction false} LessAsymmetric(a: string, b: string)
    requires Less(a, b)
    ensures !Less(b, a)
  {
    if |a| > 0 && a[0] == b[0] { LessAsymmetric(a[1..], b[1..]); }
  }

  lemma {:induction false} LessTransitive(a: string, b: string, c: string)
    requires Less(a, b) && Less(b, c)
    ensures Less(a, c)
  {
    if |a| > 0 && a[0] == b[0] && b[0] == c[0] {
      LessTransitive(a[1..], b[1..], c[1..]);
    }
  }

  /** `xs` is non-decreasing: every element is at most each one after it. */
  predicate Sorted(xs: seq<string>)
  {
    forall i, j :: 0 <= i < j < |xs| ==> LessEq(xs[i], xs[j])
  }

  /** `x` goes before the first element that is not smaller than it. */
  function Insert(x: string, xs: seq<string>): seq<string>
  {
    if |xs| == 0 then [x]
    else if !Less(xs[0], x) then [x] + xs
    else [xs[0]] + Insert(x, xs[1..])
  }

  /** Python's `sorted()` on a list of strings (insertion sort; the result is
      unique, see `SortedUnique`). */
  function Sort(xs: seq<string>): seq<string>
  {
    if |xs| == 0 then [] else Insert(xs[0], Sort(xs[1..]))
  }

  lemma InsertSpec(x: string, xs: seq<string>)
    requires Sorted(xs)
    ensures Sorted(Insert(x, xs))
    ensures multiset(Insert(x, xs)) == multiset(xs) + multiset{x}
  {
    InsertSorted(x, xs);
    InsertMultiset(x, xs);
  }

  lemma {:induction false} InsertMultiset(x: string, xs: seq<string>)
    ensures multiset(Insert(x, xs)) == multiset(xs) + multiset{x}
  {
    if |xs| > 0 && Less(xs[0], x) {
      InsertMultiset(x, xs[1..]);
      assert xs == [xs[0]] + xs[1..];
    }
  }

  /** A lower bound of `x` and of all of `xs` bounds all of `Insert(x, xs)`. */
  lemma {:induction false} InsertLowerBound(lo: string, x: string, xs: seq<string>)
    requires LessEq(lo, x) && forall i :: 0 <= i < |xs| ==> LessEq(lo, xs[i])
    ensures forall i :: 0 <= i < |Insert(x, xs)| ==> LessEq(lo, Insert(x, xs)[i])
  {
    if |xs| > 0 && Less(xs[0], x) {
      InsertLowerBound(lo, x, xs[1..]);
    }
  }

  lemma {:induction false} InsertSorted(x: string, xs: seq<string>)
    requires Sorted(xs)
    ensures Sorted(Insert(x, xs))
  {
    if |xs| > 0 {
      if !Less(xs[0], x) {
        LessTotal(x, xs[0]);
        var r := [x] + xs;
        forall i, j | 0 <= i < j < |r| ensures LessEq(r[i], r[j]) {
          if i == 0 && j > 1 {
            assert LessEq(xs[0], xs[j - 1]);
            if x != xs[0] && xs[0] != xs[j - 1] { LessTransitive(x, xs[0], xs[j - 1]); }
          }
        }
      } else {
        SortedTail(xs);
        InsertSorted(x, xs[1..]);
        LessTotal(x, xs[0]);
        forall i | 0 <= i < |xs[1..]| ensures LessEq(xs[0], xs[1..][i]) {
          assert xs[1..][i] == xs[i + 1];
        }
        InsertLowerBound(xs[0], x, xs[1..]);
        var t := Insert(x, xs[1..]);
        var r := [xs[0]] + t;
        forall i, j | 0 <= i < j < |r| ensures LessEq(r[i], r[j]) {
          if i > 0 { assert LessEq(t[i - 1], t[j - 1]); } else { assert LessEq(xs[0], t[j - 1]); }
        }
      }
    }
  }

  /** `sorted()` returns its input in non-decreasing order, with the same elements. */
  lemma {:induction false} SortSpec(xs: seq<string>)
    ensures Sorted(Sort(xs))
    ensures multiset(Sort(xs)) == multiset(xs)
  {
    if |xs| > 0 {
      SortSpec(xs[1..]);
      InsertSpec(xs[0], Sort(xs[1..]));
      assert xs == [xs[0]] + xs[1..];
    }
  }

  lemma SortedHeadLeast(a: seq<string>, y: string)
    requires Sorted(a) && y in a
    ensures LessEq(a[0], y)
  {
    var k :| 0 <= k < |a| && a[k] == y;
    if k > 0 { assert LessEq(a[0], a[k]); }
  }

  lemma SortedTail(a: seq<string>)
    requires Sorted(a) && |a| > 0
    ensures Sorted(a[1..])
  {
    forall i, j | 0 <= i < j < |a[1..]| ensures LessEq(a[1..][i], a[1..][j]) {
      assert a[1..][i] == a[i + 1] && a[1..][j] == a[j + 1];
    }
  }

  lemma MultisetTail(a: seq<string>, b: seq<string>)
    requires |a| > 0 && |b| > 0 && a[0] == b[0] && multiset(a) == multiset(b)
    ensures multiset(a[1..]) == multiset(b[1..])
  {
    assert a == [a[0]] + a[1..];
    assert b == [b[0]] + b[1..];
    assert multiset(a) == multiset{a[0]} + multiset(a[1..]);
    assert multiset(b) == multiset{a[0]} + multiset(b[1..]);
    assert multiset(a[1..]) == multiset(a) - multiset{a[0]};
    assert multiset(b[1..]) == multiset(b) - multiset{a[0]};
  }

  /** There is only one sorted arrangement of a multiset of strings. */
  lemma {:induction false} SortedUnique(a: seq<string>, b: seq<string>)
    requires Sorted(a) && Sorted(b) && multiset(a) == multiset(b)
    ensures a == b
    decreases |a|
  {
    assert |a| == |multiset(a)| == |multiset(b)| == |b|;
    if |a| > 0 {
      assert a[0] in multiset(b) && b[0] in multiset(a);
      SortedHeadLeast(a, b[0]);
      SortedHeadLeast(b, a[0]);
      if a[0] != b[0] { LessAsymmetric(a[0], b[0]); }
      MultisetTail(a, b);
      SortedTail(a);
      SortedTail(b);
      SortedUnique(a[1..], b[1..]);
      assert a == [a[0]] + a[1..] && b == [b[0]] + b[1..];
    }
  }

  /** The texts one after another. */
  function Concat(ls: seq<string>): string
  {
    if |ls| == 0 then "" else ls[0] + Concat(ls[1..])
  }

  /** `file.readlines()`: the lines of a text, each ended by its '\n' except
      possibly the last. */
  function ReadLines(t: string): (ls: seq<string>)
    ensures |t| == 0 <==> |ls| == 0
  {
    if |t| == 0 then []
    else
      var rest := ReadLines(t[1..]);
      if t[0] == '\n' then ["\n"] + rest
      else if |rest| == 0 then [[t[0]]]
      else [[t[0]] + rest[0]] + rest[1..]
  }

  /** A line holds a '\n' only as its last character. */
  predicate LineShaped(l: string)
  {
    |l| > 0 && forall i :: 0 <= i < |l| - 1 ==> l[i] != '\n'
  }

  /** The lines put back together are the text, every line is non-empty with
      its '\n' (if any) at the end, and every line but the last has one. */
  lemma {:induction false} ReadLinesSpec(t: string)
    ensures var ls := ReadLines(t);
            Concat(ls) == t && (forall i :: 0 <= i < |ls| ==> LineShaped(ls[i])) &&
            (forall i :: 0 <= i < |ls| - 1 ==> ls[i][|ls[i]| - 1] == '\n')
  {
    if |t| > 0 {
      ReadLinesSpec(t[1..]);
      var rest := ReadLines(t[1..]);
      var ls := ReadLines(t);
      if t[0] == '\n' {
        assert ls == ["\n"] + rest;
        assert ls[1..] == rest;
        assert t == "\n" + t[1..];
      } else if |rest| == 0 {
        assert t[1..] == "";
      } else {
        var first := [t[0]] + rest[0];
        assert ls == [first] + rest[1..];
        assert Concat(rest) == rest[0] + Concat(rest[1..]);
        assert ls[1..] == rest[1..];
        assert t == [t[0]] + t[1..];
        forall i | 0 <= i < |ls| ensures LineShaped(ls[i]) {
          if i > 0 {
            assert ls[i] == rest[i];
          } else {
            forall j | 0 <= j < |first| - 1 ensures first[j] != '\n' {
              if j > 0 {
                assert first[j] == rest[0][j - 1];
              }
            }
          }
        }
        forall i | 0 <= i < |ls| - 1 ensures ls[i][|ls[i]| - 1] == '\n' {
          if i > 0 {
            assert ls[i] == rest[i];
          } else {
            assert ls[0][|ls[0]| - 1] == rest[0][|rest[0]| - 1];
          }
        }
      }
    }
  }

  /** A path with no whitespace at either end comes back from `strip()` of its
      line unchanged. */
  lemma StripLine(s: string)
    requires |s| > 0 && !IsSpace(s[0]) && !IsSpace(s[|s| - 1])
    ensures Strip(s + "\n") == s
  {
    var t := s + "\n";
    assert LStrip(t) == t;
    assert t[..|t| - 1] == s;
    assert RStrip(t) == RStrip(s);
    assert RStrip(s) == s;
  }
}
