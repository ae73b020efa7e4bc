/** Python's `glob.glob` as the pipeline uses it: a pattern is split at `'/'`
    into components, `*` matches any run of characters inside one component
    (so a non-recursive `**` acts as `*`), and `sorted(glob(p))` orders the
    matches by code point. */
module Glob {
  import opened Text

  /** `fnmatch` of one path component, with `*` as the only metacharacter. */
  predicate FnMatch(p: string, s: string)
    decreases |p| + |s|
  {
    if |p| == 0 then |s| == 0
    else if p[0] == '*' then FnMatch(p[1..], s) || (|s| > 0 && FnMatch(p, s[1..]))
    else |s| > 0 && s[0] == p[0] && FnMatch(p[1..], s[1..])
  }

  /** `path` is listed by `glob.glob(pattern)`: as many components, each matched. */
  predicate GlobMatch(pattern: string, path: string)
  {
    var pc, sc := Split(pattern, '/'), Split(path, '/');
    |pc| == |sc| && forall i :: 0 <= i < |pc| ==> FnMatch(pc[i], sc[i])
  }

  /** The existing paths the pattern lists, in listing order. */
  function Filter(pattern: string, existing: seq<string>): seq<string>
  {
    if |existing| == 0 then []
    else (if GlobMatch(pattern, existing[0]) then [existing[0]] else []) + Filter(pattern, existing[1..])
  }

  /** The paths listed are exactly the existing paths the pattern matches. */
  lemma {:induction false} FilterSpec(pattern: string, existing: seq<string>)
    ensures forall x :: x in Filter(pattern, existing) <==> x in existing && GlobMatch(pattern, x)
  {
    if |existing| > 0 {
      FilterSpec(pattern, existing[1..]);
      assert existing == [existing[0]] + existing[1..];
    }
  }

  /** `sorted(glob(pattern))` over the paths that exist. */
  function SortedGlob(pattern: string, existing: seq<string>): seq<string>
  {
    Sort(Filter(pattern, existing))
  }

  /** What `sorted(glob(pattern))` returns: exactly the matching paths, in order. */
  lemma SortedGlobSpec(pattern: string, existing: seq<string>)
    ensures var r := SortedGlob(pattern, existing);
            Sorted(r) && (forall x :: x in r <==> x in existing && GlobMatch(pattern, x))
  {
    SortSpec(Filter(pattern, existing));
    FilterSpec(pattern, existing);
    var f := Filter(pattern, existing);
    forall x ensures x in Sort(f) <==> x in f {
      assert x in Sort(f) <==> x in multiset(Sort(f));
    }
  }

  /** A pattern that matches none of the paths lists nothing. */
  lemma {:induction false} SortedGlobNone(pattern: string, existing: seq<string>)
    requires forall x :: x in existing ==> !GlobMatch(pattern, x)
    ensures SortedGlob(pattern, existing) == []
  {
    FilterNone(pattern, existing);
  }

  lemma {:induction false} FilterNone(pattern: string, existing: seq<string>)
    requires forall x :: x in existing ==> !GlobMatch(pattern, x)
    ensures Filter(pattern, existing) == []
  {
    if |existing| > 0 {
      assert existing[0] in existing;
      assert forall x :: x in existing[1..] ==> x in existing;
      FilterNone(pattern, existing[1..]);
    }
  }

  /** A pattern without `*` matches exactly itself. */
  lemma {:induction false} FnMatchLiteral(l: string, s: string)
    requires '*' !in l
    ensures FnMatch(l, s) <==> s == l
  {
    if |l| > 0 {
      assert '*' !in l[1..];
      if |s| > 0 {
        FnMatchLiteral(l[1..], s[1..]);
        assert s == [s[0]] + s[1..] && l == [l[0]] + l[1..];
      }
    }
  }

  /** A literal head of a pattern must be a prefix of the matched text. */
  lemma {:induction false} FnMatchLiteralHead(l: string, p: string, s: string)
    requires '*' !in l
    ensures FnMatch(l + p, s) <==> StartsWith(s, l) && FnMatch(p, s[|l|..])
  {
    if |l| > 0 {
      assert (l + p)[0] == l[0] && (l + p)[1..] == l[1..] + p;
      assert '*' !in l[1..];
      if |s| > 0 {
        FnMatchLiteralHead(l[1..], p, s[1..]);
        if StartsWith(s[1..], l[1..]) && s[0] == l[0] {
          assert s[..|l|] == [s[0]] + s[1..][..|l[1..]|];
          assert l == [l[0]] + l[1..];
          assert s[|l|..] == s[1..][|l[1..]|..];
        }
        if StartsWith(s, l) {
          assert s[1..][..|l[1..]|] == s[..|l|][1..];
          assert s[1..][|l[1..]|..] == s[|l|..];
        }
      }
    } else {
      assert l + p == p;
    }
  }

  /** `*` followed by a pattern matches any text ending in a match of that pattern. */
  lemma {:induction false} FnMatchStar(p: string, m: string, s: string)
    requires FnMatch(p, s)
    ensures FnMatch("*" + p, m + s)
    decreases |m|
  {
    var sp := "*" + p;
    assert sp[0] == '*' && sp[1..] == p;
    if |m| == 0 {
      assert m + s == s;
    } else {
      FnMatchStar(p, m[1..], s);
      assert (m + s)[1..] == m[1..] + s;
    }
  }

  /** Matching is compositional over concatenated patterns. */
  lemma {:induction false} FnMatchConcat(p: string, q: string, s: string, t: string)
    requires FnMatch(p, s) && FnMatch(q, t)
    ensures FnMatch(p + q, s + t)
    decreases |p| + |s|
  {
    if |p| == 0 {
      assert p + q == q && s + t == t;
    } else if p[0] == '*' {
      assert (p + q)[0] == '*' && (p + q)[1..] == p[1..] + q;
      if FnMatch(p[1..], s) {
        FnMatchConcat(p[1..], q, s, t);
      } else {
        FnMatchConcat(p, q, s[1..], t);
        assert (s + t)[1..] == s[1..] + t;
      }
    } else {
      assert (p + q)[0] == p[0] && (p + q)[1..] == p[1..] + q;
      assert (s + t)[0] == s[0] && (s + t)[1..] == s[1..] + t;
      FnMatchConcat(p[1..], q, s[1..], t);
    }
  }

  lemma FnMatchSelf(s: string)
    requires '*' !in s
    ensures FnMatch(s, s)
  {
    FnMatchLiteral(s, s);
  }

  /** Splitting at a separator between two texts splits each of them. */
  lemma {:induction false} SplitAround(a: string, sep: char, b: string)
    ensures Split(a + [sep] + b, sep) == Split(a, sep) + Split(b, sep)
  {
    if |a| == 0 {
      assert a + [sep] + b == [sep] + b;
      assert ([sep] + b)[1..] == b;
    } else {
      var s := a + [sep] + b;
      assert s[0] == a[0] && s[1..] == a[1..] + [sep] + b;
      SplitAround(a[1..], sep, b);
      var p, q := Split(a[1..], sep), Split(b, sep);
      assert Split(s[1..], sep) == p + q;
      if a[0] != sep {
        assert (p + q)[0] == p[0] && (p + q)[1..] == p[1..] + q;
      }
    }
  }

  /** The last `'/'`-component of a path is its basename. */
  lemma LastComponentIsBasename(s: string)
    ensures var c := Split(s, '/'); c[|c| - 1] == Basename(s)
  {
    LastComponentIsTail(s);
    var c := Split(s, '/');
    BasenameSpec(s);
    TailUnique(s, c[|c| - 1], Basename(s));
  }

  /** Suffix of `s` free of `'/'` that is all of `s` or follows a `'/'`. */
  predicate IsTail(s: string, b: string)
  {
    '/' !in b && |b| <= |s| && b == s[|s| - |b|..] && (|b| < |s| ==> s[|s| - |b| - 1] == '/')
  }

  lemma {:induction false} LastComponentIsTail(s: string)
    ensures var c := Split(s, '/'); IsTail(s, c[|c| - 1])
  {
    if |s| > 0 {
      var t := s[1..];
      LastComponentIsTail(t);
      var rest := Split(t, '/');
      if s[0] == '/' {
        LastComponentAfterSlash(s);
      } else if |rest| == 1 {
        LastComponentOfWord(s);
      } else {
        LastComponentAfterWord(s);
      }
    }
  }

  lemma LastComponentAfterSlash(s: string)
    requires |s| > 0 && s[0] == '/'
    requires var rest := Split(s[1..], '/'); IsTail(s[1..], rest[|rest| - 1])
    ensures var c := Split(s, '/'); IsTail(s, c[|c| - 1])
  {
    var rest := Split(s[1..], '/');
    var b := rest[|rest| - 1];
    TailCons(s, b);
    SplitAtSep(s);
    var c := Split(s, '/');
    assert c[|c| - 1] == b;
  }

  /** A leading '/' splits off an empty first component. */
  lemma SplitAtSep(s: string)
    requires |s| > 0 && s[0] == '/'
    ensures Split(s, '/') == [""] + Split(s[1..], '/')
  {
  }

  lemma LastComponentOfWord(s: string)
    requires |s| > 0 && s[0] != '/' && |Split(s[1..], '/')| == 1
    ensures var c := Split(s, '/'); IsTail(s, c[|c| - 1])
  {
    NoSlashWhenOnePart(s[1..]);
    assert '/' !in s;
    SplitNoSep(s, '/');
  }

  lemma LastComponentAfterWord(s: string)
    requires |s| > 0 && s[0] != '/'
    requires var rest := Split(s[1..], '/'); |rest| > 1 && IsTail(s[1..], rest[|rest| - 1])
    ensures var c := Split(s, '/'); IsTail(s, c[|c| - 1])
  {
    var t := s[1..];
    var rest := Split(t, '/');
    var lr := rest[|rest| - 1];
    if |lr| == |t| {
      assert lr == t;
      SplitNoSep(t, '/');
    }
    TailCons(s, lr);
    assert Split(s, '/')[|Split(s, '/')| - 1] == lr;
  }

  lemma TailCons(s: string, b: string)
    requires |s| > 0 && IsTail(s[1..], b) && (|b| < |s| - 1 || s[0] == '/')
    ensures IsTail(s, b)
  {
    assert s[|s| - |b|..] == s[1..][|s[1..]| - |b|..];
  }

  lemma TailUnique(s: string, b1: string, b2: string)
    requires IsTail(s, b1) && IsTail(s, b2)
    ensures b1 == b2
  {
  }

  lemma {:induction false} NoSlashWhenOnePart(s: string)
    requires |Split(s, '/')| == 1
    ensures '/' !in s
  {
    if |s| > 0 {
      NoSlashWhenOnePart(s[1..]);
      assert s == [s[0]] + s[1..];
    }
  }

  /** A path `dir/name` is listed by `dirpattern/namepattern` whenever the
      directory is listed by the directory pattern and the name matches. */
  lemma GlobMatchJoin(dirPat: string, namePat: string, dir: string, name: string)
    requires GlobMatch(dirPat, dir)
    requires '/' !in namePat && '/' !in name && FnMatch(namePat, name)
    ensures GlobMatch(dirPat + "/" + namePat, dir + "/" + name)
  {
    assert dirPat + "/" + namePat == dirPat + ['/'] + namePat;
    assert dir + "/" + name == dir + ['/'] + name;
    SplitAround(dirPat, '/', namePat);
    SplitAround(dir, '/', name);
    SplitNoSep(namePat, '/');
    SplitNoSep(name, '/');
    var pc, sc := Split(dirPat + "/" + namePat, '/'), Split(dir + "/" + name, '/');
    forall i | 0 <= i < |pc| ensures FnMatch(pc[i], sc[i]) {
      if i < |pc| - 1 {
        assert pc[i] == Split(dirPat, '/')[i] && sc[i] == Split(dir, '/')[i];
      }
    }
  }

  /** A pattern free of `*` lists exactly its own text. */
  lemma GlobMatchLiteral(pat: string, path: string)
    requires '*' !in pat
    ensures GlobMatch(pat, path) <==> path == pat
  {
    var pc, sc := Split(pat, '/'), Split(path, '/');
    if path == pat {
      forall i | 0 <= i < |pc| ensures FnMatch(pc[i], sc[i]) {
        NoStarInParts(pat, i);
        FnMatchSelf(pc[i]);
      }
    }
    if GlobMatch(pat, path) {
      forall i | 0 <= i < |pc| ensures pc[i] == sc[i] {
        NoStarInParts(pat, i);
        FnMatchLiteral(pc[i], sc[i]);
      }
      assert pc == sc;
      JoinSplit(pat, '/');
      JoinSplit(path, '/');
    }
  }

  lemma {:induction false} NoStarInParts(s: string, i: nat)
    requires '*' !in s && i < |Split(s, '/')|
    ensures '*' !in Split(s, '/')[i]
  {
    if |s| > 0 {
      assert '*' !in s[1..];
      var rest := Split(s[1..], '/');
      if s[0] == '/' {
        if i > 0 { NoStarInParts(s[1..], i - 1); }
      } else {
        if i == 0 { NoStarInParts(s[1..], 0); }
        else { NoStarInParts(s[1..], i); }
      }
    }
  }

  /** `*` in the middle of two literals matches anything between them. */
  lemma FnMatchOneStar(pre: string, mid: string, post: string)
    requires '*' !in pre && '*' !in post
    ensures FnMatch(pre + "*" + post, pre + mid + post)
  {
    FnMatchSelf(pre);
    FnMatchSelf(post);
    FnMatchStar(post, mid, post);
    FnMatchConcat(pre, "*" + post, pre, mid + post);
    assert pre + "*" + post == pre + ("*" + post);
    assert pre + mid + post == pre + (mid + post);
  }

  /** Joined patterns match joined texts field by field. */
  lemma {:induction false} FnMatchFields(pf: seq<string>, nf: seq<string>, sep: char)
    requires sep != '*' && |pf| == |nf|
    requires forall i :: 0 <= i < |pf| ==> FnMatch(pf[i], nf[i])
    ensures FnMatch(Join(pf, sep), Join(nf, sep))
  {
    if |pf| == 0 {
      FnMatchSelf("");
    } else if |pf| > 1 {
      FnMatchFields(pf[1..], nf[1..], sep);
      FnMatchSelf([sep]);
      FnMatchConcat(pf[0], [sep], nf[0], [sep]);
      FnMatchConcat(pf[0] + [sep], Join(pf[1..], sep), nf[0] + [sep], Join(nf[1..], sep));
    }
  }

  /** A path listed by `dirpattern/namepattern` has a base name the name
      pattern matches. */
  lemma GlobMatchLast(dirPat: string, namePat: string, path: string)
    requires '/' !in namePat && GlobMatch(dirPat + "/" + namePat, path)
    ensures FnMatch(namePat, Basename(path))
  {
    assert dirPat + "/" + namePat == dirPat + ['/'] + namePat;
    SplitAround(dirPat, '/', namePat);
    SplitNoSep(namePat, '/');
    LastComponentIsBasename(path);
  }

  /** The base name of `dir/name` is `name` when it holds no '/'. */
  lemma BasenameAfterSlash(dir: string, name: string)
    requires '/' !in name
    ensures Basename(dir + "/" + name) == name
  {
    var p := dir + "/" + name;
    assert p[|p| - |name|..] == name;
    assert p[|p| - |name| - 1] == '/';
    BasenameSpec(p);
    TailUnique(p, name, Basename(p));
  }

  /** The directory `glob` lists for the pattern `d + "/" + name`: `os.path.split`
      drops the trailing slashes of the head unless it is all slashes. */
  function PatternHead(d: string): (r: string)
  {
    var h := d + "/";
    if AllSlashes(h) then h else TrimSlashes(h)
  }

  predicate AllSlashes(s: string)
  {
    forall i :: 0 <= i < |s| ==> s[i] == '/'
  }

  function TrimSlashes(s: string): (r: string)
    ensures |r| <= |s| && r == s[..|r|]
    ensures forall i :: |r| <= i < |s| ==> s[i] == '/'
    ensures |r| > 0 ==> r[|r| - 1] != '/'
  {
    if |s| > 0 && s[|s| - 1] == '/' then TrimSlashes(s[..|s| - 1]) else s
  }

  /** A directory written without a trailing slash is listed as itself; one
      written with trailing slashes is listed without them. */
  lemma PatternHeadOf(d: string, slashes: nat)
    requires |d| > 0 && d[|d| - 1] != '/'
    ensures PatternHead(d + seq(slashes, i => '/')) == d
  {
    var s := d + seq(slashes, i => '/');
    var h := s + "/";
    assert h[|d| - 1] == d[|d| - 1];
    assert !AllSlashes(h);
    var r := TrimSlashes(h);
    assert h[..|d|] == d;
    assert forall i :: |d| <= i < |h| ==> h[i] == '/';
    assert h[|d| - 1] != '/';
    assert |r| >= |d|;
    assert |r| > 0 && r[|r| - 1] == h[|r| - 1];
    assert |r| == |d|;
  }

  /** `os.path.dirname`: the text before the last '/', without trailing
      slashes unless it is all slashes. */
  function Dirname(p: string): string
  {
    var head := p[..|p| - |Basename(p)|];
    if AllSlashes(head) then head else TrimSlashes(head)
  }

  /** The directory of `d/name` is `d` as `os.path.split` spells it. */
  lemma DirnameOf(d: string, name: string)
    requires '/' !in name
    ensures Dirname(d + "/" + name) == PatternHead(d)
  {
    var p := d + "/" + name;
    BasenameAfterSlash(d, name);
    assert p[..|p| - |name|] == d + "/";
  }
}
