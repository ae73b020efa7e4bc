/** The pairing check of the two ICC scripts: the i-th paths of the two lists
    are split at '_' and compared token by token on a window that leaves out
    the run (token 3) and the token after it. */
module Pairing {
  import opened Text

  /** `path.split('_')`. */
  function Tokens(p: string): seq<string>
  {
    Split(p, '_')
  }

  /** `a.split('_')[first:3] == b.split('_')[first:3] and a.split('_')[5:] == b.split('_')[5:]`. */
  predicate PairAgrees(a: string, b: string, first: nat)
  {
    Slice(Tokens(a), first, 3) == Slice(Tokens(b), first, 3) && From(Tokens(a), 5) == From(Tokens(b), 5)
  }

  /** `all(... for a, b in zip(set1, set2))`: every pair up to the shorter length. */
  predicate AllAgree(set1: seq<string>, set2: seq<string>, first: nat)
  {
    forall i :: 0 <= i < |set1| && i < |set2| ==> PairAgrees(set1[i], set2[i], first)
  }

  /** A text put before a join sticks to its first part. */
  lemma JoinPrefix(x: string, fs: seq<string>, sep: char)
    requires |fs| > 0
    ensures x + Join(fs, sep) == Join([x + fs[0]] + fs[1..], sep)
  {
    var gs := [x + fs[0]] + fs[1..];
    assert gs[1..] == fs[1..];
    if |fs| > 1 {
      assert Join(fs, sep) == fs[0] + [sep] + Join(fs[1..], sep);
      assert Join(gs, sep) == (x + fs[0]) + [sep] + Join(fs[1..], sep);
    }
  }

  /** The tokens of `x + Join(fs)`: the prefix joins the first field. */
  lemma TokensOfPrefixedJoin(x: string, fs: seq<string>)
    requires |fs| > 0 && '_' !in x && NoSep(fs, '_')
    ensures Tokens(x + Join(fs, '_')) == [x + fs[0]] + fs[1..]
  {
    JoinPrefix(x, fs, '_');
    SplitJoin([x + fs[0]] + fs[1..], '_');
  }

  /** No part of a split holds the separator. */
  lemma {:induction false} SplitParts(s: string, sep: char)
    ensures NoSep(Split(s, sep), sep)
  {
    if |s| > 0 {
      SplitParts(s[1..], sep);
      var rest := Split(s[1..], sep);
      if s[0] != sep {
        var r := [[s[0]] + rest[0]] + rest[1..];
        forall i | 0 <= i < |r| ensures sep !in r[i] {
          if i > 0 {
            assert r[i] == rest[i];
          }
        }
      }
    }
  }

  /** The tokens of a join whose middle part may hold separators: the middle
      part's own tokens take its place. */
  lemma TokensAround(a: seq<string>, m: string, c: seq<string>)
    requires |a| > 0 && |c| > 0 && NoSep(a, '_') && NoSep(c, '_')
    ensures Tokens(Join(a + [m] + c, '_')) == a + Split(m, '_') + c
  {
    JoinSplit(m, '_');
    JoinFlatten(a, Split(m, '_'), c, '_');
    assert Join(a + [m] + c, '_') == Join(a + [Join(Split(m, '_'), '_')] + c, '_');
    SplitParts(m, '_');
    var ts := a + Split(m, '_') + c;
    forall i | 0 <= i < |ts| ensures '_' !in ts[i] {
      if i < |a| {
        assert ts[i] == a[i];
      } else if i < |a| + |Split(m, '_')| {
        assert ts[i] == Split(m, '_')[i - |a|];
      } else {
        assert ts[i] == c[i - |a| - |Split(m, '_')|];
      }
    }
    SplitJoin(ts, '_');
  }
}
