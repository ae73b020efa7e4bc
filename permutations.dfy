/** Analytic permutations: `itertools.product` of the option axes, and the
    `model_permutations.csv` file Stage 1 writes with `DataFrame.to_csv` and
    reads back with `read_csv(header=None, index_col=0).values.tolist()[1:]`. */
module Permutations {
  import opened Text
  import opened Errors

  /** `list(product(xs, ys, zs))`: the first axis varies slowest, the last fastest. */
  function Product3<A, B, C>(xs: seq<A>, ys: seq<B>, zs: seq<C>): (r: seq<(A, B, C)>)
  {
    if |xs| == 0 then [] else Block(xs[0], ys, zs) + Product3(xs[1..], ys, zs)
  }

  /** The entries of a product that share the first element `x`. */
  function Block<A, B, C>(x: A, ys: seq<B>, zs: seq<C>): (r: seq<(A, B, C)>)
  {
    if |ys| == 0 then [] else Row(x, ys[0], zs) + Block(x, ys[1..], zs)
  }

  function Row<A, B, C>(x: A, y: B, zs: seq<C>): (r: seq<(A, B, C)>)
    ensures |r| == |zs| && forall k :: 0 <= k < |zs| ==> r[k] == (x, y, zs[k])
  {
    seq(|zs|, k requires 0 <= k < |zs| => (x, y, zs[k]))
  }

  /** Position of `(xs[i], ys[j], zs[k])` in the product: `i` blocks of
      `ny·nz` entries, then `j` rows of `nz`, then `k` (see PositionArith). */
  function Position(i: nat, j: nat, k: nat, ny: nat, nz: nat): nat
  {
    Offset(i, Offset(ny, nz)) + (Offset(j, nz) + k)
  }

  /** Where block i starts when every block holds n entries: `i·n`. */
  function Offset(i: nat, n: nat): nat
  {
    if i == 0 then 0 else n + Offset(i - 1, n)
  }

  lemma MulPred(a: nat, b: nat)
    requires a > 0
    ensures a * b == b + (a - 1) * b
  {
  }

  lemma {:induction false} OffsetIsProduct(i: nat, n: nat)
    ensures Offset(i, n) == i * n
  {
    if i > 0 {
      OffsetIsProduct(i - 1, n);
      MulPred(i, n);
    }
  }

  lemma {:induction false} BlockLength<A, B, C>(x: A, ys: seq<B>, zs: seq<C>)
    ensures |Block(x, ys, zs)| == Offset(|ys|, |zs|)
  {
    if |ys| > 0 {
      BlockLength(x, ys[1..], zs);
    }
  }

  lemma {:induction false} BlockIndex<A, B, C>(x: A, ys: seq<B>, zs: seq<C>, j: nat, k: nat)
    requires j < |ys| && k < |zs|
    ensures Offset(j, |zs|) + k < |Block(x, ys, zs)| && Block(x, ys, zs)[Offset(j, |zs|) + k] == (x, ys[j], zs[k])
  {
    assert Block(x, ys, zs) == Row(x, ys[0], zs) + Block(x, ys[1..], zs);
    if j > 0 {
      BlockIndex(x, ys[1..], zs, j - 1, k);
      assert ys[1..][j - 1] == ys[j];
    }
  }

  lemma {:induction false} ProductSize<A, B, C>(xs: seq<A>, ys: seq<B>, zs: seq<C>)
    ensures |Product3(xs, ys, zs)| == Offset(|xs|, Offset(|ys|, |zs|))
  {
    if |xs| > 0 {
      BlockLength(xs[0], ys, zs);
      ProductSize(xs[1..], ys, zs);
    }
  }

  /** The product holds one entry per combination. */
  lemma ProductLength<A, B, C>(xs: seq<A>, ys: seq<B>, zs: seq<C>)
    ensures |Product3(xs, ys, zs)| == |xs| * (|ys| * |zs|)
  {
    ProductSize(xs, ys, zs);
    OffsetIsProduct(|ys|, |zs|);
    OffsetIsProduct(|xs|, |ys| * |zs|);
  }

  /** Entry m of block i of the product. */
  lemma {:induction false} ProductAt<A, B, C>(xs: seq<A>, ys: seq<B>, zs: seq<C>, i: nat, m: nat)
    requires i < |xs| && m < |Block(xs[i], ys, zs)|
    ensures Offset(i, Offset(|ys|, |zs|)) + m < |Product3(xs, ys, zs)|
    ensures Product3(xs, ys, zs)[Offset(i, Offset(|ys|, |zs|)) + m] == Block(xs[i], ys, zs)[m]
  {
    BlockLength(xs[0], ys, zs);
    BlockLength(xs[i], ys, zs);
    assert Product3(xs, ys, zs) == Block(xs[0], ys, zs) + Product3(xs[1..], ys, zs);
    if i > 0 {
      assert xs[1..][i - 1] == xs[i];
      ProductAt(xs[1..], ys, zs, i - 1, m);
    }
  }

  /** The position is `(i·ny + j)·nz + k`. */
  lemma PositionArith(i: nat, j: nat, k: nat, ny: nat, nz: nat)
    ensures Position(i, j, k, ny, nz) == (i * ny + j) * nz + k
  {
    var n := ny * nz;
    assert Offset(i, Offset(ny, nz)) == i * n by {
      OffsetIsProduct(ny, nz);
      OffsetIsProduct(i, n);
    }
    assert Offset(j, nz) == j * nz by {
      OffsetIsProduct(j, nz);
    }
    assert (i * ny + j) * nz == i * n + j * nz by {
      MulDistributes(i * ny, j, nz);
      MulAssociates(i, ny, nz);
    }
  }

  lemma MulDistributes(a: int, b: int, c: int)
    ensures (a + b) * c == a * c + b * c
  {
  }

  lemma MulAssociates(a: int, b: int, c: int)
    ensures (a * b) * c == a * (b * c)
  {
  }

  /** Combination (i, j, k) sits at `Position(i, j, k, |ys|, |zs|)`: `product` order. */
  lemma ProductIndex<A, B, C>(xs: seq<A>, ys: seq<B>, zs: seq<C>, i: nat, j: nat, k: nat)
    requires i < |xs| && j < |ys| && k < |zs|
    ensures Position(i, j, k, |ys|, |zs|) < |Product3(xs, ys, zs)|
    ensures Product3(xs, ys, zs)[Position(i, j, k, |ys|, |zs|)] == (xs[i], ys[j], zs[k])
  {
    var pos := Position(i, j, k, |ys|, |zs|);
    var w := Offset(j, |zs|) + k;
    assert pos == Offset(i, Offset(|ys|, |zs|)) + w;
    BlockIndex(xs[i], ys, zs, j, k);
    ProductAtEntry(xs, ys, zs, i, w, (xs[i], ys[j], zs[k]));
  }

  /** An entry `e` of block i sits at the block's offset plus its own. */
  lemma ProductAtEntry<A, B, C>(xs: seq<A>, ys: seq<B>, zs: seq<C>, i: nat, w: nat, e: (A, B, C))
    requires i < |xs| && w < |Block(xs[i], ys, zs)| && Block(xs[i], ys, zs)[w] == e
    ensures Offset(i, Offset(|ys|, |zs|)) + w < |Product3(xs, ys, zs)|
    ensures Product3(xs, ys, zs)[Offset(i, Offset(|ys|, |zs|)) + w] == e
  {
    ProductAt(xs, ys, zs, i, w);
  }

  /** Every entry of the product is a combination of axis values. */
  lemma {:induction false} ProductMembers<A, B, C>(xs: seq<A>, ys: seq<B>, zs: seq<C>, e: (A, B, C))
    requires e in Product3(xs, ys, zs)
    ensures e.0 in xs && e.1 in ys && e.2 in zs
  {
    if |xs| > 0 {
      var head := Block(xs[0], ys, zs);
      if e in head {
        BlockMembers(xs[0], ys, zs, e);
      } else {
        ProductMembers(xs[1..], ys, zs, e);
      }
    }
  }

  lemma {:induction false} BlockMembers<A, B, C>(x: A, ys: seq<B>, zs: seq<C>, e: (A, B, C))
    requires e in Block(x, ys, zs)
    ensures e.0 == x && e.1 in ys && e.2 in zs
  {
    if |ys| > 0 {
      if e !in Row(x, ys[0], zs) {
        BlockMembers(x, ys[1..], zs, e);
      }
    }
  }

  // ------------------------------------------------------------ CSV round trip

  /** The header `to_csv` writes for the permutation frame: an empty index name,
      then the column names. */
  const PermutationColumns: seq<string> := ["fwhm", "motion", "mod_type"]

  /** One permutation as the strings written to the file. */
  function PermutationFields(p: (int, string, string)): seq<string>
  {
    [IntToString(p.0), p.1, p.2]
  }

  /** Lines ended by '\n'. */
  function Lines(ls: seq<string>): string
  {
    if |ls| == 0 then "" else ls[0] + "\n" + Lines(ls[1..])
  }

  /** The lines of `DataFrame(data=perms, columns=[...]).to_csv(path)`:
      the header, then each row led by its integer index. */
  function CsvLines(perms: seq<(int, string, string)>): (ls: seq<string>)
    ensures |ls| == |perms| + 1
  {
    [Join([""] + PermutationColumns, ',')] +
    seq(|perms|, i requires 0 <= i < |perms| => Join([NatToString(i)] + PermutationFields(perms[i]), ','))
  }

  function WriteCsv(perms: seq<(int, string, string)>): string
  {
    Lines(CsvLines(perms))
  }

  /** Lines that are not blank (`skip_blank_lines`). */
  function NonBlank(ls: seq<string>): (r: seq<string>)
    ensures forall i :: 0 <= i < |r| ==> r[i] in ls && |r[i]| > 0
  {
    if |ls| == 0 then []
    else (if |ls[0]| > 0 then [ls[0]] else []) + NonBlank(ls[1..])
  }

  /** `read_csv(path, header=None, index_col=0).values.tolist()`: every line,
      the header line included, split at ',' with the first field taken as the index. */
  function ReadRows(text: string): (rows: seq<seq<string>>)
  {
    var ls := NonBlank(Split(text, '\n'));
    seq(|ls|, i requires 0 <= i < |ls| => Split(ls[i], ',')[1..])
  }

  /** `... .values.tolist()[1:]`: the rows after the header line. */
  function ReadPermutations(text: string): seq<seq<string>>
  {
    var rows := ReadRows(text);
    if |rows| == 0 then [] else rows[1..]
  }

  /** A text field that survives the file unchanged. */
  predicate PlainField(f: string)
  {
    ',' !in f && '\n' !in f
  }

  lemma {:induction false} LinesSplit(ls: seq<string>)
    requires forall i :: 0 <= i < |ls| ==> '\n' !in ls[i]
    ensures Split(Lines(ls), '\n') == ls + [""]
  {
    if |ls| > 0 {
      LinesSplit(ls[1..]);
      assert Lines(ls) == ls[0] + ['\n'] + Lines(ls[1..]);
      SplitAfter(ls[0], '\n', Lines(ls[1..]));
      assert ls == [ls[0]] + ls[1..];
    }
  }

  lemma {:induction false} NonBlankKeeps(ls: seq<string>)
    requires forall i :: 0 <= i < |ls| ==> |ls[i]| > 0
    ensures NonBlank(ls + [""]) == ls
  {
    if |ls| > 0 {
      assert (ls + [""])[1..] == ls[1..] + [""];
      NonBlankKeeps(ls[1..]);
      assert ls == [ls[0]] + ls[1..];
    }
  }

  lemma IntToStringPlain(i: int)
    ensures ',' !in IntToString(i) && '\n' !in IntToString(i)
  {
    var d := NatToString(if i < 0 then -i else i);
    assert ',' !in d && '\n' !in d by {
      assert forall k :: 0 <= k < |d| ==> IsDigit(d[k]);
    }
  }

  /** A product of plain text axes has plain text fields. */
  lemma PlainPerms(xs: seq<int>, ys: seq<string>, zs: seq<string>)
    requires forall y :: y in ys ==> PlainField(y)
    requires forall z :: z in zs ==> PlainField(z)
    ensures forall p :: p in Product3(xs, ys, zs) ==> PlainField(p.1) && PlainField(p.2)
  {
    forall p | p in Product3(xs, ys, zs) ensures PlainField(p.1) && PlainField(p.2) {
      ProductMembers(xs, ys, zs, p);
    }
  }

  /** Writing the permutations and reading them back as Stage 1 does gives the
      same rows in the same order, every field as text (`int` axes as `str(int)`). */
  lemma PermutationsRoundTrip(perms: seq<(int, string, string)>)
    requires forall p :: p in perms ==> PlainField(p.1) && PlainField(p.2)
    ensures |ReadPermutations(WriteCsv(perms))| == |perms|
    ensures forall i :: 0 <= i < |perms| ==> ReadPermutations(WriteCsv(perms))[i] == PermutationFields(perms[i])
  {
    var ls := CsvLines(perms);
    var rows := ReadRows(WriteCsv(perms));
    assert |rows| == |ls| && forall i :: 0 <= i < |ls| ==> rows[i] == Split(ls[i], ',')[1..] by {
      CsvLinesRead(perms);
    }
    assert ReadPermutations(WriteCsv(perms)) == rows[1..];
    forall i | 0 <= i < |perms| ensures rows[1..][i] == PermutationFields(perms[i]) {
      assert rows[1..][i] == Split(ls[i + 1], ',')[1..];
      DataRowRead(perms, i);
    }
  }

  /** The fields after the index on data line i + 1 are permutation i. */
  lemma DataRowRead(perms: seq<(int, string, string)>, i: nat)
    requires forall p :: p in perms ==> PlainField(p.1) && PlainField(p.2)
    requires i < |perms|
    ensures Split(CsvLines(perms)[i + 1], ',')[1..] == PermutationFields(perms[i])
  {
    CsvLineFields(perms, i + 1);
  }

  /** Reading the file back finds exactly the written lines. */
  lemma CsvLinesRead(perms: seq<(int, string, string)>)
    requires forall p :: p in perms ==> PlainField(p.1) && PlainField(p.2)
    ensures NonBlank(Split(WriteCsv(perms), '\n')) == CsvLines(perms)
  {
    var ls := CsvLines(perms);
    forall i | 0 <= i < |ls| ensures '\n' !in ls[i] && |ls[i]| > 0 {
      CsvLineFields(perms, i);
    }
    LinesSplit(ls);
    NonBlankKeeps(ls);
  }

  /** Row k read back is permutation k as text: it unpacks into three fields
      and its first converts back to the number with `int()`. */
  lemma RowOf(perms: seq<(int, string, string)>, k: nat)
    requires forall p :: p in perms ==> PlainField(p.1) && PlainField(p.2)
    requires k < |perms|
    ensures |ReadPermutations(WriteCsv(perms))| == |perms|
    ensures ReadPermutations(WriteCsv(perms))[k] == [IntToString(perms[k].0), perms[k].1, perms[k].2]
    ensures Unpack3(ReadPermutations(WriteCsv(perms))[k]) == Ok((IntToString(perms[k].0), perms[k].1, perms[k].2))
    ensures ParseInt(IntToString(perms[k].0)) == Some(perms[k].0)
  {
    PermutationsRoundTrip(perms);
    IntToStringRoundTrip(perms[k].0);
  }

  /** Line i of the file holds no newline, is not blank, and its fields after
      the index are the column names (line 0) or permutation i - 1. */
  lemma CsvLineFields(perms: seq<(int, string, string)>, i: nat)
    requires forall p :: p in perms ==> PlainField(p.1) && PlainField(p.2)
    requires i < |CsvLines(perms)|
    ensures var l := CsvLines(perms)[i];
            '\n' !in l && |l| > 0
            && Split(l, ',')[1..] == (if i == 0 then PermutationColumns else PermutationFields(perms[i - 1]))
  {
    if i == 0 {
      HeaderLine();
    } else {
      var p := perms[i - 1];
      assert p in perms;
      DataLine(i - 1, p);
    }
  }

  lemma HeaderLine()
    ensures var l := Join([""] + PermutationColumns, ',');
            '\n' !in l && |l| > 0 && Split(l, ',')[1..] == PermutationColumns
  {
    var header := [""] + PermutationColumns;
    assert NoSep(header, ',') && NoSep(header, '\n');
    JoinNoSep(header, ',', '\n');
    SplitJoin(header, ',');
    assert Join(header, ',') == "" + [','] + Join(PermutationColumns, ',');
  }

  lemma DataLine(k: nat, p: (int, string, string))
    requires PlainField(p.1) && PlainField(p.2)
    ensures var l := Join([NatToString(k)] + PermutationFields(p), ',');
            '\n' !in l && |l| > 0 && Split(l, ',')[1..] == PermutationFields(p)
  {
    IntToStringPlain(p.0);
    var d := NatToString(k);
    assert ',' !in d && '\n' !in d by {
      assert forall k :: 0 <= k < |d| ==> IsDigit(d[k]);
    }
    var parts := [d] + PermutationFields(p);
    assert NoSep(parts, ',') && NoSep(parts, '\n');
    JoinNoSep(parts, ',', '\n');
    SplitJoin(parts, ',');
    assert Join(parts, ',') == d + [','] + Join(parts[1..], ',');
  }

  /** `for a, b, c in rows`: a row must hold exactly three values. */
  function Unpack3(row: seq<string>): (r: Result<(string, string, string)>)
    ensures r.Ok? <==> |row| == 3
    ensures r.Ok? ==> [r.value.0, r.value.1, r.value.2] == row
    ensures r.Err? ==> r.error == UnpackMismatch(3, |row|)
  {
    if |row| == 3 then Ok((row[0], row[1], row[2])) else Err(UnpackMismatch(3, |row|))
  }

  /** `for a, b, c, d in rows`. */
  function Unpack4(row: seq<string>): (r: Result<(string, string, string, string)>)
    ensures r.Ok? <==> |row| == 4
    ensures r.Ok? ==> [r.value.0, r.value.1, r.value.2, r.value.3] == row
    ensures r.Err? ==> r.error == UnpackMismatch(4, |row|)
  {
    if |row| == 4 then Ok((row[0], row[1], row[2], row[3])) else Err(UnpackMismatch(4, |row|))
  }
}
