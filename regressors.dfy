/** Nuisance-regressor selection from an fMRIPrep `*_desc-confounds_timeseries.tsv`:
    an option name picks an ordered list of confound columns. Stage 2 and Stage 1
    number the options differently, so each has its own table. */
module Regressors {
  import opened Text
  import opened Errors

  /** A confounds cell as read: the text `n/a` or a number. */
  datatype Raw = NA | Num(value: real)

  /** The confounds file as read: header names and rows of cells. */
  datatype ConfoundFile = ConfoundFile(columns: seq<string>, rows: seq<seq<Raw>>)

  /** A numeric data frame: column names and rows of numbers. */
  datatype Frame = Frame(columns: seq<string>, rows: seq<seq<real>>)

  const Cosines: seq<string> := ["cosine00", "cosine01", "cosine02", "cosine03"]
  const Motion: seq<string> := ["trans_x", "trans_y", "trans_z", "rot_x", "rot_y", "rot_z"]
  const Derivatives: seq<string> :=
    ["trans_x_derivative1", "trans_y_derivative1", "trans_z_derivative1",
     "rot_x_derivative1", "rot_y_derivative1", "rot_z_derivative1"]
  const CompCor: seq<string> :=
    ["a_comp_cor_00", "a_comp_cor_01", "a_comp_cor_02", "a_comp_cor_03",
     "a_comp_cor_04", "a_comp_cor_05", "a_comp_cor_06", "a_comp_cor_07"]

  /** The Stage 2 option table before any motion-outlier entry is added. */
  const Stage2Table: map<string, seq<string>> :=
    map["opt1" := Cosines,
        "opt2" := Cosines + Motion + Derivatives,
        "opt3" := Cosines + Motion + Derivatives + CompCor]

  /** The Stage 1 option table before any motion-outlier entry is added. */
  const Stage1Table: map<string, seq<string>> :=
    map["opt1" := Cosines,
        "opt2" := Cosines + Motion,
        "opt3" := Cosines + Motion + Derivatives,
        "opt4" := Cosines + Motion + Derivatives + CompCor]

  /** `fillna(0)` after reading with `na_values=['n/a']`. */
  function Fill(c: Raw): real
  {
    if c.NA? then 0.0 else c.value
  }

  /** The columns `DataFrame.filter(regex='motion_outlier')` keeps, in file order. */
  function OutlierColumns(columns: seq<string>): (r: seq<string>)
    ensures forall c :: c in r <==> c in columns && Contains(c, "motion_outlier")
    ensures |r| <= |columns|
  {
    if |columns| == 0 then []
    else (if Contains(columns[0], "motion_outlier") then [columns[0]] else [])
         + OutlierColumns(columns[1..])
  }

  /** Python's `list.remove(x)` when `x` is present: its first occurrence goes. */
  function RemoveFirst(xs: seq<string>, x: string): (r: seq<string>)
    requires x in xs
    ensures |r| == |xs| - 1
  {
    if xs[0] == x then xs[1..] else [xs[0]] + RemoveFirst(xs[1..], x)
  }

  /** The requested names that are not columns of the file, in request order. */
  function Absent(names: seq<string>, columns: seq<string>): (r: seq<string>)
    ensures forall n :: n in r <==> n in names && n !in columns
  {
    if |names| == 0 then []
    else (if names[0] in columns then [] else [names[0]]) + Absent(names[1..], columns)
  }

  /** Position of the first column with the given name. */
  function IndexOf(columns: seq<string>, name: string): (k: nat)
    requires name in columns
    ensures k < |columns| && columns[k] == name
    ensures forall j :: 0 <= j < k ==> columns[j] != name
  {
    if columns[0] == name then 0 else 1 + IndexOf(columns[1..], name)
  }

  /** The cell of a row under column `k` (a short row reads as `n/a`). */
  function CellAt(row: seq<Raw>, k: nat): Raw
  {
    if k < |row| then row[k] else NA
  }

  /** `confound_df[names]` after `fillna(0)`: every requested column, in order,
      or a KeyError naming the absent ones. */
  function SelectColumns(df: ConfoundFile, names: seq<string>): (r: Result<Frame>)
    ensures r.Err? <==> exists n :: n in names && n !in df.columns
    ensures r.Err? ==> r.error == MissingColumns(Absent(names, df.columns))
    ensures r.Ok? ==> r.value.columns == names && |r.value.rows| == |df.rows|
    ensures r.Ok? ==> forall i, j :: 0 <= i < |df.rows| && 0 <= j < |names| ==>
              |r.value.rows[i]| == |names| &&
              r.value.rows[i][j] == Fill(CellAt(df.rows[i], IndexOf(df.columns, names[j])))
  {
    var missing := Absent(names, df.columns);
    if |missing| > 0 then
      assert missing[0] in missing;
      Err(MissingColumns(missing))
    else
      Ok(Frame(names,
        seq(|df.rows|, i requires 0 <= i < |df.rows| =>
          seq(|names|, j requires 0 <= j < |names| =>
            (assert names[j] !in missing;
             Fill(CellAt(df.rows[i], IndexOf(df.columns, names[j]))))))))
  }

  // ---------------------------------------------------------------- Stage 2

  /** Strikes 'cosine03' from a selection when the file lacks that column. */
  function DropCosine03(sel: seq<string>, columns: seq<string>): seq<string>
    requires "cosine03" in sel
  {
    if "cosine03" in columns then sel else RemoveFirst(sel, "cosine03")
  }

  lemma CosinesHaveCosine03()
    ensures "cosine03" in Cosines
  {
    assert Cosines[3] == "cosine03";
  }

  /** The Stage 2 list an option names before any strike: options opt1..opt3
      from the table and 'opt4' = opt3 + the motion-outlier columns. */
  function Stage2Base(option: string, columns: seq<string>): (r: Option<seq<string>>)
    ensures r.Some? ==> |r.value| >= 4 && r.value[..4] == Cosines
  {
    if option == "opt4" then Some(Stage2Table["opt3"] + OutlierColumns(columns))
    else if option in Stage2Table then Some(Stage2Table[option])
    else None
  }

  /** The Stage 2 selection for a file with the given columns; None for an
      option the table does not hold. */
  function Stage2Selection(option: string, columns: seq<string>): Option<seq<string>>
  {
    var base := Stage2Base(option, columns);
    if base.None? then None
    else
      CosinesHaveCosine03();
      assert "cosine03" in base.value by { assert base.value[3] == Cosines[3]; }
      Some(DropCosine03(base.value, columns))
  }

  /** What Stage 2 `pull_regressors` returns for a file and an option. */
  function Stage2Regressors(files: map<string, ConfoundFile>, path: string, option: string): Result<Frame>
  {
    if path !in files then Err(ConfoundsNotFound(path))
    else match Stage2Selection(option, files[path].columns)
      case None => Err(UnknownKey(option))
      case Some(sel) => SelectColumns(files[path], sel)
  }

  /** Stage 2 `pull_regressors`: the path must exist, the option table is built
      (with 'opt4' added only when requested), 'cosine03' is removed in place when
      the file lacks it, and the selected columns are returned. `sample` is unused. */
  method PullRegressorsStage2(files: map<string, ConfoundFile>, path: string, option: string, sample: Option<string>)
    returns (r: Result<Frame>)
    ensures r == Stage2Regressors(files, path, option)
  {
    if path !in files {
      return Err(ConfoundsNotFound(path));
    }
    var df := files[path];
    var table := Stage2Table;
    if option == "opt4" {
      table := table["opt4" := table["opt3"] + OutlierColumns(df.columns)];
    }
    if "cosine03" !in df.columns {
      if option !in table {
        return Err(UnknownKey(option));
      }
      assert "cosine03" in table[option] by {
        assert table[option][3] == "cosine03";
      }
      table := table[option := RemoveFirst(table[option], "cosine03")];
    }
    if option !in table {
      return Err(UnknownKey(option));
    }
    r := SelectColumns(df, table[option]);
  }

  lemma {:induction false} RemoveFirstAppend(a: seq<string>, b: seq<string>, x: string)
    requires x in a
    ensures x in a + b && RemoveFirst(a + b, x) == RemoveFirst(a, x) + b
  {
    assert (a + b)[0] == a[0];
    if a[0] != x {
      assert (a + b)[1..] == a[1..] + b;
      RemoveFirstAppend(a[1..], b, x);
    }
  }

  lemma {:induction false} RemoveFirstAt(xs: seq<string>, x: string, k: nat)
    requires k < |xs| && xs[k] == x && forall j :: 0 <= j < k ==> xs[j] != x
    ensures RemoveFirst(xs, x) == xs[..k] + xs[k + 1..]
  {
    if k > 0 {
      RemoveFirstAt(xs[1..], x, k - 1);
      assert xs[1..][..k - 1] == xs[1..k];
      assert xs[..k] == [xs[0]] + xs[1..k];
    }
  }

  lemma DropAppend(a: seq<string>, b: seq<string>, columns: seq<string>)
    requires "cosine03" in a
    ensures "cosine03" in a + b && DropCosine03(a + b, columns) == DropCosine03(a, columns) + b
  {
    if "cosine03" !in columns {
      RemoveFirstAppend(a, b, "cosine03");
    }
  }

  /** Stage 2 options are nested: opt1 is a proper prefix of opt2, opt2 of opt3,
      and opt3 of opt4, which adds exactly the motion-outlier columns; with
      'cosine03' present the sizes are 4, 16 and 24. */
  lemma Stage2Nested(columns: seq<string>)
    ensures var s1, s2, s3, s4 := Stage2Selection("opt1", columns), Stage2Selection("opt2", columns),
                                  Stage2Selection("opt3", columns), Stage2Selection("opt4", columns);
      s1.Some? && s2.Some? && s3.Some? && s4.Some? &&
      s2.value == s1.value + Motion + Derivatives &&
      s3.value == s2.value + CompCor &&
      s4.value == s3.value + OutlierColumns(columns)
  {
    assert Cosines + Motion + Derivatives == Cosines + (Motion + Derivatives);
    assert Stage2Base("opt2", columns) == Some(Cosines + (Motion + Derivatives));
    SelectionExtends("opt1", "opt2", columns, Motion + Derivatives);
    assert Stage2Base("opt3", columns) == Some(Cosines + Motion + Derivatives + CompCor);
    SelectionExtends("opt2", "opt3", columns, CompCor);
    assert Stage2Base("opt4", columns) == Some(Cosines + Motion + Derivatives + CompCor + OutlierColumns(columns));
    SelectionExtends("opt3", "opt4", columns, OutlierColumns(columns));
  }

  /** An option whose list extends another's selects that option's columns
      and then the extension. */
  lemma SelectionExtends(o1: string, o2: string, columns: seq<string>, extra: seq<string>)
    requires Stage2Base(o1, columns).Some?
    requires Stage2Base(o2, columns) == Some(Stage2Base(o1, columns).value + extra)
    ensures Stage2Selection(o1, columns).Some? && Stage2Selection(o2, columns).Some?
    ensures Stage2Selection(o2, columns).value == Stage2Selection(o1, columns).value + extra
  {
    var base := Stage2Base(o1, columns).value;
    assert "cosine03" in base by {
      CosinesHaveCosine03();
      assert base[3] == Cosines[3];
    }
    DropAppend(base, extra, columns);
  }

  /** With 'cosine03' in the file, Stage 2 opt1, opt2 and opt3 have 4, 16 and 24 columns. */
  lemma Stage2Sizes(columns: seq<string>)
    requires "cosine03" in columns
    ensures |Stage2Selection("opt1", columns).value| == 4
    ensures |Stage2Selection("opt2", columns).value| == 16
    ensures |Stage2Selection("opt3", columns).value| == 24
  {
    Stage2Nested(columns);
  }

  /** Only opt1..opt4 are known to Stage 2; 'opt5' and every other name fail the lookup. */
  lemma Stage2Unknown(option: string, columns: seq<string>)
    ensures Stage2Selection(option, columns).None? <==> option !in {"opt1", "opt2", "opt3", "opt4"}
  {
  }

  /** When the file lacks 'cosine03', exactly that name leaves the selection and
      every other name keeps its position order. */
  lemma Stage2DropsCosine03(option: string, columns: seq<string>)
    requires "cosine03" !in columns
    requires option in {"opt1", "opt2", "opt3", "opt4"}
    ensures var full := if option == "opt4" then Stage2Table["opt3"] + OutlierColumns(columns)
                        else Stage2Table[option];
            Stage2Selection(option, columns) == Some(full[..3] + full[4..]) &&
            "cosine03" !in full[..3] + full[4..]
  {
    var full := if option == "opt4" then Stage2Table["opt3"] + OutlierColumns(columns)
                else Stage2Table[option];
    assert Stage2Base(option, columns) == Some(full);
    var tail := full[4..];
    assert full == Cosines + tail;
    assert "cosine03" !in tail by {
      TailLacksCosine03(option, columns);
    }
    RemoveFirstAt(full, "cosine03", 3);
    assert full[..3] + full[4..] == Cosines[..3] + tail;
  }

  lemma OthersLackCosine03()
    ensures "cosine03" !in Motion && "cosine03" !in Derivatives && "cosine03" !in CompCor
  {
  }

  /** Past the cosines no option lists 'cosine03' unless the file has it. */
  lemma TailLacksCosine03(option: string, columns: seq<string>)
    requires "cosine03" !in columns
    requires option in {"opt1", "opt2", "opt3", "opt4"}
    requires Stage2Base(option, columns).Some?
    ensures "cosine03" !in Stage2Base(option, columns).value[4..]
  {
    var full := Stage2Base(option, columns).value;
    var outliers := OutlierColumns(columns);
    OthersLackCosine03();
    assert "cosine03" !in outliers;
    if option == "opt1" {
      assert full[4..] == [];
    } else if option == "opt2" {
      assert full[4..] == Motion + Derivatives;
    } else if option == "opt3" {
      assert full[4..] == Motion + Derivatives + CompCor;
    } else {
      assert full[4..] == Motion + Derivatives + CompCor + outliers;
    }
  }

  // ---------------------------------------------------------------- Stage 1

  /** `regressors` in Stage1_Code/pull_regressors.py: the Stage 1 table, with
      'opt5' = opt4 + the motion-outlier columns only when 'opt5' is requested,
      no fallback for absent names. */
  function Stage1Regressors(files: map<string, ConfoundFile>, path: string, option: string): Result<Frame>
  {
    if path !in files then Err(ConfoundsNotFound(path))
    else if option == "opt5" then
      SelectColumns(files[path], Stage1Table["opt4"] + OutlierColumns(files[path].columns))
    else if option in Stage1Table then SelectColumns(files[path], Stage1Table[option])
    else Err(UnknownKey(option))
  }

  /** Stage 1 `pull_regressors`: builds the table, inserts 'opt5' when requested
      and selects; it returns what `regressors` returns for every file and option. */
  method PullRegressorsStage1(files: map<string, ConfoundFile>, path: string, option: string)
    returns (r: Result<Frame>)
    ensures r == Stage1Regressors(files, path, option)
  {
    if path !in files {
      return Err(ConfoundsNotFound(path));
    }
    var df := files[path];
    var table := Stage1Table;
    if option == "opt5" {
      table := table["opt5" := table["opt4"] + OutlierColumns(df.columns)];
    }
    if option !in table {
      return Err(UnknownKey(option));
    }
    r := SelectColumns(df, table[option]);
  }

  /** Stage 1 options are strict prefixes of sizes 4, 10, 16 and 24, and opt5 adds
      exactly the motion-outlier columns to opt4. */
  lemma Stage1Nested(columns: seq<string>)
    ensures |Stage1Table["opt1"]| == 4 && |Stage1Table["opt2"]| == 10
    ensures |Stage1Table["opt3"]| == 16 && |Stage1Table["opt4"]| == 24
    ensures Stage1Table["opt2"][..4] == Stage1Table["opt1"]
    ensures Stage1Table["opt3"][..10] == Stage1Table["opt2"]
    ensures Stage1Table["opt4"][..16] == Stage1Table["opt3"]
  {
  }

  /** Stage 1 selection succeeds exactly for a known option whose every column
      is in the file; there is no 'cosine03' fallback. */
  lemma Stage1NoFallback(files: map<string, ConfoundFile>, path: string, option: string)
    requires path in files
    ensures var cols := files[path].columns;
            var sel := if option == "opt5" then Stage1Table["opt4"] + OutlierColumns(cols)
                       else if option in Stage1Table then Stage1Table[option] else [];
            Stage1Regressors(files, path, option).Ok? <==>
              (option == "opt5" || option in Stage1Table) && forall n :: n in sel ==> n in cols
  {
    var cols := files[path].columns;
    if option == "opt5" {
      var sel := Stage1Table["opt4"] + OutlierColumns(cols);
      forall n | n in OutlierColumns(cols) ensures n in cols {}
    }
  }
}
