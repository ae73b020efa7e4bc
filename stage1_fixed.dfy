/** Stage1_Code/runs_withinsession_permutations.py: per subject and permutation,
    the run-level beta and variance maps of each contrast are combined by fixed
    effects and the combined effect and variance maps are written. The
    permutations travel through a CSV file and come back as text. */
module Stage1Fixed {
  import opened Text
  import opened Errors
  import opened Glob
  import opened Effects
  import opened Permutations
  import opened Fixed
  import Stage1WithinRun
  import Stage1Layout

  /** The hard-coded project directory and the first-level and fixed-effects
      directories, both spelled with a trailing '/'. */
  datatype Places = Places(proj: string, inDir: string, fixDir: string)

  const FixedContrasts: seq<string> := ["Lgain-Neut", "Sgain-Neut", "Lgain-Base", "Sgain-Base"]

  /** The axes of the grid: smoothing kernels, motion options, model types. */
  const Fwhms: seq<int> := [4, 5]
  const Motions: seq<string> := ["opt1", "opt5"]
  const Models: seq<string> := ["AntMod", "FixMod"]

  /** `product(fwhm, mot, mod_type)`. */
  const Perms: seq<(int, string, string)> := Product3(Fwhms, Motions, Models)

  function CsvPath(pl: Places): string
  {
    pl.proj + "/model_permutations.csv"
  }

  /** The permutation rows as read back from the CSV file. */
  function Rows(): seq<seq<string>>
  {
    ReadPermutations(WriteCsv(Perms))
  }

  /** `'mask-brain_mot-{}_mod-{}_fwhm-{}'.format(motion, model, fwhm)`. */
  function PermString(fwhm: string, motion: string, model: string): string
  {
    Join(PermFields("brain", fwhm, motion, model), '_')
  }

  /** The call the driver makes; the rebound `model` equals the permutation. */
  function DriverCall(pl: Places, subj: string, fwhm: string, motion: string, model: string): Call
  {
    var perm := PermString(fwhm, motion, model);
    Call(Stage1, subj, "ses-01", "mid", FixedContrasts, pl.inDir, pl.fixDir, perm, perm, DriverFlags)
  }

  /** One row of the permutation list: unpack, then `fixed_effect`. A row
      without three fields raises before anything is written; a row of three
      completes iff `compute_fixed_effects` accepts every contrast's listings. */
  function PermStep(disk: Disk, pl: Places, subj: string, row: seq<string>, made: bool): (r: Outcome)
    ensures |row| != 3 ==> r == Fail(UnpackMismatch(3, |row|))
    ensures |row| == 3 ==> (r.failure.None? <==> AllCombinable(AllLists(disk, DriverCall(pl, subj, row[0], row[1], row[2])), 0))
  {
    var u := Unpack3(row);
    if u.Err? then Fail(u.error)
    else
      var call := DriverCall(pl, subj, u.value.0, u.value.1, u.value.2);
      FixedEffectSucceeds(call, AllLists(disk, call), 0, made);
      FixedEffectFrom(call, AllLists(disk, call), 0, made)
  }

  /** Every row from k on fits. */
  predicate RowsCombinable(disk: Disk, pl: Places, subj: string, rows: seq<seq<string>>, k: nat)
  {
    forall m :: k <= m < |rows| ==> RowFits(disk, pl, subj, rows[m])
  }

  /** One row holds three fields whose `fixed_effect` call has listings
      `compute_fixed_effects` accepts. */
  predicate RowFits(disk: Disk, pl: Places, subj: string, row: seq<string>)
  {
    |row| == 3 && AllCombinable(AllLists(disk, DriverCall(pl, subj, row[0], row[1], row[2])), 0)
  }

  /** Rows k.. for one subject; after a completed row the directory exists. */
  function PermsFrom(disk: Disk, pl: Places, subj: string, rows: seq<seq<string>>, k: nat, made: bool): Outcome
    decreases |rows| - k
  {
    if k >= |rows| then Done([])
    else Then(PermStep(disk, pl, subj, rows[k], made), PermsFrom(disk, pl, subj, rows, k + 1, true))
  }

  function SubjectsFrom(disk: Disk, pl: Places, subjects: seq<string>, rows: seq<seq<string>>, i: nat, made: bool)
    : Outcome
    decreases |subjects| - i
  {
    if i >= |subjects| then Done([])
    else Then(PermsFrom(disk, pl, subjects[i], rows, 0, made),
              SubjectsFrom(disk, pl, subjects, rows, i + 1, made || |rows| > 0))
  }

  /** Everything the script does: the CSV file, then every subject. */
  function WithinSessionScript(disk: Disk, pl: Places, subjects: seq<string>): Outcome
  {
    Then(Done([Save(CsvPath(pl), Text(WriteCsv(Perms)))]),
         SubjectsFrom(disk, pl, subjects, Rows(), 0, pl.fixDir in disk.dirs))
  }

  // ------------------------------------------------------------ the script

  method Permutation(disk: Disk, pl: Places, subj: string, row: seq<string>, made: bool) returns (out: Outcome)
    ensures out == PermStep(disk, pl, subj, row, made)
  {
    var u := Unpack3(row);
    if u.Err? {
      return Fail(u.error);
    }
    var (fwhm, motion, model) := u.value;
    var perm := PermString(fwhm, motion, model);
    out := RunFixedEffect(disk, Call(Stage1, subj, "ses-01", "mid", FixedContrasts, pl.inDir, pl.fixDir, perm, perm,
                                     DriverFlags), made);
  }

  method RunPerms(disk: Disk, pl: Places, subj: string, rows: seq<seq<string>>, made0: bool) returns (out: Outcome)
    ensures out == PermsFrom(disk, pl, subj, rows, 0, made0)
  {
    out := Done([]);
    ThenDone(PermsFrom(disk, pl, subj, rows, 0, made0));
    var made := made0;
    var k := 0;
    while k < |rows|
      invariant k <= |rows| && out.failure.None? && made == (made0 || k > 0)
      invariant Then(out, PermsFrom(disk, pl, subj, rows, k, made)) == PermsFrom(disk, pl, subj, rows, 0, made0)
    {
      var step := Permutation(disk, pl, subj, rows[k], made);
      ThenAssoc(out, step, PermsFrom(disk, pl, subj, rows, k + 1, true));
      out := Then(out, step);
      if step.failure.Some? {
        return;
      }
      made := true;
      k := k + 1;
    }
    ThenDone(out);
  }

  method RunSubjects(disk: Disk, pl: Places, subjects: seq<string>, rows: seq<seq<string>>, made0: bool)
    returns (out: Outcome)
    ensures out == SubjectsFrom(disk, pl, subjects, rows, 0, made0)
  {
    out := Done([]);
    ThenDone(SubjectsFrom(disk, pl, subjects, rows, 0, made0));
    var made := made0;
    var i := 0;
    while i < |subjects|
      invariant i <= |subjects| && out.failure.None? && made == (made0 || (i > 0 && |rows| > 0))
      invariant Then(out, SubjectsFrom(disk, pl, subjects, rows, i, made)) == SubjectsFrom(disk, pl, subjects, rows, 0, made0)
    {
      var step := RunPerms(disk, pl, subjects[i], rows, made);
      ThenAssoc(out, step, SubjectsFrom(disk, pl, subjects, rows, i + 1, made || |rows| > 0));
      out := Then(out, step);
      if step.failure.Some? {
        return;
      }
      made := made || |rows| > 0;
      i := i + 1;
    }
    ThenDone(out);
  }

  /** The script; `subjects` is the 'Subjects' column of subjects.csv. */
  method RunScript(disk: Disk, pl: Places, subjects: seq<string>) returns (out: Outcome)
    ensures out == WithinSessionScript(disk, pl, subjects)
  {
    var csv := WriteCsv(Perms);
    var rows := ReadPermutations(csv);
    var rest := RunSubjects(disk, pl, subjects, rows, pl.fixDir in disk.dirs);
    out := Then(Done([Save(CsvPath(pl), Text(csv))]), rest);
  }

  // ------------------------------------------------------------ properties

  /** The rows read back are the permutations in order as text, so every row
      unpacks and names its permutation `mask-brain_mot-{m}_mod-{mod}_fwhm-{f}`. */
  lemma RowsArePermutations(k: nat)
    requires k < |Perms|
    ensures |Rows()| == |Perms|
    ensures Unpack3(Rows()[k]) == Ok((IntToString(Perms[k].0), Perms[k].1, Perms[k].2))
  {
    PlainPerms(Fwhms, Motions, Models);
    RowOf(Perms, k);
  }

  /** Eight rows are read back, each of three fields. */
  lemma RowsUnpack()
    ensures |Rows()| == 8
    ensures forall m :: 0 <= m < |Rows()| ==> |Rows()[m]| == 3
  {
    assert |Perms| == 8 by {
      ProductLength(Fwhms, Motions, Models);
    }
    PlainPerms(Fwhms, Motions, Models);
    RowOf(Perms, 0);
    forall m | 0 <= m < |Rows()| ensures |Rows()[m]| == 3 {
      RowOf(Perms, m);
    }
  }

  /** When every row holds three fields and its listings are accepted, every
      row completes: the subject's run of `fixed_effect` calls never stops
      early; and it does stop when one of the rows is not of that kind. */
  lemma {:induction false} RowsComplete(disk: Disk, pl: Places, subj: string, rows: seq<seq<string>>, k: nat,
                                        made: bool)
    requires k <= |rows|
    ensures PermsFrom(disk, pl, subj, rows, k, made).failure.None? <==> RowsCombinable(disk, pl, subj, rows, k)
    decreases |rows| - k
  {
    if k < |rows| {
      var a := PermStep(disk, pl, subj, rows[k], made);
      var b := PermsFrom(disk, pl, subj, rows, k + 1, true);
      assert PermsFrom(disk, pl, subj, rows, k, made) == Then(a, b);
      RowsComplete(disk, pl, subj, rows, k + 1, true);
      assert a.failure.None? <==> RowFits(disk, pl, subj, rows[k]);
      assert RowsCombinable(disk, pl, subj, rows, k) <==>
             RowFits(disk, pl, subj, rows[k]) && RowsCombinable(disk, pl, subj, rows, k + 1);
    }
  }

  /** A first-level name of the within-run script is listed by the input
      pattern of its own permutation: same subject, contrast and permutation,
      any run, with the first-level directory the pattern's directory lists. */
  lemma WithinRunNamesMatch(pl: Places, out: Stage1Layout.Places, subj: string, run: string, c: string,
                            p: (int, string, string), kind: string)
    requires GlobMatch(PatternHead(pl.inDir), out.out)
    requires '*' !in subj && '*' !in c && '*' !in p.1 && '*' !in p.2 && '*' !in kind
    requires '/' !in subj && '/' !in run && '/' !in c && '/' !in p.1 && '/' !in p.2 && '/' !in kind
    ensures var call := DriverCall(pl, subj, IntToString(p.0), p.1, p.2);
            GlobMatch(InputPattern(call, c, kind), Stage1WithinRun.OutPath(out, subj, "run-" + run, c, p, kind))
  {
    var f := IntToString(p.0);
    var call := DriverCall(pl, subj, f, p.1, p.2);
    var name := Join(Stage1WithinRun.NameFields(subj, "run-" + run, c, p, kind), '_');
    InputNameFlat(call, c, kind, "brain", f, p.1, p.2);
    FlatMatch(pl, subj, run, c, p, kind);
    FlatNoSlash(pl, subj, run, c, p, kind);
    GlobMatchJoin(PatternHead(pl.inDir), InputName(call, c, kind), out.out, name);
  }

  /** The driver's flattened pattern fields. */
  function FlatFields(pl: Places, subj: string, c: string, p: (int, string, string), kind: string): seq<string>
  {
    var f := IntToString(p.0);
    FlatInputFields(DriverCall(pl, subj, f, p.1, p.2), c, kind, "brain", f, p.1, p.2)
  }

  /** The flattened pattern matches the within-run name. */
  lemma FlatMatch(pl: Places, subj: string, run: string, c: string, p: (int, string, string), kind: string)
    requires '*' !in subj && '*' !in c && '*' !in p.1 && '*' !in p.2 && '*' !in kind
    ensures FnMatch(Join(FlatFields(pl, subj, c, p, kind), '_'),
                    Join(Stage1WithinRun.NameFields(subj, "run-" + run, c, p, kind), '_'))
  {
    IntToStringChars(p.0);
    var pf := FlatFields(pl, subj, c, p, kind);
    var nf := Stage1WithinRun.NameFields(subj, "run-" + run, c, p, kind);
    assert "task-" + "mid" == "task-mid" && "mask-" + "brain" == "mask-brain";
    assert "" + kind + ".nii.gz" == kind + ".nii.gz";
    RunFieldsMatch(pf, nf, run);
  }

  /** Neither the flattened pattern nor the within-run name holds a '/'. */
  lemma FlatNoSlash(pl: Places, subj: string, run: string, c: string, p: (int, string, string), kind: string)
    requires '/' !in subj && '/' !in run && '/' !in c && '/' !in p.1 && '/' !in p.2 && '/' !in kind
    ensures '/' !in Join(FlatFields(pl, subj, c, p, kind), '_')
    ensures '/' !in Join(Stage1WithinRun.NameFields(subj, "run-" + run, c, p, kind), '_')
  {
    FlatFieldsNoSlash(pl, subj, c, p, kind);
    NameFieldsNoSlash(subj, run, c, p, kind);
  }

  lemma FlatFieldsNoSlash(pl: Places, subj: string, c: string, p: (int, string, string), kind: string)
    requires '/' !in subj && '/' !in c && '/' !in p.1 && '/' !in p.2 && '/' !in kind
    ensures '/' !in Join(FlatFields(pl, subj, c, p, kind), '_')
  {
    IntToStringChars(p.0);
    JoinNoSep(FlatFields(pl, subj, c, p, kind), '_', '/');
  }

  lemma NameFieldsNoSlash(subj: string, run: string, c: string, p: (int, string, string), kind: string)
    requires '/' !in subj && '/' !in run && '/' !in c && '/' !in p.1 && '/' !in p.2 && '/' !in kind
    ensures '/' !in Join(Stage1WithinRun.NameFields(subj, "run-" + run, c, p, kind), '_')
  {
    IntToStringChars(p.0);
    JoinNoSep(Stage1WithinRun.NameFields(subj, "run-" + run, c, p, kind), '_', '/');
  }
}
