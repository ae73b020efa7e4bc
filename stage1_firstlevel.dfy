/** Stage1_Code/firstlevel_model_permutations.py: the eight (fwhm, motion,
    model) permutations are written to model_permutations.csv and read back as
    text; every subject, run and permutation is fitted with the run's brain mask
    and `int(fwhm)` smoothing, and a beta and a variance map are written per
    contrast. */
module Stage1FirstLevel {
  import opened Text
  import opened Errors
  import opened Design
  import opened Effects
  import opened FirstLevel
  import opened Chunks
  import opened Permutations
  import opened Stage1Layout

  /** The axes of the grid: smoothing kernels, motion options, model types. */
  const Fwhms: seq<int> := [4, 7]
  const Motions: seq<string> := ["opt1", "opt3"]
  const Models: seq<string> := ["AntMod", "FixMod"]

  /** `product(Fwhms, Motions, Models)`. */
  const Perms: seq<(int, string, string)> := Product3(Fwhms, Motions, Models)

  function CsvPath(pl: Places): string
  {
    pl.proj + "/model_permutations.csv"
  }

  /** The rows the loop iterates over: the CSV text read back, first row dropped. */
  function Rows(): seq<seq<string>>
  {
    ReadPermutations(WriteCsv(Perms))
  }

  function MaskPattern(pl: Places, subj: string, run: string): string
  {
    FuncPrefix(pl, subj, run) + "_space-MNI152NLin2009cAsym_res-2_desc-brain_mask.nii.gz"
  }

  /** `{subj}_ses-01_task-mid_{run}_contrast-{c}_fwhm-{s}_mot-{m}_mod-{mod}_{kind}.nii.gz`:
      outputs say ses-01 although the inputs are read from ses-1. */
  function NameFields(subj: string, run: string, con: string, smooth: string, motion: string,
                      model: string, kind: string): seq<string>
  {
    [subj, "ses-01", "task-mid", run, "contrast-" + con, "fwhm-" + smooth, "mot-" + motion,
     "mod-" + model, kind + ".nii.gz"]
  }

  function OutPath(pl: Places, subj: string, run: string, con: string, smooth: string, motion: string,
                   model: string, kind: string): string
  {
    pl.out + "/" + Join(NameFields(subj, run, con, smooth, motion, model, kind), '_')
  }

  /** Beta and variance maps of contrast c. */
  function BetaVarPair(pl: Places, subj: string, run: string, p: (string, string, string), fit: Fit, c: nat)
    : (r: seq<Effect>)
    requires c < |Contrasts|
    ensures |r| == 2
  {
    var name, con := Contrasts[c].0, Contrasts[c].1;
    [Save(OutPath(pl, subj, run, name, p.0, p.1, p.2, "beta"), Image(ContrastMap(fit, con, "effect_size"))),
     Save(OutPath(pl, subj, run, name, p.0, p.1, p.2, "var"), Image(ContrastMap(fit, con, "effect_variance")))]
  }

  /** The maps of every contrast, contrast by contrast. */
  function BetaVarParts(pl: Places, subj: string, run: string, p: (string, string, string), fit: Fit)
    : (r: seq<seq<Effect>>)
    ensures |r| == |Contrasts| && Uniform(r, 2)
  {
    seq(|Contrasts|, c requires 0 <= c < |Contrasts| => BetaVarPair(pl, subj, run, p, fit, c))
  }

  /** Beta and variance maps of one fit: two per contrast, in contrast order. */
  function BetaVarSaves(pl: Places, subj: string, run: string, p: (string, string, string), fit: Fit)
    : (r: seq<Effect>)
    ensures |r| == 2 * |Contrasts|
  {
    FlattenLength(BetaVarParts(pl, subj, run, p, fit), 2);
    Flatten(BetaVarParts(pl, subj, run, p, fit))
  }

  /** One permutation of one subject's run; `row` is a CSV row as text.
      The source passes `subject_label` as the one-element set `{subj}`; the
      fit records the bare subject, since the label only tags the model and
      no output name is built from it. */
  function PermStep(disk: Disk, pl: Places, subj: string, run: string, row: seq<string>): (r: Outcome)
    requires disk.Valid()
    ensures r.failure.Some? ==> r.effects == []
    ensures r.failure.None? ==> |r.effects| == 2 * |Contrasts|
  {
    var p := Unpack3(row);
    var events := ReadEvents(disk, EventsPath(pl, subj, run));
    if p.Err? then Fail(p.error)
    else if events.Err? then Fail(events.error)
    else
      var mask := FirstMatch(disk, MaskPattern(pl, subj, run));
      var bold := FirstMatch(disk, BoldPattern(pl, subj, run));
      if mask.Err? then Fail(mask.error)
      else if bold.Err? then Fail(bold.error)
      else
        var (smooth, motion, model) := p.value;
        var design := Stage1Design(disk, pl, subj, run, events.value, motion, model);
        var fwhm := ParseInt(smooth);
        if design.Err? then Fail(design.error)
        else if fwhm.None? then Fail(NotAnInt(smooth))
        else
          var fit := Fit(subj, MaskPath(mask.value), BoldTr, Some(fwhm.value as real), bold.value, design.value);
          Done(BetaVarSaves(pl, subj, run, p.value, fit))
  }

  function PermsFrom(disk: Disk, pl: Places, subj: string, run: string, rows: seq<seq<string>>, k: nat): Outcome
    requires disk.Valid()
    decreases |rows| - k
  {
    if k >= |rows| then Done([])
    else Then(PermStep(disk, pl, subj, run, rows[k]), PermsFrom(disk, pl, subj, run, rows, k + 1))
  }

  function RunsFrom(disk: Disk, pl: Places, subj: string, rows: seq<seq<string>>, j: nat): Outcome
    requires disk.Valid()
    decreases |Runs| - j
  {
    if j >= |Runs| then Done([])
    else Then(PermsFrom(disk, pl, subj, Runs[j], rows, 0), RunsFrom(disk, pl, subj, rows, j + 1))
  }

  function SubjectsFrom(disk: Disk, pl: Places, subjects: seq<string>, rows: seq<seq<string>>, i: nat): Outcome
    requires disk.Valid()
    decreases |subjects| - i
  {
    if i >= |subjects| then Done([])
    else Then(RunsFrom(disk, pl, subjects[i], rows, 0), SubjectsFrom(disk, pl, subjects, rows, i + 1))
  }

  /** Everything the script does: write the CSV, make the output directory,
      then the subject, run and permutation loops over the rows read back. */
  function FirstLevelScript(disk: Disk, pl: Places, subjects: seq<string>): Outcome
    requires disk.Valid()
  {
    Then(Done([Save(CsvPath(pl), Text(WriteCsv(Perms)))] + MakeOut(disk, pl.out)),
         SubjectsFrom(disk, pl, subjects, Rows(), 0))
  }

  // ------------------------------------------------------------ the script

  method SaveBetaVar(pl: Places, subj: string, run: string, p: (string, string, string), fit: Fit)
    returns (saves: seq<Effect>)
    ensures saves == BetaVarSaves(pl, subj, run, p, fit)
  {
    ghost var parts := BetaVarParts(pl, subj, run, p, fit);
    saves := [];
    var k := 0;
    while k < |Contrasts|
      invariant k <= |Contrasts|
      invariant saves == Flatten(parts[..k])
    {
      var name, con := Contrasts[k].0, Contrasts[k].1;
      var pair := [Save(OutPath(pl, subj, run, name, p.0, p.1, p.2, "beta"), Image(ContrastMap(fit, con, "effect_size"))),
                   Save(OutPath(pl, subj, run, name, p.0, p.1, p.2, "var"), Image(ContrastMap(fit, con, "effect_variance")))];
      assert pair == parts[k];
      FlattenSnoc(parts, k);
      saves := saves + pair;
      k := k + 1;
    }
    assert parts[..k] == parts;
  }

  method Permutation(disk: Disk, pl: Places, subj: string, run: string, row: seq<string>) returns (out: Outcome)
    requires disk.Valid()
    ensures out == PermStep(disk, pl, subj, run, row)
  {
    var p := Unpack3(row);
    if p.Err? {
      return Fail(p.error);
    }
    var (smooth, motion, model) := p.value;
    var events := ReadEvents(disk, EventsPath(pl, subj, run));
    if events.Err? {
      return Fail(events.error);
    }
    var mask := FirstMatch(disk, MaskPattern(pl, subj, run));
    if mask.Err? {
      return Fail(mask.error);
    }
    var bold := FirstMatch(disk, BoldPattern(pl, subj, run));
    if bold.Err? {
      return Fail(bold.error);
    }
    var design := DesignRun(disk, pl, subj, run, events.value, motion, model);
    if design.Err? {
      return Fail(design.error);
    }
    var fwhm := ParseInt(smooth);
    if fwhm.None? {
      return Fail(NotAnInt(smooth));
    }
    var fit := Fit(subj, MaskPath(mask.value), BoldTr, Some(fwhm.value as real), bold.value, design.value);
    var saves := SaveBetaVar(pl, subj, run, p.value, fit);
    out := Done(saves);
  }

  method RunPerms(disk: Disk, pl: Places, subj: string, run: string, rows: seq<seq<string>>) returns (out: Outcome)
    requires disk.Valid()
    ensures out == PermsFrom(disk, pl, subj, run, rows, 0)
  {
    out := Done([]);
    ThenDone(PermsFrom(disk, pl, subj, run, rows, 0));
    var k := 0;
    while k < |rows|
      invariant k <= |rows| && out.failure.None?
      invariant Then(out, PermsFrom(disk, pl, subj, run, rows, k)) == PermsFrom(disk, pl, subj, run, rows, 0)
    {
      var step := Permutation(disk, pl, subj, run, rows[k]);
      ThenAssoc(out, step, PermsFrom(disk, pl, subj, run, rows, k + 1));
      out := Then(out, step);
      if step.failure.Some? {
        return;
      }
      k := k + 1;
    }
    ThenDone(out);
  }

  method SubjectRuns(disk: Disk, pl: Places, subj: string, rows: seq<seq<string>>) returns (out: Outcome)
    requires disk.Valid()
    ensures out == RunsFrom(disk, pl, subj, rows, 0)
  {
    out := Done([]);
    ThenDone(RunsFrom(disk, pl, subj, rows, 0));
    var j := 0;
    while j < |Runs|
      invariant j <= |Runs| && out.failure.None?
      invariant Then(out, RunsFrom(disk, pl, subj, rows, j)) == RunsFrom(disk, pl, subj, rows, 0)
    {
      var step := RunPerms(disk, pl, subj, Runs[j], rows);
      ThenAssoc(out, step, RunsFrom(disk, pl, subj, rows, j + 1));
      out := Then(out, step);
      if step.failure.Some? {
        return;
      }
      j := j + 1;
    }
    ThenDone(out);
  }

  /** The script; `subjects` is the 'Subjects' column of subjects.csv. */
  method RunScript(disk: Disk, pl: Places, subjects: seq<string>) returns (out: Outcome)
    requires disk.Valid()
    ensures out == FirstLevelScript(disk, pl, subjects)
  {
    var csv := WriteCsv(Perms);
    out := Done([Save(CsvPath(pl), Text(csv))] + MakeOut(disk, pl.out));
    var rows := ReadPermutations(csv);
    var i := 0;
    while i < |subjects|
      invariant i <= |subjects| && out.failure.None?
      invariant Then(out, SubjectsFrom(disk, pl, subjects, rows, i)) == FirstLevelScript(disk, pl, subjects)
    {
      var step := SubjectRuns(disk, pl, subjects[i], rows);
      ThenAssoc(out, step, SubjectsFrom(disk, pl, subjects, rows, i + 1));
      out := Then(out, step);
      if step.failure.Some? {
        return;
      }
      i := i + 1;
    }
    ThenDone(out);
  }

  // ------------------------------------------------------------ properties

  /** The permutations in `itertools.product` order. */
  lemma PermsOrder()
    ensures Perms == [(4, "opt1", "AntMod"), (4, "opt1", "FixMod"), (4, "opt3", "AntMod"), (4, "opt3", "FixMod"),
                      (7, "opt1", "AntMod"), (7, "opt1", "FixMod"), (7, "opt3", "AntMod"), (7, "opt3", "FixMod")]
  {
    var xs, ys, zs := Fwhms, Motions, Models;
    ProductLength(xs, ys, zs);
    ProductIndex(xs, ys, zs, 0, 0, 0);
    ProductIndex(xs, ys, zs, 0, 0, 1);
    ProductIndex(xs, ys, zs, 0, 1, 0);
    ProductIndex(xs, ys, zs, 0, 1, 1);
    ProductIndex(xs, ys, zs, 1, 0, 0);
    ProductIndex(xs, ys, zs, 1, 0, 1);
    ProductIndex(xs, ys, zs, 1, 1, 0);
    ProductIndex(xs, ys, zs, 1, 1, 1);
  }

  /** The rows read back are the permutations in order, each as three text
      fields; every one unpacks and its fwhm converts back with `int()`. */
  lemma RowsAreText(k: nat)
    requires k < |Perms|
    ensures |Rows()| == |Perms|
    ensures Rows()[k] == [IntToString(Perms[k].0), Perms[k].1, Perms[k].2]
    ensures Unpack3(Rows()[k]) == Ok((IntToString(Perms[k].0), Perms[k].1, Perms[k].2))
    ensures ParseInt(IntToString(Perms[k].0)) == Some(Perms[k].0)
  {
    PlainPerms(Fwhms, Motions, Models);
    RowOf(Perms, k);
  }

  /** For contrast `c` the fit writes its beta map (t = 0), then its variance
      map (t = 1), at entry `2·c + t`. */
  lemma BetaVarAt(pl: Places, subj: string, run: string, p: (string, string, string), fit: Fit,
                  c: nat, t: nat)
    requires c < |Contrasts| && t < 2
    ensures var s := BetaVarSaves(pl, subj, run, p, fit);
            2 * c + t < |s| && s[2 * c + t] == BetaVarPair(pl, subj, run, p, fit, c)[t]
  {
    FlattenAt(BetaVarParts(pl, subj, run, p, fit), 2, c, t);
  }

  /** Output names determine subject, run, contrast, permutation and kind
      when no field contains '_'. */
  lemma OutPathInjective(pl: Places, subj1: string, run1: string, con1: string, p1: (string, string, string), kind1: string,
                         subj2: string, run2: string, con2: string, p2: (string, string, string), kind2: string)
    requires Token(subj1) && Token(run1) && Token(con1) && Token(p1.0) && Token(p1.1) && Token(p1.2) && Token(kind1)
    requires Token(subj2) && Token(run2) && Token(con2) && Token(p2.0) && Token(p2.1) && Token(p2.2) && Token(kind2)
    ensures OutPath(pl, subj1, run1, con1, p1.0, p1.1, p1.2, kind1) == OutPath(pl, subj2, run2, con2, p2.0, p2.1, p2.2, kind2)
            <==> subj1 == subj2 && run1 == run2 && con1 == con2 && p1 == p2 && kind1 == kind2
  {
    var f1 := NameFields(subj1, run1, con1, p1.0, p1.1, p1.2, kind1);
    var f2 := NameFields(subj2, run2, con2, p2.0, p2.1, p2.2, kind2);
    if Join(f1, '_') == Join(f2, '_') || OutPath(pl, subj1, run1, con1, p1.0, p1.1, p1.2, kind1) ==
                                        OutPath(pl, subj2, run2, con2, p2.0, p2.1, p2.2, kind2) {
      Cancel(pl.out + "/", Join(f1, '_'), Join(f2, '_'), "");
      assert NoSep(f1, '_') && NoSep(f2, '_');
      JoinInjective(f1, f2, '_');
      Cancel("contrast-", con1, con2, "");
      Cancel("fwhm-", p1.0, p2.0, "");
      Cancel("mot-", p1.1, p2.1, "");
      Cancel("mod-", p1.2, p2.2, "");
      assert "" + kind1 == kind1 && "" + kind2 == kind2;
      Cancel("", kind1, kind2, ".nii.gz");
    }
  }

  /** When every permutation of a run completes, the run writes two maps for
      each of the four contrasts of every permutation. */
  lemma {:induction false} PermsFromComplete(disk: Disk, pl: Places, subj: string, run: string,
                                             rows: seq<seq<string>>, k: nat)
    requires disk.Valid() && k <= |rows|
    requires forall m :: k <= m < |rows| ==> PermStep(disk, pl, subj, run, rows[m]).failure.None?
    ensures PermsFrom(disk, pl, subj, run, rows, k).failure.None?
    ensures |PermsFrom(disk, pl, subj, run, rows, k).effects| == 8 * (|rows| - k)
    decreases |rows| - k
  {
    if k < |rows| {
      var step, rest := PermStep(disk, pl, subj, run, rows[k]), PermsFrom(disk, pl, subj, run, rows, k + 1);
      assert PermsFrom(disk, pl, subj, run, rows, k) == Then(step, rest);
      assert step.failure.None? && |step.effects| == 8 by {
        assert |Contrasts| == 4;
      }
      PermsFromComplete(disk, pl, subj, run, rows, k + 1);
    }
  }

  /** A row that does not have three fields stops the script with the
      unpacking error before anything is read. */
  lemma ShortRowFails(disk: Disk, pl: Places, subj: string, run: string, row: seq<string>)
    requires disk.Valid() && |row| != 3
    ensures PermStep(disk, pl, subj, run, row) == Fail(UnpackMismatch(3, |row|))
  {
  }
}
