/** Stage2_Code/runs_withinrun_permutations.py: for one subject and session,
    each run and each of the eight (fwhm, motion, model) permutations reads the
    events, harmonises ABCD/MLS labels (any other sample is skipped), builds the
    design, appends one efficiency row to the run's table and rewrites it, fits
    the model and writes beta, variance and residual-variance maps per contrast. */
module Stage2WithinRun {
  import opened Text
  import opened Errors
  import opened Regressors
  import opened Design
  import opened Effects
  import opened FirstLevel
  import opened Permutations
  import opened Chunks

  /** The command-line arguments (`--mask` and `--mask_label` may be absent). */
  datatype Args = Args(sample: string, subj: string, task: string, ses: string, stc: Option<string>,
                       numvols: int, boldtr: real, beh: string, fmriprep: string,
                       mask: Option<string>, maskLabel: Option<string>, out: string)

  const Runs: seq<string> := ["01", "02"]

  /** `list(product([3, 4], ["opt1", "opt2"], ["CueMod", "AntMod"]))`. */
  const Perms: seq<(int, string, string)> := Product3([3, 4], ["opt1", "opt2"], ["CueMod", "AntMod"])

  /** The efficiency table's header: model, run, then the contrast names. */
  const EffHeader: seq<string> := ["model", "run", "Lgain-Neut", "Sgain-Neut", "Lgain-Base", "Sgain-Base"]

  function EventsPath(a: Args, run: string): string
  {
    a.beh + "/" + a.subj + "/ses-" + a.ses + "/func/" + a.subj + "_ses-" + a.ses + "_task-" + a.task +
    "_run-" + run + "_events.tsv"
  }

  function FuncPrefix(a: Args, run: string): string
  {
    a.fmriprep + "/" + a.subj + "/ses-" + a.ses + "/func/" + a.subj + "_ses-" + a.ses + "_task-" + a.task +
    "_run-" + run
  }

  function ConfPath(a: Args, run: string): string
  {
    FuncPrefix(a, run) + "_desc-confounds_timeseries.tsv"
  }

  function BoldPattern(a: Args, run: string): string
  {
    FuncPrefix(a, run) + "_space-MNI152NLin2009cAsym_res-2_desc-preproc_bold.nii.gz"
  }

  /** `{out}/{subj}_ses-{ses}_task-{task}_run-{run}_efficiency.tsv`. */
  function EffPath(a: Args, run: string): string
  {
    a.out + "/" + Join([a.subj, "ses-" + a.ses, "task-" + a.task, "run-" + run, "efficiency.tsv"], '_')
  }

  /** The '_'-separated fields of
      `{subj}_ses-{ses}_task-{task}_run-{run}_contrast-{c}_mask-{label}_mot-{m}_mod-{mod}_fwhm-{f}_stat-{kind}.nii.gz`. */
  function StatFields(a: Args, run: string, con: string, p: (int, string, string), kind: string): seq<string>
  {
    NameFields(a, run, con, p.1, p.2, IntToString(p.0), kind)
  }

  /** The same fields with the fwhm as it is printed. */
  function NameFields(a: Args, run: string, con: string, motion: string, model: string, fwhm: string,
                      kind: string): seq<string>
  {
    [a.subj, "ses-" + a.ses, "task-" + a.task, "run-" + run, "contrast-" + con,
     "mask-" + Shown(a.maskLabel), "mot-" + motion, "mod-" + model, "fwhm-" + fwhm,
     "stat-" + kind + ".nii.gz"]
  }

  function StatPath(a: Args, run: string, con: string, p: (int, string, string), kind: string): string
  {
    a.out + "/" + Join(StatFields(a, run, con, p, kind), '_')
  }

  /** One permutation's result and the run's efficiency rows after it. */
  datatype Step = Step(out: Outcome, eff: seq<EffRow>)

  /** Only the ABCD and MLS samples are renamed and modelled; any other skips. */
  predicate Harmonized(a: Args)
  {
    a.sample == "abcd" || a.sample == "mls"
  }

  /** A completed permutation: one efficiency row for this model and run is
      appended, the whole table is rewritten first, then three maps per contrast. */
  predicate Grown(a: Args, run: string, p: (int, string, string), eff: seq<EffRow>, r: Step)
  {
    |r.eff| == |eff| + 1 && r.eff[..|eff|] == eff &&
    r.eff[|eff|].model == p.2 && r.eff[|eff|].run == run &&
    |r.out.effects| == 1 + 3 * |Contrasts| &&
    r.out.effects[0] == Save(EffPath(a, run), EfficiencyTable(EffHeader, r.eff))
  }

  /** The three maps written for contrast c: beta, variance and residual variance. */
  function ContrastTriple(a: Args, run: string, p: (int, string, string), fit: Fit,
                          design: DesignRequest, matrix: ContrastMatrix, c: nat): (r: seq<Effect>)
    requires c < |Contrasts|
    ensures |r| == 3
  {
    var name, con := Contrasts[c].0, Contrasts[c].1;
    var variance := ContrastMap(fit, con, "effect_variance");
    [Save(StatPath(a, run, name, p, "beta"), Image(ContrastMap(fit, con, "effect_size"))),
     Save(StatPath(a, run, name, p, "var"), Image(variance)),
     Save(StatPath(a, run, name, p, "residvar"), Image(Residual(variance, design, matrix, c)))]
  }

  /** The maps of every contrast, contrast by contrast. */
  function ContrastParts(a: Args, run: string, p: (int, string, string), fit: Fit,
                         design: DesignRequest, matrix: ContrastMatrix): (r: seq<seq<Effect>>)
    ensures |r| == |Contrasts| && Uniform(r, 3)
  {
    seq(|Contrasts|, c requires 0 <= c < |Contrasts| => ContrastTriple(a, run, p, fit, design, matrix, c))
  }

  /** The maps written for one fitted model: three per contrast, in contrast order. */
  function ContrastSaves(a: Args, run: string, p: (int, string, string), fit: Fit,
                         design: DesignRequest, matrix: ContrastMatrix): (r: seq<Effect>)
    ensures |r| == 3 * |Contrasts|
  {
    FlattenLength(ContrastParts(a, run, p, fit, design, matrix), 3);
    Flatten(ContrastParts(a, run, p, fit, design, matrix))
  }

  /** What `eff_estimator` raises when the contrast matrix is wider than the
      design: the product `contrast_matrix @ inv(X'X)` has mismatched shapes.
      The matrix's columns start with the design's (`MatrixColumnsSpec`), so
      it is wider exactly when its columns differ from the design's. */
  const EffError: Error := LibraryError("eff_estimator")

  /** From a harmonised events table on: bold file, regressors, design,
      efficiency row and the maps. A completed step's contrast matrix has
      exactly the design's columns, so every weighted condition is one of them. */
  function FitStep(a: Args, disk: Disk, columnsOf: DesignRequest -> seq<string>, run: string,
                   p: (int, string, string), t: Table, eff: seq<EffRow>): (r: Step)
    requires t.WellFormed()
    ensures r.out.failure.Some? ==> r.out.effects == [] && r.eff == eff
    ensures r.out.failure.None? ==> Grown(a, run, p, eff, r)
    ensures r.out.failure.None? ==> r.eff[|eff|].matrix == ContrastMatrixOf(columnsOf(r.eff[|eff|].design), ContrastWeights)
    ensures r.out.failure.None? ==> r.eff[|eff|].matrix.columns == columnsOf(r.eff[|eff|].design)
  {
    var bold := FirstMatch(disk, BoldPattern(a, run));
    var conf := Stage2Regressors(disk.confounds, ConfPath(a, run), p.1);
    var labels := ModelType(p.2);
    if bold.Err? then Step(Fail(bold.error), eff)
    else if conf.Err? then Step(Fail(conf.error), eff)
    else if labels.Err? then Step(Fail(labels.error), eff)
    else
      var design := CreateDesignSpec(t, a.boldtr, a.numvols, labels.value.0, labels.value.1,
                                     conf.value, "spm", Truthy(a.stc)).1;
      if design.Err? then Step(Fail(design.error), eff)
      else
        var matrix := ContrastMatrixOf(columnsOf(design.value), ContrastWeights);
        if matrix.columns != columnsOf(design.value) then Step(Fail(EffError), eff)
        else
          var eff' := eff + [EffRow(p.2, run, design.value, matrix)];
          var fit := Fit(a.subj, MaskOf(a.mask), a.boldtr, Some(p.0 as real), bold.value, design.value);
          Step(Done([Save(EffPath(a, run), EfficiencyTable(EffHeader, eff'))] +
                    ContrastSaves(a, run, p, fit, design.value, matrix)), eff')
  }

  /** A step completes only when every weighted condition is a column of the
      design: otherwise the contrast matrix gains a column and `eff_estimator`
      raises before anything is written. */
  lemma FitNeedsWeightedColumns(a: Args, disk: Disk, columnsOf: DesignRequest -> seq<string>, run: string,
                                p: (int, string, string), t: Table, eff: seq<EffRow>)
    requires t.WellFormed()
    ensures var r := FitStep(a, disk, columnsOf, run, p, t, eff);
            r.out.failure.None? ==>
              forall i, j :: 0 <= i < |ContrastWeights| && 0 <= j < |ContrastWeights[i].1| ==>
                ContrastWeights[i].1[j].0 in columnsOf(r.eff[|eff|].design)
  {
    var r := FitStep(a, disk, columnsOf, run, p, t, eff);
    if r.out.failure.None? {
      var cols := columnsOf(r.eff[|eff|].design);
      assert MatrixColumns(cols, ContrastWeights) == cols;
      MatrixWidth(cols, ContrastWeights);
    }
  }

  /** The body of the permutation loop for one run. */
  function PermStep(a: Args, disk: Disk, columnsOf: DesignRequest -> seq<string>, run: string,
                    p: (int, string, string), eff: seq<EffRow>): (r: Step)
    requires disk.Valid()
    ensures r.out.failure.Some? ==> r.out.effects == [] && r.eff == eff
    ensures r.out == Done([]) <==> EventsPath(a, run) in disk.events && !Harmonized(a)
    ensures r.out == Done([]) ==> r.eff == eff
    ensures r.out.failure.None? && r.out != Done([]) ==> Grown(a, run, p, eff, r)
  {
    var events := ReadEvents(disk, EventsPath(a, run));
    if events.Err? then Step(Fail(events.error), eff)
    else if !Harmonized(a) then Step(Done([]), eff)
    else
      var t := Harmonize(events.value, if a.sample == "abcd" then AbcdColumns else MlsColumns);
      if t.Err? then Step(Fail(t.error), eff)
      else FitStep(a, disk, columnsOf, run, p, t.value, eff)
  }

  function PermsFrom(a: Args, disk: Disk, columnsOf: DesignRequest -> seq<string>, run: string,
                     k: nat, eff: seq<EffRow>): Outcome
    requires disk.Valid()
    decreases |Perms| - k
  {
    if k >= |Perms| then Done([])
    else
      var s := PermStep(a, disk, columnsOf, run, Perms[k], eff);
      Then(s.out, PermsFrom(a, disk, columnsOf, run, k + 1, s.eff))
  }

  function RunsFrom(a: Args, disk: Disk, columnsOf: DesignRequest -> seq<string>, j: nat): Outcome
    requires disk.Valid()
    decreases |Runs| - j
  {
    if j >= |Runs| then Done([])
    else Then(PermsFrom(a, disk, columnsOf, Runs[j], 0, []), RunsFrom(a, disk, columnsOf, j + 1))
  }

  /** Everything the script does; `columnsOf` stands for the column names
      nilearn gives the design matrix it builds from a request. */
  function WithinRun(a: Args, disk: Disk, columnsOf: DesignRequest -> seq<string>): Outcome
    requires disk.Valid()
  {
    RunsFrom(a, disk, columnsOf, 0)
  }

  /** Permutation k runs first, then the rest with the grown table. */
  lemma PermsFromStep(a: Args, disk: Disk, columnsOf: DesignRequest -> seq<string>, run: string,
                      k: nat, eff: seq<EffRow>)
    requires disk.Valid() && k < |Perms|
    ensures var s := PermStep(a, disk, columnsOf, run, Perms[k], eff);
            PermsFrom(a, disk, columnsOf, run, k, eff) == Then(s.out, PermsFrom(a, disk, columnsOf, run, k + 1, s.eff))
  {
  }

  /** Run j runs first, then the later runs. */
  lemma RunsFromStep(a: Args, disk: Disk, columnsOf: DesignRequest -> seq<string>, j: nat)
    requires disk.Valid() && j < |Runs|
    ensures RunsFrom(a, disk, columnsOf, j) ==
            Then(PermsFrom(a, disk, columnsOf, Runs[j], 0, []), RunsFrom(a, disk, columnsOf, j + 1))
  {
  }

  // ------------------------------------------------------------ the script

  /** The contrast loop: beta, variance and residual variance per contrast. */
  method SaveContrasts(a: Args, run: string, p: (int, string, string), fit: Fit,
                       design: DesignRequest, matrix: ContrastMatrix) returns (saves: seq<Effect>)
    ensures saves == ContrastSaves(a, run, p, fit, design, matrix)
  {
    ghost var parts := ContrastParts(a, run, p, fit, design, matrix);
    saves := [];
    var k := 0;
    while k < |Contrasts|
      invariant k <= |Contrasts|
      invariant saves == Flatten(parts[..k])
    {
      var name, con := Contrasts[k].0, Contrasts[k].1;
      var betaEst := ContrastMap(fit, con, "effect_size");
      var varEst := ContrastMap(fit, con, "effect_variance");
      var resvar := Residual(varEst, design, matrix, k);
      var triple := [Save(StatPath(a, run, name, p, "beta"), Image(betaEst)),
                     Save(StatPath(a, run, name, p, "var"), Image(varEst)),
                     Save(StatPath(a, run, name, p, "residvar"), Image(resvar))];
      assert triple == parts[k];
      FlattenSnoc(parts, k);
      saves := saves + triple;
      k := k + 1;
    }
    assert parts[..k] == parts;
  }

  /** One iteration of the permutation loop, changing the events frame in
      place as the script does. */
  method Permutation(a: Args, disk: Disk, columnsOf: DesignRequest -> seq<string>, run: string,
                     p: (int, string, string), combEff: seq<EffRow>) returns (s: Step)
    requires disk.Valid()
    ensures s == PermStep(a, disk, columnsOf, run, p, combEff)
  {
    var events := ReadEvents(disk, EventsPath(a, run));
    if events.Err? {
      return Step(Fail(events.error), combEff);
    }
    var columns: Dict;
    if a.sample == "abcd" {
      columns := AbcdColumns;
    } else if a.sample == "mls" {
      columns := MlsColumns;
    } else {
      return Step(Done([]), combEff);
    }
    var frame := new EventsFrame(RenameColumns(events.value, columns));
    var trialTypes := Get(frame.Snapshot(), "TRIAL_TYPE");
    if trialTypes.Err? {
      return Step(Fail(trialTypes.error), combEff);
    }
    frame.Assign("TRIAL_TYPE", seq(|trialTypes.value|, i requires 0 <= i < |trialTypes.value| =>
      ReplaceCell(CueTypes, trialTypes.value[i])));
    assert Harmonize(events.value, columns) == Ok(frame.Snapshot());
    s := FitPermutation(a, disk, columnsOf, run, p, frame, combEff);
  }

  /** The rest of one iteration once the events are harmonised: regressors,
      design (which adds its column to the frame), contrast matrix, fit and
      saves. */
  method FitPermutation(a: Args, disk: Disk, columnsOf: DesignRequest -> seq<string>, run: string,
                        p: (int, string, string), frame: EventsFrame, combEff: seq<EffRow>) returns (s: Step)
    requires frame.Valid()
    modifies frame
    ensures s == FitStep(a, disk, columnsOf, run, p, old(frame.Snapshot()), combEff)
  {
    var (fwhm, motion, model) := p;
    var bold := FirstMatch(disk, BoldPattern(a, run));
    if bold.Err? {
      return Step(Fail(bold.error), combEff);
    }
    var conf := PullRegressorsStage2(disk.confounds, ConfPath(a, run), motion, None);
    if conf.Err? {
      return Step(Fail(conf.error), combEff);
    }
    var labels := ModelType(model);
    if labels.Err? {
      return Step(Fail(labels.error), combEff);
    }
    var design := CreateDesignMid(frame, a.boldtr, a.numvols, labels.value.0, labels.value.1,
                                  conf.value, "spm", Truthy(a.stc));
    if design.Err? {
      return Step(Fail(design.error), combEff);
    }
    var matrix := BuildContrastMatrix(columnsOf(design.value), ContrastWeights);
    if matrix.columns != columnsOf(design.value) {
      return Step(Fail(EffError), combEff);
    }
    var eff := combEff + [EffRow(model, run, design.value, matrix)];
    var fit := Fit(a.subj, MaskOf(a.mask), a.boldtr, Some(fwhm as real), bold.value, design.value);
    var saves := SaveContrasts(a, run, p, fit, design.value, matrix);
    s := Step(Done([Save(EffPath(a, run), EfficiencyTable(EffHeader, eff))] + saves), eff);
  }

  /** Running permutation k after `out`, then the rest with its table; when
      it raises, that is the end of the loop. */
  lemma PermsLoopStep(a: Args, disk: Disk, columnsOf: DesignRequest -> seq<string>, run: string, k: nat,
                      eff: seq<EffRow>, out: Outcome, s: Step, whole: Outcome)
    requires disk.Valid() && k < |Perms| && s == PermStep(a, disk, columnsOf, run, Perms[k], eff)
    requires out.failure.None? && Then(out, PermsFrom(a, disk, columnsOf, run, k, eff)) == whole
    ensures s.out.failure.Some? ==> Then(out, s.out) == whole
    ensures s.out.failure.None? ==> Then(out, s.out).failure.None? &&
                                    Then(Then(out, s.out), PermsFrom(a, disk, columnsOf, run, k + 1, s.eff)) == whole
  {
    PermsFromStep(a, disk, columnsOf, run, k, eff);
    ThenAssoc(out, s.out, PermsFrom(a, disk, columnsOf, run, k + 1, s.eff));
  }

  /** The permutation loop of one run, the efficiency table starting empty;
      an exception stops the loop. */
  method RunPermutations(a: Args, disk: Disk, columnsOf: DesignRequest -> seq<string>, run: string)
    returns (out: Outcome)
    requires disk.Valid()
    ensures out == PermsFrom(a, disk, columnsOf, run, 0, [])
  {
    ghost var whole := PermsFrom(a, disk, columnsOf, run, 0, []);
    out := Done([]);
    ThenDone(whole);
    var combEff: seq<EffRow> := [];
    var k := 0;
    while k < |Perms|
      invariant k <= |Perms| && out.failure.None?
      invariant Then(out, PermsFrom(a, disk, columnsOf, run, k, combEff)) == whole
    {
      var s := Permutation(a, disk, columnsOf, run, Perms[k], combEff);
      PermsLoopStep(a, disk, columnsOf, run, k, combEff, out, s, whole);
      out := Then(out, s.out);
      if s.out.failure.Some? {
        return;
      }
      combEff := s.eff;
      k := k + 1;
    }
    ThenDone(out);
  }

  /** The script: for each run the permutation loop; the first exception
      stops everything. */
  method RunScript(a: Args, disk: Disk, columnsOf: DesignRequest -> seq<string>) returns (out: Outcome)
    requires disk.Valid()
    ensures out == WithinRun(a, disk, columnsOf)
  {
    out := Done([]);
    ThenDone(WithinRun(a, disk, columnsOf));
    var j := 0;
    while j < |Runs|
      invariant j <= |Runs| && out.failure.None?
      invariant Then(out, RunsFrom(a, disk, columnsOf, j)) == WithinRun(a, disk, columnsOf)
    {
      var perms := RunPermutations(a, disk, columnsOf, Runs[j]);
      ghost var rest := RunsFrom(a, disk, columnsOf, j + 1);
      assert Then(out, RunsFrom(a, disk, columnsOf, j)) == Then(Then(out, perms), rest) by {
        RunsFromStep(a, disk, columnsOf, j);
        ThenAssoc(out, perms, rest);
      }
      out := Then(out, perms);
      if perms.failure.Some? {
        return;
      }
      j := j + 1;
    }
    ThenDone(out);
  }

  // ------------------------------------------------------------ properties

  /** `itertools.product` order: fwhm slowest, model fastest. */
  lemma PermsOrder()
    ensures Perms == [(3, "opt1", "CueMod"), (3, "opt1", "AntMod"), (3, "opt2", "CueMod"), (3, "opt2", "AntMod"),
                      (4, "opt1", "CueMod"), (4, "opt1", "AntMod"), (4, "opt2", "CueMod"), (4, "opt2", "AntMod")]
  {
    var xs, ys, zs := [3, 4], ["opt1", "opt2"], ["CueMod", "AntMod"];
    ProductLength(xs, ys, zs);
    ProductIndex(xs, ys, zs, 0, 0, 0);
    ProductIndex(xs, ys, zs, 0, 0, 1);
    ProductIndex(xs, ys, zs, 0, 1, 0);
    ProductIndex(xs, ys, zs, 0, 1, 1);
    ProductIndex(xs, ys, zs, 1, 0, 0);
    ProductIndex(xs, ys, zs, 1, 0, 1);
    ProductIndex(xs, ys, zs, 1, 1, 0);
    ProductIndex(xs, ys, zs, 1, 1, 1);
  }

  /** Every map of a fitted model is named by run, contrast, permutation and
      kind, and no two of them share a name as long as the fields are free of '_'. */
  lemma StatPathInjective(a: Args, run1: string, con1: string, p1: (int, string, string), kind1: string,
                          run2: string, con2: string, p2: (int, string, string), kind2: string)
    requires Token(a.subj) && Token(a.ses) && Token(a.task) && Token(Shown(a.maskLabel))
    requires Token(run1) && Token(con1) && Token(p1.1) && Token(p1.2) && Token(kind1)
    requires Token(run2) && Token(con2) && Token(p2.1) && Token(p2.2) && Token(kind2)
    ensures StatPath(a, run1, con1, p1, kind1) == StatPath(a, run2, con2, p2, kind2) <==>
            run1 == run2 && con1 == con2 && p1 == p2 && kind1 == kind2
  {
    if StatPath(a, run1, con1, p1, kind1) == StatPath(a, run2, con2, p2, kind2) {
      var f1 := StatFields(a, run1, con1, p1, kind1);
      var f2 := StatFields(a, run2, con2, p2, kind2);
      IntToken(p1.0);
      IntToken(p2.0);
      assert NoSep(f1, '_') && NoSep(f2, '_');
      Cancel(a.out + "/", Join(f1, '_'), Join(f2, '_'), "");
      JoinInjective(f1, f2, '_');
      Cancel("run-", run1, run2, "");
      Cancel("contrast-", con1, con2, "");
      Cancel("mot-", p1.1, p2.1, "");
      Cancel("mod-", p1.2, p2.2, "");
      Cancel("fwhm-", IntToString(p1.0), IntToString(p2.0), "");
      IntToStringRoundTrip(p1.0);
      IntToStringRoundTrip(p2.0);
      Cancel("stat-", kind1, kind2, ".nii.gz");
    }
  }

  /** Map t of contrast c (beta, variance, residual variance) is entry `3·c + t`
      of what one fitted model writes. */
  lemma ContrastSavesAt(a: Args, run: string, p: (int, string, string), fit: Fit,
                        design: DesignRequest, matrix: ContrastMatrix, c: nat, t: nat)
    requires c < |Contrasts| && t < 3
    ensures var s := ContrastSaves(a, run, p, fit, design, matrix);
            3 * c + t < |s| && s[3 * c + t] == ContrastTriple(a, run, p, fit, design, matrix, c)[t]
  {
    FlattenAt(ContrastParts(a, run, p, fit, design, matrix), 3, c, t);
  }

  /** The residual variance of contrast `c` uses the efficiency of the matrix
      row named like that contrast. */
  lemma ResidualRowNamed(designCols: seq<string>, c: nat)
    requires c < |Contrasts|
    ensures |ContrastMatrixOf(designCols, ContrastWeights).rows| == |Contrasts|
    ensures ContrastMatrixOf(designCols, ContrastWeights).rows[c].0 == Contrasts[c].0
  {
  }

  /** With a sample other than ABCD or MLS the permutations of a run write
      nothing; they fail only when the run's events file is missing. */
  lemma {:induction false} SkippedPerms(a: Args, disk: Disk, columnsOf: DesignRequest -> seq<string>, run: string,
                                        k: nat, eff: seq<EffRow>)
    requires disk.Valid() && !Harmonized(a)
    ensures PermsFrom(a, disk, columnsOf, run, k, eff) ==
            if k < |Perms| && EventsPath(a, run) !in disk.events then Fail(FileNotFound(EventsPath(a, run)))
            else Done([])
    decreases |Perms| - k
  {
    if k < |Perms| {
      SkippedPerms(a, disk, columnsOf, run, k + 1, eff);
      ThenDone(PermsFrom(a, disk, columnsOf, run, k + 1, eff));
    }
  }

  lemma {:induction false} SkippedRuns(a: Args, disk: Disk, columnsOf: DesignRequest -> seq<string>, j: nat)
    requires disk.Valid() && !Harmonized(a)
    ensures RunsFrom(a, disk, columnsOf, j).effects == []
    ensures RunsFrom(a, disk, columnsOf, j).failure.None? <==>
            forall r :: j <= r < |Runs| ==> EventsPath(a, Runs[r]) in disk.events
    ensures RunsFrom(a, disk, columnsOf, j).failure.Some? ==> RunsFrom(a, disk, columnsOf, j).failure.value.FileNotFound?
    decreases |Runs| - j
  {
    if j < |Runs| {
      var first := PermsFrom(a, disk, columnsOf, Runs[j], 0, []);
      var rest := RunsFrom(a, disk, columnsOf, j + 1);
      assert RunsFrom(a, disk, columnsOf, j) == Then(first, rest);
      SkippedPerms(a, disk, columnsOf, Runs[j], 0, []);
      SkippedRuns(a, disk, columnsOf, j + 1);
      assert (forall r :: j <= r < |Runs| ==> EventsPath(a, Runs[r]) in disk.events) <==>
             EventsPath(a, Runs[j]) in disk.events && forall r :: j + 1 <= r < |Runs| ==> EventsPath(a, Runs[r]) in disk.events;
    }
  }

  /** A subject of any other sample gets no output at all, and the script
      completes exactly when both runs' events files exist. */
  lemma SkippedSampleWritesNothing(a: Args, disk: Disk, columnsOf: DesignRequest -> seq<string>)
    requires disk.Valid() && !Harmonized(a)
    ensures WithinRun(a, disk, columnsOf).effects == []
    ensures WithinRun(a, disk, columnsOf).failure.None? <==>
            EventsPath(a, "01") in disk.events && EventsPath(a, "02") in disk.events
  {
    SkippedRuns(a, disk, columnsOf, 0);
    assert Runs[0] == "01" && Runs[1] == "02";
  }

  /** Any `--stc` value given on the command line, "False" included, is a
      non-empty string and so shifts the frame times by half a TR. */
  lemma StcStringShifts(a: Args)
    requires a.stc.Some? && |a.stc.value| > 0
    ensures Truthy(a.stc)
    ensures forall i :: 0 <= i < |FrameTimes(a.numvols, a.boldtr, Truthy(a.stc))| ==>
              FrameTimes(a.numvols, a.boldtr, Truthy(a.stc))[i] == (i as real) * a.boldtr + a.boldtr / 2.0
  {
    FrameTimesShift(a.numvols, a.boldtr);
  }
}
