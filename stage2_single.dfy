/** Stage2_Code/runs_withinrun_single.py: one (fwhm, motion, model) choice from
    the command line, fitted on runs 01 and 02; per contrast the beta and
    variance maps are written. Unlike the permutations script, 'abcd' and
    upper-case 'MLS' are renamed and every other sample is used as read. */
module Stage2Single {
  import opened Text
  import opened Errors
  import opened Regressors
  import opened Design
  import opened Effects
  import opened FirstLevel
  import opened Chunks
  import Stage2WithinRun

  /** `--fwhm` is read with `float()`: `fwhm` is its value and `fwhmText` the
      way Python prints that float in the output names. */
  datatype Args = Args(sample: string, subj: string, task: string, ses: string, stc: Option<string>,
                       fwhm: real, fwhmText: string, motion: string, model: string,
                       numvols: int, boldtr: real, beh: string, fmriprep: string,
                       mask: Option<string>, maskLabel: Option<string>, out: string)

  /** Python prints an integral float with a trailing ".0". */
  predicate PrintsIntegral(a: Args, n: int)
  {
    a.fwhm == n as real && a.fwhmText == IntToString(n) + ".0"
  }

  /** The arguments the paths share with the permutations script. */
  function Common(a: Args): Stage2WithinRun.Args
  {
    Stage2WithinRun.Args(a.sample, a.subj, a.task, a.ses, a.stc, a.numvols, a.boldtr, a.beh, a.fmriprep,
                         a.mask, a.maskLabel, a.out)
  }

  function StatPath(a: Args, run: string, con: string, kind: string): string
  {
    a.out + "/" + Join(Stage2WithinRun.NameFields(Common(a), run, con, a.motion, a.model, a.fwhmText, kind), '_')
  }

  /** The rename table for a sample; None when the sample is used as read. */
  function RenamesFor(sample: string): (r: Option<Dict>)
    ensures r.Some? <==> sample == "abcd" || sample == "MLS"
  {
    if sample == "abcd" then Some(AbcdColumns)
    else if sample == "MLS" then Some(MlsColumns)
    else None
  }

  /** Beta and variance maps of contrast c. */
  function BetaVarPair(a: Args, run: string, fit: Fit, c: nat): (r: seq<Effect>)
    requires c < |Contrasts|
    ensures |r| == 2
  {
    var name, con := Contrasts[c].0, Contrasts[c].1;
    [Save(StatPath(a, run, name, "beta"), Image(ContrastMap(fit, con, "effect_size"))),
     Save(StatPath(a, run, name, "var"), Image(ContrastMap(fit, con, "effect_variance")))]
  }

  /** The maps of every contrast, contrast by contrast. */
  function BetaVarParts(a: Args, run: string, fit: Fit): (r: seq<seq<Effect>>)
    ensures |r| == |Contrasts| && Uniform(r, 2)
  {
    seq(|Contrasts|, c requires 0 <= c < |Contrasts| => BetaVarPair(a, run, fit, c))
  }

  /** Beta and variance maps of the fitted model: two per contrast, in contrast order. */
  function BetaVarSaves(a: Args, run: string, fit: Fit): (r: seq<Effect>)
    ensures |r| == 2 * |Contrasts|
  {
    FlattenLength(BetaVarParts(a, run, fit), 2);
    Flatten(BetaVarParts(a, run, fit))
  }

  /** One run from the (possibly renamed) events table on. */
  function FitRun(a: Args, disk: Disk, run: string, t: Table): (r: Outcome)
    requires t.WellFormed()
    ensures r.failure.Some? ==> r.effects == []
    ensures r.failure.None? ==> |r.effects| == 2 * |Contrasts|
  {
    var c := Common(a);
    var bold := FirstMatch(disk, Stage2WithinRun.BoldPattern(c, run));
    var conf := Stage2Regressors(disk.confounds, Stage2WithinRun.ConfPath(c, run), a.motion);
    var labels := ModelType(a.model);
    if bold.Err? then Fail(bold.error)
    else if conf.Err? then Fail(conf.error)
    else if labels.Err? then Fail(labels.error)
    else
      var design := CreateDesignSpec(t, a.boldtr, a.numvols, labels.value.0, labels.value.1,
                                     conf.value, "spm", Truthy(a.stc)).1;
      if design.Err? then Fail(design.error)
      else
        var fit := Fit(a.subj, MaskOf(a.mask), a.boldtr, Some(a.fwhm), bold.value, design.value);
        Done(BetaVarSaves(a, run, fit))
  }

  function RunStep(a: Args, disk: Disk, run: string): (r: Outcome)
    requires disk.Valid()
    ensures r.failure.Some? ==> r.effects == []
    ensures r.failure.None? ==> |r.effects| == 2 * |Contrasts|
  {
    var events := ReadEvents(disk, Stage2WithinRun.EventsPath(Common(a), run));
    if events.Err? then Fail(events.error)
    else
      var renames := RenamesFor(a.sample);
      if renames.None? then FitRun(a, disk, run, events.value)
      else
        var t := Harmonize(events.value, renames.value);
        if t.Err? then Fail(t.error) else FitRun(a, disk, run, t.value)
  }

  function RunsFrom(a: Args, disk: Disk, j: nat): Outcome
    requires disk.Valid()
    decreases |Stage2WithinRun.Runs| - j
  {
    if j >= |Stage2WithinRun.Runs| then Done([])
    else Then(RunStep(a, disk, Stage2WithinRun.Runs[j]), RunsFrom(a, disk, j + 1))
  }

  /** Everything the script does. */
  function Single(a: Args, disk: Disk): Outcome
    requires disk.Valid()
  {
    RunsFrom(a, disk, 0)
  }

  // ------------------------------------------------------------ the script

  method SaveBetaVar(a: Args, run: string, fit: Fit) returns (saves: seq<Effect>)
    ensures saves == BetaVarSaves(a, run, fit)
  {
    ghost var parts := BetaVarParts(a, run, fit);
    saves := [];
    var k := 0;
    while k < |Contrasts|
      invariant k <= |Contrasts|
      invariant saves == Flatten(parts[..k])
    {
      var name, con := Contrasts[k].0, Contrasts[k].1;
      var pair := [Save(StatPath(a, run, name, "beta"), Image(ContrastMap(fit, con, "effect_size"))),
                   Save(StatPath(a, run, name, "var"), Image(ContrastMap(fit, con, "effect_variance")))];
      assert pair == parts[k];
      FlattenSnoc(parts, k);
      saves := saves + pair;
      k := k + 1;
    }
    assert parts[..k] == parts;
  }

  /** The body of the run loop, renaming the events frame in place. */
  method Run(a: Args, disk: Disk, run: string) returns (out: Outcome)
    requires disk.Valid()
    ensures out == RunStep(a, disk, run)
  {
    var c := Common(a);
    var events := ReadEvents(disk, Stage2WithinRun.EventsPath(c, run));
    if events.Err? {
      return Fail(events.error);
    }
    var frame := new EventsFrame(events.value);
    var renames := RenamesFor(a.sample);
    if renames.Some? {
      frame := new EventsFrame(RenameColumns(events.value, renames.value));
      var trialTypes := Get(frame.Snapshot(), "TRIAL_TYPE");
      if trialTypes.Err? {
        return Fail(trialTypes.error);
      }
      frame.Assign("TRIAL_TYPE", seq(|trialTypes.value|, i requires 0 <= i < |trialTypes.value| =>
        ReplaceCell(CueTypes, trialTypes.value[i])));
      assert Harmonize(events.value, renames.value) == Ok(frame.Snapshot());
    }
    ghost var t := frame.Snapshot();
    var bold := FirstMatch(disk, Stage2WithinRun.BoldPattern(c, run));
    if bold.Err? {
      return Fail(bold.error);
    }
    var conf := PullRegressorsStage2(disk.confounds, Stage2WithinRun.ConfPath(c, run), a.motion, Some(a.sample));
    if conf.Err? {
      return Fail(conf.error);
    }
    var labels := ModelType(a.model);
    if labels.Err? {
      return Fail(labels.error);
    }
    var design := CreateDesignMid(frame, a.boldtr, a.numvols, labels.value.0, labels.value.1,
                                  conf.value, "spm", Truthy(a.stc));
    if design.Err? {
      return Fail(design.error);
    }
    var fit := Fit(a.subj, MaskOf(a.mask), a.boldtr, Some(a.fwhm), bold.value, design.value);
    var saves := SaveBetaVar(a, run, fit);
    out := Done(saves);
  }

  /** The script: run 01, then run 02; an exception stops it. */
  method RunScript(a: Args, disk: Disk) returns (out: Outcome)
    requires disk.Valid()
    ensures out == Single(a, disk)
  {
    out := Done([]);
    ThenDone(Single(a, disk));
    var j := 0;
    while j < |Stage2WithinRun.Runs|
      invariant j <= |Stage2WithinRun.Runs| && out.failure.None?
      invariant Then(out, RunsFrom(a, disk, j)) == Single(a, disk)
    {
      var step := Run(a, disk, Stage2WithinRun.Runs[j]);
      ThenAssoc(out, step, RunsFrom(a, disk, j + 1));
      out := Then(out, step);
      if step.failure.Some? {
        return;
      }
      j := j + 1;
    }
    ThenDone(out);
  }

  // ------------------------------------------------------------ properties

  /** For contrast `c` the fit writes its beta map (t = 0), then its variance
      map (t = 1), at entry `2·c + t`. */
  lemma BetaVarAt(a: Args, run: string, fit: Fit, c: nat, t: nat)
    requires c < |Contrasts| && t < 2
    ensures var s := BetaVarSaves(a, run, fit);
            2 * c + t < |s| && s[2 * c + t] == BetaVarPair(a, run, fit, c)[t]
  {
    FlattenAt(BetaVarParts(a, run, fit), 2, c, t);
  }

  /** When both runs complete, the script writes two maps per contrast for each
      run, run 01's first. */
  lemma {:induction false} BothRuns(a: Args, disk: Disk)
    requires disk.Valid()
    requires RunStep(a, disk, "01").failure.None? && RunStep(a, disk, "02").failure.None?
    ensures Single(a, disk).failure.None?
    ensures Single(a, disk).effects == RunStep(a, disk, "01").effects + RunStep(a, disk, "02").effects
    ensures |Single(a, disk).effects| == 4 * |Contrasts|
  {
    assert Stage2WithinRun.Runs[0] == "01" && Stage2WithinRun.Runs[1] == "02";
    ThenDone(RunStep(a, disk, "02"));
    assert RunsFrom(a, disk, 1) == RunStep(a, disk, "02");
  }

  /** A sample other than 'abcd' and 'MLS' is fitted on the events as read;
      lower-case 'mls' is among them here, while the permutations script renames
      it and skips 'MLS'. */
  lemma UnrenamedSamples(a: Args, disk: Disk, run: string)
    requires disk.Valid() && a.sample != "abcd" && a.sample != "MLS"
    requires Stage2WithinRun.EventsPath(Common(a), run) in disk.events
    ensures RunStep(a, disk, run) == FitRun(a, disk, run, disk.events[Stage2WithinRun.EventsPath(Common(a), run)])
    ensures a.sample == "mls" ==> Stage2WithinRun.Harmonized(Common(a))
  {
  }

  /** With an integral fwhm the names carry "fwhm-<n>.0", so they never equal
      the permutations script's "fwhm-<n>" names for the same choice. */
  lemma FloatNamesDiffer(a: Args, n: int, run: string, con: string, kind: string)
    requires PrintsIntegral(a, n)
    ensures StatPath(a, run, con, kind) != Stage2WithinRun.StatPath(Common(a), run, con, (n, a.motion, a.model), kind)
  {
    var f1 := Stage2WithinRun.NameFields(Common(a), run, con, a.motion, a.model, a.fwhmText, kind);
    var f2 := Stage2WithinRun.StatFields(Common(a), run, con, (n, a.motion, a.model), kind);
    JoinAt(f1, '_', 8);
    JoinAt(f2, '_', 8);
    assert f1[..8] == f2[..8];
    assert f1[8..] == [f1[8], f1[9]] && f2[8..] == [f2[8], f2[9]];
    assert |f1[8]| == |f2[8]| + 2 && f1[9] == f2[9];
  }
}
