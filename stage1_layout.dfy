/** What the Stage 1 first-level scripts share: hard-coded directories, the
    ses-1 input layout, TR and volume count, and the output directory step. */
module Stage1Layout {
  import opened Text
  import opened Errors
  import opened Design
  import opened Effects
  import opened FirstLevel
  import opened Regressors

  /** The hard-coded project, behaviour, fMRIPrep and output directories. */
  datatype Places = Places(proj: string, sher: string, deriv: string, out: string)

  const Runs: seq<string> := ["run-01", "run-02"]

  /** `boldtr = .8`, `numvols = 407`. */
  const BoldTr: real := 0.8
  const NumVols: int := 407

  /** Inputs are read from session 'ses-1'. */
  function EventsPath(pl: Places, subj: string, run: string): string
  {
    pl.sher + "/" + subj + "/ses-1/func/" + subj + "_ses-1_task-mid_" + run + "_events.tsv"
  }

  function FuncPrefix(pl: Places, subj: string, run: string): string
  {
    pl.deriv + "/" + subj + "/ses-1/func/" + subj + "_ses-1_task-mid_" + run
  }

  function ConfPath(pl: Places, subj: string, run: string): string
  {
    FuncPrefix(pl, subj, run) + "_desc-confounds_timeseries.tsv"
  }

  function BoldPattern(pl: Places, subj: string, run: string): string
  {
    FuncPrefix(pl, subj, run) + "_space-MNI152NLin2009cAsym_res-2_desc-preproc_bold.nii.gz"
  }

  /** `if not os.path.exists(out): os.makedirs(out)`. */
  function MakeOut(disk: Disk, out: string): (r: seq<Effect>)
    ensures r == [] <==> out in disk.dirs
  {
    if out in disk.dirs then [] else [MakeDirs(out)]
  }

  /** The design of one run: Stage 1 regressors for the motion option, the
      model's onset/duration pair, hrf 'glover' and no slice-timing shift. */
  function Stage1Design(disk: Disk, pl: Places, subj: string, run: string, t: Table,
                        motion: string, model: string): (r: Result<DesignRequest>)
    requires t.WellFormed()
    ensures r.Ok? ==> r.value.hrf == "glover" && r.value.frameTimes == FrameTimes(NumVols, BoldTr, false)
  {
    var conf := Stage1Regressors(disk.confounds, ConfPath(pl, subj, run), motion);
    var labels := ModelType(model);
    if conf.Err? then Err(conf.error)
    else if labels.Err? then Err(labels.error)
    else CreateDesignSpec(t, BoldTr, NumVols, labels.value.0, labels.value.1, conf.value, "glover", false).1
  }

  /** The design step on the events frame the script just read. */
  method DesignRun(disk: Disk, pl: Places, subj: string, run: string, t: Table, motion: string, model: string)
    returns (r: Result<DesignRequest>)
    requires t.WellFormed()
    ensures r == Stage1Design(disk, pl, subj, run, t, motion, model)
  {
    var conf := PullRegressorsStage1(disk.confounds, ConfPath(pl, subj, run), motion);
    if conf.Err? {
      return Err(conf.error);
    }
    var labels := ModelType(model);
    if labels.Err? {
      return Err(labels.error);
    }
    var frame := new EventsFrame(t);
    r := CreateDesignMid(frame, BoldTr, NumVols, labels.value.0, labels.value.1, conf.value, "glover", false);
  }
}
