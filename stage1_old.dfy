/** Stage1_Code/firstlevel_model_permutations_old.py: the earlier first-level
    driver. Its permutations are (motion, model, mask type); the model is fitted
    unsmoothed with the mask the mask type selects, and every contrast map is
    smoothed afterwards at each fwhm of the list. */
module Stage1Old {
  import opened Text
  import opened Errors
  import opened Design
  import opened Effects
  import opened Permutations
  import opened Stage1Layout

  /** `fwhm = [4,5]`, applied after the fit. */
  const Fwhm: seq<int> := [4, 5]

  /** `product(mot, mod_type, mask_type)`. */
  const Perms: seq<(string, string, string)> :=
    Product3(["opt1"], ["AntMod"], ["desc-brain_mask", "label-GM_probseg"])

  /** The two contrasts this script still computes. */
  const OldContrasts: seq<(string, string)> :=
    [("Lgain-Neut", "LargeGain - NoMoneyStake"), ("Sgain-Neut", "SmallGain - NoMoneyStake")]

  /** The anatomical mask of the mask type, from session 'ses-1'. */
  function MaskPattern(pl: Places, subj: string, maskType: string): string
  {
    pl.deriv + "/" + subj + "/ses-1/anat/" + subj + "_ses-1_space-MNI152NLin2009cAsym_res-2_" + maskType + ".nii.gz"
  }

  /** `mask_img`: the brain mask file as found, or the grey-matter probability
      map binarized at 0.05; for any other mask type the name `mask` is not
      bound on a first permutation. */
  function MaskFor(maskType: string, path: string): (r: Result<MaskArg>)
    ensures r.Ok? <==> maskType == "desc-brain_mask" || maskType == "label-GM_probseg"
    ensures r.Ok? && maskType == "desc-brain_mask" ==> r.value == MaskPath(path)
    ensures r.Ok? && maskType != "desc-brain_mask" ==> r.value == MaskImage(Binarized(path, 0.05))
    ensures r.Err? ==> r.error == UnboundName("mask")
  {
    if maskType == "desc-brain_mask" then Ok(MaskPath(path))
    else if maskType == "label-GM_probseg" then Ok(MaskImage(Binarized(path, 0.05)))
    else Err(UnboundName("mask"))
  }

  /** `{subj}_ses-01_task-mid_{run}_contrast-{c}_mask-{mask_type}_mot-{m}_mod-{mod}_fwhm-{s}_{kind}.nii.gz`. */
  function NameFields(subj: string, run: string, con: string, p: (string, string, string), smooth: int,
                      kind: string): seq<string>
  {
    [subj, "ses-01", "task-mid", run, "contrast-" + con, "mask-" + p.2, "mot-" + p.0, "mod-" + p.1,
     "fwhm-" + IntToString(smooth), kind + ".nii.gz"]
  }

  function OutPath(pl: Places, subj: string, run: string, con: string, p: (string, string, string), smooth: int,
                   kind: string): string
  {
    pl.out + "/" + Join(NameFields(subj, run, con, p, smooth, kind), '_')
  }

  /** The smoothed beta and variance maps of one contrast, for fwhm j.. . */
  function SmoothSaves(pl: Places, subj: string, run: string, p: (string, string, string), fit: Fit,
                       name: string, con: string, j: nat): (r: seq<Effect>)
    requires j <= |Fwhm|
    ensures |r| == 2 * (|Fwhm| - j)
    decreases |Fwhm| - j
  {
    if j == |Fwhm| then []
    else
      [Save(OutPath(pl, subj, run, name, p, Fwhm[j], "beta"), Image(Smoothed(ContrastMap(fit, con, "effect_size"), Fwhm[j]))),
       Save(OutPath(pl, subj, run, name, p, Fwhm[j], "var"), Image(Smoothed(ContrastMap(fit, con, "effect_variance"), Fwhm[j])))]
      + SmoothSaves(pl, subj, run, p, fit, name, con, j + 1)
  }

  /** The maps of contrasts k.. , each at every fwhm. */
  function ContrastSaves(pl: Places, subj: string, run: string, p: (string, string, string), fit: Fit, k: nat)
    : (r: seq<Effect>)
    requires k <= |OldContrasts|
    ensures |r| == 4 * (|OldContrasts| - k)
    decreases |OldContrasts| - k
  {
    if k == |OldContrasts| then []
    else
      SmoothSaves(pl, subj, run, p, fit, OldContrasts[k].0, OldContrasts[k].1, 0)
      + ContrastSaves(pl, subj, run, p, fit, k + 1)
  }

  /** One permutation: events, mask, BOLD, design, then the unsmoothed fit. */
  function PermStep(disk: Disk, pl: Places, subj: string, run: string, p: (string, string, string)): (r: Outcome)
    requires disk.Valid()
    ensures r.failure.Some? ==> r.effects == []
    ensures r.failure.None? ==> |r.effects| == 4 * |OldContrasts|
  {
    var events := ReadEvents(disk, EventsPath(pl, subj, run));
    if events.Err? then Fail(events.error)
    else
      var mask := FirstMatch(disk, MaskPattern(pl, subj, p.2));
      var bold := FirstMatch(disk, BoldPattern(pl, subj, run));
      if mask.Err? then Fail(mask.error)
      else if bold.Err? then Fail(bold.error)
      else
        var design := Stage1Design(disk, pl, subj, run, events.value, p.0, p.1);
        var maskArg := MaskFor(p.2, mask.value);
        if design.Err? then Fail(design.error)
        else if maskArg.Err? then Fail(maskArg.error)
        else
          var fit := Fit(subj, maskArg.value, BoldTr, None, bold.value, design.value);
          Done(ContrastSaves(pl, subj, run, p, fit, 0))
  }

  function PermsFrom(disk: Disk, pl: Places, subj: string, run: string, perms: seq<(string, string, string)>,
                     k: nat): Outcome
    requires disk.Valid()
    decreases |perms| - k
  {
    if k >= |perms| then Done([])
    else Then(PermStep(disk, pl, subj, run, perms[k]), PermsFrom(disk, pl, subj, run, perms, k + 1))
  }

  function RunsFrom(disk: Disk, pl: Places, subj: string, perms: seq<(string, string, string)>, j: nat): Outcome
    requires disk.Valid()
    decreases |Runs| - j
  {
    if j >= |Runs| then Done([])
    else Then(PermsFrom(disk, pl, subj, Runs[j], perms, 0), RunsFrom(disk, pl, subj, perms, j + 1))
  }

  function SubjectsFrom(disk: Disk, pl: Places, subjects: seq<string>, perms: seq<(string, string, string)>,
                        i: nat): Outcome
    requires disk.Valid()
    decreases |subjects| - i
  {
    if i >= |subjects| then Done([])
    else Then(RunsFrom(disk, pl, subjects[i], perms, 0), SubjectsFrom(disk, pl, subjects, perms, i + 1))
  }

  /** Everything the script does. */
  function OldScript(disk: Disk, pl: Places, subjects: seq<string>): Outcome
    requires disk.Valid()
  {
    Then(Done(MakeOut(disk, pl.out)), SubjectsFrom(disk, pl, subjects, Perms, 0))
  }

  // ------------------------------------------------------------ the script

  /** The inner `for smooth in fwhm` loop for one contrast. */
  method SaveSmoothed(pl: Places, subj: string, run: string, p: (string, string, string), fit: Fit,
                      name: string, con: string) returns (saves: seq<Effect>)
    ensures saves == SmoothSaves(pl, subj, run, p, fit, name, con, 0)
  {
    saves := [];
    var j := 0;
    while j < |Fwhm|
      invariant j <= |Fwhm|
      invariant saves + SmoothSaves(pl, subj, run, p, fit, name, con, j) == SmoothSaves(pl, subj, run, p, fit, name, con, 0)
    {
      var smooth := Fwhm[j];
      var pair := [Save(OutPath(pl, subj, run, name, p, smooth, "beta"),
                        Image(Smoothed(ContrastMap(fit, con, "effect_size"), smooth))),
                   Save(OutPath(pl, subj, run, name, p, smooth, "var"),
                        Image(Smoothed(ContrastMap(fit, con, "effect_variance"), smooth)))];
      assert SmoothSaves(pl, subj, run, p, fit, name, con, j) == pair + SmoothSaves(pl, subj, run, p, fit, name, con, j + 1);
      saves := saves + pair;
      j := j + 1;
    }
    assert saves + [] == saves;
  }

  /** The outer `for con_name, con in contrasts.items()` loop. */
  method SaveContrasts(pl: Places, subj: string, run: string, p: (string, string, string), fit: Fit)
    returns (saves: seq<Effect>)
    ensures saves == ContrastSaves(pl, subj, run, p, fit, 0)
  {
    saves := [];
    var k := 0;
    while k < |OldContrasts|
      invariant k <= |OldContrasts|
      invariant saves + ContrastSaves(pl, subj, run, p, fit, k) == ContrastSaves(pl, subj, run, p, fit, 0)
    {
      var (name, con) := OldContrasts[k];
      var smoothed := SaveSmoothed(pl, subj, run, p, fit, name, con);
      assert ContrastSaves(pl, subj, run, p, fit, k) == smoothed + ContrastSaves(pl, subj, run, p, fit, k + 1);
      saves := saves + smoothed;
      k := k + 1;
    }
    assert saves + [] == saves;
  }

  method Permutation(disk: Disk, pl: Places, subj: string, run: string, p: (string, string, string))
    returns (out: Outcome)
    requires disk.Valid()
    ensures out == PermStep(disk, pl, subj, run, p)
  {
    var (motion, model, maskType) := p;
    var events := ReadEvents(disk, EventsPath(pl, subj, run));
    if events.Err? {
      return Fail(events.error);
    }
    var maskPath := FirstMatch(disk, MaskPattern(pl, subj, maskType));
    if maskPath.Err? {
      return Fail(maskPath.error);
    }
    var bold := FirstMatch(disk, BoldPattern(pl, subj, run));
    if bold.Err? {
      return Fail(bold.error);
    }
    var design := DesignRun(disk, pl, subj, run, events.value, motion, model);
    if design.Err? {
      return Fail(design.error);
    }
    var mask := MaskFor(maskType, maskPath.value);
    if mask.Err? {
      return Fail(mask.error);
    }
    var fit := Fit(subj, mask.value, BoldTr, None, bold.value, design.value);
    var saves := SaveContrasts(pl, subj, run, p, fit);
    out := Done(saves);
  }

  method RunPerms(disk: Disk, pl: Places, subj: string, run: string, perms: seq<(string, string, string)>)
    returns (out: Outcome)
    requires disk.Valid()
    ensures out == PermsFrom(disk, pl, subj, run, perms, 0)
  {
    out := Done([]);
    ThenDone(PermsFrom(disk, pl, subj, run, perms, 0));
    var k := 0;
    while k < |perms|
      invariant k <= |perms| && out.failure.None?
      invariant Then(out, PermsFrom(disk, pl, subj, run, perms, k)) == PermsFrom(disk, pl, subj, run, perms, 0)
    {
      var step := Permutation(disk, pl, subj, run, perms[k]);
      ThenAssoc(out, step, PermsFrom(disk, pl, subj, run, perms, k + 1));
      out := Then(out, step);
      if step.failure.Some? {
        return;
      }
      k := k + 1;
    }
    ThenDone(out);
  }

  method SubjectRuns(disk: Disk, pl: Places, subj: string, perms: seq<(string, string, string)>)
    returns (out: Outcome)
    requires disk.Valid()
    ensures out == RunsFrom(disk, pl, subj, perms, 0)
  {
    out := Done([]);
    ThenDone(RunsFrom(disk, pl, subj, perms, 0));
    var j := 0;
    while j < |Runs|
      invariant j <= |Runs| && out.failure.None?
      invariant Then(out, RunsFrom(disk, pl, subj, perms, j)) == RunsFrom(disk, pl, subj, perms, 0)
    {
      var step := RunPerms(disk, pl, subj, Runs[j], perms);
      ThenAssoc(out, step, RunsFrom(disk, pl, subj, perms, j + 1));
      out := Then(out, step);
      if step.failure.Some? {
        return;
      }
      j := j + 1;
    }
    ThenDone(out);
  }

  method RunSubjects(disk: Disk, pl: Places, subjects: seq<string>, perms: seq<(string, string, string)>)
    returns (out: Outcome)
    requires disk.Valid()
    ensures out == SubjectsFrom(disk, pl, subjects, perms, 0)
  {
    out := Done([]);
    ThenDone(SubjectsFrom(disk, pl, subjects, perms, 0));
    var i := 0;
    while i < |subjects|
      invariant i <= |subjects| && out.failure.None?
      invariant Then(out, SubjectsFrom(disk, pl, subjects, perms, i)) == SubjectsFrom(disk, pl, subjects, perms, 0)
    {
      var step := SubjectRuns(disk, pl, subjects[i], perms);
      ThenAssoc(out, step, SubjectsFrom(disk, pl, subjects, perms, i + 1));
      out := Then(out, step);
      if step.failure.Some? {
        return;
      }
      i := i + 1;
    }
    ThenDone(out);
  }

  /** The script; `subjects` is the 'Subjects' column of subjects.csv. */
  method RunScript(disk: Disk, pl: Places, subjects: seq<string>) returns (out: Outcome)
    requires disk.Valid()
    ensures out == OldScript(disk, pl, subjects)
  {
    var made := MakeOut(disk, pl.out);
    var rest := RunSubjects(disk, pl, subjects, Perms);
    out := Then(Done(made), rest);
  }

  // ------------------------------------------------------------ properties

  /** Two permutations, the brain mask first. */
  lemma PermsOrder()
    ensures Perms == [("opt1", "AntMod", "desc-brain_mask"), ("opt1", "AntMod", "label-GM_probseg")]
  {
    var xs, ys, zs := ["opt1"], ["AntMod"], ["desc-brain_mask", "label-GM_probseg"];
    ProductLength(xs, ys, zs);
    ProductIndex(xs, ys, zs, 0, 0, 0);
    ProductIndex(xs, ys, zs, 0, 0, 1);
  }

  /** Both listed mask types bind a mask: the brain mask is passed as a path and
      the grey-matter map is binarized at 0.05 first. */
  lemma MasksBound(path: string)
    ensures forall p :: p in Perms ==> MaskFor(p.2, path).Ok?
    ensures MaskFor(Perms[0].2, path) == Ok(MaskPath(path))
    ensures MaskFor(Perms[1].2, path) == Ok(MaskImage(Binarized(path, 0.05)))
  {
    PermsOrder();
  }

  /** The maps of fwhm j.. of one contrast sit in list order, beta before var. */
  lemma {:induction false} SmoothAt(pl: Places, subj: string, run: string, p: (string, string, string), fit: Fit,
                                    name: string, con: string, j: nat, s: nat)
    requires j <= s < |Fwhm|
    ensures var r := SmoothSaves(pl, subj, run, p, fit, name, con, j);
            r[2 * (s - j)] == Save(OutPath(pl, subj, run, name, p, Fwhm[s], "beta"),
                                   Image(Smoothed(ContrastMap(fit, con, "effect_size"), Fwhm[s]))) &&
            r[2 * (s - j) + 1] == Save(OutPath(pl, subj, run, name, p, Fwhm[s], "var"),
                                       Image(Smoothed(ContrastMap(fit, con, "effect_variance"), Fwhm[s])))
    decreases s - j
  {
    if s > j {
      SmoothAt(pl, subj, run, p, fit, name, con, j + 1, s);
    }
  }

  /** Contrast c at fwhm index s: its beta map is written at 2 * (2c + s) and
      its variance map right after, each smoothed from the unsmoothed fit. */
  lemma {:induction false} ContrastAt(pl: Places, subj: string, run: string, p: (string, string, string), fit: Fit,
                                      k: nat, c: nat, s: nat)
    requires k <= c < |OldContrasts| && s < |Fwhm|
    ensures var r := ContrastSaves(pl, subj, run, p, fit, k);
            var (name, con) := OldContrasts[c];
            r[4 * (c - k) + 2 * s] == Save(OutPath(pl, subj, run, name, p, Fwhm[s], "beta"),
                                           Image(Smoothed(ContrastMap(fit, con, "effect_size"), Fwhm[s]))) &&
            r[4 * (c - k) + 2 * s + 1] == Save(OutPath(pl, subj, run, name, p, Fwhm[s], "var"),
                                               Image(Smoothed(ContrastMap(fit, con, "effect_variance"), Fwhm[s])))
    decreases c - k
  {
    var r := ContrastSaves(pl, subj, run, p, fit, k);
    var head := SmoothSaves(pl, subj, run, p, fit, OldContrasts[k].0, OldContrasts[k].1, 0);
    assert r == head + ContrastSaves(pl, subj, run, p, fit, k + 1);
    if c > k {
      ContrastAt(pl, subj, run, p, fit, k + 1, c, s);
    } else {
      SmoothAt(pl, subj, run, p, fit, OldContrasts[k].0, OldContrasts[k].1, 0, s);
    }
  }

  /** The fit behind a completed permutation: no smoothing, the mask its type
      selects, hrf 'glover' and unshifted frame times. */
  lemma PermFit(disk: Disk, pl: Places, subj: string, run: string, p: (string, string, string))
    returns (fit: Fit)
    requires disk.Valid() && PermStep(disk, pl, subj, run, p).failure.None?
    ensures PermStep(disk, pl, subj, run, p).effects == ContrastSaves(pl, subj, run, p, fit, 0)
    ensures fit.smoothing.None? && fit.design.hrf == "glover" && fit.design.frameTimes == FrameTimes(NumVols, BoldTr, false)
    ensures p.2 == "desc-brain_mask" ==> fit.mask.MaskPath?
    ensures p.2 == "label-GM_probseg" ==> fit.mask.MaskImage? && fit.mask.img.Binarized?
  {
    var events := ReadEvents(disk, EventsPath(pl, subj, run));
    var mask := FirstMatch(disk, MaskPattern(pl, subj, p.2));
    var bold := FirstMatch(disk, BoldPattern(pl, subj, run));
    var design := Stage1Design(disk, pl, subj, run, events.value, p.0, p.1);
    var maskArg := MaskFor(p.2, mask.value);
    fit := Fit(subj, maskArg.value, BoldTr, None, bold.value, design.value);
  }
}
