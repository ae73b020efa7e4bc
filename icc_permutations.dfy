/** Stage2_Code/compute_icc_permutations.py: optionally builds the Wilson
    supra- and sub-threshold masks, picks the two lists of maps to compare
    (the two runs of a session, or two sessions), checks them, and writes the
    three ICC(3,1) maps. */
module IccPermutations {
  import opened Text
  import opened Errors
  import opened Glob
  import opened Effects
  import opened Pairing
  import Stage2WithinRun

  /** The command-line arguments; `kind` is `--type`. */
  datatype Args = Args(sample: string, ses: string, kind: string, model: string, mask: string, maskLabel: string,
                       inp: string, out: string)

  // ------------------------------------------------------------ threshold masks

  const Threshold: real := 3.1

  /** `(img > threshold).astype(int)` voxel by voxel. */
  function SupraBin(values: seq<real>): (r: seq<int>)
    ensures |r| == |values|
    ensures forall i :: 0 <= i < |r| ==> (r[i] == 1 <==> values[i] > Threshold) && (r[i] == 0 <==> values[i] <= Threshold)
  {
    seq(|values|, i requires 0 <= i < |values| => if values[i] > Threshold then 1 else 0)
  }

  /** `(img < threshold).astype(int) * mask` voxel by voxel, the mask as integers. */
  function SubBin(values: seq<real>, brain: seq<int>): (r: seq<int>)
    requires |brain| == |values|
    ensures |r| == |values|
    ensures forall i :: 0 <= i < |r| ==> (r[i] != 0 ==> values[i] < Threshold) && (values[i] < Threshold ==> r[i] == brain[i])
  {
    seq(|values|, i requires 0 <= i < |values| => (if values[i] < Threshold then 1 else 0) * brain[i])
  }

  /** The two masks never share a voxel, a value of exactly 3.1 is in neither,
      and inside a 0/1 brain mask every other value is in exactly one. */
  lemma MasksDisjoint(values: seq<real>, brain: seq<int>, i: nat)
    requires |brain| == |values| && i < |values|
    ensures SupraBin(values)[i] == 0 || SubBin(values, brain)[i] == 0
    ensures values[i] == Threshold ==> SupraBin(values)[i] == 0 && SubBin(values, brain)[i] == 0
    ensures values[i] != Threshold && brain[i] == 1 ==> SupraBin(values)[i] + SubBin(values, brain)[i] == 1
  {
  }

  /** `os.path.exists`. */
  predicate Exists(disk: Disk, p: string)
  {
    p in disk.files || p in disk.dirs
  }

  /** The brain mask the Wilson map is resampled onto. */
  function BrainMask(maskDir: string): string
  {
    maskDir + "/MNI152NLin2009cAsym_res-02_desc-brain_mask.nii.gz"
  }

  function WilsonPath(maskDir: string, thresh: string): string
  {
    maskDir + "/MNI152_wilson-" + thresh + ".nii.gz"
  }

  const Thresholds: seq<string> := ["supra", "sub"]

  /** The mask the 'sub' map is multiplied by: `mask` as written; the brain
      mask the Wilson map was resampled onto, corrected. */
  function SubMultiplier(mask: string, asWritten: bool): string
  {
    if asWritten then mask else BrainMask(Dirname(mask))
  }

  /** One pass of the threshold loop. The 'sub' pass loads its multiplier,
      which exists if it was there before or is the 'supra' map just written. */
  function ThreshStep(disk: Disk, mask: string, thresh: string, asWritten: bool): Outcome
  {
    var d := Dirname(mask);
    if thresh == "supra" then Done([Save(WilsonPath(d, thresh), Image(Supra(BrainMask(d), Threshold)))])
    else
      var m := SubMultiplier(mask, asWritten);
      if m !in disk.files && m != WilsonPath(d, "supra") then Fail(FileNotFound(m))
      else Done([Save(WilsonPath(d, thresh), Image(Sub(BrainMask(d), Threshold, m)))])
  }

  function ThreshFrom(disk: Disk, mask: string, asWritten: bool, k: nat): Outcome
    decreases |Thresholds| - k
  {
    if k >= |Thresholds| then Done([])
    else Then(ThreshStep(disk, mask, Thresholds[k], asWritten), ThreshFrom(disk, mask, asWritten, k + 1))
  }

  /** Lines 35-59: nothing when the mask exists; otherwise the resampling
      reads the brain mask, then the threshold loop. */
  function MaskStep(disk: Disk, mask: string, asWritten: bool): Outcome
  {
    if Exists(disk, mask) then Done([])
    else if BrainMask(Dirname(mask)) !in disk.files then Fail(FileNotFound(BrainMask(Dirname(mask))))
    else ThreshFrom(disk, mask, asWritten, 0)
  }

  // ------------------------------------------------------------ the two lists

  /** `*_ses-{ses}_task-MID_{run}_{model}_stat-beta.nii.gz` in any directory below
      `{inp}/ses-{ses}`. */
  function RunPattern(a: Args, run: string): string
  {
    PatternHead(a.inp + "/ses-" + a.ses + "/**") + "/*_ses-" + a.ses + "_task-MID_" + run + "_" + a.model
    + "_stat-beta.nii.gz"
  }

  /** `*_{s}_task-MID_{model}_stat-effect.nii.gz` in any directory below `{inp}/{s}`. */
  function SessionPattern(a: Args, s: string): string
  {
    PatternHead(a.inp + "/" + s + "/**") + "/*_" + s + "_task-MID_" + a.model + "_stat-effect.nii.gz"
  }

  /** The first token the pairing check compares: 1 as written, 0 corrected. */
  function FirstCompared(asWritten: bool): nat
  {
    if asWritten then 1 else 0
  }

  /** Lines 62-78: the two lists or the exception; `listing` is `os.listdir()`
      of the working directory, in the order the system returns it. */
  function Sets(disk: Disk, a: Args, listing: seq<string>, asWritten: bool): (r: Result<(seq<string>, seq<string>)>)
    ensures r.Ok? ==> |r.value.0| == |r.value.1|
    ensures a.kind == "run" && r.Ok? ==> |r.value.0| > 0 && AllAgree(r.value.0, r.value.1, FirstCompared(asWritten))
    ensures a.kind == "session" && |listing| < 2 ==> r == Err(IndexOutOfRange(|listing|))
    ensures a.kind != "run" && a.kind != "session" ==> r == Err(UnboundName("set1"))
  {
    if a.kind == "run" then
      var set1 := SortedGlob(RunPattern(a, "run-01"), disk.files);
      var set2 := SortedGlob(RunPattern(a, "run-02"), disk.files);
      if !(|set1| > 0 && |set2| > 0) || |set1| != |set2| || !AllAgree(set1, set2, FirstCompared(asWritten)) then
        Err(AssertionFailed)
      else Ok((set1, set2))
    else if a.kind == "session" then
      if |listing| < 2 then Err(IndexOutOfRange(|listing|))
      else
        var set1 := SortedGlob(SessionPattern(a, listing[0]), disk.files);
        var set2 := SortedGlob(SessionPattern(a, listing[1]), disk.files);
        if |set1| != |set2| then Err(AssertionFailed) else Ok((set1, set2))
    else Err(UnboundName("set1"))
  }

  // ------------------------------------------------------------ outputs

  const ImgTypes: seq<string> := ["est", "msbtwn", "mswthn"]

  /** `{out}/subs-{N}_type-{type}_mask-{mask_label}_{model}_stat-{img_type}.nii.gz`. */
  function OutPath(a: Args, n: nat, t: string): string
  {
    a.out + "/" + Join(["subs-" + NatToString(n), "type-" + a.kind, "mask-" + a.maskLabel, a.model,
                        "stat-" + t + ".nii.gz"], '_')
  }

  /** The three ICC maps, named for the length of the first list. */
  function IccSaves(a: Args, set1: seq<string>, set2: seq<string>): seq<Effect>
  {
    seq(|ImgTypes|, i requires 0 <= i < |ImgTypes| =>
      Save(OutPath(a, |set1|, ImgTypes[i]), Image(Icc(set1, set2, MaskPath(a.mask), ImgTypes[i]))))
  }

  /** What `voxelwise_icc` raises on two empty lists of maps. */
  const IccError: Error := LibraryError("voxelwise_icc")

  /** The script: the masks, then the lists, then the ICC maps, which
      `voxelwise_icc` refuses to compute from no maps at all. */
  function IccScript(disk: Disk, a: Args, listing: seq<string>, asWritten: bool): Outcome
  {
    var sets := Sets(disk, a, listing, asWritten);
    Then(MaskStep(disk, a.mask, asWritten),
         if sets.Err? then Fail(sets.error)
         else if |sets.value.0| == 0 then Fail(IccError)
         else Done(IccSaves(a, sets.value.0, sets.value.1)))
  }

  // ------------------------------------------------------------ the script

  /** The threshold loop of lines 47-59. */
  method ThresholdMasks(disk: Disk, mask: string, asWritten: bool) returns (out: Outcome)
    ensures out == ThreshFrom(disk, mask, asWritten, 0)
  {
    var maskDir := Dirname(mask);
    var target := BrainMask(maskDir);
    out := Done([]);
    ThenDone(ThreshFrom(disk, mask, asWritten, 0));
    var k := 0;
    while k < |Thresholds|
      invariant k <= |Thresholds| && out.failure.None?
      invariant Then(out, ThreshFrom(disk, mask, asWritten, k)) == ThreshFrom(disk, mask, asWritten, 0)
    {
      var thresh := Thresholds[k];
      var step;
      if thresh == "supra" {
        step := Done([Save(WilsonPath(maskDir, thresh), Image(Supra(target, Threshold)))]);
      } else {
        var multiplier := if asWritten then mask else target;
        if multiplier !in disk.files && multiplier != WilsonPath(maskDir, "supra") {
          step := Fail(FileNotFound(multiplier));
        } else {
          step := Done([Save(WilsonPath(maskDir, thresh), Image(Sub(target, Threshold, multiplier)))]);
        }
      }
      assert step == ThreshStep(disk, mask, thresh, asWritten);
      ThenAssoc(out, step, ThreshFrom(disk, mask, asWritten, k + 1));
      out := Then(out, step);
      if step.failure.Some? {
        return;
      }
      k := k + 1;
    }
    ThenDone(out);
  }

  /** Lines 62-78. */
  method PickSets(disk: Disk, a: Args, listing: seq<string>, asWritten: bool)
    returns (r: Result<(seq<string>, seq<string>)>)
    ensures r == Sets(disk, a, listing, asWritten)
  {
    if a.kind == "run" {
      var set1 := SortedGlob(RunPattern(a, "run-01"), disk.files);
      var set2 := SortedGlob(RunPattern(a, "run-02"), disk.files);
      if !(|set1| > 0 && |set2| > 0) {
        return Err(AssertionFailed);
      }
      if |set1| != |set2| {
        return Err(AssertionFailed);
      }
      var matchStringPosition := AllAgree(set1, set2, FirstCompared(asWritten));
      if !matchStringPosition {
        return Err(AssertionFailed);
      }
      r := Ok((set1, set2));
    } else if a.kind == "session" {
      if |listing| < 2 {
        return Err(IndexOutOfRange(|listing|));
      }
      var set1 := SortedGlob(SessionPattern(a, listing[0]), disk.files);
      var set2 := SortedGlob(SessionPattern(a, listing[1]), disk.files);
      if |set1| != |set2| {
        return Err(AssertionFailed);
      }
      r := Ok((set1, set2));
    } else {
      r := Err(UnboundName("set1"));
    }
  }

  /** The output loop of lines 83-85. */
  method SaveIcc(a: Args, set1: seq<string>, set2: seq<string>) returns (effects: seq<Effect>)
    ensures effects == IccSaves(a, set1, set2)
  {
    effects := [];
    var k := 0;
    while k < |ImgTypes|
      invariant k <= |ImgTypes| && effects == IccSaves(a, set1, set2)[..k]
    {
      var imgType := ImgTypes[k];
      var outIccPath := OutPath(a, |set1|, imgType);
      effects := effects + [Save(outIccPath, Image(Icc(set1, set2, MaskPath(a.mask), imgType)))];
      k := k + 1;
    }
  }

  method RunScript(disk: Disk, a: Args, listing: seq<string>, asWritten: bool) returns (out: Outcome)
    ensures out == IccScript(disk, a, listing, asWritten)
  {
    out := Done([]);
    if !Exists(disk, a.mask) {
      var target := BrainMask(Dirname(a.mask));
      if target !in disk.files {
        out := Fail(FileNotFound(target));
      } else {
        out := ThresholdMasks(disk, a.mask, asWritten);
      }
      if out.failure.Some? {
        return;
      }
    }
    var sets := PickSets(disk, a, listing, asWritten);
    if sets.Err? {
      out := Then(out, Fail(sets.error));
      return;
    }
    var (set1, set2) := sets.value;
    if |set1| == 0 {
      out := Then(out, Fail(IccError));
      return;
    }
    var saves := SaveIcc(a, set1, set2);
    out := Then(out, Done(saves));
  }

  // ------------------------------------------------------------ properties

  /** The part of an output path before the map type. */
  function OutStem(a: Args, n: nat): string
  {
    a.out + "/" + Join(["subs-" + NatToString(n), "type-" + a.kind, "mask-" + a.maskLabel, a.model], '_') + "_stat-"
  }

  lemma OutPathSplit(a: Args, n: nat, t: string)
    ensures OutPath(a, n, t) == OutStem(a, n) + t + ".nii.gz"
  {
    var head := ["subs-" + NatToString(n), "type-" + a.kind, "mask-" + a.maskLabel, a.model];
    var last := "stat-" + t + ".nii.gz";
    JoinAppend(head, [last], '_');
    assert head + [last] == ["subs-" + NatToString(n), "type-" + a.kind, "mask-" + a.maskLabel, a.model, last];
    assert Join([last], '_') == last;
    assert "_stat-" == ['_'] + "stat-";
  }

  /** The three maps go to three different files. */
  lemma OutPathsDistinct(a: Args, n: nat, i: nat, j: nat)
    requires i < j < |ImgTypes|
    ensures OutPath(a, n, ImgTypes[i]) != OutPath(a, n, ImgTypes[j])
  {
    OutPathSplit(a, n, ImgTypes[i]);
    OutPathSplit(a, n, ImgTypes[j]);
    if OutPath(a, n, ImgTypes[i]) == OutPath(a, n, ImgTypes[j]) {
      Cancel(OutStem(a, n), ImgTypes[i], ImgTypes[j], ".nii.gz");
    }
  }

  /** When the script completes, it ends by writing exactly the three ICC
      maps of the two lists, which are non-empty and named for their common
      length. */
  lemma IccOutputs(disk: Disk, a: Args, listing: seq<string>, asWritten: bool)
    requires IccScript(disk, a, listing, asWritten).failure.None?
    ensures var r := IccScript(disk, a, listing, asWritten).effects;
            var s := Sets(disk, a, listing, asWritten);
            s.Ok? && |r| >= 3 && r[|r| - 3..] == IccSaves(a, s.value.0, s.value.1) &&
            0 < |s.value.0| == |s.value.1|
  {
    var s := Sets(disk, a, listing, asWritten);
    var m := MaskStep(disk, a.mask, asWritten);
    assert s.Ok?;
    var saves := IccSaves(a, s.value.0, s.value.1);
    assert IccScript(disk, a, listing, asWritten).effects == m.effects + saves;
  }

  /** Two empty session lists pass the length check, and then `voxelwise_icc`
      raises: no ICC map is written. */
  lemma EmptySessionsStop(disk: Disk, a: Args, listing: seq<string>, asWritten: bool)
    requires a.kind == "session" && |listing| >= 2
    requires SortedGlob(SessionPattern(a, listing[0]), disk.files) == []
    requires SortedGlob(SessionPattern(a, listing[1]), disk.files) == []
    ensures var r := IccScript(disk, a, listing, asWritten);
            var m := MaskStep(disk, a.mask, asWritten);
            r.failure.Some? && r.effects == m.effects && (m.failure.None? ==> r.failure == Some(IccError))
  {
    assert Sets(disk, a, listing, asWritten) == Ok(([], []));
  }

  /** Masks are only built when the mask path does not exist. */
  lemma MaskPresent(disk: Disk, a: Args, listing: seq<string>, asWritten: bool)
    requires Exists(disk, a.mask)
    ensures var s := Sets(disk, a, listing, asWritten);
            IccScript(disk, a, listing, asWritten) ==
            (if s.Err? then Fail(s.error)
             else if |s.value.0| == 0 then Fail(IccError)
             else Done(IccSaves(a, s.value.0, s.value.1)))
  {
    ThenDone(IccScript(disk, a, listing, asWritten));
  }

  /** As written, the 'sub' pass loads the absent `mask`: unless that path is
      the 'supra' map just written, the script stops after writing the 'supra'
      map only. */
  lemma AsWrittenSubFails(disk: Disk, mask: string)
    requires !Exists(disk, mask) && BrainMask(Dirname(mask)) in disk.files
    requires mask != WilsonPath(Dirname(mask), "supra")
    ensures var d := Dirname(mask);
            MaskStep(disk, mask, true) ==
            Outcome([Save(WilsonPath(d, "supra"), Image(Supra(BrainMask(d), Threshold)))], Some(FileNotFound(mask)))
  {
    assert ThreshFrom(disk, mask, true, 1) == ThreshStep(disk, mask, "sub", true);
  }

  /** Corrected, the 'sub' pass multiplies by the brain mask, which the
      resampling has just read: both masks are written whenever the block runs
      and does not stop at the resampling. */
  lemma CorrectedMasks(disk: Disk, mask: string)
    requires !Exists(disk, mask) && BrainMask(Dirname(mask)) in disk.files
    ensures var d := Dirname(mask);
            MaskStep(disk, mask, false) ==
            Done([Save(WilsonPath(d, "supra"), Image(Supra(BrainMask(d), Threshold))),
                  Save(WilsonPath(d, "sub"), Image(Sub(BrainMask(d), Threshold, BrainMask(d))))])
  {
    assert ThreshFrom(disk, mask, false, 1) == ThreshStep(disk, mask, "sub", false);
    assert ThreshFrom(disk, mask, false, 2) == Done([]);
  }

  /** The fields of a run-level beta map hold no '_'. */
  predicate Fields(w: Stage2WithinRun.Args, run: string, con: string, p: (int, string, string))
  {
    '_' !in w.out && '_' !in w.subj && '_' !in w.ses && '_' !in w.task && '_' !in run && '_' !in con &&
    '_' !in Shown(w.maskLabel) && '_' !in p.1 && '_' !in p.2
  }

  /** The tokens of a run-level map: directory and subject, then the name's
      other fields. */
  lemma RunTokens(w: Stage2WithinRun.Args, run: string, con: string, p: (int, string, string))
    requires Fields(w, run, con, p)
    ensures var fs := Stage2WithinRun.StatFields(w, run, con, p, "beta");
            Tokens(Stage2WithinRun.StatPath(w, run, con, p, "beta")) == [w.out + "/" + w.subj] + fs[1..]
  {
    IntToken(p.0);
    var fs := Stage2WithinRun.StatFields(w, run, con, p, "beta");
    assert NoSep(fs, '_');
    assert Stage2WithinRun.StatPath(w, run, con, p, "beta") == (w.out + "/") + Join(fs, '_');
    TokensOfPrefixedJoin(w.out + "/", fs);
  }

  /** As written, the pairing check passes for the run-level maps of any two
      subjects with the same session, task, mask and permutation: token 0,
      where the subject is, is never compared. */
  lemma AsWrittenPairsAnySubjects(w1: Stage2WithinRun.Args, w2: Stage2WithinRun.Args, con: string,
                                  p: (int, string, string))
    requires Fields(w1, "01", con, p) && Fields(w2, "02", con, p)
    requires w1.ses == w2.ses && w1.task == w2.task && w1.maskLabel == w2.maskLabel
    ensures PairAgrees(Stage2WithinRun.StatPath(w1, "01", con, p, "beta"),
                       Stage2WithinRun.StatPath(w2, "02", con, p, "beta"), FirstCompared(true))
  {
    RunTokens(w1, "01", con, p);
    RunTokens(w2, "02", con, p);
  }

  /** Corrected to compare tokens 0 to 2, as the subsampling script does, the
      check passes for such a pair exactly when the directory and subject
      agree. */
  lemma CorrectedPairsSameSubject(w1: Stage2WithinRun.Args, w2: Stage2WithinRun.Args, con: string,
                                  p: (int, string, string))
    requires Fields(w1, "01", con, p) && Fields(w2, "02", con, p)
    requires w1.ses == w2.ses && w1.task == w2.task && w1.maskLabel == w2.maskLabel
    ensures PairAgrees(Stage2WithinRun.StatPath(w1, "01", con, p, "beta"),
                       Stage2WithinRun.StatPath(w2, "02", con, p, "beta"), FirstCompared(false))
            <==> w1.out + "/" + w1.subj == w2.out + "/" + w2.subj
  {
    RunTokens(w1, "01", con, p);
    RunTokens(w2, "02", con, p);
    var t1 := Tokens(Stage2WithinRun.StatPath(w1, "01", con, p, "beta"));
    var t2 := Tokens(Stage2WithinRun.StatPath(w2, "02", con, p, "beta"));
    if Slice(t1, 0, 3) == Slice(t2, 0, 3) {
      assert t1[0] == Slice(t1, 0, 3)[0];
    }
  }
}
