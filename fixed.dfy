/** The `fixed_effect` function of the two within-session scripts: for each
    contrast, the sorted run-level beta and variance lists, their combination
    by `compute_fixed_effects`, the output directory if it is missing, then
    the combined maps the flags ask for. The
    two copies differ only in their file names, told apart by `Layout`. */
module Fixed {
  import opened Text
  import opened Glob
  import opened Effects

  /** `save_beta`, `save_var`, `save_tstat`. */
  datatype Flags = Flags(beta: bool, variance: bool, tstat: bool)

  /** The defaults of `fixed_effect`: the t-statistic only. */
  const Defaults: Flags := Flags(false, false, true)

  /** What both drivers pass: effect and variance, no t-statistic. */
  const DriverFlags: Flags := Flags(true, true, false)

  /** How many maps the flags ask for. */
  function Count(flags: Flags): nat
  {
    (if flags.beta then 1 else 0) + (if flags.variance then 1 else 0) + (if flags.tstat then 1 else 0)
  }

  /** The combined effect (part 0), variance (part 1) and t map (part 2) of one
      contrast, each written iff its flag is set, in that order. */
  function FlagSaves(flags: Flags, betas: seq<string>, variances: seq<string>,
                     effectPath: string, varPath: string, tstatPath: string): (r: seq<Effect>)
    ensures |r| == Count(flags)
    ensures Save(effectPath, Image(FixedEffects(betas, variances, 0))) in r <==> flags.beta
    ensures Save(varPath, Image(FixedEffects(betas, variances, 1))) in r <==> flags.variance
    ensures Save(tstatPath, Image(FixedEffects(betas, variances, 2))) in r <==> flags.tstat
    ensures forall i :: 0 <= i < |r| ==> r[i].Save? && r[i].content == Image(r[i].content.img) &&
                                         r[i].content.img.FixedEffects? && r[i].content.img.betas == betas &&
                                         r[i].content.img.variances == variances
  {
    (if flags.beta then [Save(effectPath, Image(FixedEffects(betas, variances, 0)))] else [])
    + (if flags.variance then [Save(varPath, Image(FixedEffects(betas, variances, 1)))] else [])
    + (if flags.tstat then [Save(tstatPath, Image(FixedEffects(betas, variances, 2)))] else [])
  }

  /** With the drivers' flags exactly the effect and the variance map are written. */
  lemma DriverSaves(betas: seq<string>, variances: seq<string>, effectPath: string, varPath: string, tstatPath: string)
    ensures FlagSaves(DriverFlags, betas, variances, effectPath, varPath, tstatPath) ==
            [Save(effectPath, Image(FixedEffects(betas, variances, 0))),
             Save(varPath, Image(FixedEffects(betas, variances, 1)))]
    ensures FlagSaves(Defaults, betas, variances, effectPath, varPath, tstatPath) ==
            [Save(tstatPath, Image(FixedEffects(betas, variances, 2)))]
  {
  }

  /** Whose file names a call uses: Stage 1's, Stage 2's as written, or Stage
      2's with the `ses-` its first-level names carry. */
  datatype Layout = Stage1 | Stage2AsWritten | Stage2

  /** The arguments of one `fixed_effect` call, and `model`, the module-level
      name its input patterns read. */
  datatype Call = Call(layout: Layout, subject: string, session: string, task: string, contrasts: seq<string>,
                       inDir: string, outDir: string, permutation: string, model: string, flags: Flags)

  /** The session field of the input names. */
  function InputSession(call: Call): string
  {
    if call.layout == Stage2 then "ses-" + call.session else call.session
  }

  /** Stage 1: `{subject}_{session}_task-{task}_run-*_contrast-{c}_{model}_{kind}.nii.gz`;
      Stage 2: the same with `stat-{kind}` and the session as `InputSession` says. */
  function InputFields(call: Call, c: string, kind: string): seq<string>
  {
    [call.subject, InputSession(call), "task-" + call.task, "run-*", "contrast-" + c, call.model,
     (if call.layout == Stage1 then "" else "stat-") + kind + ".nii.gz"]
  }

  function InputName(call: Call, c: string, kind: string): string
  {
    Join(InputFields(call, c, kind), '_')
  }

  /** The directory part of the pattern: `{firstlvl_indir}` in Stage 1, and in
      Stage 2 that directory followed by a `**` component. */
  function InputDir(call: Call): string
  {
    if call.layout == Stage1 then call.inDir else call.inDir + "/**"
  }

  /** The pattern as `glob` lists it, in the directory `os.path.split` leaves. */
  function InputPattern(call: Call, c: string, kind: string): string
  {
    PatternHead(InputDir(call)) + "/" + InputName(call, c, kind)
  }

  /** `{outdir}/{subject}_{session}_task-{task}_effect-fixed_contrast-{c}_{perm}_stat-{stat}.nii.gz`,
      with `ses-{session}` in Stage 2. */
  function OutPath(call: Call, c: string, stat: string): string
  {
    var ses := if call.layout == Stage1 then call.session else "ses-" + call.session;
    call.outDir + "/" + Join([call.subject, ses, "task-" + call.task, "effect-fixed", "contrast-" + c,
                              call.permutation, "stat-" + stat + ".nii.gz"], '_')
  }
  /** The sorted listing of the run-level maps of contrast `c` of one kind. */
  function Listing(disk: Disk, call: Call, c: string, kind: string): seq<string>
  {
    SortedGlob(InputPattern(call, c, kind), disk.files)
  }

  /** The sorted beta and variance listings of one contrast. */
  datatype Lists = Lists(betas: seq<string>, variances: seq<string>)

  /** The listings of every contrast of the call, in contrast order. */
  function AllLists(disk: Disk, call: Call): (r: seq<Lists>)
    ensures |r| == |call.contrasts|
  {
    seq(|call.contrasts|, i requires 0 <= i < |call.contrasts| =>
      Lists(Listing(disk, call, call.contrasts[i], "beta"), Listing(disk, call, call.contrasts[i], "var")))
  }

  /** Contrast i's listings are sorted, and hold exactly the existing maps its
      beta (variance) pattern matches. */
  lemma ListsSpec(disk: Disk, call: Call, i: nat)
    requires i < |call.contrasts|
    ensures var l, c := AllLists(disk, call)[i], call.contrasts[i];
            Sorted(l.betas) && Sorted(l.variances) &&
            (forall x :: x in l.betas <==> x in disk.files && GlobMatch(InputPattern(call, c, "beta"), x)) &&
            (forall x :: x in l.variances <==> x in disk.files && GlobMatch(InputPattern(call, c, "var"), x))
  {
    SortedGlobSpec(InputPattern(call, call.contrasts[i], "beta"), disk.files);
    SortedGlobSpec(InputPattern(call, call.contrasts[i], "var"), disk.files);
  }

  /** What `compute_fixed_effects` accepts: at least one beta map, and one
      variance map per beta map; otherwise it raises a `ValueError`. */
  predicate Combinable(l: Lists)
  {
    |l.betas| > 0 && |l.betas| == |l.variances|
  }

  /** Every contrast from k on has listings `compute_fixed_effects` accepts. */
  predicate AllCombinable(lists: seq<Lists>, k: nat)
  {
    forall i :: k <= i < |lists| ==> Combinable(lists[i])
  }

  const FixedError: Errors.Error := Errors.LibraryError("compute_fixed_effects")

  /** One contrast over its listings: their combination (which raises before
      anything is written when they are empty or unequal), the output
      directory if it does not exist yet, then the flagged maps. */
  function ContrastStep(call: Call, c: string, l: Lists, made: bool): (r: Outcome)
    ensures r.failure.Some? <==> !Combinable(l)
    ensures r.failure.Some? ==> r == Fail(FixedError)
    ensures r.failure.None? ==> |r.effects| == Count(call.flags) + (if made then 0 else 1)
  {
    if !Combinable(l) then Fail(FixedError)
    else
      Done((if made then [] else [MakeDirs(call.outDir)])
           + FlagSaves(call.flags, l.betas, l.variances,
                       OutPath(call, c, "effect"), OutPath(call, c, "var"), OutPath(call, c, "tstat")))
  }

  /** Contrasts k.. of the call over their listings; `made` says whether the
      output directory exists. */
  function FixedEffectFrom(call: Call, lists: seq<Lists>, k: nat, made: bool): Outcome
    requires |lists| == |call.contrasts| && k <= |lists|
    decreases |lists| - k
  {
    if k == |lists| then Done([])
    else Then(ContrastStep(call, call.contrasts[k], lists[k], made), FixedEffectFrom(call, lists, k + 1, true))
  }

  /** The only directory effect of `r` is the creation of `dir`, at its head,
      and it is there iff `first`. */
  predicate DirFirst(r: seq<Effect>, first: bool, dir: string)
  {
    forall i :: 0 <= i < |r| ==> (r[i].MakeDirs? <==> i == 0 && first) && (r[i].MakeDirs? ==> r[i] == MakeDirs(dir))
  }

  /** `fixed_effect` completes iff every contrast's listings are accepted; when
      it stops, it is `compute_fixed_effects` that raised. */
  lemma {:induction false} FixedEffectSucceeds(call: Call, lists: seq<Lists>, k: nat, made: bool)
    requires |lists| == |call.contrasts| && k <= |lists|
    ensures var r := FixedEffectFrom(call, lists, k, made);
            (r.failure.None? <==> AllCombinable(lists, k)) && (r.failure.Some? ==> r.failure == Some(FixedError))
    decreases |lists| - k
  {
    if k < |lists| {
      FixedEffectSucceeds(call, lists, k + 1, true);
    }
  }

  /** The directory is created at most once, first, and only when it is missing
      and the first contrast's listings are accepted. */
  lemma {:induction false} DirectoryOnce(call: Call, lists: seq<Lists>, k: nat, made: bool)
    requires |lists| == |call.contrasts| && k <= |lists|
    ensures DirFirst(FixedEffectFrom(call, lists, k, made).effects,
                     !made && k < |lists| && Combinable(lists[k]), call.outDir)
    decreases |lists| - k
  {
    if k < |lists| {
      var s := ContrastStep(call, call.contrasts[k], lists[k], made);
      var rest := FixedEffectFrom(call, lists, k + 1, true);
      if s.failure.None? {
        assert FixedEffectFrom(call, lists, k, made).effects == s.effects + rest.effects;
        assert DirFirst(s.effects, !made, call.outDir) by {
          StepDirFirst(call, call.contrasts[k], lists[k], made);
        }
        assert DirFirst(rest.effects, false, call.outDir) by {
          DirectoryOnce(call, lists, k + 1, true);
        }
        DirFirstAppend(s.effects, rest.effects, !made, call.outDir);
      }
    }
  }

  /** One accepted contrast creates the directory first iff it is missing. */
  lemma StepDirFirst(call: Call, c: string, l: Lists, made: bool)
    requires Combinable(l)
    ensures DirFirst(ContrastStep(call, c, l, made).effects, !made, call.outDir)
  {
  }

  /** A block that creates the directory first (when `first`, and then is not
      empty) followed by one that does not keeps the directory first. */
  lemma DirFirstAppend(s: seq<Effect>, rest: seq<Effect>, first: bool, dir: string)
    requires first ==> |s| > 0
    requires DirFirst(s, first, dir) && DirFirst(rest, false, dir)
    ensures DirFirst(s + rest, first, dir)
  {
    var r := s + rest;
    forall i | 0 <= i < |r|
      ensures (r[i].MakeDirs? <==> i == 0 && first) && (r[i].MakeDirs? ==> r[i] == MakeDirs(dir))
    {
      if i < |s| {
        assert r[i] == s[i];
      } else {
        assert r[i] == rest[i - |s|];
      }
    }
  }

  /** When every listing is accepted, each contrast writes as many maps as the
      flags ask for, plus the directory once. */
  lemma {:induction false} FixedEffectLength(call: Call, lists: seq<Lists>, k: nat, made: bool)
    requires |lists| == |call.contrasts| && k <= |lists| && AllCombinable(lists, k)
    ensures var r := FixedEffectFrom(call, lists, k, made);
            r.failure.None? &&
            |r.effects| == Count(call.flags) * (|lists| - k) + (if !made && k < |lists| then 1 else 0)
    decreases |lists| - k
  {
    if k < |lists| {
      FixedEffectLength(call, lists, k + 1, true);
      var s := ContrastStep(call, call.contrasts[k], lists[k], made);
      var rest := FixedEffectFrom(call, lists, k + 1, true);
      assert FixedEffectFrom(call, lists, k, made).effects == s.effects + rest.effects;
      MulStep(Count(call.flags), |lists| - k);
    }
  }

  lemma MulStep(m: nat, n: nat)
    requires n > 0
    ensures m * n == m + m * (n - 1)
  {
  }

  /** With the drivers' flags, when every listing is accepted, a call writes
      two maps per contrast, after the directory when it is missing and there
      is a contrast. */
  lemma DriverCount(call: Call, lists: seq<Lists>, made: bool)
    requires call.flags == DriverFlags && |lists| == |call.contrasts| && AllCombinable(lists, 0)
    ensures var r := FixedEffectFrom(call, lists, 0, made);
            r.failure.None? && |r.effects| == 2 * |call.contrasts| + (if made || |call.contrasts| == 0 then 0 else 1)
  {
    assert Count(call.flags) == 2;
    FixedEffectLength(call, lists, 0, made);
  }

  /** With the drivers' flags one accepted contrast writes the combined effect
      of its listings, then their combined variance. */
  lemma DriverStep(call: Call, c: string, l: Lists)
    requires call.flags == DriverFlags && Combinable(l)
    ensures ContrastStep(call, c, l, true) ==
            Done([Save(OutPath(call, c, "effect"), Image(FixedEffects(l.betas, l.variances, 0))),
                  Save(OutPath(call, c, "var"), Image(FixedEffects(l.betas, l.variances, 1)))])
  {
    DriverSaves(l.betas, l.variances, OutPath(call, c, "effect"), OutPath(call, c, "var"), OutPath(call, c, "tstat"));
  }

  /** With the drivers' flags, the directory in place and every listing
      accepted, contrast `k` writes its combined effect and then its variance,
      each over that contrast's listings. */
  lemma {:induction false} DriverOutputs(call: Call, lists: seq<Lists>, j: nat, k: nat)
    requires call.flags == DriverFlags && |lists| == |call.contrasts| && j <= k < |lists| && AllCombinable(lists, j)
    ensures var r := FixedEffectFrom(call, lists, j, true).effects;
            var c, l := call.contrasts[k], lists[k];
            |r| == 2 * (|lists| - j) &&
            r[2 * (k - j)] == Save(OutPath(call, c, "effect"), Image(FixedEffects(l.betas, l.variances, 0))) &&
            r[2 * (k - j) + 1] == Save(OutPath(call, c, "var"), Image(FixedEffects(l.betas, l.variances, 1)))
    decreases k - j
  {
    DriverLength(call, lists, j);
    if j == k {
      DriverStep(call, call.contrasts[j], lists[j]);
    } else {
      DriverOutputs(call, lists, j + 1, k);
      var q := 2 * (k - (j + 1));
      DriverShift(call, lists, j, q);
      DriverShift(call, lists, j, q + 1);
      assert 2 * (k - j) == 2 + q;
    }
  }

  lemma DriverLength(call: Call, lists: seq<Lists>, j: nat)
    requires call.flags == DriverFlags && |lists| == |call.contrasts| && j <= |lists| && AllCombinable(lists, j)
    ensures |FixedEffectFrom(call, lists, j, true).effects| == 2 * (|lists| - j)
  {
    FixedEffectLength(call, lists, j, true);
    assert Count(call.flags) == 2;
  }

  /** Past contrast j's two maps come the maps of the later contrasts. */
  lemma DriverShift(call: Call, lists: seq<Lists>, j: nat, q: nat)
    requires call.flags == DriverFlags && |lists| == |call.contrasts| && j < |lists| && Combinable(lists[j])
    requires q < |FixedEffectFrom(call, lists, j + 1, true).effects|
    ensures 2 + q < |FixedEffectFrom(call, lists, j, true).effects|
    ensures FixedEffectFrom(call, lists, j, true).effects[2 + q] == FixedEffectFrom(call, lists, j + 1, true).effects[q]
  {
    DriverStep(call, call.contrasts[j], lists[j]);
  }

  /** `fixed_effect(...)` on the disk as it is before the call. */
  function FixedEffect(disk: Disk, call: Call): Outcome
  {
    FixedEffectFrom(call, AllLists(disk, call), 0, call.outDir in disk.dirs)
  }

  /** The fields of the permutation label `mask-{maskLabel}_mot-{motion}_mod-{model}_fwhm-{fwhm}`. */
  function PermFields(maskLabel: string, fwhm: string, motion: string, model: string): seq<string>
  {
    ["mask-" + maskLabel, "mot-" + motion, "mod-" + model, "fwhm-" + fwhm]
  }

  /** The last field of an input name. */
  function KindField(call: Call, kind: string): string
  {
    (if call.layout == Stage1 then "" else "stat-") + kind + ".nii.gz"
  }

  /** The input name's fields with the permutation label spelled out. */
  function FlatInputFields(call: Call, c: string, kind: string, maskLabel: string, fwhm: string, motion: string,
                           model: string): seq<string>
  {
    [call.subject, InputSession(call), "task-" + call.task, "run-*", "contrast-" + c, "mask-" + maskLabel,
     "mot-" + motion, "mod-" + model, "fwhm-" + fwhm, KindField(call, kind)]
  }

  /** When `model` is a permutation label, the input name is the join of the
      flattened fields. */
  lemma InputNameFlat(call: Call, c: string, kind: string, maskLabel: string, fwhm: string, motion: string,
                      model: string)
    requires call.model == Join(PermFields(maskLabel, fwhm, motion, model), '_')
    ensures InputName(call, c, kind) == Join(FlatInputFields(call, c, kind, maskLabel, fwhm, motion, model), '_')
  {
    var head := [call.subject, InputSession(call), "task-" + call.task, "run-*", "contrast-" + c];
    var perm := PermFields(maskLabel, fwhm, motion, model);
    var tail := [KindField(call, kind)];
    JoinFlatten(head, perm, tail, '_');
    assert InputFields(call, c, kind) == head + [Join(perm, '_')] + tail;
    assert FlatInputFields(call, c, kind, maskLabel, fwhm, motion, model) == head + perm + tail;
  }

  /** Field by field, a pattern's `run-*` takes the run and every other field
      is literal text equal to the name's. */
  lemma RunFieldsMatch(pf: seq<string>, nf: seq<string>, run: string)
    requires |pf| == |nf| && |pf| > 3 && pf[3] == "run-*" && nf[3] == "run-" + run
    requires forall i :: 0 <= i < |pf| && i != 3 ==> pf[i] == nf[i] && '*' !in pf[i]
    ensures FnMatch(Join(pf, '_'), Join(nf, '_'))
  {
    forall i | 0 <= i < |pf|
      ensures FnMatch(pf[i], nf[i])
    {
      if i == 3 {
        FnMatchOneStar("run-", run, "");
        assert "run-" + "*" + "" == pf[3] && "run-" + run + "" == nf[3];
      } else {
        FnMatchSelf(pf[i]);
      }
    }
    FnMatchFields(pf, nf, '_');
  }

  /** One pass of the contrast loop of `fixed_effect`. */
  method RunContrast(disk: Disk, call: Call, c: string, made: bool) returns (step: Outcome)
    ensures step == ContrastStep(call, c, Lists(Listing(disk, call, c, "beta"), Listing(disk, call, c, "var")), made)
  {
    var betas := SortedGlob(InputPattern(call, c, "beta"), disk.files);
    var variances := SortedGlob(InputPattern(call, c, "var"), disk.files);
    if |betas| == 0 || |betas| != |variances| {
      return Fail(FixedError);
    }
    var effects := [];
    if !made {
      effects := [MakeDirs(call.outDir)];
    }
    effects := effects + FlagSaves(call.flags, betas, variances,
                                   OutPath(call, c, "effect"), OutPath(call, c, "var"), OutPath(call, c, "tstat"));
    step := Done(effects);
  }

  /** Running contrast k after `out`, then the rest; when it raises, that is
      the end of the loop. */
  lemma ContrastThen(call: Call, lists: seq<Lists>, k: nat, made: bool, out: Outcome, step: Outcome, whole: Outcome)
    requires |lists| == |call.contrasts| && k < |lists| && step == ContrastStep(call, call.contrasts[k], lists[k], made)
    requires out.failure.None? && Then(out, FixedEffectFrom(call, lists, k, made)) == whole
    ensures step.failure.Some? ==> Then(out, step) == whole
    ensures step.failure.None? ==> Then(out, step).failure.None? &&
                                   Then(Then(out, step), FixedEffectFrom(call, lists, k + 1, true)) == whole
  {
    ThenAssoc(out, step, FixedEffectFrom(call, lists, k + 1, true));
  }

  /** `fixed_effect`: the contrast loop, listing and checking for the
      directory on every pass, stopping at the first exception. */
  method RunFixedEffect(disk: Disk, call: Call, made0: bool) returns (out: Outcome)
    ensures out == FixedEffectFrom(call, AllLists(disk, call), 0, made0)
  {
    ghost var lists := AllLists(disk, call);
    out := Done([]);
    ThenDone(FixedEffectFrom(call, lists, 0, made0));
    var made := made0;
    var k := 0;
    while k < |call.contrasts|
      invariant k <= |call.contrasts| && out.failure.None? && made == (made0 || k > 0)
      invariant Then(out, FixedEffectFrom(call, lists, k, made)) == FixedEffectFrom(call, lists, 0, made0)
    {
      var step := RunContrast(disk, call, call.contrasts[k], made);
      ContrastThen(call, lists, k, made, out, step, FixedEffectFrom(call, lists, 0, made0));
      out := Then(out, step);
      if step.failure.Some? {
        return;
      }
      made := true;
      k := k + 1;
    }
    ThenDone(out);
  }
}
