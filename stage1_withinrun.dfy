/** Stage1_Code/runs_withinrun_permutations.py: every subject, run and one of
    the eight (fwhm, motion, model) permutations is fitted without a mask and
    with the permutation's smoothing; a beta and a variance map are written per
    contrast under names that say `mask-brain`. */
module Stage1WithinRun {
  import opened Text
  import opened Errors
  import opened Design
  import opened Effects
  import opened FirstLevel
  import opened Chunks
  import opened Permutations
  import opened Stage1Layout
  import opened Regressors

  /** The axes of the grid: smoothing kernels, motion options, model types. */
  const Fwhms: seq<int> := [4, 5]
  const Motions: seq<string> := ["opt1", "opt5"]
  const Models: seq<string> := ["AntMod", "FixMod"]

  /** `product(Fwhms, Motions, Models)`. */
  const Perms: seq<(int, string, string)> := Product3(Fwhms, Motions, Models)

  /** `{subj}_ses-01_task-mid_{run}_contrast-{c}_mask-brain_mot-{m}_mod-{mod}_fwhm-{s}_{kind}.nii.gz`. */
  function NameFields(subj: string, run: string, con: string, p: (int, string, string), kind: string): seq<string>
  {
    [subj, "ses-01", "task-mid", run, "contrast-" + con, "mask-brain", "mot-" + p.1, "mod-" + p.2,
     "fwhm-" + IntToString(p.0), kind + ".nii.gz"]
  }

  function OutPath(pl: Places, subj: string, run: string, con: string, p: (int, string, string), kind: string): string
  {
    pl.out + "/" + Join(NameFields(subj, run, con, p, kind), '_')
  }

  /** Beta and variance maps of contrast c. */
  function BetaVarPair(pl: Places, subj: string, run: string, p: (int, string, string), fit: Fit, c: nat)
    : (r: seq<Effect>)
    requires c < |Contrasts|
    ensures |r| == 2
  {
    var name, con := Contrasts[c].0, Contrasts[c].1;
    [Save(OutPath(pl, subj, run, name, p, "beta"), Image(ContrastMap(fit, con, "effect_size"))),
     Save(OutPath(pl, subj, run, name, p, "var"), Image(ContrastMap(fit, con, "effect_variance")))]
  }

  /** The maps of every contrast, contrast by contrast. */
  function BetaVarParts(pl: Places, subj: string, run: string, p: (int, string, string), fit: Fit)
    : (r: seq<seq<Effect>>)
    ensures |r| == |Contrasts| && Uniform(r, 2)
  {
    seq(|Contrasts|, c requires 0 <= c < |Contrasts| => BetaVarPair(pl, subj, run, p, fit, c))
  }

  /** Beta and variance maps of one fit: two per contrast, in contrast order. */
  function BetaVarSaves(pl: Places, subj: string, run: string, p: (int, string, string), fit: Fit)
    : (r: seq<Effect>)
    ensures |r| == 2 * |Contrasts|
  {
    FlattenLength(BetaVarParts(pl, subj, run, p, fit), 2);
    Flatten(BetaVarParts(pl, subj, run, p, fit))
  }

  /** One permutation: no mask is given to the model, whatever the names say. */
  function PermStep(disk: Disk, pl: Places, subj: string, run: string, p: (int, string, string)): (r: Outcome)
    requires disk.Valid()
    ensures r.failure.Some? ==> r.effects == []
    ensures r.failure.None? ==> |r.effects| == 2 * |Contrasts|
  {
    var events := ReadEvents(disk, EventsPath(pl, subj, run));
    if events.Err? then Fail(events.error)
    else
      var bold := FirstMatch(disk, BoldPattern(pl, subj, run));
      if bold.Err? then Fail(bold.error)
      else
        var design := Stage1Design(disk, pl, subj, run, events.value, p.1, p.2);
        if design.Err? then Fail(design.error)
        else
          var fit := Fit(subj, NoMask, BoldTr, Some(p.0 as real), bold.value, design.value);
          Done(BetaVarSaves(pl, subj, run, p, fit))
  }

  function PermsFrom(disk: Disk, pl: Places, subj: string, run: string, perms: seq<(int, string, string)>,
                     k: nat): Outcome
    requires disk.Valid()
    decreases |perms| - k
  {
    if k >= |perms| then Done([])
    else Then(PermStep(disk, pl, subj, run, perms[k]), PermsFrom(disk, pl, subj, run, perms, k + 1))
  }

  function RunsFrom(disk: Disk, pl: Places, subj: string, perms: seq<(int, string, string)>, j: nat): Outcome
    requires disk.Valid()
    decreases |Runs| - j
  {
    if j >= |Runs| then Done([])
    else Then(PermsFrom(disk, pl, subj, Runs[j], perms, 0), RunsFrom(disk, pl, subj, perms, j + 1))
  }

  function SubjectsFrom(disk: Disk, pl: Places, subjects: seq<string>, perms: seq<(int, string, string)>,
                        i: nat): Outcome
    requires disk.Valid()
    decreases |subjects| - i
  {
    if i >= |subjects| then Done([])
    else Then(RunsFrom(disk, pl, subjects[i], perms, 0), SubjectsFrom(disk, pl, subjects, perms, i + 1))
  }

  /** Everything the script does. */
  function WithinRunScript(disk: Disk, pl: Places, subjects: seq<string>): Outcome
    requires disk.Valid()
  {
    Then(Done(MakeOut(disk, pl.out)), SubjectsFrom(disk, pl, subjects, Perms, 0))
  }

  // ------------------------------------------------------------ the script

  method SaveBetaVar(pl: Places, subj: string, run: string, p: (int, string, string), fit: Fit)
    returns (saves: seq<Effect>)
    ensures saves == BetaVarSaves(pl, subj, run, p, fit)
  {
    ghost var parts := BetaVarParts(pl, subj, run, p, fit);
    saves := [];
    var k := 0;
    while k < |Contrasts|
      invariant k <= |Contrasts|
      invariant saves == Flatten(parts[..k])
    {
      var name, con := Contrasts[k].0, Contrasts[k].1;
      var pair := [Save(OutPath(pl, subj, run, name, p, "beta"), Image(ContrastMap(fit, con, "effect_size"))),
                   Save(OutPath(pl, subj, run, name, p, "var"), Image(ContrastMap(fit, con, "effect_variance")))];
      assert pair == parts[k];
      FlattenSnoc(parts, k);
      saves := saves + pair;
      k := k + 1;
    }
    assert parts[..k] == parts;
  }

  method Permutation(disk: Disk, pl: Places, subj: string, run: string, p: (int, string, string))
    returns (out: Outcome)
    requires disk.Valid()
    ensures out == PermStep(disk, pl, subj, run, p)
  {
    var (smooth, motion, model) := p;
    var events := ReadEvents(disk, EventsPath(pl, subj, run));
    if events.Err? {
      return Fail(events.error);
    }
    var bold := FirstMatch(disk, BoldPattern(pl, subj, run));
    if bold.Err? {
      return Fail(bold.error);
    }
    var design := DesignRun(disk, pl, subj, run, events.value, motion, model);
    if design.Err? {
      return Fail(design.error);
    }
    var fit := Fit(subj, NoMask, BoldTr, Some(smooth as real), bold.value, design.value);
    var saves := SaveBetaVar(pl, subj, run, p, fit);
    out := Done(saves);
  }

  method RunPerms(disk: Disk, pl: Places, subj: string, run: string, perms: seq<(int, string, string)>)
    returns (out: Outcome)
    requires disk.Valid()
    ensures out == PermsFrom(disk, pl, subj, run, perms, 0)
  {
    out := Done([]);
    ThenDone(PermsFrom(disk, pl, subj, run, perms, 0));
    var k := 0;
    while k < |perms|
      invariant k <= |perms| && out.failure.None?
      invariant Then(out, PermsFrom(disk, pl, subj, run, perms, k)) == PermsFrom(disk, pl, subj, run, perms, 0)
    {
      var step := Permutation(disk, pl, subj, run, perms[k]);
      ThenAssoc(out, step, PermsFrom(disk, pl, subj, run, perms, k + 1));
      out := Then(out, step);
      if step.failure.Some? {
        return;
      }
      k := k + 1;
    }
    ThenDone(out);
  }

  method SubjectRuns(disk: Disk, pl: Places, subj: string, perms: seq<(int, string, string)>)
    returns (out: Outcome)
    requires disk.Valid()
    ensures out == RunsFrom(disk, pl, subj, perms, 0)
  {
    out := Done([]);
    ThenDone(RunsFrom(disk, pl, subj, perms, 0));
    var j := 0;
    while j < |Runs|
      invariant j <= |Runs| && out.failure.None?
      invariant Then(out, RunsFrom(disk, pl, subj, perms, j)) == RunsFrom(disk, pl, subj, perms, 0)
    {
      var step := RunPerms(disk, pl, subj, Runs[j], perms);
      ThenAssoc(out, step, RunsFrom(disk, pl, subj, perms, j + 1));
      out := Then(out, step);
      if step.failure.Some? {
        return;
      }
      j := j + 1;
    }
    ThenDone(out);
  }

  method RunSubjects(disk: Disk, pl: Places, subjects: seq<string>, perms: seq<(int, string, string)>)
    returns (out: Outcome)
    requires disk.Valid()
    ensures out == SubjectsFrom(disk, pl, subjects, perms, 0)
  {
    out := Done([]);
    ThenDone(SubjectsFrom(disk, pl, subjects, perms, 0));
    var i := 0;
    while i < |subjects|
      invariant i <= |subjects| && out.failure.None?
      invariant Then(out, SubjectsFrom(disk, pl, subjects, perms, i)) == SubjectsFrom(disk, pl, subjects, perms, 0)
    {
      var step := SubjectRuns(disk, pl, subjects[i], perms);
      ThenAssoc(out, step, SubjectsFrom(disk, pl, subjects, perms, i + 1));
      out := Then(out, step);
      if step.failure.Some? {
        return;
      }
      i := i + 1;
    }
    ThenDone(out);
  }

  /** The script; `subjects` is the 'Subjects' column of subjects.csv. */
  method RunScript(disk: Disk, pl: Places, subjects: seq<string>) returns (out: Outcome)
    requires disk.Valid()
    ensures out == WithinRunScript(disk, pl, subjects)
  {
    var made := MakeOut(disk, pl.out);
    var rest := RunSubjects(disk, pl, subjects, Perms);
    out := Then(Done(made), rest);
  }

  // ------------------------------------------------------------ properties

  /** Eight permutations in `itertools.product` order; 'opt5' is a motion value. */
  lemma PermsOrder()
    ensures Perms == [(4, "opt1", "AntMod"), (4, "opt1", "FixMod"), (4, "opt5", "AntMod"), (4, "opt5", "FixMod"),
                      (5, "opt1", "AntMod"), (5, "opt1", "FixMod"), (5, "opt5", "AntMod"), (5, "opt5", "FixMod")]
  {
    var xs, ys, zs := Fwhms, Motions, Models;
    ProductLength(xs, ys, zs);
    ProductIndex(xs, ys, zs, 0, 0, 0);
    ProductIndex(xs, ys, zs, 0, 0, 1);
    ProductIndex(xs, ys, zs, 0, 1, 0);
    ProductIndex(xs, ys, zs, 0, 1, 1);
    ProductIndex(xs, ys, zs, 1, 0, 0);
    ProductIndex(xs, ys, zs, 1, 0, 1);
    ProductIndex(xs, ys, zs, 1, 1, 0);
    ProductIndex(xs, ys, zs, 1, 1, 1);
  }

  /** Every completed permutation is fitted without a mask, with its own fwhm
      as smoothing, hrf 'glover' and unshifted frame times, although its names
      carry `mask-brain`. */
  lemma FitWithoutMask(disk: Disk, pl: Places, subj: string, run: string, p: (int, string, string), c: nat)
    requires disk.Valid() && PermStep(disk, pl, subj, run, p).failure.None? && c < |Contrasts|
    ensures var s := PermStep(disk, pl, subj, run, p).effects;
            s[2 * c].Save? && s[2 * c].content.Image? && s[2 * c].content.img.ContrastMap? &&
            var fit := s[2 * c].content.img.fit;
            fit.mask == NoMask && fit.smoothing == Some(p.0 as real) &&
            fit.design.hrf == "glover" && fit.design.frameTimes == FrameTimes(NumVols, BoldTr, false)
  {
    var events := ReadEvents(disk, EventsPath(pl, subj, run));
    var bold := FirstMatch(disk, BoldPattern(pl, subj, run));
    var design := Stage1Design(disk, pl, subj, run, events.value, p.1, p.2);
    assert design.Ok?;
    var fit := Fit(subj, NoMask, BoldTr, Some(p.0 as real), bold.value, design.value);
    var s := BetaVarSaves(pl, subj, run, p, fit);
    assert PermStep(disk, pl, subj, run, p).effects == s;
    assert s[2 * c].Save? && s[2 * c].content == Image(ContrastMap(fit, Contrasts[c].1, "effect_size")) by {
      BetaVarAt(pl, subj, run, p, fit, c, 0);
    }
  }

  /** For contrast `c` the fit writes its beta map (t = 0), then its variance
      map (t = 1), at entry `2·c + t`. */
  lemma BetaVarAt(pl: Places, subj: string, run: string, p: (int, string, string), fit: Fit,
                  c: nat, t: nat)
    requires c < |Contrasts| && t < 2
    ensures var s := BetaVarSaves(pl, subj, run, p, fit);
            2 * c + t < |s| && s[2 * c + t] == BetaVarPair(pl, subj, run, p, fit, c)[t]
  {
    FlattenAt(BetaVarParts(pl, subj, run, p, fit), 2, c, t);
  }

  /** Every motion value is an option Stage 1 `pull_regressors` knows, 'opt5'
      through its own branch, so no permutation fails on the option name. */
  lemma MotionOptionsKnown()
    ensures forall p :: p in Perms ==> p.1 == "opt5" || p.1 in Stage1Table
  {
    PermsOrder();
  }
}
