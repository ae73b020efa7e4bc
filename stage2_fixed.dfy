/** Stage2_Code/runs_withinsession_permutations.py: for one subject and session
    given on the command line, each of the eight (fwhm, motion, model)
    permutations combines the run-level beta and variance maps of every
    contrast by fixed effects and writes the combined effect and variance. */
module Stage2Fixed {
  import opened Text
  import opened Glob
  import opened Effects
  import opened Permutations
  import opened Fixed
  import Stage2WithinRun

  /** The positional arguments; `mask` is read but never used. */
  datatype Args = Args(sample: string, subj: string, task: string, ses: string, inp: string, mask: string,
                       maskLabel: string, out: string)

  const Contrasts: seq<string> := ["Lgain-Neut", "Sgain-Neut", "Lgain-Base", "Sgain-Base"]

  /** The axes of the grid: smoothing kernels, motion options, model types. */
  const Fwhms: seq<int> := [4, 5]
  const Motions: seq<string> := ["opt1", "opt5"]
  const Models: seq<string> := ["AntMod", "FixMod"]

  /** `list(product(fwhm_opt, mot_opt, modtype_opt))`. */
  const Perms: seq<(int, string, string)> := Product3(Fwhms, Motions, Models)

  /** `f'mask-{mask_label}_mot-{motion}_mod-{model}_fwhm-{fwhm}'`. */
  function PermString(a: Args, p: (int, string, string)): string
  {
    Join(PermFields(a.maskLabel, IntToString(p.0), p.1, p.2), '_')
  }

  /** The call the script makes for permutation `p`: as written
      (`asWritten`), the input names carry the bare session; otherwise they
      carry `ses-{session}`, as the first-level script writes them. */
  function CallFor(a: Args, p: (int, string, string), asWritten: bool): Call
  {
    var perm := PermString(a, p);
    Call(if asWritten then Stage2AsWritten else Stage2, a.subj, a.ses, a.task, Contrasts, a.inp, a.out, perm, perm,
         DriverFlags)
  }

  /** Permutations k..; after one that completes the output directory exists. */
  function PermsFrom(disk: Disk, a: Args, perms: seq<(int, string, string)>, asWritten: bool, k: nat, made: bool)
    : Outcome
    decreases |perms| - k
  {
    if k >= |perms| then Done([])
    else
      var call := CallFor(a, perms[k], asWritten);
      Then(FixedEffectFrom(call, AllLists(disk, call), 0, made), PermsFrom(disk, a, perms, asWritten, k + 1, true))
  }

  /** Everything the script does. */
  function WithinSessionScript(disk: Disk, a: Args, asWritten: bool): Outcome
  {
    PermsFrom(disk, a, Perms, asWritten, 0, a.out in disk.dirs)
  }

  // ------------------------------------------------------------ the script

  method RunPerms(disk: Disk, a: Args, perms: seq<(int, string, string)>, asWritten: bool, made0: bool)
    returns (out: Outcome)
    ensures out == PermsFrom(disk, a, perms, asWritten, 0, made0)
  {
    out := Done([]);
    ThenDone(PermsFrom(disk, a, perms, asWritten, 0, made0));
    var made := made0;
    var k := 0;
    while k < |perms|
      invariant k <= |perms| && out.failure.None? && made == (made0 || k > 0)
      invariant Then(out, PermsFrom(disk, a, perms, asWritten, k, made)) == PermsFrom(disk, a, perms, asWritten, 0, made0)
    {
      var (fwhm, motion, model) := perms[k];
      var perm := Join(PermFields(a.maskLabel, IntToString(fwhm), motion, model), '_');
      var layout := if asWritten then Stage2AsWritten else Stage2;
      var call := Call(layout, a.subj, a.ses, a.task, Contrasts, a.inp, a.out, perm, perm, DriverFlags);
      assert call == CallFor(a, perms[k], asWritten);
      var step := RunFixedEffect(disk, call, made);
      ThenAssoc(out, step, PermsFrom(disk, a, perms, asWritten, k + 1, true));
      out := Then(out, step);
      if step.failure.Some? {
        return;
      }
      made := true;
      k := k + 1;
    }
    ThenDone(out);
  }

  method RunScript(disk: Disk, a: Args, asWritten: bool) returns (out: Outcome)
    ensures out == WithinSessionScript(disk, a, asWritten)
  {
    out := RunPerms(disk, a, Perms, asWritten, a.out in disk.dirs);
  }

  // ------------------------------------------------------------ properties

  /** Every permutation from k on has listings `compute_fixed_effects` accepts. */
  predicate PermsCombinable(disk: Disk, a: Args, perms: seq<(int, string, string)>, asWritten: bool, k: nat)
  {
    forall m :: k <= m < |perms| ==> AllCombinable(AllLists(disk, CallFor(a, perms[m], asWritten)), 0)
  }

  /** The loop runs to the end iff every permutation's listings are accepted;
      otherwise it stops where `compute_fixed_effects` raised. */
  lemma {:induction false} PermsSucceed(disk: Disk, a: Args, perms: seq<(int, string, string)>, asWritten: bool,
                                        k: nat, made: bool)
    requires k <= |perms|
    ensures var r := PermsFrom(disk, a, perms, asWritten, k, made);
            (r.failure.None? <==> PermsCombinable(disk, a, perms, asWritten, k)) &&
            (r.failure.Some? ==> r.failure == Some(FixedError))
    decreases |perms| - k
  {
    if k < |perms| {
      FixedEffectSucceeds(CallFor(a, perms[k], asWritten), AllLists(disk, CallFor(a, perms[k], asWritten)), 0, made);
      PermsSucceed(disk, a, perms, asWritten, k + 1, true);
      if AllCombinable(AllLists(disk, CallFor(a, perms[k], asWritten)), 0) &&
         PermsCombinable(disk, a, perms, asWritten, k + 1) {
        assert PermsCombinable(disk, a, perms, asWritten, k);
      }
    }
  }

  /** One permutation whose listings are accepted writes eight maps, after the
      directory (and only it) when it is missing. */
  lemma PermLength(disk: Disk, a: Args, p: (int, string, string), asWritten: bool, made: bool)
    requires AllCombinable(AllLists(disk, CallFor(a, p, asWritten)), 0)
    ensures var r := FixedEffectFrom(CallFor(a, p, asWritten), AllLists(disk, CallFor(a, p, asWritten)), 0, made);
            r.failure.None? && |r.effects| == 8 + (if made then 0 else 1) && DirFirst(r.effects, !made, a.out)
  {
    var call := CallFor(a, p, asWritten);
    DriverCount(call, AllLists(disk, call), made);
    DirectoryOnce(call, AllLists(disk, call), 0, made);
  }

  /** With every listing accepted: two maps per contrast and permutation, and
      the output directory once, first, when it is missing. */
  lemma {:induction false} PermsShape(disk: Disk, a: Args, perms: seq<(int, string, string)>, asWritten: bool,
                                      k: nat, made: bool)
    requires k <= |perms| && PermsCombinable(disk, a, perms, asWritten, k)
    ensures var r := PermsFrom(disk, a, perms, asWritten, k, made);
            r.failure.None? && |r.effects| == 8 * (|perms| - k) + (if !made && k < |perms| then 1 else 0) &&
            DirFirst(r.effects, !made && k < |perms|, a.out)
    decreases |perms| - k
  {
    if k < |perms| {
      var call := CallFor(a, perms[k], asWritten);
      assert AllCombinable(AllLists(disk, call), 0);
      assert PermsCombinable(disk, a, perms, asWritten, k + 1);
      PermsShape(disk, a, perms, asWritten, k + 1, true);
      PermLength(disk, a, perms[k], asWritten, made);
      var s := FixedEffectFrom(call, AllLists(disk, call), 0, made);
      var rest := PermsFrom(disk, a, perms, asWritten, k + 1, true);
      assert PermsFrom(disk, a, perms, asWritten, k, made) == Then(s, rest);
      DirFirstAppend(s.effects, rest.effects, !made, a.out);
    }
  }

  /** With every listing accepted, the script writes 64 maps, after creating
      the output directory when it is missing. */
  lemma ScriptShape(disk: Disk, a: Args, asWritten: bool)
    requires PermsCombinable(disk, a, Perms, asWritten, 0)
    ensures var r := WithinSessionScript(disk, a, asWritten);
            r.failure.None? && |r.effects| == 64 + (if a.out in disk.dirs then 0 else 1) &&
            DirFirst(r.effects, a.out !in disk.dirs, a.out)
  {
    var n := |Perms|;
    assert n == 8 by {
      ProductLength(Fwhms, Motions, Models);
    }
    PermsShape(disk, a, Perms, asWritten, 0, a.out in disk.dirs);
    var r := PermsFrom(disk, a, Perms, asWritten, 0, a.out in disk.dirs);
    assert |r.effects| == 8 * n + (if a.out in disk.dirs then 0 else 1);
  }

  // ------------------------------------------------------------ the session label

  /** The first-level file of run `run`, contrast `con`, permutation `p`. */
  function RunFile(w: Stage2WithinRun.Args, run: string, con: string, p: (int, string, string), kind: string): string
  {
    Stage2WithinRun.StatPath(w, run, con, p, kind)
  }

  /** No field of the names holds a '/'. */
  predicate Plain(s: string) { '/' !in s }

  /** One run-level map of the within-run script: run, contrast, permutation
      and statistic. */
  datatype RunMap = RunMap(run: string, con: string, p: (int, string, string), stat: string)

  predicate PlainMap(m: RunMap)
  {
    Plain(m.run) && Plain(m.con) && Plain(m.p.1) && Plain(m.p.2) && Plain(m.stat)
  }

  /** The paths of the given run-level maps of one within-run call. */
  function RunFiles(w: Stage2WithinRun.Args, maps: seq<RunMap>): seq<string>
  {
    seq(|maps|, i requires 0 <= i < |maps| => RunFile(w, maps[i].run, maps[i].con, maps[i].p, maps[i].stat))
  }

  /** As written, with a session label free of '_' and only run-level maps of
      the same subject and session on disk, the first contrast of the first
      permutation lists no beta map, so `compute_fixed_effects` raises before
      any directory or map is written. */
  lemma AsWrittenWritesNothing(disk: Disk, a: Args, w: Stage2WithinRun.Args, maps: seq<RunMap>)
    requires w.subj == a.subj && w.ses == a.ses && '_' !in a.ses && '*' !in a.subj && '*' !in a.ses
    requires Plain(a.subj) && Plain(a.ses) && Plain(a.task) && Plain(a.maskLabel)
    requires Plain(w.task) && Plain(Shown(w.maskLabel))
    requires forall i :: 0 <= i < |maps| ==> PlainMap(maps[i])
    requires disk.files == RunFiles(w, maps)
    ensures WithinSessionScript(disk, a, true) == Fail(FixedError)
  {
    ProductLength(Fwhms, Motions, Models);
    var q := Perms[0];
    ProductMembers(Fwhms, Motions, Models, q);
    var call := CallFor(a, q, true);
    AsWrittenListsNothing(disk, a, w, maps, q, Contrasts[0], "beta");
    var first := FixedEffectFrom(call, AllLists(disk, call), 0, a.out in disk.dirs);
    assert AllLists(disk, call)[0].betas == [];
    assert first == Fail(FixedError);
    assert WithinSessionScript(disk, a, true) == Then(first, PermsFrom(disk, a, Perms, true, 1, true));
  }

  /** On such a disk an as-written input pattern lists nothing. */
  lemma AsWrittenListsNothing(disk: Disk, a: Args, w: Stage2WithinRun.Args, maps: seq<RunMap>,
                              q: (int, string, string), c: string, kind: string)
    requires w.subj == a.subj && w.ses == a.ses && '_' !in a.ses && '*' !in a.subj && '*' !in a.ses
    requires Plain(a.subj) && Plain(a.ses) && Plain(a.task) && Plain(a.maskLabel)
    requires Plain(w.task) && Plain(Shown(w.maskLabel))
    requires Plain(q.1) && Plain(q.2) && Plain(c) && Plain(kind)
    requires forall i :: 0 <= i < |maps| ==> PlainMap(maps[i])
    requires disk.files == RunFiles(w, maps)
    ensures Listing(disk, CallFor(a, q, true), c, kind) == []
  {
    var pattern := InputPattern(CallFor(a, q, true), c, kind);
    forall f | f in disk.files
      ensures !GlobMatch(pattern, f)
    {
      var i :| 0 <= i < |maps| && disk.files[i] == f;
      var m := maps[i];
      AsWrittenMissesRuns(a, w, m.run, m.con, m.p, q, kind, c, m.stat);
    }
    SortedGlobNone(pattern, disk.files);
  }

  /** As written, the input patterns put the bare session where the run-level
      names have `ses-{session}`, so with a session label free of '_' (such as
      '1' or 'baselinearm1') no run-level map of the subject and session is
      ever listed. */
  lemma AsWrittenMissesRuns(a: Args, w: Stage2WithinRun.Args, run: string, con: string, p: (int, string, string),
                            q: (int, string, string), kind: string, c: string, stat: string)
    requires w.subj == a.subj && w.ses == a.ses && '_' !in a.ses && '*' !in a.subj && '*' !in a.ses
    requires Plain(a.subj) && Plain(a.ses) && Plain(a.task) && Plain(a.maskLabel) && Plain(c) && Plain(kind)
    requires Plain(q.1) && Plain(q.2)
    requires Plain(w.task) && Plain(run) && Plain(con) && Plain(Shown(w.maskLabel)) && Plain(p.1) && Plain(p.2)
    requires Plain(stat)
    ensures !GlobMatch(InputPattern(CallFor(a, q, true), c, kind), RunFile(w, run, con, p, stat))
  {
    var call := CallFor(a, q, true);
    var name := Join(Stage2WithinRun.StatFields(w, run, con, p, stat), '_');
    PatternPlain(a, q, c, kind);
    NamePlain(w, run, con, p, stat);
    if GlobMatch(InputPattern(call, c, kind), RunFile(w, run, con, p, stat)) {
      GlobMatchLast(PatternHead(InputDir(call)), InputName(call, c, kind), RunFile(w, run, con, p, stat));
      BasenameAfterSlash(w.out, name);
      AsWrittenNameMisses(a, w, run, con, p, q, kind, c, stat);
      assert false;
    }
  }

  /** The as-written name pattern holds no '/'. */
  lemma PatternPlain(a: Args, q: (int, string, string), c: string, kind: string)
    requires Plain(a.subj) && Plain(a.ses) && Plain(a.task) && Plain(a.maskLabel) && Plain(c) && Plain(kind)
    requires Plain(q.1) && Plain(q.2)
    ensures Plain(InputName(CallFor(a, q, true), c, kind))
  {
    IntToStringChars(q.0);
    JoinNoSep(PermFields(a.maskLabel, IntToString(q.0), q.1, q.2), '_', '/');
    JoinNoSep(InputFields(CallFor(a, q, true), c, kind), '_', '/');
  }

  /** A run-level name holds no '/'. */
  lemma NamePlain(w: Stage2WithinRun.Args, run: string, con: string, p: (int, string, string), stat: string)
    requires Plain(w.subj) && Plain(w.ses) && Plain(w.task) && Plain(run) && Plain(con) && Plain(Shown(w.maskLabel))
    requires Plain(p.1) && Plain(p.2) && Plain(stat)
    ensures Plain(Join(Stage2WithinRun.StatFields(w, run, con, p, stat), '_'))
  {
    IntToStringChars(p.0);
    JoinNoSep(Stage2WithinRun.StatFields(w, run, con, p, stat), '_', '/');
  }

  /** The as-written name pattern does not match a run-level name of the same
      subject and session. */
  lemma AsWrittenNameMisses(a: Args, w: Stage2WithinRun.Args, run: string, con: string, p: (int, string, string),
                            q: (int, string, string), kind: string, c: string, stat: string)
    requires w.subj == a.subj && w.ses == a.ses && '_' !in a.ses && '*' !in a.subj && '*' !in a.ses
    ensures !FnMatch(InputName(CallFor(a, q, true), c, kind), Join(Stage2WithinRun.StatFields(w, run, con, p, stat), '_'))
  {
    var pf := InputFields(CallFor(a, q, true), c, kind);
    var nf := Stage2WithinRun.StatFields(w, run, con, p, stat);
    JoinHead2(pf);
    JoinHead2(nf);
    var l := a.subj + "_" + a.ses + "_";
    assert Join(pf, '_') == l + Join(pf[2..], '_');
    FnMatchLiteralHead(l, Join(pf[2..], '_'), Join(nf, '_'));
    SessionPrefixDiffers(a.subj, a.ses, Join(nf[2..], '_'));
  }

  /** A join of at least three fields starts with the first two and their separators. */
  lemma JoinHead2(fs: seq<string>)
    requires |fs| >= 3
    ensures Join(fs, '_') == fs[0] + "_" + fs[1] + "_" + Join(fs[2..], '_')
  {
    JoinAt(fs, '_', 2);
    assert Join(fs[..2], '_') == fs[0] + "_" + fs[1] by { assert fs[..2][1..] == [fs[1]]; }
  }

  /** `{subj}_{ses}_` is never a prefix of `{subj}_ses-{ses}_...` when the
      session holds no '_': where the first has its second '_', the second has
      a letter of `ses-` or of the session. */
  lemma SessionPrefixDiffers(subj: string, ses: string, rest: string)
    requires '_' !in ses
    ensures !StartsWith(subj + "_" + ("ses-" + ses) + "_" + rest, subj + "_" + ses + "_")
  {
    var l := subj + "_" + ses + "_";
    var s := subj + "_" + ("ses-" + ses) + "_" + rest;
    var i := |subj| + 1 + |ses|;
    assert l[i] == '_';
    if |ses| < 4 {
      assert s[i] == "ses-"[|ses|];
    } else {
      assert s[i] == ses[|ses| - 4];
    }
  }

  /** With `ses-` added to the input names, the pattern of a permutation lists
      the run-level maps of that permutation, subject, session, task and
      contrast, from any directory one level below the first-level directory. */
  lemma CorrectedListsRuns(a: Args, w: Stage2WithinRun.Args, run: string, p: (int, string, string), kind: string,
                           c: string)
    requires w.subj == a.subj && w.ses == a.ses && w.task == a.task && Shown(w.maskLabel) == a.maskLabel
    requires |a.inp| > 0 && GlobMatch(a.inp + "/**", w.out)
    requires '*' !in a.subj && '*' !in a.ses && '*' !in a.task && '*' !in a.maskLabel && '*' !in c
    requires '*' !in p.1 && '*' !in p.2 && '*' !in kind
    requires Plain(a.subj) && Plain(a.ses) && Plain(a.task) && Plain(a.maskLabel) && Plain(c) && Plain(kind)
    requires Plain(run) && Plain(p.1) && Plain(p.2)
    ensures GlobMatch(InputPattern(CallFor(a, p, false), c, kind), RunFile(w, run, c, p, kind))
  {
    var call := CallFor(a, p, false);
    var name := Join(Stage2WithinRun.StatFields(w, run, c, p, kind), '_');
    InputNameFlat(call, c, kind, a.maskLabel, IntToString(p.0), p.1, p.2);
    CorrectedMatch(a, w, run, p, kind, c);
    CorrectedPlain(a, p, kind, c);
    NamePlain(w, run, c, p, kind);
    PatternHeadOf(a.inp + "/**", 0);
    assert a.inp + "/**" + seq(0, i => '/') == a.inp + "/**";
    GlobMatchJoin(a.inp + "/**", InputName(call, c, kind), w.out, name);
  }

  /** The corrected driver's flattened pattern fields. */
  function FlatFields(a: Args, p: (int, string, string), c: string, kind: string): seq<string>
  {
    FlatInputFields(CallFor(a, p, false), c, kind, a.maskLabel, IntToString(p.0), p.1, p.2)
  }

  lemma CorrectedMatch(a: Args, w: Stage2WithinRun.Args, run: string, p: (int, string, string), kind: string,
                       c: string)
    requires w.subj == a.subj && w.ses == a.ses && w.task == a.task && Shown(w.maskLabel) == a.maskLabel
    requires '*' !in a.subj && '*' !in a.ses && '*' !in a.task && '*' !in a.maskLabel && '*' !in c
    requires '*' !in p.1 && '*' !in p.2 && '*' !in kind
    ensures FnMatch(Join(FlatFields(a, p, c, kind), '_'), Join(Stage2WithinRun.StatFields(w, run, c, p, kind), '_'))
  {
    IntToStringChars(p.0);
    RunFieldsMatch(FlatFields(a, p, c, kind), Stage2WithinRun.StatFields(w, run, c, p, kind), run);
  }

  lemma CorrectedPlain(a: Args, p: (int, string, string), kind: string, c: string)
    requires Plain(a.subj) && Plain(a.ses) && Plain(a.task) && Plain(a.maskLabel) && Plain(c) && Plain(kind)
    requires Plain(p.1) && Plain(p.2)
    ensures Plain(Join(FlatFields(a, p, c, kind), '_'))
  {
    IntToStringChars(p.0);
    JoinNoSep(FlatFields(a, p, c, kind), '_', '/');
  }
}
