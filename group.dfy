/** Stage2_Code/group_withinsession_permutations.py: for every contrast and
    permutation, the subjects' fixed-effects maps are listed and an
    intercept-only group model is fitted; its z map is written under a name
    that records how many maps went in. */
module Group {
  import opened Text
  import opened Errors
  import opened Glob
  import opened Effects
  import opened Permutations
  import Fixed
  import Stage1Fixed

  /** The hard-coded fixed-effects and group directories, both spelled with
      a trailing '/'. */
  datatype Places = Places(fixDir: string, outDir: string)

  const Session: string := "ses-01"
  const Task: string := "mid"
  const Contrasts: seq<string> := ["Lgain-Neut", "Sgain-Neut", "Lgain-Base", "Sgain-Base"]

  /** `DataFrame([1] * N, columns=['Intercept'])`: one row of 1 per map. */
  function Intercept(n: nat): (r: seq<real>)
    ensures |r| == n && forall i :: 0 <= i < |r| ==> r[i] == 1.0
  {
    seq(n, i => 1.0)
  }

  /** `subs-{N}_{session}_task-{task}_contrast-{c}_{perm}_stat-zstat.nii.gz`. */
  function OutFields(n: nat, session: string, task: string, contrast: string, perm: string): seq<string>
  {
    ["subs-" + NatToString(n), session, "task-" + task, "contrast-" + contrast, perm, "stat-zstat.nii.gz"]
  }

  function OutPath(outDir: string, n: nat, session: string, task: string, contrast: string, perm: string): string
  {
    outDir + "/" + Join(OutFields(n, session, task, contrast, perm), '_')
  }

  /** What `SecondLevelModel.fit` raises on a list of fewer than two maps. */
  const FitError: Error := LibraryError("SecondLevelModel.fit")

  /** `group_onesample`: the directory if it is missing, then the z map of the
      intercept fitted on the maps. The model is fitted on exactly the given
      maps with one design row of 1 for each, and the `subs-` field of the
      name is the number of design rows; with fewer than two maps the fit
      raises, after the directory was made. */
  function OneSample(paths: seq<string>, session: string, task: string, contrast: string, outDir: string,
                     perm: string, made: bool): (r: Outcome)
    ensures r.failure.Some? <==> |paths| < 2
    ensures r.failure.Some? ==> r.failure == Some(FitError)
    ensures |r.effects| == (if made then 0 else 1) + (if |paths| < 2 then 0 else 1)
    ensures Fixed.DirFirst(r.effects, !made, outDir)
    ensures r.failure.None? ==>
            var z := r.effects[|r.effects| - 1];
            z.Save? && z.content.Image? && z.content.img.GroupZ? && z.content.img.maps == paths &&
            |z.content.img.intercept| == |paths| &&
            (forall i :: 0 <= i < |paths| ==> z.content.img.intercept[i] == 1.0) &&
            z.path == OutPath(outDir, |z.content.img.intercept|, session, task, contrast, perm)
  {
    var n := |paths|;
    var dir := if made then [] else [MakeDirs(outDir)];
    if n < 2 then Outcome(dir, Some(FitError))
    else Done(dir + [Save(OutPath(outDir, n, session, task, contrast, perm), Image(GroupZ(paths, Intercept(n))))])
  }

  /** `'mask-brain_mot-{}_mod-{}_fwhm-{}'.format(motion, model, fwhm)`. */
  function PermString(fwhm: string, motion: string, model: string): string
  {
    Join(Fixed.PermFields("brain", fwhm, motion, model), '_')
  }

  /** `*_{sess}_task-{task}_effect-fixed_contrast-{c}_{perm}_stat-effect.nii.gz`,
      with `subj` in place of the leading `*`. */
  function MapsFields(subj: string, c: string, perm: string): seq<string>
  {
    [subj, Session, "task-" + Task, "effect-fixed", "contrast-" + c, perm, "stat-effect.nii.gz"]
  }

  /** The maps pattern as `glob` lists it, in the directory `os.path.split` leaves. */
  function MapsPattern(pl: Places, c: string, perm: string): string
  {
    PatternHead(pl.fixDir) + "/" + Join(MapsFields("*", c, perm), '_')
  }

  /** `for fwhm, motion, model, mask_type in permutation_list` as written
      (four names), or with the three names the rows hold. */
  function Unpacked(row: seq<string>, asWritten: bool): (r: Result<(string, string, string)>)
    ensures r.Ok? <==> |row| == (if asWritten then 4 else 3)
    ensures r.Ok? ==> [r.value.0, r.value.1, r.value.2] == row[..3]
    ensures r.Err? ==> r.error == UnpackMismatch(if asWritten then 4 else 3, |row|)
  {
    if asWritten then
      var u := Unpack4(row);
      if u.Err? then Err(u.error) else Ok((u.value.0, u.value.1, u.value.2))
    else Unpack3(row)
  }

  /** `sorted(glob(...))` of the maps of contrast `c` and permutation `perm`. */
  function Maps(disk: Disk, pl: Places, c: string, perm: string): seq<string>
  {
    SortedGlob(MapsPattern(pl, c, perm), disk.files)
  }

  /** One row for one contrast: unpack, list the sorted maps, fit. */
  function PermStep(disk: Disk, pl: Places, c: string, row: seq<string>, asWritten: bool, made: bool): Outcome
  {
    var u := Unpacked(row, asWritten);
    if u.Err? then Fail(u.error)
    else
      var perm := PermString(u.value.0, u.value.1, u.value.2);
      OneSample(Maps(disk, pl, c, perm), Session, Task, c, pl.outDir, perm, made)
  }

  /** Rows k.. for one contrast; after a completed row the directory exists. */
  function PermsFrom(disk: Disk, pl: Places, c: string, rows: seq<seq<string>>, asWritten: bool, k: nat, made: bool)
    : Outcome
    decreases |rows| - k
  {
    if k >= |rows| then Done([])
    else Then(PermStep(disk, pl, c, rows[k], asWritten, made), PermsFrom(disk, pl, c, rows, asWritten, k + 1, true))
  }

  /** Contrasts i.. (the outer loop). */
  function ContrastsFrom(disk: Disk, pl: Places, contrasts: seq<string>, rows: seq<seq<string>>, asWritten: bool,
                         i: nat, made: bool): Outcome
    decreases |contrasts| - i
  {
    if i >= |contrasts| then Done([])
    else Then(PermsFrom(disk, pl, contrasts[i], rows, asWritten, 0, made),
              ContrastsFrom(disk, pl, contrasts, rows, asWritten, i + 1, made || |rows| > 0))
  }

  /** The script, given the text of `model_permutations.csv`. */
  function GroupScript(disk: Disk, pl: Places, csv: string, asWritten: bool): Outcome
  {
    ContrastsFrom(disk, pl, Contrasts, ReadPermutations(csv), asWritten, 0, pl.outDir in disk.dirs)
  }

  // ------------------------------------------------------------ the script

  /** `group_onesample`. */
  method GroupOneSample(paths: seq<string>, session: string, task: string, contrast: string, outDir: string,
                        perm: string, made: bool) returns (out: Outcome)
    ensures out == OneSample(paths, session, task, contrast, outDir, perm, made)
  {
    var effects := [];
    if !made {
      effects := [MakeDirs(outDir)];
    }
    var n := |paths|;
    var design := Intercept(n);
    if n < 2 {
      return Outcome(effects, Some(FitError));
    }
    var zstatOut := outDir + "/" + Join(OutFields(n, session, task, contrast, perm), '_');
    out := Done(effects + [Save(zstatOut, Image(GroupZ(paths, design)))]);
  }

  method Permutation(disk: Disk, pl: Places, c: string, row: seq<string>, asWritten: bool, made: bool)
    returns (out: Outcome)
    ensures out == PermStep(disk, pl, c, row, asWritten, made)
  {
    var u := Unpacked(row, asWritten);
    if u.Err? {
      return Fail(u.error);
    }
    var (fwhm, motion, model) := u.value;
    var perm := PermString(fwhm, motion, model);
    var fixMaps := SortedGlob(MapsPattern(pl, c, perm), disk.files);
    out := GroupOneSample(fixMaps, Session, Task, c, pl.outDir, perm, made);
  }

  method RunPerms(disk: Disk, pl: Places, c: string, rows: seq<seq<string>>, asWritten: bool, made0: bool)
    returns (out: Outcome)
    ensures out == PermsFrom(disk, pl, c, rows, asWritten, 0, made0)
  {
    out := Done([]);
    ThenDone(PermsFrom(disk, pl, c, rows, asWritten, 0, made0));
    var made := made0;
    var k := 0;
    while k < |rows|
      invariant k <= |rows| && out.failure.None? && made == (made0 || k > 0)
      invariant Then(out, PermsFrom(disk, pl, c, rows, asWritten, k, made)) == PermsFrom(disk, pl, c, rows, asWritten, 0, made0)
    {
      var step := Permutation(disk, pl, c, rows[k], asWritten, made);
      ThenAssoc(out, step, PermsFrom(disk, pl, c, rows, asWritten, k + 1, true));
      out := Then(out, step);
      if step.failure.Some? {
        return;
      }
      made := true;
      k := k + 1;
    }
    ThenDone(out);
  }

  method RunContrasts(disk: Disk, pl: Places, contrasts: seq<string>, rows: seq<seq<string>>, asWritten: bool,
                      made0: bool) returns (out: Outcome)
    ensures out == ContrastsFrom(disk, pl, contrasts, rows, asWritten, 0, made0)
  {
    out := Done([]);
    ThenDone(ContrastsFrom(disk, pl, contrasts, rows, asWritten, 0, made0));
    var made := made0;
    var i := 0;
    while i < |contrasts|
      invariant i <= |contrasts| && out.failure.None? && made == (made0 || (i > 0 && |rows| > 0))
      invariant Then(out, ContrastsFrom(disk, pl, contrasts, rows, asWritten, i, made)) ==
                ContrastsFrom(disk, pl, contrasts, rows, asWritten, 0, made0)
    {
      var step := RunPerms(disk, pl, contrasts[i], rows, asWritten, made);
      ThenAssoc(out, step, ContrastsFrom(disk, pl, contrasts, rows, asWritten, i + 1, made || |rows| > 0));
      out := Then(out, step);
      if step.failure.Some? {
        return;
      }
      made := made || |rows| > 0;
      i := i + 1;
    }
    ThenDone(out);
  }

  method RunScript(disk: Disk, pl: Places, csv: string, asWritten: bool) returns (out: Outcome)
    ensures out == GroupScript(disk, pl, csv, asWritten)
  {
    var permutationList := ReadPermutations(csv);
    out := RunContrasts(disk, pl, Contrasts, permutationList, asWritten, pl.outDir in disk.dirs);
  }

  // ------------------------------------------------------------ properties

  /** A row the corrected script fits: three fields, and at least two maps
      listed for it and contrast `c`. */
  predicate RowFits(disk: Disk, pl: Places, c: string, row: seq<string>)
  {
    |row| == 3 && |Maps(disk, pl, c, PermString(row[0], row[1], row[2]))| >= 2
  }

  /** The maps of one fit are exactly the existing files the pattern of its
      contrast and permutation lists, in sorted order; the fit completes iff
      there are at least two of them. */
  lemma MapsSorted(disk: Disk, pl: Places, c: string, row: seq<string>, made: bool)
    requires |row| == 3
    ensures var r := PermStep(disk, pl, c, row, false, made);
            var pattern := MapsPattern(pl, c, PermString(row[0], row[1], row[2]));
            (r.failure.None? <==> RowFits(disk, pl, c, row)) &&
            (r.failure.Some? ==> r.failure == Some(FitError)) &&
            (r.failure.None? ==>
               var maps := r.effects[|r.effects| - 1].content.img.maps;
               Sorted(maps) && forall x :: x in maps <==> x in disk.files && GlobMatch(pattern, x))
  {
    SortedGlobSpec(MapsPattern(pl, c, PermString(row[0], row[1], row[2])), disk.files);
  }

  /** With every row of three fields and enough maps, every row completes and
      writes one z map, plus the directory before the first. */
  lemma {:induction false} PermsShape(disk: Disk, pl: Places, c: string, rows: seq<seq<string>>, k: nat, made: bool)
    requires k <= |rows| && forall m :: k <= m < |rows| ==> RowFits(disk, pl, c, rows[m])
    ensures var r := PermsFrom(disk, pl, c, rows, false, k, made);
            r.failure.None? && |r.effects| == |rows| - k + (if !made && k < |rows| then 1 else 0) &&
            Fixed.DirFirst(r.effects, !made && k < |rows|, pl.outDir)
    decreases |rows| - k
  {
    if k < |rows| {
      PermsShape(disk, pl, c, rows, k + 1, true);
      var s := PermStep(disk, pl, c, rows[k], false, made).effects;
      var rest := PermsFrom(disk, pl, c, rows, false, k + 1, true).effects;
      assert RowFits(disk, pl, c, rows[k]);
      Fixed.DirFirstAppend(s, rest, !made, pl.outDir);
    }
  }

  /** The loop over the rows of one contrast runs to the end iff every row
      fits; when it stops, a row had the wrong number of fields or the fit
      raised. */
  lemma {:induction false} PermsSucceed(disk: Disk, pl: Places, c: string, rows: seq<seq<string>>, k: nat, made: bool)
    requires k <= |rows|
    ensures var r := PermsFrom(disk, pl, c, rows, false, k, made);
            (r.failure.None? <==> forall m :: k <= m < |rows| ==> RowFits(disk, pl, c, rows[m])) &&
            (r.failure.Some? ==> r.failure == Some(FitError) || r.failure.value.UnpackMismatch?)
    decreases |rows| - k
  {
    if k < |rows| {
      var step := PermStep(disk, pl, c, rows[k], false, made);
      var rest := PermsFrom(disk, pl, c, rows, false, k + 1, true);
      assert PermsFrom(disk, pl, c, rows, false, k, made) == Then(step, rest);
      PermsSucceed(disk, pl, c, rows, k + 1, true);
      RowStep(disk, pl, c, rows[k], made);
      assert (forall m :: k <= m < |rows| ==> RowFits(disk, pl, c, rows[m])) <==>
             RowFits(disk, pl, c, rows[k]) && forall m :: k + 1 <= m < |rows| ==> RowFits(disk, pl, c, rows[m]);
    }
  }

  /** One row completes iff it fits; otherwise it stops the fit or the unpacking. */
  lemma RowStep(disk: Disk, pl: Places, c: string, row: seq<string>, made: bool)
    ensures var r := PermStep(disk, pl, c, row, false, made);
            (r.failure.None? <==> RowFits(disk, pl, c, row)) &&
            (r.failure.Some? ==> r.failure == Some(FitError) || r.failure.value.UnpackMismatch?)
  {
    if |row| == 3 {
      MapsSorted(disk, pl, c, row, made);
    }
  }

  /** Every row fits for every contrast from i on. */
  predicate AllFit(disk: Disk, pl: Places, contrasts: seq<string>, rows: seq<seq<string>>, i: nat)
  {
    forall j, m :: i <= j < |contrasts| && 0 <= m < |rows| ==> RowFits(disk, pl, contrasts[j], rows[m])
  }

  /** Every contrast writes one z map per row; the directory is created once,
      first, when it was missing. */
  lemma {:induction false} ContrastsShape(disk: Disk, pl: Places, contrasts: seq<string>, rows: seq<seq<string>>,
                                          i: nat, made: bool)
    requires i <= |contrasts| && |rows| > 0 && AllFit(disk, pl, contrasts, rows, i)
    ensures var r := ContrastsFrom(disk, pl, contrasts, rows, false, i, made);
            r.failure.None? && |r.effects| == |rows| * (|contrasts| - i) + (if !made && i < |contrasts| then 1 else 0) &&
            Fixed.DirFirst(r.effects, !made && i < |contrasts|, pl.outDir)
    decreases |contrasts| - i
  {
    if i < |contrasts| {
      var a := PermsFrom(disk, pl, contrasts[i], rows, false, 0, made);
      var b := ContrastsFrom(disk, pl, contrasts, rows, false, i + 1, true);
      assert ContrastsFrom(disk, pl, contrasts, rows, false, i, made) == Then(a, b);
      assert forall m :: 0 <= m < |rows| ==> RowFits(disk, pl, contrasts[i], rows[m]);
      PermsShape(disk, pl, contrasts[i], rows, 0, made);
      assert AllFit(disk, pl, contrasts, rows, i + 1);
      ContrastsShape(disk, pl, contrasts, rows, i + 1, true);
      ThenShape(a, b, |rows|, |contrasts| - i, !made, pl.outDir);
    }
  }

  /** A completed block of n maps (after the directory when `first`) followed by
      m - 1 more such blocks without a directory completes with n·m maps. */
  lemma ThenShape(a: Outcome, b: Outcome, n: nat, m: nat, first: bool, dir: string)
    requires n > 0 && m > 0
    requires a.failure.None? && |a.effects| == n + (if first then 1 else 0) && Fixed.DirFirst(a.effects, first, dir)
    requires b.failure.None? && |b.effects| == n * (m - 1) && Fixed.DirFirst(b.effects, false, dir)
    ensures Then(a, b).failure.None? && |Then(a, b).effects| == n * m + (if first then 1 else 0)
    ensures Fixed.DirFirst(Then(a, b).effects, first, dir)
  {
    Fixed.DirFirstAppend(a.effects, b.effects, first, dir);
    Fixed.MulStep(n, m);
  }

  /** As written, the script stops with a `ValueError` at the first row of the
      three-column permutation file Stage 1 writes, before any output. */
  lemma AsWrittenStops(disk: Disk, pl: Places)
    ensures GroupScript(disk, pl, WriteCsv(Stage1Fixed.Perms), true) == Fail(UnpackMismatch(4, 3))
  {
    Stage1Fixed.RowsArePermutations(0);
    Stage1Fixed.RowsUnpack();
    var rows := Stage1Fixed.Rows();
    assert PermStep(disk, pl, Contrasts[0], rows[0], true, pl.outDir in disk.dirs) == Fail(UnpackMismatch(4, 3));
  }

  /** Every contrast and Stage 1 permutation lists at least two maps. */
  predicate EnoughMaps(disk: Disk, pl: Places)
  {
    forall c, p :: c in Contrasts && p in Stage1Fixed.Perms ==>
      |Maps(disk, pl, c, PermString(IntToString(p.0), p.1, p.2))| >= 2
  }

  /** Unpacking the three fields the rows hold, and with at least two maps
      for every contrast and permutation, the script fits all 4 x 8 contrast
      and permutation pairs, creating the directory once, first, when it is
      missing. */
  lemma CorrectedCompletes(disk: Disk, pl: Places)
    requires EnoughMaps(disk, pl)
    ensures var r := GroupScript(disk, pl, WriteCsv(Stage1Fixed.Perms), false);
            r.failure.None? && |r.effects| == 32 + (if pl.outDir in disk.dirs then 0 else 1) &&
            Fixed.DirFirst(r.effects, pl.outDir !in disk.dirs, pl.outDir)
  {
    var rows := Stage1Fixed.Rows();
    Stage1Fixed.RowsUnpack();
    forall j, m | 0 <= j < |Contrasts| && 0 <= m < |rows|
      ensures RowFits(disk, pl, Contrasts[j], rows[m])
    {
      Stage1Fixed.RowsArePermutations(m);
      var p := Stage1Fixed.Perms[m];
      assert rows[m] == [IntToString(p.0), p.1, p.2];
      assert Contrasts[j] in Contrasts && p in Stage1Fixed.Perms;
    }
    EightRowsComplete(disk, pl, rows, pl.outDir in disk.dirs);
  }

  /** Eight rows that fit complete for all four contrasts. */
  lemma EightRowsComplete(disk: Disk, pl: Places, rows: seq<seq<string>>, made: bool)
    requires |rows| == 8 && AllFit(disk, pl, Contrasts, rows, 0)
    ensures var r := ContrastsFrom(disk, pl, Contrasts, rows, false, 0, made);
            r.failure.None? && |r.effects| == 32 + (if made then 0 else 1) && Fixed.DirFirst(r.effects, !made, pl.outDir)
  {
    ContrastsShape(disk, pl, Contrasts, rows, 0, made);
    assert |Contrasts| == 4;
  }

  /** A single subject's maps are too few: with at most one map listed for the
      first contrast and permutation, the corrected script stops at its first
      fit, having written at most the directory. */
  lemma OneSubjectStops(disk: Disk, pl: Places)
    requires |Maps(disk, pl, Contrasts[0], PermString("4", "opt1", "AntMod"))| < 2
    ensures var r := GroupScript(disk, pl, WriteCsv(Stage1Fixed.Perms), false);
            r.failure == Some(FitError) && r.effects == (if pl.outDir in disk.dirs then [] else [MakeDirs(pl.outDir)])
  {
    Stage1Fixed.RowsArePermutations(0);
    Stage1Fixed.RowsUnpack();
    var rows := Stage1Fixed.Rows();
    ProductIndex([4, 5], ["opt1", "opt5"], ["AntMod", "FixMod"], 0, 0, 0);
    assert IntToString(4) == "4";
    var made := pl.outDir in disk.dirs;
    var step := PermStep(disk, pl, Contrasts[0], rows[0], false, made);
    assert step.failure == Some(FitError);
    assert PermsFrom(disk, pl, Contrasts[0], rows, false, 0, made) == step;
  }

  /** A Stage 1 fixed-effects effect map is listed by the maps pattern of its
      contrast and permutation, whatever its subject. Stage 1 writes the map
      to `fx.fixDir + "/" + name`; when `fx.fixDir` ends in '/' that path holds
      "//", which the file system reads as one '/', so the file created is
      `PatternHead(fx.fixDir) + "/" + name`. The group pattern lists that file
      when its directory part lists the same directory. */
  lemma ListsFixedEffects(pl: Places, fx: Stage1Fixed.Places, subj: string, c: string, fwhm: string, motion: string,
                          model: string)
    requires GlobMatch(PatternHead(pl.fixDir), PatternHead(fx.fixDir))
    requires '*' !in c && '*' !in fwhm && '*' !in motion && '*' !in model
    requires '/' !in subj && '/' !in c && '/' !in fwhm && '/' !in motion && '/' !in model
    ensures var name := Join(MapsFields(subj, c, PermString(fwhm, motion, model)), '_');
            Fixed.OutPath(Stage1Fixed.DriverCall(fx, subj, fwhm, motion, model), c, "effect") == fx.fixDir + "/" + name &&
            GlobMatch(MapsPattern(pl, c, PermString(fwhm, motion, model)), PatternHead(fx.fixDir) + "/" + name)
  {
    var perm := PermString(fwhm, motion, model);
    var pf, nf := MapsFields("*", c, perm), MapsFields(subj, c, perm);
    EffectPathFields(fx, subj, c, fwhm, motion, model);
    JoinNoSep(Fixed.PermFields("brain", fwhm, motion, model), '_', '*');
    FieldsMatch(pf, nf);
    MapsPlain("*", c, fwhm, motion, model);
    MapsPlain(subj, c, fwhm, motion, model);
    GlobMatchJoin(PatternHead(pl.fixDir), Join(pf, '_'), PatternHead(fx.fixDir), Join(nf, '_'));
  }

  /** Both scripts spell the directory `{data_dir}/FixedEffects/`: Stage 1
      writes to `{data_dir}/FixedEffects//name`, which is the file
      `{data_dir}/FixedEffects/name`, and the group pattern lists that file. */
  lemma ListsFixedEffectsAsSpelled(dataDir: string, pl: Places, fx: Stage1Fixed.Places, subj: string, c: string,
                                   fwhm: string, motion: string, model: string)
    requires pl.fixDir == dataDir + "/FixedEffects/" && fx.fixDir == pl.fixDir && '*' !in dataDir
    requires '*' !in c && '*' !in fwhm && '*' !in motion && '*' !in model
    requires '/' !in subj && '/' !in c && '/' !in fwhm && '/' !in motion && '/' !in model
    ensures var name := Join(MapsFields(subj, c, PermString(fwhm, motion, model)), '_');
            Fixed.OutPath(Stage1Fixed.DriverCall(fx, subj, fwhm, motion, model), c, "effect") ==
              dataDir + "/FixedEffects//" + name &&
            GlobMatch(MapsPattern(pl, c, PermString(fwhm, motion, model)), dataDir + "/FixedEffects/" + name)
  {
    var d := dataDir + "/FixedEffects";
    assert d + seq(1, i => '/') == pl.fixDir;
    PatternHeadOf(d, 1);
    GlobMatchLiteral(d, d);
    ListsFixedEffects(pl, fx, subj, c, fwhm, motion, model);
    var name := Join(MapsFields(subj, c, PermString(fwhm, motion, model)), '_');
    assert d + "/" + name == dataDir + "/FixedEffects/" + name;
    assert pl.fixDir + "/" + name == dataDir + "/FixedEffects//" + name;
  }

  /** The effect map Stage 1 writes is the join of the maps fields. */
  lemma EffectPathFields(fx: Stage1Fixed.Places, subj: string, c: string, fwhm: string, motion: string, model: string)
    ensures Fixed.OutPath(Stage1Fixed.DriverCall(fx, subj, fwhm, motion, model), c, "effect") ==
            fx.fixDir + "/" + Join(MapsFields(subj, c, PermString(fwhm, motion, model)), '_')
  {
    assert "stat-" + "effect" + ".nii.gz" == "stat-effect.nii.gz";
  }

  /** Without '/' in the fields, a maps name holds none. */
  lemma MapsPlain(subj: string, c: string, fwhm: string, motion: string, model: string)
    requires '/' !in subj && '/' !in c && '/' !in fwhm && '/' !in motion && '/' !in model
    ensures '/' !in Join(MapsFields(subj, c, PermString(fwhm, motion, model)), '_')
  {
    JoinNoSep(Fixed.PermFields("brain", fwhm, motion, model), '_', '/');
    JoinNoSep(MapsFields(subj, c, PermString(fwhm, motion, model)), '_', '/');
  }

  /** A leading `*` field takes any subject; the other fields are literal. */
  lemma FieldsMatch(pf: seq<string>, nf: seq<string>)
    requires |pf| == |nf| && |pf| > 0 && pf[0] == "*"
    requires forall i :: 0 < i < |pf| ==> pf[i] == nf[i] && '*' !in pf[i]
    ensures FnMatch(Join(pf, '_'), Join(nf, '_'))
  {
    forall i | 0 <= i < |pf|
      ensures FnMatch(pf[i], nf[i])
    {
      if i == 0 {
        FnMatchOneStar("", nf[0], "");
        assert "" + "*" + "" == pf[0] && "" + nf[0] + "" == nf[0];
      } else {
        FnMatchSelf(pf[i]);
      }
    }
    FnMatchFields(pf, nf, '_');
  }
}
