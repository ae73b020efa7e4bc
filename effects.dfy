/** What a pipeline script does to the outside world, as data. Library
    computations (nilearn, nibabel, pyrelimri) are kept as symbolic terms that
    record their arguments; nothing here computes a voxel. */
module Effects {
  import opened Text
  import opened Errors
  import opened Regressors
  import opened Design
  import opened Glob

  /** The `mask_img` argument of a first-level model. */
  datatype MaskArg = NoMask | MaskPath(path: string) | MaskImage(img: Img)

  /** `FirstLevelModel(subject_label, mask_img, t_r, smoothing_fwhm, ...)` fitted
      on one BOLD file with one design request; noise model ar1, no drift model,
      no high-pass filter. */
  datatype Fit = Fit(subject: string, mask: MaskArg, tr: real, smoothing: Option<real>,
                     bold: string, design: DesignRequest)

  /** The contrast matrix handed to the efficiency estimator: design columns
      and one named row of weights per contrast. */
  datatype ContrastMatrix = ContrastMatrix(columns: seq<string>, rows: seq<(string, seq<int>)>)

  /** A symbolic image: which library call produced it, from what. */
  datatype Img =
    | ContrastMap(fit: Fit, contrast: string, output: string)        // compute_contrast(con, output_type)
    | Residual(variance: Img, design: DesignRequest, matrix: ContrastMatrix, row: nat)
                                                                     // var map times the row's efficiency
    | Smoothed(source: Img, fwhm: int)                               // smooth_img(img, fwhm)
    | Binarized(path: string, threshold: real)                       // binarize_img(path, threshold)
    | FixedEffects(betas: seq<string>, variances: seq<string>, part: nat) // compute_fixed_effects(...)[part]
    | GroupZ(maps: seq<string>, intercept: seq<real>)                // SecondLevelModel z-map, 'Intercept'
    | Icc(set1: seq<string>, set2: seq<string>, iccMask: MaskArg, estimate: string) // voxelwise_icc(...)[estimate]
    | Supra(image: string, threshold: real)                          // (img > threshold) as int
    | Sub(image: string, threshold: real, multiplier: string)        // (img < threshold) * mask as int

  /** One row of a per-run efficiency table: model, run and one efficiency
      per contrast row of the matrix. */
  datatype EffRow = EffRow(model: string, run: string, design: DesignRequest, matrix: ContrastMatrix)

  /** What a file holds. */
  datatype Content = Image(img: Img) | EfficiencyTable(header: seq<string>, rows: seq<EffRow>) | Text(text: string)

  /** One observable action. */
  datatype Effect = MakeDirs(path: string) | Save(path: string, content: Content)

  /** The actions a script performs, and the exception that stopped it, if any. */
  datatype Outcome = Outcome(effects: seq<Effect>, failure: Option<Error>)

  /** The files a script finds: names in listing order, the directories that
      exist, and the parsed content of the tables it reads. */
  datatype Disk = Disk(files: seq<string>, dirs: set<string>,
                       events: map<string, Table>, confounds: map<string, ConfoundFile>)
  {
    ghost predicate Valid()
    {
      forall p :: p in events ==> events[p].WellFormed()
    }
  }

  /** An optional command-line value as an f-string prints it. */
  function Shown(o: Option<string>): string
  {
    if o.Some? then o.value else "None"
  }

  /** Python truthiness of an optional string argument: set and non-empty. */
  predicate Truthy(o: Option<string>)
  {
    o.Some? && |o.value| > 0
  }

  /** `mask_img=arg`: a path, or no mask for None. */
  function MaskOf(o: Option<string>): MaskArg
  {
    if o.Some? then MaskPath(o.value) else NoMask
  }

  /** A field of a BIDS-style file name: free of the '_' that separates fields. */
  predicate Token(s: string)
  {
    '_' !in s
  }

  /** `str(i)` is always a field. */
  lemma IntToken(i: int)
    ensures Token(IntToString(i))
  {
    IntToStringChars(i);
  }

  /** Equal strings with a common prefix and suffix have equal middles. */
  lemma Cancel(pre: string, x: string, y: string, post: string)
    requires pre + x + post == pre + y + post
    ensures x == y
  {
    assert x == (pre + x + post)[|pre|..|pre| + |x|];
    assert y == (pre + y + post)[|pre|..|pre| + |y|];
  }

  function Done(effects: seq<Effect>): Outcome
  {
    Outcome(effects, None)
  }

  function Fail(e: Error): Outcome
  {
    Outcome([], Some(e))
  }

  /** Running `a` and then, unless it raised, `b`. */
  function Then(a: Outcome, b: Outcome): Outcome
  {
    if a.failure.Some? then a else Outcome(a.effects + b.effects, b.failure)
  }

  /** Sequencing is associative, so a loop may group its steps either way. */
  lemma ThenAssoc(a: Outcome, b: Outcome, c: Outcome)
    ensures Then(Then(a, b), c) == Then(a, Then(b, c))
  {
    if a.failure.None? && b.failure.None? {
      assert a.effects + b.effects + c.effects == a.effects + (b.effects + c.effects);
    }
  }

  /** Doing nothing is a unit of sequencing. */
  lemma ThenDone(a: Outcome)
    ensures Then(Done([]), a) == a && Then(a, Done([])) == a
  {
    assert [] + a.effects == a.effects;
    assert a.effects + [] == a.effects;
  }

  /** The paths written, in order. */
  function Written(effects: seq<Effect>): (r: seq<string>)
    ensures |r| <= |effects|
  {
    if |effects| == 0 then []
    else (if effects[0].Save? then [effects[0].path] else []) + Written(effects[1..])
  }

  lemma {:induction false} WrittenAppend(a: seq<Effect>, b: seq<Effect>)
    ensures Written(a + b) == Written(a) + Written(b)
  {
    if |a| == 0 {
      assert a + b == b;
    } else {
      var head := if a[0].Save? then [a[0].path] else [];
      assert (a + b)[0] == a[0] && (a + b)[1..] == a[1..] + b;
      assert Written(a + b) == head + Written(a[1..] + b);
      WrittenAppend(a[1..], b);
      ConcatAssoc(head, Written(a[1..]), Written(b));
    }
  }

  /** `read_csv(path, sep='\t')` of an events file. */
  function ReadEvents(disk: Disk, path: string): (r: Result<Table>)
    requires disk.Valid()
    ensures r.Ok? <==> path in disk.events
    ensures r.Ok? ==> r.value.WellFormed()
  {
    if path in disk.events then Ok(disk.events[path]) else Err(FileNotFound(path))
  }

  /** `glob(pattern)[0]`: the first listed file the pattern matches. */
  function FirstMatch(disk: Disk, pattern: string): (r: Result<string>)
    ensures r.Ok? ==> r.value in disk.files && GlobMatch(pattern, r.value)
    ensures r.Err? <==> forall f :: f in disk.files ==> !GlobMatch(pattern, f)
    ensures r.Err? ==> r.error == EmptyGlob(pattern)
  {
    var found := Filter(pattern, disk.files);
    FilterSpec(pattern, disk.files);
    if |found| == 0 then Err(EmptyGlob(pattern)) else Ok(found[0])
  }

  /** A pattern without '*' finds exactly the listed file of that name. */
  lemma FirstMatchLiteral(disk: Disk, pattern: string)
    requires '*' !in pattern
    ensures FirstMatch(disk, pattern).Ok? <==> pattern in disk.files
    ensures FirstMatch(disk, pattern).Ok? ==> FirstMatch(disk, pattern).value == pattern
  {
    forall f | f in disk.files ensures GlobMatch(pattern, f) <==> f == pattern {
      GlobMatchLiteral(pattern, f);
    }
  }
}
