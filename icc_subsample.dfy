/** Stage2_Code/compute_icc_subsample.py: for N = min_n, min_n + 50, ... it
    draws N subject IDs with replacement from a list, builds the paired run-01
    and run-02 paths of those subjects, checks them, and writes the three
    ICC(3,1) maps named for the seed and N. */
module IccSubsample {
  import opened Text
  import opened Errors
  import opened Effects
  import opened Pairing

  /** The command-line arguments, as text where the script converts them. */
  datatype Args = Args(ses: string, task: string, model: string, minN: string, maxN: string, subList: string,
                       mask: Option<string>, inp: string, out: string, seed: string)

  /** `int(text)`, which ignores surrounding whitespace. */
  function ToInt(text: string): (r: Result<int>)
    ensures r.Ok? <==> ParseInt(Strip(text)).Some?
    ensures r.Err? ==> r.error == NotAnInt(text)
  {
    var v := ParseInt(Strip(text));
    if v.Some? then Ok(v.value) else Err(NotAnInt(text))
  }

  /** `[line.strip() for line in subj_ids]`. */
  function CleanIds(lines: seq<string>): (ids: seq<string>)
    ensures |ids| == |lines| && forall i :: 0 <= i < |ids| ==> ids[i] == Strip(lines[i])
  {
    seq(|lines|, i requires 0 <= i < |lines| => Strip(lines[i]))
  }

  const Step: int := 50

  /** `list(range(min_n, max_n + 50, 50))`: min_n, min_n + 50, ... while below
      max_n + 50. */
  function NRange(lo: int, hi: int): (r: seq<int>)
    ensures forall i :: 0 <= i < |r| ==> r[i] == lo + Step * i && r[i] < hi + Step
    ensures lo + Step * |r| >= hi + Step
    decreases hi + Step - lo
  {
    if lo >= hi + Step then [] else [lo] + NRange(lo + Step, hi)
  }

  /** The generator behind `random`: `choose(state, population, k)` is what
      `random.choices(population, k=k)` returns from generator state `state`,
      together with the state after the call. */
  type Chooser = (nat, seq<string>, int) -> (seq<string>, nat)

  /** A draw of `k` items from `pop`, with replacement (none when k <= 0). */
  predicate Drawn(d: seq<string>, pop: seq<string>, k: int)
  {
    |d| == (if k > 0 then k else 0) && forall x :: x in d ==> x in pop
  }

  /** What `random.choices` promises whenever it returns: a non-empty
      population, or no draws asked for (then the empty list). */
  ghost predicate ChoicesContract(choose: Chooser)
  {
    forall st: nat, pop: seq<string>, k: int :: (|pop| > 0 || k <= 0) ==> Drawn(choose(st, pop, k).0, pop, k)
  }

  /** `{inp}/ses-{ses}/{id}/{id}_ses-{ses}_task-{task}_{run}_{model}_stat-beta.nii.gz`. */
  function RunPath(a: Args, id: string, run: string): string
  {
    SubjectDir(a, id) + Join(RunFields(a, id, run), '_')
  }

  function SubjectDir(a: Args, id: string): string
  {
    a.inp + "/ses-" + a.ses + "/" + id + "/"
  }

  /** The '_'-separated fields of the file name. */
  function RunFields(a: Args, id: string, run: string): seq<string>
  {
    [id, "ses-" + a.ses, "task-" + a.task, run, a.model, "stat-beta.nii.gz"]
  }

  /** The list comprehension of lines 54-55. */
  function Paths(a: Args, ids: seq<string>, run: string): (r: seq<string>)
    ensures |r| == |ids| && forall i :: 0 <= i < |r| ==> r[i] == RunPath(a, ids[i], run)
  {
    seq(|ids|, i requires 0 <= i < |ids| => RunPath(a, ids[i], run))
  }

  const ImgTypes: seq<string> := ["est", "btwnsub", "wthnsub"]

  /** `{out}/seed-{seed}_subs-{N}_task-MID_type-run_{model}_stat-{img_type}.nii.gz`. */
  function OutPath(a: Args, seed: int, n: nat, t: string): string
  {
    a.out + "/seed-" + IntToString(seed) + "_subs-" + NatToString(n) + "_task-MID_type-run_" + a.model + "_stat-" + t
    + ".nii.gz"
  }

  function IccSaves(a: Args, seed: int, set1: seq<string>, set2: seq<string>): seq<Effect>
  {
    seq(|ImgTypes|, i requires 0 <= i < |ImgTypes| =>
      Save(OutPath(a, seed, |set1|, ImgTypes[i]), Image(Icc(set1, set2, MaskOf(a.mask), ImgTypes[i]))))
  }

  /** One N: the draw, the two lists, the checks, the ICC maps; with the
      generator state after the draw. */
  function NStep(a: Args, seed: int, ids: seq<string>, n: int, st: nat, choose: Chooser): (Outcome, nat)
  {
    if |ids| == 0 && n > 0 then (Fail(IndexOutOfRange(0)), st)
    else
      var (draw, next) := choose(st, ids, n);
      var set1 := Paths(a, draw, "run-01");
      var set2 := Paths(a, draw, "run-02");
      if !(|set1| > 0 && |set2| > 0) || |set1| != |set2| || !AllAgree(set1, set2, 0) then (Fail(AssertionFailed), next)
      else (Done(IccSaves(a, seed, set1, set2)), next)
  }

  /** The N values from position k on. */
  function NsFrom(a: Args, seed: int, ids: seq<string>, ns: seq<int>, k: nat, st: nat, choose: Chooser): Outcome
    decreases |ns| - k
  {
    if k >= |ns| then Done([])
    else
      var (o, next) := NStep(a, seed, ids, ns[k], st, choose);
      Then(o, NsFrom(a, seed, ids, ns, k + 1, next, choose))
  }

  /** The script. `list` is the text of the subject list file, if it exists;
      `start` is the generator state `random.seed(seed)` sets. */
  function Subsample(a: Args, list: Option<string>, start: nat, choose: Chooser): Outcome
  {
    var lo, hi, seed := ToInt(a.minN), ToInt(a.maxN), ToInt(a.seed);
    if lo.Err? then Fail(lo.error)
    else if hi.Err? then Fail(hi.error)
    else if seed.Err? then Fail(seed.error)
    else if list.None? then Fail(FileNotFound(a.subList))
    else NsFrom(a, seed.value, CleanIds(ReadLines(list.value)), NRange(lo.value, hi.value), 0, start, choose)
  }

  // ------------------------------------------------------------ the script

  /** One pass of the loop of lines 50-68. */
  method RunN(a: Args, seed: int, ids: seq<string>, n: int, st: nat, choose: Chooser) returns (o: Outcome, next: nat)
    ensures (o, next) == NStep(a, seed, ids, n, st, choose)
  {
    if |ids| == 0 && n > 0 {
      return Fail(IndexOutOfRange(0)), st;
    }
    var drawn := choose(st, ids, n);
    var subsampleId := drawn.0;
    next := drawn.1;
    var set1 := Paths(a, subsampleId, "run-01");
    var set2 := Paths(a, subsampleId, "run-02");
    if !(|set1| > 0 && |set2| > 0) || |set1| != |set2| {
      return Fail(AssertionFailed), next;
    }
    var matchStringPosition := AllAgree(set1, set2, 0);
    if !matchStringPosition {
      return Fail(AssertionFailed), next;
    }
    var effects := [];
    var k := 0;
    while k < |ImgTypes|
      invariant k <= |ImgTypes| && effects == IccSaves(a, seed, set1, set2)[..k]
    {
      var imgType := ImgTypes[k];
      effects := effects + [Save(OutPath(a, seed, |set1|, imgType), Image(Icc(set1, set2, MaskOf(a.mask), imgType)))];
      k := k + 1;
    }
    assert IccSaves(a, seed, set1, set2)[..k] == IccSaves(a, seed, set1, set2);
    o := Done(effects);
  }

  /** The loop over the N values, the generator seeded once before it. */
  method RunNs(a: Args, seed: int, ids: seq<string>, ns: seq<int>, start: nat, choose: Chooser) returns (out: Outcome)
    ensures out == NsFrom(a, seed, ids, ns, 0, start, choose)
  {
    out := Done([]);
    ThenDone(NsFrom(a, seed, ids, ns, 0, start, choose));
    var st := start;
    var k := 0;
    while k < |ns|
      invariant k <= |ns| && out.failure.None?
      invariant Then(out, NsFrom(a, seed, ids, ns, k, st, choose)) == NsFrom(a, seed, ids, ns, 0, start, choose)
    {
      var o, next := RunN(a, seed, ids, ns[k], st, choose);
      ThenAssoc(out, o, NsFrom(a, seed, ids, ns, k + 1, next, choose));
      out := Then(out, o);
      if o.failure.Some? {
        return;
      }
      st := next;
      k := k + 1;
    }
    ThenDone(out);
  }

  method RunScript(a: Args, list: Option<string>, start: nat, choose: Chooser) returns (out: Outcome)
    ensures out == Subsample(a, list, start, choose)
  {
    var minN := ToInt(a.minN);
    if minN.Err? {
      return Fail(minN.error);
    }
    var maxN := ToInt(a.maxN);
    if maxN.Err? {
      return Fail(maxN.error);
    }
    var seed := ToInt(a.seed);
    if seed.Err? {
      return Fail(seed.error);
    }
    if list.None? {
      return Fail(FileNotFound(a.subList));
    }
    var sublistClean := CleanIds(ReadLines(list.value));
    var nRange := NRange(minN.value, maxN.value);
    out := RunNs(a, seed.value, sublistClean, nRange, start, choose);
  }

  // ------------------------------------------------------------ properties

  /** The fields that make up a path hold no '_'. */
  predicate Plain(a: Args, id: string)
  {
    '_' !in a.inp && '_' !in a.ses && '_' !in a.task && '_' !in id
  }

  /** The tokens of a path: the subject's directory and name, session, task,
      run, the model's own tokens, the statistic. */
  lemma PathTokens(a: Args, id: string, run: string)
    requires Plain(a, id) && '_' !in run
    ensures Tokens(RunPath(a, id, run)) ==
            [SubjectDir(a, id) + id, "ses-" + a.ses, "task-" + a.task, run]
            + Split(a.model, '_') + ["stat-beta.nii.gz"]
  {
    var head := [SubjectDir(a, id) + id, "ses-" + a.ses, "task-" + a.task, run];
    var tail := ["stat-beta.nii.gz"];
    var fs := RunFields(a, id, run);
    JoinPrefix(SubjectDir(a, id), fs, '_');
    assert [SubjectDir(a, id) + fs[0]] + fs[1..] == head + [a.model] + tail;
    TokensAround(head, a.model, tail);
  }

  /** The run-01 and run-02 paths of one subject pass the pairing check. */
  lemma RunsPair(a: Args, id: string)
    requires Plain(a, id)
    ensures PairAgrees(RunPath(a, id, "run-01"), RunPath(a, id, "run-02"), 0)
  {
    PathTokens(a, id, "run-01");
    PathTokens(a, id, "run-02");
  }

  /** With a population to draw from, one N passes the script's checks exactly
      when N > 0; it then writes the three ICC maps named for N, from N paired
      paths of drawn subjects, and the distinct subjects among them are at
      most N. */
  lemma NStepSpec(a: Args, seed: int, ids: seq<string>, n: int, st: nat, choose: Chooser)
    requires ChoicesContract(choose) && |ids| > 0
    requires forall i :: 0 <= i < |ids| ==> Plain(a, ids[i])
    ensures var (o, _) := NStep(a, seed, ids, n, st, choose);
            var draw := choose(st, ids, n).0;
            (o.failure.None? <==> n > 0) &&
            (n > 0 ==> |draw| == n && (forall x :: x in draw ==> x in ids) && |set x | x in draw| <= n &&
                       o == Done(IccSaves(a, seed, Paths(a, draw, "run-01"), Paths(a, draw, "run-02"))))
  {
    var draw := choose(st, ids, n).0;
    assert Drawn(draw, ids, n);
    var set1, set2 := Paths(a, draw, "run-01"), Paths(a, draw, "run-02");
    forall i | 0 <= i < |set1| && i < |set2| ensures PairAgrees(set1[i], set2[i], 0) {
      assert draw[i] in ids;
      RunsPair(a, draw[i]);
    }
    DistinctAtMostLength(draw);
  }

  /** An empty id list stops every N: `choices` raises an IndexError for
      N > 0, and for N <= 0 it draws nothing, so the non-empty assert fails. */
  lemma EmptyIdsStop(a: Args, seed: int, ids: seq<string>, n: int, st: nat, choose: Chooser)
    requires ChoicesContract(choose) && |ids| == 0
    ensures NStep(a, seed, ids, n, st, choose).0 == Fail(if n > 0 then IndexOutOfRange(0) else AssertionFailed)
  {
    if n <= 0 {
      assert Drawn(choose(st, ids, n).0, ids, n);
    }
  }

  /** A list has at most as many distinct items as entries. */
  lemma {:induction false} DistinctAtMostLength(d: seq<string>)
    ensures |set x | x in d| <= |d|
  {
    if |d| > 0 {
      DistinctAtMostLength(d[1..]);
      assert (set x | x in d) == (set x | x in d[1..]) + {d[0]};
    }
  }

  /** The three maps of one N are named for the requested N. */
  lemma NamesRecordN(a: Args, seed: int, draw: seq<string>, i: nat)
    requires i < |ImgTypes|
    ensures IccSaves(a, seed, Paths(a, draw, "run-01"), Paths(a, draw, "run-02"))[i].path ==
            OutPath(a, seed, |draw|, ImgTypes[i])
  {
  }
}
