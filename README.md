# Multiverse reliability pipeline: the bookkeeping layer in Dafny

The multiverse reliability pipeline fits first-level fMRI models to the
monetary incentive delay (MID) task under many analytic choices. The choices
are smoothing kernel, nuisance-regressor set, event model and brain mask. It
then combines runs into fixed effects, fits one-sample group models, computes
ICC(3,1) reliability maps, and uploads the group maps to NeuroVault. All
statistics are done by libraries (nilearn, nibabel, pyrelimri, FSL). The
repository's own code is bookkeeping: it decides what is fitted, with which
columns and events, and how every output is named, paired and found again by
the next stage. This project models that bookkeeping and proves properties of
it.

What is modelled:

- **Nuisance regressors** (`regressors.dfy`): the Stage 1 and Stage 2 option
  tables of `pull_regressors` are two tables. The Stage 2 motion-outlier
  option, the Stage 1 `opt5`, the `cosine03` removal and the column selection
  with `n/a` read as 0 are all modelled.
  - Stage1_Code/pull_regressors.py and the `pull_regressors` of
    Stage1_Code/designmat_regressors_define.py are the same code, two lines
    apart, so one Dafny definition models both.
  - The same holds for Stage1_Code/create_designmat.py and the
    `create_design_mid` of both `designmat_regressors_define.py` files, which
    `design.dfy` models once.
- **Event tables** (`design.dfy`): the caller's events frame is a class. Its
  `Assign` writes `ANTICIPATION_DURATION` in place. The 2n-row event table and
  the frame times are functions on values.
- **Driver scripts**: each script becomes a method. It takes the command-line
  values and the files that exist as a `Disk` value and returns an `Outcome`:
  - the ordered list of directories it creates and files it saves, each file
    with a symbolic description of the library call that produced it;
  - the exception that stopped it, if any.

  Each method is proved equal to a recursive function that spells out the same
  loops. Lemmas about that function state counts, names, order and injectivity.
  This covers the Stage 2 within-run scripts (`stage2_withinrun.dfy`,
  `stage2_single.dfy`), the three Stage 1 first-level scripts, the two
  fixed-effects scripts (`fixed.dfy`, `stage1_fixed.dfy`, `stage2_fixed.dfy`),
  the group script (`group.dfy`), both ICC scripts and the upload script.
- **Shared pieces**:
  - `permutations.dfy`: `itertools.product` and the permutation CSV round trip.
  - `firstlevel.dfy`: the rename tables, `model_types` and the zero-filled
    contrast matrix.
  - `glob.dfy`: `glob`/`fnmatch` with `*`, `sorted(glob(...))`, `basename`
    and `dirname`.
  - `text.dfy`: Python's `str`/`int`, `split`/`join`, `strip`, `sorted` and
    `readlines`.
  - `pairing.dfy`: token positions of '_'-split paths.
  - `effects.dfy` and `errors.dfy`: the effect and exception vocabulary.

Python's exceptions are modelled as values of `Errors.Error`: KeyError,
ValueError, IndexError, FileNotFoundError, AssertionError and NameError. The
library calls whose inputs the scripts choose raise too: `compute_fixed_effects`
on an empty or unequal pair of listings, `SecondLevelModel.fit` on fewer than
two maps, `voxelwise_icc` on empty lists and `eff_estimator` on a contrast
matrix wider than the design. A script that raises stops there, and its
`Outcome` keeps the effects performed before it.

## Model

| member | source | states |
|---|---|---|
| Regressors.OutlierColumns | Stage2_Code/designmat_regressors_define.py:110 | `filter(regex='motion_outlier')` keeps exactly the file's columns whose name contains `motion_outlier`, never more columns than the file has |
| Regressors.RemoveFirst | Stage2_Code/designmat_regressors_define.py:117 | `list.remove` of a present name makes the list exactly one entry shorter |
| Regressors.RemoveFirstAt | Stage2_Code/designmat_regressors_define.py:117 | `list.remove` takes out the first occurrence and nothing else: the entries before it, then the entries after it |
| Regressors.Absent | Stage2_Code/designmat_regressors_define.py:119 | the names a failed column selection reports are exactly the requested names the file lacks |
| Regressors.IndexOf | Stage2_Code/designmat_regressors_define.py:119 | a selected name is read from the first column that carries it |
| Regressors.SelectColumns | Stage2_Code/designmat_regressors_define.py:119 | selection fails exactly when a requested name is absent, and the error names the absent ones; otherwise the frame has the requested columns in request order, one row per file row, and each cell is the file's cell with `n/a` read as 0 |
| Regressors.Stage2Base | Stage2_Code/designmat_regressors_define.py:80-112 | every list the Stage 2 table can hand out starts with the four cosine columns |
| Regressors.PullRegressorsStage2 | Stage2_Code/designmat_regressors_define.py:73-119 | returns what Stage2Regressors defines: missing file, unknown option, 'cosine03' struck from the chosen list when the file lacks it, then the selection |
| Regressors.Stage2Nested | Stage2_Code/designmat_regressors_define.py:80-117 | with or without 'cosine03', opt2 is opt1 plus the motion and derivative columns, opt3 is opt2 plus the eight aCompCor columns, and opt4 is opt3 plus exactly the file's motion-outlier columns |
| Regressors.Stage2Sizes | Stage2_Code/designmat_regressors_define.py:81-107 | when the file has 'cosine03', opt1, opt2 and opt3 select 4, 16 and 24 columns |
| Regressors.Stage2Unknown | Stage2_Code/designmat_regressors_define.py:80-119 | Stage 2 knows exactly opt1 to opt4; any other name, 'opt5' included, ends in a KeyError |
| Regressors.Stage2DropsCosine03 | Stage2_Code/designmat_regressors_define.py:114-117 | when the file lacks 'cosine03', the selection is the option's list with its fourth entry removed, and 'cosine03' no longer appears in it |
| Regressors.PullRegressorsStage1 | Stage1_Code/pull_regressors.py:22-67 | returns what Stage1Regressors defines: missing file, 'opt5' built from opt4 plus the outlier columns, unknown option, selection |
| Regressors.Stage1Nested | Stage1_Code/pull_regressors.py:30-43 | the Stage 1 lists have 4, 10, 16 and 24 names and each is a prefix of the next |
| Regressors.Stage1NoFallback | Stage1_Code/pull_regressors.py:29-67 | Stage 1 succeeds exactly when the option is known and every name on its list is a column of the file; there is no 'cosine03' fallback |
| Design.Lookup | Stage2_Code/designmat_regressors_define.py:146 | `df[name]` fails with a KeyError naming the column exactly when no column has that name |
| Design.LookupFinds | Stage2_Code/designmat_regressors_define.py:146 | a successful `df[name]` returns the cells of a column with that name |
| Design.SetColumn | Stage2_Code/designmat_regressors_define.py:146 | `df[name] = cells` adds at most one column, and every column is either the new one or unchanged |
| Design.SetThenLookup | Stage2_Code/designmat_regressors_define.py:146 | after `df[name] = cells` the column reads back as `cells` |
| Design.SetKeepsOthers | Stage2_Code/designmat_regressors_define.py:146 | after `df[name] = cells` every other column reads as before |
| Design.SetWellFormed | Stage2_Code/designmat_regressors_define.py:146 | assigning a full-length column keeps every column as long as the table |
| Design.AddCell | Stage2_Code/designmat_regressors_define.py:146 | a cell sum fails exactly when one cell is a number and the other a text; NaN with anything gives NaN |
| Design.AddColumns | Stage2_Code/designmat_regressors_define.py:146 | the element-wise sum fails exactly when some row adds a number to a text; otherwise each result cell is the sum of the two cells in that row |
| Design.AnticipationDuration | Stage2_Code/designmat_regressors_define.py:146 | the derived column fails exactly when CUE_DURATION or FIXATION_DURATION is missing or some row adds a number to a text; otherwise it has one cell per row, the sum of that row's two cells |
| Design.Zip3 | Stage2_Code/designmat_regressors_define.py:157-159 | row i of the event table holds the i-th trial type, onset and duration |
| Design.DesignEvents | Stage2_Code/designmat_regressors_define.py:149-159 | the event table fails exactly when one of the six columns is missing; otherwise it has 2n rows, row i the anticipation event of trial i and row n + i its feedback event |
| Design.FrameTimes | Stage2_Code/designmat_regressors_define.py:162 | there is one frame time per volume |
| Design.FrameTimesSpacing | Stage2_Code/designmat_regressors_define.py:162-167 | frame times start at 0, or at TR/2 when `stc` is truthy, and are spaced by exactly one TR |
| Design.FrameTimesShift | Stage2_Code/designmat_regressors_define.py:167 | slice-timing correction moves every frame time by exactly TR/2 |
| Design.AntModDurations | Stage2_Code/designmat_regressors_define.py:146-153 | with the AntMod labels, each anticipation row lasts CUE_DURATION + FIXATION_DURATION of its trial, and the nuisance frame and frame times reach the design unchanged |
| Design.EventsFrame.Assign | Stage2_Code/designmat_regressors_define.py:146 | assigning a column changes the caller's frame to the table with that column set, and keeps it well formed |
| Design.CreateDesignMid | Stage2_Code/designmat_regressors_define.py:122-172 | the caller's events frame ends as the table with ANTICIPATION_DURATION written (left as it was when that sum fails), and the result is the design request CreateDesignSpec builds, or its error |
| Effects.ReadEvents | Stage2_Code/runs_withinrun_permutations.py:123-124 | reading the events file succeeds exactly when the file exists, and gives a well-formed table |
| Effects.FirstMatch | Stage2_Code/runs_withinrun_permutations.py:138-140 | `glob(pattern)[0]` is a listed file that the pattern matches, and it fails with an IndexError exactly when no listed file matches |
| Effects.FirstMatchLiteral | Stage2_Code/runs_withinrun_permutations.py:138-140 | a pattern without `*` finds a file exactly when a file of that very name is listed, and then it is that file |
| Stage2WithinRun.ContrastSaves | Stage2_Code/runs_withinrun_permutations.py:186-204 | the contrast loop writes three maps per contrast |
| Stage2WithinRun.ContrastSavesAt | Stage2_Code/runs_withinrun_permutations.py:186-204 | write 3c + t of the contrast loop is map t (beta, variance, residual variance) of contrast c: contrasts in table order, the three maps in that order |
| Stage2WithinRun.SaveContrasts | Stage2_Code/runs_withinrun_permutations.py:186-204 | the loop over the contrasts writes exactly the maps the contrast table defines, in order |
| Stage2WithinRun.FitStep | Stage2_Code/runs_withinrun_permutations.py:136-204 | once the events are harmonised, a failing step writes nothing and keeps the efficiency table; a successful one adds one efficiency row for this model and run, whose contrast matrix has exactly the design's columns, rewrites the efficiency file with all rows so far, then writes the 3·4 maps |
| Stage2WithinRun.FitNeedsWeightedColumns | Stage2_Code/runs_withinrun_permutations.py:155-163 | a step completes only when every condition the contrasts weight is a column of the design; otherwise `eff_estimator` raises on the wider matrix before anything is written |
| Stage2WithinRun.PermStep | Stage2_Code/runs_withinrun_permutations.py:117-204 | one permutation does nothing at all exactly when the events file exists and the sample is neither 'abcd' nor 'mls' (the `continue`); a failure writes nothing; otherwise the efficiency table grows by one row and the efficiency file and twelve maps are written |
| Stage2WithinRun.Permutation | Stage2_Code/runs_withinrun_permutations.py:117-204 | the body of the permutation loop does what PermStep defines |
| Stage2WithinRun.FitPermutation | Stage2_Code/runs_withinrun_permutations.py:136-204 | from the harmonised events frame on, the rest of one iteration (regressors, design, contrast matrix, fit, saves) does what FitStep defines for the frame as it was |
| Stage2WithinRun.RunPermutations | Stage2_Code/runs_withinrun_permutations.py:115-204 | the permutation loop of one run, starting from an empty efficiency table, does what the permutations in order define, stopping at the first exception |
| Stage2WithinRun.RunScript | Stage2_Code/runs_withinrun_permutations.py:112-204 | the run loop does what the runs '01' then '02' in order define, stopping at the first exception |
| Stage2WithinRun.PermsOrder | Stage2_Code/runs_withinrun_permutations.py:106-110 | `product(fwhm_opt, motion_opt, modtype_opt)` lists the eight permutations with the last factor varying fastest |
| Stage2WithinRun.StatPathInjective | Stage2_Code/runs_withinrun_permutations.py:187-203 | two map names are equal exactly when run, contrast, permutation and map kind are all equal, so no map overwrites another |
| Stage2WithinRun.ResidualRowNamed | Stage2_Code/runs_withinrun_permutations.py:155-159 | the contrast matrix has one row per contrast and row c is named after contrast c, so the efficiency column read for a contrast's residual variance is that contrast's |
| Stage2WithinRun.SkippedPerms | Stage2_Code/runs_withinrun_permutations.py:123-133 | for a sample other than 'abcd' and 'mls' the permutation loop writes nothing; it fails only when the events file is missing, and then with that file's FileNotFoundError |
| Stage2WithinRun.SkippedRuns | Stage2_Code/runs_withinrun_permutations.py:112-133 | for such a sample the run loop writes nothing, and it ends without an exception exactly when every run's events file exists |
| Stage2WithinRun.SkippedSampleWritesNothing | Stage2_Code/runs_withinrun_permutations.py:112-133 | for such a sample the script writes nothing and succeeds exactly when the events files of runs 01 and 02 both exist |
| Stage2WithinRun.StcStringShifts | Stage2_Code/runs_withinrun_permutations.py:71 | any non-empty `--stc` string, 'False' included, is truthy and shifts every frame time by half a TR |
| FirstLevel.Translate | Stage2_Code/runs_withinrun_permutations.py:127 | a label that is a key of the rename table becomes that key's value, and any other label stays as it is |
| FirstLevel.RenameColumns | Stage2_Code/runs_withinrun_permutations.py:127 | `rename(columns=...)` keeps the rows, the number of columns and every column's cells, and keeps the table well formed |
| FirstLevel.Harmonize | Stage2_Code/runs_withinrun_permutations.py:126-131 | renaming then replacing the cue synonyms fails exactly when no column is named TRIAL_TYPE after the rename; otherwise the table keeps its rows and stays well formed |
| FirstLevel.HarmonizeSpec | Stage2_Code/runs_withinrun_permutations.py:126-131 | after harmonising, TRIAL_TYPE holds the renamed cells with each cue synonym replaced, none of the five synonyms is left in it, and every other column reads as after the rename |
| FirstLevel.CueTypesNotKeys | Stage2_Code/runs_withinrun_permutations.py:41-47 | no new cue label is itself an old label, so one `replace` pass is final |
| FirstLevel.ModelType | Stage2_Code/runs_withinrun_permutations.py:83-87 | `model_types[name]` knows exactly AntMod, FixMod and CueMod and raises a KeyError naming any other model |
| FirstLevel.NewKeys | Stage2_Code/runs_withinrun_permutations.py:157 | the columns one appended weight row adds are exactly its keys not yet among the columns, none of them twice |
| FirstLevel.MatrixColumnsSpec | Stage2_Code/runs_withinrun_permutations.py:155-159 | the contrast matrix's columns begin with the design's columns and hold exactly those and the weighted conditions |
| FirstLevel.UnlistedIsZero | Stage2_Code/runs_withinrun_permutations.py:159 | after `fillna(0)` a condition a contrast does not list weighs 0 |
| FirstLevel.BuildContrastMatrix | Stage2_Code/runs_withinrun_permutations.py:155-159 | appending the weight rows one by one and then filling NaN with 0 gives one row per contrast, in order, each with its listed weights and 0 elsewhere |
| FirstLevel.MatrixWidth | Stage2_Code/runs_withinrun_permutations.py:155-159 | the contrast matrix has exactly the design's columns if and only if the design has a column for every weighted condition; otherwise pandas widens it |
| Stage2Single.RenamesFor | Stage2_Code/runs_withinrun_single.py:122-128 | the events are renamed exactly for the samples 'abcd' and upper-case 'MLS'; every other sample is used as read |
| Stage2Single.BetaVarSaves | Stage2_Code/runs_withinrun_single.py:159-167 | the contrast loop writes two maps per contrast |
| Stage2Single.BetaVarAt | Stage2_Code/runs_withinrun_single.py:159-167 | write 2c + t is the beta (t = 0) or variance (t = 1) map of contrast c, contrasts in table order |
| Stage2Single.SaveBetaVar | Stage2_Code/runs_withinrun_single.py:159-167 | the loop over the contrasts writes exactly the maps the contrast table defines, in order |
| Stage2Single.FitRun | Stage2_Code/runs_withinrun_single.py:132-167 | from the events table on, a failing run writes nothing and a successful one writes two maps per contrast |
| Stage2Single.RunStep | Stage2_Code/runs_withinrun_single.py:120-167 | one run, from reading its events on, writes nothing when it fails and two maps per contrast when it succeeds |
| Stage2Single.Run | Stage2_Code/runs_withinrun_single.py:120-167 | the body of the run loop, renaming the events frame in place, does what RunStep defines |
| Stage2Single.RunScript | Stage2_Code/runs_withinrun_single.py:114-167 | the run loop does what runs '01' then '02' define, stopping at the first exception |
| Stage2Single.BothRuns | Stage2_Code/runs_withinrun_single.py:114-167 | when both runs succeed the script succeeds and writes run 01's maps and then run 02's, 4·4 in all |
| Stage2Single.UnrenamedSamples | Stage2_Code/runs_withinrun_single.py:122-129 | for a sample other than 'abcd' and 'MLS', lower-case 'mls' included, the run is fitted on the events as read |
| Stage2Single.FloatNamesDiffer | Stage2_Code/runs_withinrun_single.py:160 | because `--fwhm` is read as a float, an integral kernel is named "fwhm-n.0", so these names never equal the permutations script's "fwhm-n" names |
| Stage1Layout.MakeOut | Stage1_Code/runs_withinrun_permutations.py:29-30 | the output directory is created exactly when it does not exist yet |
| Stage1Layout.Stage1Design | Stage1_Code/designmat_regressors_define.py:95-119 | a Stage 1 design, when it can be built, uses the glover HRF and unshifted frame times over 407 volumes of 0.8 s |
| Stage1Layout.DesignRun | Stage1_Code/runs_withinrun_permutations.py:56-73 | reading the confounds, looking up the model and building the design, with the events frame changed in place, gives what Stage1Design defines |
| Stage1WithinRun.BetaVarSaves | Stage1_Code/runs_withinrun_permutations.py:89-99 | the contrast loop writes two maps per contrast |
| Stage1WithinRun.BetaVarAt | Stage1_Code/runs_withinrun_permutations.py:89-99 | write 2c + t is the beta (t = 0) or variance (t = 1) map of contrast c, contrasts in table order |
| Stage1WithinRun.SaveBetaVar | Stage1_Code/runs_withinrun_permutations.py:89-99 | the loop over the contrasts writes exactly the maps the contrast table defines, in order |
| Stage1WithinRun.PermStep | Stage1_Code/runs_withinrun_permutations.py:56-99 | one permutation writes nothing when it fails and two maps per contrast when it succeeds |
| Stage1WithinRun.Permutation | Stage1_Code/runs_withinrun_permutations.py:56-99 | the body of the permutation loop does what PermStep defines |
| Stage1WithinRun.RunPerms | Stage1_Code/runs_withinrun_permutations.py:52-99 | the permutation loop does what the permutations in order define, stopping at the first exception |
| Stage1WithinRun.SubjectRuns | Stage1_Code/runs_withinrun_permutations.py:50-99 | the run loop does what run-01 then run-02 define, stopping at the first exception |
| Stage1WithinRun.RunSubjects | Stage1_Code/runs_withinrun_permutations.py:48-99 | the subject loop does what the subjects in listed order define, stopping at the first exception |
| Stage1WithinRun.RunScript | Stage1_Code/runs_withinrun_permutations.py:29-99 | the script creates the output directory when it is missing and then runs the subject loop |
| Stage1WithinRun.PermsOrder | Stage1_Code/runs_withinrun_permutations.py:13-16 | the eight permutations of fwhm 4, 5, motion opt1, opt5 and model AntMod, FixMod, last factor fastest |
| Stage1WithinRun.FitWithoutMask | Stage1_Code/runs_withinrun_permutations.py:73-84 | every successful fit uses no mask, the permutation's smoothing, the glover HRF and unshifted frame times |
| Stage1WithinRun.MotionOptionsKnown | Stage1_Code/runs_withinrun_permutations.py:14 | every motion option of the permutations, 'opt5' included, is one Stage 1 `pull_regressors` knows |
| Stage1FirstLevel.BetaVarSaves | Stage1_Code/firstlevel_model_permutations.py:100-110 | the contrast loop writes two maps per contrast |
| Stage1FirstLevel.BetaVarAt | Stage1_Code/firstlevel_model_permutations.py:100-110 | write 2c + t is the beta (t = 0) or variance (t = 1) map of contrast c, contrasts in table order |
| Stage1FirstLevel.SaveBetaVar | Stage1_Code/firstlevel_model_permutations.py:100-110 | the loop over the contrasts writes exactly the maps the contrast table defines, in order |
| Stage1FirstLevel.PermStep | Stage1_Code/firstlevel_model_permutations.py:59-110 | one CSV row writes nothing when it fails and two maps per contrast when it succeeds |
| Stage1FirstLevel.Permutation | Stage1_Code/firstlevel_model_permutations.py:59-110 | the body of the permutation loop does what PermStep defines |
| Stage1FirstLevel.RunPerms | Stage1_Code/firstlevel_model_permutations.py:59-110 | the loop over the rows read back does what the rows in order define, stopping at the first exception |
| Stage1FirstLevel.SubjectRuns | Stage1_Code/firstlevel_model_permutations.py:57-110 | the run loop does what run-01 then run-02 define, stopping at the first exception |
| Stage1FirstLevel.RunScript | Stage1_Code/firstlevel_model_permutations.py:18-110 | the script writes the permutations CSV, creates the output directory when it is missing, and runs the subject loop over the rows read back |
| Stage1FirstLevel.PermsOrder | Stage1_Code/firstlevel_model_permutations.py:13-18 | the eight permutations of fwhm 4, 7, motion opt1, opt3 and model AntMod, FixMod, last factor fastest |
| Stage1FirstLevel.RowsAreText | Stage1_Code/firstlevel_model_permutations.py:39-40 | reading the CSV back gives one row per permutation, its fwhm as the decimal text `int()` turns back into the number, and its motion and model unchanged |
| Stage1FirstLevel.OutPathInjective | Stage1_Code/firstlevel_model_permutations.py:101-108 | two output names are equal exactly when subject, run, contrast, permutation and map kind are all equal |
| Stage1FirstLevel.PermsFromComplete | Stage1_Code/firstlevel_model_permutations.py:59-110 | when every remaining row succeeds, the loop succeeds and writes eight maps per row |
| Stage1FirstLevel.ShortRowFails | Stage1_Code/firstlevel_model_permutations.py:59 | a row without exactly three fields stops the loop with the unpacking error |
| Stage1Old.MaskFor | Stage1_Code/firstlevel_model_permutations_old.py:83-90 | the brain-mask type fits with the mask file, the grey-matter type with that file binarised at 0.05, and any other type raises a NameError for the unbound `mask` |
| Stage1Old.SmoothSaves | Stage1_Code/firstlevel_model_permutations_old.py:103-115 | the smoothing loop of a contrast writes two maps per fwhm |
| Stage1Old.ContrastSaves | Stage1_Code/firstlevel_model_permutations_old.py:102-115 | the contrast loop writes four maps per contrast |
| Stage1Old.SaveSmoothed | Stage1_Code/firstlevel_model_permutations_old.py:103-115 | the loop over the fwhm list writes exactly what SmoothSaves defines |
| Stage1Old.SaveContrasts | Stage1_Code/firstlevel_model_permutations_old.py:102-115 | the nested contrast and fwhm loops write exactly what ContrastSaves defines |
| Stage1Old.PermStep | Stage1_Code/firstlevel_model_permutations_old.py:59-115 | one permutation writes nothing when it fails and four maps per contrast when it succeeds |
| Stage1Old.Permutation | Stage1_Code/firstlevel_model_permutations_old.py:59-115 | the body of the permutation loop does what PermStep defines |
| Stage1Old.RunPerms | Stage1_Code/firstlevel_model_permutations_old.py:55-115 | the permutation loop does what the permutations in order define, stopping at the first exception |
| Stage1Old.SubjectRuns | Stage1_Code/firstlevel_model_permutations_old.py:53-115 | the run loop does what run-01 then run-02 define, stopping at the first exception |
| Stage1Old.RunSubjects | Stage1_Code/firstlevel_model_permutations_old.py:51-115 | the subject loop does what the subjects in listed order define, stopping at the first exception |
| Stage1Old.RunScript | Stage1_Code/firstlevel_model_permutations_old.py:32-115 | the script creates the output directory when it is missing and then runs the subject loop |
| Stage1Old.PermsOrder | Stage1_Code/firstlevel_model_permutations_old.py:15-19 | the two permutations are opt1 and AntMod with the brain mask, then with the grey-matter mask |
| Stage1Old.MasksBound | Stage1_Code/firstlevel_model_permutations_old.py:83-90 | both mask types the permutations use bind a mask, so the NameError cannot occur there |
| Stage1Old.SmoothAt | Stage1_Code/firstlevel_model_permutations_old.py:103-115 | for the fwhm at index s the smoothing loop writes the smoothed beta map at 2s and the smoothed variance map at 2s + 1 |
| Stage1Old.ContrastAt | Stage1_Code/firstlevel_model_permutations_old.py:102-115 | contrast c's beta and variance maps smoothed at fwhm s sit at 4c + 2s and 4c + 2s + 1 |
| Stage1Old.PermFit | Stage1_Code/firstlevel_model_permutations_old.py:82-97 | a successful permutation fits unsmoothed with the glover HRF and unshifted frame times, with the mask file for the brain mask and a binarised image for the grey-matter mask, then writes the contrast maps |
| Stage1Fixed.PermStep | Stage1_Code/runs_withinsession_permutations.py:98-104 | one CSV row fails with the unpacking error exactly when it does not have three fields; a row of three completes exactly when every contrast's two listings are non-empty and equally long |
| Stage1Fixed.Permutation | Stage1_Code/runs_withinsession_permutations.py:98-104 | the body of the permutation loop does what PermStep defines |
| Stage1Fixed.RunPerms | Stage1_Code/runs_withinsession_permutations.py:98-104 | the loop over the rows read back does what the rows in order define, stopping at the first exception |
| Stage1Fixed.RunSubjects | Stage1_Code/runs_withinsession_permutations.py:95-104 | the subject loop does what the subjects in listed order define, stopping at the first exception |
| Stage1Fixed.RunScript | Stage1_Code/runs_withinsession_permutations.py:88-104 | the script writes the permutations CSV and runs the subject loop over the rows read back |
| Stage1Fixed.RowsArePermutations | Stage1_Code/runs_withinsession_permutations.py:88-92 | the rows read back are the permutations, the fwhm as decimal text, in order |
| Stage1Fixed.RowsUnpack | Stage1_Code/runs_withinsession_permutations.py:91-92 | the CSV gives back eight rows of three fields each |
| Stage1Fixed.RowsComplete | Stage1_Code/runs_withinsession_permutations.py:98-104 | the loop completes exactly when every row has three fields and every contrast of every row lists non-empty, equally long beta and variance maps |
| Stage1Fixed.WithinRunNamesMatch | Stage1_Code/runs_withinsession_permutations.py:33-37 | every beta or variance name the within-run script writes is listed by the fixed-effects pattern of its own subject, contrast and permutation, whatever the run |
| Fixed.FlagSaves | Stage1_Code/runs_withinsession_permutations.py:50-62 | the combined effect, variance and t maps are each written exactly when their flag is set, one write per set flag, each the combination of the sorted beta and variance lists |
| Fixed.DriverSaves | Stage2_Code/runs_withinsession_permutations.py:107-109 | with the drivers' flags a contrast writes its effect map and then its variance map; with the defaults only the t map |
| Fixed.ListsSpec | Stage2_Code/runs_withinsession_permutations.py:31-36 | each contrast's beta and variance listings are sorted and hold exactly the existing maps the recursive `**` pattern of that contrast and kind matches |
| Fixed.ContrastStep | Stage1_Code/runs_withinsession_permutations.py:32-62 | one contrast raises the `compute_fixed_effects` error, writing nothing, exactly when its beta listing is empty or not as long as its variance listing; otherwise it writes one map per set flag, after creating the output directory when it is missing |
| Fixed.FixedEffectSucceeds | Stage2_Code/runs_withinsession_permutations.py:31-61 | the contrast loop completes exactly when every contrast's listings can be combined, and otherwise stops with the `compute_fixed_effects` error |
| Fixed.DirectoryOnce | Stage2_Code/runs_withinsession_permutations.py:45-46 | the contrast loop creates the output directory at most once, as its first action, and only when it was missing and the first contrast's listings can be combined |
| Fixed.FixedEffectLength | Stage2_Code/runs_withinsession_permutations.py:31-61 | when every contrast's listings can be combined, the call completes and writes one map per set flag and contrast, plus the directory when it was missing |
| Fixed.DriverCount | Stage2_Code/runs_withinsession_permutations.py:107-109 | when every contrast's listings can be combined, a driver call completes and writes two maps per contrast, plus the directory when it was missing and there is a contrast |
| Fixed.DriverStep | Stage1_Code/runs_withinsession_permutations.py:50-58 | with the drivers' flags, the directory in place and combinable listings, a contrast completes and writes the combined effect of its sorted listings and then their combined variance |
| Fixed.DriverOutputs | Stage2_Code/runs_withinsession_permutations.py:31-61 | with the drivers' flags, the directory in place and every listing combinable, contrast k's effect and variance maps are writes 2k and 2k + 1 |
| Fixed.InputNameFlat | Stage1_Code/runs_withinsession_permutations.py:33-37 | when `model` holds a permutation label, the input name is one '_'-join of the name fields with the label's fields spelled out |
| Fixed.RunFieldsMatch | Stage2_Code/runs_withinsession_permutations.py:32-36 | a name pattern that agrees with a name field by field except for `run-*` matches that name, whatever its run |
| Fixed.RunContrast | Stage2_Code/runs_withinsession_permutations.py:31-61 | one pass of the contrast loop does what ContrastStep defines |
| Fixed.RunFixedEffect | Stage1_Code/runs_withinsession_permutations.py:32-62 | the contrast loop, checking for the directory on every pass, does what the contrasts in order define |
| Stage2Fixed.RunPerms | Stage2_Code/runs_withinsession_permutations.py:102-109 | the permutation loop calls `fixed_effect` once per permutation with the label `mask-…_mot-…_mod-…_fwhm-…`, in order, with the input pattern as written (bare session) or corrected (`ses-`), stopping at the first exception |
| Stage2Fixed.RunScript | Stage2_Code/runs_withinsession_permutations.py:94-109 | the script, as written or corrected, runs the permutation loop over the eight permutations, starting from whether the output directory exists |
| Stage2Fixed.PermsSucceed | Stage2_Code/runs_withinsession_permutations.py:102-109 | the permutation loop completes exactly when every contrast of every permutation lists combinable maps, and otherwise stops with the `compute_fixed_effects` error |
| Stage2Fixed.PermLength | Stage2_Code/runs_withinsession_permutations.py:107-109 | a permutation whose listings can be combined completes, writes eight maps, and creates the directory first exactly when it is missing |
| Stage2Fixed.PermsShape | Stage2_Code/runs_withinsession_permutations.py:102-109 | when every permutation's listings can be combined, the loop completes, writes eight maps per permutation, and creates the directory at most once, first, when it is missing |
| Stage2Fixed.ScriptShape | Stage2_Code/runs_withinsession_permutations.py:94-109 | when every listing can be combined, the script completes and writes 64 maps, after creating the output directory when it is missing |
| Stage2Fixed.AsWrittenWritesNothing | Stage2_Code/runs_withinsession_permutations.py:32-43 | as written, over a disk holding only run-level maps of the same subject and session, the first `compute_fixed_effects` call gets empty listings: the script raises before writing anything |
| Stage2Fixed.AsWrittenListsNothing | Stage2_Code/runs_withinsession_permutations.py:32-36 | as written, every beta and variance listing over such a disk is empty |
| Stage2Fixed.AsWrittenMissesRuns | Stage2_Code/runs_withinsession_permutations.py:32-36 | as written, the input patterns (bare session) list none of the run-level maps (`ses-` session) of the same subject and session |
| Stage2Fixed.AsWrittenNameMisses | Stage2_Code/runs_withinsession_permutations.py:32-33 | the as-written file-name pattern never matches a run-level file name of the same subject and session |
| Stage2Fixed.SessionPrefixDiffers | Stage2_Code/runs_withinsession_permutations.py:32 | `{subj}_{ses}_` is never a prefix of `{subj}_ses-{ses}_…` for a session free of '_' |
| Stage2Fixed.CorrectedListsRuns | Stage2_Code/runs_withinsession_permutations.py:32-36 | with `ses-` in the input pattern, a permutation's pattern lists every run-level map of that permutation, subject, session, task and contrast one directory below the first-level directory |
| Stage2Fixed.CorrectedMatch | Stage2_Code/runs_withinsession_permutations.py:32-36 | the corrected file-name pattern matches the run-level file name of every run |
| Group.Intercept | Stage2_Code/group_withinsession_permutations.py:27-31 | the design has one row of 1 per input map |
| Group.OneSample | Stage2_Code/group_withinsession_permutations.py:23-48 | `group_onesample` creates the output directory first exactly when it is missing; the fit raises exactly when it gets fewer than two maps; otherwise it writes one z map fitted on exactly the given maps with an all-ones intercept as long as the list, named `subs-{N}` with N the number of maps |
| Group.GroupOneSample | Stage2_Code/group_withinsession_permutations.py:23-48 | the function body does what OneSample defines |
| Group.Unpacked | Stage2_Code/group_withinsession_permutations.py:78 | unpacking into four names succeeds exactly for rows of four fields (three in the corrected loop), keeps the first three, and otherwise raises the unpacking ValueError with the counts |
| Group.Permutation | Stage2_Code/group_withinsession_permutations.py:78-85 | the body of the permutation loop: unpack, list the sorted maps, fit |
| Group.RunPerms | Stage2_Code/group_withinsession_permutations.py:78-85 | the permutation loop does what the rows in order define, stopping at the first exception |
| Group.RunContrasts | Stage2_Code/group_withinsession_permutations.py:76-85 | the contrast loop does what the contrasts in order define, stopping at the first exception |
| Group.RunScript | Stage2_Code/group_withinsession_permutations.py:69-85 | the script reads the permutation rows back from the CSV text and runs the contrast loop over them |
| Group.MapsSorted | Stage2_Code/group_withinsession_permutations.py:82-83 | a row of three fields completes exactly when its contrast and permutation list at least two maps, and otherwise raises the fit's error; a fit's input maps are sorted and are exactly the existing files the pattern of its contrast and permutation matches |
| Group.PermsSucceed | Stage2_Code/group_withinsession_permutations.py:78-85 | the corrected permutation loop completes exactly when every row has three fields and lists at least two maps; when it stops, the error is the unpacking error or the fit's |
| Group.PermsShape | Stage2_Code/group_withinsession_permutations.py:78-85 | with rows of three fields that each list at least two maps, the loop completes, writes one z map per row, and creates the directory at most once, first, when it is missing |
| Group.ContrastsShape | Stage2_Code/group_withinsession_permutations.py:76-85 | with rows of three fields that list at least two maps for every contrast, every contrast writes one z map per row, and the directory is created at most once, first |
| Group.AsWrittenStops | Stage2_Code/group_withinsession_permutations.py:78 | as written, the script stops at the first row of the permutations CSV with "not enough values to unpack (expected 4, got 3)" and writes nothing |
| Group.CorrectedCompletes | Stage2_Code/group_withinsession_permutations.py:76-85 | unpacking three fields, and with at least two maps listed for every contrast and permutation, the script fits all 4 contrasts × 8 permutations and writes 32 z maps, after the directory when it is missing |
| Group.OneSubjectStops | Stage2_Code/group_withinsession_permutations.py:35 | with fewer than two maps listed for the first contrast and permutation, the corrected script stops at its first fit with the fit's error, having written at most the directory |
| Group.EightRowsComplete | Stage2_Code/group_withinsession_permutations.py:76-85 | eight rows of three fields that list at least two maps for every contrast complete for all four contrasts, 32 maps in all |
| Group.ListsFixedEffects | Stage2_Code/group_withinsession_permutations.py:82-83 | the Stage 1 effect map of a permutation and contrast is written to `fixDir + "/" + name`, and the file it creates (trailing slashes of `fixDir` read as one) is listed by the group pattern of that permutation and contrast, whatever its subject, when both directories agree |
| Group.ListsFixedEffectsAsSpelled | Stage2_Code/group_withinsession_permutations.py:56 | with the directory both scripts hard-code, `{data_dir}/FixedEffects/`, Stage 1 writes `…/FixedEffects//name` and the group pattern lists the file `…/FixedEffects/name` |
| Group.EffectPathFields | Stage1_Code/runs_withinsession_permutations.py:50-52 | the Stage 1 effect map is named by the same fields the group pattern lists, with the subject in place of `*` |
| Group.FieldsMatch | Stage2_Code/group_withinsession_permutations.py:82 | a pattern whose first field is `*` and whose other fields are literal matches every name that agrees on those fields |
| IccPermutations.SupraBin | Stage2_Code/compute_icc_permutations.py:49 | the supra mask is 1 exactly where the map exceeds 3.1 and 0 exactly where it does not |
| IccPermutations.SubBin | Stage2_Code/compute_icc_permutations.py:54-56 | the sub mask is non-zero only below 3.1, and below 3.1 it equals the brain mask |
| IccPermutations.MasksDisjoint | Stage2_Code/compute_icc_permutations.py:47-59 | the two masks never share a voxel, a value of exactly 3.1 is in neither, and every other brain voxel is in exactly one |
| IccPermutations.Sets | Stage2_Code/compute_icc_permutations.py:62-78 | the two lists, when the checks pass, are equally long; for 'run' they are non-empty and agree pairwise on the compared tokens; 'session' with fewer than two listed entries raises an IndexError; any other type leaves `set1` unbound (NameError) |
| IccPermutations.ThresholdMasks | Stage2_Code/compute_icc_permutations.py:47-59 | the threshold loop does what the passes 'supra' then 'sub' define, stopping at the first exception |
| IccPermutations.PickSets | Stage2_Code/compute_icc_permutations.py:62-78 | the branch on `--type` does what Sets defines |
| IccPermutations.SaveIcc | Stage2_Code/compute_icc_permutations.py:83-85 | the output loop writes exactly the three ICC maps IccSaves defines |
| IccPermutations.RunScript | Stage2_Code/compute_icc_permutations.py:35-85 | the script builds the masks when the mask is missing, then picks the lists, then writes the ICC maps, stopping at the first exception |
| IccPermutations.OutPathsDistinct | Stage2_Code/compute_icc_permutations.py:84 | the est, msbtwn and mswthn maps go to three different files |
| IccPermutations.IccOutputs | Stage2_Code/compute_icc_permutations.py:80-85 | a script that completes passed the list checks, with equally long non-empty lists, and ends by writing the three ICC maps of those lists |
| IccPermutations.EmptySessionsStop | Stage2_Code/compute_icc_permutations.py:71-80 | two sessions that list no maps pass the length check, and then `voxelwise_icc` raises: the script writes no ICC map |
| IccPermutations.MaskPresent | Stage2_Code/compute_icc_permutations.py:35 | when the mask path exists no mask is built: the script is the list choice, then the `voxelwise_icc` error on empty lists or else the ICC maps |
| IccPermutations.AsWrittenSubFails | Stage2_Code/compute_icc_permutations.py:55 | as written, when the mask is missing the 'sub' pass loads that same missing path: the supra mask is written and the script stops with FileNotFoundError |
| IccPermutations.CorrectedMasks | Stage2_Code/compute_icc_permutations.py:47-59 | multiplying by the brain mask the Wilson map was resampled onto, both masks are written, supra then sub |
| IccPermutations.RunTokens | Stage2_Code/compute_icc_permutations.py:68 | splitting a run-level map's path on '_' gives the directory and subject as token 0 and then the name's fields |
| IccPermutations.AsWrittenPairsAnySubjects | Stage2_Code/compute_icc_permutations.py:67-69 | as written, the pairing check passes for the run 01 and run 02 maps of any two subjects with the same session, task, mask and permutation |
| IccPermutations.CorrectedPairsSameSubject | Stage2_Code/compute_icc_permutations.py:67-69 | comparing tokens 0 to 2 instead, the check passes exactly when the two maps are the same subject's |
| IccSubsample.ToInt | Stage2_Code/compute_icc_subsample.py:30-36 | `int(text)` succeeds exactly when the text without surrounding whitespace is an optionally signed decimal numeral, and otherwise raises a ValueError naming the text |
| IccSubsample.CleanIds | Stage2_Code/compute_icc_subsample.py:43 | one id per line of the file, each the line with surrounding whitespace stripped |
| IccSubsample.NRange | Stage2_Code/compute_icc_subsample.py:46-47 | the N values are min_n, min_n + 50, … and are exactly those below max_n + 50 |
| IccSubsample.Paths | Stage2_Code/compute_icc_subsample.py:54-55 | one path per drawn id, in draw order, each that subject's run map |
| IccSubsample.RunN | Stage2_Code/compute_icc_subsample.py:51-68 | one pass of the N loop does what NStep defines, and hands the generator's state on |
| IccSubsample.RunNs | Stage2_Code/compute_icc_subsample.py:50-68 | the N loop does what the N values in order define, stopping at the first exception |
| IccSubsample.RunScript | Stage2_Code/compute_icc_subsample.py:30-68 | the script converts the arguments, reads and strips the subject list, seeds the generator once and runs the N loop |
| IccSubsample.PathTokens | Stage2_Code/compute_icc_subsample.py:54-60 | splitting a subject's path on '_' gives the subject directory and id, session, task and run, the model's own fields, then `stat-beta.nii.gz` |
| IccSubsample.RunsPair | Stage2_Code/compute_icc_subsample.py:59-61 | the run-01 and run-02 paths of one subject always pass the pairing check |
| IccSubsample.NStepSpec | Stage2_Code/compute_icc_subsample.py:51-68 | with a non-empty list, one N passes the checks exactly when N > 0; then N ids are drawn from the list, at most N of them distinct, and the three ICC maps of their run-01 and run-02 paths are written |
| IccSubsample.EmptyIdsStop | Stage2_Code/compute_icc_subsample.py:51-57 | with an empty id list every N stops: an IndexError from `random.choices` when N > 0, and the non-empty assert when N <= 0 draws nothing |
| IccSubsample.DistinctAtMostLength | Stage2_Code/compute_icc_subsample.py:52 | a draw never has more distinct ids than entries |
| IccSubsample.NamesRecordN | Stage2_Code/compute_icc_subsample.py:66-68 | the maps of one N are named `subs-{len(set1)}`, the number of ids drawn |
| Pairing.TokensOfPrefixedJoin | Stage2_Code/compute_icc_subsample.py:60 | splitting `x + join(fields)` on '_' gives x glued to the first field, then the other fields |
| Pairing.TokensAround | Stage2_Code/compute_icc_permutations.py:68 | splitting a join whose middle part may hold '_' gives the outer fields and the middle part's own pieces |
| Upload.SubsSplit | Stage2_Code/upload_neurovault.py:35-36 | a field starting with `subs-` splits at '-' into `subs` and at least one more piece, so `split('-')[1]` exists |
| Upload.Images | Stage2_Code/upload_neurovault.py:27-41 | one image call per line of the list |
| Upload.ImagesAt | Stage2_Code/upload_neurovault.py:27-41 | the i-th image call is the one made for the i-th line |
| Upload.ParseSubs | Stage2_Code/upload_neurovault.py:32-36 | the loop over the fields leaves in `subs` what LastSubs defines |
| Upload.NoSubs | Stage2_Code/upload_neurovault.py:32-36 | `subs` stays None exactly when no field starts with `subs-` |
| Upload.LastSubsAt | Stage2_Code/upload_neurovault.py:34-36 | when field i is the last one starting with `subs-`, `subs` ends as its value |
| Upload.UploadLine | Stage2_Code/upload_neurovault.py:29-41 | the body of the line loop makes the call ImageOf defines |
| Upload.UploadLines | Stage2_Code/upload_neurovault.py:27-41 | the line loop makes the calls Images defines, in line order |
| Upload.RunScript | Stage2_Code/upload_neurovault.py:20-41 | the script reads the token, connects, creates the collection, then opens the list and uploads every line; it fails on a missing token file before any call, and on a missing list file after the collection is made |
| Upload.MissingFiles | Stage2_Code/upload_neurovault.py:20-27 | without the token file no call is made; without the list file the connection and the empty collection are made and no image is added |
| Upload.GroupNameTokens | Stage2_Code/upload_neurovault.py:31 | a group map's file name splits on '_' into its fields, the permutation label into its own four |
| Upload.GroupTokensSubs | Stage2_Code/upload_neurovault.py:32-36 | in a group map's name the only `subs-` field is the first, so `subs` is the map count as text |
| Upload.UploadsGroupMap | Stage2_Code/upload_neurovault.py:29-39 | for a line naming a group map, the image is named `{est_type}: {basename}`, its sample size is the set holding the map count (which reads back as that count), and the path handed over is the raw line as written and the stripped path corrected |
| Upload.NameFree | Stage2_Code/group_withinsession_permutations.py:46-47 | a group map's file name holds no '/' and no newline when its fields hold none |
| Upload.AsWrittenPathKeepsNewline | Stage2_Code/upload_neurovault.py:38 | as written, the path handed to `add_image` is the raw line, newline included, not the path listed |
| Upload.CorrectedPathIsStripped | Stage2_Code/upload_neurovault.py:29-38 | corrected, the path handed over is the stripped line, the path listed |
| Upload.ScriptCalls | Stage2_Code/upload_neurovault.py:20-41 | with both files present the script connects with the stripped token, creates the collection named for the sample, then makes one image call per line; the lines are the whole file |
| Upload.ScriptCallAt | Stage2_Code/upload_neurovault.py:27-41 | the image of line i is call i + 2 |
| Permutations.Row | Stage2_Code/runs_withinrun_permutations.py:110 | the entries of `product` sharing their first two values hold the last axis in order |
| Permutations.ProductLength | Stage2_Code/runs_withinrun_permutations.py:110 | `product` of three axes has one entry per combination |
| Permutations.ProductIndex | Stage2_Code/runs_withinrun_permutations.py:110 | combination (i, j, k) sits at position (i·ny + j)·nz + k: the first axis varies slowest and the last fastest |
| Permutations.PositionArith | Stage2_Code/runs_withinrun_permutations.py:110 | the position used above is (i·ny + j)·nz + k |
| Permutations.ProductMembers | Stage2_Code/runs_withinrun_permutations.py:110 | every entry of the product takes each value from its own axis |
| Permutations.CsvLines | Stage1_Code/firstlevel_model_permutations.py:18-19 | `to_csv` writes one header line and one line per permutation |
| Permutations.NonBlank | Stage1_Code/firstlevel_model_permutations.py:39-40 | `read_csv` keeps only non-empty lines, each one of the file's lines |
| Permutations.PermutationsRoundTrip | Stage1_Code/firstlevel_model_permutations.py:18-40 | writing the permutations with `to_csv` and reading them back with `header=None, index_col=0` and `[1:]` gives one row per permutation, the fwhm as decimal text and motion and model unchanged, in order |
| Permutations.DataRowRead | Stage1_Code/firstlevel_model_permutations.py:39-40 | data line i + 1, its index column dropped, holds permutation i |
| Permutations.CsvLinesRead | Stage1_Code/firstlevel_model_permutations.py:39-40 | reading the file back finds exactly the lines written |
| Permutations.RowOf | Stage1_Code/firstlevel_model_permutations.py:39-59 | row k read back unpacks into three fields, the fwhm as text that `int()` turns back into the number |
| Permutations.CsvLineFields | Stage1_Code/firstlevel_model_permutations.py:18-19 | every written line is non-blank, holds no newline, and past its index holds the column names (line 0) or its permutation |
| Permutations.HeaderLine | Stage1_Code/firstlevel_model_permutations.py:18-19 | the header line, its empty index name dropped, holds fwhm, motion and mod_type |
| Permutations.DataLine | Stage1_Code/firstlevel_model_permutations.py:18-19 | a data line, its index dropped, holds the permutation's fields |
| Permutations.Unpack3 | Stage1_Code/firstlevel_model_permutations.py:59 | unpacking into three names succeeds exactly for rows of three fields, keeps them in order, and otherwise raises the unpacking ValueError with the counts |
| Permutations.Unpack4 | Stage2_Code/group_withinsession_permutations.py:78 | unpacking into four names succeeds exactly for rows of four fields, keeps them in order, and otherwise raises the unpacking ValueError with the counts |
| Glob.FilterSpec | Stage2_Code/runs_withinsession_permutations.py:32-33 | `glob` lists exactly the existing paths the pattern matches |
| Glob.SortedGlobSpec | Stage2_Code/runs_withinsession_permutations.py:32-36 | `sorted(glob(pattern))` holds exactly the matching existing paths, in ascending order, each once |
| Glob.FnMatchLiteral | Stage2_Code/runs_withinrun_permutations.py:138-140 | a name pattern without `*` matches exactly its own text |
| Glob.FnMatchLiteralHead | Stage2_Code/group_withinsession_permutations.py:82-83 | a literal start of a pattern must start the name, and the rest of the pattern must match the rest of the name |
| Glob.FnMatchStar | Stage2_Code/group_withinsession_permutations.py:82 | `*` followed by a pattern matches any text ending in a match of that pattern |
| Glob.FnMatchConcat | Stage2_Code/runs_withinsession_permutations.py:32-33 | a pattern made of two parts matches a name made of two parts each part matches |
| Glob.FnMatchOneStar | Stage2_Code/runs_withinsession_permutations.py:32-33 | `run-*` between two literals matches whatever stands between them |
| Glob.FnMatchFields | Stage2_Code/runs_withinsession_permutations.py:32-36 | a '_'-joined pattern matches a '_'-joined name when every field matches its field |
| Glob.GlobMatchJoin | Stage2_Code/compute_icc_permutations.py:63-64 | `dir/name` is listed by `dirpattern/namepattern` when the directory pattern lists dir and the name pattern matches name |
| Glob.GlobMatchLiteral | Stage2_Code/runs_withinrun_permutations.py:138-140 | a path pattern without `*` lists exactly the path it spells |
| Glob.GlobMatchLast | Stage2_Code/group_withinsession_permutations.py:82-83 | a path listed by `dirpattern/namepattern` has a base name the name pattern matches |
| Glob.LastComponentIsBasename | Stage2_Code/upload_neurovault.py:30 | the last '/'-component of a path is its `os.path.basename` |
| Glob.BasenameAfterSlash | Stage2_Code/upload_neurovault.py:30 | the base name of `dir/name` is name when name holds no '/' |
| Glob.TrimSlashes | Stage2_Code/compute_icc_permutations.py:36 | trailing slashes are removed and nothing else: the result is a prefix followed only by '/' and does not end in '/' |
| Glob.PatternHeadOf | Stage2_Code/runs_withinsession_permutations.py:32-33 | a directory written without a trailing slash and then followed by slashes is listed as itself |
| Glob.DirnameOf | Stage2_Code/compute_icc_permutations.py:36 | `os.path.dirname` of `d/name` is d as `os.path.split` spells it |
| Text.NatToStringRoundTrip | Stage2_Code/compute_icc_subsample.py:66-68 | `int(str(n)) == n`: a count printed into a file name reads back as that count |
| Text.NatToStringInjective | Stage2_Code/compute_icc_subsample.py:66-68 | different counts print as different texts, so names built from them differ |
| Text.IntToStringChars | Stage2_Code/compute_icc_subsample.py:66-68 | `str(i)` holds only digits and a minus sign |
| Text.IntToStringRoundTrip | Stage2_Code/compute_icc_subsample.py:30-36 | `int(str(i)) == i` for every integer, negative ones included |
| Text.SplitJoin | Stage2_Code/compute_icc_subsample.py:60 | splitting a '_'-joined name returns its fields, when no field holds '_' |
| Text.JoinSplit | Stage2_Code/upload_neurovault.py:31 | joining the fields of a split with the same separator gives the text back |
| Text.JoinInjective | Stage2_Code/compute_icc_permutations.py:83-85 | two '_'-joined names are equal only when their fields are |
| Text.StripSpec | Stage2_Code/upload_neurovault.py:29 | `strip()` removes whitespace from both ends only: the result is an inner slice with no whitespace at either end |
| Text.RemoveCharSpec | Stage2_Code/upload_neurovault.py:29 | `replace('\n', '')` leaves no newline, keeps every other character and changes no text without one |
| Text.BasenameSpec | Stage2_Code/upload_neurovault.py:30 | the base name holds no '/', ends the path, and is the whole path or follows its last '/' |
| Text.LessTotal | Stage2_Code/runs_withinsession_permutations.py:32-36 | any two strings are equal or ordered one way |
| Text.LessAsymmetric | Stage2_Code/runs_withinsession_permutations.py:32-36 | string order never holds both ways |
| Text.LessTransitive | Stage2_Code/runs_withinsession_permutations.py:32-36 | string order is transitive |
| Text.InsertSpec | Stage2_Code/runs_withinsession_permutations.py:32-36 | inserting into a sorted list keeps it sorted and adds exactly that element |
| Text.SortSpec | Stage2_Code/runs_withinsession_permutations.py:32-36 | `sorted()` returns a non-decreasing permutation of its input |
| Text.SortedUnique | Stage2_Code/compute_icc_permutations.py:63-64 | two sorted lists with the same elements are the same list, so the sorted listing does not depend on listing order |
| Text.ReadLines | Stage2_Code/compute_icc_subsample.py:39-41 | `readlines()` of an empty file is empty and of any other file is not |
| Text.ReadLinesSpec | Stage2_Code/compute_icc_subsample.py:39-41 | the lines put back together are the file, every line is non-empty, holds '\n' only at its end, and only the last may lack it |
| Text.StripLine | Stage2_Code/compute_icc_subsample.py:43 | a line holding a path with no surrounding whitespace strips to that path |

## Left out

- Library numerics: the model never computes HRF convolution, GLM fits, contrasts, efficiencies (`eff_estimator`), fixed effects, group models, smoothing, binarisation or ICC values. Each is a symbolic `Effects.Img` term that records the call's arguments, because these are foreign calls on floating-point voxel arrays.
- `smooth_estimate`, Stage1_Code/susan_smooth.py, Stage2_Code/extract_values.py and Stage2_Code/test.py are not part of this model: they are FSL/nipype wrappers, JSON I/O with float means, and a thin pyrelimri wrapper.
- Command-line parsing is not modelled. Each script receives its arguments as an `Args` value. IccSubsample keeps `--min_n`, `--max_n` and `--seed` as text and converts them with `ToInt`, failures included.
- Stage2WithinRun.Args: `numvols` and `boldtr` arrive already converted (`int`, `real`), so the ValueError that `int(...)` or `float(...)` raises on non-numeric text is not modelled.
- Stage2Single.Args: `numvols`, `boldtr` and `fwhm` arrive already converted, so that ValueError is not modelled either. The printed `fwhmText` used in the output names is a separate field, tied to `fwhm` only for integral values (`PrintsIntegral`, "4.0" for 4), because Python's shortest float repr is not modelled.
- Floating point: timings (TR, durations, frame times) are `real`, so the rounding of the one addition (CUE_DURATION + FIXATION_DURATION) and the one multiplication (frame times) in Python floats is not modelled; the model's sums and products are exact.
- Reading NIfTI, TSV and CSV files is not modelled at byte level. Events and confounds come parsed in `Disk`, and the permutation CSV is text split at '\n' and ','. CSV quoting is not modelled because no field holds a comma or a quote.
- Text.ParseInt: Python's `int()` also accepts '_' between digits and non-ASCII digits; the model accepts neither.
- Text.Strip: only ASCII whitespace is stripped, not the other Unicode whitespace that `str.strip()` removes.
- Glob matching knows only `*`. `?`, `[...]`, hidden-file rules and repeated '/' inside a pattern are not modelled, because the scripts use none of them. `**` is matched as `*` (one directory level), as `glob` does without `recursive=True`.
- Paths are compared as text and are not normalised: the file system's reading of "//" as one '/' is applied only where Group.ListsFixedEffects relates a path Stage 1 writes to the file the group glob lists.
- Files a script writes are not added to the `Disk` that its later globs read. The scripts never glob their own outputs.
- `os.listdir()` order is an input (`listing`), because it depends on the file system.
- IccSubsample.RunScript: `random.choices` is a parameter that obeys its contract (k draws, each from the list, none when k <= 0, and an IndexError on an empty list with k > 0) and threads a generator state. Its distribution is not modelled.
- Upload.RunScript: the NeuroVault client is modelled as the list of calls made (`Connect`, `CreateCollection`, `AddImage` with the name, path and `{subs}`). The constant metadata fields, the returned ids and network failures are not modelled.
- The network fetch of the Wilson map (`fetch_neurovault_ids`) in Stage2_Code/compute_icc_permutations.py is not modelled: the model assumes it succeeds. The resampling is modelled only as the read of the brain mask, which fails when that file is missing.
- `print` statements, timing and log output are not modelled.
- Stage2Single.FitRun: `pull_regressors(..., sample=sample)` at Stage2_Code/runs_withinrun_single.py:140 passes a keyword that the Stage 2 `pull_regressors` accepts and ignores, and the model ignores it too.
- IccPermutations.RunScript: `--mask` is always a string. When the option is omitted, `os.path.exists(None)` raises a TypeError, and that case is not modelled.
- Exceptions raised inside library calls are modelled only where the scripts' own inputs decide them, each as `LibraryError`: `compute_fixed_effects` on an empty or unequal pair of listings, `SecondLevelModel.fit` on fewer than two maps, `voxelwise_icc` on empty lists, and `eff_estimator` on a contrast matrix wider than the design. The other library failures (a malformed or missing image, a singular design, images of different shapes) are not modelled. The other failures modelled are the ones the scripts' own code raises and these missing files: the events and confounds files (FileNotFound, ConfoundsNotFound), BOLD and mask images found by `glob(...)[0]` (EmptyGlob), the brain masks IccPermutations loads, and the id list, token and image list that IccSubsample and Upload read.
- Stage1WithinRun.RunScript, Stage1FirstLevel.RunScript, Stage1Old.RunScript, Stage1Fixed.RunScript: `subjects.csv` arrives already read, as the `subjects` list, so a missing file (FileNotFoundError) or a missing `Subjects` column (KeyError) is not modelled. Where that read would fail differs: in Stage1_Code/firstlevel_model_permutations.py:37 it comes after the permutation CSV is written and the output directory is made; in Stage1_Code/runs_withinsession_permutations.py:76 it comes before the CSV is written.
- Group.RunScript: `model_permutations.csv` arrives as its text (`csv`), so a missing file is not modelled; the unused `subjects.csv` read at Stage2_Code/group_withinsession_permutations.py:62 is not modelled either, nor its FileNotFoundError or KeyError.
- Names are proved distinct or matching only when their fields hold no '_' (and no '/' or '*' where a glob is involved). Python does not forbid such characters in subject, session or task labels, so these properties carry that assumption explicitly.

## Findings

| source | as written | input that shows it | evidently intended | confidence | as-written member | corrected member |
|---|---|---|---|---|---|---|
| Stage2_Code/runs_withinsession_permutations.py:32-36 | the input patterns put the bare session after the subject (`{subject}_{session}_task-...`) | session `1`, subject `sub-01`: the run-level maps are `sub-01_ses-1_task-...`, and the pattern `sub-01_1_task-...` lists none of them, so the first `compute_fixed_effects` call raises before any output | `{subject}_ses-{session}_task-...`, as the output names at lines 50-61 and the run-level script spell it | not executed; a caller could pass `ses-1` as the session, but then the outputs would read `ses-ses-1` | Stage2Fixed.AsWrittenWritesNothing | Stage2Fixed.CorrectedListsRuns |
| Stage2_Code/compute_icc_permutations.py:67-68 | the pairing check compares '_'-tokens `[1:3]` and `[5:]` | run-01 map of `sub-01` and run-02 map of `sub-02`, same session, task, mask and permutation: the check passes | compare tokens `[0:3]`, as Stage2_Code/compute_icc_subsample.py:60 does, so the subject is checked | not executed | IccPermutations.AsWrittenPairsAnySubjects | IccPermutations.CorrectedPairsSameSubject |
| Stage2_Code/compute_icc_permutations.py:55 | the 'sub' pass multiplies by `load_img(mask)`, the path whose absence started the block | any absent mask path other than the supra file: the supra mask is written, then loading `mask` raises FileNotFoundError | multiply by the brain mask the Wilson map was resampled onto | not executed | IccPermutations.AsWrittenSubFails | IccPermutations.CorrectedMasks |
| Stage2_Code/group_withinsession_permutations.py:78 | each permutation row is unpacked into four names | the three-column permutation file Stage 1 writes: the first row raises ValueError (not enough values to unpack) before any output | unpack the three fields fwhm, motion, model | not executed | Group.AsWrittenStops | Group.CorrectedCompletes |
| Stage2_Code/upload_neurovault.py:38 | `add_image` receives `img_path`, the raw line with its newline | any line `p\n` of the list: the path handed over is `p\n`, while the name is computed from the stripped `p` | pass `clean_path` | not executed; depends on the client opening the path as given | Upload.AsWrittenPathKeepsNewline | Upload.CorrectedPathIsStripped |
