/** Tables the first-level scripts share: column renames for the ABCD and MLS
    samples, the model-variant table, the contrasts and their weights, and the
    contrast matrix built over a design's columns. */
module FirstLevel {
  import opened Text
  import opened Errors
  import opened Design
  import opened Effects

  // ------------------------------------------------------------ renames

  /** A Python dict literal of strings, in insertion order. */
  type Dict = seq<(string, string)>

  const AbcdColumns: Dict :=
    [("Cue.OnsetTime", "CUE_ONSET"), ("Cue.Duration", "CUE_DURATION"),
     ("Anticipation.OnsetTime", "FIXATION_ONSET"), ("Anticipation.Duration", "FIXATION_DURATION"),
     ("Feedback.OnsetTime", "FEEDBACK_ONSET"), ("FeedbackDuration", "FEEDBACK_DURATION"),
     ("Condition", "TRIAL_TYPE"), ("Result", "TRIAL_RESULT")]

  const MlsColumns: Dict :=
    [("Cue.OnsetTime", "CUE_ONSET"), ("Cue.Duration", "CUE_DURATION"),
     ("Fix.OnsetTime", "FIXATION_ONSET"), ("Fix.Duration", "FIXATION_DURATION"),
     ("Feedback.OnsetTime", "FEEDBACK_ONSET"), ("Feedback.Duration", "FEEDBACK_DURATION"),
     ("Condition", "TRIAL_TYPE"), ("Result", "TRIAL_RESULT")]

  const CueTypes: Dict :=
    [("LgReward", "LargeGain"), ("LgPun", "LargeLoss"), ("Triangle", "NoMoneyStake"),
     ("SmallReward", "SmallGain"), ("SmallPun", "SmallLoss")]

  predicate HasKey(d: Dict, k: string)
  {
    exists i :: 0 <= i < |d| && d[i].0 == k
  }

  /** `d.get(k, k)`: the mapped value of a key, anything else unchanged. */
  function Translate(d: Dict, k: string): (r: string)
    ensures !HasKey(d, k) ==> r == k
    ensures HasKey(d, k) ==> exists i :: 0 <= i < |d| && d[i] == (k, r)
  {
    if |d| == 0 then k
    else if d[0].0 == k then d[0].1
    else
      var r := Translate(d[1..], k);
      assert forall i :: 1 <= i < |d| ==> d[i] == d[1..][i - 1];
      r
  }

  /** `df.rename(columns=d)`: every column label that is a key is replaced. */
  function RenameColumns(t: Table, d: Dict): (r: Table)
    ensures r.rows == t.rows && |r.columns| == |t.columns|
    ensures forall i :: 0 <= i < |t.columns| ==> r.columns[i].cells == t.columns[i].cells
    ensures t.WellFormed() ==> r.WellFormed()
  {
    Table(seq(|t.columns|, i requires 0 <= i < |t.columns| =>
      Column(Translate(d, t.columns[i].name), t.columns[i].cells)), t.rows)
  }

  /** `series.replace(d)` on one cell: a text cell equal to a key takes its value. */
  function ReplaceCell(d: Dict, c: Cell): Cell
  {
    if c.Label? then Label(Translate(d, c.text)) else c
  }

  /** The ABCD/MLS harmonisation: rename the columns, then replace the cue
      synonyms in TRIAL_TYPE (a KeyError when no column is named TRIAL_TYPE). */
  function Harmonize(t: Table, columns: Dict): (r: Result<Table>)
    requires t.WellFormed()
    ensures r.Ok? ==> r.value.WellFormed() && r.value.rows == t.rows
    ensures r.Err? <==> Get(RenameColumns(t, columns), "TRIAL_TYPE").Err?
  {
    var renamed := RenameColumns(t, columns);
    var tt := Get(renamed, "TRIAL_TYPE");
    if tt.Err? then Err(tt.error)
    else
      var cells := seq(|tt.value|, i requires 0 <= i < |tt.value| => ReplaceCell(CueTypes, tt.value[i]));
      SetWellFormed(renamed, "TRIAL_TYPE", cells);
      Ok(Table(SetColumn(renamed.columns, "TRIAL_TYPE", cells), t.rows))
  }

  /** After harmonising, TRIAL_TYPE holds the renamed column's cells with every
      cue synonym replaced, no cue synonym is left in it, and every other column
      reads as after the rename alone. */
  lemma HarmonizeSpec(t: Table, columns: Dict, other: string)
    requires t.WellFormed() && other != "TRIAL_TYPE"
    requires Harmonize(t, columns).Ok?
    ensures var renamed := RenameColumns(t, columns);
            var before := Get(renamed, "TRIAL_TYPE").value;
            var after := Lookup(Harmonize(t, columns).value.columns, "TRIAL_TYPE");
            after.Ok? && |after.value| == |before| &&
            (forall i :: 0 <= i < |before| ==> after.value[i] == ReplaceCell(CueTypes, before[i])) &&
            (forall i :: 0 <= i < |before| ==> !(after.value[i].Label? && HasKey(CueTypes, after.value[i].text)))
    ensures Lookup(Harmonize(t, columns).value.columns, other) == Lookup(RenameColumns(t, columns).columns, other)
  {
    var renamed := RenameColumns(t, columns);
    var before := Get(renamed, "TRIAL_TYPE").value;
    var cells := seq(|before|, i requires 0 <= i < |before| => ReplaceCell(CueTypes, before[i]));
    SetThenLookup(renamed.columns, "TRIAL_TYPE", cells);
    SetKeepsOthers(renamed.columns, "TRIAL_TYPE", cells, other);
    forall i | 0 <= i < |before| ensures !(cells[i].Label? && HasKey(CueTypes, cells[i].text)) {
      if cells[i].Label? {
        CueTypesNotKeys(cells[i].text, before[i]);
      }
    }
  }

  /** No value of the cue table is itself a key, so the replacement is final. */
  lemma CueTypesNotKeys(s: string, c: Cell)
    requires ReplaceCell(CueTypes, c) == Label(s)
    ensures !HasKey(CueTypes, s)
  {
    var k := c.text;
    if HasKey(CueTypes, k) {
      var i :| 0 <= i < |CueTypes| && CueTypes[i] == (k, s);
      ValueNotKey(i);
    } else {
      assert s == k;
    }
  }

  lemma ValueNotKey(i: nat)
    requires i < |CueTypes|
    ensures !HasKey(CueTypes, CueTypes[i].1)
  {
    var values := ["LargeGain", "LargeLoss", "NoMoneyStake", "SmallGain", "SmallLoss"];
    assert CueTypes[i].1 == values[i];
    forall j | 0 <= j < |CueTypes| ensures CueTypes[j].0 != values[i] {
      assert CueTypes[j].0 in ["LgReward", "LgPun", "Triangle", "SmallReward", "SmallPun"];
    }
  }

  // ------------------------------------------------------------ model variants

  /** `model_types[name]`: the (onset, duration) columns of a model variant. */
  function ModelType(name: string): (r: Result<(string, string)>)
    ensures r.Err? <==> name !in {"AntMod", "FixMod", "CueMod"}
    ensures r.Err? ==> r.error == UnknownKey(name)
  {
    if name == "AntMod" then Ok(("CUE_ONSET", "ANTICIPATION_DURATION"))
    else if name == "FixMod" then Ok(("FIXATION_ONSET", "FIXATION_DURATION"))
    else if name == "CueMod" then Ok(("CUE_ONSET", "CUE_DURATION"))
    else Err(UnknownKey(name))
  }

  /** Each variant models the anticipation period with its own onset/duration pair. */
  lemma ModelTypeTable()
    ensures ModelType("AntMod") == Ok(("CUE_ONSET", "ANTICIPATION_DURATION"))
    ensures ModelType("FixMod") == Ok(("FIXATION_ONSET", "FIXATION_DURATION"))
    ensures ModelType("CueMod") == Ok(("CUE_ONSET", "CUE_DURATION"))
  {
  }

  // ------------------------------------------------------------ contrasts

  /** `contrasts`: file label and nilearn contrast expression, in order. */
  const Contrasts: seq<(string, string)> :=
    [("Lgain-Neut", "LargeGain - NoMoneyStake"), ("Sgain-Neut", "SmallGain - NoMoneyStake"),
     ("Lgain-Base", "LargeGain"), ("Sgain-Base", "SmallGain")]

  /** `contrast_weights`: per contrast, the weights of the conditions it names. */
  const ContrastWeights: seq<(string, seq<(string, int)>)> :=
    [("Lgain-Neut", [("LargeGain", 1), ("NoMoneyStake", -1)]),
     ("Sgain-Neut", [("SmallGain", 1), ("NoMoneyStake", -1)]),
     ("Lgain-Base", [("LargeGain", 1)]),
     ("Sgain-Base", [("SmallGain", 1)])]

  /** The weight a row gives a column: the listed weight, else 0 (`fillna(0)`). */
  function WeightOf(w: seq<(string, int)>, c: string): int
  {
    if |w| == 0 then 0 else if w[0].0 == c then w[0].1 else WeightOf(w[1..], c)
  }

  /** The keys of one weight row not yet among the columns, in row order. */
  function NewKeys(cols: seq<string>, w: seq<(string, int)>): (r: seq<string>)
    ensures forall c :: c in cols + r <==> c in cols || exists j :: 0 <= j < |w| && w[j].0 == c
    ensures forall k :: 0 <= k < |r| ==> r[k] !in cols
    ensures forall i, j :: 0 <= i < j < |r| ==> r[i] != r[j]
    decreases |w|
  {
    if |w| == 0 then []
    else
      var next := if w[0].0 in cols then cols else cols + [w[0].0];
      var rest := NewKeys(next, w[1..]);
      NewKeysStep(cols, w, next, rest);
      if w[0].0 in cols then rest else [w[0].0] + rest
  }

  /** The first row's key joins the columns unless it is there already. */
  lemma NewKeysStep(cols: seq<string>, w: seq<(string, int)>, next: seq<string>, rest: seq<string>)
    requires |w| > 0 && next == if w[0].0 in cols then cols else cols + [w[0].0]
    requires forall c :: c in next + rest <==> c in next || exists j :: 0 <= j < |w[1..]| && w[1..][j].0 == c
    ensures var r := if w[0].0 in cols then rest else [w[0].0] + rest;
            forall c :: c in cols + r <==> c in cols || exists j :: 0 <= j < |w| && w[j].0 == c
  {
    var r := if w[0].0 in cols then rest else [w[0].0] + rest;
    assert cols + r == next + rest;
    forall c ensures c in cols + r <==> c in cols || exists j :: 0 <= j < |w| && w[j].0 == c {
      if exists j :: 0 <= j < |w[1..]| && w[1..][j].0 == c {
        var j :| 0 <= j < |w[1..]| && w[1..][j].0 == c;
        assert w[j + 1].0 == c;
      }
      if exists j :: 1 <= j < |w| && w[j].0 == c {
        var j :| 1 <= j < |w| && w[j].0 == c;
        assert w[1..][j - 1].0 == c;
      }
    }
  }

  /** The columns after appending every weight row to a frame with the design
      columns: the design columns, then each new key where it first appears. */
  function MatrixColumns(cols: seq<string>, weights: seq<(string, seq<(string, int)>)>): seq<string>
    decreases |weights|
  {
    if |weights| == 0 then cols else MatrixColumns(cols + NewKeys(cols, weights[0].1), weights[1..])
  }

  /** The zero-filled contrast matrix: one row per contrast, in order, with the
      listed weight in each listed column and 0 elsewhere. */
  function ContrastMatrixOf(designCols: seq<string>, weights: seq<(string, seq<(string, int)>)>): ContrastMatrix
  {
    var cols := MatrixColumns(designCols, weights);
    ContrastMatrix(cols, seq(|weights|, i requires 0 <= i < |weights| =>
      (weights[i].0, seq(|cols|, c requires 0 <= c < |cols| => WeightOf(weights[i].1, cols[c])))))
  }

  /** The matrix's columns start with the design's columns and hold every
      weighted condition, and nothing else. */
  lemma {:induction false} MatrixColumnsSpec(cols: seq<string>, weights: seq<(string, seq<(string, int)>)>)
    ensures |MatrixColumns(cols, weights)| >= |cols| && MatrixColumns(cols, weights)[..|cols|] == cols
    ensures forall c :: c in MatrixColumns(cols, weights) <==>
      c in cols || exists i, j :: 0 <= i < |weights| && 0 <= j < |weights[i].1| && weights[i].1[j].0 == c
    decreases |weights|
  {
    if |weights| > 0 {
      var next := cols + NewKeys(cols, weights[0].1);
      MatrixColumnsSpec(next, weights[1..]);
      assert next[..|cols|] == cols;
      var m := MatrixColumns(cols, weights);
      assert m[..|cols|] == m[..|next|][..|cols|];
      forall c ensures c in m <==> (c in cols ||
        exists i, j :: 0 <= i < |weights| && 0 <= j < |weights[i].1| && weights[i].1[j].0 == c)
      {
        if exists i, j :: 1 <= i < |weights| && 0 <= j < |weights[i].1| && weights[i].1[j].0 == c {
          var i, j :| 1 <= i < |weights| && 0 <= j < |weights[i].1| && weights[i].1[j].0 == c;
          assert weights[1..][i - 1] == weights[i];
        }
        if exists i, j :: 0 <= i < |weights| - 1 && 0 <= j < |weights[1..][i].1| && weights[1..][i].1[j].0 == c {
          var i, j :| 0 <= i < |weights| - 1 && 0 <= j < |weights[1..][i].1| && weights[1..][i].1[j].0 == c;
          assert weights[i + 1] == weights[1..][i];
        }
      }
    }
  }

  /** A cell of the matrix before `fillna(0)`: the listed weight, or NaN. */
  function Pending(w: seq<(string, int)>, c: string): Option<int>
  {
    if Listed(w, c) then Some(WeightOf(w, c)) else None
  }

  /** Whether a weight row lists a column. */
  predicate Listed(w: seq<(string, int)>, c: string)
  {
    exists j :: 0 <= j < |w| && w[j].0 == c
  }

  /** The frame after appending the first `i` weight rows: their names in
      order, one cell per column, each the listed weight or NaN, and every
      listed key already a column. */
  ghost predicate Appended(weights: seq<(string, seq<(string, int)>)>, i: nat,
                           cols: seq<string>, rows: seq<(string, seq<Option<int>>)>)
  {
    i <= |weights| && |rows| == i &&
    (forall r, j :: 0 <= r < i && 0 <= j < |weights[r].1| ==> weights[r].1[j].0 in cols) &&
    (forall r :: 0 <= r < i ==> rows[r].0 == weights[r].0 && |rows[r].1| == |cols|) &&
    (forall r, c :: 0 <= r < i && 0 <= c < |cols| ==> rows[r].1[c] == Pending(weights[r].1, cols[c]))
  }

  /** One `append`: the new keys become columns, earlier rows are padded with
      NaN and the new row holds the listed weights. */
  function Append(cols: seq<string>, rows: seq<(string, seq<Option<int>>)>, name: string,
                  w: seq<(string, int)>): (seq<string>, seq<(string, seq<Option<int>>)>)
  {
    var added := NewKeys(cols, w);
    var newCols := cols + added;
    (newCols,
     seq(|rows|, r requires 0 <= r < |rows| => (rows[r].0, rows[r].1 + seq(|added|, _ => None))) +
     [(name, seq(|newCols|, c requires 0 <= c < |newCols| => Pending(w, newCols[c])))])
  }

  lemma AppendKeeps(weights: seq<(string, seq<(string, int)>)>, i: nat,
                    cols: seq<string>, rows: seq<(string, seq<Option<int>>)>)
    requires i < |weights| && Appended(weights, i, cols, rows)
    ensures var (cols', rows') := Append(cols, rows, weights[i].0, weights[i].1);
            Appended(weights, i + 1, cols', rows') &&
            cols' == cols + NewKeys(cols, weights[i].1)
  {
    var added := NewKeys(cols, weights[i].1);
    var (cols', rows') := Append(cols, rows, weights[i].0, weights[i].1);
    forall r, c | 0 <= r < i && |cols| <= c < |cols'|
      ensures rows'[r].1[c] == Pending(weights[r].1, cols'[c])
    {
      var k := added[c - |cols|];
      assert k !in cols;
      assert !Listed(weights[r].1, k);
    }
    forall r, j | 0 <= r < i + 1 && 0 <= j < |weights[r].1| ensures weights[r].1[j].0 in cols' {
      if r == i {
        var k := weights[r].1[j].0;
        assert k in cols + added;
      }
    }
  }

  /** `fillna(0)`. */
  function FillNa(cols: seq<string>, rows: seq<(string, seq<Option<int>>)>): ContrastMatrix
  {
    ContrastMatrix(cols, seq(|rows|, r requires 0 <= r < |rows| =>
      (rows[r].0, seq(|cols|, c requires 0 <= c < |cols| =>
        if c < |rows[r].1| && rows[r].1[c].Some? then rows[r].1[c].value else 0))))
  }

  lemma FillAppended(weights: seq<(string, seq<(string, int)>)>, cols: seq<string>,
                     rows: seq<(string, seq<Option<int>>)>)
    requires Appended(weights, |weights|, cols, rows)
    ensures FillNa(cols, rows).rows == ContrastMatrix(cols, seq(|weights|, i requires 0 <= i < |weights| =>
      (weights[i].0, seq(|cols|, c requires 0 <= c < |cols| => WeightOf(weights[i].1, cols[c]))))).rows
  {
    var want := ContrastMatrix(cols, seq(|weights|, i requires 0 <= i < |weights| =>
      (weights[i].0, seq(|cols|, c requires 0 <= c < |cols| => WeightOf(weights[i].1, cols[c]))))).rows;
    var got := FillNa(cols, rows).rows;
    forall r | 0 <= r < |rows| ensures got[r] == want[r] {
      forall c | 0 <= c < |cols| ensures got[r].1[c] == want[r].1[c] {
        UnlistedIsZero(weights[r].1, cols[c]);
      }
      assert |got[r].1| == |want[r].1| == |cols|;
      assert got[r].1 == want[r].1;
      assert got[r].0 == rows[r].0 == weights[r].0 == want[r].0;
    }
  }

  /** `con_matrix.append(pd.Series(weights, name=name))` in a loop over the
      contrasts, then `fillna(0)`. */
  method BuildContrastMatrix(designCols: seq<string>, weights: seq<(string, seq<(string, int)>)>)
    returns (m: ContrastMatrix)
    ensures m == ContrastMatrixOf(designCols, weights)
  {
    var cols := designCols;
    var rows: seq<(string, seq<Option<int>>)> := [];
    var i := 0;
    while i < |weights|
      invariant i <= |weights|
      invariant MatrixColumns(cols, weights[i..]) == MatrixColumns(designCols, weights)
      invariant Appended(weights, i, cols, rows)
    {
      AppendKeeps(weights, i, cols, rows);
      assert weights[i..][1..] == weights[i + 1..];
      cols, rows := Append(cols, rows, weights[i].0, weights[i].1).0, Append(cols, rows, weights[i].0, weights[i].1).1;
      i := i + 1;
    }
    assert weights[i..] == [];
    FillAppended(weights, cols, rows);
    m := FillNa(cols, rows);
  }

  lemma {:induction false} UnlistedIsZero(w: seq<(string, int)>, c: string)
    ensures !Listed(w, c) ==> WeightOf(w, c) == 0
  {
    if |w| > 0 && w[0].0 != c {
      UnlistedIsZero(w[1..], c);
      if Listed(w[1..], c) {
        var j :| 0 <= j < |w[1..]| && w[1..][j].0 == c;
        assert w[j + 1].0 == c;
      }
    }
  }

  lemma {:induction false} NewKeysNone(cols: seq<string>, w: seq<(string, int)>)
    requires forall j :: 0 <= j < |w| ==> w[j].0 in cols
    ensures NewKeys(cols, w) == []
  {
    if |w| > 0 {
      NewKeysNone(cols, w[1..]);
    }
  }

  /** The contrast matrix is exactly as wide as the design precisely when the
      design has a column for every weighted condition; otherwise pandas adds
      the missing conditions as extra columns. */
  lemma {:induction false} MatrixWidth(designCols: seq<string>, weights: seq<(string, seq<(string, int)>)>)
    ensures MatrixColumns(designCols, weights) == designCols <==>
      forall i, j :: 0 <= i < |weights| && 0 <= j < |weights[i].1| ==> weights[i].1[j].0 in designCols
    decreases |weights|
  {
    MatrixColumnsSpec(designCols, weights);
    if forall i, j :: 0 <= i < |weights| && 0 <= j < |weights[i].1| ==> weights[i].1[j].0 in designCols {
      if |weights| > 0 {
        NewKeysNone(designCols, weights[0].1);
        assert designCols + [] == designCols;
        forall i, j | 0 <= i < |weights| - 1 && 0 <= j < |weights[1..][i].1|
          ensures weights[1..][i].1[j].0 in designCols
        {
          assert weights[1..][i] == weights[i + 1];
        }
        MatrixWidth(designCols, weights[1..]);
      }
    }
  }
}
