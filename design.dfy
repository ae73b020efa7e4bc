/** The part of `create_design_mid` the pipeline computes itself: the derived
    ANTICIPATION_DURATION column written into the caller's events table, the
    2n-row (trial_type, onset, duration) event table, and the frame times.
    The design matrix nilearn builds from them is kept as a request record. */
module Design {
  import opened Text
  import opened Errors
  import opened Regressors

  /** One cell of an events .tsv: text, a number, or an empty (NaN) cell. */
  datatype Cell = Label(text: string) | Value(x: real) | Blank

  /** A named column of an events table. */
  datatype Column = Column(name: string, cells: seq<Cell>)

  /** A table as `read_csv` returns it: columns in file order, all `rows` long. */
  datatype Table = Table(columns: seq<Column>, rows: nat)
  {
    predicate WellFormed()
    {
      forall i :: 0 <= i < |columns| ==> |columns[i].cells| == rows
    }
  }

  /** One row of the event table handed to nilearn. */
  datatype EventRow = EventRow(trialType: Cell, onset: Cell, duration: Cell)

  /** What `make_first_level_design_matrix` is asked to build: frame times,
      events, the HRF model and the nuisance frame passed as `add_regs`;
      `drift_model` is always None. */
  datatype DesignRequest = DesignRequest(frameTimes: seq<real>, events: seq<EventRow>,
                                         hrf: string, regressors: Frame)

  /** `df[name]`: the first column with that name, or a KeyError. */
  function Lookup(cols: seq<Column>, name: string): (r: Result<seq<Cell>>)
    ensures r.Err? <==> forall i :: 0 <= i < |cols| ==> cols[i].name != name
    ensures r.Err? ==> r.error == MissingColumns([name])
  {
    if |cols| == 0 then Err(MissingColumns([name]))
    else if cols[0].name == name then Ok(cols[0].cells)
    else
      var r := Lookup(cols[1..], name);
      assert forall i :: 1 <= i < |cols| ==> cols[i] == cols[1..][i - 1];
      r
  }

  /** A successful lookup returns the cells of a column of that name. */
  lemma {:induction false} LookupFinds(cols: seq<Column>, name: string)
    requires Lookup(cols, name).Ok?
    ensures exists i :: 0 <= i < |cols| && cols[i].name == name && cols[i].cells == Lookup(cols, name).value
  {
    if cols[0].name != name {
      LookupFinds(cols[1..], name);
      var i :| 0 <= i < |cols[1..]| && cols[1..][i].name == name && cols[1..][i].cells == Lookup(cols[1..], name).value;
      assert cols[i + 1] == cols[1..][i];
    }
  }

  /** `df[name] = cells`: replaces the first column of that name, or appends one. */
  function SetColumn(cols: seq<Column>, name: string, cells: seq<Cell>): (r: seq<Column>)
    ensures |r| == |cols| || |r| == |cols| + 1
    ensures forall i :: 0 <= i < |r| ==> r[i].name == name || (i < |cols| && r[i] == cols[i])
  {
    if |cols| == 0 then [Column(name, cells)]
    else if cols[0].name == name then [Column(name, cells)] + cols[1..]
    else [cols[0]] + SetColumn(cols[1..], name, cells)
  }

  /** After `df[name] = cells`, the column reads back as `cells`. */
  lemma {:induction false} SetThenLookup(cols: seq<Column>, name: string, cells: seq<Cell>)
    ensures Lookup(SetColumn(cols, name, cells), name) == Ok(cells)
  {
    if |cols| > 0 && cols[0].name != name {
      SetThenLookup(cols[1..], name, cells);
      assert SetColumn(cols, name, cells)[1..] == SetColumn(cols[1..], name, cells);
    }
  }

  /** After `df[name] = cells`, every other column reads as before. */
  lemma {:induction false} SetKeepsOthers(cols: seq<Column>, name: string, cells: seq<Cell>, other: string)
    requires other != name
    ensures Lookup(SetColumn(cols, name, cells), other) == Lookup(cols, other)
  {
    if |cols| > 0 {
      var r := SetColumn(cols, name, cells);
      if cols[0].name == name {
        assert r[1..] == cols[1..];
      } else {
        SetKeepsOthers(cols[1..], name, cells, other);
        assert r[1..] == SetColumn(cols[1..], name, cells);
      }
    }
  }

  /** Setting a column keeps a table well formed. */
  lemma {:induction false} SetWellFormed(t: Table, name: string, cells: seq<Cell>)
    requires t.WellFormed() && |cells| == t.rows
    ensures Table(SetColumn(t.columns, name, cells), t.rows).WellFormed()
    decreases |t.columns|
  {
    if |t.columns| > 0 && t.columns[0].name != name {
      SetWellFormed(Table(t.columns[1..], t.rows), name, cells);
    }
  }

  /** pandas `+` on two cells: numbers add, texts concatenate, NaN absorbs
      either (an object column retries the sum on the non-null pairs only),
      and text plus a number is a TypeError. */
  function AddCell(a: Cell, b: Cell): (r: Option<Cell>)
    ensures r.None? <==> (a.Value? && b.Label?) || (a.Label? && b.Value?)
    ensures (a.Blank? || b.Blank?) ==> r == Some(Blank)
  {
    match (a, b)
    case (Value(x), Value(y)) => Some(Value(x + y))
    case (Label(s), Label(t)) => Some(Label(s + t))
    case (Blank, _) => Some(Blank)
    case (_, Blank) => Some(Blank)
    case _ => None
  }

  /** Element-wise `a + b` of two equally long columns. */
  function AddColumns(a: seq<Cell>, b: seq<Cell>, name: string): (r: Result<seq<Cell>>)
    requires |a| == |b|
    ensures r.Ok? ==> (|r.value| == |a| &&
      forall i :: 0 <= i < |a| ==> AddCell(a[i], b[i]) == Some(r.value[i]))
    ensures r.Err? <==> exists i :: 0 <= i < |a| && AddCell(a[i], b[i]).None?
    ensures r.Err? <==> exists i :: 0 <= i < |a| && ((a[i].Value? && b[i].Label?) || (a[i].Label? && b[i].Value?))
  {
    if |a| == 0 then Ok([])
    else
      var head := AddCell(a[0], b[0]);
      var tail := AddColumns(a[1..], b[1..], name);
      if head.None? then Err(TypeMismatch(name))
      else if tail.Err? then
        ghost var i :| 0 <= i < |a[1..]| && AddCell(a[1..][i], b[1..][i]).None?;
        assert AddCell(a[i + 1], b[i + 1]).None?;
        tail
      else
        var r := [head.value] + tail.value;
        assert forall i :: 1 <= i < |a| ==> AddCell(a[i], b[i]) == AddCell(a[1..][i - 1], b[1..][i - 1]);
        Ok(r)
  }

  /** The ANTICIPATION_DURATION column: CUE_DURATION + FIXATION_DURATION, row
      by row; it fails when a column is missing or a row adds a number to a text. */
  function AnticipationDuration(t: Table): (r: Result<seq<Cell>>)
    requires t.WellFormed()
    ensures r.Ok? ==> |r.value| == t.rows
    ensures r.Ok? ==> (Get(t, "CUE_DURATION").Ok? && Get(t, "FIXATION_DURATION").Ok? &&
      forall i :: 0 <= i < t.rows ==>
        AddCell(Get(t, "CUE_DURATION").value[i], Get(t, "FIXATION_DURATION").value[i]) == Some(r.value[i]))
    ensures r.Err? <==> (Get(t, "CUE_DURATION").Err? || Get(t, "FIXATION_DURATION").Err? ||
      exists i :: 0 <= i < t.rows &&
        AddCell(Get(t, "CUE_DURATION").value[i], Get(t, "FIXATION_DURATION").value[i]).None?)
  {
    var cue := Get(t, "CUE_DURATION");
    var fix := Get(t, "FIXATION_DURATION");
    if cue.Err? then Err(cue.error)
    else if fix.Err? then Err(fix.error)
    else AddColumns(cue.value, fix.value, "ANTICIPATION_DURATION")
  }

  /** `df[name]` on a well-formed table: a found column has one cell per row. */
  function Get(t: Table, name: string): (r: Result<seq<Cell>>)
    requires t.WellFormed()
    ensures r == Lookup(t.columns, name)
    ensures r.Ok? ==> |r.value| == t.rows
  {
    var r := Lookup(t.columns, name);
    if r.Ok? then LookupFinds(t.columns, name); r else r
  }

  /** Rows zipped from three equally long columns. */
  function Zip3(a: seq<Cell>, b: seq<Cell>, c: seq<Cell>): (r: seq<EventRow>)
    requires |a| == |b| == |c|
    ensures |r| == |a| && forall i :: 0 <= i < |a| ==> r[i] == EventRow(a[i], b[i], c[i])
  {
    seq(|a|, i requires 0 <= i < |a| => EventRow(a[i], b[i], c[i]))
  }

  /** The event table: n anticipation rows (TRIAL_TYPE, onset, duration), then
      n feedback rows (TRIAL_RESULT, FEEDBACK_ONSET, FEEDBACK_DURATION). */
  function DesignEvents(t: Table, onsetLabel: string, durationLabel: string): (r: Result<seq<EventRow>>)
    requires t.WellFormed()
    ensures r.Err? <==> Get(t, "TRIAL_TYPE").Err? || Get(t, "TRIAL_RESULT").Err? ||
                        Get(t, onsetLabel).Err? || Get(t, "FEEDBACK_ONSET").Err? ||
                        Get(t, durationLabel).Err? || Get(t, "FEEDBACK_DURATION").Err?
    ensures r.Ok? ==> |r.value| == 2 * t.rows
    ensures r.Ok? ==> (Get(t, "TRIAL_TYPE").Ok? && Get(t, "TRIAL_RESULT").Ok? &&
                       Get(t, onsetLabel).Ok? && Get(t, "FEEDBACK_ONSET").Ok? &&
                       Get(t, durationLabel).Ok? && Get(t, "FEEDBACK_DURATION").Ok? &&
      forall i :: 0 <= i < t.rows ==>
        r.value[i] == EventRow(Get(t, "TRIAL_TYPE").value[i], Get(t, onsetLabel).value[i],
                               Get(t, durationLabel).value[i]) &&
        r.value[t.rows + i] == EventRow(Get(t, "TRIAL_RESULT").value[i], Get(t, "FEEDBACK_ONSET").value[i],
                                        Get(t, "FEEDBACK_DURATION").value[i]))
  {
    var tt := Get(t, "TRIAL_TYPE");
    var tr := Get(t, "TRIAL_RESULT");
    var on := Get(t, onsetLabel);
    var fo := Get(t, "FEEDBACK_ONSET");
    var du := Get(t, durationLabel);
    var fd := Get(t, "FEEDBACK_DURATION");
    if tt.Err? then Err(tt.error)
    else if tr.Err? then Err(tr.error)
    else if on.Err? then Err(on.error)
    else if fo.Err? then Err(fo.error)
    else if du.Err? then Err(du.error)
    else if fd.Err? then Err(fd.error)
    else
      var cues := Zip3(tt.value, on.value, du.value);
      var feedback := Zip3(tr.value, fo.value, fd.value);
      assert forall i :: 0 <= i < t.rows ==> (cues + feedback)[t.rows + i] == feedback[i];
      Ok(cues + feedback)
  }

  /** `np.arange(n) * tr`, plus `tr / 2` when slice-timing correction was done. */
  function FrameTimes(numVolumes: int, tr: real, stc: bool): (r: seq<real>)
    ensures |r| == if numVolumes < 0 then 0 else numVolumes
  {
    var n := if numVolumes < 0 then 0 else numVolumes;
    seq(n, k requires 0 <= k < n => (k as real) * tr + (if stc then tr / 2.0 else 0.0))
  }

  /** Frame times are evenly spaced by TR from 0, or from TR/2 exactly when
      `stc` is truthy. */
  lemma FrameTimesSpacing(numVolumes: int, tr: real, stc: bool)
    ensures var r := FrameTimes(numVolumes, tr, stc);
      (|r| > 0 ==> r[0] == (if stc then tr / 2.0 else 0.0)) &&
      forall k :: 0 < k < |r| ==> r[k] - r[k - 1] == tr
  {
  }

  /** The slice-timing shift moves every frame time by exactly TR/2. */
  lemma FrameTimesShift(numVolumes: int, tr: real)
    ensures var a, b := FrameTimes(numVolumes, tr, false), FrameTimes(numVolumes, tr, true);
      |a| == |b| && forall k :: 0 <= k < |a| ==> b[k] == a[k] + tr / 2.0
  {
  }

  /** The pure content of `create_design_mid`: the table after the derived column
      is written, and the design request built from it. */
  function CreateDesignSpec(t: Table, tr: real, numVolumes: int, onsetLabel: string,
                            durationLabel: string, conf: Frame, hrf: string, stc: bool)
    : (Table, Result<DesignRequest>)
    requires t.WellFormed()
  {
    var ant := AnticipationDuration(t);
    if ant.Err? then (t, Err(ant.error))
    else
      var t' := Table(SetColumn(t.columns, "ANTICIPATION_DURATION", ant.value), t.rows);
      SetWellFormed(t, "ANTICIPATION_DURATION", ant.value);
      var ev := DesignEvents(t', onsetLabel, durationLabel);
      if ev.Err? then (t', Err(ev.error))
      else (t', Ok(DesignRequest(FrameTimes(numVolumes, tr, stc), ev.value, hrf, conf)))
  }

  /** With the AntMod labels, every anticipation row lasts CUE_DURATION +
      FIXATION_DURATION of the same trial, and the nuisance frame is passed on unchanged. */
  lemma AntModDurations(t: Table, tr: real, numVolumes: int, conf: Frame, hrf: string, stc: bool)
    requires t.WellFormed()
    ensures var (t', r) := CreateDesignSpec(t, tr, numVolumes, "CUE_ONSET", "ANTICIPATION_DURATION", conf, hrf, stc);
      r.Ok? ==> (r.value.regressors == conf && r.value.frameTimes == FrameTimes(numVolumes, tr, stc) &&
        forall i :: 0 <= i < t.rows ==>
          Get(t, "CUE_DURATION").Ok? && Get(t, "FIXATION_DURATION").Ok? &&
          AddCell(Get(t, "CUE_DURATION").value[i], Get(t, "FIXATION_DURATION").value[i])
            == Some(r.value.events[i].duration))
  {
    var ant := AnticipationDuration(t);
    if ant.Ok? {
      SetThenLookup(t.columns, "ANTICIPATION_DURATION", ant.value);
    }
  }

  /** A pandas DataFrame of events that scripts hold by reference: assigning a
      column changes the caller's table. */
  class EventsFrame {
    var columns: seq<Column>
    var rows: nat

    ghost predicate Valid()
      reads this
    {
      Table(columns, rows).WellFormed()
    }

    function Snapshot(): (t: Table)
      reads this
      ensures t.columns == columns && t.rows == rows
    {
      Table(columns, rows)
    }

    constructor (t: Table)
      requires t.WellFormed()
      ensures Valid() && Snapshot() == t
    {
      columns := t.columns;
      rows := t.rows;
    }

    /** `df[name] = cells`. */
    method Assign(name: string, cells: seq<Cell>)
      requires Valid() && |cells| == rows
      modifies this
      ensures Valid()
      ensures columns == SetColumn(old(columns), name, cells) && rows == old(rows)
    {
      SetWellFormed(Snapshot(), name, cells);
      columns := SetColumn(columns, name, cells);
    }
  }

  /** `create_design_mid` (Stage2_Code/designmat_regressors_define.py; the Stage 1
      `create_design_mid` and `design_mid` are the same code): writes
      ANTICIPATION_DURATION into the caller's events frame, then builds the event
      table and frame times. On error the frame holds whatever was written before. */
  method CreateDesignMid(events: EventsFrame, tr: real, numVolumes: int, onsetLabel: string,
                         durationLabel: string, conf: Frame, hrf: string, stc: bool)
    returns (r: Result<DesignRequest>)
    requires events.Valid()
    modifies events
    ensures events.Valid()
    ensures var (t', spec) := CreateDesignSpec(old(events.Snapshot()), tr, numVolumes, onsetLabel,
                                               durationLabel, conf, hrf, stc);
            events.Snapshot() == t' && r == spec
  {
    var ant := AnticipationDuration(events.Snapshot());
    if ant.Err? {
      return Err(ant.error);
    }
    events.Assign("ANTICIPATION_DURATION", ant.value);
    var ev := DesignEvents(events.Snapshot(), onsetLabel, durationLabel);
    if ev.Err? {
      return Err(ev.error);
    }
    var frameTimes := FrameTimes(numVolumes, tr, stc);
    r := Ok(DesignRequest(frameTimes, ev.value, hrf, conf));
  }
}
