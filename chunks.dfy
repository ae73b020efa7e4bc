/** Lists built part by part, as the scripts' contrast loops build the list
    of maps they write: every part has the same width, so entry t of part c
    sits at `w·c + t`. */
module Chunks {

  /** The parts laid end to end. */
  function Flatten<T>(parts: seq<seq<T>>): seq<T>
  {
    if |parts| == 0 then [] else parts[0] + Flatten(parts[1..])
  }

  predicate Uniform<T>(parts: seq<seq<T>>, w: nat)
  {
    forall i :: 0 <= i < |parts| ==> |parts[i]| == w
  }

  lemma MulStep(w: nat, c: nat)
    requires c > 0
    ensures w * c == w + w * (c - 1)
  {
  }

  /** Parts of width w lay out `w·|parts|` entries. */
  lemma {:induction false} FlattenLength<T>(parts: seq<seq<T>>, w: nat)
    requires Uniform(parts, w)
    ensures |Flatten(parts)| == w * |parts|
  {
    if |parts| > 0 {
      FlattenLength(parts[1..], w);
      MulStep(w, |parts|);
    }
  }

  /** Entry t of part c is entry `w·c + t` of the whole. */
  lemma {:induction false} FlattenAt<T>(parts: seq<seq<T>>, w: nat, c: nat, t: nat)
    requires Uniform(parts, w) && c < |parts| && t < w
    ensures w * c + t < |Flatten(parts)| && Flatten(parts)[w * c + t] == parts[c][t]
  {
    FlattenLength(parts, w);
    var rest := Flatten(parts[1..]);
    assert Flatten(parts) == parts[0] + rest;
    if c > 0 {
      FlattenAt(parts[1..], w, c - 1, t);
      assert parts[1..][c - 1] == parts[c];
      MulStep(w, c);
    }
  }

  /** Adding one more part extends the whole at its end. */
  lemma {:induction false} FlattenSnoc<T>(parts: seq<seq<T>>, k: nat)
    requires k < |parts|
    ensures Flatten(parts[..k + 1]) == Flatten(parts[..k]) + parts[k]
  {
    if k == 0 {
      assert parts[..1] == [parts[0]];
      assert Flatten(parts[..1]) == parts[0] + Flatten(parts[..1][1..]);
    } else {
      var tail := parts[1..];
      assert parts[..k + 1] == [parts[0]] + tail[..k];
      assert parts[..k] == [parts[0]] + tail[..k - 1];
      assert parts[..k + 1][1..] == tail[..k];
      assert parts[..k][1..] == tail[..k - 1];
      FlattenSnoc(tail, k - 1);
      assert tail[k - 1] == parts[k];
    }
  }
}
