/** The session history of the dashboard (app.py lines 25-26 and 46-62): it starts
    empty, each successful prediction appends exactly one record, nothing is ever
    removed or changed, and the status view reads the last record. */
module Ledger {
  import opened Wrappers
  import opened Classifier
  import opened Features

  /** Why the scaler and model could not produce a score: they were not loaded, or the
      vector does not fit what they were fitted on. */
  datatype ScoreError = ModelUnavailable | FeatureMismatch

  /** scaler.transform followed by model.predict, as one capability that may fail. */
  type Predictor = seq<real> -> Result<real, ScoreError>

  /** One entry of the history, with the keys of the dashboard's dictionary. */
  datatype Record = Record(
    time: string,
    voltage: real, current: real, temp: real, power: real,
    score: real,
    remLife: string, recLoad: string, suitability: string)

  /** A record's labels are the classifier's output for its score. */
  predicate Classified(r: Record)
  {
    Bands(r.remLife, r.recLoad, r.suitability) == GetDetailedPrediction(r.score)
  }

  predicate AllClassified(h: seq<Record>)
  {
    forall k :: 0 <= k < |h| ==> Classified(h[k])
  }

  /** One press of the predict button, without the append: features, score rounded to
      two places, classification, record. A failing predictor yields its error. */
  function Evaluate(reading: Reading, time: string, round2: real -> real, predictor: Predictor)
    : (res: Result<Record, ScoreError>)
    ensures res.Failure? <==> predictor(BuildFeatures(reading, round2)).Failure?
    ensures res.Failure? ==> res.error == predictor(BuildFeatures(reading, round2)).error
    ensures res.Success? ==>
      && res.value.time == time
      && res.value.voltage == reading.voltage
      && res.value.current == reading.current
      && res.value.temp == reading.temp
      && res.value.power == BuildFeatures(reading, round2)[3]
      && res.value.score == round2(predictor(BuildFeatures(reading, round2)).value)
      && Classified(res.value)
  {
    var features := BuildFeatures(reading, round2);
    match predictor(features)
    case Failure(e) => Failure(e)
    case Success(raw) =>
      var score := round2(raw);
      var bands := GetDetailedPrediction(score);
      Success(Record(time, reading.voltage, reading.current, reading.temp, PowerOf(reading, round2),
                     score, bands.remLife, bands.recLoad, bands.suitability))
  }

  /** The history after an evaluation: appended to on success, untouched on failure. */
  function Commit(h: seq<Record>, res: Result<Record, ScoreError>): (h': seq<Record>)
    ensures |h'| == |h| + (if res.Success? then 1 else 0)
    ensures h'[..|h|] == h
    ensures res.Success? ==> Last(h') == Some(res.value)
  {
    if res.Success? then h + [res.value] else h
  }

  /** The record the status view shows, or None while the history is empty. */
  function Last(h: seq<Record>): (r: Option<Record>)
    ensures r.None? <==> h == []
    ensures r.Some? ==> r.value == h[|h| - 1]
  {
    if h == [] then None else Some(h[|h| - 1])
  }

  /** A prediction request: the sensor reading and the time it was made. */
  datatype Request = Request(reading: Reading, time: string)

  /** The history after a run of requests, processed in order. */
  function Replay(h: seq<Record>, reqs: seq<Request>, round2: real -> real, predictor: Predictor)
    : (h': seq<Record>)
    ensures |h| <= |h'| <= |h| + |reqs|
    ensures h'[..|h|] == h
    decreases |reqs|
  {
    if reqs == [] then h
    else Replay(Commit(h, Evaluate(reqs[0].reading, reqs[0].time, round2, predictor)),
                reqs[1..], round2, predictor)
  }

  /** The records the successful requests produce, in request order. */
  function Recorded(reqs: seq<Request>, round2: real -> real, predictor: Predictor): seq<Record>
    decreases |reqs|
  {
    if reqs == [] then []
    else Commit([], Evaluate(reqs[0].reading, reqs[0].time, round2, predictor))
         + Recorded(reqs[1..], round2, predictor)
  }

  /** Committing to a history appends what committing to the empty history gives. */
  lemma CommitIsAppend(h: seq<Record>, res: Result<Record, ScoreError>)
    ensures Commit(h, res) == h + Commit([], res)
  {
    if res.Failure? {
      assert h + [] == h;
    }
  }

  /** Append-only in request order: a run of requests leaves the earlier history as it
      was and adds exactly the records of the successful requests, in order. */
  lemma {:induction false} ReplayAppends(h: seq<Record>, reqs: seq<Request>, round2: real -> real,
                                         predictor: Predictor)
    ensures Replay(h, reqs, round2, predictor) == h + Recorded(reqs, round2, predictor)
    decreases |reqs|
  {
    if reqs != [] {
      var res := Evaluate(reqs[0].reading, reqs[0].time, round2, predictor);
      var first := Commit([], res);
      var rest := Recorded(reqs[1..], round2, predictor);
      calc {
        Replay(h, reqs, round2, predictor);
        Replay(Commit(h, res), reqs[1..], round2, predictor);
        { ReplayAppends(Commit(h, res), reqs[1..], round2, predictor); }
        Commit(h, res) + rest;
        { CommitIsAppend(h, res); }
        (h + first) + rest;
        { assert (h + first) + rest == h + (first + rest); }
        h + (first + rest);
        h + Recorded(reqs, round2, predictor);
      }
    }
  }

  /** Every record a run of requests adds is classified from its own score. */
  lemma {:induction false} RecordedClassified(reqs: seq<Request>, round2: real -> real,
                                              predictor: Predictor)
    ensures AllClassified(Recorded(reqs, round2, predictor))
    decreases |reqs|
  {
    if reqs != [] {
      var res := Evaluate(reqs[0].reading, reqs[0].time, round2, predictor);
      RecordedClassified(reqs[1..], round2, predictor);
      var rest := Recorded(reqs[1..], round2, predictor);
      var all := Commit([], res) + rest;
      forall k | 0 <= k < |all|
        ensures Classified(all[k])
      {
        if k >= |Commit([], res)| {
          assert all[k] == rest[k - |Commit([], res)|];
        }
      }
    }
  }

  /** Over a whole session: the history only grows, keeps every earlier record, stays
      classified, and once non-empty it never becomes empty again. */
  lemma ReplayKeepsHistory(h: seq<Record>, reqs: seq<Request>, round2: real -> real,
                           predictor: Predictor)
    requires AllClassified(h)
    ensures |Replay(h, reqs, round2, predictor)| >= |h|
    ensures Replay(h, reqs, round2, predictor)[..|h|] == h
    ensures AllClassified(Replay(h, reqs, round2, predictor))
    ensures h != [] ==> Replay(h, reqs, round2, predictor) != []
  {
    ReplayAppends(h, reqs, round2, predictor);
    RecordedClassified(reqs, round2, predictor);
    var added := Recorded(reqs, round2, predictor);
    var all := h + added;
    forall k | 0 <= k < |all|
      ensures Classified(all[k])
    {
      if k >= |h| {
        assert all[k] == added[k - |h|];
      }
    }
  }

  /** Three successful predictions scoring 85, 45 and 10 leave a history of three
      records in that order, tiered Excellent, Fair and Critical, the last one shown. */
  lemma ThreePredictions(reqs: seq<Request>, round2: real -> real, predictor: Predictor)
    requires |reqs| == 3
    requires forall k :: 0 <= k < 3 ==> predictor(BuildFeatures(reqs[k].reading, round2)).Success?
    requires round2(predictor(BuildFeatures(reqs[0].reading, round2)).value) == 85.0
    requires round2(predictor(BuildFeatures(reqs[1].reading, round2)).value) == 45.0
    requires round2(predictor(BuildFeatures(reqs[2].reading, round2)).value) == 10.0
    ensures var h := Replay([], reqs, round2, predictor);
      && |h| == 3
      && h[0].score == 85.0 && h[1].score == 45.0 && h[2].score == 10.0
      && h[0].suitability == Excellent.suitability
      && h[1].suitability == Fair.suitability
      && h[2].suitability == Critical.suitability
      && Last(h) == Some(h[2])
  {
    ReplayAppends([], reqs, round2, predictor);
    var r0 := Evaluate(reqs[0].reading, reqs[0].time, round2, predictor);
    var r1 := Evaluate(reqs[1].reading, reqs[1].time, round2, predictor);
    var r2 := Evaluate(reqs[2].reading, reqs[2].time, round2, predictor);
    var tail1, tail2 := reqs[1..], reqs[2..];
    assert tail1[0] == reqs[1] && tail1[1..] == tail2 && tail2[0] == reqs[2] && tail2[1..] == [];
    assert Recorded(tail2, round2, predictor) == [r2.value];
    assert Recorded(tail1, round2, predictor) == [r1.value, r2.value];
    assert Recorded(reqs, round2, predictor) == [r0.value, r1.value, r2.value];
  }

  /** The live session: the history list kept across reruns of the dashboard. */
  class Session {
    var history: seq<Record>

    /** Every record in the history carries the classifier's labels for its score. */
    ghost predicate Valid()
      reads this
    {
      AllClassified(history)
    }

    /** A new session starts with an empty history. */
    constructor ()
      ensures Valid() && history == [] && Last(history).None?
    {
      history := [];
    }

    /** The predict handler: evaluates the request and appends exactly one record on
        success; on failure the history is left as it was. */
    method Predict(reading: Reading, time: string, round2: real -> real, predictor: Predictor)
      returns (res: Result<Record, ScoreError>)
      requires Valid()
      modifies this
      ensures Valid()
      ensures res == Evaluate(reading, time, round2, predictor)
      ensures history == Commit(old(history), res)
      ensures res.Success? ==> |history| == |old(history)| + 1 && Last(history) == Some(res.value)
      ensures res.Failure? ==> history == old(history)
      ensures history[..|old(history)|] == old(history)
    {
      res := Evaluate(reading, time, round2, predictor);
      if res.Success? {
        history := history + [res.value];
      }
    }
  }
}
