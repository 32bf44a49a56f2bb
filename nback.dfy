/**
 * The 1-back task (`flask_hello_ver2/nback.py`): a square lights up in a 3x3 grid and
 * the participant responds when it is in the same place as on the previous trial.
 * Scoring is the signal-detection table of `Detection` with a 1-back match as the signal.
 */
module NBack {
  import opened Common
  import opened Stats
  import Engine
  import Detection

  /** An entry of `POSITIONS`; its `grid` class is `grid-<id>`. */
  datatype Position = Position(id: nat, name: string)

  const POSITIONS: seq<Position> := [
    Position(1, "左上"), Position(2, "上"), Position(3, "右上"),
    Position(4, "左"), Position(5, "中央"), Position(6, "右"),
    Position(7, "左下"), Position(8, "下"), Position(9, "右下")]

  const STIMULUS_DURATION: nat := 500
  const ISI_DURATION: nat := 2500
  const MAX_RESPONSE_TIME: nat := STIMULUS_DURATION + ISI_DURATION
  const RESPONSE_KEY: string := "space"

  /** The positions are numbered 1 to 9 in order, so an id names exactly one position. */
  lemma PositionTable()
    ensures |POSITIONS| == 9
    ensures forall i :: 0 <= i < |POSITIONS| ==> POSITIONS[i].id == i + 1
  {
  }

  datatype Trial = Trial(number: nat, position: Position, isNback: bool)

  /**
   * `int(total_trials * 0.3)`: 30% of the trials, truncated toward zero. The product is
   * taken exactly here, not in binary floating point.
   */
  function Quota(total: int): (q: int)
    ensures total >= 0 ==> 0 <= q && 10 * q <= 3 * total < 10 * q + 10
    ensures total < 0 ==> q <= 0
  {
    if total >= 0 then total * 3 / 10 else -((-total) * 3 / 10)
  }

  function IsNbackTrial(t: Trial): bool { t.isNback }

  /** `[p for p in POSITIONS if p['id'] != previous_position['id']]`. */
  function OtherPositions(prev: Position): (r: seq<Position>)
    ensures |r| > 0
    ensures forall i :: 0 <= i < |r| ==> r[i].id != prev.id && r[i] in POSITIONS
  {
    var i := if POSITIONS[0].id != prev.id then 0 else 1;
    CountPositive(POSITIONS, (p: Position) => p.id != prev.id, i);
    Filter(POSITIONS, (p: Position) => p.id != prev.id)
  }

  /**
   * The trial list `start` builds: the trials are numbered 1, 2, ... in order; every
   * position is one of the nine; the first trial is never a match; and after it a trial
   * is a match exactly when it repeats the previous position.
   */
  predicate WellBuilt(ts: seq<Trial>)
  {
    (forall k :: 0 <= k < |ts| ==> ts[k].number == k + 1 && ts[k].position in POSITIONS)
    && (|ts| > 0 ==> !ts[0].isNback)
    && (forall k :: 0 < k < |ts| ==> (ts[k].isNback <==> ts[k].position.id == ts[k - 1].position.id))
  }

  /** Appending the next trial keeps a trial list well built. */
  lemma WellBuiltAppend(ts: seq<Trial>, t: Trial)
    requires WellBuilt(ts)
    requires t.number == |ts| + 1 && t.position in POSITIONS
    requires |ts| == 0 ==> !t.isNback
    requires |ts| > 0 ==> (t.isNback <==> t.position.id == ts[|ts| - 1].position.id)
    ensures WellBuilt(ts + [t])
  {
    var us := ts + [t];
    forall k | 0 < k < |us|
      ensures us[k].isNback <==> us[k].position.id == us[k - 1].position.id
    {
      if k < |ts| {
        assert us[k] == ts[k] && us[k - 1] == ts[k - 1];
      }
    }
  }

  /**
   * The trial `start` appends at index `i`: a repeat of `previous` when a match is drawn,
   * otherwise a position drawn with `x` among all nine (first trial) or among those that
   * differ from `previous`.
   */
  function NextTrialAt(i: nat, previous: Position, isMatch: bool, x: nat): (t: Trial)
    requires isMatch ==> i > 0 && previous in POSITIONS
    ensures t.number == i + 1 && t.position in POSITIONS && t.isNback == isMatch
    ensures i > 0 ==> (t.isNback <==> t.position.id == previous.id)
  {
    if i == 0 then Trial(i + 1, Choice(POSITIONS, x), false)
    else if isMatch then Trial(i + 1, previous, true)
    else Trial(i + 1, Choice(OtherPositions(previous), x), false)
  }

  /**
   * `start`'s loop. `pick(i)` is the `random.choice` draw of trial `i` and `coin(i)` the
   * outcome of `random.random() < 0.4` there, which is only drawn while the quota of
   * matches is not yet reached.
   */
  method BuildTrials(total: int, pick: nat -> nat, coin: nat -> bool) returns (ts: seq<Trial>)
    ensures |ts| == RangeLen(total)
    ensures WellBuilt(ts)
    ensures Count(ts, IsNbackTrial) <= RangeLen(Quota(total))
  {
    var quota := Quota(total);
    ts := [];
    var previous := POSITIONS[0];
    var count: nat := 0;
    var i := 0;
    while i < total
      invariant 0 <= i <= RangeLen(total)
      invariant |ts| == i
      invariant previous in POSITIONS
      invariant i > 0 ==> previous == ts[i - 1].position
      invariant count == Count(ts, IsNbackTrial) && count <= RangeLen(quota)
      invariant WellBuilt(ts)
    {
      var isMatch := i > 0 && count < quota && coin(i);
      var t := NextTrialAt(i, previous, isMatch, pick(i));
      if isMatch {
        count := count + 1;
      }
      WellBuiltAppend(ts, t);
      CountAppend(ts, [t], IsNbackTrial);
      previous := t.position;
      ts := ts + [t];
      i := i + 1;
    }
  }

  /** `start`: build the list (it is not shuffled) and store it. Returns `total_trials`. */
  method Start(session: Engine.Session<Trial, TrialResult>, total: int, pick: nat -> nat, coin: nat -> bool)
    returns (n: nat)
    modifies session
    ensures session.cursor == 0 && session.results == []
    ensures n == |session.trials| == RangeLen(total)
    ensures WellBuilt(session.trials)
    ensures Count(session.trials, IsNbackTrial) <= RangeLen(Quota(total))
  {
    var trials := BuildTrials(total, pick, coin);
    session.Start(trials);
    n := |trials|;
  }

  /**
   * `next_trial` answers the trial's own `trial_number`; on a list `start` built it is the
   * dispatch number of the shared cursor.
   */
  method NextTrial(session: Engine.Session<Trial, TrialResult>) returns (d: Engine.Dispatch<Trial>)
    modifies session
    ensures (session.State(), d) == Engine.Advance(old(session.State()))
  {
    d := session.NextTrial();
  }

  lemma DispatchNumber(s: Engine.SessionState<Trial, TrialResult>)
    requires WellBuilt(s.trials)
    ensures Engine.Advance(s).1.Next? ==> Engine.Advance(s).1.trial.number == Engine.Advance(s).1.number
  {
  }

  /** One entry of `session['results']`. */
  datatype TrialResult = TrialResult(
    trial: nat,
    position: string,
    positionId: nat,
    isNback: bool,
    response: Option<string>,
    reactionTime: Option<real>,
    isCorrect: bool,
    errorType: Option<Detection.ErrorType>)

  /** `record_response`'s scoring; the result's `trial` is the trial's own number. */
  function Score(t: Trial, response: Option<string>, rt: Option<real>): TrialResult
  {
    var v := Detection.Classify(t.isNback, response.Some?);
    TrialResult(t.number, t.position.name, t.position.id, t.isNback, response, rt, v.isCorrect, v.errorType)
  }

  function Scorer(response: Option<string>, rt: Option<real>): (Trial, nat) -> Option<TrialResult>
  {
    (t: Trial, n: nat) => Some(Score(t, response, rt))
  }

  /** A result whose verdict is the table's verdict for its match flag and response. */
  predicate Scored(r: TrialResult)
  {
    Detection.Classify(r.isNback, r.response.Some?) == Detection.Verdict(r.isCorrect, r.errorType)
  }

  /**
   * On a valid session over a list `start` built, a response is recorded exactly when a
   * trial has been dispatched, and the result carries that trial's number, the cursor.
   */
  lemma RecordedResult(s: Engine.SessionState<Trial, TrialResult>, response: Option<string>, rt: Option<real>)
    requires Engine.Valid(s) && WellBuilt(s.trials)
    ensures var (s', status) := Engine.RecordIn(s, Scorer(response, rt));
            (status == Engine.Recorded <==> s.cursor > 0)
            && (status == Engine.Recorded ==>
                  s'.results == s.results + [Score(s.trials[s.cursor - 1], response, rt)]
                  && s'.results[|s.results|].trial == s.cursor
                  && Scored(s'.results[|s.results|]))
            && (status != Engine.Recorded ==> status == Engine.NotStarted && s' == s)
  {
    Engine.RecordOutcomes(s, Scorer(response, rt));
  }

  method RecordResponse(session: Engine.Session<Trial, TrialResult>, response: Option<string>, rt: Option<real>)
    returns (status: Engine.RecordStatus)
    modifies session
    ensures (session.State(), status) == Engine.RecordIn(old(session.State()), Scorer(response, rt))
  {
    status := session.RecordResponse(Scorer(response, rt));
  }

  // ---- show_results ----

  datatype Summary = Summary(
    totalTrials: nat,
    accuracy: real,
    nbackTotal: nat,
    nbackAccuracy: real,
    nbackAvgRt: real,
    nbackMisses: nat,
    nonNbackTotal: nat,
    nonNbackAccuracy: real,
    nonNbackFalseAlarms: nat)

  function IsCorrect(r: TrialResult): bool { r.isCorrect }
  function IsNback(r: TrialResult): bool { r.isNback }
  function IsNonNback(r: TrialResult): bool { !r.isNback }
  function IsMiss(r: TrialResult): bool { r.errorType == Some(Detection.Miss) }
  function IsFalseAlarm(r: TrialResult): bool { r.errorType == Some(Detection.FalseAlarm) }
  function IsCorrectTimed(r: TrialResult): bool { r.isCorrect && r.reactionTime.Some? }

  /** The reaction times of the correct results that have one, in order: one per such result. */
  function CorrectRts(rs: seq<TrialResult>): (xs: seq<real>)
    ensures |xs| == Count(rs, IsCorrectTimed)
  {
    if rs == [] then []
    else (if rs[0].isCorrect && rs[0].reactionTime.Some? then [rs[0].reactionTime.value] else []) + CorrectRts(rs[1..])
  }

  /** `None` is the "no results" page. */
  function Summarize(rs: seq<TrialResult>): (r: Option<Summary>)
    ensures r.None? <==> rs == []
    ensures r.Some? ==> r.value.totalTrials == |rs|
  {
    if rs == [] then None
    else
      var nback := Filter(rs, IsNback);
      var other := Filter(rs, IsNonNback);
      Some(Summary(
        |rs|,
        Accuracy(Count(rs, IsCorrect), |rs|),
        |nback|,
        Accuracy(Count(nback, IsCorrect), |nback|),
        Mean(CorrectRts(nback)),
        Count(nback, IsMiss),
        |other|,
        Accuracy(Count(other, IsCorrect), |other|),
        Count(other, IsFalseAlarm)))
  }

  /**
   * Match and non-match trials share out the results, the overall accuracy is their
   * weighted mix, and every accuracy is a percentage.
   */
  lemma SummaryPartition(rs: seq<TrialResult>)
    requires Summarize(rs).Some?
    ensures var sm := Summarize(rs).value;
            sm.nbackTotal + sm.nonNbackTotal == sm.totalTrials
            && WeightedMix(sm.totalTrials, sm.accuracy, sm.nbackTotal, sm.nbackAccuracy,
                           sm.nonNbackTotal, sm.nonNbackAccuracy)
            && 0.0 <= sm.accuracy <= 100.0
            && 0.0 <= sm.nbackAccuracy <= 100.0
            && 0.0 <= sm.nonNbackAccuracy <= 100.0
  {
    var nback := Filter(rs, IsNback);
    var other := Filter(rs, IsNonNback);
    PartitionAccuracy(rs, IsNback, IsNonNback, IsCorrect);
    AccuracyRange(Count(rs, IsCorrect), |rs|);
    AccuracyRange(Count(nback, IsCorrect), |nback|);
    AccuracyRange(Count(other, IsCorrect), |other|);
  }

  /**
   * On results the handler scored, every match trial is correct or a miss and every
   * non-match trial correct or a false alarm.
   */
  lemma SummaryErrors(rs: seq<TrialResult>)
    requires Summarize(rs).Some?
    requires forall i :: 0 <= i < |rs| ==> Scored(rs[i])
    ensures var sm := Summarize(rs).value;
            sm.nbackMisses == sm.nbackTotal - Count(Filter(rs, IsNback), IsCorrect)
            && sm.nonNbackFalseAlarms == sm.nonNbackTotal - Count(Filter(rs, IsNonNback), IsCorrect)
  {
    var nback := Filter(rs, IsNback);
    var other := Filter(rs, IsNonNback);
    forall i | 0 <= i < |nback|
      ensures IsMiss(nback[i]) != IsCorrect(nback[i])
    {
      assert nback[i] in rs;
      var j :| 0 <= j < |rs| && rs[j] == nback[i];
      assert Scored(rs[j]);
    }
    forall i | 0 <= i < |other|
      ensures IsFalseAlarm(other[i]) != IsCorrect(other[i])
    {
      assert other[i] in rs;
      var j :| 0 <= j < |rs| && rs[j] == other[i];
      assert Scored(rs[j]);
    }
    CountComplement(nback, IsMiss, IsCorrect);
    CountComplement(other, IsFalseAlarm, IsCorrect);
  }

  /** Bounds on the recorded reaction times carry over to the averaged ones. */
  lemma {:induction false} CorrectRtsWithin(rs: seq<TrialResult>, lo: real, hi: real)
    requires forall i :: 0 <= i < |rs| ==> rs[i].reactionTime.Some? ==> lo <= rs[i].reactionTime.value <= hi
    ensures forall i :: 0 <= i < |CorrectRts(rs)| ==> lo <= CorrectRts(rs)[i] <= hi
  {
    if rs != [] {
      assert forall i :: 0 <= i < |rs[1..]| ==> rs[1..][i] == rs[i + 1];
      CorrectRtsWithin(rs[1..], lo, hi);
    }
  }

  /**
   * The match trials' mean reaction time over their correct, timed answers lies within
   * the range of the recorded times, and is 0 when there are none.
   */
  lemma SummaryReactionTime(rs: seq<TrialResult>, lo: real, hi: real)
    requires Summarize(rs).Some?
    requires forall i :: 0 <= i < |rs| ==> rs[i].reactionTime.Some? ==> lo <= rs[i].reactionTime.value <= hi
    ensures Count(Filter(rs, IsNback), IsCorrectTimed) > 0 ==> lo <= Summarize(rs).value.nbackAvgRt <= hi
    ensures Count(Filter(rs, IsNback), IsCorrectTimed) == 0 ==> Summarize(rs).value.nbackAvgRt == 0.0
  {
    var nback := Filter(rs, IsNback);
    forall i | 0 <= i < |nback| && nback[i].reactionTime.Some?
      ensures lo <= nback[i].reactionTime.value <= hi
    {
      assert nback[i] in rs;
    }
    CorrectRtsWithin(nback, lo, hi);
    if CorrectRts(nback) != [] {
      MeanBounds(CorrectRts(nback), lo, hi);
    }
  }
}
