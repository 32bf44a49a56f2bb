/**
 * The go/no-go task (`flask_hello_ver2/gonogo.py`): press space on a `go` circle,
 * withhold on a `nogo` circle. Scoring is the signal-detection table of `Detection`
 * with `go` as the signal.
 */
module GoNoGo {
  import opened Common
  import opened Stats
  import Shuffle
  import Engine
  import Detection

  datatype Kind = Go | NoGo

  const STIMULUS_DURATION: nat := 500
  const ISI_DURATION: nat := 1500
  const MAX_RESPONSE_TIME: nat := STIMULUS_DURATION + ISI_DURATION
  const RESPONSE_KEY: string := "space"

  /** `STIMULI[type]`: the stimulus shown is the trial type's own name. */
  function StimulusName(k: Kind): string
  {
    match k
    case Go => "go"
    case NoGo => "nogo"
  }

  /** One entry of `session['results']`; its `stimulus` is `StimulusName(kind)`. */
  datatype TrialResult = TrialResult(
    trial: nat,
    kind: Kind,
    response: Option<string>,
    reactionTime: Option<real>,
    isCorrect: bool,
    errorType: Option<Detection.ErrorType>)

  /** `record_response`'s scoring: a response is any non-null `response` value. */
  function Score(k: Kind, trial: nat, response: Option<string>, rt: Option<real>): TrialResult
  {
    var v := Detection.Classify(k == Go, response.Some?);
    TrialResult(trial, k, response, rt, v.isCorrect, v.errorType)
  }

  function Scorer(response: Option<string>, rt: Option<real>): (Kind, nat) -> Option<TrialResult>
  {
    (k: Kind, n: nat) => Some(Score(k, n, response, rt))
  }

  /** A result whose verdict is the table's verdict for its kind and response. */
  predicate Scored(r: TrialResult)
  {
    Detection.Classify(r.kind == Go, r.response.Some?) == Detection.Verdict(r.isCorrect, r.errorType)
  }

  /**
   * Go trials are correct exactly when answered and otherwise a miss; no-go trials are
   * correct exactly when withheld and otherwise a false alarm. No other error occurs.
   */
  lemma ScoreTable(k: Kind, trial: nat, response: Option<string>, rt: Option<real>)
    ensures var r := Score(k, trial, response, rt);
            Scored(r)
            && r.trial == trial && StimulusName(r.kind) == StimulusName(k)
            && (k == Go ==> (r.isCorrect <==> response.Some?) && (r.errorType == Some(Detection.Miss) <==> response.None?))
            && (k == NoGo ==> (r.isCorrect <==> response.None?) && (r.errorType == Some(Detection.FalseAlarm) <==> response.Some?))
            && (r.errorType.Some? <==> !r.isCorrect)
  {
  }

  /** On a valid session a response is recorded exactly when a trial has been dispatched. */
  lemma RecordedResult(s: Engine.SessionState<Kind, TrialResult>, response: Option<string>, rt: Option<real>)
    requires Engine.Valid(s)
    ensures var (s', status) := Engine.RecordIn(s, Scorer(response, rt));
            (status == Engine.Recorded <==> s.cursor > 0)
            && (status == Engine.Recorded ==>
                  s'.results == s.results + [Score(s.trials[s.cursor - 1], s.cursor, response, rt)])
            && (status != Engine.Recorded ==> status == Engine.NotStarted && s' == s)
  {
    Engine.RecordOutcomes(s, Scorer(response, rt));
  }

  /** `start`'s two loops: `go_trials` go trials followed by `nogo_trials` no-go trials. */
  method BuildTrials(goTrials: int, nogoTrials: int) returns (ts: seq<Kind>)
    ensures |ts| == RangeLen(goTrials) + RangeLen(nogoTrials)
    ensures multiset(ts)[Go] == RangeLen(goTrials)
    ensures multiset(ts)[NoGo] == RangeLen(nogoTrials)
  {
    ts := [];
    var i := 0;
    while i < goTrials
      invariant 0 <= i <= RangeLen(goTrials)
      invariant |ts| == i && multiset(ts)[Go] == i && multiset(ts)[NoGo] == 0
    {
      ts := ts + [Go];
      i := i + 1;
    }
    var j := 0;
    while j < nogoTrials
      invariant 0 <= j <= RangeLen(nogoTrials)
      invariant |ts| == RangeLen(goTrials) + j
      invariant multiset(ts)[Go] == RangeLen(goTrials) && multiset(ts)[NoGo] == j
    {
      ts := ts + [NoGo];
      j := j + 1;
    }
  }

  /** `start`: build, shuffle, store. Returns `total_trials`. */
  method Start(session: Engine.Session<Kind, TrialResult>, goTrials: int, nogoTrials: int, pick: nat -> nat)
    returns (total: nat)
    modifies session
    ensures session.cursor == 0 && session.results == []
    ensures total == |session.trials| == RangeLen(goTrials) + RangeLen(nogoTrials)
    ensures multiset(session.trials)[Go] == RangeLen(goTrials)
    ensures multiset(session.trials)[NoGo] == RangeLen(nogoTrials)
  {
    var trials := BuildTrials(goTrials, nogoTrials);
    var shuffled := Shuffle.Shuffled(trials, pick);
    session.Start(shuffled);
    total := |shuffled|;
  }

  method NextTrial(session: Engine.Session<Kind, TrialResult>) returns (d: Engine.Dispatch<Kind>)
    modifies session
    ensures (session.State(), d) == Engine.Advance(old(session.State()))
  {
    d := session.NextTrial();
  }

  method RecordResponse(session: Engine.Session<Kind, TrialResult>, response: Option<string>, rt: Option<real>)
    returns (status: Engine.RecordStatus)
    modifies session
    ensures (session.State(), status) == Engine.RecordIn(old(session.State()), Scorer(response, rt))
  {
    status := session.RecordResponse(Scorer(response, rt));
  }

  // ---- show_results ----

  datatype Summary = Summary(
    totalTrials: nat,
    accuracy: real,
    goTotal: nat,
    goAccuracy: real,
    goAvgRt: real,
    goMisses: nat,
    nogoTotal: nat,
    nogoAccuracy: real,
    nogoFalseAlarms: nat)

  function IsCorrect(r: TrialResult): bool { r.isCorrect }
  function IsGo(r: TrialResult): bool { r.kind == Go }
  function IsNoGo(r: TrialResult): bool { r.kind == NoGo }
  function IsMiss(r: TrialResult): bool { r.errorType == Some(Detection.Miss) }
  function IsFalseAlarm(r: TrialResult): bool { r.errorType == Some(Detection.FalseAlarm) }

  function HasRt(r: TrialResult): bool { r.reactionTime.Some? }

  /**
   * The reaction times that are present, in order, one per result that has one; unlike
   * the other tasks, correctness is not required.
   */
  function PresentRts(rs: seq<TrialResult>): (xs: seq<real>)
    ensures |xs| == Count(rs, HasRt)
  {
    if rs == [] then []
    else
      match rs[0].reactionTime
      case Some(t) => [t] + PresentRts(rs[1..])
      case None => PresentRts(rs[1..])
  }

  /** Bounds on the recorded reaction times carry over to the list of present ones. */
  lemma {:induction false} PresentRtsWithin(rs: seq<TrialResult>, lo: real, hi: real)
    requires forall i :: 0 <= i < |rs| ==> rs[i].reactionTime.Some? ==> lo <= rs[i].reactionTime.value <= hi
    ensures forall i :: 0 <= i < |PresentRts(rs)| ==> lo <= PresentRts(rs)[i] <= hi
  {
    if rs != [] {
      assert forall i :: 0 <= i < |rs[1..]| ==> rs[1..][i] == rs[i + 1];
      PresentRtsWithin(rs[1..], lo, hi);
    }
  }

  /** `None` is the "no results" page. */
  function Summarize(rs: seq<TrialResult>): (r: Option<Summary>)
    ensures r.None? <==> rs == []
    ensures r.Some? ==> r.value.totalTrials == |rs|
  {
    if rs == [] then None
    else
      var go := Filter(rs, IsGo);
      var nogo := Filter(rs, IsNoGo);
      Some(Summary(
        |rs|,
        Accuracy(Count(rs, IsCorrect), |rs|),
        |go|,
        Accuracy(Count(go, IsCorrect), |go|),
        Mean(PresentRts(go)),
        Count(go, IsMiss),
        |nogo|,
        Accuracy(Count(nogo, IsCorrect), |nogo|),
        Count(nogo, IsFalseAlarm)))
  }

  /**
   * Go and no-go trials share out the results, the overall accuracy is their weighted
   * mix, and every accuracy is a percentage.
   */
  lemma SummaryPartition(rs: seq<TrialResult>)
    requires Summarize(rs).Some?
    ensures var sm := Summarize(rs).value;
            sm.goTotal + sm.nogoTotal == sm.totalTrials
            && WeightedMix(sm.totalTrials, sm.accuracy, sm.goTotal, sm.goAccuracy, sm.nogoTotal, sm.nogoAccuracy)
            && 0.0 <= sm.accuracy <= 100.0
            && 0.0 <= sm.goAccuracy <= 100.0
            && 0.0 <= sm.nogoAccuracy <= 100.0
  {
    var go := Filter(rs, IsGo);
    var nogo := Filter(rs, IsNoGo);
    PartitionAccuracy(rs, IsGo, IsNoGo, IsCorrect);
    AccuracyRange(Count(rs, IsCorrect), |rs|);
    AccuracyRange(Count(go, IsCorrect), |go|);
    AccuracyRange(Count(nogo, IsCorrect), |nogo|);
  }

  /**
   * On results the handler scored, every go trial is either correct or a miss and every
   * no-go trial either correct or a false alarm, so the error counts are the complements
   * of the correct counts.
   */
  lemma SummaryErrors(rs: seq<TrialResult>)
    requires Summarize(rs).Some?
    requires forall i :: 0 <= i < |rs| ==> Scored(rs[i])
    ensures var sm := Summarize(rs).value;
            var go := Filter(rs, IsGo);
            var nogo := Filter(rs, IsNoGo);
            sm.goMisses == sm.goTotal - Count(go, IsCorrect)
            && sm.nogoFalseAlarms == sm.nogoTotal - Count(nogo, IsCorrect)
  {
    var go := Filter(rs, IsGo);
    var nogo := Filter(rs, IsNoGo);
    forall i | 0 <= i < |go|
      ensures IsMiss(go[i]) != IsCorrect(go[i])
    {
      assert go[i] in rs;
      var j :| 0 <= j < |rs| && rs[j] == go[i];
      assert Scored(rs[j]);
    }
    forall i | 0 <= i < |nogo|
      ensures IsFalseAlarm(nogo[i]) != IsCorrect(nogo[i])
    {
      assert nogo[i] in rs;
      var j :| 0 <= j < |rs| && rs[j] == nogo[i];
      assert Scored(rs[j]);
    }
    CountComplement(go, IsMiss, IsCorrect);
    CountComplement(nogo, IsFalseAlarm, IsCorrect);
  }

  /**
   * The go mean reaction time stays within the range of the go trials' recorded times
   * when some go result has one, and is 0 when none has.
   */
  lemma GoRtWithin(rs: seq<TrialResult>, lo: real, hi: real)
    requires Summarize(rs).Some?
    requires forall i :: 0 <= i < |rs| ==> rs[i].reactionTime.Some? ==> lo <= rs[i].reactionTime.value <= hi
    ensures Count(Filter(rs, IsGo), HasRt) > 0 ==> lo <= Summarize(rs).value.goAvgRt <= hi
    ensures Count(Filter(rs, IsGo), HasRt) == 0 ==> Summarize(rs).value.goAvgRt == 0.0
  {
    var go := Filter(rs, IsGo);
    forall i | 0 <= i < |go| && go[i].reactionTime.Some?
      ensures lo <= go[i].reactionTime.value <= hi
    {
      assert go[i] in rs;
    }
    PresentRtsWithin(go, lo, hi);
    if Count(go, HasRt) > 0 {
      MeanBounds(PresentRts(go), lo, hi);
    }
  }
}
