/**
 * The flanker task (`flask_hello_ver2/flanker.py`): rows of five arrows; the answer is
 * the direction of the middle arrow, and a trial is congruent when the flanking arrows
 * point the same way.
 */
module Flanker {
  import opened Common
  import opened Stats
  import Shuffle
  import Engine

  /** A row of arrows; scoring reads its characters 0 and 2, so it has at least three. */
  type Stimulus = s: string | |s| >= 3 witness "<<<"

  const STIMULI: seq<Stimulus> := ["<<<<<", ">>>>>", "<<><<", ">><>>"]

  /** Timing constants (milliseconds) and response keys sent with every trial. */
  const STIMULUS_DURATION: nat := 300
  const BLANK_DURATION: nat := 1500
  const MAX_RESPONSE_TIME: nat := STIMULUS_DURATION + BLANK_DURATION
  const LEFT_KEY: string := "c"
  const RIGHT_KEY: string := "m"

  datatype Condition = Congruent | Incongruent

  /** One entry of `session['results']`. */
  datatype TrialResult = TrialResult(
    trial: nat,
    stimulus: Stimulus,
    response: Option<string>,
    reactionTime: Option<real>,
    isCorrect: bool,
    condition: Condition)

  function CorrectResponse(s: Stimulus): string
  {
    if s[2] == '<' then "left" else "right"
  }

  function ConditionOf(s: Stimulus): Condition
  {
    if s[0] == s[2] then Congruent else Incongruent
  }

  /** The direction an arrow character points, read the way `CorrectResponse` reads the middle one. */
  function Direction(c: char): string
  {
    if c == '<' then "left" else "right"
  }

  /** The result `record_response` stores for stimulus `s` dispatched as trial number `trial`. */
  function Score(s: Stimulus, trial: nat, response: Option<string>, rt: Option<real>): TrialResult
  {
    TrialResult(trial, s, response, rt, response == Some(CorrectResponse(s)), ConditionOf(s))
  }

  /** The flanker classifier as the session's scorer; it never raises. */
  function Scorer(response: Option<string>, rt: Option<real>): (Stimulus, nat) -> Option<TrialResult>
  {
    (s: Stimulus, n: nat) => Some(Score(s, n, response, rt))
  }

  /** The four stimuli: the answer follows the middle arrow, congruence the first one. */
  lemma StimulusTable()
    ensures CorrectResponse(STIMULI[0]) == "left" && ConditionOf(STIMULI[0]) == Congruent
    ensures CorrectResponse(STIMULI[1]) == "right" && ConditionOf(STIMULI[1]) == Congruent
    ensures CorrectResponse(STIMULI[2]) == "right" && ConditionOf(STIMULI[2]) == Incongruent
    ensures CorrectResponse(STIMULI[3]) == "left" && ConditionOf(STIMULI[3]) == Incongruent
  {
  }

  lemma StimuliDistinct()
    ensures forall i, j :: 0 <= i < j < |STIMULI| ==> STIMULI[i] != STIMULI[j]
  {
    assert STIMULI[0][0] != STIMULI[1][0] && STIMULI[0][2] != STIMULI[2][2];
    assert STIMULI[0][0] != STIMULI[3][0] && STIMULI[1][0] != STIMULI[2][0];
    assert STIMULI[1][2] != STIMULI[3][2] && STIMULI[2][0] != STIMULI[3][0];
  }

  /**
   * On the task's stimuli a trial is congruent exactly when every arrow points like the
   * middle one, and the flankers point towards the correct answer exactly on congruent trials.
   */
  lemma CongruenceMeaning(s: Stimulus)
    requires s in STIMULI
    ensures ConditionOf(s) == Congruent <==> forall i :: 0 <= i < |s| ==> s[i] == s[2]
    ensures ConditionOf(s) == Congruent <==> Direction(s[0]) == CorrectResponse(s)
  {
    if s == STIMULI[2] {
      assert s[0] != s[2];
    } else if s == STIMULI[3] {
      assert s[0] != s[2];
    }
  }

  /**
   * A two-alternative forced choice: of `'left'` and `'right'` exactly one is correct,
   * and no other response, and no response at all, is ever correct.
   */
  lemma ForcedChoice(s: Stimulus, trial: nat, rt: Option<real>, response: Option<string>)
    ensures Score(s, trial, Some("left"), rt).isCorrect != Score(s, trial, Some("right"), rt).isCorrect
    ensures !Score(s, trial, None, rt).isCorrect
    ensures response != Some("left") && response != Some("right") ==> !Score(s, trial, response, rt).isCorrect
  {
  }

  /**
   * On a valid session a flanker response is recorded exactly when a trial has been
   * dispatched, and the new last result is that trial's, numbered with the cursor.
   */
  lemma RecordedResult(s: Engine.SessionState<Stimulus, TrialResult>, response: Option<string>, rt: Option<real>)
    requires Engine.Valid(s)
    ensures var (s', status) := Engine.RecordIn(s, Scorer(response, rt));
            (status == Engine.Recorded <==> s.cursor > 0)
            && (status == Engine.Recorded ==>
                  s'.results == s.results + [Score(s.trials[s.cursor - 1], s.cursor, response, rt)]
                  && s'.results[|s.results|].trial == s.cursor)
            && (status != Engine.Recorded ==> status == Engine.NotStarted && s' == s)
  {
    Engine.RecordOutcomes(s, Scorer(response, rt));
  }

  /** `start`'s nested loops: `trials_per_stimulus` copies of each stimulus, stimulus by stimulus. */
  method BuildTrials(perStimulus: int) returns (ts: seq<Stimulus>)
    ensures |ts| == |STIMULI| * RangeLen(perStimulus)
    ensures forall i :: 0 <= i < |STIMULI| ==> multiset(ts)[STIMULI[i]] == RangeLen(perStimulus)
    ensures forall t :: t in ts ==> t in STIMULI
  {
    StimuliDistinct();
    var n := RangeLen(perStimulus);
    ts := [];
    var i := 0;
    while i < |STIMULI|
      invariant 0 <= i <= |STIMULI|
      invariant |ts| == i * n
      invariant forall j :: 0 <= j < |STIMULI| ==> multiset(ts)[STIMULI[j]] == if j < i then n else 0
      invariant forall t :: t in ts ==> t in STIMULI
    {
      var c := 0;
      while c < n
        invariant 0 <= c <= n
        invariant |ts| == i * n + c
        invariant forall j :: 0 <= j < |STIMULI| ==>
                    multiset(ts)[STIMULI[j]] == if j < i then n else if j == i then c else 0
        invariant forall t :: t in ts ==> t in STIMULI
      {
        ts := ts + [STIMULI[i]];
        c := c + 1;
      }
      i := i + 1;
    }
  }

  /**
   * `start`: build the list, shuffle it, and store it in the session with a fresh cursor
   * and no results. Returns `total_trials`.
   */
  method Start(session: Engine.Session<Stimulus, TrialResult>, perStimulus: int, pick: nat -> nat)
    returns (total: nat)
    modifies session
    ensures session.cursor == 0 && session.results == []
    ensures total == |session.trials| == |STIMULI| * RangeLen(perStimulus)
    ensures forall i :: 0 <= i < |STIMULI| ==> multiset(session.trials)[STIMULI[i]] == RangeLen(perStimulus)
    ensures forall t :: t in session.trials ==> t in STIMULI
  {
    var trials := BuildTrials(perStimulus);
    var shuffled := Shuffle.Shuffled(trials, pick);
    assert forall t :: t in shuffled ==> t in multiset(trials);
    session.Start(shuffled);
    total := |shuffled|;
  }

  /** `next_trial`: the shared cursor rule; the trial number is `current_trial + 1`. */
  method NextTrial(session: Engine.Session<Stimulus, TrialResult>) returns (d: Engine.Dispatch<Stimulus>)
    modifies session
    ensures (session.State(), d) == Engine.Advance(old(session.State()))
  {
    d := session.NextTrial();
  }

  /** `record_response` with the request's `response` and `reaction_time`. */
  method RecordResponse(session: Engine.Session<Stimulus, TrialResult>, response: Option<string>, rt: Option<real>)
    returns (status: Engine.RecordStatus)
    modifies session
    ensures (session.State(), status) == Engine.RecordIn(old(session.State()), Scorer(response, rt))
  {
    status := session.RecordResponse(Scorer(response, rt));
  }

  // ---- show_results ----

  datatype Summary = Summary(
    totalTrials: nat,
    accuracy: real,
    avgRt: real,
    congruentAccuracy: real,
    congruentAvgRt: real,
    incongruentAccuracy: real,
    incongruentAvgRt: real,
    interferenceEffect: real)

  /**
   * Why the results page shows an error instead of a summary: there are no results, or
   * some result has no reaction time (`sum` and `round` raise on `None`).
   */
  datatype SummaryError = NoResults | MissingReactionTime

  function IsCorrect(r: TrialResult): bool { r.isCorrect }
  function IsCongruent(r: TrialResult): bool { r.condition == Congruent }
  function IsIncongruent(r: TrialResult): bool { r.condition == Incongruent }

  /** `[r.get('reaction_time', 0) for r in rs if r.get('is_correct', False)]`. */
  function CorrectRts(rs: seq<TrialResult>): (xs: seq<real>)
    ensures |xs| == Count(rs, IsCorrect)
  {
    if rs == [] then []
    else (if rs[0].isCorrect then [rs[0].reactionTime.GetOr(0.0)] else []) + CorrectRts(rs[1..])
  }

  predicate AllTimed(rs: seq<TrialResult>)
  {
    forall i :: 0 <= i < |rs| ==> rs[i].reactionTime.Some?
  }

  function Summarize(rs: seq<TrialResult>): (r: Result<Summary, SummaryError>)
    ensures r == Err(NoResults) <==> rs == []
    ensures r == Err(MissingReactionTime) <==> rs != [] && !AllTimed(rs)
    ensures r.Ok? ==> r.value.totalTrials == |rs|
  {
    if rs == [] then Err(NoResults)
    else if !AllTimed(rs) then Err(MissingReactionTime)
    else
      var congruent := Filter(rs, IsCongruent);
      var incongruent := Filter(rs, IsIncongruent);
      var congruentAvgRt := Mean(CorrectRts(congruent));
      var incongruentAvgRt := Mean(CorrectRts(incongruent));
      Ok(Summary(
        |rs|,
        Accuracy(Count(rs, IsCorrect), |rs|),
        Mean(CorrectRts(rs)),
        Accuracy(Count(congruent, IsCorrect), |congruent|),
        congruentAvgRt,
        Accuracy(Count(incongruent, IsCorrect), |incongruent|),
        incongruentAvgRt,
        incongruentAvgRt - congruentAvgRt))
  }

  /**
   * The summary's percentages: each accuracy lies between 0 and 100, and the overall one
   * is 100 exactly when every trial was answered correctly.
   */
  lemma SummaryAccuracies(rs: seq<TrialResult>)
    requires Summarize(rs).Ok?
    ensures var sm := Summarize(rs).value;
            0.0 <= sm.accuracy <= 100.0
            && 0.0 <= sm.congruentAccuracy <= 100.0
            && 0.0 <= sm.incongruentAccuracy <= 100.0
            && (sm.accuracy == 100.0 <==> forall i :: 0 <= i < |rs| ==> rs[i].isCorrect)
  {
    var congruent := Filter(rs, IsCongruent);
    var incongruent := Filter(rs, IsIncongruent);
    AccuracyRange(Count(rs, IsCorrect), |rs|);
    AccuracyRange(Count(congruent, IsCorrect), |congruent|);
    AccuracyRange(Count(incongruent, IsCorrect), |incongruent|);
    CountAll(rs, IsCorrect);
  }

  /**
   * The two conditions share out the results, and the overall accuracy is the
   * trial-weighted mix of the congruent and incongruent accuracies.
   */
  lemma SummaryWeighted(rs: seq<TrialResult>)
    requires Summarize(rs).Ok?
    ensures var sm := Summarize(rs).value;
            var nc := |Filter(rs, IsCongruent)|;
            var ni := |Filter(rs, IsIncongruent)|;
            nc + ni == sm.totalTrials
            && WeightedMix(sm.totalTrials, sm.accuracy, nc, sm.congruentAccuracy, ni, sm.incongruentAccuracy)
  {
    PartitionAccuracy(rs, IsCongruent, IsIncongruent, IsCorrect);
  }

  /**
   * Each mean reaction time (overall, congruent, incongruent) averages the correct
   * results only: it lies within the range of the recorded times when the group has a
   * correct result and is 0 when it has none. The interference effect is positive
   * exactly when correct incongruent trials are slower on average.
   */
  lemma SummaryReactionTimes(rs: seq<TrialResult>, lo: real, hi: real)
    requires Summarize(rs).Ok?
    requires forall i :: 0 <= i < |rs| ==> lo <= rs[i].reactionTime.GetOr(0.0) <= hi
    ensures var sm := Summarize(rs).value;
            (Count(rs, IsCorrect) > 0 ==> lo <= sm.avgRt <= hi)
            && (Count(rs, IsCorrect) == 0 ==> sm.avgRt == 0.0)
            && (Count(Filter(rs, IsCongruent), IsCorrect) > 0 ==> lo <= sm.congruentAvgRt <= hi)
            && (Count(Filter(rs, IsCongruent), IsCorrect) == 0 ==> sm.congruentAvgRt == 0.0)
            && (Count(Filter(rs, IsIncongruent), IsCorrect) > 0 ==> lo <= sm.incongruentAvgRt <= hi)
            && (Count(Filter(rs, IsIncongruent), IsCorrect) == 0 ==> sm.incongruentAvgRt == 0.0)
            && (sm.interferenceEffect > 0.0 <==> sm.incongruentAvgRt > sm.congruentAvgRt)
  {
    CorrectRtsWithin(rs, lo, hi);
    if Count(rs, IsCorrect) > 0 {
      MeanBounds(CorrectRts(rs), lo, hi);
    }
    ConditionRtWithin(rs, IsCongruent, lo, hi);
    ConditionRtWithin(rs, IsIncongruent, lo, hi);
  }

  /** The mean over one condition's correct results stays within the recorded times' range. */
  lemma ConditionRtWithin(rs: seq<TrialResult>, p: TrialResult -> bool, lo: real, hi: real)
    requires forall i :: 0 <= i < |rs| ==> lo <= rs[i].reactionTime.GetOr(0.0) <= hi
    ensures Count(Filter(rs, p), IsCorrect) > 0 ==> lo <= Mean(CorrectRts(Filter(rs, p))) <= hi
  {
    var part := Filter(rs, p);
    forall i | 0 <= i < |part|
      ensures lo <= part[i].reactionTime.GetOr(0.0) <= hi
    {
      assert part[i] in rs;
    }
    CorrectRtsWithin(part, lo, hi);
    if Count(part, IsCorrect) > 0 {
      MeanBounds(CorrectRts(part), lo, hi);
    }
  }

  lemma {:induction false} CorrectRtsWithin(rs: seq<TrialResult>, lo: real, hi: real)
    requires forall i :: 0 <= i < |rs| ==> lo <= rs[i].reactionTime.GetOr(0.0) <= hi
    ensures forall i :: 0 <= i < |CorrectRts(rs)| ==> lo <= CorrectRts(rs)[i] <= hi
  {
    if rs != [] {
      assert forall i :: 0 <= i < |rs[1..]| ==> rs[1..][i] == rs[i + 1];
      CorrectRtsWithin(rs[1..], lo, hi);
    }
  }
}
