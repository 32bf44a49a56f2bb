/**
 * The Stroop task (`flask_hello_ver2/stroop.py`, and the four-colour copy in
 * `flask_hello_ver2/main_app.py`): a colour word is shown in an ink colour and the
 * participant presses the key of the ink. The two apps differ only in their palette,
 * which is a parameter here.
 */
module Stroop {
  import opened Common
  import opened Stats
  import Shuffle
  import Engine

  datatype Color = Red | Blue | Yellow | Black | Green

  /** The Japanese colour word of `COLORS[c]['name']`. */
  function Name(c: Color): string
  {
    match c
    case Red => "あか"
    case Blue => "あお"
    case Yellow => "きいろ"
    case Black => "くろ"
    case Green => "みどり"
  }

  /** The ink of `COLORS[c]['color']`. */
  function Code(c: Color): string
  {
    match c
    case Red => "#dc3545"
    case Blue => "#007bff"
    case Yellow => "#ffc107"
    case Black => "#000000"
    case Green => "#28a745"
  }

  /** The colours an app draws from, in `COLORS`' order, and its response key per colour. */
  datatype Palette = Palette(colors: seq<Color>, keys: map<Color, string>)

  /** `COLORS` and `RESPONSE_KEYS` of the standalone app. */
  const STANDALONE: Palette := Palette(
    [Red, Blue, Yellow, Black, Green],
    map[Red := "1", Blue := "2", Yellow := "3", Black := "4", Green := "5"])

  /** `COLORS_STROOP` and `RESPONSE_KEYS_STROOP` of the combined app. */
  const COMBINED: Palette := Palette(
    [Red, Blue, Yellow, Green],
    map[Red := "1", Blue := "2", Yellow := "3", Green := "4"])

  const STIMULUS_DURATION: nat := 500
  const ISI_DURATION: nat := 1500
  const MAX_RESPONSE_TIME: nat := STIMULUS_DURATION + ISI_DURATION

  /**
   * A palette the generator can draw an incongruent trial from: at least two distinct
   * colours, each with a key, and no key shared by two colours.
   */
  predicate WellFormed(p: Palette)
  {
    |p.colors| >= 2
    && (forall i :: 0 <= i < |p.colors| ==> p.colors[i] in p.keys)
    && (forall i, j :: 0 <= i < j < |p.colors| ==> p.colors[i] != p.colors[j])
    && (forall i, j :: 0 <= i < j < |p.colors| ==> p.keys[p.colors[i]] != p.keys[p.colors[j]])
  }

  lemma StandaloneWellFormed()
    ensures WellFormed(STANDALONE) && |STANDALONE.colors| == 5
  {
    var cs := STANDALONE.colors;
    assert cs[0] == Red && cs[1] == Blue && cs[2] == Yellow && cs[3] == Black && cs[4] == Green;
  }

  lemma CombinedWellFormed()
    ensures WellFormed(COMBINED) && |COMBINED.colors| == 4 && Black !in COMBINED.colors
  {
    var cs := COMBINED.colors;
    assert cs[0] == Red && cs[1] == Blue && cs[2] == Yellow && cs[3] == Green;
  }

  /** Two different colours of a well-formed palette have different keys. */
  lemma KeysDistinct(p: Palette, c: Color, d: Color)
    requires WellFormed(p) && c in p.colors && d in p.colors && c != d
    ensures c in p.keys && d in p.keys && p.keys[c] != p.keys[d]
  {
    var i :| 0 <= i < |p.colors| && p.colors[i] == c;
    var j :| 0 <= j < |p.colors| && p.colors[j] == d;
    if i > j {
      assert p.keys[p.colors[j]] != p.keys[p.colors[i]];
    }
  }

  datatype Condition = Congruent | Incongruent

  datatype Trial = Trial(kind: Condition, text: string, textColor: Color, displayColor: Color)

  /**
   * What `start` builds: the word names its own colour, both colours come from the
   * palette, and the ink equals the word's colour exactly on congruent trials.
   */
  predicate TrialOk(p: Palette, t: Trial)
  {
    t.text == Name(t.textColor)
    && t.textColor in p.colors && t.displayColor in p.colors
    && (t.kind == Congruent <==> t.displayColor == t.textColor)
  }

  /** `[c for c in color_list if c != text_color]`. */
  function OtherColors(colors: seq<Color>, c: Color): (r: seq<Color>)
    ensures forall i :: 0 <= i < |r| ==> r[i] != c && r[i] in colors
  {
    Filter(colors, (d: Color) => d != c)
  }

  lemma OtherColorsNonEmpty(p: Palette, c: Color)
    requires WellFormed(p)
    ensures |OtherColors(p.colors, c)| > 0
  {
    var i := if p.colors[0] != c then 0 else 1;
    CountPositive(p.colors, (d: Color) => d != c, i);
  }

  function IsCongruentTrial(t: Trial): bool { t.kind == Congruent }
  function IsIncongruentTrial(t: Trial): bool { t.kind == Incongruent }

  /** One congruent trial: the word and the ink are the colour drawn with `x`. */
  function CongruentTrial(p: Palette, x: nat): (t: Trial)
    requires WellFormed(p)
    ensures TrialOk(p, t) && t.kind == Congruent
  {
    var color := Choice(p.colors, x);
    Trial(Congruent, Name(color), color, color)
  }

  /** One incongruent trial: the word's colour drawn with `x`, the ink among the others with `y`. */
  function IncongruentTrial(p: Palette, x: nat, y: nat): (t: Trial)
    requires WellFormed(p)
    ensures TrialOk(p, t) && t.kind == Incongruent
  {
    var textColor := Choice(p.colors, x);
    OtherColorsNonEmpty(p, textColor);
    var displayColor := Choice(OtherColors(p.colors, textColor), y);
    Trial(Incongruent, Name(textColor), textColor, displayColor)
  }

  lemma CountsAppend(ts: seq<Trial>, t: Trial)
    ensures Count(ts + [t], IsCongruentTrial) == Count(ts, IsCongruentTrial) + (if t.kind == Congruent then 1 else 0)
    ensures Count(ts + [t], IsIncongruentTrial) == Count(ts, IsIncongruentTrial) + (if t.kind == Incongruent then 1 else 0)
  {
    CountAppend(ts, [t], IsCongruentTrial);
    CountAppend(ts, [t], IsIncongruentTrial);
  }

  /**
   * `start`'s two loops: `congruent_trials` congruent trials, then `incongruent_trials`
   * incongruent ones. `pick(k)` is the `k`-th draw of `random.choice`.
   */
  method BuildTrials(p: Palette, congruentTrials: int, incongruentTrials: int, pick: nat -> nat)
    returns (ts: seq<Trial>)
    requires WellFormed(p)
    ensures |ts| == RangeLen(congruentTrials) + RangeLen(incongruentTrials)
    ensures Count(ts, IsCongruentTrial) == RangeLen(congruentTrials)
    ensures Count(ts, IsIncongruentTrial) == RangeLen(incongruentTrials)
    ensures forall i :: 0 <= i < |ts| ==> TrialOk(p, ts[i])
  {
    ts := [];
    var draw: nat := 0;
    var i := 0;
    while i < congruentTrials
      invariant 0 <= i <= RangeLen(congruentTrials)
      invariant |ts| == i && Count(ts, IsCongruentTrial) == i && Count(ts, IsIncongruentTrial) == 0
      invariant forall k :: 0 <= k < |ts| ==> TrialOk(p, ts[k])
    {
      var t := CongruentTrial(p, pick(draw));
      draw := draw + 1;
      CountsAppend(ts, t);
      ts := ts + [t];
      i := i + 1;
    }
    var j := 0;
    while j < incongruentTrials
      invariant 0 <= j <= RangeLen(incongruentTrials)
      invariant |ts| == RangeLen(congruentTrials) + j
      invariant Count(ts, IsCongruentTrial) == RangeLen(congruentTrials) && Count(ts, IsIncongruentTrial) == j
      invariant forall k :: 0 <= k < |ts| ==> TrialOk(p, ts[k])
    {
      var t := IncongruentTrial(p, pick(draw), pick(draw + 1));
      draw := draw + 2;
      CountsAppend(ts, t);
      ts := ts + [t];
      j := j + 1;
    }
  }

  /**
   * `start`: build, shuffle (with its own oracle), store. The shuffle keeps both
   * condition counts and every trial's well-formedness.
   */
  method Start(session: Engine.Session<Trial, TrialResult>, p: Palette, congruentTrials: int, incongruentTrials: int,
               pick: nat -> nat, shufflePick: nat -> nat)
    returns (total: nat)
    requires WellFormed(p)
    modifies session
    ensures session.cursor == 0 && session.results == []
    ensures total == |session.trials| == RangeLen(congruentTrials) + RangeLen(incongruentTrials)
    ensures Count(session.trials, IsCongruentTrial) == RangeLen(congruentTrials)
    ensures Count(session.trials, IsIncongruentTrial) == RangeLen(incongruentTrials)
    ensures forall i :: 0 <= i < |session.trials| ==> TrialOk(p, session.trials[i])
  {
    var trials := BuildTrials(p, congruentTrials, incongruentTrials, pick);
    var shuffled := Shuffle.Shuffled(trials, shufflePick);
    CountPermutation(shuffled, trials, IsCongruentTrial);
    CountPermutation(shuffled, trials, IsIncongruentTrial);
    forall i | 0 <= i < |shuffled|
      ensures TrialOk(p, shuffled[i])
    {
      assert shuffled[i] in multiset(trials);
    }
    session.Start(shuffled);
    total := |shuffled|;
  }

  /**
   * `next_trial`'s `display_color_code`: the text colour's code on congruent trials, the
   * ink's code otherwise.
   */
  function DisplayCode(t: Trial): string
  {
    if t.kind == Congruent then Code(t.textColor) else Code(t.displayColor)
  }

  /** On the trials `start` builds, the colour shown is always the ink. */
  lemma DisplayCodeIsInk(p: Palette, t: Trial)
    requires TrialOk(p, t)
    ensures DisplayCode(t) == Code(t.displayColor)
  {
  }

  method NextTrial(session: Engine.Session<Trial, TrialResult>) returns (d: Engine.Dispatch<Trial>)
    modifies session
    ensures (session.State(), d) == Engine.Advance(old(session.State()))
  {
    d := session.NextTrial();
  }

  /** One entry of `session['results']`. */
  datatype TrialResult = TrialResult(
    trial: nat,
    text: string,
    textColor: Color,
    displayColor: Color,
    kind: Condition,
    response: Option<string>,
    correctKey: string,
    reactionTime: Option<real>,
    isCorrect: bool)

  /**
   * `record_response`'s scoring; `None` is the `KeyError` raised when the ink has no
   * key in the palette.
   */
  function Score(p: Palette, t: Trial, trial: nat, response: Option<string>, rt: Option<real>): Option<TrialResult>
  {
    if t.displayColor !in p.keys then None
    else
      var correctKey := p.keys[t.displayColor];
      Some(TrialResult(trial, t.text, t.textColor, t.displayColor, t.kind, response, correctKey, rt,
                       response.Some? && response.value == correctKey))
  }

  function Scorer(p: Palette, response: Option<string>, rt: Option<real>): (Trial, nat) -> Option<TrialResult>
  {
    (t: Trial, n: nat) => Score(p, t, n, response, rt)
  }

  /**
   * On a well-formed trial scoring never raises; a response is correct exactly when it
   * is the ink's key, so on an incongruent trial reading the word (pressing the word's
   * colour key) is always wrong, and no response is never correct.
   */
  lemma ScoreMeaning(p: Palette, t: Trial, trial: nat, response: Option<string>, rt: Option<real>)
    requires WellFormed(p) && TrialOk(p, t)
    ensures Score(p, t, trial, response, rt).Some?
    ensures var r := Score(p, t, trial, response, rt).value;
            r.trial == trial && r.correctKey == p.keys[t.displayColor]
            && (r.isCorrect <==> response == Some(p.keys[t.displayColor]))
            && (t.kind == Incongruent && response == Some(p.keys[t.textColor]) ==> !r.isCorrect)
            && (response.None? ==> !r.isCorrect)
  {
    if t.kind == Incongruent {
      KeysDistinct(p, t.textColor, t.displayColor);
    }
  }

  /** On a valid session whose trials `start` built, a response is recorded exactly when a trial has been dispatched. */
  lemma RecordedResult(p: Palette, s: Engine.SessionState<Trial, TrialResult>, response: Option<string>, rt: Option<real>)
    requires WellFormed(p) && Engine.Valid(s)
    requires forall i :: 0 <= i < |s.trials| ==> TrialOk(p, s.trials[i])
    ensures var (s', status) := Engine.RecordIn(s, Scorer(p, response, rt));
            (status == Engine.Recorded <==> s.cursor > 0)
            && (status == Engine.Recorded ==>
                  s'.results == s.results + [Score(p, s.trials[s.cursor - 1], s.cursor, response, rt).value])
            && (status != Engine.Recorded ==> status == Engine.NotStarted && s' == s)
  {
    if s.cursor > 0 {
      ScoreMeaning(p, s.trials[s.cursor - 1], s.cursor, response, rt);
    }
    Engine.RecordOutcomes(s, Scorer(p, response, rt));
  }

  method RecordResponse(session: Engine.Session<Trial, TrialResult>, p: Palette, response: Option<string>, rt: Option<real>)
    returns (status: Engine.RecordStatus)
    modifies session
    ensures (session.State(), status) == Engine.RecordIn(old(session.State()), Scorer(p, response, rt))
  {
    status := session.RecordResponse(Scorer(p, response, rt));
  }

  // ---- show_results ----

  datatype Summary = Summary(
    totalTrials: nat,
    accuracy: real,
    congruentTotal: nat,
    congruentAccuracy: real,
    congruentAvgRt: real,
    incongruentTotal: nat,
    incongruentAccuracy: real,
    incongruentAvgRt: real,
    stroopEffect: real)

  function IsCorrect(r: TrialResult): bool { r.isCorrect }
  function IsCongruent(r: TrialResult): bool { r.kind == Congruent }
  function IsIncongruent(r: TrialResult): bool { r.kind == Incongruent }
  function IsCorrectTimed(r: TrialResult): bool { r.isCorrect && r.reactionTime.Some? }

  /** The reaction times of the correct results that have one, in order: one per such result. */
  function CorrectRts(rs: seq<TrialResult>): (xs: seq<real>)
    ensures |xs| == Count(rs, IsCorrectTimed)
  {
    if rs == [] then []
    else (if rs[0].isCorrect && rs[0].reactionTime.Some? then [rs[0].reactionTime.value] else []) + CorrectRts(rs[1..])
  }

  /** `None` is the "no results" page. */
  function Summarize(rs: seq<TrialResult>): (r: Option<Summary>)
    ensures r.None? <==> rs == []
    ensures r.Some? ==> r.value.totalTrials == |rs|
  {
    if rs == [] then None
    else
      var congruent := Filter(rs, IsCongruent);
      var incongruent := Filter(rs, IsIncongruent);
      var congruentAvgRt := Mean(CorrectRts(congruent));
      var incongruentAvgRt := Mean(CorrectRts(incongruent));
      Some(Summary(
        |rs|,
        Accuracy(Count(rs, IsCorrect), |rs|),
        |congruent|,
        Accuracy(Count(congruent, IsCorrect), |congruent|),
        congruentAvgRt,
        |incongruent|,
        Accuracy(Count(incongruent, IsCorrect), |incongruent|),
        incongruentAvgRt,
        incongruentAvgRt - congruentAvgRt))
  }

  /**
   * The two conditions share out the results, the overall accuracy is their weighted
   * mix, every accuracy is a percentage and 100 means no error.
   */
  lemma SummaryPartition(rs: seq<TrialResult>)
    requires Summarize(rs).Some?
    ensures var sm := Summarize(rs).value;
            sm.congruentTotal + sm.incongruentTotal == sm.totalTrials
            && WeightedMix(sm.totalTrials, sm.accuracy, sm.congruentTotal, sm.congruentAccuracy,
                           sm.incongruentTotal, sm.incongruentAccuracy)
            && 0.0 <= sm.accuracy <= 100.0
            && 0.0 <= sm.congruentAccuracy <= 100.0
            && 0.0 <= sm.incongruentAccuracy <= 100.0
            && (sm.accuracy == 100.0 <==> forall i :: 0 <= i < |rs| ==> rs[i].isCorrect)
  {
    var congruent := Filter(rs, IsCongruent);
    var incongruent := Filter(rs, IsIncongruent);
    PartitionAccuracy(rs, IsCongruent, IsIncongruent, IsCorrect);
    AccuracyRange(Count(rs, IsCorrect), |rs|);
    AccuracyRange(Count(congruent, IsCorrect), |congruent|);
    AccuracyRange(Count(incongruent, IsCorrect), |incongruent|);
    CountAll(rs, IsCorrect);
  }

  /** Bounds on the recorded reaction times carry over to the averaged ones. */
  lemma {:induction false} CorrectRtsWithin(rs: seq<TrialResult>, lo: real, hi: real)
    requires forall i :: 0 <= i < |rs| ==> rs[i].reactionTime.Some? ==> lo <= rs[i].reactionTime.value <= hi
    ensures forall i :: 0 <= i < |CorrectRts(rs)| ==> lo <= CorrectRts(rs)[i] <= hi
  {
    if rs != [] {
      assert forall i :: 0 <= i < |rs[1..]| ==> rs[1..][i] == rs[i + 1];
      CorrectRtsWithin(rs[1..], lo, hi);
    }
  }

  /** The averaged times of one condition stay within the bounds of the results' recorded times. */
  lemma ConditionRtWithin(rs: seq<TrialResult>, p: TrialResult -> bool, lo: real, hi: real)
    requires forall i :: 0 <= i < |rs| ==> rs[i].reactionTime.Some? ==> lo <= rs[i].reactionTime.value <= hi
    ensures CorrectRts(Filter(rs, p)) != [] ==> lo <= Mean(CorrectRts(Filter(rs, p))) <= hi
  {
    var part := Filter(rs, p);
    forall i | 0 <= i < |part| && part[i].reactionTime.Some?
      ensures lo <= part[i].reactionTime.value <= hi
    {
      assert part[i] in rs;
    }
    CorrectRtsWithin(part, lo, hi);
    if CorrectRts(part) != [] {
      MeanBounds(CorrectRts(part), lo, hi);
    }
  }

  /**
   * Each condition's mean reaction time over its correct, timed trials lies within the
   * range of the recorded times (it is 0 when there are none), and the Stroop effect is
   * positive exactly when correct incongruent trials are slower on average.
   */
  lemma SummaryReactionTimes(rs: seq<TrialResult>, lo: real, hi: real)
    requires Summarize(rs).Some?
    requires forall i :: 0 <= i < |rs| ==> rs[i].reactionTime.Some? ==> lo <= rs[i].reactionTime.value <= hi
    ensures var sm := Summarize(rs).value;
            (Count(Filter(rs, IsCongruent), IsCorrectTimed) > 0 ==> lo <= sm.congruentAvgRt <= hi)
            && (Count(Filter(rs, IsCongruent), IsCorrectTimed) == 0 ==> sm.congruentAvgRt == 0.0)
            && (Count(Filter(rs, IsIncongruent), IsCorrectTimed) > 0 ==> lo <= sm.incongruentAvgRt <= hi)
            && (Count(Filter(rs, IsIncongruent), IsCorrectTimed) == 0 ==> sm.incongruentAvgRt == 0.0)
            && (sm.stroopEffect > 0.0 <==> sm.incongruentAvgRt > sm.congruentAvgRt)
  {
    ConditionRtWithin(rs, IsCongruent, lo, hi);
    ConditionRtWithin(rs, IsIncongruent, lo, hi);
  }
}
