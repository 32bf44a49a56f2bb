/**
 * The combined app (`flask_hello_ver2/main_app.py`): the flanker, go/no-go and
 * four-colour Stroop tasks served under `/flanker`, `/gonogo` and `/stroop`, all three
 * keeping their trials, cursor and results in ONE session. Each task's handlers are the
 * standalone task's logic; what is new is that a handler can meet another task's trials.
 */
module Combined {
  import opened Common
  import opened Stats
  import Shuffle
  import Engine
  import Flanker
  import GoNoGo
  import Stroop

  datatype Task = FlankerTask | GoNoGoTask | StroopTask

  /** What `session['trials']` holds: a flanker string, a go/no-go dict or a Stroop dict. */
  datatype Trial =
    | FlankerTrial(stimulus: Flanker.Stimulus)
    | GoNoGoTrial(kind: GoNoGo.Kind)
    | StroopTrial(trial: Stroop.Trial)

  /** What `session['results']` holds. */
  datatype Outcome =
    | FlankerOutcome(flanker: Flanker.TrialResult)
    | GoNoGoOutcome(gonogo: GoNoGo.TrialResult)
    | StroopOutcome(stroop: Stroop.TrialResult)

  function TaskOf(t: Trial): Task
  {
    match t
    case FlankerTrial(_) => FlankerTask
    case GoNoGoTrial(_) => GoNoGoTask
    case StroopTrial(_) => StroopTask
  }

  function OutcomeTask(o: Outcome): Task
  {
    match o
    case FlankerOutcome(_) => FlankerTask
    case GoNoGoOutcome(_) => GoNoGoTask
    case StroopOutcome(_) => StroopTask
  }

  type State = Engine.SessionState<Trial, Outcome>

  /**
   * What the last `start` of `owner` leaves, and every handler keeps: a valid cursor,
   * only `owner`'s trials and results, and Stroop trials built from the four-colour palette.
   */
  predicate Started(s: State, owner: Task)
  {
    Engine.Valid(s)
    && (forall i :: 0 <= i < |s.trials| ==> TaskOf(s.trials[i]) == owner)
    && (forall i :: 0 <= i < |s.results| ==> OutcomeTask(s.results[i]) == owner)
    && (forall i :: 0 <= i < |s.trials| ==> s.trials[i].StroopTrial? ==> Stroop.TrialOk(Stroop.COMBINED, s.trials[i].trial))
  }

  // ---- start ----

  function WrapFlanker(s: Flanker.Stimulus): Trial { FlankerTrial(s) }
  function WrapGoNoGo(k: GoNoGo.Kind): Trial { GoNoGoTrial(k) }
  function WrapStroop(t: Stroop.Trial): Trial { StroopTrial(t) }

  function IsCongruentStroop(t: Trial): bool { t.StroopTrial? && t.trial.kind == Stroop.Congruent }
  function IsIncongruentStroop(t: Trial): bool { t.StroopTrial? && t.trial.kind == Stroop.Incongruent }

  /** `flanker_start`. */
  method StartFlanker(session: Engine.Session<Trial, Outcome>, perStimulus: int, pick: nat -> nat)
    returns (total: nat)
    modifies session
    ensures session.cursor == 0 && session.results == []
    ensures Started(session.State(), FlankerTask)
    ensures total == |session.trials| == |Flanker.STIMULI| * RangeLen(perStimulus)
    ensures forall i :: 0 <= i < |Flanker.STIMULI| ==>
              multiset(session.trials)[FlankerTrial(Flanker.STIMULI[i])] == RangeLen(perStimulus)
  {
    var stimuli := Flanker.BuildTrials(perStimulus);
    var shuffled := Shuffle.Shuffled(stimuli, pick);
    var trials := Map(shuffled, WrapFlanker);
    forall i | 0 <= i < |Flanker.STIMULI|
      ensures multiset(trials)[FlankerTrial(Flanker.STIMULI[i])] == RangeLen(perStimulus)
    {
      MapMultiset(shuffled, WrapFlanker, Flanker.STIMULI[i]);
    }
    session.Start(trials);
    total := |trials|;
  }

  /** `gonogo_start`. */
  method StartGoNoGo(session: Engine.Session<Trial, Outcome>, goTrials: int, nogoTrials: int, pick: nat -> nat)
    returns (total: nat)
    modifies session
    ensures session.cursor == 0 && session.results == []
    ensures Started(session.State(), GoNoGoTask)
    ensures total == |session.trials| == RangeLen(goTrials) + RangeLen(nogoTrials)
    ensures multiset(session.trials)[GoNoGoTrial(GoNoGo.Go)] == RangeLen(goTrials)
    ensures multiset(session.trials)[GoNoGoTrial(GoNoGo.NoGo)] == RangeLen(nogoTrials)
  {
    var kinds := GoNoGo.BuildTrials(goTrials, nogoTrials);
    var shuffled := Shuffle.Shuffled(kinds, pick);
    var trials := Map(shuffled, WrapGoNoGo);
    MapMultiset(shuffled, WrapGoNoGo, GoNoGo.Go);
    MapMultiset(shuffled, WrapGoNoGo, GoNoGo.NoGo);
    session.Start(trials);
    total := |trials|;
  }

  /** Shuffling and tagging Stroop trials keeps their counts and their palette. */
  lemma StroopTagged(built: seq<Stroop.Trial>, shuffled: seq<Stroop.Trial>)
    requires multiset(shuffled) == multiset(built)
    requires forall i :: 0 <= i < |built| ==> Stroop.TrialOk(Stroop.COMBINED, built[i])
    ensures Count(Map(shuffled, WrapStroop), IsCongruentStroop) == Count(built, Stroop.IsCongruentTrial)
    ensures Count(Map(shuffled, WrapStroop), IsIncongruentStroop) == Count(built, Stroop.IsIncongruentTrial)
    ensures forall i :: 0 <= i < |shuffled| ==>
              Map(shuffled, WrapStroop)[i] == StroopTrial(shuffled[i]) && Stroop.TrialOk(Stroop.COMBINED, shuffled[i])
  {
    CountPermutation(shuffled, built, Stroop.IsCongruentTrial);
    CountPermutation(shuffled, built, Stroop.IsIncongruentTrial);
    forall i | 0 <= i < |shuffled|
      ensures Stroop.TrialOk(Stroop.COMBINED, shuffled[i])
    {
      assert shuffled[i] in multiset(built);
    }
    CountMap(shuffled, WrapStroop, IsCongruentStroop, Stroop.IsCongruentTrial);
    CountMap(shuffled, WrapStroop, IsIncongruentStroop, Stroop.IsIncongruentTrial);
  }

  /** `stroop_start`, over `COLORS_STROOP`. */
  method StartStroop(session: Engine.Session<Trial, Outcome>, congruentTrials: int, incongruentTrials: int,
                     pick: nat -> nat, shufflePick: nat -> nat)
    returns (total: nat)
    modifies session
    ensures session.cursor == 0 && session.results == []
    ensures Started(session.State(), StroopTask)
    ensures total == |session.trials| == RangeLen(congruentTrials) + RangeLen(incongruentTrials)
    ensures Count(session.trials, IsCongruentStroop) == RangeLen(congruentTrials)
    ensures Count(session.trials, IsIncongruentStroop) == RangeLen(incongruentTrials)
  {
    Stroop.CombinedWellFormed();
    var built := Stroop.BuildTrials(Stroop.COMBINED, congruentTrials, incongruentTrials, pick);
    var shuffled := Shuffle.Shuffled(built, shufflePick);
    var trials := Map(shuffled, WrapStroop);
    StroopTagged(built, shuffled);
    session.Start(trials);
    total := |trials|;
  }

  // ---- next_trial ----

  /** `STIMULUS_DISPLAY`: the stimuli written as HTML entities. */
  const STIMULUS_DISPLAY: map<string, string> := map[
    ">>>>>" := "&gt;&gt;&gt;&gt;&gt;",
    "<<<<<" := "&lt;&lt;&lt;&lt;&lt;",
    ">><>>" := "&gt;&gt;&lt;&gt;&gt;",
    "<<><<" := "&lt;&lt;&gt;&lt;&lt;"]

  /** `STIMULUS_DISPLAY.get(stimulus, stimulus)`. */
  function StimulusDisplay(s: string): string
  {
    if s in STIMULUS_DISPLAY then STIMULUS_DISPLAY[s] else s
  }

  /** Every stimulus has an entry, and no entry contains a raw angle bracket. */
  lemma DisplayEscapes(s: string)
    requires s in Flanker.STIMULI
    ensures s in STIMULUS_DISPLAY
    ensures '<' !in StimulusDisplay(s) && '>' !in StimulusDisplay(s)
  {
  }

  /** What a task's `next_trial` answers; `Crashed` is an uncaught exception (HTTP 500). */
  datatype View<T> = Done | Show(item: T, number: nat, total: nat) | Crashed

  datatype FlankerView = FlankerView(stimulus: Flanker.Stimulus, display: string)
  datatype StroopView = StroopView(trial: Stroop.Trial, displayColorCode: string)

  /**
   * A handler's answer to the shared cursor's dispatch: `shown` renders the trial, or
   * gives `None` where the handler raises on a trial that is not its own. The cursor has
   * already moved on when the rendering raises.
   */
  function Present<T>(d: Engine.Dispatch<Trial>, shown: Trial -> Option<T>): View<T>
  {
    match d
    case Completed => Done
    case Next(t, n, total) =>
      match shown(t)
      case None => Crashed
      case Some(x) => Show(x, n, total)
  }

  function FlankerShown(t: Trial): Option<FlankerView>
  {
    if t.FlankerTrial? then Some(FlankerView(t.stimulus, StimulusDisplay(t.stimulus))) else None
  }

  function GoNoGoShown(t: Trial): Option<GoNoGo.Kind>
  {
    if t.GoNoGoTrial? then Some(t.kind) else None
  }

  /** The colour `COLORS_STROOP` is looked up with: the word's on congruent trials, the ink's otherwise. */
  function LookupColor(t: Stroop.Trial): Stroop.Color
  {
    if t.kind == Stroop.Congruent then t.textColor else t.displayColor
  }

  function StroopShown(t: Trial): Option<StroopView>
  {
    if t.StroopTrial? && LookupColor(t.trial) in Stroop.COMBINED.colors
    then Some(StroopView(t.trial, Stroop.DisplayCode(t.trial)))
    else None
  }

  method FlankerNextTrial(session: Engine.Session<Trial, Outcome>) returns (v: View<FlankerView>)
    modifies session
    ensures session.State() == Engine.Advance(old(session.State())).0
    ensures v == Present(Engine.Advance(old(session.State())).1, FlankerShown)
  {
    var d := session.NextTrial();
    v := Present(d, FlankerShown);
  }

  method GoNoGoNextTrial(session: Engine.Session<Trial, Outcome>) returns (v: View<GoNoGo.Kind>)
    modifies session
    ensures session.State() == Engine.Advance(old(session.State())).0
    ensures v == Present(Engine.Advance(old(session.State())).1, GoNoGoShown)
  {
    var d := session.NextTrial();
    v := Present(d, GoNoGoShown);
  }

  method StroopNextTrial(session: Engine.Session<Trial, Outcome>) returns (v: View<StroopView>)
    modifies session
    ensures session.State() == Engine.Advance(old(session.State())).0
    ensures v == Present(Engine.Advance(old(session.State())).1, StroopShown)
  {
    var d := session.NextTrial();
    v := Present(d, StroopShown);
  }

  /**
   * While trials remain, the started task's `next_trial` shows the next trial (a Stroop
   * trial in its ink), and the other two tasks' `next_trial` crash; at the end all three
   * answer `completed`. Dispatching keeps the session started.
   */
  lemma DispatchByTask(s: State, owner: Task)
    requires Started(s, owner)
    ensures Started(Engine.Advance(s).0, owner)
    ensures s.cursor >= |s.trials| ==>
              Present(Engine.Advance(s).1, FlankerShown) == Done
              && Present(Engine.Advance(s).1, GoNoGoShown) == Done
              && Present(Engine.Advance(s).1, StroopShown) == Done
    ensures s.cursor < |s.trials| ==>
              (Present(Engine.Advance(s).1, FlankerShown).Show? <==> owner == FlankerTask)
              && (Present(Engine.Advance(s).1, GoNoGoShown).Show? <==> owner == GoNoGoTask)
              && (Present(Engine.Advance(s).1, StroopShown).Show? <==> owner == StroopTask)
              && (Present(Engine.Advance(s).1, FlankerShown).Crashed? <==> owner != FlankerTask)
              && (Present(Engine.Advance(s).1, GoNoGoShown).Crashed? <==> owner != GoNoGoTask)
              && (Present(Engine.Advance(s).1, StroopShown).Crashed? <==> owner != StroopTask)
    ensures s.cursor < |s.trials| && owner == StroopTask ==>
              Present(Engine.Advance(s).1, StroopShown).item.displayColorCode
              == Stroop.Code(s.trials[s.cursor].trial.displayColor)
  {
    if s.cursor < |s.trials| {
      var t := s.trials[s.cursor];
      assert TaskOf(t) == owner;
      if owner == StroopTask {
        assert Stroop.TrialOk(Stroop.COMBINED, t.trial);
      }
    }
  }

  // ---- record_response ----

  function FlankerScorer(response: Option<string>, rt: Option<real>): (Trial, nat) -> Option<Outcome>
  {
    (t: Trial, n: nat) =>
      if t.FlankerTrial? then Some(FlankerOutcome(Flanker.Score(t.stimulus, n, response, rt))) else None
  }

  function GoNoGoScorer(response: Option<string>, rt: Option<real>): (Trial, nat) -> Option<Outcome>
  {
    (t: Trial, n: nat) =>
      if t.GoNoGoTrial? then Some(GoNoGoOutcome(GoNoGo.Score(t.kind, n, response, rt))) else None
  }

  function StroopScorer(response: Option<string>, rt: Option<real>): (Trial, nat) -> Option<Outcome>
  {
    (t: Trial, n: nat) =>
      if t.StroopTrial? then
        match Stroop.Score(Stroop.COMBINED, t.trial, n, response, rt)
        case Some(r) => Some(StroopOutcome(r))
        case None => None
      else None
  }

  /** The `record_response` handler of `task`. */
  function ScorerFor(task: Task, response: Option<string>, rt: Option<real>): (Trial, nat) -> Option<Outcome>
  {
    match task
    case FlankerTask => FlankerScorer(response, rt)
    case GoNoGoTask => GoNoGoScorer(response, rt)
    case StroopTask => StroopScorer(response, rt)
  }

  method FlankerRecordResponse(session: Engine.Session<Trial, Outcome>, response: Option<string>, rt: Option<real>)
    returns (status: Engine.RecordStatus)
    modifies session
    ensures (session.State(), status) == Engine.RecordIn(old(session.State()), FlankerScorer(response, rt))
  {
    status := session.RecordResponse(FlankerScorer(response, rt));
  }

  method GoNoGoRecordResponse(session: Engine.Session<Trial, Outcome>, response: Option<string>, rt: Option<real>)
    returns (status: Engine.RecordStatus)
    modifies session
    ensures (session.State(), status) == Engine.RecordIn(old(session.State()), GoNoGoScorer(response, rt))
  {
    status := session.RecordResponse(GoNoGoScorer(response, rt));
  }

  method StroopRecordResponse(session: Engine.Session<Trial, Outcome>, response: Option<string>, rt: Option<real>)
    returns (status: Engine.RecordStatus)
    modifies session
    ensures (session.State(), status) == Engine.RecordIn(old(session.State()), StroopScorer(response, rt))
  {
    status := session.RecordResponse(StroopScorer(response, rt));
  }

  /**
   * Recording keeps the session started: the started task's handler records the
   * dispatched trial, another task's handler raises on it and stores nothing, and no
   * handler records before the first dispatch.
   */
  lemma RecordByTask(s: State, owner: Task, caller: Task, response: Option<string>, rt: Option<real>)
    requires Started(s, owner)
    ensures var (s', status) := Engine.RecordIn(s, ScorerFor(caller, response, rt));
            Started(s', owner)
            && (s.cursor == 0 ==> status == Engine.NotStarted)
            && (s.cursor > 0 ==> (status == Engine.Recorded <==> caller == owner))
            && (s.cursor > 0 && caller != owner ==> status == Engine.Rejected)
            && (status != Engine.Recorded ==> s' == s)
            && (status == Engine.Recorded ==> |s'.results| == |s.results| + 1)
  {
    var score := ScorerFor(caller, response, rt);
    Engine.RecordOutcomes(s, score);
    if 0 < s.cursor <= |s.trials| {
      var t := s.trials[s.cursor - 1];
      assert TaskOf(t) == owner;
      if caller == StroopTask && owner == StroopTask {
        Stroop.CombinedWellFormed();
        Stroop.ScoreMeaning(Stroop.COMBINED, t.trial, s.cursor, response, rt);
      }
    }
  }

  // ---- results ----

  /** The flanker results in a results list, in order. */
  function FlankerResults(rs: seq<Outcome>): seq<Flanker.TrialResult>
  {
    if rs == [] then []
    else (if rs[0].FlankerOutcome? then [rs[0].flanker] else []) + FlankerResults(rs[1..])
  }

  function GoNoGoResults(rs: seq<Outcome>): seq<GoNoGo.TrialResult>
  {
    if rs == [] then []
    else (if rs[0].GoNoGoOutcome? then [rs[0].gonogo] else []) + GoNoGoResults(rs[1..])
  }

  function StroopResults(rs: seq<Outcome>): seq<Stroop.TrialResult>
  {
    if rs == [] then []
    else (if rs[0].StroopOutcome? then [rs[0].stroop] else []) + StroopResults(rs[1..])
  }

  /** `flanker_results`, `gonogo_results` and `stroop_results` over their task's results. */
  function FlankerSummary(rs: seq<Outcome>): Result<Flanker.Summary, Flanker.SummaryError>
  {
    Flanker.Summarize(FlankerResults(rs))
  }

  function GoNoGoSummary(rs: seq<Outcome>): Option<GoNoGo.Summary>
  {
    GoNoGo.Summarize(GoNoGoResults(rs))
  }

  function StroopSummary(rs: seq<Outcome>): Option<Stroop.Summary>
  {
    Stroop.Summarize(StroopResults(rs))
  }

  /**
   * On a list holding only one task's results, that task's projection keeps every
   * result, so the projection is the whole list its results page reads.
   */
  lemma {:induction false} OwnResults(rs: seq<Outcome>, owner: Task)
    requires forall i :: 0 <= i < |rs| ==> OutcomeTask(rs[i]) == owner
    ensures |FlankerResults(rs)| == (if owner == FlankerTask then |rs| else 0)
    ensures |GoNoGoResults(rs)| == (if owner == GoNoGoTask then |rs| else 0)
    ensures |StroopResults(rs)| == (if owner == StroopTask then |rs| else 0)
    ensures owner == FlankerTask ==> forall i :: 0 <= i < |rs| ==> rs[i].FlankerOutcome? && FlankerResults(rs)[i] == rs[i].flanker
    ensures owner == GoNoGoTask ==> forall i :: 0 <= i < |rs| ==> rs[i].GoNoGoOutcome? && GoNoGoResults(rs)[i] == rs[i].gonogo
    ensures owner == StroopTask ==> forall i :: 0 <= i < |rs| ==> rs[i].StroopOutcome? && StroopResults(rs)[i] == rs[i].stroop
  {
    if rs != [] {
      assert forall i :: 0 <= i < |rs[1..]| ==> rs[1..][i] == rs[i + 1];
      OwnResults(rs[1..], owner);
    }
  }

  /** The go/no-go page of a go/no-go session summarizes every stored result, in order. */
  lemma GoNoGoPageOnOwnSession(s: State)
    requires Started(s, GoNoGoTask) && s.results != []
    ensures GoNoGoSummary(s.results).Some?
    ensures GoNoGoSummary(s.results).value.totalTrials == |s.results|
    ensures GoNoGoResults(s.results) == seq(|s.results|, i requires 0 <= i < |s.results| => s.results[i].gonogo)
  {
    OwnResults(s.results, GoNoGoTask);
  }
}
