/**
 * The session cursor every task shares: the handlers `next_trial` and `record_response`
 * of the flanker, go/no-go, Stroop and 1-back tasks keep the same three session keys,
 * `trials` (fixed by `start`), `current_trial` (how many trials were dispatched) and
 * `results` (appended to, never edited). `Session` is that session object; `Advance`
 * and `RecordIn` are the two transitions as functions of the session's value, and the
 * lemmas below are what those transitions promise.
 */
module Engine {
  import opened Common

  /** What `next_trial` answers: `{'status': 'completed'}` or the next trial and its 1-based number. */
  datatype Dispatch<T> = Completed | Next(trial: T, number: nat, total: nat)

  /**
   * What `record_response` answers. `NotStarted` and `IndexError` are the two guarded
   * errors; `Rejected` is the `except Exception` branch, taken when scoring the trial raises.
   */
  datatype RecordStatus = Recorded | NotStarted | IndexError | Rejected

  datatype SessionState<T, R> = SessionState(trials: seq<T>, cursor: nat, results: seq<R>)

  /** The cursor never passes the end of the trial list. */
  predicate Valid<T, R>(s: SessionState<T, R>)
  {
    s.cursor <= |s.trials|
  }

  /** `next_trial`: report completion at the end, otherwise hand out `trials[cursor]` and move on. */
  function Advance<T, R>(s: SessionState<T, R>): (SessionState<T, R>, Dispatch<T>)
  {
    if s.cursor >= |s.trials| then (s, Completed)
    else (s.(cursor := s.cursor + 1), Next(s.trials[s.cursor], s.cursor + 1, |s.trials|))
  }

  /**
   * `record_response`: score the most recently dispatched trial, `trials[cursor - 1]`,
   * whose 1-based number is `cursor`. `score` is the task's classifier applied to the
   * response; it gives `None` where the task's code would raise.
   */
  function RecordIn<T, R>(s: SessionState<T, R>, score: (T, nat) -> Option<R>): (SessionState<T, R>, RecordStatus)
  {
    if s.cursor == 0 then (s, NotStarted)
    else if |s.trials| == 0 || s.cursor - 1 >= |s.trials| then (s, IndexError)
    else match score(s.trials[s.cursor - 1], s.cursor)
      case None => (s, Rejected)
      case Some(r) => (s.(results := s.results + [r]), Recorded)
  }

  /** One `next_trial` followed by one `record_response` per scorer, in turn. */
  function Play<T, R>(s: SessionState<T, R>, scorers: seq<(T, nat) -> Option<R>>): SessionState<T, R>
    decreases |scorers|
  {
    if scorers == [] then s else Play(RecordIn(Advance(s).0, scorers[0]).0, scorers[1..])
  }

  /** Advancing keeps the trials and results, and moves the cursor forward by at most one, never past the end. */
  lemma AdvanceMonotone<T, R>(s: SessionState<T, R>)
    requires Valid(s)
    ensures Valid(Advance(s).0)
    ensures Advance(s).0.trials == s.trials && Advance(s).0.results == s.results
    ensures Advance(s).0.cursor == if s.cursor < |s.trials| then s.cursor + 1 else s.cursor
  {
  }

  /** Once every trial is dispatched, `next_trial` keeps answering `completed` and changes nothing. */
  lemma AdvanceIdempotentAtEnd<T, R>(s: SessionState<T, R>)
    requires s.cursor >= |s.trials|
    ensures Advance(s) == (s, Completed)
    ensures Advance(Advance(s).0) == Advance(s)
  {
  }

  /**
   * Repeated `next_trial` calls from a fresh cursor hand out the trials in list order,
   * numbered 1, 2, ...: the `k`-th call returns `trials[k - 1]` with number `k`.
   */
  lemma {:induction false} AdvanceInOrder<T, R>(s: SessionState<T, R>, k: nat)
    requires s.cursor + k < |s.trials|
    ensures Advances(s, k).cursor == s.cursor + k
    ensures Advance(Advances(s, k)).1 == Next(s.trials[s.cursor + k], s.cursor + k + 1, |s.trials|)
    decreases k
  {
    if k > 0 {
      AdvanceInOrder(Advance(s).0, k - 1);
    }
  }

  /** The session after `k` calls of `next_trial`. */
  function Advances<T, R>(s: SessionState<T, R>, k: nat): SessionState<T, R>
    decreases k
  {
    if k == 0 then s else Advances(Advance(s).0, k - 1)
  }

  /**
   * `record_response` fails, changing nothing, when no trial was dispatched or the
   * index is out of range; otherwise it appends exactly one result, scored from
   * `trials[cursor - 1]` under the number `cursor`, after the earlier ones.
   * It never moves the cursor.
   */
  lemma RecordOutcomes<T, R>(s: SessionState<T, R>, score: (T, nat) -> Option<R>)
    ensures RecordIn(s, score).0.trials == s.trials && RecordIn(s, score).0.cursor == s.cursor
    ensures RecordIn(s, score).1 == NotStarted <==> s.cursor == 0
    ensures RecordIn(s, score).1 == IndexError <==> s.cursor > 0 && s.cursor > |s.trials|
    ensures RecordIn(s, score).1 != Recorded ==> RecordIn(s, score).0 == s
    ensures RecordIn(s, score).1 == Recorded <==>
              0 < s.cursor <= |s.trials| && score(s.trials[s.cursor - 1], s.cursor).Some?
    ensures RecordIn(s, score).1 == Recorded ==>
              RecordIn(s, score).0.results == s.results + [score(s.trials[s.cursor - 1], s.cursor).value]
  {
  }

  /** On a valid session the index guard never fires: only a missing dispatch or a raising scorer fail. */
  lemma RecordNeverOutOfRange<T, R>(s: SessionState<T, R>, score: (T, nat) -> Option<R>)
    requires Valid(s)
    ensures RecordIn(s, score).1 != IndexError
    ensures Valid(RecordIn(s, score).0)
  {
  }

  /**
   * There is no duplicate guard: recording twice after one dispatch appends the same
   * trial's result twice.
   */
  lemma RecordTwice<T, R>(s: SessionState<T, R>, score: (T, nat) -> Option<R>)
    requires 0 < s.cursor <= |s.trials| && score(s.trials[s.cursor - 1], s.cursor).Some?
    ensures var v := score(s.trials[s.cursor - 1], s.cursor).value;
            RecordIn(RecordIn(s, score).0, score) == (s.(results := s.results + [v, v]), Recorded)
  {
    var v := score(s.trials[s.cursor - 1], s.cursor).value;
    assert s.results + [v] + [v] == s.results + [v, v];
  }

  /**
   * A session played trial by trial, each response recorded right after its trial
   * was dispatched, ends with one result per round, in order, the `i`-th scored from
   * `trials[cursor + i]` under the number `cursor + i + 1`, after the results it had.
   */
  lemma {:induction false} PlayRecordsInOrder<T, R>(s: SessionState<T, R>, scorers: seq<(T, nat) -> Option<R>>)
    requires s.cursor + |scorers| <= |s.trials|
    requires forall i :: 0 <= i < |scorers| ==> scorers[i](s.trials[s.cursor + i], s.cursor + i + 1).Some?
    ensures Play(s, scorers).trials == s.trials
    ensures Play(s, scorers).cursor == s.cursor + |scorers|
    ensures |Play(s, scorers).results| == |s.results| + |scorers|
    ensures Play(s, scorers).results[..|s.results|] == s.results
    ensures forall i :: 0 <= i < |scorers| ==>
              Play(s, scorers).results[|s.results| + i] == scorers[i](s.trials[s.cursor + i], s.cursor + i + 1).value
    decreases |scorers|
  {
    if scorers != [] {
      var v := scorers[0](s.trials[s.cursor], s.cursor + 1).value;
      var s1 := RecordIn(Advance(s).0, scorers[0]).0;
      assert s1 == s.(cursor := s.cursor + 1, results := s.results + [v]);
      var rest := scorers[1..];
      assert forall i :: 0 <= i < |rest| ==> rest[i] == scorers[i + 1];
      forall i | 0 <= i < |rest|
        ensures rest[i](s1.trials[s1.cursor + i], s1.cursor + i + 1).Some?
      {
        assert s1.cursor + i == s.cursor + (i + 1);
      }
      PlayRecordsInOrder(s1, rest);
      var p := Play(s1, rest);
      assert p == Play(s, scorers);
      assert p.results[..|s1.results|] == s1.results;
      assert p.results[..|s.results|] == s1.results[..|s.results|];
      forall i | 0 <= i < |scorers|
        ensures p.results[|s.results| + i] == scorers[i](s.trials[s.cursor + i], s.cursor + i + 1).value
      {
        if i == 0 {
          assert p.results[|s.results|] == s1.results[|s.results|];
        } else {
          assert p.results[|s1.results| + (i - 1)] == rest[i - 1](s1.trials[s1.cursor + (i - 1)], s1.cursor + (i - 1) + 1).value;
        }
      }
    }
  }

  /** The session object: the three session keys, updated in place by the handlers. */
  class Session<T, R> {
    var trials: seq<T>
    var cursor: nat
    var results: seq<R>

    function State(): SessionState<T, R>
      reads this
    {
      SessionState(trials, cursor, results)
    }

    /** A session nothing has been stored in: every `session.get` answers its default. */
    constructor ()
      ensures State() == SessionState([], 0, [])
    {
      trials, cursor, results := [], 0, [];
    }

    /** The task's index page, which empties the three keys. */
    method Clear()
      modifies this
      ensures State() == SessionState([], 0, [])
    {
      trials, cursor, results := [], 0, [];
    }

    /** The tail of every `start` handler: store the new trial list and reset cursor and results. */
    method Start(ts: seq<T>)
      modifies this
      ensures State() == SessionState(ts, 0, [])
      ensures Valid(State())
    {
      trials := ts;
      cursor := 0;
      results := [];
    }

    method NextTrial() returns (d: Dispatch<T>)
      modifies this
      ensures (State(), d) == Advance(old(State()))
    {
      var current := cursor;
      if current >= |trials| {
        return Completed;
      }
      var trial := trials[current];
      cursor := current + 1;
      d := Next(trial, current + 1, |trials|);
    }

    method RecordResponse(score: (T, nat) -> Option<R>) returns (status: RecordStatus)
      modifies this
      ensures (State(), status) == RecordIn(old(State()), score)
    {
      var index := cursor - 1;
      if index < 0 {
        return NotStarted;
      }
      if |trials| == 0 || index >= |trials| {
        return IndexError;
      }
      var scored := score(trials[index], index + 1);
      if scored.None? {
        return Rejected;
      }
      results := results + [scored.value];
      status := Recorded;
    }
  }
}
