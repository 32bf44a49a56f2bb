/**
 * The trail-making test (`flask_hello_ver2/tmt.py`): the participant clicks the numbers
 * 1 to 25 in order. The session keeps the clicks, the error count and the next number
 * expected; the clock is a parameter `now` of the handlers that read it.
 */
module TrailMaking {
  import opened Common

  /** `NUMBERS = list(range(1, 26))`. */
  const NUMBERS: seq<int> := seq(25, i => i + 1)

  /** One entry of `session['clicks']`: the number, the client's time and the server's timestamp. */
  datatype Click = Click(number: int, time: Option<real>, timestamp: real)

  function Numbers(cs: seq<Click>): (ns: seq<int>)
    ensures |ns| == |cs| && forall i :: 0 <= i < |cs| ==> ns[i] == cs[i].number
  {
    seq(|cs|, i requires 0 <= i < |cs| => cs[i].number)
  }

  lemma NumbersAppend(cs: seq<Click>, c: Click)
    ensures Numbers(cs + [c]) == Numbers(cs) + [c.number]
  {
    assert Numbers(cs + [c])[..|cs|] == Numbers(cs);
  }

  // ---- the clicks, replayed ----

  /** The number expected after the clicks `ns`, starting from `start`: each correct click moves on by one. */
  function Current(start: int, ns: seq<int>): int
    decreases |ns|
  {
    if ns == [] then start
    else
      var c := Current(start, ns[..|ns| - 1]);
      if ns[|ns| - 1] == c then c + 1 else c
  }

  /** The wrong clicks among `ns`. */
  function Errors(start: int, ns: seq<int>): nat
    decreases |ns|
  {
    if ns == [] then 0
    else
      var prefix := ns[..|ns| - 1];
      Errors(start, prefix) + (if ns[|ns| - 1] == Current(start, prefix) then 0 else 1)
  }

  /** The correct clicks among `ns`, in order. */
  function Hits(start: int, ns: seq<int>): seq<int>
    decreases |ns|
  {
    if ns == [] then []
    else
      var prefix := ns[..|ns| - 1];
      Hits(start, prefix) + (if ns[|ns| - 1] == Current(start, prefix) then [ns[|ns| - 1]] else [])
  }

  /**
   * Every click is either correct or an error; the correct ones are exactly
   * `start, start + 1, ...` up to the number now expected, in that order.
   */
  lemma {:induction false} ReplayFacts(start: int, ns: seq<int>)
    ensures Current(start, ns) >= start
    ensures Current(start, ns) - start + Errors(start, ns) == |ns|
    ensures |Hits(start, ns)| == Current(start, ns) - start
    ensures forall i :: 0 <= i < |Hits(start, ns)| ==> Hits(start, ns)[i] == start + i
    decreases |ns|
  {
    if ns != [] {
      ReplayFacts(start, ns[..|ns| - 1]);
    }
  }

  /** Replaying one more click is one more step. */
  lemma ReplayAppend(start: int, ns: seq<int>, n: int)
    ensures Current(start, ns + [n]) == if n == Current(start, ns) then Current(start, ns) + 1 else Current(start, ns)
    ensures Errors(start, ns + [n]) == Errors(start, ns) + (if n == Current(start, ns) then 0 else 1)
  {
    assert (ns + [n])[..|ns|] == ns;
  }

  // ---- the session ----

  datatype ClickReply =
    | NotANumber
    | Clicked(correct: bool, completed: bool, nextNumber: Option<int>)

  datatype CompleteReply = CompleteReply(totalTime: real, errors: nat, totalClicks: nat)

  datatype Summary = Summary(totalTime: real, errors: nat, totalClicks: nat, numbersCompleted: int)

  /**
   * Why the results page shows an error: the test was never started or never completed,
   * or a click has no time (`round(None, 2)` raises).
   */
  datatype SummaryError = NoResults | MissingClickTime

  /** `show_results` on the session's values. */
  function Summarize(startTime: Option<real>, completionTime: Option<real>, errors: nat, clicks: seq<Click>,
                     currentNumber: Option<int>): (r: Result<Summary, SummaryError>)
    ensures r == Err(NoResults) <==> startTime.None? || completionTime.None?
    ensures r == Err(MissingClickTime) <==>
              startTime.Some? && completionTime.Some? && exists i :: 0 <= i < |clicks| && clicks[i].time.None?
    ensures r.Ok? ==> r.value.totalClicks == |clicks| && r.value.errors == errors
                      && r.value.totalTime == completionTime.value - startTime.value
  {
    if startTime.None? || completionTime.None? then Err(NoResults)
    else if exists i :: 0 <= i < |clicks| && clicks[i].time.None? then Err(MissingClickTime)
    else Ok(Summary(completionTime.value - startTime.value, errors, |clicks|, currentNumber.GetOr(1) - 1))
  }

  /**
   * On a session whose counters agree with its clicks since `start`, the page's
   * numbers completed and errors add up to its clicks.
   */
  lemma SummaryAddsUp(startTime: Option<real>, completionTime: Option<real>, clicks: seq<Click>)
    requires Summarize(startTime, completionTime, Errors(1, Numbers(clicks)), clicks,
                       Some(Current(1, Numbers(clicks)))).Ok?
    ensures var sm := Summarize(startTime, completionTime, Errors(1, Numbers(clicks)), clicks,
                                Some(Current(1, Numbers(clicks)))).value;
            0 <= sm.numbersCompleted && sm.numbersCompleted + sm.errors == sm.totalClicks
  {
    ReplayFacts(1, Numbers(clicks));
  }

  /** The session keys of the trail-making app. `None` is a key not (or no longer) set. */
  class Session {
    var startTime: Option<real>
    var completionTime: Option<real>
    var errors: nat
    var clicks: seq<Click>
    var currentNumber: Option<int>

    /** The counters are the replay of the clicks from 1, as `start` leaves them. */
    predicate Consistent()
      reads this
    {
      currentNumber == Some(Current(1, Numbers(clicks))) && errors == Errors(1, Numbers(clicks))
    }

    constructor ()
      ensures startTime.None? && completionTime.None? && errors == 0 && clicks == [] && currentNumber.None?
    {
      startTime, completionTime, errors, clicks, currentNumber := None, None, 0, [], None;
    }

    /** The index page: clears everything except `current_number`. */
    method Index()
      modifies this
      ensures startTime.None? && completionTime.None? && errors == 0 && clicks == []
      ensures currentNumber == old(currentNumber)
    {
      startTime, completionTime, errors, clicks := None, None, 0, [];
    }

    /** `start`: returns `total_numbers`. */
    method Start(now: real) returns (total: nat)
      modifies this
      ensures startTime == Some(now) && completionTime.None? && errors == 0 && clicks == []
      ensures currentNumber == Some(1)
      ensures Consistent()
      ensures total == |NUMBERS| == 25
    {
      startTime := Some(now);
      completionTime := None;
      errors := 0;
      clicks := [];
      currentNumber := Some(1);
      total := |NUMBERS|;
    }

    /**
     * `record_click`. `number` is `None` when `int(data.get('number'))` raises, which
     * happens before anything is stored. Otherwise the click is always appended; a
     * correct click moves the expected number on, and completes the test when it was
     * the last number or beyond; a wrong one counts an error.
     */
    method RecordClick(number: Option<int>, time: Option<real>, now: real) returns (reply: ClickReply)
      modifies this
      ensures number.None? ==>
                reply == NotANumber
                && startTime == old(startTime) && completionTime == old(completionTime)
                && errors == old(errors) && clicks == old(clicks) && currentNumber == old(currentNumber)
      ensures number.Some? ==>
                var expected := old(currentNumber).GetOr(1);
                var n := number.value;
                clicks == old(clicks) + [Click(n, time, now)]
                && startTime == old(startTime)
                && (n == expected ==>
                      currentNumber == Some(expected + 1) && errors == old(errors)
                      && (expected >= |NUMBERS| ==>
                            reply == Clicked(true, true, None) && completionTime == Some(now))
                      && (expected < |NUMBERS| ==>
                            reply == Clicked(true, false, Some(expected + 1)) && completionTime == old(completionTime)))
                && (n != expected ==>
                      reply == Clicked(false, false, Some(expected))
                      && currentNumber == old(currentNumber) && errors == old(errors) + 1
                      && completionTime == old(completionTime))
      ensures old(Consistent()) ==> Consistent()
    {
      if number.None? {
        return NotANumber;
      }
      var n := number.value;
      NumbersAppend(clicks, Click(n, time, now));
      ReplayAppend(1, Numbers(clicks), n);
      clicks := clicks + [Click(n, time, now)];
      var expected := currentNumber.GetOr(1);
      if n == expected {
        currentNumber := Some(expected + 1);
        if expected >= |NUMBERS| {
          completionTime := Some(now);
          reply := Clicked(true, true, None);
        } else {
          reply := Clicked(true, false, Some(expected + 1));
        }
      } else {
        errors := errors + 1;
        reply := Clicked(false, false, Some(expected));
      }
    }

    /** `complete`: stamps the completion time and reports time, errors and clicks. */
    method Complete(now: real) returns (reply: CompleteReply)
      modifies this
      ensures completionTime == Some(now)
      ensures startTime == old(startTime) && errors == old(errors) && clicks == old(clicks)
      ensures currentNumber == old(currentNumber)
      ensures reply == CompleteReply(if startTime.Some? then now - startTime.value else 0.0, errors, |clicks|)
    {
      completionTime := Some(now);
      var totalTime := if startTime.Some? then now - startTime.value else 0.0;
      reply := CompleteReply(totalTime, errors, |clicks|);
    }

    /** `show_results`. */
    method ShowResults() returns (r: Result<Summary, SummaryError>)
      ensures r == Summarize(startTime, completionTime, errors, clicks, currentNumber)
    {
      if startTime.None? || completionTime.None? {
        return Err(NoResults);
      }
      var i := 0;
      while i < |clicks|
        invariant 0 <= i <= |clicks|
        invariant forall k :: 0 <= k < i ==> clicks[k].time.Some?
      {
        if clicks[i].time.None? {
          return Err(MissingClickTime);
        }
        i := i + 1;
      }
      var totalTime := completionTime.value - startTime.value;
      r := Ok(Summary(totalTime, errors, |clicks|, currentNumber.GetOr(1) - 1));
    }
  }

  /**
   * A participant who clicks 1, 2, ..., 25 without a mistake makes no error and ends
   * with 26 expected, so the page reports all 25 numbers completed.
   */
  lemma PerfectRun()
    ensures Current(1, NUMBERS) == 26 && Errors(1, NUMBERS) == 0
  {
    PrefixRun(25);
    assert NUMBERS[..25] == NUMBERS;
  }

  lemma {:induction false} PrefixRun(k: nat)
    requires k <= 25
    ensures Current(1, NUMBERS[..k]) == k + 1 && Errors(1, NUMBERS[..k]) == 0
  {
    if k > 0 {
      PrefixRun(k - 1);
      assert NUMBERS[..k][..k - 1] == NUMBERS[..k - 1];
    }
  }
}
