# Cognitive task battery: a Dafny model

This project models the server side of a small battery of web-based cognitive tasks, written with Flask. It covers:

- the **flanker** task;
- the **go/no-go** task;
- the **Stroop** task;
- the **1-back** spatial task;
- the **trail-making test** (TMT);
- the **combined app**, which serves flanker, go/no-go and a four-colour Stroop variant from one shared browser session;
- the **K6** distress questionnaire and the water-log amount guard of the health-log app.

Every task follows the same loop:
- `start` builds a trial list (shuffled, or generated one trial at a time) and stores it in the session with a cursor of 0 and no results.
- `next_trial` hands out the trial under the cursor and moves the cursor on.
- `record_response` scores the response against the last trial handed out and appends one result.
- `results` summarizes the results: accuracies, mean reaction times on correct trials, and the interference or Stroop effect.

The model is organized as follows:
- `Engine` holds that loop once, as a generic class `Session<T, R>`. Its methods are specified by the pure transitions `Advance` and `RecordIn`, and the lemmas about the loop are stated on those transitions.
- Each task module supplies its trial type, its generator, its scorer and its summary.
- Randomness (`random.choice`, `random.shuffle`, `random.random`), the clock and the request's JSON and form fields are parameters:
  - a pick oracle `nat -> nat` (an index taken modulo the list's length);
  - a coin oracle `nat -> bool`;
  - `now: real`;
  - `Option` values for fields that may be `null` or missing.
- `random.shuffle` is Python's Fisher–Yates loop on an array, proved to permute its contents.

Two details of the code worth stating plainly:
- **Flanker stimulus `"<<><<"`.** The correct answer is the middle character. For `<<><<` that is `>`, so the correct answer is `"right"`, and `Flanker.StimulusTable` states it.
- **1-back match quota.** The quota is `int(total_trials * 0.3)`, which truncates, and `NBack.Quota` models that.

## Model

| member | source | states |
|---|---|---|
| Common.RangeLen | flask_hello_ver2/flanker.py:55-57 | `range(n)` runs n times when n ≥ 0 and not at all when n is negative. |
| Common.Choice | flask_hello_ver2/stroop.py:57 | `random.choice` on a non-empty list, whatever the draw, returns a member of that list. |
| Stats.Filter | flask_hello_ver2/flanker.py:178-179 | A comprehension filter keeps exactly as many results as satisfy the condition. Every kept result is from the input and satisfies it. |
| Stats.AccuracyRange | flask_hello_ver2/flanker.py:172 | `correct / total * 100`, or 0 when there are no trials, lies between 0 and 100. It is 100 exactly when there are trials and all are correct. |
| Stats.AccuracyWeighted | flask_hello_ver2/flanker.py:172-189 | When two groups share out the trials and the correct answers, the overall accuracy is the trial-weighted mix of the two groups' accuracies. |
| Stats.PartitionAccuracy | flask_hello_ver2/gonogo.py:173-190 | Splitting results on a two-valued tag gives two lists whose sizes add up to the total. The overall accuracy is their weighted mix. |
| Stats.MeanBounds | flask_hello_ver2/flanker.py:175 | The mean of a non-empty list of reaction times lies between any lower and upper bound on its elements. |
| Stats.CountPermutation | flask_hello_ver2/flanker.py:59 | Shuffling never changes how many trials of a kind the list holds. |
| Shuffle.ShuffleInPlace | flask_hello_ver2/flanker.py:59 | `random.shuffle`'s swaps leave the array holding the same multiset of trials, whatever the random draws. |
| Shuffle.Shuffled | flask_hello_ver2/gonogo.py:53 | The shuffled list has the input's length and multiset. |
| Engine.Session.constructor | flask_hello_ver2/flanker.py:76-79 | A session with no keys reads as no trials, cursor 0 and no results (the `session.get` defaults). |
| Engine.Session.Clear | flask_hello_ver2/flanker.py:37-45 | The index page empties the trials and results and resets the cursor to 0. |
| Engine.Session.Start | flask_hello_ver2/flanker.py:63-66 | `start` stores the new trial list with cursor 0 and no results. |
| Engine.Session.NextTrial | flask_hello_ver2/flanker.py:73-103 | The new state and the answer are `Advance` of the old state. The trial under the cursor and its number (cursor + 1) are handed out and the cursor moves on; past the end the answer is `completed` and nothing changes. |
| Engine.Session.RecordResponse | flask_hello_ver2/flanker.py:105-156 | The new state and the status are `RecordIn` of the old state and the handler's scorer. |
| Engine.AdvanceMonotone | flask_hello_ver2/flanker.py:81-89 | Dispatch keeps the trials and results, moves the cursor by one while trials remain and never past the end, and keeps the cursor valid. |
| Engine.AdvanceIdempotentAtEnd | flask_hello_ver2/flanker.py:81-87 | Once the trials are exhausted, `next_trial` answers `completed` and changes nothing, however often it is called. |
| Engine.AdvanceInOrder | flask_hello_ver2/flanker.py:73-103 | k dispatches after cursor c hand out trial c + k next, numbered c + k + 1: trials come out in list order. |
| Engine.RecordOutcomes | flask_hello_ver2/flanker.py:105-156 | Cursor 0 gives "not started". A cursor past the list gives the index error. A raising scorer gives an error. Each error leaves the state unchanged. Otherwise exactly the score of trial cursor − 1 is appended. The cursor never moves. |
| Engine.RecordNeverOutOfRange | flask_hello_ver2/flanker.py:113-120 | On a session whose cursor is within the list, the index-error branch is never taken and the state stays valid. |
| Engine.RecordTwice | flask_hello_ver2/flanker.py:144-151 | Nothing prevents duplicates: two records after one dispatch append that trial's result twice. |
| Engine.PlayRecordsInOrder | flask_hello_ver2/flanker.py:73-156 | Alternating dispatch and record over n trials appends n results, in trial order, after the existing ones. The i-th result is scored from the i-th trial handed out. |
| Detection.Classify | flask_hello_ver2/gonogo.py:124-131 | The 2×2 table. Correct exactly when the response matches the signal. A miss is exactly a signal trial without a response. A false alarm is exactly a non-signal trial with one. An error type is present exactly when the answer is wrong. |
| Flanker.StimulusTable | flask_hello_ver2/flanker.py:124-128 | The correct answer and condition of each of the four stimuli: `<<<<<` left/congruent, `>>>>>` right/congruent, `<<><<` right/incongruent (middle `>`), `>><>>` left/incongruent (middle `<`). |
| Flanker.StimuliDistinct | flask_hello_ver2/flanker.py:12-17 | The four stimuli are pairwise distinct. |
| Flanker.CongruenceMeaning | flask_hello_ver2/flanker.py:127-128 | For each stimulus, "congruent" holds exactly when all five arrows agree, and exactly when the flankers point in the correct direction. |
| Flanker.ForcedChoice | flask_hello_ver2/flanker.py:124-125 | About `Flanker.Score`: Exactly one of `left` and `right` is correct. Any other response, or none, is wrong. |
| Flanker.RecordedResult | flask_hello_ver2/flanker.py:105-156 | On a valid session, a response is recorded exactly when a trial has been dispatched. The appended result scores that trial and carries number cursor; otherwise the state is unchanged. |
| Flanker.BuildTrials | flask_hello_ver2/flanker.py:54-57 | The nested loops give each stimulus exactly `max(n, 0)` times and nothing else: the list length is 4·max(n, 0). |
| Flanker.Start | flask_hello_ver2/flanker.py:47-71 | After shuffling, the session holds each stimulus `max(n, 0)` times, the cursor is 0, there are no results, and `total_trials` is the list's length. |
| Flanker.NextTrial | flask_hello_ver2/flanker.py:73-103 | Flanker's `next_trial` is the shared dispatch `Advance`. |
| Flanker.RecordResponse | flask_hello_ver2/flanker.py:105-156 | Flanker's `record_response` is `RecordIn` with the flanker scorer. |
| Flanker.CorrectRts | flask_hello_ver2/flanker.py:174 | There is one reaction time per correct result. It is only used when every result is timed. |
| Flanker.Summarize | flask_hello_ver2/flanker.py:158-226 | No results gives the "no results" page. A result without a reaction time makes `round(None)` raise and gives the error page. Otherwise the summary counts every result. |
| Flanker.SummaryAccuracies | flask_hello_ver2/flanker.py:170-189 | All three accuracies are percentages. The overall accuracy is 100 exactly when every result is correct. |
| Flanker.SummaryWeighted | flask_hello_ver2/flanker.py:178-189 | Congruent and incongruent results share out the total. The overall accuracy is their trial-weighted mix. |
| Flanker.SummaryReactionTimes | flask_hello_ver2/flanker.py:174-193 | The overall, congruent and incongruent mean reaction times each average the correct results only: each lies within the range of the recorded times when its group has a correct result, and is 0 when it has none. The interference effect is positive exactly when correct incongruent trials are slower on average. |
| Flanker.ConditionRtWithin | flask_hello_ver2/flanker.py:178-191 | A condition's mean over its correct results lies within the recorded times' range whenever the condition has a correct result. |
| Flanker.CorrectRtsWithin | flask_hello_ver2/flanker.py:174 | Bounds on the recorded reaction times carry over to the correct-trial list. |
| GoNoGo.ScoreTable | flask_hello_ver2/gonogo.py:116-140 | About `GoNoGo.Score`: A go trial is correct exactly when answered, else a miss. A no-go trial is correct exactly when withheld, else a false alarm. The result carries the trial's number and kind. |
| GoNoGo.RecordedResult | flask_hello_ver2/gonogo.py:99-159 | On a valid session, a response is recorded exactly when a trial has been dispatched, and the appended result is that trial's score. |
| GoNoGo.BuildTrials | flask_hello_ver2/gonogo.py:47-51 | The two loops give exactly `max(go, 0)` go trials and `max(nogo, 0)` no-go trials. |
| GoNoGo.Start | flask_hello_ver2/gonogo.py:37-65 | After shuffling, the session holds those counts of each kind, the cursor is 0 and there are no results. |
| GoNoGo.NextTrial | flask_hello_ver2/gonogo.py:67-97 | Go/no-go's `next_trial` is the shared dispatch. |
| GoNoGo.RecordResponse | flask_hello_ver2/gonogo.py:99-159 | Go/no-go's `record_response` is `RecordIn` with the go/no-go scorer. |
| GoNoGo.PresentRts | flask_hello_ver2/gonogo.py:182 | There is one go reaction time per result that has one, correct or not. |
| GoNoGo.PresentRtsWithin | flask_hello_ver2/gonogo.py:182 | Bounds on the recorded times carry over to the present ones. |
| GoNoGo.Summarize | flask_hello_ver2/gonogo.py:161-225 | No results gives the "no results" page; otherwise the summary counts every result. |
| GoNoGo.SummaryPartition | flask_hello_ver2/gonogo.py:173-190 | Go and no-go totals add up to the total. The overall accuracy is their weighted mix, and all accuracies are percentages. |
| GoNoGo.SummaryErrors | flask_hello_ver2/gonogo.py:184-191 | On scored results, misses are the go trials that were not correct and false alarms the no-go trials that were not correct. |
| GoNoGo.GoRtWithin | flask_hello_ver2/gonogo.py:182-183 | The go mean reaction time lies within the range of the recorded times when some go result has a time, and is 0 when none has. |
| Stroop.StandaloneWellFormed | flask_hello_ver2/stroop.py:12-32 | The five-colour palette has distinct colours, each with a key, and distinct keys `1`–`5`. |
| Stroop.CombinedWellFormed | flask_hello_ver2/main_app.py:292-302 | The combined app's palette has four colours (no black) with distinct keys `1`–`4`. |
| Stroop.KeysDistinct | flask_hello_ver2/stroop.py:26-32 | Two different palette colours never share a response key. |
| Stroop.OtherColors | flask_hello_ver2/stroop.py:69 | The ink candidates are palette colours other than the word's colour. |
| Stroop.OtherColorsNonEmpty | flask_hello_ver2/stroop.py:69-70 | In a palette of two or more colours there is always another colour, so the second `random.choice` cannot fail. |
| Stroop.CongruentTrial | flask_hello_ver2/stroop.py:57-63 | A congruent trial shows the drawn colour's name in that colour. |
| Stroop.IncongruentTrial | flask_hello_ver2/stroop.py:67-76 | An incongruent trial shows the word's name in a different palette colour. |
| Stroop.BuildTrials | flask_hello_ver2/stroop.py:55-76 | The list holds exactly `max(c, 0)` congruent and `max(i, 0)` incongruent trials, and every trial is well formed. A well-formed trial has the word of its text colour, both colours in the palette, and ink = word exactly when congruent. |
| Stroop.Start | flask_hello_ver2/stroop.py:44-90 | After shuffling, the session holds those counts and only well-formed trials; the cursor is 0 and there are no results. |
| Stroop.DisplayCodeIsInk | flask_hello_ver2/stroop.py:111-114 | Although congruent trials look up the word's colour, on well-formed trials the colour code shown is always the ink's. |
| Stroop.NextTrial | flask_hello_ver2/stroop.py:92-131 | Stroop's `next_trial` is the shared dispatch. |
| Stroop.ScoreMeaning | flask_hello_ver2/stroop.py:150-162 | About `Stroop.Score`: On a well-formed trial, scoring succeeds. The correct key is the ink's key, and a response is correct exactly when it is that key. Reading the word on an incongruent trial is always wrong, and no response is never correct. |
| Stroop.RecordedResult | flask_hello_ver2/stroop.py:133-192 | On a valid session of well-formed trials, a response is recorded exactly when a trial has been dispatched, and the result is that trial's score. |
| Stroop.RecordResponse | flask_hello_ver2/stroop.py:133-192 | Stroop's `record_response` is `RecordIn` with the Stroop scorer. |
| Stroop.CorrectRts | flask_hello_ver2/stroop.py:218 | There is one averaged reaction time per result that is correct and has a time. |
| Stroop.CorrectRtsWithin | flask_hello_ver2/stroop.py:218 | Bounds on the recorded reaction times carry over to the averaged ones. |
| Stroop.ConditionRtWithin | flask_hello_ver2/stroop.py:218-226 | A condition's mean over its correct, timed results lies within the bounds of the recorded times whenever there is such a result. |
| Stroop.Summarize | flask_hello_ver2/stroop.py:194-265 | No results gives the "no results" page; otherwise the summary counts every result. |
| Stroop.SummaryReactionTimes | flask_hello_ver2/stroop.py:218-229 | The congruent and incongruent mean reaction times each lie within the range of the recorded times when the condition has a correct, timed result, and are 0 otherwise. The Stroop effect is positive exactly when correct incongruent trials are slower on average. |
| Stroop.SummaryPartition | flask_hello_ver2/stroop.py:206-224 | Congruent and incongruent totals add up to the total. The overall accuracy is their weighted mix, and all accuracies are percentages. The overall accuracy is 100 exactly when all results are correct. |
| NBack.PositionTable | flask_hello_ver2/nback.py:13-23 | There are nine grid positions with ids 1–9 in order. |
| NBack.Quota | flask_hello_ver2/nback.py:53 | `int(total * 0.3)` is the largest q with 10q ≤ 3·total when total ≥ 0, and is not positive when total < 0. |
| NBack.OtherPositions | flask_hello_ver2/nback.py:83 | There is always a position other than the previous one, and every candidate differs from it and is on the grid. |
| NBack.NextTrialAt | flask_hello_ver2/nback.py:61-90 | One step of the generator: the trial is numbered i + 1 and on the grid. After the first trial, it is tagged a match exactly when it repeats the previous position. |
| NBack.BuildTrials | flask_hello_ver2/nback.py:50-91 | The loop gives `max(total, 0)` trials numbered 1.. in order. The first is never a match, each later one is a match exactly when it repeats its predecessor's position, and at most `max(Quota(total), 0)` are matches. |
| NBack.Start | flask_hello_ver2/nback.py:43-103 | The session holds that generated list unshuffled; the cursor is 0 and there are no results. |
| NBack.NextTrial | flask_hello_ver2/nback.py:105-135 | 1-back's `next_trial` is the shared dispatch. |
| NBack.DispatchNumber | flask_hello_ver2/nback.py:119-128 | The number a trial carries equals its dispatch position. |
| NBack.RecordedResult | flask_hello_ver2/nback.py:137-197 | About `NBack.Score`: On a valid session of generated trials, a response is recorded exactly when a trial has been dispatched. The result carries that trial's number (the cursor) and the 2×2 verdict for its match flag. |
| NBack.RecordResponse | flask_hello_ver2/nback.py:137-197 | 1-back's `record_response` is `RecordIn` with the 1-back scorer. |
| NBack.CorrectRts | flask_hello_ver2/nback.py:223 | There is one averaged reaction time per result that is correct and has a time. |
| NBack.CorrectRtsWithin | flask_hello_ver2/nback.py:223 | Bounds on the recorded reaction times carry over to the averaged ones. |
| NBack.SummaryReactionTime | flask_hello_ver2/nback.py:223-224 | The match trials' mean reaction time lies within the range of the recorded times when some match trial is correct and timed, and is 0 otherwise. |
| NBack.Summarize | flask_hello_ver2/nback.py:199-265 | No results gives the "no results" page; otherwise the summary counts every result. |
| NBack.SummaryPartition | flask_hello_ver2/nback.py:211-230 | Match and non-match totals add up to the total. The overall accuracy is their weighted mix, and all accuracies are percentages. |
| NBack.SummaryErrors | flask_hello_ver2/nback.py:225-231 | On scored results, misses are the match trials that were not correct and false alarms the non-match trials that were not correct. |
| TrailMaking.ReplayFacts | flask_hello_ver2/tmt.py:62-89 | Replaying the clicks, every click is either correct or an error. The correct clicks are exactly start, start + 1, … up to the number now expected, in order. |
| TrailMaking.ReplayAppend | flask_hello_ver2/tmt.py:62-89 | One more click advances the expected number by one when it hits and adds one error when it misses. |
| TrailMaking.Summarize | flask_hello_ver2/tmt.py:133-170 | A missing start or completion time gives "no results". A click without a time makes `round(None)` raise and gives the error page. Otherwise the page reports every click and the stored errors, and its time is completion − start. |
| TrailMaking.SummaryAddsUp | flask_hello_ver2/tmt.py:158-163 | On counters that agree with the clicks, numbers completed plus errors equals total clicks. |
| TrailMaking.PerfectRun | flask_hello_ver2/tmt.py:12 | Clicking 1…25 in order makes no error and leaves 26 expected, so 25 numbers are completed. |
| TrailMaking.PrefixRun | flask_hello_ver2/tmt.py:62-71 | Clicking 1…k in order leaves k + 1 expected and no error. |
| TrailMaking.Session.constructor | flask_hello_ver2/tmt.py:136-139 | A fresh session has no start or completion time, no errors, no clicks and no expected number. |
| TrailMaking.Session.Index | flask_hello_ver2/tmt.py:14-22 | The index page resets the times, errors and clicks but keeps `current_number`. |
| TrailMaking.Session.Start | flask_hello_ver2/tmt.py:24-37 | `start` stamps the start time, clears everything else, expects 1, reports 25 numbers, and leaves the counters consistent with the clicks. |
| TrailMaking.Session.RecordClick | flask_hello_ver2/tmt.py:39-103 | A non-integer number changes nothing. Otherwise the click is appended. A hit advances the expected number, and completes the test when the expected number was 25 or more. A miss adds one error and repeats the expected number. Counters consistent with the clicks stay consistent. |
| TrailMaking.Session.Complete | flask_hello_ver2/tmt.py:105-131 | `complete` stamps the completion time and reports elapsed time (0 without a start), errors and clicks. |
| TrailMaking.Session.ShowResults | flask_hello_ver2/tmt.py:133-170 | The loop over the clicks computes `Summarize` of the session. |
| Combined.StartFlanker | flask_hello_ver2/main_app.py:46-58 | The shared session holds only flanker trials, each stimulus `max(n, 0)` times; the cursor is 0 and there are no results. |
| Combined.StartGoNoGo | flask_hello_ver2/main_app.py:171-185 | The shared session holds only go/no-go trials, with the requested counts of each kind. |
| Combined.StartStroop | flask_hello_ver2/main_app.py:312-341 | The shared session holds only four-colour Stroop trials, all well formed, with the requested congruent and incongruent counts. |
| Combined.StroopTagged | flask_hello_ver2/main_app.py:336-337 | Shuffling and storing Stroop trials keeps their condition counts and their well-formedness. |
| Combined.DisplayEscapes | flask_hello_ver2/main_app.py:31-36 | Every flanker stimulus has an HTML-escaped display string, and none contains a raw `<` or `>`. |
| Combined.FlankerNextTrial | flask_hello_ver2/main_app.py:60-78 | The cursor moves as in `Advance`. The answer is "completed", the flanker trial with its escaped display, or a crash on another task's trial. |
| Combined.GoNoGoNextTrial | flask_hello_ver2/main_app.py:187-205 | The cursor moves as in `Advance`. The answer is "completed", the go/no-go trial, or a crash. |
| Combined.StroopNextTrial | flask_hello_ver2/main_app.py:343-368 | The cursor moves as in `Advance`. The answer is "completed", the Stroop trial with its colour code, or a crash when no four-colour entry exists. |
| Combined.DispatchByTask | flask_hello_ver2/main_app.py:343-354 | About `Combined.Present`: While trials remain, the started task's `next_trial` shows the next trial and the other two tasks' crash; at the end all answer "completed". A Stroop trial is shown in its ink. The session stays started. |
| Combined.FlankerRecordResponse | flask_hello_ver2/main_app.py:80-109 | Flanker recording in the shared session is `RecordIn` with a scorer that raises on non-flanker trials. |
| Combined.GoNoGoRecordResponse | flask_hello_ver2/main_app.py:207-242 | Go/no-go recording is `RecordIn` with a scorer that raises on non-go/no-go trials. |
| Combined.StroopRecordResponse | flask_hello_ver2/main_app.py:370-404 | Stroop recording is `RecordIn` with a scorer over the four-colour palette that raises on non-Stroop trials. |
| Combined.RecordByTask | flask_hello_ver2/main_app.py:84-106 | About `Combined.ScorerFor`: On a started session, the started task's handler records the dispatched trial. Another task's handler errors and stores nothing. No handler records before the first dispatch. The session stays started, holding only that task's results. |
| Combined.OwnResults | flask_hello_ver2/main_app.py:114-117 | On a session holding only one task's results, that task's projection keeps every stored result, in order. So the projection is exactly the list that task's results page reads. |
| Combined.GoNoGoPageOnOwnSession | flask_hello_ver2/main_app.py:244-264 | After a go/no-go run, its page summarizes every stored result, in order. |
| Health.Validate | flask_hello_ver2/simple-flask-app.py:201-234 | The checks run in order: an empty answer is rejected, then a non-integer, then a total outside 0..24. A form is accepted exactly when all six answers are integers with total in 0..24, and then yields those six values. |
| Health.SubmitStores | flask_hello_ver2/simple-flask-app.py:183-246 | About `Health.Submit`: A submission is stored exactly when it validates, as one new row with the six answers, their sum q1+…+q6 and the timestamp. A rejected one leaves the table unchanged. A table whose rows are all valid stays valid. |
| Health.AnswerAboveFourAccepted | flask_hello_ver2/simple-flask-app.py:231-234 | Single answers are not range-checked: (10, 0, 0, 0, 0, 0) is accepted. |
| Health.EditOverwrites | flask_hello_ver2/simple-flask-app.py:315-379 | About `Health.Edit`: A missing id is not found. A rejected form changes nothing. A valid form overwrites the six answers and the recomputed total (and the timestamp only when a date is given). No other row changes. |
| Health.BandOf | flask_hello_ver2/simple-flask-app.py:298-306 | The bands are total ≤ 4 no problem, 5–9 mild, 10–12 moderate and ≥ 13 severe. They are disjoint and cover every integer. |
| Health.BandMonotone | flask_hello_ver2/simple-flask-app.py:298-306 | A higher total never gets a milder band. |
| Health.BandsOfValidTotals | flask_hello_ver2/simple-flask-app.py:298-306 | A valid total gets the highest band whose lowest total it reaches. |
| Health.Latest | flask_hello_ver2/simple-flask-app.py:263-270 | With no rows the page redirects. Otherwise the latest row is a stored row with the greatest timestamp. |
| Health.InterpretationOfTable | flask_hello_ver2/simple-flask-app.py:263-306 | About `Health.Interpretation`: On a valid, non-empty table, the interpretation is the band of some stored total in 0..24. |
| Health.LogWaterGuard | flask_hello_ver2/simple-flask-app.py:57-73 | About `Health.LogWater`: An amount ≤ 0 adds no row. A positive one adds exactly that row. Stored amounts stay positive. |
| Health.EditWaterGuard | flask_hello_ver2/simple-flask-app.py:142-161 | About `Health.EditWater`: An amount ≤ 0 changes no row. A positive one changes only the edited row: its amount and notes, and its timestamp when a date and time are given. Stored amounts stay positive. |

## Left out

- Flask plumbing: routing, templates, `jsonify` and the cookie session backend. Request fields are parameters, with a missing field or JSON `null` as `None`. `int(...)` of a form field that is not an integer is an error outcome. A `reaction_time` or click `time` that is present but not a number (which makes `round` or `sum` raise in the results pages), a JSON response that is not a string, and a failing `float(amount)`, are not modelled.
- Randomness: only structural facts are proved: counts, permutation, adjacency and the quota bound. The distribution (uniform picks, the 40% coin) is not modelled.
- Time and rounding: clocks are a parameter `now`, and `round(x, 2)` is not modelled. Reaction times and means are exact reals, not IEEE floats. `int(total * 0.3)` is exact truncation, whose results agree with floating point for realistic trial counts.
- Debug output (`print`, `traceback`) has no effect on state and is left out.
- Stimulus strings shorter than three characters cannot occur: the trial lists are built from the fixed tables, so `stimulus[2]` never raises.
- TrailMaking.Session.Complete, TrailMaking.Session.RecordClick, TrailMaking.Summarize: `start_time` (and, in `show_results`, `completion_time`) is falsy also when it is `0.0`; the model treats any stored time as set. The two clock reads in `complete`, and the two in `record_click` (the click's `timestamp` and, on the last number, `completion_time`), are each one `now`.
- Combined.OwnResults, Combined.GoNoGoPageOnOwnSession: a task's results page over another task's results is not modelled. Each page reads every stored result; the code reads a foreign result's keys with `.get` defaults, so that page shows a summary or the error page, not "no results". The model's pages see only their own task's results through a projection, and the lemmas prove that this projection is the whole list on a session holding one task's results. Nothing is stated about a page over another task's results.
- Combined next-trial crashes: the cursor has already moved when `next_trial` raises. Whether the framework then saves the session is framework behaviour, and the model keeps the moved cursor.
- Go/no-go and 1-back results also store a `stimulus` or `position` name. These are functions of the trial kind and position, and are kept as such.
- Health: SQLAlchemy persistence is a sequence of rows, with the row id as its index. Deleting rows, date parsing (`strptime`) and its errors, charts, and the per-day water totals are not modelled. On a rejected K6 edit the code sets the row's timestamp before the range check but never commits it; the model leaves the row unchanged.
- Health.Latest: the database orders by timestamp only. The model picks the first row among equal timestamps, where the database's choice is unspecified.
- Concurrency: several tabs sharing one session are not modelled; requests are taken one at a time.
