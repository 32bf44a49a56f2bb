/**
 * The health log (`flask_hello_ver2/simple-flask-app.py`): the K6 distress questionnaire
 * (six answers, their total, its range check and its interpretation band) and the
 * positive-amount guard of the water log. The database tables are modelled as
 * sequences of rows, the row's id as its index.
 */
module Health {
  import opened Common

  // ---- the K6 questionnaire ----

  /** One form field `q1` ... `q6`: empty, an integer literal, or text `int()` rejects. */
  datatype Answer = Blank | Whole(n: int) | Malformed

  type Answers = a: seq<Answer> | |a| == 6 witness [Blank, Blank, Blank, Blank, Blank, Blank]

  /** A row of `K6Survey`. */
  datatype K6Record = K6Record(answers: seq<int>, total: int, timestamp: int)

  /** Why a submission is sent back to the form and nothing is stored. */
  datatype Rejection =
    | Unanswered   // some field is empty
    | NotANumber   // `int(...)` raises `ValueError`
    | OutOfRange   // the total is below 0 or above 24

  /** `q1 + q2 + q3 + q4 + q5 + q6`. */
  function Total(qs: seq<int>): int
    requires |qs| == 6
  {
    qs[0] + qs[1] + qs[2] + qs[3] + qs[4] + qs[5]
  }

  function Values(a: Answers): (qs: seq<int>)
    requires forall i :: 0 <= i < 6 ==> a[i].Whole?
    ensures |qs| == 6 && forall i :: 0 <= i < 6 ==> qs[i] == a[i].n
  {
    seq(6, i requires 0 <= i < 6 => a[i].n)
  }

  /**
   * The checks `k6_survey` and `edit_k6` share, in their order: every field answered,
   * then every field an integer, then the total within 0..24. Only the total is
   * checked; a single answer may lie outside 0..4.
   */
  function Validate(a: Answers): (r: Result<seq<int>, Rejection>)
    ensures r == Err(Unanswered) <==> exists i :: 0 <= i < 6 && a[i].Blank?
    ensures r == Err(NotANumber) <==>
              (forall i :: 0 <= i < 6 ==> !a[i].Blank?) && exists i :: 0 <= i < 6 && a[i].Malformed?
    ensures r.Ok? <==>
              (forall i :: 0 <= i < 6 ==> a[i].Whole?) && 0 <= Total(Values(a)) <= 24
    ensures r.Ok? ==> r.value == Values(a)
  {
    if exists i :: 0 <= i < 6 && a[i].Blank? then Err(Unanswered)
    else if exists i :: 0 <= i < 6 && a[i].Malformed? then Err(NotANumber)
    else
      var qs := Values(a);
      if Total(qs) < 0 || Total(qs) > 24 then Err(OutOfRange) else Ok(qs)
  }

  /** A stored row: six answers, their total, and the total within the K6 range. */
  predicate RowOk(r: K6Record)
  {
    |r.answers| == 6 && r.total == Total(r.answers) && 0 <= r.total <= 24
  }

  predicate TableOk(db: seq<K6Record>)
  {
    forall i :: 0 <= i < |db| ==> RowOk(db[i])
  }

  /** `k6_survey` (POST): stores one row stamped `timestamp`, or rejects and stores nothing. */
  function Submit(db: seq<K6Record>, a: Answers, timestamp: int): (r: (seq<K6Record>, Option<Rejection>))
  {
    match Validate(a)
    case Err(e) => (db, Some(e))
    case Ok(qs) => (db + [K6Record(qs, Total(qs), timestamp)], None)
  }

  /**
   * A submission is stored exactly when it validates, as one new row holding the six
   * answers and their sum; a rejected one leaves the table as it was. Every stored
   * row passes the range check.
   */
  lemma SubmitStores(db: seq<K6Record>, a: Answers, timestamp: int)
    requires TableOk(db)
    ensures var (db', rejected) := Submit(db, a, timestamp);
            TableOk(db')
            && (rejected.None? <==> Validate(a).Ok?)
            && (rejected.Some? ==> db' == db && Validate(a) == Err(rejected.value))
            && (rejected.None? ==>
                  |db'| == |db| + 1 && db'[..|db|] == db
                  && db'[|db|].answers == Values(a)
                  && db'[|db|].total == Total(Values(a))
                  && db'[|db|].timestamp == timestamp)
  {
    if Validate(a).Ok? {
      var qs := Validate(a).value;
      assert (db + [K6Record(qs, Total(qs), timestamp)])[..|db|] == db;
    }
  }

  /** The answers `(10, 0, 0, 0, 0, 0)` pass the check: a single answer is never range-checked. */
  lemma AnswerAboveFourAccepted()
    ensures Validate([Whole(10), Whole(0), Whole(0), Whole(0), Whole(0), Whole(0)]) == Ok([10, 0, 0, 0, 0, 0])
  {
    var a: Answers := [Whole(10), Whole(0), Whole(0), Whole(0), Whole(0), Whole(0)];
    assert Values(a) == [10, 0, 0, 0, 0, 0];
  }

  datatype EditOutcome = NotFound | EditRejected(reason: Rejection) | Updated

  /**
   * `edit_k6` (POST) on row `id`: a missing row is a 404; a rejected form leaves the row
   * as it was; otherwise the six answers and the recomputed total replace the old ones,
   * and the timestamp is replaced only when a date was given.
   */
  function Edit(db: seq<K6Record>, id: int, a: Answers, date: Option<int>): (r: (seq<K6Record>, EditOutcome))
  {
    if !(0 <= id < |db|) then (db, NotFound)
    else
      match Validate(a)
      case Err(e) => (db, EditRejected(e))
      case Ok(qs) => (db[id := K6Record(qs, Total(qs), date.GetOr(db[id].timestamp))], Updated)
  }

  /**
   * An edit changes at most its own row, and that row only once the form validates;
   * a valid table stays valid.
   */
  lemma EditOverwrites(db: seq<K6Record>, id: int, a: Answers, date: Option<int>)
    requires TableOk(db)
    ensures var (db', outcome) := Edit(db, id, a, date);
            TableOk(db')
            && |db'| == |db|
            && (outcome == NotFound <==> !(0 <= id < |db|))
            && (outcome == Updated <==> 0 <= id < |db| && Validate(a).Ok?)
            && (outcome != Updated ==> db' == db)
            && (outcome == Updated ==>
                  db'[id].answers == Values(a) && db'[id].total == Total(Values(a))
                  && db'[id].timestamp == (if date.Some? then date.value else db[id].timestamp))
            && (forall j :: 0 <= j < |db| && j != id ==> db'[j] == db[j])
  {
  }

  // ---- interpretation ----

  datatype Band = NoProblem | Mild | Moderate | Severe

  function Rank(b: Band): nat
  {
    match b
    case NoProblem => 0
    case Mild => 1
    case Moderate => 2
    case Severe => 3
  }

  /** `k6_result`'s interpretation of a total. */
  function BandOf(total: int): (b: Band)
    ensures b == NoProblem <==> total <= 4
    ensures b == Mild <==> 5 <= total <= 9
    ensures b == Moderate <==> 10 <= total <= 12
    ensures b == Severe <==> total >= 13
  {
    if total <= 4 then NoProblem
    else if total <= 9 then Mild
    else if total <= 12 then Moderate
    else Severe
  }

  /** A higher total never gets a milder band. */
  lemma BandMonotone(x: int, y: int)
    requires x <= y
    ensures Rank(BandOf(x)) <= Rank(BandOf(y))
  {
  }

  /** The lowest valid total of each band. */
  function BandFloor(b: Band): int
  {
    match b
    case NoProblem => 0
    case Mild => 5
    case Moderate => 10
    case Severe => 13
  }

  /** A valid total gets the highest band whose floor it reaches. */
  lemma BandsOfValidTotals(total: int)
    requires 0 <= total <= 24
    ensures BandFloor(BandOf(total)) <= total
    ensures forall b: Band :: Rank(b) > Rank(BandOf(total)) ==> total < BandFloor(b)
  {
  }

  /**
   * The row `k6_result` treats as the latest: the one with the greatest timestamp
   * (the first such row on a tie). `None` is the redirect back to the empty form.
   */
  function Latest(db: seq<K6Record>): (r: Option<K6Record>)
    ensures r.None? <==> db == []
    ensures r.Some? ==> r.value in db && forall i :: 0 <= i < |db| ==> db[i].timestamp <= r.value.timestamp
  {
    if db == [] then None
    else
      match Latest(db[1..])
      case None => Some(db[0])
      case Some(rest) => if rest.timestamp > db[0].timestamp then Some(rest) else Some(db[0])
  }

  function Interpretation(db: seq<K6Record>): Option<Band>
  {
    match Latest(db)
    case None => None
    case Some(r) => Some(BandOf(r.total))
  }

  /** On a table of checked rows the latest row's band is that of a total in 0..24. */
  lemma InterpretationOfTable(db: seq<K6Record>)
    requires TableOk(db) && db != []
    ensures Interpretation(db).Some?
    ensures exists i :: 0 <= i < |db| && Interpretation(db).value == BandOf(db[i].total) && 0 <= db[i].total <= 24
  {
    var r := Latest(db).value;
    var i :| 0 <= i < |db| && db[i] == r;
    assert RowOk(db[i]);
  }

  // ---- the water log ----

  /** A row of `WaterIntake`: millilitres, notes and a timestamp. */
  datatype Intake = Intake(amount: real, notes: string, timestamp: int)

  predicate IntakesOk(db: seq<Intake>)
  {
    forall i :: 0 <= i < |db| ==> db[i].amount > 0.0
  }

  /** `log_water` (POST): an amount of zero or less is refused. */
  function LogWater(db: seq<Intake>, amount: real, notes: string, timestamp: int): (r: (seq<Intake>, bool))
  {
    if amount <= 0.0 then (db, false)
    else (db + [Intake(amount, notes, timestamp)], true)
  }

  datatype WaterOutcome = WaterNotFound | AmountRefused | WaterUpdated

  /** `edit_water` (POST): the guard, then amount and notes replaced (the time only when given). */
  function EditWater(db: seq<Intake>, id: int, amount: real, notes: string, time: Option<int>): (r: (seq<Intake>, WaterOutcome))
  {
    if !(0 <= id < |db|) then (db, WaterNotFound)
    else if amount <= 0.0 then (db, AmountRefused)
    else (db[id := Intake(amount, notes, time.GetOr(db[id].timestamp))], WaterUpdated)
  }

  /** A refused amount adds no row, an accepted one exactly one; every stored amount stays positive. */
  lemma LogWaterGuard(db: seq<Intake>, amount: real, notes: string, timestamp: int)
    requires IntakesOk(db)
    ensures var (db', stored) := LogWater(db, amount, notes, timestamp);
            IntakesOk(db')
            && (stored <==> amount > 0.0)
            && (!stored ==> db' == db)
            && (stored ==> db' == db + [Intake(amount, notes, timestamp)])
  {
  }

  /**
   * A refused amount changes no row; an accepted one replaces the edited row's amount and
   * notes, and its timestamp when a date and time were given; every stored amount stays positive.
   */
  lemma EditWaterGuard(db: seq<Intake>, id: int, amount: real, notes: string, time: Option<int>)
    requires IntakesOk(db)
    ensures var (db', outcome) := EditWater(db, id, amount, notes, time);
            IntakesOk(db')
            && |db'| == |db|
            && (outcome == WaterNotFound <==> !(0 <= id < |db|))
            && (outcome == AmountRefused <==> 0 <= id < |db| && amount <= 0.0)
            && (outcome != WaterUpdated ==> db' == db)
            && (outcome == WaterUpdated ==>
                  db'[id].amount == amount && db'[id].notes == notes
                  && db'[id].timestamp == (if time.Some? then time.value else db[id].timestamp))
            && (forall j :: 0 <= j < |db| && j != id ==> db'[j] == db[j])
  {
  }
}
