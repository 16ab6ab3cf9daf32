/**
 * risk-extraction/prepare_3T_from_ticker.py: load a ticker's risk matrix into
 * a data frame, normalise its column names, add `risk_score = likelihood *
 * impact` and the 3T action (Transfer, Treat, Tolerate), write the whole frame
 * and the Treat-only rows.
 *
 * The frame is a class whose columns and rows the script updates in place.
 * Cells hold decoded JSON values; a missing cell (pandas' NaN) is `JNull`.
 * File existence and loading are oracles; writing is the `Written` report.
 */
module ThreeT {
  import opened Wrappers
  import opened Text
  import opened Json
  import RiskMatrix

  /** The three responses, mildest first. */
  datatype Action = Tolerate | Treat | Transfer

  function ActionName(a: Action): string {
    match a
    case Tolerate => "Tolerate"
    case Treat => "Treat"
    case Transfer => "Transfer"
  }

  function Severity(a: Action): nat {
    match a
    case Tolerate => 0
    case Treat => 1
    case Transfer => 2
  }

  /** `classify_risk(score)`: 65 and above is Transfer, 40 to 64 is Treat, below 40 is Tolerate. */
  function Classify(score: int): (a: Action)
    ensures a == Transfer <==> score >= 65
    ensures a == Treat <==> 40 <= score <= 64
    ensures a == Tolerate <==> score < 40
  {
    if score >= 65 then Transfer
    else if score >= 40 then Treat
    else Tolerate
  }

  /** A higher score never gets a milder action. */
  lemma ClassifyMonotone(s: int, t: int)
    requires s <= t
    ensures Severity(Classify(s)) <= Severity(Classify(t))
  {
  }

  /** The names are distinct, so an action can be read back from its cell. */
  lemma ActionNamesDistinct(a: Action, b: Action)
    ensures ActionName(a) == ActionName(b) <==> a == b
  {
    if a != b {
      assert ActionName(a)[1] != ActionName(b)[1] || |ActionName(a)| != |ActionName(b)|;
    }
  }

  /**
   * `classify_risk` applied to a `risk_score` cell: NaN compares false with
   * both thresholds, so a row with a missing score is tolerated.
   */
  function ActionOf(score: Json): (a: Action)
    ensures score.JNum? ==> a == Classify(score.n)
    ensures score.JNull? ==> a == Tolerate
  {
    match score
    case JNum(n) => Classify(n)
    case _ => Tolerate
  }

  /** A cell as pandas arithmetic sees it: a number, NaN, or not a number at all. */
  datatype Number = Num(n: int) | NaN

  function AsNumber(v: Json): Option<Number> {
    match v
    case JNum(n) => Some(Num(n))
    case JBool(b) => Some(Num(if b then 1 else 0))
    case JNull => Some(NaN)
    case _ => None
  }

  /**
   * One cell of `df['likelihood'] * df['impact']`: the product, NaN (`JNull`)
   * when either is missing, and a failure when either is not numeric (the
   * script then raises before writing anything).
   */
  function Times(l: Json, i: Json): (r: Option<Json>)
    ensures l.JNum? && i.JNum? ==> r == Some(JNum(l.n * i.n))
    ensures (l.JNull? || i.JNull?) && r.Some? ==> r == Some(JNull)
    ensures r.None? <==> AsNumber(l).None? || AsNumber(i).None?
  {
    match (AsNumber(l), AsNumber(i))
    case (Some(Num(a)), Some(Num(b))) => Some(JNum(a * b))
    case (Some(_), Some(_)) => Some(JNull)
    case _ => None
  }

  /** A column name after `df.columns.str.strip().str.lower()`. */
  function Normalise(name: string): string {
    Lower(Strip(name))
  }

  function NormaliseAll(columns: seq<string>): (r: seq<string>)
    ensures |r| == |columns|
  {
    seq(|columns|, k requires 0 <= k < |columns| => Normalise(columns[k]))
  }

  lemma LowerKeepsSpace(s: string)
    ensures forall i :: 0 <= i < |s| ==> (IsSpace(Lower(s)[i]) <==> IsSpace(s[i]))
  {
  }

  lemma LowerIdempotent(s: string)
    ensures Lower(Lower(s)) == Lower(s)
  {
  }

  /** Stripping a string with no whitespace at either end changes nothing. */
  lemma StripTrimmed(t: string)
    requires t == [] || (!IsSpace(t[0]) && !IsSpace(t[|t| - 1]))
    ensures Strip(t) == t
  {
    assert StripLeft(t) == t;
  }

  /** Normalising a name twice is normalising it once: the script's lookups are stable. */
  lemma NormaliseIdempotent(name: string)
    ensures Normalise(Normalise(name)) == Normalise(name)
  {
    var s := Strip(name);
    StripSpec(name);
    LowerKeepsSpace(s);
    StripTrimmed(Lower(s));
    LowerIdempotent(s);
  }

  /** The first position of `name` among the columns: the one `df[name]` reads. */
  function Find(columns: seq<string>, name: string): (r: Option<nat>)
    ensures r.Some? ==> r.value < |columns| && columns[r.value] == name &&
                        forall j :: 0 <= j < r.value ==> columns[j] != name
    ensures r.None? <==> name !in columns
  {
    if name !in columns then None
    else if columns[0] == name then Some(0)
    else
      var r := Find(columns[1..], name);
      Some(r.value + 1)
  }

  /** One record of the loaded list: a JSON object's members. */
  type Record = seq<(string, Json)>

  /** The names in `keys` not yet in `seen`, in order. */
  function NewKeys(seen: seq<string>, keys: seq<string>): (r: seq<string>)
    ensures forall k :: k in r <==> k in keys && k !in seen
    ensures (forall i, j :: 0 <= i < j < |keys| ==> keys[i] != keys[j]) ==>
            (forall i, j :: 0 <= i < j < |r| ==> r[i] != r[j])
    decreases |keys|
  {
    if keys == [] then []
    else
      var rest := NewKeys(seen, keys[1..]);
      if keys[0] in seen then rest else [keys[0]] + rest
  }

  /**
   * The columns `pd.DataFrame(records)` makes: every key of every record, once,
   * in order of first appearance.
   */
  function RecordColumns(records: seq<Record>): (cols: seq<string>)
    ensures forall k :: k in cols <==> exists i :: 0 <= i < |records| && HasField(records[i], k)
    ensures forall i, j :: 0 <= i < j < |cols| ==> cols[i] != cols[j]
    decreases |records|
  {
    if records == [] then []
    else
      var earlier := RecordColumns(records[..|records| - 1]);
      var last := records[|records| - 1];
      var added := NewKeys(earlier, DictKeys(last));
      var cols := earlier + added;
      assert forall i, j :: 0 <= i < j < |cols| ==> cols[i] != cols[j] by {
        forall i, j | 0 <= i < j < |cols|
          ensures cols[i] != cols[j]
        {
          if j >= |earlier| {
            assert cols[j] == added[j - |earlier|];
            if i < |earlier| {
              assert cols[i] in earlier;
            }
          }
        }
      }
      assert forall k :: k in cols <==> exists i :: 0 <= i < |records| && HasField(records[i], k) by {
        forall k
          ensures k in cols <==> exists i :: 0 <= i < |records| && HasField(records[i], k)
        {
          if exists i :: 0 <= i < |records| && HasField(records[i], k) {
            var i :| 0 <= i < |records| && HasField(records[i], k);
            if i < |records| - 1 {
              assert records[..|records| - 1][i] == records[i];
            }
          }
          if k in earlier {
            var i :| 0 <= i < |records| - 1 && HasField(records[..|records| - 1][i], k);
            assert records[i] == records[..|records| - 1][i];
          }
        }
      }
      cols
  }

  /** A record's row: its value under each column, NaN (`JNull`) where it has none. */
  function RowOf(record: Record, columns: seq<string>): (row: seq<Json>)
    ensures |row| == |columns|
    ensures forall k :: 0 <= k < |columns| && !HasField(record, columns[k]) ==> row[k] == JNull
    ensures forall k :: 0 <= k < |columns| && HasField(record, columns[k]) ==>
      row[k] == FieldValue(record, columns[k])
  {
    seq(|columns|, k requires 0 <= k < |columns| =>
      if HasField(record, columns[k]) then FieldValue(record, columns[k]) else JNull)
  }

  /** A frame's contents as a value. */
  datatype Table = Table(columns: seq<string>, rows: seq<seq<Json>>)

  predicate WellShaped(t: Table) {
    forall i :: 0 <= i < |t.rows| ==> |t.rows[i]| == |t.columns|
  }

  function FromRecords(records: seq<Record>): (t: Table)
    ensures WellShaped(t) && |t.rows| == |records|
  {
    var cols := RecordColumns(records);
    Table(cols, seq(|records|, i requires 0 <= i < |records| => RowOf(records[i], cols)))
  }

  /** `df[name] = values`: overwrite the column if it exists, append it otherwise. */
  function SetColumn(t: Table, name: string, values: seq<Json>): Table
    requires WellShaped(t) && |values| == |t.rows|
  {
    match Find(t.columns, name)
    case Some(k) => Table(t.columns, seq(|t.rows|, i requires 0 <= i < |t.rows| => t.rows[i][k := values[i]]))
    case None => Table(t.columns + [name], seq(|t.rows|, i requires 0 <= i < |t.rows| => t.rows[i] + [values[i]]))
  }

  /** After `df[name] = values` the column `name` reads back as `values`, row by row. */
  lemma SetColumnReadsBack(t: Table, name: string, values: seq<Json>)
    requires WellShaped(t) && |values| == |t.rows|
    ensures var r := SetColumn(t, name, values);
      WellShaped(r) && |r.rows| == |t.rows| &&
      Find(r.columns, name).Some? &&
      (forall i :: 0 <= i < |r.rows| ==> r.rows[i][Find(r.columns, name).value] == values[i])
  {
  }

  /**
   * Every other column keeps its position and its cells: a column found at
   * `k` before is found at `k` after, with the same value in every row.
   */
  lemma SetColumnKeepsOther(t: Table, name: string, values: seq<Json>, other: string)
    requires WellShaped(t) && |values| == |t.rows| && other != name
    ensures var r := SetColumn(t, name, values);
      Find(r.columns, other) == Find(t.columns, other) &&
      (Find(t.columns, other).Some? ==>
        forall i :: 0 <= i < |r.rows| ==> r.rows[i][Find(t.columns, other).value] == t.rows[i][Find(t.columns, other).value])
  {
    if Find(t.columns, name).None? {
      FindAppend(t.columns, name, other);
    }
  }

  /**
   * Setting a column never moves the existing column names (they stay a
   * prefix), and every cell of a column with another name is unchanged.
   */
  lemma SetColumnKeepsColumns(t: Table, name: string, values: seq<Json>)
    requires WellShaped(t) && |values| == |t.rows|
    ensures var r := SetColumn(t, name, values);
      |t.columns| <= |r.columns| && r.columns[..|t.columns|] == t.columns &&
      (forall i, k :: 0 <= i < |r.rows| && 0 <= k < |t.columns| && t.columns[k] != name ==>
        r.rows[i][k] == t.rows[i][k])
  {
    var r := SetColumn(t, name, values);
    if Find(t.columns, name).None? {
      assert r.columns[..|t.columns|] == t.columns;
    }
  }

  lemma {:induction false} FindAppend(columns: seq<string>, name: string, other: string)
    requires other != name
    ensures Find(columns + [name], other) == Find(columns, other)
    decreases |columns|
  {
    if columns != [] && columns[0] != other {
      assert (columns + [name])[1..] == columns[1..] + [name];
      FindAppend(columns[1..], name, other);
    }
  }

  /** Why the script stops without writing after it has found the input file. */
  datatype Failure =
    | ColumnMissing(name: string)   // `df['likelihood']` or `df['impact']` raised `KeyError`
    | NotNumeric                    // the product, or classifying it, raised `TypeError`

  /** The loaded frame with its column names normalised. */
  function Normalised(records: seq<Record>): (t: Table)
    ensures WellShaped(t) && |t.rows| == |records|
  {
    var loaded := FromRecords(records);
    Table(NormaliseAll(loaded.columns), loaded.rows)
  }

  /** Scoring and classifying a normalised frame. */
  function ScoreTable(t: Table): Result<Table, Failure>
    requires WellShaped(t)
  {
    match (Find(t.columns, "likelihood"), Find(t.columns, "impact"))
    case (None, _) => Err(ColumnMissing("likelihood"))
    case (_, None) => Err(ColumnMissing("impact"))
    case (Some(li), Some(ii)) =>
      match RiskScores(t.rows, li, ii)
      case None => Err(NotNumeric)
      case Some(scores) => Ok(ScoredFrame(t, scores))
  }

  /** The frame the script writes, as a value: normalised, scored and classified. */
  function Scored3T(records: seq<Record>): Result<Table, Failure> {
    ScoreTable(Normalised(records))
  }

  /** `df['likelihood'] * df['impact']`, row by row; `None` when some row is not numeric. */
  function RiskScores(rows: seq<seq<Json>>, li: nat, ii: nat): (r: Option<seq<Json>>)
    requires forall i :: 0 <= i < |rows| ==> li < |rows[i]| && ii < |rows[i]|
    ensures r.Some? ==> (|r.value| == |rows| &&
      forall i :: 0 <= i < |rows| ==> Times(rows[i][li], rows[i][ii]) == Some(r.value[i]))
    ensures r.None? <==> exists i :: 0 <= i < |rows| && Times(rows[i][li], rows[i][ii]).None?
    decreases |rows|
  {
    if rows == [] then Some([])
    else
      var last := Times(rows[|rows| - 1][li], rows[|rows| - 1][ii]);
      match RiskScores(rows[..|rows| - 1], li, ii)
      case None => None
      case Some(front) => if last.None? then None else Some(front + [last.value])
  }

  /** `df['risk_score'].apply(classify_risk)`. */
  function Actions(scores: seq<Json>): (r: seq<Json>)
    ensures |r| == |scores|
    ensures forall i :: 0 <= i < |scores| ==> r[i] == JStr(ActionName(ActionOf(scores[i])))
  {
    seq(|scores|, i requires 0 <= i < |scores| => JStr(ActionName(ActionOf(scores[i]))))
  }

  /** The frame after adding `risk_score` and then `action`. */
  function ScoredFrame(t0: Table, scores: seq<Json>): Table
    requires WellShaped(t0) && |scores| == |t0.rows|
  {
    SetColumnReadsBack(t0, "risk_score", scores);
    SetColumn(SetColumn(t0, "risk_score", scores), "action", Actions(scores))
  }

  /**
   * Adding `risk_score` and then `action` to a frame: in every row the score is
   * the product of the likelihood and impact cells and the action is its class.
   */
  lemma ScoreThenClassify(t0: Table, li: nat, ii: nat, scores: seq<Json>)
    requires WellShaped(t0)
    requires Find(t0.columns, "likelihood") == Some(li) && Find(t0.columns, "impact") == Some(ii)
    requires RiskScores(t0.rows, li, ii) == Some(scores)
    ensures var t := ScoredFrame(t0, scores);
      WellShaped(t) && |t.rows| == |t0.rows| &&
      Find(t.columns, "likelihood") == Some(li) && Find(t.columns, "impact") == Some(ii) &&
      Find(t.columns, "risk_score").Some? && Find(t.columns, "action").Some? &&
      (forall i :: 0 <= i < |t.rows| ==>
        Times(t.rows[i][li], t.rows[i][ii]) == Some(t.rows[i][Find(t.columns, "risk_score").value]) &&
        t.rows[i][Find(t.columns, "action").value] ==
          JStr(ActionName(ActionOf(t.rows[i][Find(t.columns, "risk_score").value]))))
  {
    SetColumnReadsBack(t0, "risk_score", scores);
    var t1 := SetColumn(t0, "risk_score", scores);
    SetColumnReadsBack(t1, "action", Actions(scores));
    var t := SetColumn(t1, "action", Actions(scores));
    assert t == ScoredFrame(t0, scores);
    SetColumnKeepsOther(t0, "risk_score", scores, "likelihood");
    SetColumnKeepsOther(t0, "risk_score", scores, "impact");
    SetColumnKeepsOther(t1, "action", Actions(scores), "likelihood");
    SetColumnKeepsOther(t1, "action", Actions(scores), "impact");
    SetColumnKeepsOther(t1, "action", Actions(scores), "risk_score");
    var si, ai := Find(t.columns, "risk_score").value, Find(t.columns, "action").value;
    forall i | 0 <= i < |t.rows|
      ensures Times(t.rows[i][li], t.rows[i][ii]) == Some(t.rows[i][si])
      ensures t.rows[i][ai] == JStr(ActionName(ActionOf(t.rows[i][si])))
    {
      assert t.rows[i][li] == t1.rows[i][li] == t0.rows[i][li];
      assert t.rows[i][ii] == t1.rows[i][ii] == t0.rows[i][ii];
      assert t.rows[i][si] == t1.rows[i][si] == scores[i];
    }
  }

  /** The frame's own columns keep their names, places and cells, except the two overwritten. */
  lemma ScoringKeepsColumns(t0: Table, scores: seq<Json>)
    requires WellShaped(t0) && |scores| == |t0.rows|
    ensures var t := ScoredFrame(t0, scores);
      |t0.columns| <= |t.columns| && |t.rows| == |t0.rows| &&
      t.columns[..|t0.columns|] == t0.columns &&
      (forall i, k ::
        (0 <= i < |t.rows| && 0 <= k < |t0.columns| && t0.columns[k] != "risk_score" && t0.columns[k] != "action") ==>
        t.rows[i][k] == t0.rows[i][k])
  {
    SetColumnReadsBack(t0, "risk_score", scores);
    var t1 := SetColumn(t0, "risk_score", scores);
    var t := SetColumn(t1, "action", Actions(scores));
    SetColumnKeepsColumns(t0, "risk_score", scores);
    SetColumnKeepsColumns(t1, "action", Actions(scores));
    assert t == ScoredFrame(t0, scores);
    assert t.columns[..|t0.columns|] == t1.columns[..|t0.columns|];
  }

  /**
   * The written frame has one row per record, in order; in every row
   * `risk_score` is `likelihood * impact` and `action` is that score's class.
   */
  lemma ScoredRows(records: seq<Record>)
    requires Scored3T(records).Ok?
    ensures var t := Scored3T(records).value;
      WellShaped(t) && |t.rows| == |records| &&
      Find(t.columns, "likelihood").Some? && Find(t.columns, "impact").Some? &&
      Find(t.columns, "risk_score").Some? && Find(t.columns, "action").Some? &&
      (forall i :: 0 <= i < |t.rows| ==>
        Times(t.rows[i][Find(t.columns, "likelihood").value], t.rows[i][Find(t.columns, "impact").value]) ==
          Some(t.rows[i][Find(t.columns, "risk_score").value]) &&
        t.rows[i][Find(t.columns, "action").value] ==
          JStr(ActionName(ActionOf(t.rows[i][Find(t.columns, "risk_score").value]))))
  {
    ScoreTableRows(Normalised(records));
  }

  /** `ScoredRows` for any well-shaped frame that scores. */
  lemma ScoreTableRows(t0: Table)
    requires WellShaped(t0) && ScoreTable(t0).Ok?
    ensures var t := ScoreTable(t0).value;
      WellShaped(t) && |t.rows| == |t0.rows| &&
      Find(t.columns, "likelihood").Some? && Find(t.columns, "impact").Some? &&
      Find(t.columns, "risk_score").Some? && Find(t.columns, "action").Some? &&
      (forall i :: 0 <= i < |t.rows| ==>
        Times(t.rows[i][Find(t.columns, "likelihood").value], t.rows[i][Find(t.columns, "impact").value]) ==
          Some(t.rows[i][Find(t.columns, "risk_score").value]) &&
        t.rows[i][Find(t.columns, "action").value] ==
          JStr(ActionName(ActionOf(t.rows[i][Find(t.columns, "risk_score").value]))))
  {
    var li, ii := Find(t0.columns, "likelihood").value, Find(t0.columns, "impact").value;
    var scores := RiskScores(t0.rows, li, ii).value;
    assert ScoreTable(t0) == Ok(ScoredFrame(t0, scores));
    ScoreThenClassify(t0, li, ii, scores);
  }

  /** The script stops with `KeyError` exactly when a normalised column is missing. */
  lemma MissingColumns(records: seq<Record>)
    ensures Scored3T(records) == Err(ColumnMissing("likelihood")) <==>
      "likelihood" !in NormaliseAll(RecordColumns(records))
    ensures Scored3T(records) == Err(ColumnMissing("impact")) <==>
      "likelihood" in NormaliseAll(RecordColumns(records)) && "impact" !in NormaliseAll(RecordColumns(records))
  {
  }

  /** `df[df['action'] == 'Treat']`: the rows whose action cell is Treat, in order. */
  function TreatRows(rows: seq<seq<Json>>, ai: nat): seq<seq<Json>>
    requires forall i :: 0 <= i < |rows| ==> ai < |rows[i]|
    decreases |rows|
  {
    if rows == [] then []
    else
      var last := rows[|rows| - 1];
      TreatRows(rows[..|rows| - 1], ai) + (if last[ai] == JStr("Treat") then [last] else [])
  }

  /** A row is in the Treat file exactly when it is a row of the frame whose action is Treat. */
  lemma {:induction false} TreatRowsMembership(rows: seq<seq<Json>>, ai: nat)
    requires forall i :: 0 <= i < |rows| ==> ai < |rows[i]|
    ensures forall row :: row in TreatRows(rows, ai) <==> row in rows && row[ai] == JStr("Treat")
    decreases |rows|
  {
    if rows != [] {
      var front := rows[..|rows| - 1];
      TreatRowsMembership(front, ai);
      assert rows == front + [rows[|rows| - 1]];
    }
  }

  /** Filtering keeps the order: the Treat rows of two consecutive blocks are those of the first, then the second. */
  lemma {:induction false} TreatRowsAppend(a: seq<seq<Json>>, b: seq<seq<Json>>, ai: nat)
    requires forall i :: 0 <= i < |a| ==> ai < |a[i]|
    requires forall i :: 0 <= i < |b| ==> ai < |b[i]|
    ensures TreatRows(a + b, ai) == TreatRows(a, ai) + TreatRows(b, ai)
    decreases |b|
  {
    if b == [] {
      assert a + b == a;
    } else {
      var front := b[..|b| - 1];
      var last := b[|b| - 1];
      var kept := if last[ai] == JStr("Treat") then [last] else [];
      TreatRowsAppend(a, front, ai);
      assert (a + b)[..|a + b| - 1] == a + front;
      assert (a + b)[|a + b| - 1] == last;
      calc {
        TreatRows(a + b, ai);
        TreatRows(a + front, ai) + kept;
        TreatRows(a, ai) + TreatRows(front, ai) + kept;
        TreatRows(a, ai) + (TreatRows(front, ai) + kept);
        TreatRows(a, ai) + TreatRows(b, ai);
      }
    }
  }

  /** What the script leaves behind. */
  datatype Report =
    | InputMissing(path: string)          // "File not found", exit before any output
    | Stopped(failure: Failure)
    | Written(fullPath: string, treatPath: string, full: Table, treat: seq<seq<Json>>)

  function InputPath(ticker: string): string {
    RiskMatrix.JsonPath(ticker)
  }

  function FullPath(ticker: string): string {
    "data/reports/" + ticker + "_3T_risks.csv"
  }

  function TreatPath(ticker: string): string {
    "data/reports/" + ticker + "_treat_risks_for_montecarlo.csv"
  }

  /** The pandas frame the script mutates. */
  class Frame {
    var columns: seq<string>
    var rows: seq<seq<Json>>

    function Contents(): Table
      reads this
    {
      Table(columns, rows)
    }

    /** `pd.DataFrame(data)` for a list of records. */
    constructor (records: seq<Record>)
      ensures Contents() == FromRecords(records)
    {
      var t := FromRecords(records);
      columns, rows := t.columns, t.rows;
    }

    /** `df.columns = df.columns.str.strip().str.lower()`. */
    method NormaliseColumns()
      modifies this
      ensures Contents() == Table(NormaliseAll(old(columns)), old(rows))
    {
      columns := NormaliseAll(columns);
    }

    /** `df[name] = values`. */
    method Assign(name: string, values: seq<Json>)
      requires WellShaped(Contents()) && |values| == |rows|
      modifies this
      ensures Contents() == SetColumn(old(Contents()), name, values)
    {
      var k := Find(columns, name);
      var current := rows;
      if k.Some? {
        rows := seq(|current|, i requires 0 <= i < |current| => current[i][k.value := values[i]]);
      } else {
        rows := seq(|current|, i requires 0 <= i < |current| => current[i] + [values[i]]);
        columns := columns + [name];
      }
    }
  }

  /**
   * Steps 4 to 6 of the script on the frame: build it from the records,
   * normalise its column names, add `risk_score` and `action`.
   */
  method ScoreFrame(records: seq<Record>) returns (r: Result<Table, Failure>)
    ensures r == Scored3T(records)
    ensures r.Ok? ==> WellShaped(r.value) && Find(r.value.columns, "action").Some?
  {
    var df := new Frame(records);
    df.NormaliseColumns();
    ghost var t0 := df.Contents();
    assert t0 == Normalised(records);
    var li := Find(df.columns, "likelihood");
    if li.None? {
      return Err(ColumnMissing("likelihood"));
    }
    var ii := Find(df.columns, "impact");
    if ii.None? {
      return Err(ColumnMissing("impact"));
    }
    var scores := RiskScores(df.rows, li.value, ii.value);
    if scores.None? {
      return Err(NotNumeric);
    }
    ScoreThenClassify(t0, li.value, ii.value, scores.value);
    SetColumnReadsBack(t0, "risk_score", scores.value);
    df.Assign("risk_score", scores.value);
    df.Assign("action", Actions(scores.value));
    assert df.Contents() == ScoredFrame(t0, scores.value);
    return Ok(df.Contents());
  }

  /**
   * The script: read the ticker, stop if its matrix file is missing, build the
   * frame, normalise, score, classify, and write the frame and its Treat rows.
   */
  method Prepare3T(input: string, fileExists: string -> bool, load: string -> seq<Record>)
    returns (report: Report)
    ensures var ticker := RiskMatrix.Ticker(input);
      (report == InputMissing(InputPath(ticker)) <==> !fileExists(InputPath(ticker))) &&
      (report.Stopped? ==>
        (fileExists(InputPath(ticker)) && Scored3T(load(InputPath(ticker))) == Err(report.failure))) &&
      (report.Written? ==>
        (fileExists(InputPath(ticker)) &&
         Scored3T(load(InputPath(ticker))) == Ok(report.full) &&
         report.fullPath == FullPath(ticker) && report.treatPath == TreatPath(ticker) &&
         Find(report.full.columns, "action").Some? && WellShaped(report.full) &&
         report.treat == TreatRows(report.full.rows, Find(report.full.columns, "action").value)))
    ensures var ticker := RiskMatrix.Ticker(input);
      (report.InputMissing? <==> !fileExists(InputPath(ticker))) &&
      (report.Stopped? <==> fileExists(InputPath(ticker)) && Scored3T(load(InputPath(ticker))).Err?) &&
      (report.Written? <==> fileExists(InputPath(ticker)) && Scored3T(load(InputPath(ticker))).Ok?)
  {
    var ticker := RiskMatrix.Ticker(input);
    var inputPath := InputPath(ticker);
    if !fileExists(inputPath) {
      return InputMissing(inputPath);
    }
    var scored := ScoreFrame(load(inputPath));
    match scored
    case Err(failure) =>
      return Stopped(failure);
    case Ok(full) =>
      var ai := Find(full.columns, "action").value;
      return Written(FullPath(ticker), TreatPath(ticker), full, TreatRows(full.rows, ai));
  }
}
