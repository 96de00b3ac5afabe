/** The schema-tolerant writers of `risk_processor.py`: `_persist_scores_auto`
    and `_insert_alert_auto`. A table is its set of column names (what
    `PRAGMA table_info` reports) and its rows; an INSERT naming a column the
    table lacks fails. Column names are compared exactly, where SQLite
    ignores their case. */
module Persistence {
  import opened Outcomes

  datatype Value = Text(text: string) | Real(number: real)

  /** A stored row: the columns the INSERT named, with their values. */
  type Row = map<string, Value>

  datatype Table = Table(columns: set<string>, rows: seq<Row>)

  /** The error SQLite raises for an INSERT naming columns a table lacks. */
  datatype DbError = NoSuchColumn(table: string, missing: set<string>)

  /** `INSERT INTO name(<row's columns>) VALUES (...)`, with column names
      compared exactly. */
  function Insert(name: string, t: Table, row: Row): (r: Result<Table, DbError>)
    ensures r.Ok? <==> row.Keys <= t.columns
    ensures r.Ok? ==> r.value == Table(t.columns, t.rows + [row])
    ensures r.Err? ==> r.error.missing != {} && r.error.missing !! t.columns
  {
    if row.Keys <= t.columns then Ok(Table(t.columns, t.rows + [row]))
    else
      var missing := row.Keys - t.columns;
      var c :| c in row.Keys && c !in t.columns;
      assert c in missing;
      Err(NoSuchColumn(name, missing))
  }

  const NewerScoreColumns: set<string> :=
    {"rule_score", "ml_score", "combined_score", "decision", "severity", "reasons"}
  const OlderScoreColumns: set<string> :=
    {"base_rule_score", "ml_anomaly_score", "combined_score", "decision", "reason"}
  /** The columns only the newer score layout names. */
  const NewerOnlyColumns: set<string> := {"rule_score", "ml_score", "severity", "reasons"}
  /** The columns of the minimal score row, which every score layout writes. */
  const MinimalScoreColumns: set<string> := {"trade_id", "combined_score", "decision"}

  datatype ScoreLayout = NewerScores | OlderScores | MinimalScores

  /** The first score layout whose checked columns are all present. */
  function ScoreLayoutFor(columns: set<string>): (layout: ScoreLayout)
    ensures layout == NewerScores <==> NewerScoreColumns <= columns
    ensures layout == OlderScores <==> !(NewerScoreColumns <= columns) && OlderScoreColumns <= columns
  {
    if NewerScoreColumns <= columns then NewerScores
    else if OlderScoreColumns <= columns then OlderScores
    else MinimalScores
  }

  /** The keyword arguments of `_persist_scores_auto`. */
  datatype ScoreRecord = ScoreRecord(
    tradeId: string, ruleScore: real, mlScore: real, combined: real,
    decision: string, severity: string, reasons: string)

  function ScoreRow(layout: ScoreLayout, rec: ScoreRecord): Row {
    match layout
    case NewerScores =>
      map["trade_id" := Text(rec.tradeId), "rule_score" := Real(rec.ruleScore),
          "ml_score" := Real(rec.mlScore), "combined_score" := Real(rec.combined),
          "decision" := Text(rec.decision), "severity" := Text(rec.severity),
          "reasons" := Text(rec.reasons)]
    case OlderScores =>
      map["trade_id" := Text(rec.tradeId), "base_rule_score" := Real(rec.ruleScore),
          "ml_anomaly_score" := Real(rec.mlScore), "combined_score" := Real(rec.combined),
          "decision" := Text(rec.decision), "reason" := Text(rec.reasons)]
    case MinimalScores =>
      map["trade_id" := Text(rec.tradeId), "combined_score" := Real(rec.combined),
          "decision" := Text(rec.decision)]
  }

  /** `_persist_scores_auto` on the `risk_scores` table. */
  function ScoreInsert(scores: Table, rec: ScoreRecord): (r: Result<Table, DbError>)
    ensures r.Ok? ==> r.value.columns == scores.columns && |r.value.rows| == |scores.rows| + 1
    ensures r.Err? ==> r.error.table == "risk_scores" && r.error.missing !! scores.columns
  {
    Insert("risk_scores", scores, ScoreRow(ScoreLayoutFor(scores.columns), rec))
  }

  /** The score write succeeds exactly when the table has trade_id,
      combined_score and decision; it then appends exactly one row, which
      records the trade, its combined score and its decision. */
  lemma ScoreInsertOutcome(scores: Table, rec: ScoreRecord)
    ensures ScoreInsert(scores, rec).Ok? <==> MinimalScoreColumns <= scores.columns
    ensures ScoreInsert(scores, rec).Ok? ==>
      var after := ScoreInsert(scores, rec).value;
      && after.columns == scores.columns
      && |after.rows| == |scores.rows| + 1
      && after.rows[..|scores.rows|] == scores.rows
      && var row := after.rows[|scores.rows|];
      && row["trade_id"] == Text(rec.tradeId)
      && row["combined_score"] == Real(rec.combined)
      && row["decision"] == Text(rec.decision)
    ensures ScoreInsert(scores, rec).Err? ==> ScoreInsert(scores, rec).error.table == "risk_scores"
  {
    var row := ScoreRow(ScoreLayoutFor(scores.columns), rec);
    assert MinimalScoreColumns <= row.Keys;
    if ScoreInsert(scores, rec).Ok? {
      var after := ScoreInsert(scores, rec).value;
      assert after.rows == scores.rows + [row];
    }
  }

  /** With every newer-layout column present the full record is stored,
      severity and translated reasons included. */
  lemma NewerLayoutStoresEverything(scores: Table, rec: ScoreRecord)
    requires NewerScoreColumns + {"trade_id"} <= scores.columns
    ensures ScoreInsert(scores, rec) == Ok(Table(scores.columns, scores.rows + [ScoreRow(NewerScores, rec)]))
    ensures ScoreRow(NewerScores, rec)["severity"] == Text(rec.severity)
    ensures ScoreRow(NewerScores, rec)["reasons"] == Text(rec.reasons)
    ensures ScoreRow(NewerScores, rec)["rule_score"] == Real(rec.ruleScore)
    ensures ScoreRow(NewerScores, rec)["ml_score"] == Real(rec.mlScore)
  {
  }

  /** A table with the older layout but not the newer one is written in the
      older layout, which never names a column of the newer one. */
  lemma OlderLayoutAvoidsNewerColumns(scores: Table, rec: ScoreRecord)
    requires OlderScoreColumns + {"trade_id"} <= scores.columns
    requires !(NewerScoreColumns <= scores.columns)
    ensures ScoreInsert(scores, rec).Ok?
    ensures var row := ScoreInsert(scores, rec).value.rows[|scores.rows|];
      && row.Keys !! NewerOnlyColumns
      && row["base_rule_score"] == Real(rec.ruleScore)
      && row["ml_anomaly_score"] == Real(rec.mlScore)
      && row["reason"] == Text(rec.reasons)
  {
    var row := ScoreRow(OlderScores, rec);
    assert row.Keys == OlderScoreColumns + {"trade_id"};
    assert ScoreInsert(scores, rec).value.rows == scores.rows + [row];
  }

  datatype AlertLayout = LevelAlert | SeverityAlert | MessageAlert | ScoreFallback

  const LevelAlertColumns: set<string> := {"trade_id", "level", "message"}
  const SeverityAlertColumns: set<string> := {"trade_id", "severity", "message"}
  const MessageAlertColumns: set<string> := {"trade_id", "message"}

  /** The first alert layout whose columns are all present; `level` is tried
      before `severity`. */
  function AlertLayoutFor(columns: set<string>): (layout: AlertLayout)
    ensures layout == LevelAlert <==> LevelAlertColumns <= columns
    ensures layout == SeverityAlert <==> !(LevelAlertColumns <= columns) && SeverityAlertColumns <= columns
    ensures layout == ScoreFallback <==> !(MessageAlertColumns <= columns)
  {
    if LevelAlertColumns <= columns then LevelAlert
    else if SeverityAlertColumns <= columns then SeverityAlert
    else if MessageAlertColumns <= columns then MessageAlert
    else ScoreFallback
  }

  /** The two tables an alert write may touch. */
  datatype Sinks = Sinks(scores: Table, alerts: Table)

  /** The fallback entry: a score row tagged as an alert of this severity. */
  function FallbackRow(tradeId: string, severity: string): Row {
    map["trade_id" := Text(tradeId), "combined_score" := Real(0.0),
        "decision" := Text("ALERT_FALLBACK:" + severity)]
  }

  function AlertRow(layout: AlertLayout, tradeId: string, severity: string, message: string): Row {
    match layout
    case LevelAlert =>
      map["trade_id" := Text(tradeId), "level" := Text(severity), "message" := Text(message)]
    case SeverityAlert =>
      map["trade_id" := Text(tradeId), "severity" := Text(severity), "message" := Text(message)]
    case MessageAlert =>
      map["trade_id" := Text(tradeId), "message" := Text(message)]
    case ScoreFallback =>
      FallbackRow(tradeId, severity)
  }

  /** `_insert_alert_auto`: an `alerts` row in the first layout that fits, else
      a fallback row in `risk_scores`. */
  function AlertInsert(sinks: Sinks, tradeId: string, severity: string, message: string): (r: Result<Sinks, DbError>)
    ensures r.Ok? ==> r.value.scores.columns == sinks.scores.columns && r.value.alerts.columns == sinks.alerts.columns
    ensures r.Ok? ==> |r.value.scores.rows| + |r.value.alerts.rows| == |sinks.scores.rows| + |sinks.alerts.rows| + 1
  {
    var layout := AlertLayoutFor(sinks.alerts.columns);
    var row := AlertRow(layout, tradeId, severity, message);
    if layout == ScoreFallback then
      match Insert("risk_scores", sinks.scores, row)
      case Ok(scores) => Ok(Sinks(scores, sinks.alerts))
      case Err(e) => Err(e)
    else
      match Insert("alerts", sinks.alerts, row)
      case Ok(alerts) => Ok(Sinks(sinks.scores, alerts))
      case Err(e) => Err(e)
  }

  /** The alert write fails only when the alerts table lacks trade_id or
      message and the scores table cannot take the fallback row; otherwise it
      appends exactly one row to exactly one of the two tables. */
  lemma AlertInsertOutcome(sinks: Sinks, tradeId: string, severity: string, message: string)
    ensures AlertInsert(sinks, tradeId, severity, message).Ok? <==>
      MessageAlertColumns <= sinks.alerts.columns || MinimalScoreColumns <= sinks.scores.columns
    ensures AlertInsert(sinks, tradeId, severity, message).Ok? ==>
      var after := AlertInsert(sinks, tradeId, severity, message).value;
      && after.scores.columns == sinks.scores.columns
      && after.alerts.columns == sinks.alerts.columns
      && |after.scores.rows| + |after.alerts.rows| == |sinks.scores.rows| + |sinks.alerts.rows| + 1
      && after.scores.rows[..|sinks.scores.rows|] == sinks.scores.rows
      && after.alerts.rows[..|sinks.alerts.rows|] == sinks.alerts.rows
      && (MessageAlertColumns <= sinks.alerts.columns <==> |after.alerts.rows| == |sinks.alerts.rows| + 1)
  {
    var layout := AlertLayoutFor(sinks.alerts.columns);
    var row := AlertRow(layout, tradeId, severity, message);
    assert layout != ScoreFallback ==> row.Keys <= sinks.alerts.columns;
    assert layout == ScoreFallback ==> row.Keys == MinimalScoreColumns;
  }

  /** With both a `level` and a `severity` column, the severity goes to
      `level` and the `severity` column is left unnamed. */
  lemma LevelBeforeSeverity(sinks: Sinks, tradeId: string, severity: string, message: string)
    requires LevelAlertColumns + SeverityAlertColumns <= sinks.alerts.columns
    ensures AlertInsert(sinks, tradeId, severity, message) ==
      Ok(Sinks(sinks.scores, Table(sinks.alerts.columns, sinks.alerts.rows +
        [map["trade_id" := Text(tradeId), "level" := Text(severity), "message" := Text(message)]])))
  {
  }

  /** Without trade_id and message in `alerts`, the alert survives as a score
      row with combined score 0.0 and decision "ALERT_FALLBACK:" + severity. */
  lemma FallbackAlertIsScoreRow(sinks: Sinks, tradeId: string, severity: string, message: string)
    requires !(MessageAlertColumns <= sinks.alerts.columns)
    requires MinimalScoreColumns <= sinks.scores.columns
    ensures AlertInsert(sinks, tradeId, severity, message) ==
      Ok(Sinks(Table(sinks.scores.columns, sinks.scores.rows + [FallbackRow(tradeId, severity)]), sinks.alerts))
  {
    assert !(LevelAlertColumns <= sinks.alerts.columns);
    assert !(SeverityAlertColumns <= sinks.alerts.columns);
  }
}
