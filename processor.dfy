/** `process_once` of `risk_processor.py` and the store it works on: fetch up
    to 20 NEW trades in ascending id order, then for each one score it,
    classify it, persist the score, mark it PROCESSED and insert an alert.
    The store runs in autocommit mode, so a write that fails leaves every
    earlier write of the pass in place. */
module Processor {
  import opened Outcomes
  import Strings = Text
  import opened RiskEngine
  import opened Classification
  import opened Translation
  import opened Persistence

  /** The `LIMIT` of `_fetch_new_trades`. */
  const BatchSize: nat := 20

  /** The trades table in storage order: strictly ascending, hence unique, ids. */
  predicate IdsAscending(ts: seq<Trade>) {
    forall i, j :: 0 <= i < j < |ts| ==> ts[i].id < ts[j].id
  }

  /** The NEW trades, in table order. */
  function NewTrades(ts: seq<Trade>): (pending: seq<Trade>)
    ensures |pending| <= |ts|
    ensures forall t :: t in pending <==> t in ts && t.status == New
    decreases |ts|
  {
    if ts == [] then []
    else (if ts[0].status == New then [ts[0]] else []) + NewTrades(ts[1..])
  }

  function CountNew(ts: seq<Trade>): nat {
    |NewTrades(ts)|
  }

  function Min(a: nat, b: nat): nat {
    if a <= b then a else b
  }

  /** `SELECT ... FROM trades WHERE status='NEW' ORDER BY id LIMIT limit` */
  function FetchNew(ts: seq<Trade>, limit: nat): (batch: seq<Trade>)
    ensures |batch| == Min(limit, CountNew(ts))
    ensures batch == NewTrades(ts)[..|batch|]
  {
    var pending := NewTrades(ts);
    if |pending| <= limit then pending else pending[..limit]
  }

  lemma {:induction false} NewTradesAscending(ts: seq<Trade>)
    requires IdsAscending(ts)
    ensures IdsAscending(NewTrades(ts))
    decreases |ts|
  {
    if ts != [] {
      NewTradesAscending(ts[1..]);
      var rest := NewTrades(ts[1..]);
      forall x | x in rest ensures ts[0].id < x.id {
        var k :| 0 <= k < |ts[1..]| && ts[1..][k] == x;
        assert ts[k + 1] == x;
      }
    }
  }

  /** The fetched batch holds NEW trades of the store, in ascending id order,
      and every NEW trade left behind has a larger id than each fetched one. */
  lemma FetchOldestFirst(ts: seq<Trade>, limit: nat)
    requires IdsAscending(ts)
    ensures var batch := FetchNew(ts, limit);
      && IdsAscending(batch)
      && (forall t :: t in batch ==> t in ts && t.status == New)
      && (forall i, j :: 0 <= i < |batch| && 0 <= j < |ts| && ts[j].status == New && ts[j] !in batch
            ==> batch[i].id < ts[j].id)
  {
    var pending := NewTrades(ts);
    var batch := FetchNew(ts, limit);
    NewTradesAscending(ts);
    forall i, j | 0 <= i < |batch| && 0 <= j < |ts| && ts[j].status == New && ts[j] !in batch
      ensures batch[i].id < ts[j].id
    {
      assert ts[j] in pending;
      var k :| 0 <= k < |pending| && pending[k] == ts[j];
      assert forall m :: 0 <= m < |batch| ==> pending[m] == batch[m];
      assert pending[i] == batch[i];
    }
  }

  /** `UPDATE trades SET status='PROCESSED' WHERE id IN ids`, for one trade. */
  function MarkTrade(t: Trade, ids: set<int>): Trade {
    if t.id in ids then t.(status := Processed) else t
  }

  function MarkIds(ts: seq<Trade>, ids: set<int>): (marked: seq<Trade>)
    ensures |marked| == |ts|
    ensures forall i :: 0 <= i < |ts| ==> marked[i] == MarkTrade(ts[i], ids)
    decreases |ts|
  {
    if ts == [] then [] else [MarkTrade(ts[0], ids)] + MarkIds(ts[1..], ids)
  }

  function IdsOf(batch: seq<Trade>): set<int> {
    set i | 0 <= i < |batch| :: batch[i].id
  }

  lemma MarkIdsTwice(ts: seq<Trade>, a: set<int>, b: set<int>)
    ensures MarkIds(MarkIds(ts, a), b) == MarkIds(ts, a + b)
  {
  }

  lemma MarkIdsKeepsOrder(ts: seq<Trade>, ids: set<int>)
    requires IdsAscending(ts)
    ensures IdsAscending(MarkIds(ts, ids))
  {
  }

  /** The trades of a sequence whose id is not in `ids`. */
  function DropIds(ts: seq<Trade>, ids: set<int>): seq<Trade>
    decreases |ts|
  {
    if ts == [] then []
    else (if ts[0].id in ids then [] else [ts[0]]) + DropIds(ts[1..], ids)
  }

  lemma {:induction false} NewTradesAfterMark(ts: seq<Trade>, ids: set<int>)
    ensures NewTrades(MarkIds(ts, ids)) == DropIds(NewTrades(ts), ids)
    decreases |ts|
  {
    if ts != [] {
      NewTradesAfterMark(ts[1..], ids);
      var m := MarkIds(ts, ids);
      var head := MarkTrade(ts[0], ids);
      assert m == [head] + MarkIds(ts[1..], ids);
      assert m[1..] == MarkIds(ts[1..], ids);
      var rest := NewTrades(ts[1..]);
      var marked := DropIds(rest, ids);
      assert NewTrades(m) == (if head.status == New then [head] else []) + marked;
      if ts[0].status == New {
        assert NewTrades(ts) == [ts[0]] + rest;
        assert ([ts[0]] + rest)[1..] == rest;
        assert DropIds(NewTrades(ts), ids) == (if ts[0].id in ids then [] else [ts[0]]) + marked;
      } else {
        assert NewTrades(ts) == rest;
      }
    }
  }

  lemma {:induction false} DropIdsSplit(s: seq<Trade>, ids: set<int>, k: nat)
    requires k <= |s|
    requires forall i :: 0 <= i < k ==> s[i].id in ids
    requires forall i :: k <= i < |s| ==> s[i].id !in ids
    ensures DropIds(s, ids) == s[k..]
    decreases |s|
  {
    if s != [] {
      if k > 0 {
        DropIdsSplit(s[1..], ids, k - 1);
        assert s[1..][k - 1..] == s[k..];
      } else {
        DropIdsSplit(s[1..], ids, 0);
        assert [s[0]] + s[1..] == s;
      }
    }
  }

  /** Marking the first `k` trades of a fetched batch turns exactly those `k`
      NEW trades into PROCESSED ones. */
  lemma MarkFetchedCount(ts: seq<Trade>, limit: nat, k: nat)
    requires IdsAscending(ts)
    requires k <= |FetchNew(ts, limit)|
    ensures CountNew(MarkIds(ts, IdsOf(FetchNew(ts, limit)[..k]))) == CountNew(ts) - k
  {
    var pending := NewTrades(ts);
    var batch := FetchNew(ts, limit);
    var ids := IdsOf(batch[..k]);
    NewTradesAscending(ts);
    NewTradesAfterMark(ts, ids);
    forall i | 0 <= i < k ensures pending[i].id in ids {
      assert batch[..k][i] == pending[i];
    }
    forall i | k <= i < |pending| ensures pending[i].id !in ids {
      forall j | 0 <= j < k ensures batch[..k][j].id != pending[i].id {
        assert batch[..k][j] == pending[j];
      }
    }
    DropIdsSplit(pending, ids, k);
  }

  /** The three numbers the anomaly model sees: quantity, price, notional. */
  datatype Features = Features(quantity: real, price: real, notional: real)

  function FeaturesOf(t: Trade): Features {
    Features(t.quantity, t.price, t.notional.value)
  }

  /** The state `process_once` reads and writes. */
  datatype Db = Db(trades: seq<Trade>, rules: seq<Rule>, sanctions: seq<Sanction>, scores: Table, alerts: Table)

  /** Everything `process_once` computes for one trade before writing. */
  datatype Assessment = Assessment(
    ruleScore: real, mlScore: real, combined: real, verdict: Verdict, reasonsText: string)

  function Assess(db: Db, t: Trade, anomaly: Features -> real): (a: Assessment)
    ensures a.ruleScore == Evaluate(t, db.rules, db.sanctions).score
    ensures a.mlScore == anomaly(FeaturesOf(t))
    ensures a.combined == a.ruleScore + a.mlScore
    ensures a.verdict == Decide(a.combined)
    ensures a.reasonsText == ReasonsText(Translate(Evaluate(t, db.rules, db.sanctions).reasons))
  {
    var scored := Evaluate(t, db.rules, db.sanctions);
    var ml := anomaly(FeaturesOf(t));
    var combined := scored.score + ml;
    Assessment(scored.score, ml, combined, Decide(combined), ReasonsText(Translate(scored.reasons)))
  }

  function ScoreRecordOf(t: Trade, a: Assessment): ScoreRecord {
    ScoreRecord(t.tradeId, a.ruleScore, a.mlScore, a.combined,
                DecisionText(a.verdict.decision), SeverityText(a.verdict.severity), a.reasonsText)
  }

  /** The alert text; `twoDecimals` renders the combined score as `:.2f` does. */
  function AlertMessage(t: Trade, a: Assessment, twoDecimals: real -> string): string {
    DecisionText(a.verdict.decision) + " trade " + t.tradeId + " score=" + twoDecimals(a.combined)
      + " reasons: " + a.reasonsText
  }

  /** A trade's assessment depends on the store only through its rules and
      its sanctions list. */
  lemma AssessReadsRulesAndSanctions(db: Db, db': Db, t: Trade, anomaly: Features -> real)
    requires db.rules == db'.rules && db.sanctions == db'.sanctions
    ensures Assess(db, t, anomaly) == Assess(db', t, anomaly)
  {
  }

  /** Where a run over part of a batch stopped: the state, how many trades it
      marked PROCESSED and the write that failed, if one did. */
  datatype Run = Run(db: Db, marked: nat, failure: Option<DbError>)

  /** One turn of the loop of `process_once`. */
  function ProcessTrade(db: Db, t: Trade, anomaly: Features -> real, twoDecimals: real -> string): (r: Run)
    ensures r.marked <= 1
    ensures r.failure.None? ==> r.marked == 1
    ensures r.marked == 0 ==> r.db == db && r.failure.Some?
  {
    WriteTrade(db, t, Assess(db, t, anomaly), twoDecimals)
  }

  /** The writes of one loop turn for a trade already assessed: its score
      row, its PROCESSED mark and its alert, stopping at the first failure. */
  function WriteTrade(db: Db, t: Trade, a: Assessment, twoDecimals: real -> string): Run {
    match ScoreInsert(db.scores, ScoreRecordOf(t, a))
    case Err(e) => Run(db, 0, Some(e))
    case Ok(scores) =>
      var marked := db.(scores := scores, trades := MarkIds(db.trades, {t.id}));
      match AlertInsert(Sinks(marked.scores, marked.alerts), t.tradeId,
                        SeverityText(a.verdict.severity), AlertMessage(t, a, twoDecimals))
      case Err(e) => Run(marked, 1, Some(e))
      case Ok(sinks) => Run(marked.(scores := sinks.scores, alerts := sinks.alerts), 1, None)
  }

  /** The loop over a batch, stopping at the first failed write. */
  function ProcessBatch(db: Db, batch: seq<Trade>, anomaly: Features -> real, twoDecimals: real -> string): (r: Run)
    ensures r.marked <= |batch|
    ensures r.failure.None? ==> r.marked == |batch|
    decreases |batch|
  {
    if batch == [] then Run(db, 0, None)
    else
      var before := ProcessBatch(db, batch[..|batch| - 1], anomaly, twoDecimals);
      if before.failure.Some? then before
      else
        var step := ProcessTrade(before.db, batch[|batch| - 1], anomaly, twoDecimals);
        Run(step.db, before.marked + step.marked, step.failure)
  }

  /** The translated text of the worked example's four reasons, grouped as
      `"; ".join` builds it. */
  const ExampleReasonsText: string :=
    "Deal is bigger than our limit" + "; " + ("Blacklisted country: RU" + "; " + ("KYC not verified" + "; " + "AML system flagged"))

  lemma TranslateFour(a: string, b: string, c: string, d: string)
    ensures Translate([a, b, c, d]) == [TranslateOne(a), TranslateOne(b), TranslateOne(c), TranslateOne(d)]
  {
    var pretty := Translate([a, b, c, d]);
    assert |pretty| == 4;
  }

  lemma ExampleReasonsTranslated()
    ensures Translate(["Notional 250000.0 > 100000.0", "Blacklisted country: RU", "KYC not verified", "AML system flagged"])
      == ["Deal is bigger than our limit", "Blacklisted country: RU", "KYC not verified", "AML system flagged"]
  {
    var n, c, k, m := "Notional 250000.0 > 100000.0", "Blacklisted country: RU", "KYC not verified", "AML system flagged";
    TranslateFour(n, c, k, m);
    ExampleTranslations();
  }

  lemma ExampleReasonsJoined()
    ensures ReasonsText(["Deal is bigger than our limit", "Blacklisted country: RU", "KYC not verified", "AML system flagged"])
      == ExampleReasonsText
  {
    var parts := ["Deal is bigger than our limit", "Blacklisted country: RU", "KYC not verified", "AML system flagged"];
    assert parts[1..][1..][1..] == ["AML system flagged"];
    assert Strings.Join(parts[1..][1..], "; ") == "KYC not verified" + "; " + "AML system flagged";
    assert Strings.Join(parts[1..], "; ") == "Blacklisted country: RU" + "; " + Strings.Join(parts[1..][1..], "; ");
    assert Strings.Join(parts, "; ") == "Deal is bigger than our limit" + "; " + Strings.Join(parts[1..], "; ");
  }

  /** The seeded rules on a trade of notional 250000.0 from RU, without KYC and
      flagged by AML, not sanctioned: with any non-negative anomaly score the
      trade is blocked with a CRITICAL alert, and only the notional reason is
      rephrased in the stored text. */
  lemma SeededTradeIsBlocked(db: Db, t: Trade, anomaly: Features -> real)
    requires db.rules == SeedRules
    requires t.notional == Number(250000.0, "250000.0") && t.country == "RU"
    requires t.kycOk == Some(0) && t.amlFlag == Some(1)
    requires !Sanctioned(t.counterparty, db.sanctions)
    requires anomaly(FeaturesOf(t)) >= 0.0
    ensures Assess(db, t, anomaly).ruleScore == 3.1
    ensures Assess(db, t, anomaly).verdict == Verdict(Block, Critical)
    ensures Assess(db, t, anomaly).reasonsText == ExampleReasonsText
  {
    SeededRulesExample(t, db.sanctions);
    ExampleReasonsTranslated();
    ExampleReasonsJoined();
  }

  /** The new state and what `process_once` returns (or raises). */
  datatype Pass = Pass(db: Db, result: Result<nat, DbError>)

  function ProcessOnceOn(db: Db, anomaly: Features -> real, twoDecimals: real -> string): (p: Pass)
    ensures p.result.Ok? ==> p.result.value <= BatchSize
    ensures p.result.Err? ==> CountNew(db.trades) > 0
  {
    var batch := FetchNew(db.trades, BatchSize);
    if batch == [] then Pass(db, Ok(0))
    else
      var run := ProcessBatch(db, batch, anomaly, twoDecimals);
      Pass(run.db, if run.failure.None? then Ok(|batch|) else Err(run.failure.value))
  }

  /** The score table can take a row of the minimal layout; every other write
      of a pass then succeeds too. */
  predicate Writable(db: Db) {
    MinimalScoreColumns <= db.scores.columns
  }

  /** Row `k` of `rows` records trade `t` with the combined score and the
      decision of assessment `a`. */
  predicate ScoredAt(rows: seq<Row>, k: int, t: Trade, a: Assessment) {
    && 0 <= k < |rows|
    && "trade_id" in rows[k] && rows[k]["trade_id"] == Text(t.tradeId)
    && "combined_score" in rows[k] && rows[k]["combined_score"] == Real(a.combined)
    && "decision" in rows[k] && rows[k]["decision"] == Text(DecisionText(a.verdict.decision))
  }

  /** The alert `_insert_alert_auto` writes for trade `t` assessed by `a`:
      its trade_id, its severity and its message, in the layout the columns
      of the alerts table select (a fallback score row when that table lacks
      trade_id or message). */
  function AlertOf(db: Db, t: Trade, a: Assessment, twoDecimals: real -> string): Row {
    AlertRow(AlertLayoutFor(db.alerts.columns), t.tradeId, SeverityText(a.verdict.severity), AlertMessage(t, a, twoDecimals))
  }

  /** The rows the alerts of `db` land in: the alerts table, or the score
      table when the alerts table lacks trade_id or message. */
  function AlertSink(db: Db): seq<Row> {
    if MessageAlertColumns <= db.alerts.columns then db.alerts.rows else db.scores.rows
  }

  /** `after` only appended rows to `before`: no column, rule or sanction changed. */
  predicate Grows(before: Db, after: Db) {
    && after.rules == before.rules
    && after.sanctions == before.sanctions
    && after.scores.columns == before.scores.columns
    && after.alerts.columns == before.alerts.columns
    && |before.scores.rows| <= |after.scores.rows|
    && after.scores.rows[..|before.scores.rows|] == before.scores.rows
    && |before.alerts.rows| <= |after.alerts.rows|
    && after.alerts.rows[..|before.alerts.rows|] == before.alerts.rows
  }

  function RowCount(db: Db): nat {
    |db.scores.rows| + |db.alerts.rows|
  }

  lemma GrowsTransitive(a: Db, b: Db, c: Db)
    requires Grows(a, b) && Grows(b, c)
    ensures Grows(a, c)
  {
    assert c.scores.rows[..|a.scores.rows|] == c.scores.rows[..|b.scores.rows|][..|a.scores.rows|];
    assert c.alerts.rows[..|a.alerts.rows|] == c.alerts.rows[..|b.alerts.rows|][..|a.alerts.rows|];
  }

  /** One trade: either the score write fails and nothing changes, or the
      score row, the PROCESSED mark and the alert are all written. The alert
      write cannot fail once the score write succeeded, because its last
      resort is a row of the minimal score layout. */
  lemma ProcessTradeOutcome(db: Db, t: Trade, anomaly: Features -> real, twoDecimals: real -> string)
    ensures var r := ProcessTrade(db, t, anomaly, twoDecimals);
      if Writable(db) then
        && r.failure.None? && r.marked == 1
        && r.db.trades == MarkIds(db.trades, {t.id})
        && Grows(db, r.db)
        && RowCount(r.db) == RowCount(db) + 2
        && ScoredAt(r.db.scores.rows, |db.scores.rows|, t, Assess(db, t, anomaly))
        && AlertWritten(db, r.db, t, Assess(db, t, anomaly), twoDecimals)
      else
        r.db == db && r.marked == 0 && r.failure.Some? && r.failure.value.table == "risk_scores"
  {
    if Writable(db) {
      TradeOnWritableStore(db, t, Assess(db, t, anomaly), twoDecimals);
    } else {
      ScoreInsertOutcome(db.scores, ScoreRecordOf(t, Assess(db, t, anomaly)));
    }
  }

  /** The alert of trade `t` went from `db` to `after`: appended to the
      alerts table when it has trade_id and message, otherwise written as the
      fallback score row right after the trade's own score row. */
  predicate AlertWritten(db: Db, after: Db, t: Trade, a: Assessment, twoDecimals: real -> string) {
    if MessageAlertColumns <= db.alerts.columns then
      && after.alerts.rows == db.alerts.rows + [AlertOf(db, t, a, twoDecimals)]
      && |after.scores.rows| == |db.scores.rows| + 1
    else
      && after.alerts == db.alerts
      && |after.scores.rows| == |db.scores.rows| + 2
      && after.scores.rows[|db.scores.rows| + 1] == FallbackRow(t.tradeId, SeverityText(a.verdict.severity))
  }

  lemma TradeOnWritableStore(db: Db, t: Trade, a: Assessment, twoDecimals: real -> string)
    requires Writable(db)
    ensures var r := WriteTrade(db, t, a, twoDecimals);
      && r.failure.None? && r.marked == 1
      && r.db.trades == MarkIds(db.trades, {t.id})
      && Grows(db, r.db)
      && RowCount(r.db) == RowCount(db) + 2
      && ScoredAt(r.db.scores.rows, |db.scores.rows|, t, a)
      && AlertWritten(db, r.db, t, a, twoDecimals)
  {
    var rec := ScoreRecordOf(t, a);
    ScoreInsertOutcome(db.scores, rec);
    var scores := ScoreInsert(db.scores, rec).value;
    var marked := db.(scores := scores, trades := MarkIds(db.trades, {t.id}));
    var sinks := Sinks(marked.scores, marked.alerts);
    var severity := SeverityText(a.verdict.severity);
    var message := AlertMessage(t, a, twoDecimals);
    AlertInsertOutcome(sinks, t.tradeId, severity, message);
    var after := AlertInsert(sinks, t.tradeId, severity, message).value;
    var r := marked.(scores := after.scores, alerts := after.alerts);
    assert WriteTrade(db, t, a, twoDecimals) == Run(r, 1, None);
    assert Grows(db, r) by {
      assert Grows(db, marked);
      assert Grows(marked, r);
      GrowsTransitive(db, marked, r);
    }
    assert ScoredAt(r.scores.rows, |db.scores.rows|, t, a) by {
      assert r.scores.rows[|db.scores.rows|] == r.scores.rows[..|scores.rows|][|db.scores.rows|];
    }
    assert AlertWritten(db, r, t, a, twoDecimals) by {
      var layout := AlertLayoutFor(db.alerts.columns);
      var row := AlertRow(layout, t.tradeId, severity, message);
      if MessageAlertColumns <= db.alerts.columns {
        assert row.Keys <= db.alerts.columns;
        assert after.alerts.rows == db.alerts.rows + [row];
      } else {
        assert row == FallbackRow(t.tradeId, severity);
        assert after.scores.rows == scores.rows + [row];
      }
    }
  }

  /** After a failed write the rest of the batch is skipped. */
  lemma {:induction false} FailureStops(
    db: Db, batch: seq<Trade>, k: nat, anomaly: Features -> real, twoDecimals: real -> string)
    requires k <= |batch|
    requires ProcessBatch(db, batch[..k], anomaly, twoDecimals).failure.Some?
    ensures ProcessBatch(db, batch, anomaly, twoDecimals) == ProcessBatch(db, batch[..k], anomaly, twoDecimals)
    decreases |batch| - k
  {
    if k < |batch| {
      var init := batch[..|batch| - 1];
      assert init[..k] == batch[..k];
      FailureStops(db, init, k, anomaly, twoDecimals);
    } else {
      assert batch[..k] == batch;
    }
  }

  lemma IdsOfSnoc(init: seq<Trade>, last: Trade)
    ensures IdsOf(init + [last]) == IdsOf(init) + {last.id}
  {
    var batch := init + [last];
    assert batch[|init|] == last;
    forall x | x in IdsOf(batch) ensures x in IdsOf(init) + {last.id} {
      var i :| 0 <= i < |batch| && batch[i].id == x;
      if i < |init| {
        assert init[i] == batch[i];
      }
    }
    forall x | x in IdsOf(init) ensures x in IdsOf(batch) {
      var i :| 0 <= i < |init| && init[i].id == x;
      assert batch[i] == init[i];
    }
  }

  lemma ScoredRowKept(before: seq<Row>, after: seq<Row>, k: int, t: Trade, a: Assessment)
    requires |before| <= |after| && after[..|before|] == before
    requires ScoredAt(before, k, t, a)
    ensures ScoredAt(after, k, t, a)
  {
    assert after[k] == after[..|before|][k];
  }

  /** Some row of `rows` at index `from` or later records trade `t` as
      assessed by `a`. */
  predicate ScoredFrom(rows: seq<Row>, from: int, t: Trade, a: Assessment) {
    exists k :: from <= k < |rows| && ScoredAt(rows, k, t, a)
  }

  /** Every trade of `batch` is recorded by a row of `rows` at index `from`
      or later, with the combined score and decision it gets under the rules
      and sanctions of `db`. */
  predicate AllScored(rows: seq<Row>, from: int, batch: seq<Trade>, db: Db, anomaly: Features -> real) {
    forall j :: 0 <= j < |batch| ==> ScoredFrom(rows, from, batch[j], Assess(db, batch[j], anomaly))
  }

  lemma ScoredRowsExtend(
    from: int, before: seq<Row>, after: seq<Row>, init: seq<Trade>, last: Trade, db: Db, anomaly: Features -> real)
    requires |before| <= |after| && after[..|before|] == before
    requires AllScored(before, from, init, db, anomaly)
    requires from <= |before| && ScoredAt(after, |before|, last, Assess(db, last, anomaly))
    ensures AllScored(after, from, init + [last], db, anomaly)
  {
    var batch := init + [last];
    forall j | 0 <= j < |batch| ensures ScoredFrom(after, from, batch[j], Assess(db, batch[j], anomaly)) {
      var a := Assess(db, batch[j], anomaly);
      if j < |init| {
        assert init[j] == batch[j];
        var k :| from <= k < |before| && ScoredAt(before, k, init[j], a);
        ScoredRowKept(before, after, k, init[j], a);
      } else {
        assert batch[j] == last;
        assert ScoredAt(after, |before|, batch[j], a);
      }
    }
  }

  /** Some row of `rows` at index `from` or later is `row`. */
  predicate HasRowFrom(rows: seq<Row>, from: nat, row: Row) {
    exists k :: from <= k < |rows| && rows[k] == row
  }

  /** The alerts of the trades of `batch`, in order, as assessed under the
      rules and sanctions of `db`. */
  function AlertsOf(db: Db, batch: seq<Trade>, anomaly: Features -> real, twoDecimals: real -> string): (alerts: seq<Row>)
    ensures |alerts| == |batch|
    ensures forall j :: 0 <= j < |batch| ==>
      alerts[j] == AlertOf(db, batch[j], Assess(db, batch[j], anomaly), twoDecimals)
  {
    seq(|batch|, j requires 0 <= j < |batch| => AlertOf(db, batch[j], Assess(db, batch[j], anomaly), twoDecimals))
  }

  /** Each row of `wanted` is a row of `rows` at index `from` or later. */
  predicate RowsPresent(rows: seq<Row>, from: nat, wanted: seq<Row>) {
    forall j :: 0 <= j < |wanted| ==> HasRowFrom(rows, from, wanted[j])
  }

  /** Every trade of `batch` has its alert, as assessed under the rules and
      sanctions of `db`, in a row of `rows` at index `from` or later. */
  predicate AllAlerted(
    rows: seq<Row>, from: nat, batch: seq<Trade>, db: Db, anomaly: Features -> real, twoDecimals: real -> string)
  {
    RowsPresent(rows, from, AlertsOf(db, batch, anomaly, twoDecimals))
  }

  /** Appending rows keeps the earlier alerts in the table they landed in. */
  lemma AlertSinkGrows(before: Db, after: Db)
    requires Grows(before, after)
    ensures |AlertSink(before)| <= |AlertSink(after)|
    ensures AlertSink(after)[..|AlertSink(before)|] == AlertSink(before)
  {
  }

  lemma RowsPresentExtend(from: nat, before: seq<Row>, after: seq<Row>, k: int, wanted: seq<Row>, row: Row)
    requires |before| <= |after| && after[..|before|] == before
    requires RowsPresent(before, from, wanted)
    requires from <= |before| <= k < |after| && after[k] == row
    ensures RowsPresent(after, from, wanted + [row])
  {
    var all := wanted + [row];
    forall j | 0 <= j < |all| ensures HasRowFrom(after, from, all[j]) {
      if j < |wanted| {
        assert all[j] == wanted[j];
        var i :| from <= i < |before| && before[i] == wanted[j];
        assert after[i] == after[..|before|][i];
      } else {
        assert after[k] == all[j];
      }
    }
  }

  /** The alert of the batch's last trade joins those of the trades before it. */
  lemma BatchAlertStep(
    db: Db, before: Db, after: Db, init: seq<Trade>, last: Trade, anomaly: Features -> real, twoDecimals: real -> string)
    requires Grows(db, before) && Grows(before, after)
    requires AllAlerted(AlertSink(before), |AlertSink(db)|, init, db, anomaly, twoDecimals)
    requires AlertWritten(before, after, last, Assess(db, last, anomaly), twoDecimals)
    ensures AllAlerted(AlertSink(after), |AlertSink(db)|, init + [last], db, anomaly, twoDecimals)
  {
    var alert := AlertOf(db, last, Assess(db, last, anomaly), twoDecimals);
    var k := if MessageAlertColumns <= db.alerts.columns then |before.alerts.rows| else |before.scores.rows| + 1;
    assert AlertSink(after)[k] == alert;
    AlertSinkGrows(db, before);
    AlertSinkGrows(before, after);
    RowsPresentExtend(|AlertSink(db)|, AlertSink(before), AlertSink(after), k, AlertsOf(db, init, anomaly, twoDecimals), alert);
    assert AlertsOf(db, init + [last], anomaly, twoDecimals) == AlertsOf(db, init, anomaly, twoDecimals) + [alert];
  }

  /** On a writable store every trade of the batch gets its score row, its
      PROCESSED mark and its alert. */
  lemma {:induction false} BatchOnWritableStore(
    db: Db, batch: seq<Trade>, anomaly: Features -> real, twoDecimals: real -> string)
    requires Writable(db)
    ensures var r := ProcessBatch(db, batch, anomaly, twoDecimals);
      && r.failure.None? && r.marked == |batch|
      && r.db.trades == MarkIds(db.trades, IdsOf(batch))
      && Grows(db, r.db)
      && RowCount(r.db) == RowCount(db) + 2 * |batch|
      && AllScored(r.db.scores.rows, |db.scores.rows|, batch, db, anomaly)
      && AllAlerted(AlertSink(r.db), |AlertSink(db)|, batch, db, anomaly, twoDecimals)
    decreases |batch|
  {
    if batch == [] {
      assert MarkIds(db.trades, {}) == db.trades;
    } else {
      var init := batch[..|batch| - 1];
      var last := batch[|batch| - 1];
      assert batch == init + [last];
      BatchOnWritableStore(db, init, anomaly, twoDecimals);
      var before := ProcessBatch(db, init, anomaly, twoDecimals);
      assert Writable(before.db);
      ProcessTradeOutcome(before.db, last, anomaly, twoDecimals);
      var step := ProcessTrade(before.db, last, anomaly, twoDecimals);
      var r := ProcessBatch(db, batch, anomaly, twoDecimals);
      assert r == Run(step.db, before.marked + step.marked, step.failure);
      assert Grows(db, r.db) by {
        GrowsTransitive(db, before.db, r.db);
      }
      assert r.db.trades == MarkIds(db.trades, IdsOf(batch)) by {
        MarkIdsTwice(db.trades, IdsOf(init), {last.id});
        IdsOfSnoc(init, last);
      }
      assert AllScored(r.db.scores.rows, |db.scores.rows|, batch, db, anomaly) by {
        AssessReadsRulesAndSanctions(before.db, db, last, anomaly);
        ScoredRowsExtend(|db.scores.rows|, before.db.scores.rows, r.db.scores.rows, init, last, db, anomaly);
      }
      assert AllAlerted(AlertSink(r.db), |AlertSink(db)|, batch, db, anomaly, twoDecimals) by {
        AssessReadsRulesAndSanctions(before.db, db, last, anomaly);
        BatchAlertStep(db, before.db, r.db, init, last, anomaly, twoDecimals);
      }
    }
  }

  /** On a store whose score table lacks a minimal column, the first score
      write fails and the store is untouched. */
  lemma {:induction false} BatchOnMissingColumns(
    db: Db, batch: seq<Trade>, anomaly: Features -> real, twoDecimals: real -> string)
    requires !Writable(db)
    requires batch != []
    ensures var r := ProcessBatch(db, batch, anomaly, twoDecimals);
      r.db == db && r.marked == 0 && r.failure.Some? && r.failure.value.table == "risk_scores"
    decreases |batch|
  {
    var init := batch[..|batch| - 1];
    if init == [] {
      ProcessTradeOutcome(db, batch[0], anomaly, twoDecimals);
    } else {
      BatchOnMissingColumns(db, init, anomaly, twoDecimals);
    }
  }

  /** One more trade of the batch, after a prefix that wrote everything. */
  lemma BatchStep(
    db: Db, batch: seq<Trade>, i: nat, current: Db, anomaly: Features -> real, twoDecimals: real -> string)
    requires i < |batch|
    requires ProcessBatch(db, batch[..i], anomaly, twoDecimals) == Run(current, i, None)
    ensures var step := ProcessTrade(current, batch[i], anomaly, twoDecimals);
      ProcessBatch(db, batch[..i + 1], anomaly, twoDecimals) == Run(step.db, i + step.marked, step.failure)
  {
    assert batch[..i + 1][..i] == batch[..i];
    assert batch[..i + 1][i] == batch[i];
  }

  /** A batch is all or nothing. */
  lemma ProcessBatchOutcome(db: Db, batch: seq<Trade>, anomaly: Features -> real, twoDecimals: real -> string)
    ensures var r := ProcessBatch(db, batch, anomaly, twoDecimals);
      if Writable(db) then
        && r.failure.None? && r.marked == |batch|
        && r.db.trades == MarkIds(db.trades, IdsOf(batch))
        && Grows(db, r.db)
        && RowCount(r.db) == RowCount(db) + 2 * |batch|
      else if batch == [] then r == Run(db, 0, None)
      else r.db == db && r.marked == 0 && r.failure.Some? && r.failure.value.table == "risk_scores"
  {
    if Writable(db) {
      BatchOnWritableStore(db, batch, anomaly, twoDecimals);
    } else if batch != [] {
      BatchOnMissingColumns(db, batch, anomaly, twoDecimals);
    }
  }

  /** In a table with unique ids, a trade's id is among a sub-batch's ids
      exactly when the trade itself is in the sub-batch. */
  lemma IdsIdentifyTrades(ts: seq<Trade>, batch: seq<Trade>)
    requires IdsAscending(ts)
    requires forall t :: t in batch ==> t in ts
    ensures forall i :: 0 <= i < |ts| ==> (ts[i].id in IdsOf(batch) <==> ts[i] in batch)
  {
    forall i | 0 <= i < |ts| ensures ts[i].id in IdsOf(batch) <==> ts[i] in batch {
      if ts[i].id in IdsOf(batch) {
        var j :| 0 <= j < |batch| && batch[j].id == ts[i].id;
        assert batch[j] in ts;
        var m :| 0 <= m < |ts| && ts[m] == batch[j];
        assert m == i;
      }
    }
  }

  /** `process_once` returns 0 exactly when there is no NEW trade, and then
      it changes nothing: an idle pass is a no-op. */
  lemma IdleStoreUnchanged(db: Db, anomaly: Features -> real, twoDecimals: real -> string)
    ensures ProcessOnceOn(db, anomaly, twoDecimals).result == Ok(0) <==> CountNew(db.trades) == 0
    ensures CountNew(db.trades) == 0 ==> ProcessOnceOn(db, anomaly, twoDecimals) == Pass(db, Ok(0))
  {
    var batch := FetchNew(db.trades, BatchSize);
    ProcessBatchOutcome(db, batch, anomaly, twoDecimals);
  }

  /** A pass fails only when there is work to do and the score table lacks
      one of trade_id, combined_score and decision; a failed pass leaves the
      store as it was. A successful one returns the batch size,
      min(20, number of NEW trades). */
  lemma PassResult(db: Db, anomaly: Features -> real, twoDecimals: real -> string)
    ensures var p := ProcessOnceOn(db, anomaly, twoDecimals);
      && (p.result.Ok? <==> CountNew(db.trades) == 0 || Writable(db))
      && (p.result.Ok? ==> p.result.value == Min(BatchSize, CountNew(db.trades)))
      && (p.result.Err? ==> p.db == db && p.result.error.table == "risk_scores")
  {
    var batch := FetchNew(db.trades, BatchSize);
    ProcessBatchOutcome(db, batch, anomaly, twoDecimals);
  }

  /** A successful pass turns exactly the fetched trades PROCESSED (the
      oldest NEW ones, see `FetchOldestFirst`), leaves every other trade as
      it was, and lowers the NEW count by the value it returns. */
  lemma PassMarksFetched(db: Db, anomaly: Features -> real, twoDecimals: real -> string)
    requires IdsAscending(db.trades)
    requires ProcessOnceOn(db, anomaly, twoDecimals).result.Ok?
    ensures var p := ProcessOnceOn(db, anomaly, twoDecimals);
      var batch := FetchNew(db.trades, BatchSize);
      && |p.db.trades| == |db.trades|
      && IdsAscending(p.db.trades)
      && CountNew(p.db.trades) == CountNew(db.trades) - p.result.value
      && forall i :: 0 <= i < |db.trades| ==>
           p.db.trades[i] == if db.trades[i] in batch then db.trades[i].(status := Processed) else db.trades[i]
  {
    var ts := db.trades;
    var p := ProcessOnceOn(db, anomaly, twoDecimals);
    var batch := FetchNew(ts, BatchSize);
    ProcessBatchOutcome(db, batch, anomaly, twoDecimals);
    PassResult(db, anomaly, twoDecimals);
    if batch == [] {
      assert MarkIds(ts, IdsOf(batch)) == ts;
    }
    assert p.db.trades == MarkIds(ts, IdsOf(batch));
    MarkIdsKeepsOrder(ts, IdsOf(batch));
    assert batch[..|batch|] == batch;
    MarkFetchedCount(ts, BatchSize, |batch|);
    FetchOldestFirst(ts, BatchSize);
    IdsIdentifyTrades(ts, batch);
  }

  /** A successful pass only appends rows: two per fetched trade, its score
      row and its alert (which may itself be a fallback score row). Each
      fetched trade gets a score row with its combined score and decision, and
      an alert naming its trade_id and severity. */
  lemma PassWritesRows(db: Db, anomaly: Features -> real, twoDecimals: real -> string)
    requires ProcessOnceOn(db, anomaly, twoDecimals).result.Ok?
    ensures var p := ProcessOnceOn(db, anomaly, twoDecimals);
      && Grows(db, p.db)
      && RowCount(p.db) == RowCount(db) + 2 * p.result.value
      && AllScored(p.db.scores.rows, |db.scores.rows|, FetchNew(db.trades, BatchSize), db, anomaly)
      && AllAlerted(AlertSink(p.db), |AlertSink(db)|, FetchNew(db.trades, BatchSize), db, anomaly, twoDecimals)
  {
    var batch := FetchNew(db.trades, BatchSize);
    PassResult(db, anomaly, twoDecimals);
    if batch != [] {
      BatchOnWritableStore(db, batch, anomaly, twoDecimals);
    } else {
      assert db.scores.rows[..|db.scores.rows|] == db.scores.rows;
      assert db.alerts.rows[..|db.alerts.rows|] == db.alerts.rows;
    }
  }

  /** With at most 20 NEW trades, one successful pass drains them all and
      the next pass is an idle no-op. */
  lemma DrainingPass(db: Db, anomaly: Features -> real, twoDecimals: real -> string)
    requires IdsAscending(db.trades)
    requires CountNew(db.trades) <= BatchSize
    requires ProcessOnceOn(db, anomaly, twoDecimals).result.Ok?
    ensures var after := ProcessOnceOn(db, anomaly, twoDecimals).db;
      ProcessOnceOn(after, anomaly, twoDecimals) == Pass(after, Ok(0))
  {
    var after := ProcessOnceOn(db, anomaly, twoDecimals).db;
    PassResult(db, anomaly, twoDecimals);
    PassMarksFetched(db, anomaly, twoDecimals);
    IdleStoreUnchanged(after, anomaly, twoDecimals);
  }

  /** The database connection of `process_once`: the five tables it reads
      and writes, updated in place. */
  class Store {
    var trades: seq<Trade>
    var rules: seq<Rule>
    var sanctions: seq<Sanction>
    var scores: Table
    var alerts: Table

    /** `trades` is a rowid table: ids strictly ascending in storage order. */
    ghost predicate Valid()
      reads this
    {
      IdsAscending(trades)
    }

    function State(): Db
      reads this
    {
      Db(trades, rules, sanctions, scores, alerts)
    }

    constructor (trades: seq<Trade>, rules: seq<Rule>, sanctions: seq<Sanction>, scores: Table, alerts: Table)
      requires IdsAscending(trades)
      ensures Valid()
      ensures State() == Db(trades, rules, sanctions, scores, alerts)
    {
      this.trades := trades;
      this.rules := rules;
      this.sanctions := sanctions;
      this.scores := scores;
      this.alerts := alerts;
    }

    /** `_persist_scores_auto`: read the column set, pick the first layout
        that fits, insert one row. */
    method PersistScores(rec: ScoreRecord) returns (failure: Option<DbError>)
      modifies this`scores
      ensures failure.None? <==> ScoreInsert(old(scores), rec).Ok?
      ensures failure.None? ==> scores == ScoreInsert(old(scores), rec).value
      ensures failure.Some? ==> scores == old(scores) && failure.value == ScoreInsert(old(scores), rec).error
    {
      var columns := scores.columns;
      var layout: ScoreLayout;
      if NewerScoreColumns <= columns {
        layout := NewerScores;
      } else if OlderScoreColumns <= columns {
        layout := OlderScores;
      } else {
        layout := MinimalScores;
      }
      var written := Insert("risk_scores", scores, ScoreRow(layout, rec));
      match written
      case Ok(table) =>
        scores := table;
        failure := None;
      case Err(e) =>
        failure := Some(e);
    }

    /** `UPDATE trades SET status='PROCESSED' WHERE id=?` */
    method MarkProcessed(id: int)
      requires Valid()
      modifies this`trades
      ensures Valid()
      ensures trades == MarkIds(old(trades), {id})
    {
      MarkIdsKeepsOrder(trades, {id});
      trades := MarkIds(trades, {id});
    }

    /** `_insert_alert_auto`: an `alerts` row in the first layout that fits,
        else the fallback row in `risk_scores`. */
    method InsertAlert(tradeId: string, severity: string, message: string) returns (failure: Option<DbError>)
      modifies this`scores, this`alerts
      ensures var expected := AlertInsert(Sinks(old(scores), old(alerts)), tradeId, severity, message);
        && (failure.None? <==> expected.Ok?)
        && (failure.None? ==> Sinks(scores, alerts) == expected.value)
        && (failure.Some? ==> scores == old(scores) && alerts == old(alerts) && failure.value == expected.error)
    {
      var columns := alerts.columns;
      var layout: AlertLayout;
      if LevelAlertColumns <= columns {
        layout := LevelAlert;
      } else if SeverityAlertColumns <= columns {
        layout := SeverityAlert;
      } else if MessageAlertColumns <= columns {
        layout := MessageAlert;
      } else {
        layout := ScoreFallback;
      }
      var row := AlertRow(layout, tradeId, severity, message);
      if layout == ScoreFallback {
        var written := Insert("risk_scores", scores, row);
        match written
        case Ok(table) =>
          scores := table;
          failure := None;
        case Err(e) =>
          failure := Some(e);
      } else {
        var written := Insert("alerts", alerts, row);
        match written
        case Ok(table) =>
          alerts := table;
          failure := None;
        case Err(e) =>
          failure := Some(e);
      }
    }

    /** Steps 1 to 3 of a turn of `process_once`: rule score, anomaly score,
        their sum, the decision and the translated reasons text. */
    method AssessTrade(t: Trade, anomaly: Features -> real) returns (a: Assessment)
      ensures a == Assess(State(), t, anomaly)
    {
      var ruleScore, rawReasons := RuleBasedScore(t, rules, sanctions);
      var mlScore := anomaly(FeaturesOf(t));
      var combined := ruleScore + mlScore;
      var verdict := Decide(combined);
      var reasonsText := ReasonsText(Translate(rawReasons));
      a := Assessment(ruleScore, mlScore, combined, verdict, reasonsText);
    }

    /** One turn of the loop of `process_once`: assess, persist the score,
        mark the trade PROCESSED, insert the alert. */
    method HandleTrade(t: Trade, anomaly: Features -> real, twoDecimals: real -> string)
      returns (failure: Option<DbError>)
      requires Valid()
      modifies this
      ensures Valid()
      ensures var step := ProcessTrade(old(State()), t, anomaly, twoDecimals);
        State() == step.db && failure == step.failure
    {
      ghost var d0 := State();
      var a := AssessTrade(t, anomaly);
      var decision := DecisionText(a.verdict.decision);
      var severity := SeverityText(a.verdict.severity);
      var record := ScoreRecord(t.tradeId, a.ruleScore, a.mlScore, a.combined, decision, severity, a.reasonsText);
      assert record == ScoreRecordOf(t, a);
      failure := PersistScores(record);
      if failure.Some? {
        assert ProcessTrade(d0, t, anomaly, twoDecimals) == Run(d0, 0, failure);
        return;
      }
      MarkProcessed(t.id);
      ghost var marked := State();
      assert marked == d0.(scores := ScoreInsert(d0.scores, record).value, trades := MarkIds(d0.trades, {t.id}));
      var message := decision + " trade " + t.tradeId + " score=" + twoDecimals(a.combined) + " reasons: " + a.reasonsText;
      assert message == AlertMessage(t, a, twoDecimals);
      failure := InsertAlert(t.tradeId, severity, message);
      ghost var written := AlertInsert(Sinks(marked.scores, marked.alerts), t.tradeId, severity, message);
      assert ProcessTrade(d0, t, anomaly, twoDecimals) ==
        if written.Ok? then Run(marked.(scores := written.value.scores, alerts := written.value.alerts), 1, None)
        else Run(marked, 1, Some(written.error));
    }

    /** `process_once`: the new state and the returned count (or the write
        error it raises) are those of `ProcessOnceOn` on the old state. */
    method ProcessOnce(anomaly: Features -> real, twoDecimals: real -> string) returns (result: Result<nat, DbError>)
      requires Valid()
      modifies this
      ensures Valid()
      ensures Pass(State(), result) == ProcessOnceOn(old(State()), anomaly, twoDecimals)
    {
      var rows := FetchNew(trades, BatchSize);
      if rows == [] {
        return Ok(0);
      }
      var i := 0;
      while i < |rows|
        invariant 0 <= i <= |rows|
        invariant Valid()
        invariant ProcessBatch(old(State()), rows[..i], anomaly, twoDecimals) == Run(State(), i, None)
      {
        ghost var before := State();
        BatchStep(old(State()), rows, i, before, anomaly, twoDecimals);
        ProcessTradeOutcome(before, rows[i], anomaly, twoDecimals);
        var failure := HandleTrade(rows[i], anomaly, twoDecimals);
        if failure.Some? {
          FailureStops(old(State()), rows, i + 1, anomaly, twoDecimals);
          return Err(failure.value);
        }
        i := i + 1;
      }
      assert rows[..i] == rows;
      return Ok(|rows|);
    }
  }
}
