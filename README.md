# Trade risk scoring and alerting, modelled in Dafny

This project models the scoring-and-alerting core of a real-time trade risk
demo. A processor polls the `trades` table for NEW trades, at most 20 at a
time in ascending id order. For each trade it:

- computes a rule-based score from the active rows of the `rules` table plus
  a sanctions check;
- adds an anomaly score from a trained model;
- classifies the combined score as ALLOW/INFO, REVIEW/WARNING or
  BLOCK/CRITICAL;
- rewrites the rule reasons into banker-friendly phrases;
- stores a score row in whichever `risk_scores` layout the table has;
- marks the trade PROCESSED;
- writes an alert in whichever `alerts` layout exists, falling back to a
  tagged score row.

Modules, one per file:

- `Outcomes` (`outcomes.dfy`): `Option` and `Result`.
- `Text` (`text.dfy`): the Python string operations the core uses, on
  `seq<char>`. These are `startswith`, `split`, `join`, ASCII `lower` and
  `strip`, plus `Contains`, a substring test that stands for `re.search`
  matching one literal alternative of a country pattern
  (risk_engine.py:26). The sanctions check at risk_engine.py:41 is list
  membership, modelled as `Lower(counterparty) in LowerNames(sanctions)`.
- `RiskEngine` (`risk_engine.dfy`): `rule_based_score`.
  - `Evaluate` is the pure specification.
  - The method `RuleBasedScore` is the loop, proved against it.
- `Classification` (`classification.dfy`): `_decide`.
- `Translation` (`translation.dfy`): `_translate_reasons` and the stored
  reasons text. `TranslateBy` computes each key's prefix as the code does;
  `TranslateOne` looks the reason up in the same table with the prefixes
  worked out once, and `TranslateOneByTable` proves the two agree.
- `Persistence` (`persistence.dfy`): the tables as column sets plus rows.
  - Inserting a row that names a missing column fails. Column names are
    compared exactly (see "## Left out").
  - It also holds the layout ladders of `_persist_scores_auto` and
    `_insert_alert_auto`.
- `Processor` (`processor.dfy`): `_fetch_new_trades` and `process_once`.
  - `ProcessOnceOn` is the pure specification of one pass over a `Db` value.
  - The class `Store` holds the five tables as fields. Its methods change
    them in place, and `Store.ProcessOnce` is proved to produce exactly the
    state and result of `ProcessOnceOn`.

The database runs in autocommit mode. Every write is therefore durable at
once, and a write that fails leaves the earlier writes of the pass in place.
The model follows this with a fail-stop batch (`ProcessBatch`). The only
write failure it models is a missing column. A successful score write
guarantees that the alert write succeeds, because the alert's last resort is
a minimal score row. So the lemmas show that in this model a pass is all or
nothing.

Behaviour of the code that the model keeps, and that a reader might not
expect:

- Alert layouts: the code tries a `level` column before a `severity` column
  (risk_processor.py:127-132). With both present, the severity text goes
  into `level` and `severity` is left empty.
- Missing AML flag: a trade dict without an `aml_flag` key reads as 0, so
  AML_FLAG_BLOCK does not fire (risk_engine.py:34). Trades fetched by
  `_fetch_new_trades` always carry the key (risk_processor.py:66-79), and a
  NULL value makes `int(None)` raise (see "## Left out").
- Batch commit: the connection is opened in autocommit mode
  (risk_processor.py:188), so `conn.commit()` at the end of a batch
  (risk_processor.py:183) groups nothing. Each write is durable on its own.
- Errors: a failed score write, in any of the three layouts
  (risk_processor.py:94-122), and a failed alert write
  (risk_processor.py:139-142) raise out of `process_once`. Nothing in the
  loop catches them.

## Model

| member | source | states |
|---|---|---|
| RiskEngine.RuleBasedScore | risk_engine.py:10-45 | The loop over the active rules followed by the sanctions check returns exactly the score and reasons of `Evaluate`: each firing rule contributes its weight and reason, in rule order. |
| RiskEngine.ActiveRules | risk_engine.py:15-16 | Only rows with active = 1 are kept, each of them a row of the table, never more rows than the table has. |
| RiskEngine.ActiveRuleKept | risk_engine.py:15-16 | Appending an active rule to the table appends it to the active rules, after the earlier ones: table order is kept. |
| RiskEngine.InactiveRuleDropped | risk_engine.py:15-16 | Appending an inactive rule leaves the active rules as they were. |
| RiskEngine.ActiveRulesExactly | risk_engine.py:15-16 | A rule is among the active rules iff it is a row of the table with active = 1: nothing active is lost. |
| RiskEngine.MatchesCountry | risk_engine.py:24-26 | `re.search` on a literal alternation; an empty pattern matches every country, as an empty regular expression does. |
| RiskEngine.RuleHit | risk_engine.py:18-36 | Only the four known rule names can fire, and a rule never produces the sanctions hit. |
| RiskEngine.RuleHits | risk_engine.py:18-36 | The rule loop fires at most once per rule and never produces the sanctions hit. |
| RiskEngine.ApplyRule | risk_engine.py:18-36 | One turn of the loop leaves score and reasons exactly as one step with that rule's hit (or no hit) specifies. |
| RiskEngine.RuleLoopStep | risk_engine.py:18-36 | One loop turn: a firing rule adds its weight to the score and appends its reason; a rule that does not fire leaves both unchanged. |
| RiskEngine.MaxNotionalStep | risk_engine.py:19-23 | MAX_NOTIONAL fires only when notional > threshold (strictly), adding 0.6 and "Notional {notional} > {threshold}". |
| RiskEngine.BlacklistCountryStep | risk_engine.py:24-28 | BLACKLIST_COUNTRY fires iff one alternative of its pattern occurs in the country, adding 0.8 and "Blacklisted country: {country}". |
| RiskEngine.RequireKycStep | risk_engine.py:29-32 | REQUIRE_KYC fires iff kyc_ok is not 1 (an absent kyc_ok counts as 0), adding 0.7 and "KYC not verified". |
| RiskEngine.AmlFlagStep | risk_engine.py:33-36 | AML_FLAG_BLOCK fires iff aml_flag is 1 (an absent flag does not fire), adding 1.0 and "AML system flagged". |
| RiskEngine.UnknownRuleIgnored | risk_engine.py:18-36 | A rule with any other name changes neither score nor reasons. |
| RiskEngine.InactiveRuleIgnored | risk_engine.py:15-16 | Appending an inactive rule to the table does not change the result. |
| RiskEngine.Sanctioned | risk_engine.py:38-41 | The counterparty is sanctioned iff some sanctions name equals it after lower-casing both. |
| RiskEngine.SanctionsAfterRules | risk_engine.py:38-43 | The sanctions check runs once after the loop; a case-insensitive name match adds 1.2 and appends its reason last. |
| RiskEngine.SanctionsReasonIsLastIff | risk_engine.py:38-45 | The last reason is "Counterparty on sanctions list" iff the counterparty is on the list. |
| RiskEngine.ScoreIsSumOfReasonWeights | risk_engine.py:11-45 | The score equals the sum of the weights read back from the reasons' texts: nothing else adds to the score. |
| RiskEngine.Evaluate | risk_engine.py:10-45 | The score is never negative and has no cap; there is at most one reason per active rule plus one for the sanctions check. |
| RiskEngine.PlainPatternIsSubstring | risk_engine.py:24-26 | A country pattern without an alternation bar matches iff it is a substring of the country. |
| RiskEngine.SeededPatternMatches | risk_engine.py:24-26 | The seeded pattern (alternatives RU, IR, KP) matches iff the country contains RU, IR or KP. |
| RiskEngine.SeedRulesAllActive | db_init.py:82-88 | All four seeded rules are active, in seed order. |
| RiskEngine.FourRulesFire | risk_engine.py:18-36 | Four rules named as the seeded ones, each of which fires, add up all four weights and give the four reasons in rule order. |
| RiskEngine.SeededRulesExample | risk_engine.py:18-43 | The seeded rules on notional 250000.0 from RU, kyc_ok 0, aml_flag 1, not sanctioned give score 3.1 and the four reasons in rule order. |
| Classification.Decide | risk_processor.py:33-39 | Total: BLOCK/CRITICAL iff combined >= 1.5, REVIEW/WARNING iff 0.9 <= combined < 1.5, ALLOW/INFO iff combined < 0.9; the severity always follows the decision. |
| Classification.DecideMonotone | risk_processor.py:33-39 | A higher combined score never gets a more lenient decision. |
| Text.SplitPartsLackSeparator | risk_processor.py:53 | No part of a split contains the separator. |
| Text.JoinSplit | risk_processor.py:53 | Joining the parts of a split with the separator gives back the original string. |
| Text.Lower | risk_engine.py:40-41 | Lower-casing keeps the length and lowers each ASCII letter in place. |
| Translation.KeyPrefix | risk_processor.py:53 | A key's prefix, cut at its first `{` and stripped, never contains `{`. |
| Translation.FirstMatch | risk_processor.py:51-57 | The index found is the first key, in dict order, whose prefix starts the reason; none found means no key's prefix starts it. |
| Translation.TranslateByFirstMatch | risk_processor.py:51-57 | A reason becomes the phrase of the first matching key; later matching keys are never used. |
| Translation.TranslateByNoMatch | risk_processor.py:58-59 | A reason no key's prefix starts is kept as it is. |
| Translation.TranslateBy | risk_processor.py:51-59 | A reason becomes one of the table's phrases or stays as it is: nothing else is produced. |
| Translation.Translate | risk_processor.py:49-60 | One output per input, in the same order, each the translation of the reason at that position. |
| Translation.TranslateReasons | risk_processor.py:50-60 | A missing reasons list translates to the empty list; otherwise the result is the list translation, position by position. |
| Translation.KeyPrefixes | risk_processor.py:42-48 | The five keys reduce to "Notional", "Country in blacklist", "KYC missing", "AML flag present", "Sanctions name match" before matching. |
| Translation.PrefixTableIsPrefixed | risk_processor.py:42-53 | The precomputed prefix table is exactly the table with each key cut at its first placeholder and stripped. |
| Translation.TranslateOneByTable | risk_processor.py:42-59 | Translating by the precomputed prefixes gives, for every reason, what translating by the source's own key table gives. |
| Translation.NotionalTranslated | risk_processor.py:43 | Any reason starting with "Notional" becomes "Deal is bigger than our limit". |
| Translation.PassesThrough | risk_processor.py:52-59 | A reason none of the five prefixes starts passes through unchanged. |
| Translation.EngineReasonTranslation | risk_processor.py:42-59 | Of the engine's reasons only the notional one is rephrased; the country, KYC, AML and sanctions reasons match no key and are kept. |
| Translation.ExampleTranslations | risk_processor.py:42-59 | The five concrete reasons of the engine and their stored translations. |
| Translation.ReasonsText | risk_processor.py:161 | No reasons give "No rule violations"; a single reason is stored as it is. |
| Translation.ReasonsTextMentionsEach | risk_processor.py:161 | No reasons give "No rule violations"; otherwise every reason occurs in the "; "-joined text. |
| Persistence.Insert | risk_processor.py:96-122 | An insert succeeds iff every named column exists (names compared exactly), then appends exactly that row; otherwise it fails naming a non-empty set of missing columns. |
| Persistence.ScoreLayoutFor | risk_processor.py:92-122 | First fit: the newer layout iff all its columns exist; the older one iff the newer does not fit and the older does; the minimal one otherwise. |
| Persistence.ScoreInsert | risk_processor.py:81-122 | A successful score write keeps the columns and adds exactly one row; a failed one names risk_scores and only columns the table lacks. |
| Persistence.ScoreInsertOutcome | risk_processor.py:81-122 | The score write succeeds iff trade_id, combined_score and decision exist; it then appends exactly one row recording the trade, its combined score and its decision, columns and earlier rows unchanged. |
| Persistence.NewerLayoutStoresEverything | risk_processor.py:94-103 | With the newer columns present the row carries rule and ml score, severity and translated reasons. |
| Persistence.OlderLayoutAvoidsNewerColumns | risk_processor.py:104-113 | Otherwise, with the older columns present, the row uses base_rule_score, ml_anomaly_score and reason and names no newer-only column. |
| Persistence.AlertLayoutFor | risk_processor.py:125-142 | First fit: level iff trade_id, level and message exist; severity iff level does not fit and trade_id, severity and message exist; the score-row fallback iff trade_id or message is missing. |
| Persistence.AlertInsert | risk_processor.py:124-142 | A successful alert write keeps both tables' columns and adds exactly one row across the two tables. |
| Persistence.AlertInsertOutcome | risk_processor.py:124-142 | The alert write succeeds iff alerts has trade_id and message or risk_scores can take the minimal row; it then appends exactly one row to exactly one table, to alerts iff it has trade_id and message. |
| Persistence.LevelBeforeSeverity | risk_processor.py:127-132 | With both a level and a severity column the severity text goes into level. |
| Persistence.FallbackAlertIsScoreRow | risk_processor.py:137-142 | Without an alerts layout the alert becomes a score row with combined 0.0 and decision "ALERT_FALLBACK:" + severity, alerts untouched. |
| Processor.NewTrades | risk_processor.py:69 | Exactly the trades whose status is NEW are kept. |
| Processor.FetchNew | risk_processor.py:63-79 | The batch has min(20, number of NEW trades) elements and is a prefix of the NEW trades in table order. |
| Processor.FetchOldestFirst | risk_processor.py:63-79 | The batch holds NEW trades of the store in ascending id order, and every NEW trade left behind has a larger id than every fetched one. |
| Processor.MarkIds | risk_processor.py:176 | Exactly the trades with the given ids become PROCESSED; nothing else changes and the length is kept. |
| Processor.MarkFetchedCount | risk_processor.py:146-176 | Marking the first k fetched trades lowers the NEW count by exactly k. |
| Processor.Assess | risk_processor.py:152-161 | The rule score and reasons are those of `rule_based_score` on the store's rules and sanctions, the anomaly score is the model's on (quantity, price, notional), the combined score is their sum, the verdict is that of `_decide`, and the stored text joins the translated reasons. |
| Processor.ProcessTrade | risk_processor.py:150-180 | One loop turn marks at most one trade; it marks it unless a write failed, and when it marks nothing it changes nothing and reports the failure. |
| Processor.ProcessBatch | risk_processor.py:150-183 | A run over a batch marks at most one trade per element, and all of them when no write failed. |
| Processor.ProcessOnceOn | risk_processor.py:145-184 | A successful pass returns at most 20; a pass fails only when there is a NEW trade. |
| Processor.ProcessTradeOutcome | risk_processor.py:150-180 | Per trade: either the score write fails and nothing changes, or the PROCESSED mark, a score row recording the trade, its combined score and its decision as assessed, and its alert are written. The alert names the trade_id, the severity and the message; it is appended to `alerts` when that table has trade_id and message, and otherwise is the `ALERT_FALLBACK:<severity>` score row right after the trade's score row. |
| Processor.TradeOnWritableStore | risk_processor.py:164-180 | The writes of one trade for any assessment on a writable store: it is marked, a score row records its combined score and decision, and its alert is written in the layout the alerts columns select, or as the fallback score row. |
| Processor.FailureStops | risk_processor.py:150-184 | After a failed write the rest of the batch is not processed. |
| Processor.BatchOnWritableStore | risk_processor.py:150-181 | On a writable store every trade of the batch is marked and two rows are appended per trade. Each trade has a score row with its combined score and decision, and an alert with its trade_id, severity and message, both under the store's rules and sanctions. |
| Processor.BatchOnMissingColumns | risk_processor.py:150-173 | Without the minimal score columns the first write fails and the store is untouched. |
| Processor.ProcessBatchOutcome | risk_processor.py:150-181 | A batch is all or nothing. |
| Processor.IdleStoreUnchanged | risk_processor.py:145-148 | The pass returns 0 iff there is no NEW trade, and then changes nothing. |
| Processor.PassResult | risk_processor.py:145-184 | A pass fails only if there is work and the score table lacks a minimal column, and then leaves the store as it was; otherwise it returns min(20, number of NEW trades). |
| Processor.PassMarksFetched | risk_processor.py:145-184 | A successful pass turns exactly the fetched trades PROCESSED, leaves every other trade unchanged, keeps ids ascending and lowers the NEW count by the returned value. |
| Processor.PassWritesRows | risk_processor.py:150-184 | A successful pass only appends rows, two per fetched trade. Each fetched trade gets a score row with its combined score and decision, and an alert with its trade_id, severity and message, in `alerts` or as a fallback score row. Rules, sanctions and columns are unchanged. |
| Processor.DrainingPass | risk_processor.py:145-184 | With at most 20 NEW trades a successful pass drains them, and the next pass is an idle no-op. |
| Processor.SeededTradeIsBlocked | risk_processor.py:150-161 | The worked example trade, with any non-negative anomaly score, is BLOCK/CRITICAL with rule score 3.1 and stored text "Deal is bigger than our limit; Blacklisted country: RU; KYC not verified; AML system flagged". |
| Processor.Store.AssessTrade | risk_processor.py:152-161 | Scoring, deciding and translating one trade in the store gives the specification's assessment. |
| Processor.Store.PersistScores | risk_processor.py:81-122 | The if/elif ladder over the column set writes the score table as the score insert specifies, or reports its error and leaves the table alone. |
| Processor.Store.MarkProcessed | risk_processor.py:176 | The one trade with that id becomes PROCESSED; ids stay ascending. |
| Processor.Store.InsertAlert | risk_processor.py:124-142 | The level/severity/message/fallback ladder writes the two tables as the alert insert specifies, or reports its error and leaves both alone. |
| Processor.Store.HandleTrade | risk_processor.py:150-181 | One loop turn changes the store exactly as `ProcessTrade` specifies. |
| Processor.Store.ProcessOnce | risk_processor.py:145-184 | The new store and the returned count or error are exactly those of the specification `ProcessOnceOn`; ids stay ascending. |

## Left out

- `ml_anomaly_score` (risk_engine.py:47-54): the IsolationForest score and its logistic transform are a function parameter `anomaly` over (quantity, price, notional). It is floating-point numerics over a trained model.
- `load_model` and the pickle file: loading is I/O; a missing model file aborts before any pass.
- `main`: the two-second poll loop, sleep, `KeyboardInterrupt` and the startup print are process control, not state.
- `print(msg)` after each alert: output only.
- `f"{combined:.2f}"`: rendering is a parameter `twoDecimals`. The `str()` text of the notional and the threshold travels with the number (`Number.repr`).
- RiskEngine.SeededRulesExample: states the exact sum 3.1, because reals are exact. Python's float sum 0.6 + 0.8 + 0.7 + 1.0 is 3.0999999999999996. The reasons, the decision and every threshold comparison in the example are unaffected.
- Float rounding in general: scores are exact reals, so a sum sitting on a threshold by rounding is not modelled.
- `re.search` in BLACKLIST_COUNTRY: patterns are modelled as literal `|`-alternations. Other regular-expression syntax is not modelled.
- `str.lower()` and `str.strip()`: only ASCII letters and ASCII whitespace are handled. Python's Unicode case mapping is not modelled.
- Persistence.Insert: compares column names exactly, where SQLite resolves them case-insensitively. A `risk_scores` table declared as `TRADE_ID, COMBINED_SCORE, DECISION` fails Python's case-sensitive layout checks (risk_processor.py:94, 104), and SQLite then accepts the minimal insert (risk_processor.py:116-121); the model instead reports a missing column and a failed pass. The layout choice itself stays case-sensitive, as the code's `issubset` tests are. Only tables whose declared names match the code's lower-case spelling are modelled faithfully.
- A NULL `kyc_ok` or `aml_flag` column: `int(None)` raises and would abort the pass. This is not modelled. An absent key reads as 0.
- Other NULL columns that raise: a NULL rule threshold (`float(None)`, risk_engine.py:20), a NULL trade notional (risk_engine.py:21), a NULL rule param (`re.search(None, …)`, risk_engine.py:26) and a NULL sanctions name (`None.lower()`, risk_engine.py:40). Every such value is a present number or string in the model.
- `rule_based_score` reads the `rules` and `sanctions` tables again for every trade (risk_engine.py:15, 39; called at risk_processor.py:152). Edits to those tables by another connection between two trades of a batch are not modelled: a pass uses one fixed `rules` and `sanctions` value.
- SQL failures other than a missing column, such as type or NOT NULL constraints, locking and I/O errors. So a score write on a table with the minimal columns always succeeds in the model.
- Rows are returned in table order. The `rules` query has no `ORDER BY`, and the model takes storage order.
- Trade columns the core fetches but never reads are dropped: timestamp, sector, symbol, trade_type, currency.
- The warnings filter and the PRAGMA text: `PRAGMA table_info` is the column set of a `Table`.
- Autocommit durability is modelled as writes that stay in place after a failure. A crash in the middle of a pass is not modelled.
- `dashboard.py`, `generate_data.py`, `train_anomaly_model.py` and `db_init.py` are not part of this model. The seed rules of db_init.py:82-88 are the exception; they are used as a worked example.
