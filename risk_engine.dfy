/** The rule engine of `risk_engine.py`: the rule loop over the active rules,
    the sanctions check after it, and the score and reasons they produce. */
module RiskEngine {
  import opened Outcomes
  import opened Text

  /** A number as the engine reads it, together with the text Python's `str()`
      prints for it (that text is embedded in the notional reason). */
  datatype Number = Number(value: real, repr: string)

  datatype Status = New | Processed

  /** A row of the `trades` table, restricted to the columns the pipeline reads.
      `kycOk` and `amlFlag` are `None` when the record has no such key. */
  datatype Trade = Trade(
    id: int,
    tradeId: string,
    counterparty: string,
    country: string,
    quantity: real,
    price: real,
    notional: Number,
    kycOk: Option<int>,
    amlFlag: Option<int>,
    status: Status)

  /** A row of the `rules` table. `threshold` is the value after `float()`. */
  datatype Rule = Rule(name: string, threshold: Number, param: string, active: int)

  /** A row of the `sanctions` table. */
  datatype Sanction = Sanction(name: string, country: string)

  /** One check that fired: what the engine adds to the score and the reasons. */
  datatype Hit =
    | NotionalHit(notional: Number, limit: Number)
    | CountryHit(country: string)
    | KycHit
    | AmlHit
    | SanctionsHit

  /** What `rule_based_score` returns. */
  datatype Scored = Scored(score: real, reasons: seq<string>)

  const NotionalWeight: real := 0.6
  const CountryWeight: real := 0.8
  const KycWeight: real := 0.7
  const AmlWeight: real := 1.0
  const SanctionsWeight: real := 1.2

  function NotionalReason(notional: Number, limit: Number): string {
    "Notional " + notional.repr + " > " + limit.repr
  }

  function CountryReason(country: string): string {
    "Blacklisted country: " + country
  }

  const KycReason: string := "KYC not verified"
  const AmlReason: string := "AML system flagged"
  const SanctionsReason: string := "Counterparty on sanctions list"

  function Weight(h: Hit): real {
    match h
    case NotionalHit(_, _) => NotionalWeight
    case CountryHit(_) => CountryWeight
    case KycHit => KycWeight
    case AmlHit => AmlWeight
    case SanctionsHit => SanctionsWeight
  }

  function Reason(h: Hit): string {
    match h
    case NotionalHit(n, l) => NotionalReason(n, l)
    case CountryHit(c) => CountryReason(c)
    case KycHit => KycReason
    case AmlHit => AmlReason
    case SanctionsHit => SanctionsReason
  }

  /** `int(trade.get(key, 0))`: an absent key reads as 0. */
  function FlagValue(flag: Option<int>): int {
    match flag
    case None => 0
    case Some(v) => v
  }

  /** `re.search(pattern, country)` for a pattern that is a literal
      `|`-alternation: some alternative occurs inside the country. An empty
      pattern, like an empty regular expression, matches every country. */
  predicate MatchesCountry(pattern: string, country: string)
    ensures pattern == "" ==> MatchesCountry(pattern, country)
  {
    var alternatives := Split(pattern, '|');
    assert pattern == "" ==> alternatives[0] == "" && OccursAt(country, "", 0);
    exists i :: 0 <= i < |alternatives| && Contains(country, alternatives[i])
  }

  /** The check one rule performs on one trade; unknown names never fire. */
  function RuleHit(t: Trade, r: Rule): (h: Option<Hit>)
    ensures h.Some? ==> r.name in {"MAX_NOTIONAL", "BLACKLIST_COUNTRY", "REQUIRE_KYC", "AML_FLAG_BLOCK"}
    ensures h.Some? ==> !h.value.SanctionsHit?
  {
    if r.name == "MAX_NOTIONAL" then
      if t.notional.value > r.threshold.value then Some(NotionalHit(t.notional, r.threshold)) else None
    else if r.name == "BLACKLIST_COUNTRY" then
      if MatchesCountry(r.param, t.country) then Some(CountryHit(t.country)) else None
    else if r.name == "REQUIRE_KYC" then
      if FlagValue(t.kycOk) != 1 then Some(KycHit) else None
    else if r.name == "AML_FLAG_BLOCK" then
      if FlagValue(t.amlFlag) == 1 then Some(AmlHit) else None
    else None
  }

  function HitList(h: Option<Hit>): seq<Hit> {
    match h
    case None => []
    case Some(x) => [x]
  }

  /** The checks that fire in the rule loop, in the rules' order. */
  function RuleHits(t: Trade, rules: seq<Rule>): (hits: seq<Hit>)
    ensures |hits| <= |rules|
    ensures forall i :: 0 <= i < |hits| ==> !hits[i].SanctionsHit?
    decreases |rules|
  {
    if rules == [] then []
    else RuleHits(t, rules[..|rules| - 1]) + HitList(RuleHit(t, rules[|rules| - 1]))
  }

  /** `SELECT ... FROM rules WHERE active=1`, in table order. */
  function ActiveRules(table: seq<Rule>): (active: seq<Rule>)
    ensures |active| <= |table|
    ensures forall i :: 0 <= i < |active| ==> active[i].active == 1 && active[i] in table
    decreases |table|
  {
    if table == [] then []
    else
      var last := table[|table| - 1];
      ActiveRules(table[..|table| - 1]) + (if last.active == 1 then [last] else [])
  }

  function LowerNames(sanctions: seq<Sanction>): seq<string> {
    seq(|sanctions|, i requires 0 <= i < |sanctions| => Lower(sanctions[i].name))
  }

  /** The exact, case-insensitive membership test of the counterparty. */
  predicate Sanctioned(counterparty: string, sanctions: seq<Sanction>)
    ensures Sanctioned(counterparty, sanctions) <==>
      exists i :: 0 <= i < |sanctions| && Lower(sanctions[i].name) == Lower(counterparty)
  {
    var names := LowerNames(sanctions);
    assert forall i :: 0 <= i < |sanctions| ==> names[i] == Lower(sanctions[i].name);
    Lower(counterparty) in names
  }

  /** Every check that fires: the rule loop, then the sanctions check. */
  function Hits(t: Trade, rules: seq<Rule>, sanctions: seq<Sanction>): seq<Hit> {
    RuleHits(t, ActiveRules(rules)) + (if Sanctioned(t.counterparty, sanctions) then [SanctionsHit] else [])
  }

  function TotalWeight(hits: seq<Hit>): real
    decreases |hits|
  {
    if hits == [] then 0.0 else TotalWeight(hits[..|hits| - 1]) + Weight(hits[|hits| - 1])
  }

  function Reasons(hits: seq<Hit>): seq<string>
    decreases |hits|
  {
    if hits == [] then [] else Reasons(hits[..|hits| - 1]) + [Reason(hits[|hits| - 1])]
  }

  /** What `rule_based_score` computes for a trade, the `rules` table and the
      `sanctions` table. The score is never negative (and has no cap), and
      there is at most one reason per active rule plus one for the sanctions
      check. */
  function Evaluate(t: Trade, rules: seq<Rule>, sanctions: seq<Sanction>): (r: Scored)
    ensures r.score >= 0.0
    ensures |r.reasons| <= |ActiveRules(rules)| + 1
  {
    var hits := Hits(t, rules, sanctions);
    WeightsNonNegative(hits);
    Scored(TotalWeight(hits), Reasons(hits))
  }

  /** What the rule loop alone has accumulated after the given active rules. */
  function RuleLoop(t: Trade, active: seq<Rule>): Scored {
    var hits := RuleHits(t, active);
    Scored(TotalWeight(hits), Reasons(hits))
  }

  /** What one checked rule does to the accumulated pair: a hit adds its
      weight and appends its reason, no hit leaves the pair as it was. */
  function Step(acc: Scored, hit: Option<Hit>): Scored {
    match hit
    case None => acc
    case Some(h) => Scored(acc.score + Weight(h), acc.reasons + [Reason(h)])
  }

  /** One turn of the rule loop: a rule that fires adds its weight and appends
      its reason; any other rule leaves the accumulated pair as it was. */
  lemma RuleLoopStep(t: Trade, active: seq<Rule>, r: Rule)
    ensures RuleLoop(t, active + [r]) == Step(RuleLoop(t, active), RuleHit(t, r))
  {
    var s := active + [r];
    assert s[..|s| - 1] == active;
    var hits := RuleHits(t, active);
    match RuleHit(t, r)
    case None =>
      assert RuleHits(t, s) == hits;
    case Some(h) =>
      assert RuleHits(t, s) == hits + [h];
      assert (hits + [h])[..|hits|] == hits;
  }

  /** The sanctions check runs once, after the rule loop: on a match it adds
      1.2 to the loop's score and appends its reason as the last one. */
  lemma SanctionsAfterRules(t: Trade, rules: seq<Rule>, sanctions: seq<Sanction>)
    ensures var loop := RuleLoop(t, ActiveRules(rules));
      Evaluate(t, rules, sanctions) ==
        if Sanctioned(t.counterparty, sanctions)
        then Scored(loop.score + SanctionsWeight, loop.reasons + [SanctionsReason])
        else loop
  {
    var hits := RuleHits(t, ActiveRules(rules));
    if Sanctioned(t.counterparty, sanctions) {
      var all := hits + [SanctionsHit];
      assert Hits(t, rules, sanctions) == all;
      assert all[..|all| - 1] == hits;
      assert TotalWeight(all) == TotalWeight(hits) + SanctionsWeight;
      assert Reasons(all) == Reasons(hits) + [SanctionsReason];
    } else {
      assert Hits(t, rules, sanctions) == hits;
    }
  }

  /** One turn of the rule loop of `rule_based_score` on the running score
      and reasons. */
  method ApplyRule(t: Trade, r: Rule, score: real, reasons: seq<string>)
    returns (score': real, reasons': seq<string>)
    ensures Scored(score', reasons') == Step(Scored(score, reasons), RuleHit(t, r))
  {
    score', reasons' := score, reasons;
    if r.name == "MAX_NOTIONAL" {
      if t.notional.value > r.threshold.value {
        score' := score + 0.6;
        reasons' := reasons + ["Notional " + t.notional.repr + " > " + r.threshold.repr];
      }
    } else if r.name == "BLACKLIST_COUNTRY" {
      if MatchesCountry(r.param, t.country) {
        score' := score + 0.8;
        reasons' := reasons + ["Blacklisted country: " + t.country];
      }
    } else if r.name == "REQUIRE_KYC" {
      if FlagValue(t.kycOk) != 1 {
        score' := score + 0.7;
        reasons' := reasons + ["KYC not verified"];
      }
    } else if r.name == "AML_FLAG_BLOCK" {
      if FlagValue(t.amlFlag) == 1 {
        score' := score + 1.0;
        reasons' := reasons + ["AML system flagged"];
      }
    }
  }

  /** `rule_based_score`: walks the active rules in order, adding each firing
      rule's weight and reason, then applies the sanctions check. */
  method RuleBasedScore(t: Trade, rules: seq<Rule>, sanctions: seq<Sanction>)
    returns (score: real, reasons: seq<string>)
    ensures Scored(score, reasons) == Evaluate(t, rules, sanctions)
  {
    score := 0.0;
    reasons := [];
    var active := ActiveRules(rules);
    var i := 0;
    while i < |active|
      invariant 0 <= i <= |active|
      invariant Scored(score, reasons) == RuleLoop(t, active[..i])
    {
      var r := active[i];
      score, reasons := ApplyRule(t, r, score, reasons);
      assert Scored(score, reasons) == RuleLoop(t, active[..i + 1]) by {
        RuleLoopStep(t, active[..i], r);
        assert active[..i + 1] == active[..i] + [r];
      }
      i := i + 1;
    }
    assert active[..i] == active;
    SanctionsAfterRules(t, rules, sanctions);
    if Lower(t.counterparty) in LowerNames(sanctions) {
      score := score + 1.2;
      reasons := reasons + ["Counterparty on sanctions list"];
    }
  }

  /** The weight a reason stands for, read off its text: an independent
      reference for the score. */
  function ReasonWeight(reason: string): real {
    if IsPrefix("Notional ", reason) then NotionalWeight
    else if IsPrefix("Blacklisted country: ", reason) then CountryWeight
    else if reason == KycReason then KycWeight
    else if reason == AmlReason then AmlWeight
    else if reason == SanctionsReason then SanctionsWeight
    else 0.0
  }

  function SumReasonWeights(reasons: seq<string>): real
    decreases |reasons|
  {
    if reasons == [] then 0.0
    else SumReasonWeights(reasons[..|reasons| - 1]) + ReasonWeight(reasons[|reasons| - 1])
  }

  lemma ReasonWeightOfHit(h: Hit)
    ensures ReasonWeight(Reason(h)) == Weight(h)
  {
    match h
    case NotionalHit(n, l) =>
      assert IsPrefix("Notional ", Reason(h));
    case CountryHit(c) =>
      assert Reason(h)[0] == 'B';
      assert IsPrefix("Blacklisted country: ", Reason(h));
    case KycHit => assert Reason(h)[0] == 'K';
    case AmlHit => assert Reason(h)[0] == 'A';
    case SanctionsHit => assert Reason(h)[0] == 'C';
  }

  lemma {:induction false} TotalWeightIsReasonWeights(hits: seq<Hit>)
    ensures TotalWeight(hits) == SumReasonWeights(Reasons(hits))
    decreases |hits|
  {
    if hits != [] {
      var init := hits[..|hits| - 1];
      TotalWeightIsReasonWeights(init);
      ReasonWeightOfHit(hits[|hits| - 1]);
      assert Reasons(hits)[..|Reasons(hits)| - 1] == Reasons(init);
    }
  }

  /** The returned score is exactly the sum of the weights of the returned
      reasons, so each reason accounts for its weight and nothing else adds. */
  lemma ScoreIsSumOfReasonWeights(t: Trade, rules: seq<Rule>, sanctions: seq<Sanction>)
    ensures Evaluate(t, rules, sanctions).score == SumReasonWeights(Evaluate(t, rules, sanctions).reasons)
  {
    TotalWeightIsReasonWeights(Hits(t, rules, sanctions));
  }

  lemma {:induction false} WeightsNonNegative(hits: seq<Hit>)
    ensures TotalWeight(hits) >= 0.0
    ensures |Reasons(hits)| == |hits|
    decreases |hits|
  {
    if hits != [] {
      WeightsNonNegative(hits[..|hits| - 1]);
    }
  }

  lemma RuleReasonIsNotSanctions(h: Hit)
    requires !h.SanctionsHit?
    ensures Reason(h) != SanctionsReason
  {
    match h
    case NotionalHit(n, l) => assert Reason(h)[0] == 'N';
    case CountryHit(c) => assert Reason(h)[0] == 'B';
    case KycHit =>
    case AmlHit =>
  }

  /** The last reason is the sanctions reason exactly when the counterparty is
      on the sanctions list: no rule emits that text. */
  lemma SanctionsReasonIsLastIff(t: Trade, rules: seq<Rule>, sanctions: seq<Sanction>)
    ensures var reasons := Evaluate(t, rules, sanctions).reasons;
      (reasons != [] && reasons[|reasons| - 1] == SanctionsReason) <==> Sanctioned(t.counterparty, sanctions)
  {
    SanctionsAfterRules(t, rules, sanctions);
    var hits := RuleHits(t, ActiveRules(rules));
    if !Sanctioned(t.counterparty, sanctions) && hits != [] {
      RuleReasonIsNotSanctions(hits[|hits| - 1]);
    }
  }

  /** MAX_NOTIONAL fires only for a notional strictly above the threshold,
      adding 0.6 and the reason "Notional {notional} > {threshold}". */
  lemma MaxNotionalStep(t: Trade, active: seq<Rule>, r: Rule)
    requires r.name == "MAX_NOTIONAL"
    ensures var before := RuleLoop(t, active);
      RuleLoop(t, active + [r]) ==
        if t.notional.value > r.threshold.value
        then Scored(before.score + 0.6, before.reasons + ["Notional " + t.notional.repr + " > " + r.threshold.repr])
        else before
  {
    assert RuleHit(t, r) ==
      if t.notional.value > r.threshold.value then Some(NotionalHit(t.notional, r.threshold)) else None;
    RuleLoopStep(t, active, r);
  }

  /** BLACKLIST_COUNTRY fires when one alternative of its pattern occurs in the
      country, adding 0.8 and "Blacklisted country: {country}". */
  lemma BlacklistCountryStep(t: Trade, active: seq<Rule>, r: Rule)
    requires r.name == "BLACKLIST_COUNTRY"
    ensures var before := RuleLoop(t, active);
      RuleLoop(t, active + [r]) ==
        if MatchesCountry(r.param, t.country)
        then Scored(before.score + 0.8, before.reasons + ["Blacklisted country: " + t.country])
        else before
  {
    assert RuleHit(t, r) == if MatchesCountry(r.param, t.country) then Some(CountryHit(t.country)) else None;
    RuleLoopStep(t, active, r);
  }

  /** REQUIRE_KYC fires unless kyc_ok is 1, an absent kyc_ok counting as 0. */
  lemma RequireKycStep(t: Trade, active: seq<Rule>, r: Rule)
    requires r.name == "REQUIRE_KYC"
    ensures var before := RuleLoop(t, active);
      RuleLoop(t, active + [r]) ==
        if t.kycOk != Some(1)
        then Scored(before.score + 0.7, before.reasons + ["KYC not verified"])
        else before
  {
    assert RuleHit(t, r) == if t.kycOk != Some(1) then Some(KycHit) else None;
    RuleLoopStep(t, active, r);
  }

  /** AML_FLAG_BLOCK fires only when aml_flag is 1; an absent flag does not fire. */
  lemma AmlFlagStep(t: Trade, active: seq<Rule>, r: Rule)
    requires r.name == "AML_FLAG_BLOCK"
    ensures var before := RuleLoop(t, active);
      RuleLoop(t, active + [r]) ==
        if t.amlFlag == Some(1)
        then Scored(before.score + 1.0, before.reasons + ["AML system flagged"])
        else before
  {
    assert RuleHit(t, r) == if t.amlFlag == Some(1) then Some(AmlHit) else None;
    RuleLoopStep(t, active, r);
  }

  /** A rule with any other name changes neither the score nor the reasons. */
  lemma UnknownRuleIgnored(t: Trade, active: seq<Rule>, r: Rule)
    requires r.name !in ["MAX_NOTIONAL", "BLACKLIST_COUNTRY", "REQUIRE_KYC", "AML_FLAG_BLOCK"]
    ensures RuleLoop(t, active + [r]) == RuleLoop(t, active)
  {
    RuleLoopStep(t, active, r);
  }

  /** An active row appended to the rules table is loaded last, after the
      rows before it. */
  lemma ActiveRuleKept(table: seq<Rule>, r: Rule)
    requires r.active == 1
    ensures ActiveRules(table + [r]) == ActiveRules(table) + [r]
  {
    assert (table + [r])[..|table|] == table;
  }

  /** An inactive row appended to the rules table is not loaded. */
  lemma InactiveRuleDropped(table: seq<Rule>, r: Rule)
    requires r.active != 1
    ensures ActiveRules(table + [r]) == ActiveRules(table)
  {
    assert (table + [r])[..|table|] == table;
  }

  /** A row is loaded exactly when it is a row of the table with active = 1. */
  lemma {:induction false} ActiveRulesExactly(table: seq<Rule>)
    ensures forall r :: r in ActiveRules(table) <==> r in table && r.active == 1
    decreases |table|
  {
    if table != [] {
      var init, last := table[..|table| - 1], table[|table| - 1];
      ActiveRulesExactly(init);
      assert table == init + [last];
      if last.active == 1 {
        ActiveRuleKept(init, last);
      } else {
        InactiveRuleDropped(init, last);
      }
    }
  }

  /** An inactive row of the rules table is never looked at. */
  lemma InactiveRuleIgnored(t: Trade, rules: seq<Rule>, r: Rule, sanctions: seq<Sanction>)
    requires r.active != 1
    ensures Evaluate(t, rules + [r], sanctions) == Evaluate(t, rules, sanctions)
  {
    InactiveRuleDropped(rules, r);
  }

  /** A pattern without `|` is a plain substring test. */
  lemma PlainPatternIsSubstring(pattern: string, country: string)
    requires '|' !in pattern
    ensures MatchesCountry(pattern, country) <==> Contains(country, pattern)
  {
    SplitWithoutSeparator(pattern, '|');
    assert Split(pattern, '|')[0] == pattern;
  }

  lemma SeededPatternSplits()
    ensures Split("RU|IR|KP", '|') == ["RU", "IR", "KP"]
  {
    SplitWithoutSeparator("KP", '|');
    assert "IR|KP" == "IR" + ['|'] + "KP";
    SplitAtFirstSeparator("IR", '|', "KP");
    assert "RU|IR|KP" == "RU" + ['|'] + "IR|KP";
    SplitAtFirstSeparator("RU", '|', "IR|KP");
  }

  /** A pattern that splits into three alternatives matches exactly the
      countries containing one of them. */
  lemma ThreeAlternatives(pattern: string, a: string, b: string, c: string, country: string)
    requires Split(pattern, '|') == [a, b, c]
    ensures MatchesCountry(pattern, country) <==>
      Contains(country, a) || Contains(country, b) || Contains(country, c)
  {
    var alternatives := Split(pattern, '|');
    if Contains(country, a) { assert Contains(country, alternatives[0]); }
    if Contains(country, b) { assert Contains(country, alternatives[1]); }
    if Contains(country, c) { assert Contains(country, alternatives[2]); }
  }

  /** The seeded pattern matches exactly the countries containing RU, IR or KP. */
  lemma SeededPatternMatches(country: string)
    ensures MatchesCountry("RU|IR|KP", country) <==>
      Contains(country, "RU") || Contains(country, "IR") || Contains(country, "KP")
  {
    SeededPatternSplits();
    ThreeAlternatives("RU|IR|KP", "RU", "IR", "KP", country);
  }

  /** The four rules seeded into a fresh store, all active. */
  const SeedRules: seq<Rule> := [
    Rule("MAX_NOTIONAL", Number(100000.0, "100000.0"), "USD", 1),
    Rule("BLACKLIST_COUNTRY", Number(1.0, "1.0"), "RU|IR|KP", 1),
    Rule("REQUIRE_KYC", Number(1.0, "1.0"), "TRUE", 1),
    Rule("AML_FLAG_BLOCK", Number(1.0, "1.0"), "TRUE", 1)
  ]

  /** The reason the seeded MAX_NOTIONAL rule gives a notional of 250000.0: the
      `notional` column is REAL, so `str()` prints it as 250000.0. */
  const ExampleNotionalReason: string := "Notional 250000.0 > 100000.0"

  lemma ExampleNotionalText()
    ensures NotionalReason(Number(250000.0, "250000.0"), Number(100000.0, "100000.0")) == ExampleNotionalReason
  {
  }

  lemma SeededPatternMatchesRU()
    ensures MatchesCountry("RU|IR|KP", "RU")
  {
    SeededPatternMatches("RU");
    ContainsMiddle("", "RU", "");
    assert "" + "RU" + "" == "RU";
  }

  lemma FirstTwoRulesFire(t: Trade, rules: seq<Rule>)
    requires |rules| >= 2
    requires rules[0].name == "MAX_NOTIONAL" && t.notional.value > rules[0].threshold.value
    requires rules[1].name == "BLACKLIST_COUNTRY" && MatchesCountry(rules[1].param, t.country)
    ensures RuleLoop(t, rules[..2]) == Scored(NotionalWeight + CountryWeight,
      [NotionalReason(t.notional, rules[0].threshold), CountryReason(t.country)])
  {
    var one := RuleLoop(t, rules[..1]);
    assert one == Scored(NotionalWeight, [NotionalReason(t.notional, rules[0].threshold)]) by {
      FirstRuleFires(t, rules);
    }
    assert RuleLoop(t, rules[..2]) == Step(one, RuleHit(t, rules[1])) by {
      assert rules[..2] == rules[..1] + [rules[1]];
      RuleLoopStep(t, rules[..1], rules[1]);
    }
    assert RuleHit(t, rules[1]) == Some(CountryHit(t.country));
  }

  /** MAX_NOTIONAL alone, firing, gives its weight and its reason. */
  lemma FirstRuleFires(t: Trade, rules: seq<Rule>)
    requires |rules| >= 1
    requires rules[0].name == "MAX_NOTIONAL" && t.notional.value > rules[0].threshold.value
    ensures RuleLoop(t, rules[..1]) == Scored(NotionalWeight, [NotionalReason(t.notional, rules[0].threshold)])
  {
    assert RuleLoop(t, []) == Scored(0.0, []);
    assert rules[..1] == [] + [rules[0]];
    MaxNotionalStep(t, [], rules[0]);
  }

  /** Four rules named like the seeded ones, each of which fires, add up all
      four weights and give the four reasons in order. */
  lemma FourRulesFire(t: Trade, rules: seq<Rule>)
    requires |rules| == 4
    requires rules[0].name == "MAX_NOTIONAL" && t.notional.value > rules[0].threshold.value
    requires rules[1].name == "BLACKLIST_COUNTRY" && MatchesCountry(rules[1].param, t.country)
    requires rules[2].name == "REQUIRE_KYC" && t.kycOk != Some(1)
    requires rules[3].name == "AML_FLAG_BLOCK" && t.amlFlag == Some(1)
    ensures RuleLoop(t, rules) == Scored(NotionalWeight + CountryWeight + KycWeight + AmlWeight,
      [NotionalReason(t.notional, rules[0].threshold), CountryReason(t.country), KycReason, AmlReason])
  {
    var n, c := NotionalReason(t.notional, rules[0].threshold), CountryReason(t.country);
    var two := RuleLoop(t, rules[..2]);
    assert two == Scored(NotionalWeight + CountryWeight, [n, c]) by {
      FirstTwoRulesFire(t, rules);
    }
    var three := RuleLoop(t, rules[..3]);
    assert three == Step(two, RuleHit(t, rules[2])) by {
      assert rules[..3] == rules[..2] + [rules[2]];
      RuleLoopStep(t, rules[..2], rules[2]);
    }
    assert RuleHit(t, rules[2]) == Some(KycHit);
    assert RuleLoop(t, rules) == Step(three, RuleHit(t, rules[3])) by {
      assert rules == rules[..3] + [rules[3]];
      RuleLoopStep(t, rules[..3], rules[3]);
    }
    assert RuleHit(t, rules[3]) == Some(AmlHit);
  }

  /** The seeded rules carry the four names in order, MAX_NOTIONAL's threshold
      is 100000.0 and BLACKLIST_COUNTRY's pattern matches RU. */
  lemma SeedRulesShape()
    ensures |SeedRules| == 4
    ensures SeedRules[0].name == "MAX_NOTIONAL" && SeedRules[0].threshold == Number(100000.0, "100000.0")
    ensures SeedRules[1].name == "BLACKLIST_COUNTRY" && MatchesCountry(SeedRules[1].param, "RU")
    ensures SeedRules[2].name == "REQUIRE_KYC" && SeedRules[3].name == "AML_FLAG_BLOCK"
  {
    SeededPatternMatchesRU();
  }

  lemma ExampleAfterRules(t: Trade)
    requires t.notional == Number(250000.0, "250000.0") && t.country == "RU"
    requires t.kycOk == Some(0) && t.amlFlag == Some(1)
    ensures RuleLoop(t, SeedRules) ==
      Scored(3.1, [ExampleNotionalReason, "Blacklisted country: RU", KycReason, AmlReason])
  {
    var rules := SeedRules;
    SeedRulesShape();
    FourRulesFire(t, rules);
    assert NotionalReason(t.notional, rules[0].threshold) == ExampleNotionalReason by {
      ExampleNotionalText();
    }
    assert CountryReason(t.country) == "Blacklisted country: RU";
    assert NotionalWeight + CountryWeight + KycWeight + AmlWeight == 3.1;
  }

  /** A trade of notional 250000.0 from RU, without KYC and flagged by AML, and
      not on the sanctions list, scores 3.1 with the four reasons in rule order. */
  lemma SeededRulesExample(t: Trade, sanctions: seq<Sanction>)
    requires t.notional == Number(250000.0, "250000.0") && t.country == "RU"
    requires t.kycOk == Some(0) && t.amlFlag == Some(1)
    requires !Sanctioned(t.counterparty, sanctions)
    ensures Evaluate(t, SeedRules, sanctions) ==
      Scored(3.1, ["Notional 250000.0 > 100000.0", "Blacklisted country: RU", "KYC not verified", "AML system flagged"])
  {
    ExampleAfterRules(t);
    SeedRulesAllActive();
    SanctionsAfterRules(t, SeedRules, sanctions);
  }

  lemma SeedRulesAllActive()
    ensures ActiveRules(SeedRules) == SeedRules
  {
    var rs := SeedRules;
    assert rs[..0] == [];
    assert ActiveRules(rs[..1]) == rs[..1] by { assert rs[..1][..0] == []; }
    assert ActiveRules(rs[..2]) == rs[..2] by { assert rs[..2][..1] == rs[..1]; }
    assert ActiveRules(rs[..3]) == rs[..3] by { assert rs[..3][..2] == rs[..2]; }
    assert rs[..4] == rs;
    assert rs[..|rs| - 1] == rs[..3];
  }
}
