/** `_translate_reasons` of `risk_processor.py` and the reasons text that
    `process_once` stores: each raw reason is replaced by the phrase of the
    first table key whose prefix starts it, or kept as it is. */
module Translation {
  import opened Outcomes
  import opened Text
  import opened RiskEngine

  /** The translation table, in the order Python iterates the dict. */
  const TranslationTable: seq<(string, string)> := [
    ("Notional {val} > {thr}", "Deal is bigger than our limit"),
    ("Country in blacklist", "Counterparty country is restricted"),
    ("KYC missing", "KYC not completed"),
    ("AML flag present", "AML system has red flags"),
    ("Sanctions name match", "Possible sanctions list match")
  ]

  /** `k.split("{")[0].strip()`: the key's text before its first placeholder. */
  function KeyPrefix(key: string): (p: string)
    ensures '{' !in p
  {
    SplitPartsLackSeparator(key, '{');
    var head := Split(key, '{')[0];
    var left := StripLeft(head);
    assert forall c :: c in left ==> c in head;
    Strip(head)
  }

  /** The table with each key replaced by its prefix, phrases kept. */
  function Prefixed(table: seq<(string, string)>): (r: seq<(string, string)>)
    ensures |r| == |table|
    ensures forall i :: 0 <= i < |table| ==> r[i] == (KeyPrefix(table[i].0), table[i].1)
  {
    seq(|table|, i requires 0 <= i < |table| => (KeyPrefix(table[i].0), table[i].1))
  }

  /** The index of the first entry, from `from` on, whose prefix starts `reason`. */
  function FirstMatch(reason: string, prefixed: seq<(string, string)>, from: nat): (r: Option<nat>)
    requires from <= |prefixed|
    ensures r.Some? ==> from <= r.value < |prefixed| && IsPrefix(prefixed[r.value].0, reason)
    ensures r.Some? ==> forall j :: from <= j < r.value ==> !IsPrefix(prefixed[j].0, reason)
    ensures r.None? ==> forall j :: from <= j < |prefixed| ==> !IsPrefix(prefixed[j].0, reason)
    decreases |prefixed| - from
  {
    if from == |prefixed| then None
    else if IsPrefix(prefixed[from].0, reason) then Some(from)
    else FirstMatch(reason, prefixed, from + 1)
  }

  /** The phrase of the first entry whose prefix starts `reason`, else `reason`. */
  function Lookup(prefixed: seq<(string, string)>, reason: string): string {
    match FirstMatch(reason, prefixed, 0)
    case Some(i) => prefixed[i].1
    case None => reason
  }

  /** The translation of one reason by a table of (key, phrase) pairs. */
  function TranslateBy(table: seq<(string, string)>, reason: string): (r: string)
    ensures r == reason || exists j :: 0 <= j < |table| && r == table[j].1
  {
    Lookup(Prefixed(table), reason)
  }

  /** The prefixes of `TranslationTable`, worked out once (see `PrefixTableIsPrefixed`). */
  const PrefixTable: seq<(string, string)> := [
    ("Notional", "Deal is bigger than our limit"),
    ("Country in blacklist", "Counterparty country is restricted"),
    ("KYC missing", "KYC not completed"),
    ("AML flag present", "AML system has red flags"),
    ("Sanctions name match", "Possible sanctions list match")
  ]

  /** The translation of one reason. */
  function TranslateOne(reason: string): string {
    Lookup(PrefixTable, reason)
  }

  /** The loop over the raw reasons: one output per input, in order. */
  function Translate(raw: seq<string>): (pretty: seq<string>)
    ensures |pretty| == |raw|
    ensures forall i :: 0 <= i < |raw| ==> pretty[i] == TranslateOne(raw[i])
    decreases |raw|
  {
    if raw == [] then [] else [TranslateOne(raw[0])] + Translate(raw[1..])
  }

  /** `_translate_reasons(raw_reasons)`, where `None` reads as an empty list. */
  function TranslateReasons(raw: Option<seq<string>>): (pretty: seq<string>)
    ensures raw.None? ==> pretty == []
    ensures raw.Some? ==> |pretty| == |raw.value|
    ensures raw.Some? ==> forall i :: 0 <= i < |raw.value| ==> pretty[i] == TranslateOne(raw.value[i])
    ensures raw.Some? ==> pretty == Translate(raw.value)
  {
    match raw
    case None => []
    case Some(rs) => Translate(rs)
  }

  /** A reason becomes the phrase of the first key whose prefix starts it, and
      passes through unchanged when no key's prefix does. */
  lemma TranslateByNoMatch(table: seq<(string, string)>, reason: string)
    requires forall j :: 0 <= j < |table| ==> !IsPrefix(KeyPrefix(table[j].0), reason)
    ensures TranslateBy(table, reason) == reason
  {
    var p := Prefixed(table);
    assert forall j :: 0 <= j < |p| ==> !IsPrefix(p[j].0, reason);
  }

  lemma TranslateByFirstMatch(table: seq<(string, string)>, reason: string, i: nat)
    requires i < |table| && IsPrefix(KeyPrefix(table[i].0), reason)
    requires forall j :: 0 <= j < i ==> !IsPrefix(KeyPrefix(table[j].0), reason)
    ensures TranslateBy(table, reason) == table[i].1
  {
    var p := Prefixed(table);
    var m := FirstMatch(reason, p, 0);
    assert IsPrefix(p[i].0, reason);
    assert m.Some?;
    assert !(i < m.value) && !(m.value < i);
  }

  /** `"; ".join(reasons)`, or "No rule violations" for no reasons. */
  function ReasonsText(reasons: seq<string>): (text: string)
    ensures reasons == [] ==> text == "No rule violations"
    ensures |reasons| == 1 ==> text == reasons[0]
  {
    if reasons == [] then "No rule violations" else Join(reasons, "; ")
  }

  /** Every reason appears in the stored text, and no reasons at all give the
      fixed "No rule violations". */
  lemma ReasonsTextMentionsEach(reasons: seq<string>)
    ensures reasons == [] ==> ReasonsText(reasons) == "No rule violations"
    ensures forall i :: 0 <= i < |reasons| ==> Contains(ReasonsText(reasons), reasons[i])
  {
    forall i | 0 <= i < |reasons|
      ensures Contains(ReasonsText(reasons), reasons[i])
    {
      JoinContainsEach(reasons, "; ", i);
    }
  }

  lemma NotionalKeyBeforePlaceholder()
    ensures Split("Notional {val} > {thr}", '{')[0] == "Notional "
  {
    assert "Notional {val} > {thr}" == "Notional " + ['{'] + "val} > {thr}";
    SplitAtFirstSeparator("Notional ", '{', "val} > {thr}");
  }

  lemma NotionalKeyStripped()
    ensures Strip("Notional ") == "Notional"
  {
    var s := "Notional ";
    assert !IsSpace(s[0]);
    assert StripLeft(s) == s;
    assert IsSpace(s[|s| - 1]) && s[..|s| - 1] == "Notional";
    assert StripRight("Notional")[..] == "Notional";
  }

  lemma NotionalKeyPrefix()
    ensures KeyPrefix("Notional {val} > {thr}") == "Notional"
  {
    NotionalKeyBeforePlaceholder();
    NotionalKeyStripped();
  }

  /** A key without a placeholder or surrounding blanks is its own prefix. */
  lemma PlainKeyPrefix(key: string)
    requires '{' !in key && key != [] && !IsSpace(key[0]) && !IsSpace(key[|key| - 1])
    ensures KeyPrefix(key) == key
  {
    SplitWithoutSeparator(key, '{');
  }

  lemma CountryKeyPrefix()
    ensures KeyPrefix(TranslationTable[1].0) == "Country in blacklist"
  {
    var k := TranslationTable[1].0;
    assert k == "Country in blacklist";
    PlainKeyPrefix(k);
  }

  lemma KycKeyPrefix()
    ensures KeyPrefix(TranslationTable[2].0) == "KYC missing"
  {
    var k := TranslationTable[2].0;
    assert k == "KYC missing";
    PlainKeyPrefix(k);
  }

  lemma AmlKeyPrefix()
    ensures KeyPrefix(TranslationTable[3].0) == "AML flag present"
  {
    var k := TranslationTable[3].0;
    assert k == "AML flag present";
    PlainKeyPrefix(k);
  }

  lemma SanctionsKeyPrefix()
    ensures KeyPrefix(TranslationTable[4].0) == "Sanctions name match"
  {
    var k := TranslationTable[4].0;
    assert k == "Sanctions name match";
    PlainKeyPrefix(k);
  }

  /** The prefixes the table's keys reduce to. */
  lemma KeyPrefixes()
    ensures KeyPrefix(TranslationTable[0].0) == "Notional"
    ensures KeyPrefix(TranslationTable[1].0) == "Country in blacklist"
    ensures KeyPrefix(TranslationTable[2].0) == "KYC missing"
    ensures KeyPrefix(TranslationTable[3].0) == "AML flag present"
    ensures KeyPrefix(TranslationTable[4].0) == "Sanctions name match"
  {
    assert TranslationTable[0].0 == "Notional {val} > {thr}";
    NotionalKeyPrefix();
    CountryKeyPrefix();
    KycKeyPrefix();
    AmlKeyPrefix();
    SanctionsKeyPrefix();
  }

  lemma PrefixedMatches(table: seq<(string, string)>, target: seq<(string, string)>)
    requires |table| == |target|
    requires forall i :: 0 <= i < |table| ==> KeyPrefix(table[i].0) == target[i].0 && table[i].1 == target[i].1
    ensures Prefixed(table) == target
  {
  }

  /** The precomputed prefixes are the ones `k.split("{")[0].strip()` gives. */
  lemma PrefixTableIsPrefixed()
    ensures Prefixed(TranslationTable) == PrefixTable
  {
    var t, p := TranslationTable, PrefixTable;
    KeyPrefixes();
    assert KeyPrefix(t[0].0) == p[0].0 && t[0].1 == p[0].1;
    assert KeyPrefix(t[1].0) == p[1].0 && t[1].1 == p[1].1;
    assert KeyPrefix(t[2].0) == p[2].0 && t[2].1 == p[2].1;
    assert KeyPrefix(t[3].0) == p[3].0 && t[3].1 == p[3].1;
    assert KeyPrefix(t[4].0) == p[4].0 && t[4].1 == p[4].1;
    forall i | 0 <= i < |t|
      ensures KeyPrefix(t[i].0) == p[i].0 && t[i].1 == p[i].1
    {
      assert i == 0 || i == 1 || i == 2 || i == 3 || i == 4;
    }
    PrefixedMatches(t, p);
  }

  /** So `TranslateOne` translates by the source's own table. */
  lemma TranslateOneByTable(reason: string)
    ensures TranslateOne(reason) == TranslateBy(TranslationTable, reason)
  {
    PrefixTableIsPrefixed();
  }

  /** A reason that none of the five prefixes starts passes through. */
  lemma PassesThrough(reason: string)
    requires !IsPrefix("Notional", reason) && !IsPrefix("Country in blacklist", reason)
    requires !IsPrefix("KYC missing", reason) && !IsPrefix("AML flag present", reason)
    requires !IsPrefix("Sanctions name match", reason)
    ensures TranslateOne(reason) == reason
  {
    var t := PrefixTable;
    forall j | 0 <= j < |t|
      ensures !IsPrefix(t[j].0, reason)
    {
      assert j == 0 || j == 1 || j == 2 || j == 3 || j == 4;
    }
  }

  /** Any text starting with "Notional" becomes the limit phrase. */
  lemma NotionalTranslated(reason: string)
    requires IsPrefix("Notional", reason)
    ensures TranslateOne(reason) == "Deal is bigger than our limit"
  {
    assert FirstMatch(reason, PrefixTable, 0) == Some(0);
  }

  lemma CountryReasonKept(country: string)
    ensures TranslateOne(CountryReason(country)) == CountryReason(country)
  {
    var r := CountryReason(country);
    assert r[0] == 'B';
    PassesThrough(r);
  }

  lemma KycReasonKept()
    ensures TranslateOne(KycReason) == KycReason
  {
    assert KycReason[0] == 'K' && KycReason[4] == 'n';
    PassesThrough(KycReason);
  }

  lemma AmlReasonKept()
    ensures TranslateOne(AmlReason) == AmlReason
  {
    assert AmlReason[0] == 'A' && AmlReason[4] == 's';
    PassesThrough(AmlReason);
  }

  lemma SanctionsReasonKept()
    ensures TranslateOne(SanctionsReason) == SanctionsReason
  {
    assert SanctionsReason[0] == 'C' && SanctionsReason[5] == 'e';
    PassesThrough(SanctionsReason);
  }

  /** What becomes of each reason the rule engine emits: only the notional
      reason matches a key ("Notional"); the country, KYC, AML and sanctions
      reasons match none of the keys and pass through unchanged. */
  lemma EngineReasonTranslation(h: Hit)
    ensures TranslateOne(Reason(h)) ==
      if h.NotionalHit? then "Deal is bigger than our limit" else Reason(h)
  {
    match h
    case NotionalHit(n, l) =>
      var r := Reason(h);
      assert r == "Notional" + (" " + n.repr + " > " + l.repr);
      NotionalTranslated(r);
    case CountryHit(c) =>
      CountryReasonKept(c);
    case KycHit =>
      KycReasonKept();
    case AmlHit =>
      AmlReasonKept();
    case SanctionsHit =>
      SanctionsReasonKept();
  }

  /** The worked example's reasons: only the notional one is rephrased. */
  lemma ExampleTranslations()
    ensures TranslateOne("Notional 250000.0 > 100000.0") == "Deal is bigger than our limit"
    ensures TranslateOne("Blacklisted country: RU") == "Blacklisted country: RU"
    ensures TranslateOne("KYC not verified") == "KYC not verified"
    ensures TranslateOne("AML system flagged") == "AML system flagged"
    ensures TranslateOne("Counterparty on sanctions list") == "Counterparty on sanctions list"
  {
    var n := "Notional 250000.0 > 100000.0";
    assert n == "Notional" + " 250000.0 > 100000.0";
    NotionalTranslated(n);
    var c := "Blacklisted country: RU";
    assert c == CountryReason("RU");
    EngineReasonTranslation(CountryHit("RU"));
    EngineReasonTranslation(KycHit);
    EngineReasonTranslation(AmlHit);
    EngineReasonTranslation(SanctionsHit);
  }
}
