/** The Gemini agent family (agents/gemini_agent.py): the strict consensus
    profile, the three scoring helpers of GeminiFinancialAgent and the
    metadata GeminiTripleAgentSystem wraps around the audit. The model
    call is not part of this model. */
module GeminiAgent {
  import opened Wrappers
  import opened Text
  import opened Json
  import opened Utils
  import opened CalculationTools
  import opened BaseAgent
  import opened AgentFamily
  import Consensus
  import Sys = BaseTripleAgentSystem

  // ---------------------------------------------------------------------
  // _validate_consensus

  /** Tolerance max(|base * 0.0001|, 1.0); discrepancies record it. */
  const StrictProfile: Consensus.Profile := Consensus.Profile(0.0001, 1.0, true)

  /** The agents _create_agents makes. */
  const AgentIds: seq<string> := ["agent_1", "agent_2", "agent_3"]

  /** _validate_consensus of the Gemini family. */
  method ValidateConsensus(results: seq<AgentResult>) returns (c: ConsensusResult)
    requires |results| > 0 && Consensus.DistinctIds(results)
    ensures c == Consensus.ConsensusOf(StrictProfile, results)
  {
    c := Consensus.ValidateConsensus(StrictProfile, results);
  }

  /** The tolerance is one hundredth of a percent of the baseline, and at
      least 1. */
  lemma StrictTolerance(base: real)
    ensures Consensus.Tolerance(StrictProfile, base) == if Abs(base) >= 10000.0 then Abs(base) / 10000.0 else 1.0
  {
    assert Abs(base * 0.0001) == Abs(base) / 10000.0;
  }

  /** A baseline of 1,000,000 gives tolerance 100, so 1,000,050 agrees with
      it while 1,000,101 does not. */
  lemma StrictToleranceExample()
    ensures Consensus.Tolerance(StrictProfile, 1000000.0) == 100.0
    ensures Consensus.Disagreeing([AgentValue("agent_2", 1000050.0)], 1000000.0, 100.0) == []
    ensures Consensus.Disagreeing([AgentValue("agent_2", 1000101.0)], 1000000.0, 100.0) == ["agent_2"]
  {
    StrictTolerance(1000000.0);
    var one := [AgentValue("agent_2", 1000050.0)];
    assert one[..0] == [];
    var other := [AgentValue("agent_2", 1000101.0)];
    assert other[..0] == [];
  }

  // ---------------------------------------------------------------------
  // _count_implied_calculations

  const CalculationKeywords: seq<string> :=
    ["total", "sum", "jumlah", "subtotal", "balance", "calculation", "perhitungan"]

  /** The occurrences of each keyword, added up. */
  function KeywordHits(s: string, keywords: seq<string>): nat
    requires forall k :: k in keywords ==> |k| > 0
  {
    if keywords == [] then 0
    else KeywordHits(s, keywords[..|keywords| - 1]) + Count(s, keywords[|keywords| - 1])
  }

  /** Every keyword occurs at most once per character. */
  lemma {:induction false} KeywordHitsBound(s: string, keywords: seq<string>)
    requires forall k :: k in keywords ==> |k| > 0
    ensures KeywordHits(s, keywords) <= |keywords| * |s|
    decreases |keywords|
  {
    if keywords != [] {
      var init := keywords[..|keywords| - 1];
      assert forall k :: k in init ==> k in keywords;
      KeywordHitsBound(s, init);
      var last := keywords[|keywords| - 1];
      CountAtMostLength(s, last);
      MulStep(|init|, |s|);
    }
  }

  lemma CountAtMostLength(s: string, p: string)
    requires |p| > 0
    ensures Count(s, p) <= |s|
  {
    var c := Count(s, p);
    assert c * |p| == c + c * (|p| - 1);
  }

  /** What _count_implied_calculations returns. */
  function ImpliedCalculations(response: string): (r: nat)
    ensures r >= 3
  {
    var count := KeywordHits(Lower(response), CalculationKeywords) + Min(DigitRuns(response) / 4, 10);
    if count >= 3 then count else 3
  }

  /** At least 3 and, beyond that, at most seven keyword hits per character
      and ten from the numbers. */
  lemma ImpliedCalculationsBound(response: string)
    ensures 3 <= ImpliedCalculations(response) <= 7 * |response| + 13
  {
    KeywordHitsBound(Lower(response), CalculationKeywords);
  }

  /** A response with no digit and no keyword counts the minimum of 3. */
  lemma ImpliedCalculationsFloor(response: string)
    requires KeywordHits(Lower(response), CalculationKeywords) == 0 && DigitRuns(response) < 4
    ensures ImpliedCalculations(response) == 3
  {
  }

  /** _count_implied_calculations: the keyword loop, then the numbers. */
  method CountImpliedCalculations(response: string) returns (count: nat)
    ensures count == ImpliedCalculations(response)
  {
    var responseLower := Lower(response);
    count := 0;
    var i := 0;
    while i < |CalculationKeywords|
      invariant 0 <= i <= |CalculationKeywords|
      invariant count == KeywordHits(responseLower, CalculationKeywords[..i])
    {
      assert CalculationKeywords[..i + 1][..i] == CalculationKeywords[..i];
      count := count + Count(responseLower, CalculationKeywords[i]);
      i := i + 1;
    }
    assert CalculationKeywords[..i] == CalculationKeywords;
    count := count + Min(DigitRuns(response) / 4, 10);
    if count < 3 {
      count := 3;
    }
  }

  // ---------------------------------------------------------------------
  // _calculate_validation_score

  /** Some dictionary value of the assets has a detail_perhitungan entry. */
  predicate HasDetail(aset: seq<Field>)
  {
    exists i :: 0 <= i < |aset| && aset[i].value.JObj? && "detail_perhitungan" in Keys(aset[i].value.fields)
  }

  /** `x == 0` in Python holds for 0, 0.0 and False. */
  predicate EqualsZero(x: Json)
  {
    x == JNum(0.0) || x == JBool(false)
  }

  /** Some dictionary value of the assets has a selisih equal to 0. */
  predicate HasZeroDifference(aset: seq<Field>)
  {
    exists i :: 0 <= i < |aset| && aset[i].value.JObj? && ZeroSelisih(aset[i].value.fields)
  }

  predicate ZeroSelisih(item: seq<Field>)
  {
    match Get(item, "selisih")
    case Some(x) => EqualsZero(x)
    case None => false
  }

  /** The two any(...) checks over aset.values(); None where aset has no
      values() (it is not a dictionary). */
  function AssetScore(aset: Json): (r: Option<real>)
    ensures r.Some? <==> aset.JObj?
    ensures r.Some? ==> 0.0 <= r.value <= 25.0
  {
    match aset
    case JObj(items) =>
      Some((if HasDetail(items) then 15.0 else 0.0) + (if HasZeroDifference(items) then 10.0 else 0.0))
    case _ => None
  }

  /** The points for laporan_posisi_keuangan's content; None where a
      membership test or a subscript raises. */
  function PositionScore(posisi: Json): (r: Option<real>)
    ensures r.Some? ==> 0.0 <= r.value <= 60.0
  {
    match PyIn("aset", posisi)
    case None => None
    case Some(hasAset) =>
      var balancing := if PyIn("balancing", posisi) == Some(true) then 10.0 else 0.0;
      if !hasAset then Some(balancing)
      else
        match Lookup(posisi, "aset")
        case Present(aset) =>
          (match AssetScore(aset)
           case Some(s) => Some(25.0 + s + balancing)
           case None => None)
        case _ => None
  }

  /** _calculate_validation_score; None where it raises. */
  function ValidationScore(data: Json): (r: Option<real>)
    ensures r.Some? ==> 0.0 <= r.value <= 100.0
  {
    var structure := if ValidateFinancialDataStructure(data) then 40.0 else 0.0;
    match PyIn("laporan_posisi_keuangan", data)
    case None => None
    case Some(false) => Some(structure)
    case Some(true) =>
      match Lookup(data, "laporan_posisi_keuangan")
      case Present(posisi) =>
        (match PositionScore(posisi)
         case Some(s) => Some(if structure + s <= 100.0 then structure + s else 100.0)
         case None => None)
      case _ => None
  }

  /** A dictionary passing the structure check is scored without raising
      and gets at least 65: 40 for the structure and 25 for the assets. */
  lemma StructuredScore(data: Json)
    requires ValidateFinancialDataStructure(data)
    ensures ValidationScore(data).Some? && ValidationScore(data).value >= 65.0
  {
    var posisi := Get(data.fields, "laporan_posisi_keuangan").value;
    assert Lookup(data, "laporan_posisi_keuangan") == Present(posisi);
    assert Lookup(posisi, "aset") == Present(Get(posisi.fields, "aset").value);
  }

  /** The full 100 is scored exactly when the structure check passes, some
      asset has a calculation detail and some asset a zero difference, and
      the position records its balancing. */
  lemma FullScore(data: Json)
    ensures ValidationScore(data) == Some(100.0) <==>
      && ValidateFinancialDataStructure(data)
      && HasDetail(Get(Get(data.fields, "laporan_posisi_keuangan").value.fields, "aset").value.fields)
      && HasZeroDifference(Get(Get(data.fields, "laporan_posisi_keuangan").value.fields, "aset").value.fields)
      && "balancing" in Keys(Get(data.fields, "laporan_posisi_keuangan").value.fields)
  {
    if ValidateFinancialDataStructure(data) {
      StructuredScore(data);
    } else if ValidationScore(data).Some? {
      NoStructureScore(data);
    }
  }

  /** Without the structure check the score stays at 60 or below. */
  lemma NoStructureScore(data: Json)
    requires !ValidateFinancialDataStructure(data) && ValidationScore(data).Some?
    ensures ValidationScore(data).value <= 60.0
  {
  }

  // ---------------------------------------------------------------------
  // _calculate_confidence

  /** 'error' or 'tidak seimbang' in json.dumps(data).lower(), with the
      default ensure_ascii. */
  predicate Penalised(data: Json)
  {
    Mentions(data, "error", true) || Mentions(data, "tidak seimbang", true)
  }

  /** _calculate_confidence. */
  function Confidence(data: Json, validationScore: real): (r: real)
    ensures 0.0 <= r <= 100.0
  {
    var base := validationScore * 0.8 + if ValidateFinancialDataStructure(data) then 10.0 else 0.0;
    ClampPercent(if Penalised(data) then base - 15.0 else base)
  }

  /** A better validation score never lowers the confidence. */
  lemma ConfidenceMonotone(data: Json, s: real, t: real)
    requires s <= t
    ensures Confidence(data, s) <= Confidence(data, t)
  {
    var bonus := if ValidateFinancialDataStructure(data) then 10.0 else 0.0;
    var pen := if Penalised(data) then 15.0 else 0.0;
    ClampMonotone(s * 0.8 + bonus - pen, t * 0.8 + bonus - pen);
  }

  /** For a score in [0, 100] the clamp never cuts from above: confidence
      is at most 90, is 0.8 times the score plus the structure bonus when
      unpenalised, and loses 15 (down to 0) when penalised. */
  lemma ConfidenceOfScore(data: Json, s: real)
    requires 0.0 <= s <= 100.0
    ensures var bonus := if ValidateFinancialDataStructure(data) then 10.0 else 0.0;
      && Confidence(data, s) <= 90.0
      && (!Penalised(data) ==> Confidence(data, s) == s * 0.8 + bonus)
      && (Penalised(data) ==> Confidence(data, s) == if s * 0.8 + bonus >= 15.0 then s * 0.8 + bonus - 15.0 else 0.0)
  {
  }

  // ---------------------------------------------------------------------
  // GeminiTripleAgentSystem: the final audit result

  const MetadataKey: string := "_gemini_triple_agent_metadata"

  /** _create_final_audit_result; the model name and the timestamp are
      parameters. */
  function FinalAuditResult(modelName: string, audit: Sys.Audit, timestamp: string): (j: Json)
    ensures At(j, ["audit_footing_laporan_keuangan"]) == Some(JObj(audit.results))
    ensures At(j, [MetadataKey, "consensus_quality"]) == Some(JStr(ConsensusQuality(audit.totalRetries)))
    ensures At(j, [MetadataKey, "total_retries"]) == Some(JNum(audit.totalRetries as real))
  {
    var metadata := [
      Field("model_used", JStr(modelName)),
      Field("provider", JStr("google_gemini")),
      Field("consensus_quality", JStr(ConsensusQuality(audit.totalRetries))),
      Field("total_retries", JNum(audit.totalRetries as real)),
      Field("retry_log", JArr(Sys.RetryLogJson(audit.retryLog))),
      Field("mathematical_precision", JStr("High (AI-verified)")),
      Field("audit_timestamp", JStr(timestamp)),
      Field("system_type", JStr("Gemini Triple Agent"))];
    var j := JObj([Field("audit_footing_laporan_keuangan", JObj(audit.results)), Field(MetadataKey, JObj(metadata))]);
    MetadataPaths(j, metadata);
    j
  }

  lemma MetadataPaths(j: Json, metadata: seq<Field>)
    requires |metadata| >= 4 && metadata[0].key == "model_used" && metadata[1].key == "provider"
    requires metadata[2].key == "consensus_quality" && metadata[3].key == "total_retries"
    requires j.JObj? && |j.fields| == 2 && j.fields[0].key == "audit_footing_laporan_keuangan"
    requires j.fields[1] == Field(MetadataKey, JObj(metadata))
    ensures At(j, ["audit_footing_laporan_keuangan"]) == Some(j.fields[0].value)
    ensures At(j, [MetadataKey, "consensus_quality"]) == Some(metadata[2].value)
    ensures At(j, [MetadataKey, "total_retries"]) == Some(metadata[3].value)
  {
    assert j.fields[0].key[0] != j.fields[1].key[0];
    forall k | 0 <= k < 2
      ensures metadata[k].key != metadata[2].key
    {
      assert metadata[k].key[0] != metadata[2].key[0];
    }
    forall k | 0 <= k < 3
      ensures metadata[k].key != metadata[3].key
    {
      assert metadata[k].key[0] != metadata[3].key[0];
    }
    GetAt(j.fields, 0);
    GetAt(j.fields, 1);
    GetAt(metadata, 2);
    GetAt(metadata, 3);
    var top := "audit_footing_laporan_keuangan";
    StepDown(j, top, j.fields[0].value, []);
    assert [top] + [] == [top];
    StepDown(j, MetadataKey, JObj(metadata), ["consensus_quality"]);
    StepDown(JObj(metadata), "consensus_quality", metadata[2].value, []);
    assert [MetadataKey] + ["consensus_quality"] == [MetadataKey, "consensus_quality"];
    assert ["consensus_quality"] + [] == ["consensus_quality"];
    StepDown(j, MetadataKey, JObj(metadata), ["total_retries"]);
    StepDown(JObj(metadata), "total_retries", metadata[3].value, []);
    assert [MetadataKey] + ["total_retries"] == [MetadataKey, "total_retries"];
    assert ["total_retries"] + [] == ["total_retries"];
  }

  /** What process_financial_statements returns for the Gemini family:
      the final wrapping of the audit, None where an exception escapes. */
  function AuditResult(modelName: string, maxRetries: int, statements: seq<Sys.Statement>, company: string,
                       timestamp: string): Option<Json>
  {
    match Sys.AuditOf(StrictProfile, AgentIds, maxRetries, statements, company)
    case Some(audit) => Some(FinalAuditResult(modelName, audit, timestamp))
    case None => None
  }

  /** process_financial_statements of GeminiTripleAgentSystem. */
  method ProcessStatements(calculator: FinancialCalculator, modelName: string, maxRetries: int,
                           statements: seq<Sys.Statement>, company: string, timestamp: string)
    returns (r: Option<Json>)
    modifies calculator
    ensures r == AuditResult(modelName, maxRetries, statements, company, timestamp)
  {
    var audit := Sys.ProcessFinancialStatements(calculator, StrictProfile, AgentIds, maxRetries, statements, company);
    r := if audit.Some? then Some(FinalAuditResult(modelName, audit.value, timestamp)) else None;
  }

  /** Every Gemini audit succeeds and reports "Perfect" consensus with no
      retries: the three agents run the same plan and cannot disagree. */
  lemma AlwaysPerfect(modelName: string, maxRetries: int, statements: seq<Sys.Statement>, company: string,
                      timestamp: string)
    ensures var r := AuditResult(modelName, maxRetries, statements, company, timestamp);
      && r.Some?
      && At(r.value, [MetadataKey, "consensus_quality"]) == Some(JStr("Perfect"))
      && At(r.value, [MetadataKey, "total_retries"]) == Some(JNum(0.0))
  {
    Sys.AuditWithoutRetries(StrictProfile, AgentIds, maxRetries, statements, company);
  }
}
