/** The Ollama agent family (agents/ollama_agent.py): the loose consensus
    profile, the three scoring helpers of OllamaFinancialAgent and the
    metadata OllamaTripleAgentSystem wraps around the audit. The model
    call is not part of this model. */
module OllamaAgent {
  import opened Wrappers
  import opened Text
  import opened Json
  import opened Utils
  import opened CalculationTools
  import opened BaseAgent
  import opened AgentFamily
  import Consensus
  import Sys = BaseTripleAgentSystem

  // ---------------------------------------------------------------------
  // _validate_consensus

  /** Tolerance max(|base * 0.001|, 5.0); discrepancies do not record it. */
  const LooseProfile: Consensus.Profile := Consensus.Profile(0.001, 5.0, false)

  /** The agents _create_agents makes. */
  const AgentIds: seq<string> := ["agent_1", "agent_2", "agent_3"]

  /** _validate_consensus of the Ollama family. */
  method ValidateConsensus(results: seq<AgentResult>) returns (c: ConsensusResult)
    requires |results| > 0 && Consensus.DistinctIds(results)
    ensures c == Consensus.ConsensusOf(LooseProfile, results)
  {
    c := Consensus.ValidateConsensus(LooseProfile, results);
  }

  /** The tolerance is a tenth of a percent of the baseline, and at least
      5. */
  lemma LooseTolerance(base: real)
    ensures Consensus.Tolerance(LooseProfile, base) == if Abs(base) >= 5000.0 then Abs(base) / 1000.0 else 5.0
  {
    assert Abs(base * 0.001) == Abs(base) / 1000.0;
  }

  /** Below a baseline of 5000 any two figures within 5 agree: 1000 and
      1004.5 do, 1000 and 1005.5 do not. */
  lemma LooseToleranceExample()
    ensures Consensus.Tolerance(LooseProfile, 1000.0) == 5.0
    ensures Consensus.Disagreeing([AgentValue("agent_2", 1004.5)], 1000.0, 5.0) == []
    ensures Consensus.Disagreeing([AgentValue("agent_2", 1005.5)], 1000.0, 5.0) == ["agent_2"]
  {
    LooseTolerance(1000.0);
    var one := [AgentValue("agent_2", 1004.5)];
    assert one[..0] == [];
    var other := [AgentValue("agent_2", 1005.5)];
    assert other[..0] == [];
  }

  // ---------------------------------------------------------------------
  // _simulate_tool_calculations

  /** The regular expressions, each an alternation of literal words. */
  const CalculationPatterns: seq<seq<string>> := [
    ["total", "sum", "jumlah", "subtotal"],
    ["aset", "asset", "liabilitas", "ekuitas"],
    ["nilai", "value", "amount"],
    ["perhitungan", "calculation", "compute"],
    ["balance", "seimbang", "equation"]]

  predicate NonEmptyWords(patterns: seq<seq<string>>)
  {
    forall i, a :: 0 <= i < |patterns| && a in patterns[i] ==> |a| > 0
  }

  /** len(re.findall(pattern, s)) for each pattern, added up. */
  function PatternHits(s: string, patterns: seq<seq<string>>): nat
    requires NonEmptyWords(patterns)
  {
    if patterns == [] then 0
    else PatternHits(s, patterns[..|patterns| - 1]) + CountAlternation(s, patterns[|patterns| - 1])
  }

  /** One more pattern of the loop adds its own matches. */
  lemma PatternHitsNext(s: string, patterns: seq<seq<string>>, i: nat)
    requires NonEmptyWords(patterns) && i < |patterns|
    ensures NonEmptyWords(patterns[..i]) && NonEmptyWords(patterns[..i + 1])
    ensures PatternHits(s, patterns[..i + 1]) == PatternHits(s, patterns[..i]) + CountAlternation(s, patterns[i])
  {
    assert patterns[..i + 1][..i] == patterns[..i];
    forall k | 0 <= k < i + 1
      ensures patterns[..i + 1][k] == patterns[k]
    {
    }
  }

  /** Each pattern matches at most once per character. */
  lemma {:induction false} PatternHitsBound(s: string, patterns: seq<seq<string>>)
    requires NonEmptyWords(patterns)
    ensures PatternHits(s, patterns) <= |patterns| * |s|
    decreases |patterns|
  {
    if patterns != [] {
      var init := patterns[..|patterns| - 1];
      assert NonEmptyWords(init) by {
        forall i, a | 0 <= i < |init| && a in init[i]
          ensures |a| > 0
        {
          assert init[i] == patterns[i];
        }
      }
      PatternHitsBound(s, init);
      MulStep(|init|, |s|);
    }
  }

  /** What _simulate_tool_calculations returns: the pattern matches plus
      one per three numbers (at most 12), raised to 6 and capped at 25. */
  function SimulatedToolCalls(response: string): (r: int)
    ensures 6 <= r <= 25
  {
    assert NonEmptyWords(CalculationPatterns);
    var calls := PatternHits(Lower(response), CalculationPatterns) + Min(DigitRuns(response) / 3, 12);
    Min(Max(calls, 6), 25)
  }

  /** Between the floor and the cap the count is exact: a response whose
      patterns match 6 to 25 times in all, with fewer than three numbers,
      counts exactly those matches. */
  lemma SimulatedExact(response: string)
    requires NonEmptyWords(CalculationPatterns)
    requires 6 <= PatternHits(Lower(response), CalculationPatterns) <= 25 && DigitRuns(response) < 3
    ensures SimulatedToolCalls(response) == PatternHits(Lower(response), CalculationPatterns)
  {
  }

  /** A response of at most one character matches no pattern and counts
      the floor of 6. */
  lemma SimulatedFloor(response: string)
    requires |response| <= 1
    ensures SimulatedToolCalls(response) == 6
  {
    assert NonEmptyWords(CalculationPatterns);
    PatternHitsBound(Lower(response), CalculationPatterns);
  }

  /** _simulate_tool_calculations: the pattern loop, then the numbers. */
  method SimulateToolCalculations(response: string) returns (toolCalls: int)
    ensures toolCalls == SimulatedToolCalls(response)
  {
    assert NonEmptyWords(CalculationPatterns);
    var responseLower := Lower(response);
    toolCalls := 0;
    var i := 0;
    while i < |CalculationPatterns|
      invariant 0 <= i <= |CalculationPatterns|
      invariant NonEmptyWords(CalculationPatterns[..i])
      invariant toolCalls == PatternHits(responseLower, CalculationPatterns[..i])
    {
      PatternHitsNext(responseLower, CalculationPatterns, i);
      toolCalls := toolCalls + CountAlternation(responseLower, CalculationPatterns[i]);
      i := i + 1;
    }
    assert CalculationPatterns[..i] == CalculationPatterns;
    toolCalls := toolCalls + Min(DigitRuns(response) / 3, 12);
    toolCalls := Max(toolCalls, 6);
    toolCalls := Min(toolCalls, 25);
  }

  // ---------------------------------------------------------------------
  // _calculate_validation_score

  /** numerical_fields: one for each nilai_tercatat and each
      nilai_perhitungan among the dictionary values of the assets. */
  function NumericalFields(aset: seq<Field>): (r: nat)
    ensures r <= 2 * |aset|
  {
    if aset == [] then 0
    else
      var item := aset[|aset| - 1].value;
      NumericalFields(aset[..|aset| - 1])
      + (if item.JObj? && "nilai_tercatat" in Keys(item.fields) then 1 else 0)
      + (if item.JObj? && "nilai_perhitungan" in Keys(item.fields) then 1 else 0)
  }

  /** min(numerical_fields * 2, 15) */
  function NumericalBonus(aset: seq<Field>): (r: real)
    ensures 0.0 <= r <= 15.0
  {
    Min(NumericalFields(aset) * 2, 15) as real
  }

  /** An asset item recording a figure is counted. */
  lemma {:induction false} RecordedItemCounted(aset: seq<Field>)
    requires HasRecordedItem(aset)
    ensures NumericalFields(aset) >= 1
    decreases |aset|
  {
    var last := aset[|aset| - 1].value;
    if !(last.JObj? && "nilai_tercatat" in Keys(last.fields)) {
      var init := aset[..|aset| - 1];
      var i :| 0 <= i < |aset| && aset[i].value.JObj? && "nilai_tercatat" in Keys(aset[i].value.fields);
      assert init[i] == aset[i];
      RecordedItemCounted(init);
    }
  }

  /** The points for laporan_posisi_keuangan's content; None where a
      membership test or a subscript raises. */
  function PositionScore(posisi: Json): (r: Option<real>)
    ensures r.Some? ==> 0.0 <= r.value <= 45.0
  {
    match PyIn("aset", posisi)
    case None => None
    case Some(hasAset) =>
      var balancing := if PyIn("balancing", posisi) == Some(true) then 10.0 else 0.0;
      if !hasAset then Some(balancing)
      else
        match Lookup(posisi, "aset")
        case Present(aset) => Some((if aset.JObj? then 20.0 + NumericalBonus(aset.fields) else 0.0) + balancing)
        case _ => None
  }

  /** _calculate_validation_score; None where it raises. */
  function ValidationScore(data: Json): (r: Option<real>)
    ensures r.Some? ==> 0.0 <= r.value <= 100.0
  {
    var nonEmpty := if data.JObj? && data.fields != [] then 25.0 else 0.0;
    var structure := if ValidateFinancialDataStructure(data) then 30.0 else 0.0;
    match PyIn("laporan_posisi_keuangan", data)
    case None => None
    case Some(false) => Some(nonEmpty + structure)
    case Some(true) =>
      match Lookup(data, "laporan_posisi_keuangan")
      case Present(posisi) =>
        (match PositionScore(posisi)
         case Some(s) => Some(if nonEmpty + structure + s <= 100.0 then nonEmpty + structure + s else 100.0)
         case None => None)
      case _ => None
  }

  /** A dictionary passing the structure check is scored without raising
      and gets at least 77: 25 for a non-empty dictionary, 30 for the
      structure, 20 for the assets and 2 for the recorded figure. */
  lemma {:induction false} StructuredScore(data: Json)
    requires ValidateFinancialDataStructure(data)
    ensures ValidationScore(data).Some? && ValidationScore(data).value >= 77.0
  {
    var posisi := Get(data.fields, "laporan_posisi_keuangan").value;
    assert Lookup(data, "laporan_posisi_keuangan") == Present(posisi);
    var aset := Get(posisi.fields, "aset").value;
    assert Lookup(posisi, "aset") == Present(aset);
    RecordedItemCounted(aset.fields);
  }

  // ---------------------------------------------------------------------
  // _calculate_confidence

  /** _calculate_confidence: 0.75 of the score, a tool bonus of 0.8 per
      call up to 15, 10 for the structure, minus 20 for 'error' and 10 for
      'tidak seimbang' in json.dumps(data, ensure_ascii=False).lower(). The
      except branch is not modelled: a Json value always serialises. */
  function Confidence(data: Json, validationScore: real, toolCalls: int): (r: real)
    ensures 0.0 <= r <= 100.0
  {
    var toolBonus := if toolCalls as real * 0.8 <= 15.0 then toolCalls as real * 0.8 else 15.0;
    var base := validationScore * 0.75 + toolBonus + if ValidateFinancialDataStructure(data) then 10.0 else 0.0;
    var afterError := if Mentions(data, "error", false) then base - 20.0 else base;
    ClampPercent(if Mentions(data, "tidak seimbang", false) then afterError - 10.0 else afterError)
  }

  /** A better validation score or more tool calls never lower the
      confidence. */
  lemma ConfidenceMonotone(data: Json, s: real, t: real, calls: int, more: int)
    requires s <= t && calls <= more
    ensures Confidence(data, s, calls) <= Confidence(data, t, more)
  {
    var bonus := if ValidateFinancialDataStructure(data) then 10.0 else 0.0;
    var pen := (if Mentions(data, "error", false) then 20.0 else 0.0)
             + (if Mentions(data, "tidak seimbang", false) then 10.0 else 0.0);
    var low := if calls as real * 0.8 <= 15.0 then calls as real * 0.8 else 15.0;
    var high := if more as real * 0.8 <= 15.0 then more as real * 0.8 else 15.0;
    ClampMonotone(s * 0.75 + low + bonus - pen, t * 0.75 + high + bonus - pen);
  }

  /** For a score in [0, 100] and a non-negative call count the clamp
      never cuts from above: without penalties the confidence is the plain
      sum, and the two penalties together take away up to 30. */
  lemma ConfidenceOfScore(data: Json, s: real, calls: nat)
    requires 0.0 <= s <= 100.0
    ensures var sum := s * 0.75 + (if calls as real * 0.8 <= 15.0 then calls as real * 0.8 else 15.0)
                     + (if ValidateFinancialDataStructure(data) then 10.0 else 0.0);
      && sum <= 100.0
      && (!Mentions(data, "error", false) && !Mentions(data, "tidak seimbang", false) ==> Confidence(data, s, calls) == sum)
      && (Mentions(data, "error", false) && Mentions(data, "tidak seimbang", false) ==>
            Confidence(data, s, calls) == if sum >= 30.0 then sum - 30.0 else 0.0)
  {
  }

  // ---------------------------------------------------------------------
  // OllamaTripleAgentSystem: the final audit result

  const MetadataKey: string := "_ollama_triple_agent_metadata"

  /** _create_final_audit_result; the model name, the server address and
      the timestamp are parameters. */
  function FinalAuditResult(modelName: string, baseUrl: string, audit: Sys.Audit, timestamp: string): (j: Json)
    ensures At(j, ["audit_footing_laporan_keuangan"]) == Some(JObj(audit.results))
    ensures At(j, [MetadataKey, "consensus_quality"]) == Some(JStr(ConsensusQuality(audit.totalRetries)))
    ensures At(j, [MetadataKey, "total_retries"]) == Some(JNum(audit.totalRetries as real))
  {
    var metadata := [
      Field("model_used", JStr(modelName)),
      Field("provider", JStr("ollama")),
      Field("base_url", JStr(baseUrl)),
      Field("consensus_quality", JStr(ConsensusQuality(audit.totalRetries))),
      Field("total_retries", JNum(audit.totalRetries as real)),
      Field("retry_log", JArr(Sys.RetryLogJson(audit.retryLog))),
      Field("mathematical_precision", JStr("High (Local model verified)")),
      Field("audit_timestamp", JStr(timestamp)),
      Field("system_type", JStr("Ollama Triple Agent"))];
    var j := JObj([Field("audit_footing_laporan_keuangan", JObj(audit.results)), Field(MetadataKey, JObj(metadata))]);
    MetadataPaths(j, metadata);
    j
  }

  lemma MetadataPaths(j: Json, metadata: seq<Field>)
    requires |metadata| >= 5 && metadata[0].key == "model_used" && metadata[1].key == "provider"
    requires metadata[2].key == "base_url" && metadata[3].key == "consensus_quality" && metadata[4].key == "total_retries"
    requires j.JObj? && |j.fields| == 2 && j.fields[0].key == "audit_footing_laporan_keuangan"
    requires j.fields[1] == Field(MetadataKey, JObj(metadata))
    ensures At(j, ["audit_footing_laporan_keuangan"]) == Some(j.fields[0].value)
    ensures At(j, [MetadataKey, "consensus_quality"]) == Some(metadata[3].value)
    ensures At(j, [MetadataKey, "total_retries"]) == Some(metadata[4].value)
  {
    assert j.fields[0].key[0] != j.fields[1].key[0];
    forall k | 0 <= k < 3
      ensures metadata[k].key != metadata[3].key
    {
      assert metadata[k].key[0] != metadata[3].key[0];
    }
    forall k | 0 <= k < 4
      ensures metadata[k].key != metadata[4].key
    {
      assert metadata[k].key[0] != metadata[4].key[0];
    }
    GetAt(j.fields, 0);
    GetAt(j.fields, 1);
    GetAt(metadata, 3);
    GetAt(metadata, 4);
    var top := "audit_footing_laporan_keuangan";
    StepDown(j, top, j.fields[0].value, []);
    assert [top] + [] == [top];
    StepDown(j, MetadataKey, JObj(metadata), ["consensus_quality"]);
    StepDown(JObj(metadata), "consensus_quality", metadata[3].value, []);
    assert [MetadataKey] + ["consensus_quality"] == [MetadataKey, "consensus_quality"];
    assert ["consensus_quality"] + [] == ["consensus_quality"];
    StepDown(j, MetadataKey, JObj(metadata), ["total_retries"]);
    StepDown(JObj(metadata), "total_retries", metadata[4].value, []);
    assert [MetadataKey] + ["total_retries"] == [MetadataKey, "total_retries"];
    assert ["total_retries"] + [] == ["total_retries"];
  }

  /** What process_financial_statements returns for the Ollama family:
      the final wrapping of the audit, None where an exception escapes. */
  function AuditResult(modelName: string, baseUrl: string, maxRetries: int, statements: seq<Sys.Statement>,
                       company: string, timestamp: string): Option<Json>
  {
    match Sys.AuditOf(LooseProfile, AgentIds, maxRetries, statements, company)
    case Some(audit) => Some(FinalAuditResult(modelName, baseUrl, audit, timestamp))
    case None => None
  }

  /** process_financial_statements of OllamaTripleAgentSystem. */
  method ProcessStatements(calculator: FinancialCalculator, modelName: string, baseUrl: string, maxRetries: int,
                           statements: seq<Sys.Statement>, company: string, timestamp: string)
    returns (r: Option<Json>)
    modifies calculator
    ensures r == AuditResult(modelName, baseUrl, maxRetries, statements, company, timestamp)
  {
    var audit := Sys.ProcessFinancialStatements(calculator, LooseProfile, AgentIds, maxRetries, statements, company);
    r := if audit.Some? then Some(FinalAuditResult(modelName, baseUrl, audit.value, timestamp)) else None;
  }

  /** Every Ollama audit succeeds and reports "Perfect" consensus with no
      retries. */
  lemma AlwaysPerfect(modelName: string, baseUrl: string, maxRetries: int, statements: seq<Sys.Statement>,
                      company: string, timestamp: string)
    ensures var r := AuditResult(modelName, baseUrl, maxRetries, statements, company, timestamp);
      && r.Some?
      && At(r.value, [MetadataKey, "consensus_quality"]) == Some(JStr("Perfect"))
      && At(r.value, [MetadataKey, "total_retries"]) == Some(JNum(0.0))
  {
    Sys.AuditWithoutRetries(LooseProfile, AgentIds, maxRetries, statements, company);
  }
}
