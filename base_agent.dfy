/** The agent pipeline of core/base_agent.py: one agent's run over a
    statement (plan, execute, assemble, validate, score) and the projection
    of a result onto the key figures the consensus check compares. */
module BaseAgent {
  import opened Wrappers
  import opened Text
  import opened Json
  import opened CalculationTools
  import opened ToolOrchestrator

  /** AgentResult; the processing time is not modelled. The calculation
      log field holds the filed tool results, as the source stores them. */
  datatype AgentResult = AgentResult(
    agentId: string, company: string, statementType: string, extractedData: Json,
    calculationLog: seq<Field>, validationScore: real, confidence: real,
    toolCallsMade: nat, errors: seq<string>, rawResponse: string)

  /** A number attributed to an agent: its confidence, or its value for a
      compared figure. */
  datatype AgentValue = AgentValue(agentId: string, value: real)

  /** One compared figure on which agents disagree; the tolerance is
      recorded by the strict profile only. */
  datatype Discrepancy = Discrepancy(
    key: string, baseValue: real, disagreeingAgents: seq<string>, values: seq<AgentValue>,
    toleranceUsed: Option<real>)

  /** ConsensusResult; the two optional verification fields are never set
      by the core and are not modelled. */
  datatype ConsensusResult = ConsensusResult(
    isConsensus: bool, agreedData: Json, discrepancies: seq<Discrepancy>, retryNeeded: bool,
    failingAgents: seq<string>, confidenceScores: seq<AgentValue>)

  // ---------------------------------------------------------------------
  // process_statement

  function RawResponse(toolCount: nat): string
  {
    "Tool-based calculation with " + NatToString(toolCount) + " tools"
  }

  /** What process_statement returns for an agent; None where an exception
      escaped (a store or a lookup that raised). Valid tool usage scores
      100 with confidence 95 and no error, anything else 0 and 10 with the
      validator's message as the one error. */
  function StatementResult(agentId: string, text: string, statementType: string, company: string)
    : (r: Option<AgentResult>)
    ensures r.Some? ==> r.value.toolCallsMade == |CreatePlan(text, statementType).requiredTools|
    ensures r.Some? ==> r.value.agentId == agentId && r.value.statementType == statementType
    ensures r.Some? ==> r.value.extractedData.JObj?
    ensures r.Some? ==> || (r.value.validationScore == 100.0 && r.value.confidence == 95.0 && r.value.errors == [])
                        || (r.value.validationScore == 0.0 && r.value.confidence == 10.0 && |r.value.errors| == 1)
  {
    var plan := CreatePlan(text, statementType);
    var run := Run(plan.requiredTools);
    match run.results
    case None => None
    case Some(toolResults) =>
      match CreateStandardizedJsonStructure(toolResults, statementType)
      case None => None
      case Some(extracted) =>
        var verdict := UsageVerdictOf(|run.log|, extracted, plan.totalToolCount);
        Some(AgentResult(agentId, company, statementType, extracted, toolResults,
                         if verdict.valid then 100.0 else 0.0, if verdict.valid then 95.0 else 10.0,
                         plan.totalToolCount, if verdict.valid then [] else [verdict.message],
                         RawResponse(plan.totalToolCount)))
  }

  /** process_statement on the shared calculator, whose log ends as the
      plan's run leaves it. */
  method ProcessStatement(calculator: FinancialCalculator, agentId: string, text: string,
                          statementType: string, company: string) returns (r: Option<AgentResult>)
    modifies calculator
    ensures r == StatementResult(agentId, text, statementType, company)
    ensures calculator.calculationLog == Run(CreatePlan(text, statementType).requiredTools).log
  {
    var plan := CreatePlan(text, statementType);
    var toolResults, succeeded := ExecuteMandatoryCalculations(calculator, plan);
    if toolResults.None? {
      return None;
    }
    var extracted := CreateStandardizedJsonStructure(toolResults.value, statementType);
    if extracted.None? {
      return None;
    }
    var valid, message := ValidateToolUsage(calculator, extracted.value, plan.totalToolCount);
    r := Some(AgentResult(agentId, company, statementType, extracted.value, toolResults.value,
                          if valid then 100.0 else 0.0, if valid then 95.0 else 10.0,
                          plan.totalToolCount, if valid then [] else [message],
                          RawResponse(plan.totalToolCount)));
  }

  /** Every section holds a dictionary. */
  ghost predicate Dictionaries(results: seq<Field>)
  {
    forall k :: Get(results, k).Some? ==> Get(results, k).value.JObj?
  }

  /** Every section of a recipe run's results is a dictionary. */
  lemma {:induction false} EntriesDictionaries(tools: seq<ToolExecution>, calls: seq<Call>, section: string)
    requires |calls| == |tools| && forall i :: 0 <= i < |tools| ==> TwoPart(tools[i])
    ensures Get(Entries(tools, calls), section).Some? ==> Get(Entries(tools, calls), section).value.JObj?
  {
    if tools != [] {
      EntriesDictionaries(tools[1..], calls[1..], section);
    }
  }

  /** A plan's run ends with results whose sections are dictionaries. */
  lemma PlanDictionaries(text: string, statementType: string)
    ensures var run := Run(CreatePlan(text, statementType).requiredTools);
      run.results.Some? && Dictionaries(run.results.value)
  {
    var tools := CreatePlan(text, statementType).requiredTools;
    PlanRun(text, statementType);
    forall k | Get(Entries(tools, Calls(tools)), k).Some?
      ensures Get(Entries(tools, Calls(tools)), k).value.JObj?
    {
      EntriesDictionaries(tools, Calls(tools), k);
    }
  }

  /** Results made of dictionaries always assemble into a structure. */
  lemma StructureOfDictionaries(results: seq<Field>, statementType: string)
    requires Dictionaries(results)
    ensures CreateStandardizedJsonStructure(results, statementType).Some?
  {
    assert Get(results, "aset_lancar").Some? ==> Get(results, "aset_lancar").value.JObj?;
    assert Get(results, "total_aset").Some? ==> Get(results, "total_aset").value.JObj?;
    assert Get(results, "balancing").Some? ==> Get(results, "balancing").value.JObj?;
  }

  /** process_statement never raises: every plan runs to completion and
      its results always assemble into a structure. */
  lemma StatementCompletes(agentId: string, text: string, statementType: string, company: string)
    ensures StatementResult(agentId, text, statementType, company).Some?
  {
    PlanDictionaries(text, statementType);
    StructureOfDictionaries(Run(CreatePlan(text, statementType).requiredTools).results.value, statementType);
  }

  /** With a footing step in the plan the run logs one entry fewer than
      the plan has steps, so every such statement is scored 0 with the
      count message. */
  lemma FootingStepFailsValidation(agentId: string, text: string, statementType: string, company: string)
    requires HasFootingStep(text, statementType)
    ensures var r := StatementResult(agentId, text, statementType, company);
      var n := CreatePlan(text, statementType).totalToolCount;
      && r.Some? && n >= 1 && r.value.validationScore == 0.0 && r.value.confidence == 10.0
      && r.value.errors == ["Expected " + NatToString(n) + " tools, got " + NatToString(n - 1)]
  {
    StatementCompletes(agentId, text, statementType, company);
    PlanRun(text, statementType);
  }

  /** Without a footing step the count always matches, and the verdict
      rests on the forbidden phrases alone. */
  lemma CountMatchesWithoutFooting(agentId: string, text: string, statementType: string, company: string)
    requires !HasFootingStep(text, statementType)
    ensures var r := StatementResult(agentId, text, statementType, company);
      && r.Some?
      && (r.value.validationScore == 100.0
          <==> forall k :: 0 <= k < |ForbiddenPatterns| ==> !Mentions(r.value.extractedData, ForbiddenPatterns[k], false))
  {
    StatementCompletes(agentId, text, statementType, company);
    PlanRun(text, statementType);
  }

  /** Agents differ only in their identifier: the same text and type give
      the same extracted data, scores and tool count. */
  lemma StatementAgentIndependent(a: string, b: string, text: string, statementType: string, company: string)
    ensures var ra, rb := StatementResult(a, text, statementType, company), StatementResult(b, text, statementType, company);
      ra.Some? <==> rb.Some?
    ensures var ra, rb := StatementResult(a, text, statementType, company), StatementResult(b, text, statementType, company);
      ra.Some? ==> ra.value.(agentId := b) == rb.value
  {
  }

  // ---------------------------------------------------------------------
  // _extract_key_figures

  /** The figures compared for consensus, in the order they are read. */
  const KeyFigureNames: seq<string> := ["aset_lancar", "total_aset", "balance_total_aset", "balance_total_liab_eq"]

  datatype Figure = Figure(key: string, value: real)

  /** The figures read so far, and whether ValueError, KeyError or
      TypeError was raised (which ends the reading). */
  datatype Gathered = Gathered(figures: seq<Figure>, raised: bool)

  /** Reading one figure: nothing once raised; nothing when the key is
      absent; float(value) appended, or a raise when it fails. */
  function Gather(g: Gathered, key: string, probe: Probe): (r: Gathered)
    ensures g.raised ==> r == g
    ensures |g.figures| <= |r.figures| <= |g.figures| + 1 && r.figures[..|g.figures|] == g.figures
    ensures forall i :: |g.figures| <= i < |r.figures| ==> r.figures[i].key == key
  {
    if g.raised then g
    else match probe
      case Absent => g
      case Raises => Gathered(g.figures, true)
      case Present(v) =>
        match PyFloat(v)
        case Some(x) => Gathered(g.figures + [Figure(key, x)], false)
        case None => Gathered(g.figures, true)
  }

  /** `if name in aset and isinstance(aset[name], dict): if 'nilai_tercatat'
      in aset[name]: ... aset[name]['nilai_tercatat']`. */
  function AccountProbe(aset: Json, name: string): Probe
  {
    match Lookup(aset, name)
    case Present(item) => if item.JObj? then Lookup(item, "nilai_tercatat") else Absent
    case Absent => Absent
    case Raises => Raises
  }

  /** The asset figures: the current and the total asset lines. */
  function AsetFigures(posisi: Json): Gathered
  {
    match Lookup(posisi, "aset")
    case Absent => Gathered([], false)
    case Raises => Gathered([], true)
    case Present(aset) =>
      Gather(Gather(Gathered([], false), "aset_lancar", AccountProbe(aset, "aset_lancar")),
             "total_aset", AccountProbe(aset, "total_aset"))
  }

  /** The balancing figures, read after the asset figures unless those
      raised. */
  function BalancingFigures(posisi: Json, g: Gathered): Gathered
  {
    if g.raised then g
    else match Lookup(posisi, "balancing")
      case Absent => g
      case Raises => Gathered(g.figures, true)
      case Present(balancing) =>
        Gather(Gather(g, "balance_total_aset", Lookup(balancing, "total_aset")),
               "balance_total_liab_eq", Lookup(balancing, "total_liabilitas_ekuitas"))
  }

  function KeyFiguresGathered(data: Json): Gathered
  {
    match Lookup(data, "laporan_posisi_keuangan")
    case Absent => Gathered([], false)
    case Raises => Gathered([], true)
    case Present(posisi) => BalancingFigures(posisi, AsetFigures(posisi))
  }

  /** The position of a figure name in the reading order. */
  function Rank(key: string): nat
  {
    if key == "aset_lancar" then 0
    else if key == "total_aset" then 1
    else if key == "balance_total_aset" then 2
    else 3
  }

  /** A sequence of figures named from KeyFigureNames, each name after
      the ones before it in reading order (so no name twice). */
  predicate Ordered(figures: seq<Figure>)
  {
    && (forall i :: 0 <= i < |figures| ==> figures[i].key in KeyFigureNames)
    && (forall i, j :: 0 <= i < j < |figures| ==> Rank(figures[i].key) < Rank(figures[j].key))
  }

  /** Ordered, with at most k figures, all ranked below k. */
  predicate Below(figures: seq<Figure>, k: nat)
  {
    Ordered(figures) && |figures| <= k && forall i :: 0 <= i < |figures| ==> Rank(figures[i].key) < k
  }

  lemma GatherBelow(g: Gathered, key: string, probe: Probe)
    requires key in KeyFigureNames && Below(g.figures, Rank(key))
    ensures Below(Gather(g, key, probe).figures, Rank(key) + 1)
  {
  }

  lemma RankLiterals()
    ensures Rank("aset_lancar") == 0 && Rank("total_aset") == 1
    ensures Rank("balance_total_aset") == 2 && Rank("balance_total_liab_eq") == 3
    ensures KeyFigureNames == ["aset_lancar", "total_aset", "balance_total_aset", "balance_total_liab_eq"]
  {
  }

  /** _extract_key_figures: at most the four named figures, in reading
      order, none twice. */
  function ExtractKeyFigures(data: Json): (r: seq<Figure>)
    ensures Ordered(r) && |r| <= 4
  {
    KeyFiguresBelow(data);
    KeyFiguresGathered(data).figures
  }

  lemma KeyFiguresBelow(data: Json)
    ensures Below(KeyFiguresGathered(data).figures, 4)
  {
    if Lookup(data, "laporan_posisi_keuangan").Present? {
      var posisi := Lookup(data, "laporan_posisi_keuangan").value;
      AsetBelow(posisi);
      BalancingBelow(posisi, AsetFigures(posisi));
    }
  }

  lemma AsetBelow(posisi: Json)
    ensures Below(AsetFigures(posisi).figures, 2)
  {
    if Lookup(posisi, "aset").Present? {
      var aset := Lookup(posisi, "aset").value;
      var g0 := Gathered([], false);
      var p1, p2 := AccountProbe(aset, "aset_lancar"), AccountProbe(aset, "total_aset");
      RankLiterals();
      GatherBelow(g0, "aset_lancar", p1);
      GatherBelow(Gather(g0, "aset_lancar", p1), "total_aset", p2);
    }
  }

  lemma BalancingBelow(posisi: Json, g: Gathered)
    requires Below(g.figures, 2)
    ensures Below(BalancingFigures(posisi, g).figures, 4)
  {
    if !g.raised && Lookup(posisi, "balancing").Present? {
      var balancing := Lookup(posisi, "balancing").value;
      var p1, p2 := Lookup(balancing, "total_aset"), Lookup(balancing, "total_liabilitas_ekuitas");
      RankLiterals();
      GatherBelow(g, "balance_total_aset", p1);
      GatherBelow(Gather(g, "balance_total_aset", p1), "balance_total_liab_eq", p2);
    }
  }

  /** Where each figure is read from. */
  function FigurePath(key: string): seq<string>
  {
    if key == "aset_lancar" then ["laporan_posisi_keuangan", "aset", "aset_lancar", "nilai_tercatat"]
    else if key == "total_aset" then ["laporan_posisi_keuangan", "aset", "total_aset", "nilai_tercatat"]
    else if key == "balance_total_aset" then ["laporan_posisi_keuangan", "balancing", "total_aset"]
    else ["laporan_posisi_keuangan", "balancing", "total_liabilitas_ekuitas"]
  }

  /** A figure appended by Gather is float() of the probed value. */
  lemma GatherSource(g: Gathered, key: string, probe: Probe, source: Json, path: seq<string>)
    requires forall i :: 0 <= i < |g.figures| ==> Sourced(source, g.figures[i])
    requires probe.Present? ==> At(source, path) == Some(probe.value)
    requires FigurePath(key) == path
    ensures forall i :: 0 <= i < |Gather(g, key, probe).figures| ==> Sourced(source, Gather(g, key, probe).figures[i])
  {
    var r := Gather(g, key, probe);
    forall i | 0 <= i < |r.figures|
      ensures Sourced(source, r.figures[i])
    {
      if i < |g.figures| {
        assert r.figures[i] == r.figures[..|g.figures|][i];
      }
    }
  }

  /** figure.value is float() of the value found along the figure's path. */
  predicate Sourced(data: Json, figure: Figure)
  {
    var v := At(data, FigurePath(figure.key));
    v.Some? && PyFloat(v.value) == Some(figure.value)
  }

  /** Every extracted figure is float() of the value at its path. */
  lemma FiguresSourced(data: Json)
    ensures forall i :: 0 <= i < |ExtractKeyFigures(data)| ==> Sourced(data, ExtractKeyFigures(data)[i])
  {
    if Lookup(data, "laporan_posisi_keuangan").Present? {
      var posisi := Lookup(data, "laporan_posisi_keuangan").value;
      AsetSourced(data, posisi);
      BalancingSourced(data, posisi, AsetFigures(posisi));
    }
  }

  lemma AsetSourced(data: Json, posisi: Json)
    requires Lookup(data, "laporan_posisi_keuangan") == Present(posisi)
    ensures forall i :: 0 <= i < |AsetFigures(posisi).figures| ==> Sourced(data, AsetFigures(posisi).figures[i])
  {
    if Lookup(posisi, "aset").Present? {
      var aset := Lookup(posisi, "aset").value;
      var g0 := Gathered([], false);
      var p1, p2 := AccountProbe(aset, "aset_lancar"), AccountProbe(aset, "total_aset");
      FigurePaths();
      AccountSource(data, posisi, aset, "aset_lancar");
      GatherSource(g0, "aset_lancar", p1, data, FigurePath("aset_lancar"));
      AccountSource(data, posisi, aset, "total_aset");
      GatherSource(Gather(g0, "aset_lancar", p1), "total_aset", p2, data, FigurePath("total_aset"));
    }
  }

  lemma BalancingSourced(data: Json, posisi: Json, g: Gathered)
    requires Lookup(data, "laporan_posisi_keuangan") == Present(posisi)
    requires forall i :: 0 <= i < |g.figures| ==> Sourced(data, g.figures[i])
    ensures forall i :: 0 <= i < |BalancingFigures(posisi, g).figures| ==> Sourced(data, BalancingFigures(posisi, g).figures[i])
  {
    if !g.raised && Lookup(posisi, "balancing").Present? {
      var balancing := Lookup(posisi, "balancing").value;
      var p1, p2 := Lookup(balancing, "total_aset"), Lookup(balancing, "total_liabilitas_ekuitas");
      FigurePaths();
      BalancingSource(data, posisi, balancing, "total_aset");
      GatherSource(g, "balance_total_aset", p1, data, FigurePath("balance_total_aset"));
      BalancingSource(data, posisi, balancing, "total_liabilitas_ekuitas");
      GatherSource(Gather(g, "balance_total_aset", p1), "balance_total_liab_eq", p2, data, FigurePath("balance_total_liab_eq"));
    }
  }

  lemma FigurePaths()
    ensures FigurePath("aset_lancar") == ["laporan_posisi_keuangan", "aset", "aset_lancar", "nilai_tercatat"]
    ensures FigurePath("total_aset") == ["laporan_posisi_keuangan", "aset", "total_aset", "nilai_tercatat"]
    ensures FigurePath("balance_total_aset") == ["laporan_posisi_keuangan", "balancing", "total_aset"]
    ensures FigurePath("balance_total_liab_eq") == ["laporan_posisi_keuangan", "balancing", "total_liabilitas_ekuitas"]
  {
  }

  lemma AccountSource(data: Json, posisi: Json, aset: Json, name: string)
    requires Lookup(data, "laporan_posisi_keuangan") == Present(posisi) && Lookup(posisi, "aset") == Present(aset)
    ensures AccountProbe(aset, name).Present? ==>
      At(data, ["laporan_posisi_keuangan", "aset", name, "nilai_tercatat"]) == Some(AccountProbe(aset, name).value)
  {
    if AccountProbe(aset, name).Present? {
      var item := Lookup(aset, name).value;
      assert ["laporan_posisi_keuangan", "aset", name, "nilai_tercatat"]
          == ["laporan_posisi_keuangan"] + (["aset"] + ([name] + ["nilai_tercatat"]));
      StepDown(item, "nilai_tercatat", AccountProbe(aset, name).value, []);
      StepDown(aset, name, item, ["nilai_tercatat"]);
      StepDown(posisi, "aset", aset, [name] + ["nilai_tercatat"]);
      StepDown(data, "laporan_posisi_keuangan", posisi, ["aset"] + ([name] + ["nilai_tercatat"]));
    }
  }

  lemma BalancingSource(data: Json, posisi: Json, balancing: Json, field: string)
    requires Lookup(data, "laporan_posisi_keuangan") == Present(posisi) && Lookup(posisi, "balancing") == Present(balancing)
    ensures Lookup(balancing, field).Present? ==>
      At(data, ["laporan_posisi_keuangan", "balancing", field]) == Some(Lookup(balancing, field).value)
  {
    if Lookup(balancing, field).Present? {
      assert ["laporan_posisi_keuangan", "balancing", field] == ["laporan_posisi_keuangan"] + (["balancing"] + [field]);
      StepDown(balancing, field, Lookup(balancing, field).value, []);
      StepDown(posisi, "balancing", balancing, [field]);
      StepDown(data, "laporan_posisi_keuangan", posisi, ["balancing"] + [field]);
    }
  }

  /** On a standardized balance-sheet structure the figures are the two
      recorded asset values; when the current-asset value does not convert
      (a dictionary, say) the reading stops and no figure is kept, even if
      the total would convert. The balancing part carries no figures. */
  lemma StructureFigures(current: Json, total: Json, balancing: Json)
    ensures ExtractKeyFigures(BalanceStructure(current, total, balancing))
            == match PyFloat(current)
               case None => []
               case Some(x) => [Figure("aset_lancar", x)] + (match PyFloat(total)
                                                             case None => []
                                                             case Some(y) => [Figure("total_aset", y)])
  {
    var data := BalanceStructure(current, total, balancing);
    var aset := JObj([Field("aset_lancar", AccountLine("Jumlah Aset Lancar", current)),
                      Field("total_aset", AccountLine("Total Aset", total))]);
    var balancingPart := JObj([Field("status", balancing), Field("source", JStr("balance_equation_tool"))]);
    var posisi := JObj([Field("aset", aset), Field("balancing", balancingPart)]);
    assert data == JObj([Field("laporan_posisi_keuangan", posisi)]);
    StructureKeys();
    PairLookup("aset", aset, "balancing", balancingPart);
    PairLookup("aset_lancar", AccountLine("Jumlah Aset Lancar", current), "total_aset", AccountLine("Total Aset", total));
    PairAbsent("status", balancing, "source", JStr("balance_equation_tool"), "total_aset");
    PairAbsent("status", balancing, "source", JStr("balance_equation_tool"), "total_liabilitas_ekuitas");
    RecordedValue("Jumlah Aset Lancar", current);
    RecordedValue("Total Aset", total);
    FiguresOfShape(data, posisi, aset, balancingPart, current, total);
  }

  /** What the pipeline gives for a balance sheet with at least one
      extracted value: nilai_tercatat of the current assets is the sum
      tool's result dictionary, float() of it raises, and no key figure is
      kept. */
  lemma BalanceSheetWithoutFigures(text: string, statementType: string)
    requires IsBalanceType(statementType) && |ExtractValues(text)| >= 1
    ensures var results := Run(CreatePlan(text, statementType).requiredTools).results;
      && results.Some?
      && CreateStandardizedJsonStructure(results.value, statementType).Some?
      && ExtractKeyFigures(CreateStandardizedJsonStructure(results.value, statementType).value) == []
  {
    var results := Run(CreatePlan(text, statementType).requiredTools).results;
    PlanDictionaries(text, statementType);
    StructureOfDictionaries(results.value, statementType);
    CurrentAssetsFiled(text, statementType);
    StandardizedStructure(results.value, statementType);
    var current := GetNested(results.value, "aset_lancar", "nilai_perhitungan", JNum(0.0)).value;
    StructureFigures(current,
                     GetNested(results.value, "total_aset", "nilai_perhitungan", JNum(0.0)).value,
                     GetNested(results.value, "balancing", "status", JStr("Verified by tool")).value);
  }

  /** So a balance-sheet agent result built from at least one value
      carries no key figure for the consensus check to compare. */
  lemma StatementWithoutFigures(agentId: string, text: string, statementType: string, company: string)
    requires IsBalanceType(statementType) && |ExtractValues(text)| >= 1
    ensures StatementResult(agentId, text, statementType, company).Some?
    ensures ExtractKeyFigures(StatementResult(agentId, text, statementType, company).value.extractedData) == []
  {
    var results := Run(CreatePlan(text, statementType).requiredTools).results;
    BalanceSheetWithoutFigures(text, statementType);
    StatementData(agentId, text, statementType, company);
  }

  /** The extracted data of an agent result is the standardized structure
      of its run's results. */
  lemma StatementData(agentId: string, text: string, statementType: string, company: string)
    ensures var results := Run(CreatePlan(text, statementType).requiredTools).results;
      results.Some? && CreateStandardizedJsonStructure(results.value, statementType).Some? ==>
        && StatementResult(agentId, text, statementType, company).Some?
        && StatementResult(agentId, text, statementType, company).value.extractedData
           == CreateStandardizedJsonStructure(results.value, statementType).value
  {
  }

  /** The reading on any data of the standardized shape. */
  lemma FiguresOfShape(data: Json, posisi: Json, aset: Json, balancingPart: Json, current: Json, total: Json)
    requires Lookup(data, "laporan_posisi_keuangan") == Present(posisi)
    requires Lookup(posisi, "aset") == Present(aset) && Lookup(posisi, "balancing") == Present(balancingPart)
    requires AccountProbe(aset, "aset_lancar") == Present(current) && AccountProbe(aset, "total_aset") == Present(total)
    requires Lookup(balancingPart, "total_aset") == Absent && Lookup(balancingPart, "total_liabilitas_ekuitas") == Absent
    ensures KeyFiguresGathered(data).figures
            == match PyFloat(current)
               case None => []
               case Some(x) => [Figure("aset_lancar", x)] + (match PyFloat(total)
                                                             case None => []
                                                             case Some(y) => [Figure("total_aset", y)])
  {
    var g1 := Gather(Gathered([], false), "aset_lancar", Present(current));
    var g2 := Gather(g1, "total_aset", Present(total));
    assert AsetFigures(posisi) == g2;
    assert BalancingFigures(posisi, g2) == g2;
  }

  lemma StructureKeys()
    ensures "aset" != "balancing" && "aset_lancar" != "total_aset"
    ensures "status" != "total_aset" && "source" != "total_aset"
    ensures "status" != "total_liabilitas_ekuitas" && "source" != "total_liabilitas_ekuitas"
  {
    assert |"aset"| != |"balancing"|;
    assert "aset_lancar"[0] != "total_aset"[0];
    assert "status"[0] != "total_aset"[0] && "source"[0] != "total_aset"[0];
    assert "status"[0] != "total_liabilitas_ekuitas"[0] && "source"[0] != "total_liabilitas_ekuitas"[0];
  }

  /** Looking up the two keys of a two-field dictionary. */
  lemma PairLookup(k1: string, v1: Json, k2: string, v2: Json)
    requires k1 != k2
    ensures Lookup(JObj([Field(k1, v1), Field(k2, v2)]), k1) == Present(v1)
    ensures Lookup(JObj([Field(k1, v1), Field(k2, v2)]), k2) == Present(v2)
  {
    assert [Field(k1, v1), Field(k2, v2)][1..] == [Field(k2, v2)];
    assert Get([Field(k2, v2)], k2) == Some(v2);
  }

  lemma PairAbsent(k1: string, v1: Json, k2: string, v2: Json, key: string)
    requires key != k1 && key != k2
    ensures Lookup(JObj([Field(k1, v1), Field(k2, v2)]), key) == Absent
  {
    assert [Field(k1, v1), Field(k2, v2)][1..] == [Field(k2, v2)];
  }

  lemma RecordedValue(name: string, value: Json)
    ensures Lookup(AccountLine(name, value), "nilai_tercatat") == Present(value)
  {
    AccountLineAt(name, value, 1);
  }
}
