/** The mandatory tool pipeline (core/tool_orchestrator.py): values are
    pulled out of the statement text and bucketed, a fixed recipe per
    statement type turns them into an ordered plan of tool executions, the
    executor runs the plan against the shared calculator and files every
    result under a dotted path, the usage validator compares the audit log
    with the plan and scans the result for phrases that betray manual
    arithmetic, and the standardized structure is assembled from the tool
    results alone. */
module ToolOrchestrator {
  import opened Wrappers
  import opened Text
  import opened Json
  import opened CalculationTools

  // ---------------------------------------------------------------------
  // plans

  /** The five tools a plan step can name. */
  datatype ToolKind = SumTool | SubtractTool | BalanceTool | FootingTool | PercentageTool
  {
    function Name(): string
    {
      match this
      case SumTool => "sum_financial_values"
      case SubtractTool => "subtract_financial_values"
      case BalanceTool => "verify_balance_sheet_equation"
      case FootingTool => "validate_footing_calculation"
      case PercentageTool => "calculate_financial_percentage"
    }
  }

  /** An argument of a tool call: a number, a list of numbers or a text. */
  datatype Param = PNum(n: real) | PNums(ns: seq<real>) | PText(s: string)

  /** ToolExecution: one mandatory step, with the dotted path its result is
      filed under. */
  datatype ToolExecution = ToolExecution(
    tool: ToolKind, parameters: map<string, Param>, description: string, expectedResultKey: string)

  /** FinancialCalculationPlan */
  datatype CalculationPlan = CalculationPlan(requiredTools: seq<ToolExecution>, totalToolCount: nat)

  // ---------------------------------------------------------------------
  // _extract_financial_values

  /** The characters of the pattern [\d,.] (ASCII digits). */
  predicate NumberChar(c: char)
  {
    IsDigit(c) || c == ',' || c == '.'
  }

  /** The length of the run of number characters s starts with. */
  function RunLength(s: string): (k: nat)
    ensures k <= |s|
    ensures forall i :: 0 <= i < k ==> NumberChar(s[i])
    ensures k == |s| || !NumberChar(s[k])
  {
    if s != [] && NumberChar(s[0]) then
      var k := RunLength(s[1..]);
      assert forall i :: 1 <= i < k + 1 ==> s[i] == s[1..][i - 1];
      k + 1
    else 0
  }

  /** re.findall(r'[\d,.]+', text): the maximal runs of number
      characters, in text order. */
  function Runs(s: string): (r: seq<string>)
    ensures forall i :: 0 <= i < |r| ==> r[i] != [] && forall j :: 0 <= j < |r[i]| ==> NumberChar(r[i][j])
    decreases |s|
  {
    if s == [] then []
    else if !NumberChar(s[0]) then Runs(s[1..])
    else
      var k := RunLength(s);
      [s[..k]] + Runs(s[k..])
  }

  /** A character outside the class ends a run whatever follows it. */
  lemma {:induction false} RunLengthSeparated(a: string, c: char, b: string)
    requires !NumberChar(c)
    ensures RunLength(a + [c] + b) == RunLength(a)
    decreases |a|
  {
    if a == [] {
      assert (a + [c] + b)[0] == c;
    } else {
      assert (a + [c] + b)[0] == a[0];
      assert (a + [c] + b)[1..] == a[1..] + [c] + b;
      RunLengthSeparated(a[1..], c, b);
    }
  }

  /** The runs of two texts joined by a separator are the runs of the
      first followed by the runs of the second: findall never joins
      numbers across a character outside the class. */
  lemma {:induction false} RunsSeparated(a: string, c: char, b: string)
    requires !NumberChar(c)
    ensures Runs(a + [c] + b) == Runs(a) + Runs(b)
    decreases |a|
  {
    var s := a + [c] + b;
    if a == [] {
      assert s == [c] + b && s[1..] == b;
    } else if !NumberChar(a[0]) {
      assert s[0] == a[0];
      assert s[1..] == a[1..] + [c] + b;
      RunsSeparated(a[1..], c, b);
    } else {
      assert s[0] == a[0];
      var k := RunLength(a);
      RunLengthSeparated(a, c, b);
      assert s[..k] == a[..k];
      assert s[k..] == a[k..] + [c] + b;
      RunsSeparated(a[k..], c, b);
    }
  }

  /** A text that is one run of number characters is found as that run. */
  lemma RunsSingle(run: string)
    requires run != [] && forall i :: 0 <= i < |run| ==> NumberChar(run[i])
    ensures Runs(run) == [run]
  {
    var k := RunLength(run);
    assert k == |run|;
    assert run[..k] == run && run[k..] == [];
  }

  /** One run after `float(run.replace(',', ''))` and the filter `> 1000`:
      the value when it converts and is large enough, nothing otherwise. */
  function CleanNumber(run: string): (r: seq<real>)
    ensures |r| <= 1
    ensures |r| == 1 <==> exists v :: ParseUnsigned(Replace(run, ',', "")) == Some(v) && v > 1000.0
    ensures |r| == 1 ==> ParseUnsigned(Replace(run, ',', "")) == Some(r[0]) && r[0] > 1000.0
  {
    match ParseUnsigned(Replace(run, ',', ""))
    case Some(v) => if v > 1000.0 then [v] else []
    case None => []
  }

  function CleanNumbers(runs: seq<string>): (r: seq<real>)
    ensures |r| <= |runs|
    ensures forall i :: 0 <= i < |r| ==> r[i] > 1000.0
  {
    if runs == [] then [] else CleanNumber(runs[0]) + CleanNumbers(runs[1..])
  }

  /** The values kept from a list of runs are those kept from each run, in
      order. */
  lemma {:induction false} CleanNumbersConcat(a: seq<string>, b: seq<string>)
    ensures CleanNumbers(a + b) == CleanNumbers(a) + CleanNumbers(b)
  {
    if a == [] {
      assert a + b == b;
    } else {
      assert (a + b)[0] == a[0];
      assert (a + b)[1..] == a[1..] + b;
      CleanNumbersConcat(a[1..], b);
    }
  }

  /** All the values the text yields, each greater than 1000. */
  function ExtractValues(text: string): (r: seq<real>)
    ensures forall i :: 0 <= i < |r| ==> r[i] > 1000.0
  {
    CleanNumbers(Runs(text))
  }

  /** The values of two texts joined by a separator are those of the first
      followed by those of the second. */
  lemma ExtractValuesSeparated(a: string, c: char, b: string)
    requires !NumberChar(c)
    ensures ExtractValues(a + [c] + b) == ExtractValues(a) + ExtractValues(b)
  {
    RunsSeparated(a, c, b);
    CleanNumbersConcat(Runs(a), Runs(b));
  }

  /** A single run yields its float value when that value exceeds 1000, and
      nothing otherwise. */
  lemma ExtractValuesRun(run: string)
    requires run != [] && forall i :: 0 <= i < |run| ==> NumberChar(run[i])
    ensures ExtractValues(run) == CleanNumber(run)
  {
    RunsSingle(run);
    assert CleanNumbers([run]) == CleanNumber(run) + CleanNumbers([]);
  }

  /** The positional buckets of _extract_financial_values. */
  datatype Buckets = Buckets(currentAssets: seq<real>, fixedAssets: seq<real>, liabilities: seq<real>,
                             allValues: seq<real>)

  function Bucket(v: seq<real>): (b: Buckets)
    ensures b.allValues == v
    ensures |v| <= 3 ==> b.currentAssets == v
    ensures |v| > 3 ==> b.currentAssets == v[..|v| / 3]
    ensures |v| <= 6 ==> b.fixedAssets == [] && b.liabilities == []
    ensures |v| > 6 ==> b.currentAssets + b.fixedAssets + b.liabilities == v && b.fixedAssets != []
  {
    var n := |v|;
    var b := Buckets(if n > 3 then v[..n / 3] else v,
                     if n > 6 then v[n / 3..2 * n / 3] else [],
                     if n > 6 then v[2 * n / 3..] else [],
                     v);
    assert n > 6 ==> v[..n / 3] + v[n / 3..2 * n / 3] + v[2 * n / 3..] == v;
    b
  }

  function ExtractFinancialValues(text: string): (b: Buckets)
    ensures b.allValues == ExtractValues(text)
  {
    Bucket(ExtractValues(text))
  }

  // ---------------------------------------------------------------------
  // the recipes

  /** A result path `section.field`. */
  function ResultKey(section: string, field: string): string
  {
    section + "." + field
  }

  function SumStep(values: seq<real>, what: string, description: string, section: string): (t: ToolExecution)
    ensures t.tool == SumTool && "values" in t.parameters && t.parameters["values"] == PNums(values)
    ensures "description" in t.parameters && t.parameters["description"] == PText(what)
    ensures t.expectedResultKey == ResultKey(section, "nilai_perhitungan")
  {
    ToolExecution(SumTool, map["values" := PNums(values), "description" := PText(what)], description,
                  ResultKey(section, "nilai_perhitungan"))
  }

  /** The footing step binds its components under "components". */
  function FootingStep(v: seq<real>): (t: ToolExecution)
    requires |v| >= 1
    ensures t.tool == FootingTool && "reported_total" in t.parameters && t.parameters["reported_total"] == PNum(v[0])
    ensures "components" in t.parameters && t.parameters["components"] == PNums(Slice(v, 1, 6)) && "component_values" !in t.parameters
    ensures t.expectedResultKey == ResultKey("footing_validation", "status")
  {
    ToolExecution(FootingTool,
                  map["reported_total" := PNum(v[0]), "components" := PNums(Slice(v, 1, 6)),
                      "description" := PText("Validate asset footing")],
                  "Validate asset footing", ResultKey("footing_validation", "status"))
  }

  function BalanceStep(v: seq<real>): (t: ToolExecution)
    requires |v| >= 1
    ensures t.tool == BalanceTool && t.parameters.Keys == {"assets", "liabilities", "equity"}
    ensures t.parameters["assets"] == PNum(v[0]) && t.parameters["liabilities"] == PNum(v[|v| / 2])
    ensures t.parameters["equity"] == PNum(v[|v| - 1])
    ensures t.expectedResultKey == ResultKey("balancing", "status")
  {
    ToolExecution(BalanceTool,
                  map["assets" := PNum(v[0]), "liabilities" := PNum(v[|v| / 2]), "equity" := PNum(v[|v| - 1])],
                  "Verify balance sheet equation", ResultKey("balancing", "status"))
  }

  function SubtractStep(minuend: real, subtrahend: real): (t: ToolExecution)
    ensures t.tool == SubtractTool && "minuend" in t.parameters && "subtrahend" in t.parameters
    ensures t.parameters["minuend"] == PNum(minuend) && t.parameters["subtrahend"] == PNum(subtrahend)
    ensures "description" in t.parameters && t.parameters["description"] == PText("Calculate net income")
    ensures t.expectedResultKey == ResultKey("laba_bersih", "nilai_perhitungan")
  {
    ToolExecution(SubtractTool,
                  map["minuend" := PNum(minuend), "subtrahend" := PNum(subtrahend),
                      "description" := PText("Calculate net income")],
                  "Net income calculation", ResultKey("laba_bersih", "nilai_perhitungan"))
  }

  function BalanceSheetTools(b: Buckets): seq<ToolExecution>
  {
    var v := b.allValues;
    (if b.currentAssets != [] then
       [SumStep(Take(b.currentAssets, 5), "Calculate total current assets", "Sum of current assets", "aset_lancar")]
     else [])
    + ((if b.fixedAssets != [] then
          [SumStep(Take(b.fixedAssets, 5), "Calculate total fixed assets", "Sum of fixed assets", "aset_tetap")]
        else [])
       + ((if |v| >= 2 then [SumStep(Take(v, 10), "Calculate total assets", "Calculate total assets", "total_aset")]
           else [])
          + ((if |v| >= 3 then [FootingStep(v)] else [])
             + (if |v| >= 6 then [BalanceStep(v)] else []))))
  }

  function IncomeStatementTools(b: Buckets): seq<ToolExecution>
  {
    var v := b.allValues;
    (if |v| >= 2 then
       [SumStep(Take(v, 3), "Calculate total revenue", "Total revenue calculation", "total_pendapatan")]
     else [])
    + ((if |v| >= 4 then
          [SumStep(Slice(v, 2, 7), "Calculate total expenses", "Total expense calculation", "total_beban")]
        else [])
       + (if |v| >= 2 then [SubtractStep(v[0], v[1])] else []))
  }

  function CashFlowTools(b: Buckets): seq<ToolExecution>
  {
    var v := b.allValues;
    (if |v| >= 3 then
       [SumStep(Take(v, 4), "Calculate operating cash flow", "Operating cash flow", "arus_kas_operasi")]
     else [])
    + (if |v| >= 6 then [SumStep(Take(v, 6), "Calculate net cash flow", "Net cash flow", "arus_kas_bersih")]
       else [])
  }

  /** The statement types handled by the balance-sheet recipe. */
  predicate IsBalanceType(statementType: string)
  {
    statementType == "neraca" || Contains("posisi_keuangan", statementType)
  }

  /** The recipe for a statement type; an unknown type has none. */
  function ToolsFor(b: Buckets, statementType: string): seq<ToolExecution>
  {
    if IsBalanceType(statementType) then BalanceSheetTools(b)
    else if statementType == "laba_rugi" then IncomeStatementTools(b)
    else if statementType == "arus_kas" then CashFlowTools(b)
    else []
  }

  /** create_standardized_calculation_plan */
  function CreatePlan(text: string, statementType: string): (p: CalculationPlan)
    ensures p.totalToolCount == |p.requiredTools|
    ensures p.requiredTools == ToolsFor(ExtractFinancialValues(text), statementType)
  {
    var tools := ToolsFor(ExtractFinancialValues(text), statementType);
    CalculationPlan(tools, |tools|)
  }

  // ---------------------------------------------------------------------
  // plan shapes

  /** The number of balance-sheet steps for n extracted values. */
  function BalancePlanLength(n: nat): nat
  {
    if n <= 2 then n else if n <= 5 then 3 else if n == 6 then 4 else 5
  }

  function IncomePlanLength(n: nat): nat
  {
    if n < 2 then 0 else if n < 4 then 2 else 3
  }

  function CashFlowPlanLength(n: nat): nat
  {
    if n < 3 then 0 else if n < 6 then 1 else 2
  }

  function Kinds(tools: seq<ToolExecution>): (r: seq<ToolKind>)
    ensures |r| == |tools| && forall i :: 0 <= i < |tools| ==> r[i] == tools[i].tool
  {
    if tools == [] then [] else [tools[0].tool] + Kinds(tools[1..])
  }

  lemma BalanceSheetShape(v: seq<real>)
    ensures |BalanceSheetTools(Bucket(v))| == BalancePlanLength(|v|)
  {
    var b := Bucket(v);
    assert |v| >= 1 ==> b.currentAssets != [];
  }

  /** With seven values or more every balance-sheet step is present, in
      the order sum, sum, sum, footing, balance. */
  lemma BalanceSheetKinds(v: seq<real>)
    requires |v| >= 7
    ensures Kinds(BalanceSheetTools(Bucket(v))) == [SumTool, SumTool, SumTool, FootingTool, BalanceTool]
  {
    var b := Bucket(v);
    assert b.currentAssets != [] && b.fixedAssets != [];
  }

  lemma IncomeStatementShape(v: seq<real>)
    ensures |IncomeStatementTools(Bucket(v))| == IncomePlanLength(|v|)
    ensures |v| >= 4 ==> Kinds(IncomeStatementTools(Bucket(v))) == [SumTool, SumTool, SubtractTool]
  {
  }

  lemma CashFlowShape(v: seq<real>)
    ensures |CashFlowTools(Bucket(v))| == CashFlowPlanLength(|v|)
    ensures |v| >= 6 ==> Kinds(CashFlowTools(Bucket(v))) == [SumTool, SumTool]
  {
  }

  /** The plan length is an exact function of the number of extracted
      values and the statement type. */
  lemma PlanLength(text: string, statementType: string)
    ensures var n := |ExtractValues(text)|;
      CreatePlan(text, statementType).totalToolCount
      == if IsBalanceType(statementType) then BalancePlanLength(n)
         else if statementType == "laba_rugi" then IncomePlanLength(n)
         else if statementType == "arus_kas" then CashFlowPlanLength(n)
         else 0
  {
    var v := ExtractValues(text);
    BalanceSheetShape(v);
    IncomeStatementShape(v);
    CashFlowShape(v);
  }

  // ---------------------------------------------------------------------
  // invoking a tool

  /** The arguments a tool's signature binds. */
  datatype Arguments =
    | SumArgs(values: seq<real>, description: string)
    | SubtractArgs(minuend: real, subtrahend: real, subtractDescription: string)
    | BalanceArgs(assets: real, liabilities: real, equity: real)
    | PercentageArgs(part: real, total: real)
    | FootingArgs(reportedTotal: real, componentValues: seq<real>, footingDescription: string)

  function NumberArg(parameters: map<string, Param>, name: string): (r: Option<real>)
    ensures r.Some? <==> name in parameters && parameters[name].PNum?
  {
    if name in parameters && parameters[name].PNum? then Some(parameters[name].n) else None
  }

  function NumbersArg(parameters: map<string, Param>, name: string): (r: Option<seq<real>>)
    ensures r.Some? <==> name in parameters && parameters[name].PNums?
  {
    if name in parameters && parameters[name].PNums? then Some(parameters[name].ns) else None
  }

  /** An optional text argument: its default when absent. */
  function TextArg(parameters: map<string, Param>, name: string, default: string): (r: Option<string>)
    ensures name !in parameters ==> r == Some(default)
    ensures r.None? <==> name in parameters && !parameters[name].PText?
  {
    if name !in parameters then Some(default)
    else if parameters[name].PText? then Some(parameters[name].s) else None
  }

  /** The message of the validation error raised when an argument is
      missing or of the wrong type. */
  function BindingError(tool: ToolKind, parameter: string): string
  {
    "validation error for " + tool.Name() + ": " + parameter
  }

  /** tool.invoke(parameters) up to the call: binding by name against the
      tool's signature, extra parameters ignored; the first parameter (in
      signature order) that is missing or ill-typed is reported. */
  function Bind(t: ToolExecution): (r: Result<Arguments>)
    ensures r.Ok? && t.tool == SumTool ==> r.value.SumArgs?
    ensures r.Ok? && t.tool == SubtractTool ==> r.value.SubtractArgs?
    ensures r.Ok? && t.tool == BalanceTool ==> r.value.BalanceArgs?
    ensures r.Ok? && t.tool == PercentageTool ==> r.value.PercentageArgs?
    ensures r.Ok? && t.tool == FootingTool ==> r.value.FootingArgs?
  {
    var p := t.parameters;
    match t.tool
    case SumTool =>
      (match (NumbersArg(p, "values"), TextArg(p, "description", "Sum calculation"))
       case (None, _) => Err(BindingError(t.tool, "values"))
       case (_, None) => Err(BindingError(t.tool, "description"))
       case (Some(vs), Some(d)) => Ok(SumArgs(vs, d)))
    case SubtractTool =>
      (match (NumberArg(p, "minuend"), NumberArg(p, "subtrahend"), TextArg(p, "description", "Subtraction calculation"))
       case (None, _, _) => Err(BindingError(t.tool, "minuend"))
       case (_, None, _) => Err(BindingError(t.tool, "subtrahend"))
       case (_, _, None) => Err(BindingError(t.tool, "description"))
       case (Some(m), Some(s), Some(d)) => Ok(SubtractArgs(m, s, d)))
    case BalanceTool =>
      (match (NumberArg(p, "assets"), NumberArg(p, "liabilities"), NumberArg(p, "equity"))
       case (None, _, _) => Err(BindingError(t.tool, "assets"))
       case (_, None, _) => Err(BindingError(t.tool, "liabilities"))
       case (_, _, None) => Err(BindingError(t.tool, "equity"))
       case (Some(a), Some(l), Some(e)) => Ok(BalanceArgs(a, l, e)))
    case PercentageTool =>
      (match (NumberArg(p, "part"), NumberArg(p, "total"))
       case (None, _) => Err(BindingError(t.tool, "part"))
       case (_, None) => Err(BindingError(t.tool, "total"))
       case (Some(a), Some(b)) => Ok(PercentageArgs(a, b)))
    case FootingTool =>
      (match (NumberArg(p, "reported_total"), NumbersArg(p, "component_values"),
              TextArg(p, "description", "Footing validation"))
       case (None, _, _) => Err(BindingError(t.tool, "reported_total"))
       case (_, None, _) => Err(BindingError(t.tool, "component_values"))
       case (_, _, None) => Err(BindingError(t.tool, "description"))
       case (Some(r), Some(cs), Some(d)) => Ok(FootingArgs(r, cs, d)))
  }

  /** What a call returns, or the message of the exception it raised. */
  datatype Outcome = Returned(result: Json) | Rejected(message: string)

  /** The result a tool returns on bound arguments. */
  function ToolResult(args: Arguments): Json
  {
    match args
    case SumArgs(vs, _) => Sum(Nums(vs)).ToJson()
    case SubtractArgs(m, s, _) => Subtract(JNum(m), JNum(s)).ToJson()
    case BalanceArgs(a, l, e) => Balance(JNum(a), JNum(l), JNum(e)).ToJson()
    case PercentageArgs(p, t) => Percentage(JNum(p), JNum(t)).ToJson()
    case FootingArgs(r, cs, d) => Footing(JNum(r), Nums(cs), d).ToJson()
  }

  /** The audit-log entries a tool appends on bound arguments. */
  function ToolEntries(args: Arguments): seq<LogEntry>
  {
    match args
    case SumArgs(vs, d) => SumEntries(Nums(vs), d)
    case SubtractArgs(m, s, d) => SubtractEntries(JNum(m), JNum(s), d)
    case BalanceArgs(a, l, e) => BalanceEntries(JNum(a), JNum(l), JNum(e))
    case PercentageArgs(p, t) => PercentageEntries(JNum(p), JNum(t))
    case FootingArgs(r, cs, d) => FootingEntries(JNum(r), Nums(cs), d)
  }

  /** The outcome of invoking a step's tool: rejected exactly when binding
      fails. */
  function Invocation(t: ToolExecution): (o: Outcome)
    ensures o.Rejected? <==> Bind(t).Err?
  {
    match Bind(t)
    case Ok(args) => Returned(ToolResult(args))
    case Err(message) => Rejected(message)
  }

  /** The entries invoking a step's tool appends: none when binding fails. */
  function InvocationEntries(t: ToolExecution): (r: seq<LogEntry>)
    ensures Bind(t).Err? ==> r == []
  {
    match Bind(t)
    case Ok(args) => ToolEntries(args)
    case Err(_) => []
  }

  /** A tool's body on bound arguments, run on the shared calculator. */
  method CallTool(calculator: FinancialCalculator, args: Arguments) returns (result: Json)
    modifies calculator
    ensures result == ToolResult(args)
    ensures calculator.calculationLog == old(calculator.calculationLog) + ToolEntries(args)
  {
    match args
    case SumArgs(vs, d) =>
      var r := calculator.SumValues(Nums(vs), d);
      result := r.ToJson();
    case SubtractArgs(m, s, d) =>
      var r := calculator.SubtractValues(JNum(m), JNum(s), d);
      result := r.ToJson();
    case BalanceArgs(a, l, e) =>
      var r := calculator.VerifyBalanceEquation(JNum(a), JNum(l), JNum(e));
      result := r.ToJson();
    case PercentageArgs(p, total) =>
      var r := calculator.CalculatePercentage(JNum(p), JNum(total));
      result := r.ToJson();
    case FootingArgs(reported, cs, d) =>
      var r := ValidateFootingCalculation(calculator, JNum(reported), Nums(cs), d);
      result := r.ToJson();
  }

  /** `<tool>.invoke(tool_exec.parameters)` on the shared calculator. */
  method InvokeTool(calculator: FinancialCalculator, t: ToolExecution) returns (o: Outcome)
    modifies calculator
    ensures o == Invocation(t)
    ensures calculator.calculationLog == old(calculator.calculationLog) + InvocationEntries(t)
  {
    var bound := Bind(t);
    if bound.Err? {
      o := Rejected(bound.error);
    } else {
      var result := CallTool(calculator, bound.value);
      o := Returned(result);
    }
  }

  // ---------------------------------------------------------------------
  // _store_result_in_structure

  /** Python's s.split(sep) for a one-character separator. */
  function Split(s: string, sep: char): (r: seq<string>)
    ensures r != []
  {
    if s == [] then [[]]
    else
      var rest := Split(s[1..], sep);
      if s[0] == sep then [[]] + rest else [[s[0]] + rest[0]] + rest[1..]
  }

  /** A text without the separator is a single part. */
  lemma {:induction false} SplitWithoutSeparator(s: string, sep: char)
    requires sep !in s
    ensures Split(s, sep) == [s]
  {
    if s != [] {
      SplitWithoutSeparator(s[1..], sep);
      assert [s[0]] + s[1..] == s;
    }
  }

  /** A result path splits back into its section and field. */
  lemma {:induction false} SplitResultKey(section: string, field: string)
    requires '.' !in section && '.' !in field
    ensures Split(ResultKey(section, field), '.') == [section, field]
  {
    var s := ResultKey(section, field);
    if section == [] {
      assert s == ['.'] + field && s[1..] == field;
      SplitWithoutSeparator(field, '.');
    } else {
      assert s[1..] == ResultKey(section[1..], field);
      SplitResultKey(section[1..], field);
      assert [section[0]] + section[1..] == section;
    }
  }

  /** Storing along keys meets a value that is not a dictionary where a
      dictionary is needed. */
  predicate Blocked(current: seq<Field>, keys: seq<string>)
    decreases |keys|
  {
    |keys| > 1 &&
    match Get(current, keys[0])
    case None => false
    case Some(child) => !child.JObj? || Blocked(child.fields, keys[1..])
  }

  /** `current[k1]...[kn] = value`, creating missing dictionaries on the
      way; None where the walk meets a non-dictionary (TypeError). Nothing
      is created before such a failure, since a missing key leads only
      through fresh dictionaries. */
  function StorePath(current: seq<Field>, keys: seq<string>, value: Json): (r: Option<seq<Field>>)
    requires keys != []
    decreases |keys|
  {
    if |keys| == 1 then Some(Put(current, keys[0], value))
    else
      var child := Get(current, keys[0]);
      if child.Some? && !child.value.JObj? then None
      else
        var inner := if child.None? then [] else child.value.fields;
        match StorePath(inner, keys[1..], value)
        case Some(updated) => Some(Put(current, keys[0], JObj(updated)))
        case None => None
  }

  /** A store fails exactly when the walk is blocked. */
  lemma {:induction false} StorePathFails(current: seq<Field>, keys: seq<string>, value: Json)
    requires keys != []
    ensures StorePath(current, keys, value).None? <==> Blocked(current, keys)
    decreases |keys|
  {
    if |keys| > 1 {
      var child := Get(current, keys[0]);
      if child.None? {
        StorePathFails([], keys[1..], value);
      } else if child.value.JObj? {
        StorePathFails(child.value.fields, keys[1..], value);
      }
    }
  }

  /** The dictionary a store descends into under key: the existing one,
      or a fresh empty one when the key is missing. */
  function Inner(current: seq<Field>, key: string): seq<Field>
  {
    var child := Get(current, key);
    if child.Some? && child.value.JObj? then child.value.fields else []
  }

  /** After a store the path leads to the value, every other top-level
      key is untouched, and a new first key is appended. Below the first
      key the store is the same store one level down into the existing
      (or a fresh) dictionary, so the frame holds at every level; the last
      clause spells it out for the second level. */
  lemma {:induction false} StorePathSpec(current: seq<Field>, keys: seq<string>, value: Json)
    requires keys != [] && !Blocked(current, keys)
    ensures StorePath(current, keys, value).Some?
    ensures At(JObj(StorePath(current, keys, value).value), keys) == Some(value)
    ensures forall k :: k != keys[0] ==> Get(StorePath(current, keys, value).value, k) == Get(current, k)
    ensures Keys(StorePath(current, keys, value).value)
            == if keys[0] in Keys(current) then Keys(current) else Keys(current) + [keys[0]]
    ensures |keys| > 1 ==>
              !Blocked(Inner(current, keys[0]), keys[1..]) &&
              StorePath(Inner(current, keys[0]), keys[1..], value).Some? &&
              Get(StorePath(current, keys, value).value, keys[0])
                == Some(JObj(StorePath(Inner(current, keys[0]), keys[1..], value).value))
    ensures |keys| > 1 && Get(current, keys[0]).Some? ==>
              forall k :: k != keys[1] ==>
                Get(Get(StorePath(current, keys, value).value, keys[0]).value.fields, k)
                  == Get(Get(current, keys[0]).value.fields, k)
    decreases |keys|
  {
    if |keys| == 1 {
      PutKeys(current, keys[0], value);
    } else {
      var child := Get(current, keys[0]);
      var inner := if child.None? then [] else child.value.fields;
      assert !Blocked(inner, keys[1..]);
      StorePathSpec(inner, keys[1..], value);
      var updated := StorePath(inner, keys[1..], value).value;
      var r := Put(current, keys[0], JObj(updated));
      assert StorePath(current, keys, value) == Some(r);
      assert Get(r, keys[0]) == Some(JObj(updated));
      assert At(JObj(r), keys) == At(JObj(updated), keys[1..]);
      PutKeys(current, keys[0], JObj(updated));
    }
  }

  // ---------------------------------------------------------------------
  // execute_mandatory_calculations

  /** The executor after a prefix of the plan: the results filed so far (None
      once an exception escaped), the counter of stored results and the
      audit log. */
  datatype ExecState = ExecState(results: Option<seq<Field>>, succeeded: nat, log: seq<LogEntry>)

  function ErrorLeaf(message: string): Json
  {
    JObj([Field("error", JStr(message))])
  }

  /** Filing one outcome under the step's path: the result itself, or
      {"error": message} for a rejected call; None when the store raised. */
  function File(results: seq<Field>, t: ToolExecution, o: Outcome): (r: Option<seq<Field>>)
  {
    StorePath(results, Split(t.expectedResultKey, '.'), Filed(o))
  }

  /** What is filed for an outcome: the result, or {"error": message}. */
  function Filed(o: Outcome): Json
  {
    match o
    case Returned(v) => v
    case Rejected(m) => ErrorLeaf(m)
  }

  /** What one invocation did: its outcome and the entries it logged. */
  datatype Call = Call(outcome: Outcome, entries: seq<LogEntry>)

  function CallOf(t: ToolExecution): Call
  {
    Call(Invocation(t), InvocationEntries(t))
  }

  /** One iteration given what the call did: store the result, or
      {"error": ...} for a rejected call. When storing the result raised,
      storing the error leaf at the same path raises again and escapes. Only
      stored results are counted. */
  function Step(st: ExecState, t: ToolExecution, c: Call): ExecState
  {
    if st.results.None? then st
    else
      var filed := File(st.results.value, t, c.outcome);
      ExecState(filed, st.succeeded + (if c.outcome.Returned? && filed.Some? then 1 else 0), st.log + c.entries)
  }

  /** The remaining iterations from state st. */
  function ReplayFrom(st: ExecState, tools: seq<ToolExecution>, calls: seq<Call>): ExecState
    requires |calls| == |tools|
    decreases |tools|
  {
    if tools == [] then st else ReplayFrom(Step(st, tools[0], calls[0]), tools[1..], calls[1..])
  }

  function Calls(tools: seq<ToolExecution>): (r: seq<Call>)
    ensures |r| == |tools| && forall i :: 0 <= i < |tools| ==> r[i] == CallOf(tools[i])
  {
    if tools == [] then [] else [CallOf(tools[0])] + Calls(tools[1..])
  }

  const Start: ExecState := ExecState(Some([]), 0, [])

  /** The whole plan from a cleared log and an empty result dictionary,
      each step doing what its tool does. */
  function Run(tools: seq<ToolExecution>): ExecState
  {
    ReplayFrom(Start, tools, Calls(tools))
  }

  lemma ReplayOne(st: ExecState, tools: seq<ToolExecution>, calls: seq<Call>, c: Call, next: ExecState)
    requires |calls| == |tools| && tools != [] && calls[0] == c && st.results.Some?
    requires next.results == File(st.results.value, tools[0], c.outcome)
    requires next.succeeded == st.succeeded + (if c.outcome.Returned? && next.results.Some? then 1 else 0)
    requires next.log == st.log + c.entries
    ensures ReplayFrom(st, tools, calls) == ReplayFrom(next, tools[1..], calls[1..])
  {
    StepTo(st, tools[0], c, next);
  }

  lemma StepTo(st: ExecState, t: ToolExecution, c: Call, next: ExecState)
    requires st.results.Some?
    requires next.results == File(st.results.value, t, c.outcome)
    requires next.succeeded == st.succeeded + (if c.outcome.Returned? && next.results.Some? then 1 else 0)
    requires next.log == st.log + c.entries
    ensures Step(st, t, c) == next
  {
  }

  /** Once an exception has escaped, nothing further happens. */
  lemma {:induction false} ReplayAfterEscape(st: ExecState, tools: seq<ToolExecution>, calls: seq<Call>)
    requires |calls| == |tools| && st.results.None?
    ensures ReplayFrom(st, tools, calls) == st
  {
    if tools != [] {
      ReplayAfterEscape(st, tools[1..], calls[1..]);
    }
  }

  /** execute_mandatory_calculations: clears the log, runs every step in
      order and returns the filed results (None when an exception escaped)
      with the number of steps whose result was stored. */
  method ExecuteMandatoryCalculations(calculator: FinancialCalculator, plan: CalculationPlan)
    returns (results: Option<seq<Field>>, succeeded: nat)
    modifies calculator
    ensures results == Run(plan.requiredTools).results
    ensures succeeded == Run(plan.requiredTools).succeeded
    ensures calculator.calculationLog == Run(plan.requiredTools).log
  {
    var cleared := ClearCalculationLog(calculator);
    var tools := plan.requiredTools;
    ghost var calls := Calls(tools);
    var stored: seq<Field> := [];
    succeeded := 0;
    var escaped := false;
    var i := 0;
    while i < |tools| && !escaped
      invariant 0 <= i <= |tools|
      invariant Run(tools) == ReplayFrom(ExecState(if escaped then None else Some(stored), succeeded,
                                                   calculator.calculationLog), tools[i..], calls[i..])
    {
      var t := tools[i];
      ghost var before := ExecState(Some(stored), succeeded, calculator.calculationLog);
      var outcome := InvokeTool(calculator, t);
      var filed := File(stored, t, outcome);
      ghost var next := ExecState(filed, succeeded + (if outcome.Returned? && filed.Some? then 1 else 0),
                                  calculator.calculationLog);
      ReplayOne(before, tools[i..], calls[i..], Call(outcome, InvocationEntries(t)), next);
      assert tools[i..][1..] == tools[i + 1..] && calls[i..][1..] == calls[i + 1..];
      if outcome.Returned? && filed.Some? {
        succeeded := succeeded + 1;
      }
      if filed.Some? {
        stored := filed.value;
      } else {
        escaped := true;
      }
      assert next == ExecState(if escaped then None else Some(stored), succeeded, calculator.calculationLog);
      i := i + 1;
    }
    if escaped {
      ReplayAfterEscape(ExecState(None, succeeded, calculator.calculationLog), tools[i..], calls[i..]);
      results := None;
    } else {
      results := Some(stored);
    }
  }

  // ---------------------------------------------------------------------
  // what a plan of recipe steps files

  /** The section a step's result is filed under: the first part of its
      path. */
  function Section(t: ToolExecution): string
  {
    Split(t.expectedResultKey, '.')[0]
  }

  /** A path of two parts, `section.field`. */
  predicate TwoPart(t: ToolExecution)
  {
    |Split(t.expectedResultKey, '.')| == 2
  }

  /** What a recipe step's invocation does: a footing step is rejected and
      logs nothing, any other step returns and logs one entry. */
  predicate Ordinary(c: Call, footing: bool)
  {
    (c.outcome.Rejected? <==> footing) && |c.entries| == if footing then 0 else 1
  }

  /** A step as the recipes build it: a two-part path, and a sum,
      subtraction or balance check that binds, or a footing step that fails
      to bind. */
  predicate Recipe(t: ToolExecution)
  {
    && TwoPart(t) && t.tool != PercentageTool
    && if t.tool == FootingTool then Bind(t).Err? else Bind(t).Ok?
  }

  /** A sum, subtraction or balance check on numbers logs one entry. */
  lemma OneEntry(args: Arguments)
    requires args.SumArgs? || args.SubtractArgs? || args.BalanceArgs?
    ensures |ToolEntries(args)| == 1
  {
    match args
    case SumArgs(vs, d) => SumOfNumbers(vs, d);
    case SubtractArgs(m, s, d) => SubtractOnNumbers(m, s, d);
    case BalanceArgs(a, l, e) => BalanceOnNumbers(a, l, e);
  }

  lemma RecipeCall(t: ToolExecution)
    requires Recipe(t)
    ensures Ordinary(CallOf(t), t.tool == FootingTool)
  {
    if t.tool != FootingTool {
      OneEntry(Bind(t).value);
      BoundCall(t, Bind(t).value);
    }
  }

  /** The entry filing a call adds to a result dictionary that lacks the
      step's section: {section: {field: what was filed}}. */
  function Entry(t: ToolExecution, c: Call): Field
    requires TwoPart(t)
  {
    Field(Section(t), JObj([Field(Split(t.expectedResultKey, '.')[1], Filed(c.outcome))]))
  }

  function Entries(tools: seq<ToolExecution>, calls: seq<Call>): (r: seq<Field>)
    requires |calls| == |tools| && forall i :: 0 <= i < |tools| ==> TwoPart(tools[i])
    ensures |r| == |tools|
  {
    if tools == [] then [] else [Entry(tools[0], calls[0])] + Entries(tools[1..], calls[1..])
  }

  function FootingCount(tools: seq<ToolExecution>): (r: nat)
    ensures r <= |tools|
  {
    if tools == [] then 0 else (if tools[0].tool == FootingTool then 1 else 0) + FootingCount(tools[1..])
  }

  /** A key no field carries. */
  predicate Absent(fields: seq<Field>, key: string)
  {
    forall k :: 0 <= k < |fields| ==> fields[k].key != key
  }

  /** Assigning a new key appends it. */
  lemma {:induction false} PutFresh(fields: seq<Field>, key: string, value: Json)
    requires Absent(fields, key)
    ensures Put(fields, key, value) == fields + [Field(key, value)]
  {
    if fields != [] {
      AbsentTail(fields, key);
      PutFresh(fields[1..], key, value);
      ConsAppend(fields, Field(key, value));
    }
  }

  lemma AbsentTail(fields: seq<Field>, key: string)
    requires fields != [] && Absent(fields, key)
    ensures fields[0].key != key && Absent(fields[1..], key)
  {
    forall k | 0 <= k < |fields[1..]|
      ensures fields[1..][k].key != key
    {
      assert fields[1..][k] == fields[k + 1];
    }
  }

  lemma ConsAppend<T>(s: seq<T>, x: T)
    requires s != []
    ensures [s[0]] + (s[1..] + [x]) == s + [x]
  {
  }

  lemma {:induction false} GetAbsent(fields: seq<Field>, key: string)
    requires Absent(fields, key)
    ensures Get(fields, key) == None
  {
    if fields != [] {
      GetAbsent(fields[1..], key);
    }
  }

  /** Storing at `section.field` for a new section appends
      {section: {field: value}}. */
  lemma StoreFresh(current: seq<Field>, section: string, field: string, value: Json)
    requires Absent(current, section)
    ensures StorePath(current, [section, field], value) == Some(current + [Field(section, JObj([Field(field, value)]))])
  {
    GetAbsent(current, section);
    PutFresh(current, section, JObj([Field(field, value)]));
  }

  lemma FileFresh(results: seq<Field>, t: ToolExecution, c: Call)
    requires TwoPart(t) && Absent(results, Section(t))
    ensures File(results, t, c.outcome) == Some(results + [Entry(t, c)])
  {
    var path := Split(t.expectedResultKey, '.');
    assert path == [Section(t), path[1]];
    StoreFresh(results, Section(t), path[1], Filed(c.outcome));
  }

  /** The first step of a recipe plan files its entry under its fresh
      section. */
  lemma ReplayFresh(st: ExecState, tools: seq<ToolExecution>, calls: seq<Call>)
    requires |calls| == |tools| && tools != [] && st.results.Some?
    requires TwoPart(tools[0]) && Ordinary(calls[0], tools[0].tool == FootingTool)
    requires Absent(st.results.value, Section(tools[0]))
    ensures ReplayFrom(st, tools, calls)
            == ReplayFrom(ExecState(Some(st.results.value + [Entry(tools[0], calls[0])]),
                                    st.succeeded + (if tools[0].tool == FootingTool then 0 else 1),
                                    st.log + calls[0].entries), tools[1..], calls[1..])
  {
    FileFresh(st.results.value, tools[0], calls[0]);
    ReplayOne(st, tools, calls, calls[0],
              ExecState(Some(st.results.value + [Entry(tools[0], calls[0])]),
                        st.succeeded + (if tools[0].tool == FootingTool then 0 else 1),
                        st.log + calls[0].entries));
  }

  lemma EntriesCons(results: seq<Field>, tools: seq<ToolExecution>, calls: seq<Call>)
    requires |calls| == |tools| && tools != [] && forall i :: 0 <= i < |tools| ==> TwoPart(tools[i])
    ensures (results + [Entry(tools[0], calls[0])]) + Entries(tools[1..], calls[1..]) == results + Entries(tools, calls)
  {
    assert Entries(tools, calls) == [Entry(tools[0], calls[0])] + Entries(tools[1..], calls[1..]);
  }

  /** The sections after the first stay fresh once the first is filed. */
  lemma TailFresh(results: seq<Field>, e: Field, tools: seq<ToolExecution>)
    requires tools != [] && e.key == Section(tools[0])
    requires forall i :: 0 <= i < |tools| ==> Absent(results, Section(tools[i]))
    requires forall i, j :: 0 <= i < j < |tools| ==> Section(tools[i]) != Section(tools[j])
    ensures forall i :: 0 <= i < |tools[1..]| ==> Absent(results + [e], Section(tools[1..][i]))
    ensures forall i, j :: 0 <= i < j < |tools[1..]| ==> Section(tools[1..][i]) != Section(tools[1..][j])
  {
    forall i | 0 <= i < |tools[1..]|
      ensures Absent(results + [e], Section(tools[1..][i]))
    {
      assert tools[1..][i] == tools[i + 1];
    }
  }

  lemma {:induction false} ReplayRecipes(st: ExecState, tools: seq<ToolExecution>, calls: seq<Call>)
    requires |calls| == |tools| && st.results.Some?
    requires forall i :: 0 <= i < |tools| ==> TwoPart(tools[i]) && Ordinary(calls[i], tools[i].tool == FootingTool)
    requires forall i :: 0 <= i < |tools| ==> Absent(st.results.value, Section(tools[i]))
    requires forall i, j :: 0 <= i < j < |tools| ==> Section(tools[i]) != Section(tools[j])
    ensures ReplayFrom(st, tools, calls).results == Some(st.results.value + Entries(tools, calls))
    decreases |tools|
  {
    if tools == [] {
      assert st.results.value + Entries(tools, calls) == st.results.value;
    } else {
      var next := ExecState(Some(st.results.value + [Entry(tools[0], calls[0])]),
                            st.succeeded + (if tools[0].tool == FootingTool then 0 else 1), st.log + calls[0].entries);
      var rest := ReplayFrom(next, tools[1..], calls[1..]);
      assert ReplayFrom(st, tools, calls) == rest by { ReplayFresh(st, tools, calls); }
      assert rest.results == Some(next.results.value + Entries(tools[1..], calls[1..])) by {
        TailRecipes(st, tools, calls, next);
        ReplayRecipes(next, tools[1..], calls[1..]);
      }
      EntriesCons(st.results.value, tools, calls);
    }
  }

  /** The same steps count every non-footing step and log one entry for it. */
  lemma {:induction false} ReplayTally(st: ExecState, tools: seq<ToolExecution>, calls: seq<Call>)
    requires |calls| == |tools| && st.results.Some?
    requires forall i :: 0 <= i < |tools| ==> TwoPart(tools[i]) && Ordinary(calls[i], tools[i].tool == FootingTool)
    requires forall i :: 0 <= i < |tools| ==> Absent(st.results.value, Section(tools[i]))
    requires forall i, j :: 0 <= i < j < |tools| ==> Section(tools[i]) != Section(tools[j])
    ensures ReplayFrom(st, tools, calls).succeeded == st.succeeded + |tools| - FootingCount(tools)
    ensures |ReplayFrom(st, tools, calls).log| == |st.log| + |tools| - FootingCount(tools)
    decreases |tools|
  {
    if tools != [] {
      var next := ExecState(Some(st.results.value + [Entry(tools[0], calls[0])]),
                            st.succeeded + (if tools[0].tool == FootingTool then 0 else 1), st.log + calls[0].entries);
      var rest := ReplayFrom(next, tools[1..], calls[1..]);
      assert ReplayFrom(st, tools, calls) == rest by { ReplayFresh(st, tools, calls); }
      assert && rest.succeeded == next.succeeded + |tools[1..]| - FootingCount(tools[1..])
             && |rest.log| == |next.log| + |tools[1..]| - FootingCount(tools[1..]) by {
        TailRecipes(st, tools, calls, next);
        ReplayTally(next, tools[1..], calls[1..]);
      }
      var counted := if tools[0].tool == FootingTool then 0 else 1;
      assert FootingCount(tools) == 1 - counted + FootingCount(tools[1..]);
    }
  }


  /** The rest of the plan meets ReplayRecipes' conditions from the state
      after the first step. */
  lemma TailRecipes(st: ExecState, tools: seq<ToolExecution>, calls: seq<Call>, next: ExecState)
    requires |calls| == |tools| && tools != [] && st.results.Some?
    requires forall i :: 0 <= i < |tools| ==> TwoPart(tools[i]) && Ordinary(calls[i], tools[i].tool == FootingTool)
    requires forall i :: 0 <= i < |tools| ==> Absent(st.results.value, Section(tools[i]))
    requires forall i, j :: 0 <= i < j < |tools| ==> Section(tools[i]) != Section(tools[j])
    requires next.results == Some(st.results.value + [Entry(tools[0], calls[0])])
    ensures next.results.Some? && |calls[1..]| == |tools[1..]|
    ensures forall i :: 0 <= i < |tools[1..]| ==> TwoPart(tools[1..][i]) && Ordinary(calls[1..][i], tools[1..][i].tool == FootingTool)
    ensures forall i :: 0 <= i < |tools[1..]| ==> Absent(next.results.value, Section(tools[1..][i]))
    ensures forall i, j :: 0 <= i < j < |tools[1..]| ==> Section(tools[1..][i]) != Section(tools[1..][j])
  {
    TailFresh(st.results.value, Entry(tools[0], calls[0]), tools);
    forall i | 0 <= i < |tools[1..]|
      ensures TwoPart(tools[1..][i]) && Ordinary(calls[1..][i], tools[1..][i].tool == FootingTool)
    {
      assert tools[1..][i] == tools[i + 1] && calls[1..][i] == calls[i + 1];
    }
  }

  /** Every element holds P. */
  predicate All<T>(P: T -> bool, s: seq<T>)
  {
    forall j :: 0 <= j < |s| ==> P(s[j])
  }

  /** No two elements share a key. */
  predicate DistinctBy<T>(key: T -> string, s: seq<T>)
  {
    forall i, j :: 0 <= i < j < |s| ==> key(s[i]) != key(s[j])
  }

  /** Steps as the recipes build them, filed under distinct sections. */
  predicate Recipes(tools: seq<ToolExecution>)
  {
    All(TwoPart, tools) && All(Recipe, tools) && DistinctBy(Section, tools)
  }

  /** A plan of recipe steps with distinct sections runs without an
      escaping exception and files one entry per step, in plan order; every
      step but a footing step is counted and logs one entry. */
  lemma RunRecipes(tools: seq<ToolExecution>)
    requires Recipes(tools)
    ensures Run(tools).results == Some(Entries(tools, Calls(tools)))
    ensures Run(tools).succeeded == |Run(tools).log| == |tools| - FootingCount(tools)
  {
    forall i | 0 <= i < |tools|
      ensures Ordinary(Calls(tools)[i], tools[i].tool == FootingTool)
    {
      RecipeCall(tools[i]);
    }
    ReplayRecipes(Start, tools, Calls(tools));
    ReplayTally(Start, tools, Calls(tools));
    assert [] + Entries(tools, Calls(tools)) == Entries(tools, Calls(tools));
  }

  /** Arguments that bind make the call return the tool's result and log
      the tool's entries. */
  lemma BoundCall(t: ToolExecution, args: Arguments)
    requires Bind(t) == Ok(args)
    ensures CallOf(t) == Call(Returned(ToolResult(args)), ToolEntries(args))
  {
  }

  lemma BindSum(t: ToolExecution, values: seq<real>, description: string)
    requires t.tool == SumTool && NumbersArg(t.parameters, "values") == Some(values)
    requires TextArg(t.parameters, "description", "Sum calculation") == Some(description)
    ensures Bind(t) == Ok(SumArgs(values, description))
  {
  }

  lemma BindSubtract(t: ToolExecution, minuend: real, subtrahend: real, description: string)
    requires t.tool == SubtractTool && NumberArg(t.parameters, "minuend") == Some(minuend)
    requires NumberArg(t.parameters, "subtrahend") == Some(subtrahend)
    requires TextArg(t.parameters, "description", "Subtraction calculation") == Some(description)
    ensures Bind(t) == Ok(SubtractArgs(minuend, subtrahend, description))
  {
  }

  lemma BindBalance(t: ToolExecution, assets: real, liabilities: real, equity: real)
    requires t.tool == BalanceTool && NumberArg(t.parameters, "assets") == Some(assets)
    requires NumberArg(t.parameters, "liabilities") == Some(liabilities)
    requires NumberArg(t.parameters, "equity") == Some(equity)
    ensures Bind(t) == Ok(BalanceArgs(assets, liabilities, equity))
  {
  }

  lemma BindFootingWithoutComponents(t: ToolExecution)
    requires t.tool == FootingTool && NumberArg(t.parameters, "reported_total").Some?
    requires "component_values" !in t.parameters
    ensures Bind(t) == Err(BindingError(FootingTool, "component_values"))
  {
  }

  /** A path `section.field` of two dot-free parts. */
  lemma KeyParts(t: ToolExecution, section: string, field: string)
    requires t.expectedResultKey == ResultKey(section, field) && '.' !in section && '.' !in field
    ensures TwoPart(t) && Section(t) == section
  {
    SplitResultKey(section, field);
  }

  /** A sum step over numbers binds its values and its text; its result
      is filed under its section. */
  lemma SumStepRecipe(values: seq<real>, what: string, description: string, section: string)
    requires '.' !in section
    ensures var t := SumStep(values, what, description, section);
      Recipe(t) && TwoPart(t) && Section(t) == section && Bind(t) == Ok(SumArgs(values, what))
  {
    var t := SumStep(values, what, description, section);
    assert '.' !in "nilai_perhitungan";
    KeyParts(t, section, "nilai_perhitungan");
    BindSum(t, values, what);
  }

  lemma SubtractStepRecipe(minuend: real, subtrahend: real)
    ensures var t := SubtractStep(minuend, subtrahend);
      && Recipe(t) && TwoPart(t) && Section(t) == "laba_bersih"
      && Bind(t) == Ok(SubtractArgs(minuend, subtrahend, "Calculate net income"))
  {
    var t := SubtractStep(minuend, subtrahend);
    assert '.' !in "laba_bersih" && '.' !in "nilai_perhitungan";
    KeyParts(t, "laba_bersih", "nilai_perhitungan");
    BindSubtract(t, minuend, subtrahend, "Calculate net income");
  }

  lemma BalanceStepRecipe(v: seq<real>)
    requires |v| >= 1
    ensures var t := BalanceStep(v);
      && Recipe(t) && TwoPart(t) && Section(t) == "balancing"
      && Bind(t) == Ok(BalanceArgs(v[0], v[|v| / 2], v[|v| - 1]))
  {
    var t := BalanceStep(v);
    assert '.' !in "balancing" && '.' !in "status";
    KeyParts(t, "balancing", "status");
    BindBalance(t, v[0], v[|v| / 2], v[|v| - 1]);
  }

  /** The footing step never reaches its tool: "component_values" is
      missing, so the step is rejected and logs nothing. */
  lemma FootingStepRecipe(v: seq<real>)
    requires |v| >= 1
    ensures var t := FootingStep(v);
      && Recipe(t) && TwoPart(t) && Section(t) == "footing_validation"
      && Bind(t) == Err(BindingError(FootingTool, "component_values"))
  {
    var t := FootingStep(v);
    assert '.' !in "footing_validation" && '.' !in "status";
    KeyParts(t, "footing_validation", "status");
    BindFootingWithoutComponents(t);
  }

  // ---------------------------------------------------------------------
  // the recipes build recipe plans


  /** Putting an optional element that holds P and has a new key in front
      of elements that hold P and have distinct keys from a known set. */
  lemma PrefixOne<T>(P: T -> bool, key: T -> string, present: bool, t: T, rest: seq<T>, keys: set<string>)
    requires forall j :: 0 <= j < |rest| ==> P(rest[j]) && key(rest[j]) in keys
    requires forall i, j :: 0 <= i < j < |rest| ==> key(rest[i]) != key(rest[j])
    requires present ==> P(t) && key(t) !in keys
    ensures var s := (if present then [t] else []) + rest;
      && (forall j :: 0 <= j < |s| ==> P(s[j]) && key(s[j]) in keys + if present then {key(t)} else {})
      && (forall i, j :: 0 <= i < j < |s| ==> key(s[i]) != key(s[j]))
  {
    var s := (if present then [t] else []) + rest;
    if present {
      forall i | 0 <= i < |s|
        ensures P(s[i]) && key(s[i]) in keys + {key(t)}
      {
        if i > 0 { assert s[i] == rest[i - 1]; }
      }
      forall i, j | 0 <= i < j < |s|
        ensures key(s[i]) != key(s[j])
      {
        assert s[j] == rest[j - 1];
        if i > 0 { assert s[i] == rest[i - 1]; }
      }
    } else {
      assert s == rest;
    }
  }

  /** The five balance-sheet steps, each optional but the first: every
      one holds P and their keys differ. */
  lemma FiveSteps<T>(P: T -> bool, key: T -> string, s1: T, s2: T, s3: T, f: T, bal: T,
                     p2: bool, p3: bool, p4: bool, p5: bool)
    requires P(s1) && P(s2) && P(s3) && P(f) && P(bal)
    requires key(s1) == "aset_lancar" && key(s2) == "aset_tetap" && key(s3) == "total_aset"
    requires key(f) == "footing_validation" && key(bal) == "balancing"
    ensures var tools := [s1] + ((if p2 then [s2] else []) + ((if p3 then [s3] else [])
                                 + ((if p4 then [f] else []) + (if p5 then [bal] else []))));
      All(P, tools) && DistinctBy(key, tools)
  {
    var e := if p5 then [bal] else [];
    var d := if p4 then [f] else [];
    var c := if p3 then [s3] else [];
    var b := if p2 then [s2] else [];
    var k1: set<string> := {"balancing"};
    var k2 := k1 + {"footing_validation"};
    var k3 := k2 + {"total_aset"};
    var k4 := k3 + {"aset_tetap"};
    SectionNamesApart(k1, k2, k3, k4);
    PrefixOne(P, key, p5, bal, [], {});
    PrefixOne(P, key, p4, f, e, k1);
    PrefixOne(P, key, p3, s3, d + e, k2);
    PrefixOne(P, key, p2, s2, c + (d + e), k3);
    PrefixOne(P, key, true, s1, b + (c + (d + e)), k4);
  }

  /** The balance-sheet section names differ from the ones after them. */
  lemma SectionNamesApart(k1: set<string>, k2: set<string>, k3: set<string>, k4: set<string>)
    requires k1 == {"balancing"} && k2 == k1 + {"footing_validation"}
    requires k3 == k2 + {"total_aset"} && k4 == k3 + {"aset_tetap"}
    ensures "footing_validation" !in k1 && "total_aset" !in k2 && "aset_tetap" !in k3 && "aset_lancar" !in k4
    ensures {} + {"balancing"} <= k1 && k1 + {"footing_validation"} <= k2
    ensures k2 + {"total_aset"} <= k3 && k3 + {"aset_tetap"} <= k4
  {
    assert "footing_validation"[0] != "balancing"[0];
    assert "total_aset"[0] != "balancing"[0] && "total_aset"[0] != "footing_validation"[0];
    assert "aset_tetap"[0] != "balancing"[0] && "aset_tetap"[0] != "footing_validation"[0];
    assert "aset_tetap"[0] != "total_aset"[0];
    assert "aset_lancar"[0] != "balancing"[0] && "aset_lancar"[0] != "footing_validation"[0];
    assert "aset_lancar"[0] != "total_aset"[0] && "aset_lancar"[5] != "aset_tetap"[5];
  }

  /** Only the footing step of the five counts as a footing step. */
  lemma FiveFootings(s1: ToolExecution, s2: ToolExecution, s3: ToolExecution, f: ToolExecution, bal: ToolExecution,
                     p2: bool, p3: bool, p4: bool, p5: bool)
    requires s1.tool == SumTool && s2.tool == SumTool && s3.tool == SumTool && f.tool == FootingTool
    requires bal.tool == BalanceTool
    ensures var tools := [s1] + ((if p2 then [s2] else []) + ((if p3 then [s3] else [])
                                 + ((if p4 then [f] else []) + (if p5 then [bal] else []))));
      FootingCount(tools) == if p4 then 1 else 0
  {
    var e := if p5 then [bal] else [];
    var d := if p4 then [f] else [];
    var c := if p3 then [s3] else [];
    var b := if p2 then [s2] else [];
    FootingPrefix(p5, bal, []);
    FootingPrefix(p4, f, e);
    FootingPrefix(p3, s3, d + e);
    FootingPrefix(p2, s2, c + (d + e));
    FootingPrefix(true, s1, b + (c + (d + e)));
  }

  lemma FootingPrefix(present: bool, t: ToolExecution, rest: seq<ToolExecution>)
    ensures FootingCount((if present then [t] else []) + rest)
            == (if present && t.tool == FootingTool then 1 else 0) + FootingCount(rest)
  {
    var s := (if present then [t] else []) + rest;
    if present { assert s[1..] == rest; } else { assert s == rest; }
  }

  /** Every balance-sheet step is a recipe step with its own section; the
      one footing step is there from three values on. */
  lemma BalanceSheetRecipes(v: seq<real>)
    ensures Recipes(BalanceSheetTools(Bucket(v)))
    ensures FootingCount(BalanceSheetTools(Bucket(v))) == if |v| >= 3 then 1 else 0
  {
    var b, n := Bucket(v), |v|;
    if n > 0 {
      var s1 := SumStep(Take(b.currentAssets, 5), "Calculate total current assets", "Sum of current assets", "aset_lancar");
      var s2 := SumStep(Take(b.fixedAssets, 5), "Calculate total fixed assets", "Sum of fixed assets", "aset_tetap");
      var s3 := SumStep(Take(v, 10), "Calculate total assets", "Calculate total assets", "total_aset");
      var f, bal := FootingStep(v), BalanceStep(v);
      var tools := [s1] + ((if b.fixedAssets != [] then [s2] else []) + ((if n >= 2 then [s3] else [])
                           + ((if n >= 3 then [f] else []) + (if n >= 6 then [bal] else []))));
      assert BalanceSheetTools(b) == tools;
      PlainSections();
      SumStepRecipe(Take(b.currentAssets, 5), "Calculate total current assets", "Sum of current assets", "aset_lancar");
      SumStepRecipe(Take(b.fixedAssets, 5), "Calculate total fixed assets", "Sum of fixed assets", "aset_tetap");
      SumStepRecipe(Take(v, 10), "Calculate total assets", "Calculate total assets", "total_aset");
      FootingStepRecipe(v);
      BalanceStepRecipe(v);
      FiveSteps(Recipe, Section, s1, s2, s3, f, bal, b.fixedAssets != [], n >= 2, n >= 3, n >= 6);
      FiveSteps(TwoPart, Section, s1, s2, s3, f, bal, b.fixedAssets != [], n >= 2, n >= 3, n >= 6);
      FiveFootings(s1, s2, s3, f, bal, b.fixedAssets != [], n >= 2, n >= 3, n >= 6);
    } else {
      assert BalanceSheetTools(b) == [];
    }
  }

  /** No section name of the recipes holds the path separator. */
  lemma PlainSections()
    ensures '.' !in "aset_lancar" && '.' !in "aset_tetap" && '.' !in "total_aset"
    ensures '.' !in "total_pendapatan" && '.' !in "total_beban"
    ensures '.' !in "arus_kas_operasi" && '.' !in "arus_kas_bersih"
  {
  }

  /** The three income-statement steps, each optional: every one holds P
      and their keys differ. */
  lemma ThreeSteps<T>(P: T -> bool, key: T -> string, revenue: T, expenses: T, net: T,
                      p1: bool, p2: bool, p3: bool)
    requires P(revenue) && P(expenses) && P(net)
    requires key(revenue) == "total_pendapatan" && key(expenses) == "total_beban" && key(net) == "laba_bersih"
    ensures var tools := (if p1 then [revenue] else []) + ((if p2 then [expenses] else []) + (if p3 then [net] else []));
      All(P, tools) && DistinctBy(key, tools)
  {
    var c := if p3 then [net] else [];
    var b := if p2 then [expenses] else [];
    PrefixOne(P, key, p3, net, [], {});
    PrefixOne(P, key, p2, expenses, c, {"laba_bersih"});
    PrefixOne(P, key, p1, revenue, b + c, {"laba_bersih", "total_beban"});
  }

  /** The two cash-flow steps, each optional. */
  lemma TwoSteps<T>(P: T -> bool, key: T -> string, operating: T, net: T, p1: bool, p2: bool)
    requires P(operating) && P(net)
    requires key(operating) == "arus_kas_operasi" && key(net) == "arus_kas_bersih"
    ensures var tools := (if p1 then [operating] else []) + (if p2 then [net] else []);
      All(P, tools) && DistinctBy(key, tools)
  {
    PrefixOne(P, key, p2, net, [], {});
    PrefixOne(P, key, p1, operating, if p2 then [net] else [], {"arus_kas_bersih"});
  }

  /** Every income-statement step is a recipe step with its own section,
      and none is a footing step. */
  lemma IncomeStatementRecipes(v: seq<real>)
    ensures Recipes(IncomeStatementTools(Bucket(v)))
    ensures FootingCount(IncomeStatementTools(Bucket(v))) == 0
  {
    var n := |v|;
    if n >= 2 {
      var revenue := SumStep(Take(v, 3), "Calculate total revenue", "Total revenue calculation", "total_pendapatan");
      var expenses := SumStep(Slice(v, 2, 7), "Calculate total expenses", "Total expense calculation", "total_beban");
      var net := SubtractStep(v[0], v[1]);
      var tools := [revenue] + ((if n >= 4 then [expenses] else []) + [net]);
      assert IncomeStatementTools(Bucket(v)) == tools;
      PlainSections();
      SumStepRecipe(Take(v, 3), "Calculate total revenue", "Total revenue calculation", "total_pendapatan");
      SumStepRecipe(Slice(v, 2, 7), "Calculate total expenses", "Total expense calculation", "total_beban");
      SubtractStepRecipe(v[0], v[1]);
      ThreeSteps(Recipe, Section, revenue, expenses, net, true, n >= 4, true);
      ThreeSteps(TwoPart, Section, revenue, expenses, net, true, n >= 4, true);
      FootingPrefix(true, net, []);
      FootingPrefix(n >= 4, expenses, [net]);
      FootingPrefix(true, revenue, (if n >= 4 then [expenses] else []) + [net]);
    } else {
      assert IncomeStatementTools(Bucket(v)) == [];
    }
  }

  /** Every cash-flow step is a recipe step with its own section, and none
      is a footing step. */
  lemma CashFlowRecipes(v: seq<real>)
    ensures Recipes(CashFlowTools(Bucket(v)))
    ensures FootingCount(CashFlowTools(Bucket(v))) == 0
  {
    var n := |v|;
    var operating := SumStep(Take(v, 4), "Calculate operating cash flow", "Operating cash flow", "arus_kas_operasi");
    var net := SumStep(Take(v, 6), "Calculate net cash flow", "Net cash flow", "arus_kas_bersih");
    var tools := (if n >= 3 then [operating] else []) + (if n >= 6 then [net] else []);
    assert CashFlowTools(Bucket(v)) == tools;
    PlainSections();
    SumStepRecipe(Take(v, 4), "Calculate operating cash flow", "Operating cash flow", "arus_kas_operasi");
    SumStepRecipe(Take(v, 6), "Calculate net cash flow", "Net cash flow", "arus_kas_bersih");
    TwoSteps(Recipe, Section, operating, net, n >= 3, n >= 6);
    TwoSteps(TwoPart, Section, operating, net, n >= 3, n >= 6);
    FootingPrefix(n >= 6, net, []);
    FootingPrefix(n >= 3, operating, if n >= 6 then [net] else []);
  }

  /** Whether a plan for this text and type holds the footing step: a
      balance-sheet plan from three values on. */
  predicate HasFootingStep(text: string, statementType: string)
  {
    IsBalanceType(statementType) && |ExtractValues(text)| >= 3
  }

  /** Every plan is made of recipe steps with distinct sections, with one
      footing step exactly when HasFootingStep. */
  lemma PlanRecipes(text: string, statementType: string)
    ensures var tools := CreatePlan(text, statementType).requiredTools;
      Recipes(tools) && FootingCount(tools) == if HasFootingStep(text, statementType) then 1 else 0
  {
    var v := ExtractValues(text);
    if IsBalanceType(statementType) {
      BalanceSheetRecipes(v);
    } else if statementType == "laba_rugi" {
      IncomeStatementRecipes(v);
    } else if statementType == "arus_kas" {
      CashFlowRecipes(v);
    }
  }

  /** Executing any plan files one {section: {field: ...}} entry per step
      in plan order and lets no exception escape; every step but the
      footing step is counted and logs one entry, so the log matches the
      plan length exactly when there is no footing step. */
  lemma PlanRun(text: string, statementType: string)
    ensures var tools := CreatePlan(text, statementType).requiredTools;
      && Recipes(tools)
      && Run(tools).results == Some(Entries(tools, Calls(tools)))
      && Run(tools).succeeded == |Run(tools).log|
      && |Run(tools).log| == |tools| - if HasFootingStep(text, statementType) then 1 else 0
    ensures var plan := CreatePlan(text, statementType);
      |Run(plan.requiredTools).log| == plan.totalToolCount <==> !HasFootingStep(text, statementType)
  {
    PlanRecipes(text, statementType);
    RunRecipes(CreatePlan(text, statementType).requiredTools);
  }

  /** A balance-sheet plan on at least one value opens with the sum of the
      current assets. */
  lemma BalanceSheetFirstStep(v: seq<real>)
    requires |v| >= 1
    ensures var tools := BalanceSheetTools(Bucket(v));
      tools != [] && Bucket(v).currentAssets != []
      && tools[0] == SumStep(Take(Bucket(v).currentAssets, 5), "Calculate total current assets",
                             "Sum of current assets", "aset_lancar")
  {
    var b := Bucket(v);
    assert b.currentAssets != [] by {
      if |v| > 3 {
        assert |v[..|v| / 3]| >= 1;
      }
    }
  }

  /** The first entry filed is the first one found at its path. */
  lemma FirstEntryNested(tools: seq<ToolExecution>, calls: seq<Call>, section: string, field: string, default: Json)
    requires |calls| == |tools| && tools != [] && forall i :: 0 <= i < |tools| ==> TwoPart(tools[i])
    requires Split(tools[0].expectedResultKey, '.') == [section, field]
    ensures GetNested(Entries(tools, calls), section, field, default) == Some(Filed(calls[0].outcome))
  {
    assert Entries(tools, calls)[0] == Entry(tools[0], calls[0]);
  }

  /** A sum step returns the sum tool's result dictionary. */
  lemma SumStepOutcome(vs: seq<real>, what: string, description: string, section: string)
    requires '.' !in section
    ensures CallOf(SumStep(vs, what, description, section)).outcome == Returned(Sum(Nums(vs)).ToJson())
  {
    SumStepRecipe(vs, what, description, section);
    BoundCall(SumStep(vs, what, description, section), SumArgs(vs, what));
  }

  /** A plan opening with a sum step returns, first, the sum tool's result
      dictionary. */
  lemma OpeningSumCall(tools: seq<ToolExecution>, calls: seq<Call>, vs: seq<real>, what: string, description: string)
    requires calls == Calls(tools) && tools != [] && tools[0] == SumStep(vs, what, description, "aset_lancar")
    ensures calls[0].outcome == Returned(Sum(Nums(vs)).ToJson())
  {
    assert calls[0] == CallOf(SumStep(vs, what, description, "aset_lancar"));
    PlainSections();
    SumStepOutcome(vs, what, description, "aset_lancar");
  }

  /** Entries whose first step files under aset_lancar.nilai_perhitungan
      hold what that step's call returned there. */
  lemma OpeningEntryFiled(tools: seq<ToolExecution>, calls: seq<Call>, j: Json)
    requires |calls| == |tools| && tools != [] && All(TwoPart, tools)
    requires tools[0].expectedResultKey == ResultKey("aset_lancar", "nilai_perhitungan")
    requires calls[0].outcome == Returned(j)
    ensures GetNested(Entries(tools, calls), "aset_lancar", "nilai_perhitungan", JNum(0.0)) == Some(j)
  {
    SplitResultKey("aset_lancar", "nilai_perhitungan");
    FirstEntryNested(tools, calls, "aset_lancar", "nilai_perhitungan", JNum(0.0));
  }

  /** Entries opening with a sum step under aset_lancar hold that sum's
      result dictionary under aset_lancar.nilai_perhitungan. */
  lemma OpeningSumFiled(tools: seq<ToolExecution>, vs: seq<real>, what: string, description: string)
    requires tools != [] && tools[0] == SumStep(vs, what, description, "aset_lancar") && All(TwoPart, tools)
    ensures GetNested(Entries(tools, Calls(tools)), "aset_lancar", "nilai_perhitungan", JNum(0.0))
            == Some(Sum(Nums(vs)).ToJson())
  {
    var calls := Calls(tools);
    OpeningSumCall(tools, calls, vs, what, description);
    OpeningEntryFiled(tools, calls, Sum(Nums(vs)).ToJson());
  }

  /** For a balance type with at least one extracted value, the run files
      the sum tool's whole result dictionary under
      aset_lancar.nilai_perhitungan. */
  lemma CurrentAssetsFiled(text: string, statementType: string)
    requires IsBalanceType(statementType) && |ExtractValues(text)| >= 1
    ensures var results := Run(CreatePlan(text, statementType).requiredTools).results;
      && results.Some?
      && GetNested(results.value, "aset_lancar", "nilai_perhitungan", JNum(0.0))
         == Some(Sum(Nums(Take(ExtractFinancialValues(text).currentAssets, 5))).ToJson())
  {
    var v := ExtractValues(text);
    var tools := CreatePlan(text, statementType).requiredTools;
    assert tools == BalanceSheetTools(Bucket(v));
    BalanceSheetFirstStep(v);
    PlanRun(text, statementType);
    OpeningSumFiled(tools, Take(Bucket(v).currentAssets, 5), "Calculate total current assets", "Sum of current assets");
  }

  // ---------------------------------------------------------------------
  // validate_tool_usage

  /** The phrases that betray a manual calculation, in the order they are
      tried. */
  const ForbiddenPatterns: seq<string> :=
    ["calculated manually", "computed by hand", "manual calculation", "i calculated", "my calculation"]

  /** The index of the first pattern the serialised, lower-cased result
      mentions. */
  function FirstMentioned(agentResult: Json, patterns: seq<string>): (r: Option<nat>)
    ensures r.Some? ==> r.value < |patterns| && Mentions(agentResult, patterns[r.value], false)
    ensures r.Some? ==> forall k :: 0 <= k < r.value ==> !Mentions(agentResult, patterns[k], false)
    ensures r.None? <==> forall k :: 0 <= k < |patterns| ==> !Mentions(agentResult, patterns[k], false)
  {
    if patterns == [] then None
    else if Mentions(agentResult, patterns[0], false) then Some(0)
    else
      var rest := patterns[1..];
      assert forall k :: 0 <= k < |rest| ==> rest[k] == patterns[k + 1];
      match FirstMentioned(agentResult, rest)
      case Some(k) => Some(k + 1)
      case None => None
  }

  datatype UsageVerdict = UsageVerdict(valid: bool, message: string)

  /** The verdict on a result given the number of log entries: the count is
      checked first, then the patterns in order. */
  function UsageVerdictOf(actual: nat, agentResult: Json, expected: nat): (r: UsageVerdict)
    ensures r.valid <==> actual == expected
                         && forall k :: 0 <= k < |ForbiddenPatterns| ==> !Mentions(agentResult, ForbiddenPatterns[k], false)
    ensures actual != expected ==> r.message == "Expected " + NatToString(expected) + " tools, got " + NatToString(actual)
  {
    if actual != expected then
      UsageVerdict(false, "Expected " + NatToString(expected) + " tools, got " + NatToString(actual))
    else
      match FirstMentioned(agentResult, ForbiddenPatterns)
      case Some(k) => UsageVerdict(false, "Forbidden manual calculation detected: " + ForbiddenPatterns[k])
      case None => UsageVerdict(true, "Tool usage validated")
  }

  /** validate_tool_usage: reads the calculator's log. */
  method ValidateToolUsage(calculator: FinancialCalculator, agentResult: Json, expected: nat)
    returns (valid: bool, message: string)
    ensures UsageVerdict(valid, message) == UsageVerdictOf(|calculator.calculationLog|, agentResult, expected)
  {
    var actual := |GetCalculationLog(calculator)|;
    if actual != expected {
      return false, "Expected " + NatToString(expected) + " tools, got " + NatToString(actual);
    }
    var i := 0;
    while i < |ForbiddenPatterns|
      invariant 0 <= i <= |ForbiddenPatterns|
      invariant forall k :: 0 <= k < i ==> !Mentions(agentResult, ForbiddenPatterns[k], false)
    {
      if Mentions(agentResult, ForbiddenPatterns[i], false) {
        FirstMentionedAt(agentResult, ForbiddenPatterns, i);
        return false, "Forbidden manual calculation detected: " + ForbiddenPatterns[i];
      }
      i := i + 1;
    }
    return true, "Tool usage validated";
  }

  /** The first mentioned pattern is the one a front-to-back scan stops at. */
  lemma FirstMentionedAt(agentResult: Json, patterns: seq<string>, i: nat)
    requires i < |patterns| && Mentions(agentResult, patterns[i], false)
    requires forall k :: 0 <= k < i ==> !Mentions(agentResult, patterns[k], false)
    ensures FirstMentioned(agentResult, patterns) == Some(i)
  {
  }

  // ---------------------------------------------------------------------
  // create_standardized_json_structure

  /** `results.get(section, {}).get(field, default)`: None where the
      section holds something other than a dictionary, which has no `get`
      (AttributeError). */
  function GetNested(results: seq<Field>, section: string, field: string, default: Json): (r: Option<Json>)
    ensures Get(results, section).None? ==> r == Some(default)
    ensures r.None? <==> Get(results, section).Some? && !Get(results, section).value.JObj?
    ensures At(JObj(results), [section, field]).Some? ==> r == At(JObj(results), [section, field])
  {
    match Get(results, section)
    case None => Some(default)
    case Some(JObj(fields)) => Some(GetOr(fields, field, default))
    case Some(_) => None
  }

  const AccountKeys: seq<string> := ["nama_akun", "nilai_tercatat", "nilai_perhitungan", "selisih", "status", "source"]

  /** One account line of the standardized structure: the tool value is
      both the recorded and the computed figure. */
  function AccountLine(name: string, value: Json): Json
  {
    JObj(Object(AccountKeys, AccountValues(name, value)))
  }

  /** A balance-sheet structure from its three tool values. */
  function BalanceStructure(currentAssets: Json, totalAssets: Json, balancing: Json): Json
  {
    JObj([Field("laporan_posisi_keuangan", JObj([
      Field("aset", JObj([Field("aset_lancar", AccountLine("Jumlah Aset Lancar", currentAssets)),
                          Field("total_aset", AccountLine("Total Aset", totalAssets))])),
      Field("balancing", JObj([Field("status", balancing), Field("source", JStr("balance_equation_tool"))]))]))])
  }

  /** create_standardized_json_structure; None where a lookup raised. */
  function CreateStandardizedJsonStructure(toolResults: seq<Field>, statementType: string): (r: Option<Json>)
    ensures r.None? <==> IsBalanceType(statementType)
                         && (GetNested(toolResults, "aset_lancar", "nilai_perhitungan", JNum(0.0)).None?
                             || GetNested(toolResults, "total_aset", "nilai_perhitungan", JNum(0.0)).None?
                             || GetNested(toolResults, "balancing", "status", JStr("Verified by tool")).None?)
    ensures r.Some? ==> r.value.JObj?
  {
    if IsBalanceType(statementType) then
      var current := GetNested(toolResults, "aset_lancar", "nilai_perhitungan", JNum(0.0));
      var total := GetNested(toolResults, "total_aset", "nilai_perhitungan", JNum(0.0));
      var balancing := GetNested(toolResults, "balancing", "status", JStr("Verified by tool"));
      if current.None? || total.None? || balancing.None? then None
      else Some(BalanceStructure(current.value, total.value, balancing.value))
    else Some(JObj([Field("tool_based_calculation", JObj(toolResults))]))
  }

  lemma AccountKeysDistinct()
    ensures forall i, j :: 0 <= i < j < |AccountKeys| ==> AccountKeys[i] != AccountKeys[j]
  {
    forall i, j | 0 <= i < j < |AccountKeys|
      ensures AccountKeys[i] != AccountKeys[j]
    {
      assert AccountKeys[i][0..2] != AccountKeys[j][0..2] || |AccountKeys[i]| != |AccountKeys[j]| || AccountKeys[i][5] != AccountKeys[j][5];
    }
  }

  function AccountValues(name: string, value: Json): seq<Json>
  {
    [JStr(name), value, value, JNum(0.0), JStr("OK"), JStr("calculation_tool")]
  }

  lemma AccountLineAt(name: string, value: Json, i: nat)
    requires i < |AccountKeys|
    ensures At(AccountLine(name, value), [AccountKeys[i]]) == Some(AccountValues(name, value)[i])
  {
    AccountKeysDistinct();
    AtObject(AccountKeys, AccountValues(name, value), i);
  }

  /** The recorded and the computed figure of an account line are the same
      tool value, with no difference and status OK. */
  lemma AccountLineFigures(name: string, value: Json)
    ensures At(AccountLine(name, value), ["nilai_tercatat"]) == Some(value)
    ensures At(AccountLine(name, value), ["nilai_perhitungan"]) == Some(value)
    ensures At(AccountLine(name, value), ["selisih"]) == Some(JNum(0.0))
    ensures At(AccountLine(name, value), ["status"]) == Some(JStr("OK"))
  {
    AccountLineAt(name, value, 1);
    AccountLineAt(name, value, 2);
    AccountLineAt(name, value, 3);
    AccountLineAt(name, value, 4);
  }

  /** For a balance type the structure is built from the tool's
      nilai_perhitungan values (0 when absent) and its balancing status (a
      fixed text when absent); any other type hands the tool results on
      unchanged. */
  lemma StandardizedStructure(toolResults: seq<Field>, statementType: string)
    ensures IsBalanceType(statementType) && CreateStandardizedJsonStructure(toolResults, statementType).Some? ==>
      CreateStandardizedJsonStructure(toolResults, statementType).value
      == BalanceStructure(GetNested(toolResults, "aset_lancar", "nilai_perhitungan", JNum(0.0)).value,
                          GetNested(toolResults, "total_aset", "nilai_perhitungan", JNum(0.0)).value,
                          GetNested(toolResults, "balancing", "status", JStr("Verified by tool")).value)
    ensures !IsBalanceType(statementType) ==>
      At(CreateStandardizedJsonStructure(toolResults, statementType).value, ["tool_based_calculation"]) == Some(JObj(toolResults))
  {
    if !IsBalanceType(statementType) {
      StepDown(CreateStandardizedJsonStructure(toolResults, statementType).value, "tool_based_calculation", JObj(toolResults), []);
    }
  }
}
