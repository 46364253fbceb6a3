/** The arithmetic engine of the audit: a calculator that sums, subtracts,
    checks the balance-sheet equation and takes percentages, appending one
    audit-log entry per successful operation, plus the footing check that
    composes a sum and a subtraction (calculation_tools.py). Decimal
    arithmetic is modelled with exact reals. */
module CalculationTools {
  import opened Wrappers
  import opened Text
  import opened Json

  function Abs(x: real): (r: real)
    ensures r >= 0.0 && (r == x || r == -x)
  {
    if x < 0.0 then -x else x
  }

  /** str(e) for the decimal.InvalidOperation that Decimal() raises on a
      text it cannot read. */
  const ConversionSyntax: string := "[<class 'decimal.ConversionSyntax'>]"

  // ---------------------------------------------------------------------
  // operands

  /** The cleaning applied to a text operand: commas removed, '(' read as
      a minus sign, ')' removed, then surrounding whitespace stripped. */
  function CleanNumeric(s: string): (r: string)
    ensures ',' !in r && '(' !in r && ')' !in r
  {
    Strip(Replace(Replace(Replace(s, ',', ""), '(', "-"), ')', ""))
  }

  /** precise_decimal: text is cleaned and read as a decimal, a number is
      taken as is; None, booleans, lists and dictionaries do not convert
      (None when Decimal() raises). Decimal() itself drops every underscore
      of the text before reading it, and accepts an exponent part. */
  function PreciseDecimal(v: Json): (r: Option<real>)
    ensures v.JNum? ==> r == Some(v.n)
    ensures v.JStr? ==> r == ParseDecimal(Replace(CleanNumeric(v.s), '_', ""))
    ensures (v.JNull? || v.JBool? || v.JArr? || v.JObj?) ==> r.None?
  {
    match v
    case JStr(s) => ParseDecimal(Replace(CleanNumeric(s), '_', ""))
    case JNum(n) => Some(n)
    case _ => None
  }

  /** Underscores anywhere in a digit string are ignored. */
  lemma UnderscoresIgnored(g: string, d: string)
    requires forall i :: 0 <= i < |g| ==> IsDigit(g[i]) || g[i] == '_'
    requires d != [] && AllDigits(d) && Replace(g, '_', "") == d
    ensures PreciseDecimal(JStr(g)) == Some(DigitsValue(d) as real)
  {
    assert g != [];
    assert !IsSpace(g[0]) && !IsSpace(g[|g| - 1]);
    StripUnchanged(g);
    assert ',' !in g && '(' !in g && ')' !in g by {
      forall k | 0 <= k < |g|
        ensures g[k] != ',' && g[k] != '(' && g[k] != ')'
      {
        assert IsDigit(g[k]) || g[k] == '_';
      }
    }
    assert CleanNumeric(g) == g;
    ParseDigits(d);
  }

  /** A text operand in scientific notation is scaled by its exponent. */
  lemma ExponentText(m: string, x: string)
    requires m != [] && AllDigits(m) && x != [] && AllDigits(x)
    ensures PreciseDecimal(JStr(m + "e" + x)) == Some(Scale(DigitsValue(m) as real, DigitsValue(x)))
    ensures PreciseDecimal(JStr(m + "E-" + x)) == Some(Scale(DigitsValue(m) as real, -(DigitsValue(x) as int)))
  {
    ParseExponentForm(m, 'e', x);
    ParseExponentForm(m, 'E', x);
    ScientificOperand(m, "e", x);
    ScientificOperand(m, "E-", x);
    assert m + "E-" + x == m + ['E', '-'] + x;
  }

  lemma ScientificOperand(m: string, mid: string, x: string)
    requires m != [] && AllDigits(m) && x != [] && AllDigits(x)
    requires mid == "e" || mid == "E-"
    ensures PreciseDecimal(JStr(m + mid + x)) == ParseDecimal(m + mid + x)
  {
    var s := m + mid + x;
    DigitChars(m);
    DigitChars(x);
    assert forall c :: c in s ==> c in m || c in mid || c in x;
    assert s[0] == m[0] && s[|s| - 1] == x[|x| - 1];
    assert IsDigit(m[0]) && IsDigit(x[|x| - 1]);
    PlainOperand(s);
  }

  /** Text made of digits, letters and signs other than ',', '(', ')' and '_',
      not starting or ending in whitespace, is read as written. */
  lemma PlainOperand(s: string)
    requires s != [] && !IsSpace(s[0]) && !IsSpace(s[|s| - 1])
    requires ',' !in s && '(' !in s && ')' !in s && '_' !in s
    ensures PreciseDecimal(JStr(s)) == ParseDecimal(s)
  {
    StripUnchanged(s);
  }

  /** The operands that are not None, in order. */
  function NonNone(values: seq<Json>): (r: seq<Json>)
    ensures |r| <= |values|
    ensures forall j :: j in r <==> j in values && j != JNull
  {
    if values == [] then []
    else (if values[0] == JNull then [] else [values[0]]) + NonNone(values[1..])
  }

  /** Filtering distributes over concatenation, so NonNone keeps the order
      and the multiplicity of the operands it keeps. */
  lemma {:induction false} NonNoneConcat(a: seq<Json>, b: seq<Json>)
    ensures NonNone(a + b) == NonNone(a) + NonNone(b)
    decreases |a|
  {
    if a == [] {
      assert a + b == b;
    } else {
      assert (a + b)[0] == a[0];
      assert (a + b)[1..] == a[1..] + b;
      NonNoneConcat(a[1..], b);
    }
  }

  /** A single operand is dropped exactly when it is None. */
  lemma NonNoneSingle(v: Json)
    ensures NonNone([v]) == (if v == JNull then [] else [v])
  {
    assert [v][1..] == [];
  }

  /** Converts every operand, failing on the first that does not convert. */
  function ParseAll(values: seq<Json>): (r: Option<seq<real>>)
    ensures r.Some? ==> |r.value| == |values|
    ensures r.Some? ==> forall i :: 0 <= i < |values| ==> PreciseDecimal(values[i]) == Some(r.value[i])
    ensures r.None? <==> exists i :: 0 <= i < |values| && PreciseDecimal(values[i]).None?
  {
    if values == [] then Some([])
    else match (PreciseDecimal(values[0]), ParseAll(values[1..]))
      case (Some(x), Some(xs)) => Some([x] + xs)
      case (None, _) => None
      case (_, None) => assert values[1..][0] == values[1]; None
  }

  /** Python's sum() of a list of numbers. */
  function Total(xs: seq<real>): real
  {
    if xs == [] then 0.0 else Total(xs[..|xs| - 1]) + xs[|xs| - 1]
  }

  lemma {:induction false} TotalAppend(xs: seq<real>, ys: seq<real>)
    ensures Total(xs + ys) == Total(xs) + Total(ys)
    decreases |ys|
  {
    if ys == [] {
      assert xs + ys == xs;
    } else {
      assert (xs + ys)[..|xs + ys| - 1] == xs + ys[..|ys| - 1];
      TotalAppend(xs, ys[..|ys| - 1]);
    }
  }

  function Nums(xs: seq<real>): (r: seq<Json>)
    ensures |r| == |xs| && forall i :: 0 <= i < |xs| ==> r[i] == JNum(xs[i])
  {
    if xs == [] then [] else [JNum(xs[0])] + Nums(xs[1..])
  }

  // ---------------------------------------------------------------------
  // the audit log

  /** The description of a percentage entry interpolates the operands as
      Python prints them, so it is kept as the operands themselves. */
  datatype Description = Plain(text: string) | PercentageOf(part: Json, total: Json)

  datatype LogEntry = LogEntry(operation: string, inputs: Json, result: Json, description: Description)

  // ---------------------------------------------------------------------
  // sum_values

  const SumKeys: seq<string> := ["result", "precision", "components", "component_count", "operation"]
  const SumErrorKeys: seq<string> := ["result", "error", "precision", "components", "component_count", "operation"]

  datatype SumResult = SumOk(total: real, components: seq<real>) | SumFailed(error: string)
  {
    function ToJson(): Json
    {
      match this
      case SumOk(total, components) =>
        JObj(Object(SumKeys, [JNum(total), JStr("high"), JArr(Nums(components)),
                              JNum(|components| as real), JStr("sum")]))
      case SumFailed(error) =>
        JObj(Object(SumErrorKeys, [JNum(0.0), JStr(error), JStr("error"), JArr([]), JNum(0.0), JStr("sum")]))
    }

    /** `result["result"]` */
    function Value(): real
    {
      if SumOk? then total else 0.0
    }
  }

  /** sum_values: the exact sum of the operands that are not None, or a
      failure when one of them does not convert. */
  function Sum(values: seq<Json>): (r: SumResult)
    ensures r.SumOk? <==> ParseAll(NonNone(values)).Some?
    ensures r.SumOk? ==> Some(r.components) == ParseAll(NonNone(values)) && r.total == Total(r.components)
    ensures r.SumOk? ==> |r.components| == |NonNone(values)|
    ensures r.SumFailed? ==> r.error == ConversionSyntax
  {
    match ParseAll(NonNone(values))
    case Some(xs) => SumOk(Total(xs), xs)
    case None => SumFailed(ConversionSyntax)
  }

  /** One "sum" entry on success, none on failure. */
  function SumEntries(values: seq<Json>, description: string): (r: seq<LogEntry>)
    ensures |r| == if Sum(values).SumOk? then 1 else 0
    ensures |r| == 1 ==> r[0].operation == "sum" && r[0].inputs == JArr(values)
  {
    match Sum(values)
    case SumOk(total, _) => [LogEntry("sum", JArr(values), JNum(total), Plain(description))]
    case SumFailed(_) => []
  }

  // ---------------------------------------------------------------------
  // subtract_values

  const SubtractKeys: seq<string> := ["result", "precision", "minuend", "subtrahend", "operation"]
  const SubtractErrorKeys: seq<string> := ["result", "error", "precision", "operation"]

  datatype SubtractResult =
    | SubtractOk(difference: real, minuend: real, subtrahend: real)
    | SubtractFailed(error: string)
  {
    function ToJson(): Json
    {
      match this
      case SubtractOk(difference, minuend, subtrahend) =>
        JObj(Object(SubtractKeys, [JNum(difference), JStr("high"), JNum(minuend), JNum(subtrahend), JStr("subtract")]))
      case SubtractFailed(error) =>
        JObj(Object(SubtractErrorKeys, [JNum(0.0), JStr(error), JStr("error"), JStr("subtract")]))
    }

    function Value(): real
    {
      if SubtractOk? then difference else 0.0
    }
  }

  /** subtract_values: minuend - subtrahend when both convert. */
  function Subtract(minuend: Json, subtrahend: Json): (r: SubtractResult)
    ensures r.SubtractOk? <==> PreciseDecimal(minuend).Some? && PreciseDecimal(subtrahend).Some?
    ensures r.SubtractOk? ==>
      && PreciseDecimal(minuend) == Some(r.minuend)
      && PreciseDecimal(subtrahend) == Some(r.subtrahend)
      && r.difference == r.minuend - r.subtrahend
    ensures r.SubtractFailed? ==> r.error == ConversionSyntax
  {
    match (PreciseDecimal(minuend), PreciseDecimal(subtrahend))
    case (Some(m), Some(s)) => SubtractOk(m - s, m, s)
    case _ => SubtractFailed(ConversionSyntax)
  }

  function SubtractEntries(minuend: Json, subtrahend: Json, description: string): (r: seq<LogEntry>)
    ensures |r| == if Subtract(minuend, subtrahend).SubtractOk? then 1 else 0
    ensures |r| == 1 ==> r[0].operation == "subtract"
  {
    match Subtract(minuend, subtrahend)
    case SubtractOk(difference, _, _) =>
      [LogEntry("subtract", JObj([Field("minuend", minuend), Field("subtrahend", subtrahend)]),
                JNum(difference), Plain(description))]
    case SubtractFailed(_) => []
  }

  // ---------------------------------------------------------------------
  // verify_balance_equation

  /** The tolerance of the balance-sheet equation: one cent. */
  const BalanceTolerance: real := 0.01

  const BalanceKeys: seq<string> :=
    ["assets", "liabilities", "equity", "liabilities_plus_equity", "difference", "is_balanced", "status",
     "precision", "operation"]
  const BalanceErrorKeys: seq<string> :=
    ["assets", "liabilities", "equity", "liabilities_plus_equity", "difference", "is_balanced", "status",
     "error", "precision", "operation"]

  function BalanceStatus(balanced: bool): string
  {
    if balanced then "Balanced" else "Unbalanced"
  }

  datatype BalanceResult =
    | BalanceOk(assets: real, liabilities: real, equity: real,
                liabilitiesPlusEquity: real, difference: real, isBalanced: bool)
    | BalanceFailed(error: string)
  {
    function ToJson(): Json
    {
      match this
      case BalanceOk(a, l, e, le, d, balanced) =>
        JObj(Object(BalanceKeys, [JNum(a), JNum(l), JNum(e), JNum(le), JNum(d), JBool(balanced),
                                  JStr(BalanceStatus(balanced)), JStr("high"), JStr("balance_verification")]))
      case BalanceFailed(error) =>
        JObj(Object(BalanceErrorKeys, [JNum(0.0), JNum(0.0), JNum(0.0), JNum(0.0), JNum(0.0), JBool(false),
                                       JStr("Error"), JStr(error), JStr("error"), JStr("balance_verification")]))
    }
  }

  /** verify_balance_equation: Assets = Liabilities + Equity up to one cent. */
  function Balance(assets: Json, liabilities: Json, equity: Json): (r: BalanceResult)
    ensures r.BalanceOk? <==>
      PreciseDecimal(assets).Some? && PreciseDecimal(liabilities).Some? && PreciseDecimal(equity).Some?
    ensures r.BalanceOk? ==>
      && PreciseDecimal(assets) == Some(r.assets)
      && PreciseDecimal(liabilities) == Some(r.liabilities)
      && PreciseDecimal(equity) == Some(r.equity)
      && r.liabilitiesPlusEquity == r.liabilities + r.equity
      && r.difference == r.assets - r.liabilitiesPlusEquity
      && (r.isBalanced <==> Abs(r.difference) < BalanceTolerance)
    ensures r.BalanceFailed? ==> r.error == ConversionSyntax
  {
    match (PreciseDecimal(assets), PreciseDecimal(liabilities), PreciseDecimal(equity))
    case (Some(a), Some(l), Some(e)) =>
      var d := a - (l + e);
      BalanceOk(a, l, e, l + e, d, Abs(d) < BalanceTolerance)
    case _ => BalanceFailed(ConversionSyntax)
  }

  function BalanceEntries(assets: Json, liabilities: Json, equity: Json): (r: seq<LogEntry>)
    ensures |r| == if Balance(assets, liabilities, equity).BalanceOk? then 1 else 0
    ensures |r| == 1 ==>
      r[0].operation == "balance_verification" && r[0].result == Balance(assets, liabilities, equity).ToJson()
  {
    var b := Balance(assets, liabilities, equity);
    if b.BalanceOk? then
      [LogEntry("balance_verification",
                JObj([Field("assets", assets), Field("liabilities", liabilities), Field("equity", equity)]),
                b.ToJson(), Plain("Balance sheet equation verification"))]
    else []
  }

  // ---------------------------------------------------------------------
  // calculate_percentage

  const PercentageKeys: seq<string> := ["percentage", "part", "total", "precision", "operation"]
  const PercentageErrorKeys: seq<string> := ["percentage", "part", "total", "error", "precision", "operation"]

  datatype PercentageResult =
    | PercentageOk(percentage: real, part: real, total: real)
    | DivisionByZero(part: real)
    | PercentageFailed(error: string)
  {
    function ToJson(): Json
    {
      match this
      case PercentageOk(p, part, total) =>
        JObj(Object(PercentageKeys, [JNum(p), JNum(part), JNum(total), JStr("high"), JStr("percentage")]))
      case DivisionByZero(part) =>
        JObj(Object(PercentageErrorKeys, [JNum(0.0), JNum(part), JNum(0.0), JStr("Division by zero"), JStr("error"),
                                          JStr("percentage")]))
      case PercentageFailed(error) =>
        JObj(Object(PercentageErrorKeys, [JNum(0.0), JNum(0.0), JNum(0.0), JStr(error), JStr("error"),
                                          JStr("percentage")]))
    }
  }

  /** calculate_percentage: part / total * 100, with a zero total reported
      as an error rather than raised. */
  function Percentage(part: Json, total: Json): (r: PercentageResult)
    ensures r.PercentageFailed? <==> PreciseDecimal(part).None? || PreciseDecimal(total).None?
    ensures r.DivisionByZero? <==> PreciseDecimal(part).Some? && PreciseDecimal(total) == Some(0.0)
    ensures r.DivisionByZero? ==> PreciseDecimal(part) == Some(r.part)
    ensures r.PercentageOk? ==>
      && PreciseDecimal(part) == Some(r.part)
      && PreciseDecimal(total) == Some(r.total)
      && r.total != 0.0
      && r.percentage == r.part / r.total * 100.0
  {
    var p, t := PreciseDecimal(part), PreciseDecimal(total);
    if p.None? || t.None? then PercentageFailed(ConversionSyntax)
    else if t.value == 0.0 then DivisionByZero(p.value)
    else PercentageOk(p.value / t.value * 100.0, p.value, t.value)
  }

  function PercentageEntries(part: Json, total: Json): (r: seq<LogEntry>)
    ensures |r| == if Percentage(part, total).PercentageOk? then 1 else 0
    ensures |r| == 1 ==> r[0].operation == "percentage" && r[0].description == PercentageOf(part, total)
  {
    match Percentage(part, total)
    case PercentageOk(p, _, _) =>
      [LogEntry("percentage", JObj([Field("part", part), Field("total", total)]), JNum(p),
                PercentageOf(part, total))]
    case _ => []
  }

  // ---------------------------------------------------------------------
  // validate_footing_calculation

  /** Footing is accurate when the components sum to the reported total
      within one unit. */
  const FootingTolerance: real := 1.0

  const FootingKeys: seq<string> :=
    ["reported_total", "calculated_total", "difference", "is_accurate", "status", "component_count", "components",
     "precision", "operation", "description"]

  datatype FootingResult = FootingResult(
    reportedTotal: Json, calculatedTotal: real, difference: real, isAccurate: bool,
    components: seq<Json>, description: string)
  {
    function ToJson(): Json
    {
      JObj(Object(FootingKeys, [reportedTotal, JNum(calculatedTotal), JNum(difference), JBool(isAccurate),
                                JStr(if isAccurate then "OK" else "ERROR"), JNum(|components| as real),
                                JArr(components), JStr("high"), JStr("footing_validation"), JStr(description)]))
    }
  }

  /** The operands of the subtraction inside the footing check: the sum's
      result (0 when the sum failed) and the reported total. */
  function FootingSum(components: seq<Json>): real
  {
    Sum(components).Value()
  }

  /** validate_footing_calculation: the difference is the result of
      subtracting the reported total from the components' sum (0 when
      either step failed), accurate when below one unit in magnitude. */
  function Footing(reported: Json, components: seq<Json>, description: string): (r: FootingResult)
    ensures r.calculatedTotal == FootingSum(components)
    ensures r.difference == Subtract(JNum(r.calculatedTotal), reported).Value()
    ensures r.isAccurate <==> Abs(r.difference) < FootingTolerance
    ensures r.reportedTotal == reported && r.components == components && r.description == description
  {
    var calculated := FootingSum(components);
    var difference := Subtract(JNum(calculated), reported).Value();
    FootingResult(reported, calculated, difference, Abs(difference) < FootingTolerance, components, description)
  }

  /** The sum's entry and the subtraction's entry (each only when that step
      succeeded), then the footing entry. */
  function FootingEntries(reported: Json, components: seq<Json>, description: string): (r: seq<LogEntry>)
    ensures |r| >= 1 && r[|r| - 1].operation == "footing_validation"
  {
    SumEntries(components, "Components for " + description)
    + SubtractEntries(JNum(FootingSum(components)), reported, "Difference for " + description)
    + [FootingEntry(reported, components, description)]
  }

  function FootingEntry(reported: Json, components: seq<Json>, description: string): (e: LogEntry)
    ensures e.operation == "footing_validation"
  {
    LogEntry("footing_validation", JObj([Field("reported", reported), Field("components", JArr(components))]),
             Footing(reported, components, description).ToJson(), Plain(description))
  }

  // ---------------------------------------------------------------------
  // the calculator

  /** FinancialCalculator with its audit trail. */
  class FinancialCalculator {
    var calculationLog: seq<LogEntry>

    constructor()
      ensures calculationLog == []
    {
      calculationLog := [];
    }

    method LogCalculation(operation: string, inputs: Json, result: Json, description: Description)
      modifies this
      ensures calculationLog == old(calculationLog) + [LogEntry(operation, inputs, result, description)]
    {
      calculationLog := calculationLog + [LogEntry(operation, inputs, result, description)];
    }

    /** sum_values */
    method SumValues(values: seq<Json>, description: string) returns (r: SumResult)
      modifies this
      ensures r == Sum(values)
      ensures calculationLog == old(calculationLog) + SumEntries(values, description)
    {
      r := Sum(values);
      if r.SumOk? {
        LogCalculation("sum", JArr(values), JNum(r.total), Plain(description));
      }
    }

    /** subtract_values */
    method SubtractValues(minuend: Json, subtrahend: Json, description: string) returns (r: SubtractResult)
      modifies this
      ensures r == Subtract(minuend, subtrahend)
      ensures calculationLog == old(calculationLog) + SubtractEntries(minuend, subtrahend, description)
    {
      r := Subtract(minuend, subtrahend);
      if r.SubtractOk? {
        LogCalculation("subtract", JObj([Field("minuend", minuend), Field("subtrahend", subtrahend)]),
                       JNum(r.difference), Plain(description));
      }
    }

    /** verify_balance_equation */
    method VerifyBalanceEquation(assets: Json, liabilities: Json, equity: Json) returns (r: BalanceResult)
      modifies this
      ensures r == Balance(assets, liabilities, equity)
      ensures calculationLog == old(calculationLog) + BalanceEntries(assets, liabilities, equity)
    {
      r := Balance(assets, liabilities, equity);
      if r.BalanceOk? {
        LogCalculation("balance_verification",
                       JObj([Field("assets", assets), Field("liabilities", liabilities), Field("equity", equity)]),
                       r.ToJson(), Plain("Balance sheet equation verification"));
      }
    }

    /** calculate_percentage */
    method CalculatePercentage(part: Json, total: Json) returns (r: PercentageResult)
      modifies this
      ensures r == Percentage(part, total)
      ensures calculationLog == old(calculationLog) + PercentageEntries(part, total)
    {
      r := Percentage(part, total);
      if r.PercentageOk? {
        LogCalculation("percentage", JObj([Field("part", part), Field("total", total)]),
                       JNum(r.percentage), PercentageOf(part, total));
      }
    }
  }

  /** validate_footing_calculation on the shared calculator: a sum, a
      subtraction, then the footing entry. */
  method ValidateFootingCalculation(calculator: FinancialCalculator, reported: Json, components: seq<Json>,
                                    description: string) returns (r: FootingResult)
    modifies calculator
    ensures r == Footing(reported, components, description)
    ensures calculator.calculationLog == old(calculator.calculationLog) + FootingEntries(reported, components, description)
  {
    ghost var log0 := calculator.calculationLog;
    var sumResult := calculator.SumValues(components, "Components for " + description);
    var calculated := sumResult.Value();
    ghost var log1 := calculator.calculationLog;
    var difference := calculator.SubtractValues(JNum(calculated), reported, "Difference for " + description);
    ghost var log2 := calculator.calculationLog;
    var isAccurate := Abs(difference.Value()) < FootingTolerance;
    r := FootingResult(reported, calculated, difference.Value(), isAccurate, components, description);
    calculator.LogCalculation("footing_validation",
                              JObj([Field("reported", reported), Field("components", JArr(components))]),
                              r.ToJson(), Plain(description));
    FootingEntriesSplit(reported, components, description, log0, log1, log2, calculator.calculationLog);
  }

  lemma FootingEntriesSplit(reported: Json, components: seq<Json>, description: string,
                            log0: seq<LogEntry>, log1: seq<LogEntry>, log2: seq<LogEntry>, log3: seq<LogEntry>)
    requires log1 == log0 + SumEntries(components, "Components for " + description)
    requires log2 == log1 + SubtractEntries(JNum(FootingSum(components)), reported, "Difference for " + description)
    requires log3 == log2 + [FootingEntry(reported, components, description)]
    ensures log3 == log0 + FootingEntries(reported, components, description)
  {
    var a := SumEntries(components, "Components for " + description);
    var b := SubtractEntries(JNum(FootingSum(components)), reported, "Difference for " + description);
    var c := [FootingEntry(reported, components, description)];
    assert FootingEntries(reported, components, description) == a + b + c;
    AppendThree(log0, a, b, c, log1, log2, log3);
  }

  lemma AppendThree<T>(s0: seq<T>, a: seq<T>, b: seq<T>, c: seq<T>, s1: seq<T>, s2: seq<T>, s3: seq<T>)
    requires s1 == s0 + a && s2 == s1 + b && s3 == s2 + c
    ensures s3 == s0 + (a + b + c)
  {
  }

  /** get_calculation_log: the log itself. */
  function GetCalculationLog(calculator: FinancialCalculator): (r: seq<LogEntry>)
    reads calculator
    ensures |r| == |calculator.calculationLog|
    ensures forall i :: 0 <= i < |r| ==> r[i] == calculator.calculationLog[i]
  {
    calculator.calculationLog
  }

  /** clear_calculation_log */
  method ClearCalculationLog(calculator: FinancialCalculator) returns (r: Json)
    modifies calculator
    ensures calculator.calculationLog == []
    ensures r == JObj([Field("status", JStr("cleared")), Field("message", JStr("Calculation log has been cleared"))])
  {
    calculator.calculationLog := [];
    r := JObj([Field("status", JStr("cleared")), Field("message", JStr("Calculation log has been cleared"))]);
  }

  // ---------------------------------------------------------------------
  // validate_calculation_result

  /** Python's isinstance(x, (int, float)); bool is a subclass of int. */
  predicate IsNumber(x: Json)
  {
    x.JNum? || x.JBool?
  }

  /** validate_calculation_result: a dictionary with the fields result,
      precision and operation, without an error field, with precision
      "high" and a numeric result. */
  function ValidateCalculationResult(result: Json): (ok: bool)
    ensures ok <==>
      && result.JObj?
      && "result" in Keys(result.fields) && "precision" in Keys(result.fields) && "operation" in Keys(result.fields)
      && "error" !in Keys(result.fields)
      && Get(result.fields, "precision") == Some(JStr("high"))
      && IsNumber(Get(result.fields, "result").value)
  {
    match result
    case JObj(fields) =>
      (match (Get(fields, "result"), Get(fields, "precision"), Get(fields, "operation"), Get(fields, "error"))
       case (Some(value), Some(precision), Some(_), None) => precision == JStr("high") && IsNumber(value)
       case _ => false)
    case _ => false
  }

  // ---------------------------------------------------------------------
  // properties

  /** Grouped digits such as "1,000" or "12,345,678". */
  predicate DigitsAndCommas(g: string)
  {
    g != [] && IsDigit(g[0]) && forall i :: 0 <= i < |g| ==> IsDigit(g[i]) || g[i] == ','
  }

  /** The digits of a grouped amount once the commas are removed. */
  function Ungrouped(g: string): (d: string)
    requires DigitsAndCommas(g)
    ensures d != [] && AllDigits(d)
    ensures '(' !in d && ')' !in d && '.' !in d
  {
    RemoveCommasDigits(g);
    Replace(g, ',', "")
  }

  lemma RemoveCommasDigits(g: string)
    requires DigitsAndCommas(g)
    ensures Replace(g, ',', "") != [] && AllDigits(Replace(g, ',', ""))
  {
    var d := Replace(g, ',', "");
    assert d == [g[0]] + Replace(g[1..], ',', "");
    forall i | 0 <= i < |d|
      ensures IsDigit(d[i])
    {
      assert d[i] in d;
    }
  }

  /** A single-character text that is not the pattern is left alone. */
  lemma ReplaceOther(c: char, p: char, repl: string)
    requires c != p
    ensures Replace([c], p, repl) == [c]
  {
    assert [c][1..] == [];
  }

  /** A single-character text that is the pattern becomes the replacement. */
  lemma ReplaceSame(c: char, repl: string)
    ensures Replace([c], c, repl) == repl
  {
    assert [c][1..] == [];
  }

  lemma ReplaceAround(a: char, mid: string, b: char, c: char, repl: string)
    ensures Replace([a] + mid + [b], c, repl) == Replace([a], c, repl) + Replace(mid, c, repl) + Replace([b], c, repl)
  {
    ReplaceConcat([a] + mid, [b], c, repl);
    ReplaceConcat([a], mid, c, repl);
  }

  /** Grouped digits read as the number their digits d denote. */
  lemma GroupedDigitsParse(g: string, d: string)
    requires DigitsAndCommas(g) && d == Ungrouped(g)
    ensures PreciseDecimal(JStr(g)) == Some(DigitsValue(d) as real)
  {
    assert IsDigit(d[0]) && IsDigit(d[|d| - 1]);
    StripUnchanged(d);
    ParseDigits(d);
    DigitsHaveNoExponent(d);
  }

  lemma DropCommas(g: string)
    requires DigitsAndCommas(g)
    ensures Replace("(" + g + ")", ',', "") == "(" + Ungrouped(g) + ")"
  {
    ReplaceAround('(', g, ')', ',', "");
    ReplaceOther('(', ',', "");
    ReplaceOther(')', ',', "");
  }

  lemma OpenToMinus(d: string)
    requires '(' !in d
    ensures Replace("(" + d + ")", '(', "-") == "-" + d + ")"
  {
    ReplaceAround('(', d, ')', '(', "-");
    ReplaceSame('(', "-");
    ReplaceOther(')', '(', "-");
  }

  lemma DropClose(d: string)
    requires ')' !in d
    ensures Replace("-" + d + ")", ')', "") == "-" + d
  {
    ReplaceAround('-', d, ')', ')', "");
    ReplaceOther('-', ')', "");
    ReplaceSame(')', "");
  }

  /** The cleaning turns "(g)" into "-" followed by the digits of g. */
  lemma {:induction false} CleanParenthesized(g: string)
    requires DigitsAndCommas(g)
    ensures CleanNumeric("(" + g + ")") == "-" + Ungrouped(g)
  {
    var d := Ungrouped(g);
    DropCommas(g);
    OpenToMinus(d);
    DropClose(d);
    var r := "-" + d;
    assert IsDigit(d[|d| - 1]);
    assert r[0] == '-' && r[|r| - 1] == d[|d| - 1];
    StripUnchanged(r);
  }

  lemma ParseNegativeDigits(d: string)
    requires d != [] && AllDigits(d)
    ensures ParseDecimal("-" + d) == Some(-(DigitsValue(d) as real))
  {
    assert ("-" + d)[1..] == d;
    assert '.' !in d;
  }

  /** A parenthesised amount is negative: "(g)" denotes minus the number
      the digits d of g denote. */
  lemma ParenthesizedIsNegative(g: string, d: string)
    requires DigitsAndCommas(g) && d == Ungrouped(g)
    ensures PreciseDecimal(JStr("(" + g + ")")) == Some(-(DigitsValue(d) as real))
  {
    CleanParenthesized(g);
    ParseNegativeDigits(d);
    DigitsHaveNoExponent(d);
    assert '_' !in "-" + d;
  }

  lemma {:induction false} ParseNums(xs: seq<real>)
    ensures NonNone(Nums(xs)) == Nums(xs)
    ensures ParseAll(Nums(xs)) == Some(xs)
  {
    if xs != [] {
      assert Nums(xs)[1..] == Nums(xs[1..]);
      ParseNums(xs[1..]);
      assert [xs[0]] + xs[1..] == xs;
    }
  }

  /** Summing numbers gives their exact total, every number a component,
      and one log entry. */
  lemma SumOfNumbers(xs: seq<real>, description: string)
    ensures Sum(Nums(xs)) == SumOk(Total(xs), xs)
    ensures |Sum(Nums(xs)).components| == |xs|
    ensures SumEntries(Nums(xs), description) == [LogEntry("sum", JArr(Nums(xs)), JNum(Total(xs)), Plain(description))]
  {
    ParseNums(xs);
  }

  /** None operands are skipped, not counted as components. */
  lemma {:induction false} SumSkipsNone(values: seq<Json>)
    ensures Sum(values + [JNull]) == Sum(values)
  {
    NonNoneAppendNull(values);
  }

  lemma {:induction false} NonNoneAppendNull(values: seq<Json>)
    ensures NonNone(values + [JNull]) == NonNone(values)
  {
    if values == [] {
      assert [JNull][1..] == [];
    } else {
      assert (values + [JNull])[1..] == values[1..] + [JNull];
      NonNoneAppendNull(values[1..]);
    }
  }

  /** A failed sum reports 0, precision "error", no components and logs
      nothing. */
  lemma SumFailure(values: seq<Json>, i: nat, description: string)
    requires i < |values| && values[i] != JNull && PreciseDecimal(values[i]).None?
    ensures Sum(values).SumFailed?
    ensures Sum(values) == SumFailed(ConversionSyntax)
    ensures SumEntries(values, description) == []
  {
    assert values[i] in NonNone(values);
    var k :| 0 <= k < |NonNone(values)| && NonNone(values)[k] == values[i];
  }

  /** Subtracting a readable value from itself gives 0. */
  lemma SubtractSelf(v: Json)
    requires PreciseDecimal(v).Some?
    ensures Subtract(v, v).SubtractOk? && Subtract(v, v).Value() == 0.0
  {
  }

  /** Subtracting numbers gives their exact difference and one log entry. */
  lemma SubtractOnNumbers(m: real, s: real, description: string)
    ensures Subtract(JNum(m), JNum(s)) == SubtractOk(m - s, m, s)
    ensures |SubtractEntries(JNum(m), JNum(s), description)| == 1
  {
  }

  /** The balance check on numbers: balanced exactly when assets and
      liabilities plus equity differ by less than a cent. */
  lemma BalanceOnNumbers(a: real, l: real, e: real)
    ensures Balance(JNum(a), JNum(l), JNum(e)).BalanceOk?
    ensures Balance(JNum(a), JNum(l), JNum(e)).isBalanced <==> -0.01 < a - (l + e) < 0.01
    ensures Balance(JNum(a), JNum(l), JNum(e)).ToJson().fields[6].value
            == JStr(if -0.01 < a - (l + e) < 0.01 then "Balanced" else "Unbalanced")
    ensures |BalanceEntries(JNum(a), JNum(l), JNum(e))| == 1
  {
  }

  lemma BalanceExample()
    ensures Balance(JNum(28793225.0), JNum(5591163.0), JNum(23202062.0)).isBalanced
    ensures Balance(JNum(28793225.0), JNum(5591163.0), JNum(23202062.0)).difference == 0.0
  {
    assert 28793225.0 - (5591163.0 + 23202062.0) == 0.0;
  }

  /** Percentages of numbers: a zero total is reported, not logged. */
  lemma PercentageOnNumbers(p: real, t: real)
    ensures t == 0.0 ==> Percentage(JNum(p), JNum(t)) == DivisionByZero(p) && PercentageEntries(JNum(p), JNum(t)) == []
    ensures t != 0.0 ==>
      Percentage(JNum(p), JNum(t)) == PercentageOk(p / t * 100.0, p, t) && |PercentageEntries(JNum(p), JNum(t))| == 1
  {
  }

  /** Footing on numbers: accurate exactly when the reported total lies
      within one unit of the components' sum. */
  lemma FootingOnNumbers(reported: real, xs: seq<real>, description: string)
    ensures Footing(JNum(reported), Nums(xs), description).calculatedTotal == Total(xs)
    ensures Footing(JNum(reported), Nums(xs), description).difference == Total(xs) - reported
    ensures Footing(JNum(reported), Nums(xs), description).isAccurate <==> -1.0 < Total(xs) - reported < 1.0
  {
    SumOfNumbers(xs, "Components for " + description);
  }

  /** Three entries are logged, sum, subtract and footing_validation in
      that order. */
  lemma FootingEntriesOnNumbers(reported: real, xs: seq<real>, description: string)
    ensures |FootingEntries(JNum(reported), Nums(xs), description)| == 3
    ensures FootingEntries(JNum(reported), Nums(xs), description)[0].operation == "sum"
    ensures FootingEntries(JNum(reported), Nums(xs), description)[1].operation == "subtract"
    ensures FootingEntries(JNum(reported), Nums(xs), description)[2].operation == "footing_validation"
  {
    SumOfNumbers(xs, "Components for " + description);
    var a := SumEntries(Nums(xs), "Components for " + description);
    var b := SubtractEntries(JNum(FootingSum(Nums(xs))), JNum(reported), "Difference for " + description);
    assert |a| == 1 && |b| == 1;
  }

  lemma FootingExample()
    ensures Footing(JNum(1850000.0), Nums([1000000.0, 500000.0, 250000.0, 100000.0]), "Test footing validation").isAccurate
  {
    var xs := [1000000.0, 500000.0, 250000.0, 100000.0];
    FootingOnNumbers(1850000.0, xs, "Test footing validation");
    assert xs[..3] == [1000000.0, 500000.0, 250000.0];
    assert xs[..3][..2] == [1000000.0, 500000.0];
    assert xs[..3][..2][..1] == [1000000.0];
    assert [1000000.0][..0] == [];
    assert Total([1000000.0]) == 1000000.0;
    assert Total([1000000.0, 500000.0]) == 1500000.0;
    assert Total([1000000.0, 500000.0, 250000.0]) == 1750000.0;
    assert Total(xs) == 1850000.0;
  }

  /** A reported total that does not convert makes the subtraction fail,
      so the difference is 0 and the footing is reported as accurate; only
      the sum and the footing entry are logged. */
  lemma FootingUnreadableTotal(text: string, xs: seq<real>, description: string)
    requires PreciseDecimal(JStr(text)).None?
    ensures Footing(JStr(text), Nums(xs), description).isAccurate
    ensures |FootingEntries(JStr(text), Nums(xs), description)| == 2
  {
    SumOfNumbers(xs, "Components for " + description);
  }

  /** A sum or subtraction result passes validate_calculation_result
      exactly when it succeeded. */
  lemma SumResultValidity(r: SumResult)
    ensures ValidateCalculationResult(r.ToJson()) <==> r.SumOk?
  {
    match r
    case SumOk(total, components) =>
      var vs := [JNum(total), JStr("high"), JArr(Nums(components)), JNum(|components| as real), JStr("sum")];
      assert "error" !in SumKeys;
      GetObject(SumKeys, vs, 0);
      GetObject(SumKeys, vs, 1);
    case SumFailed(error) =>
      assert "error" in SumErrorKeys;
  }

  lemma SubtractResultValidity(r: SubtractResult)
    ensures ValidateCalculationResult(r.ToJson()) <==> r.SubtractOk?
  {
    match r
    case SubtractOk(difference, m, t) =>
      var vs := [JNum(difference), JStr("high"), JNum(m), JNum(t), JStr("subtract")];
      assert "error" !in SubtractKeys;
      GetObject(SubtractKeys, vs, 0);
      GetObject(SubtractKeys, vs, 1);
    case SubtractFailed(error) =>
      assert "error" in SubtractErrorKeys;
  }

  /** A dictionary literal without a "result" key fails validation. */
  lemma WithoutResultInvalid(keys: seq<string>, values: seq<Json>)
    requires |keys| == |values| && "result" !in keys
    ensures !ValidateCalculationResult(JObj(Object(keys, values)))
  {
  }

  /** The balance, percentage and footing results carry no "result" field,
      so they never pass validate_calculation_result. */
  lemma BalanceResultInvalid(r: BalanceResult)
    ensures !ValidateCalculationResult(r.ToJson())
  {
    match r
    case BalanceOk(a, l, e, le, d, balanced) =>
      assert "result" !in BalanceKeys;
      WithoutResultInvalid(BalanceKeys, [JNum(a), JNum(l), JNum(e), JNum(le), JNum(d), JBool(balanced),
                                         JStr(BalanceStatus(balanced)), JStr("high"), JStr("balance_verification")]);
    case BalanceFailed(error) =>
      assert "result" !in BalanceErrorKeys;
      WithoutResultInvalid(BalanceErrorKeys, [JNum(0.0), JNum(0.0), JNum(0.0), JNum(0.0), JNum(0.0), JBool(false),
                                              JStr("Error"), JStr(error), JStr("error"), JStr("balance_verification")]);
  }

  lemma PercentageResultInvalid(r: PercentageResult)
    ensures !ValidateCalculationResult(r.ToJson())
  {
    assert "result" !in PercentageKeys && "result" !in PercentageErrorKeys;
    match r
    case PercentageOk(p, part', total') =>
      WithoutResultInvalid(PercentageKeys, [JNum(p), JNum(part'), JNum(total'), JStr("high"), JStr("percentage")]);
    case DivisionByZero(part') =>
      WithoutResultInvalid(PercentageErrorKeys, [JNum(0.0), JNum(part'), JNum(0.0), JStr("Division by zero"),
                                                 JStr("error"), JStr("percentage")]);
    case PercentageFailed(error) =>
      WithoutResultInvalid(PercentageErrorKeys, [JNum(0.0), JNum(0.0), JNum(0.0), JStr(error), JStr("error"),
                                                 JStr("percentage")]);
  }

  lemma FootingResultInvalid(r: FootingResult)
    ensures !ValidateCalculationResult(r.ToJson())
  {
    assert "result" !in FootingKeys;
  }
}
