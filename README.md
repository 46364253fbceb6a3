# A verified model of the audit_agent calculation core

audit_agent audits the arithmetic of Indonesian financial statements
(neraca / laporan posisi keuangan, laba rugi, arus kas). Several "agents"
each run the same mandatory plan of calculations on a statement. The
results are then cross-checked until the agents agree within a tolerance.
This project models the deterministic heart of that system in Dafny and
proves what it does:

- **The high-precision calculator and its audit log** (`calculation_tools.py`).
  - `FinancialCalculator` is a class whose `calculationLog` is a `seq` field.
  - Each operation is a method proved equal to a pure specification function.
    It appends exactly the entries that function prescribes.
  - Decimal arithmetic is modelled on exact `real`s.
- **The tool orchestrator** (`core/tool_orchestrator.py`):
  - pulling numbers out of the text, as `re.findall(r'[\d,.]+')` does;
  - putting them into positional buckets;
  - the three recipes that build the mandatory plan;
  - binding that plan's arguments by name against each tool's signature;
  - the executor loop that files each result at a dotted path;
  - the usage validator;
  - the standardized JSON structure.
- **The agent pipeline** (`core/base_agent.py`):
  - `process_statement` of one agent;
  - the key-figure projection;
  - `_clean_json_response`;
  - the controller (`BaseTripleAgentSystem`), with the attempt loop of
    `_process_with_consensus` and the statement loop of
    `process_financial_statements`.
- **The two agent families** (`agents/gemini_agent.py`, `agents/ollama_agent.py`):
  - the consensus check, shared through module `Consensus` and given a strict
    or a loose tolerance profile;
  - the scoring heuristics;
  - the metadata of the final audit result.
- **The pure helpers of `core/utils.py`**.

Modules and what they hold:

| module | file | holds |
|---|---|---|
| `Wrappers`, `Text`, `Json` | `wrappers.dfy`, `text.dfy`, `json.dfy` | Option/Result; Python's string built-ins; dictionaries as insertion-ordered field lists, `float()`, `json.dumps(...).lower()` |
| `CalculationTools` | `calculation_tools.dfy` | the calculator |
| `ToolOrchestrator` | `tool_orchestrator.dfy` | the orchestrator |
| `BaseAgent` | `base_agent.dfy` | one agent |
| `CleanJson`, `Utils` | `utils.dfy` | the helpers |
| `Consensus` | `consensus.dfy` | the shared consensus check |
| `BaseTripleAgentSystem` | `base_agent_system.dfy` | the controller |
| `AgentFamily`, `GeminiAgent`, `OllamaAgent` | `agent_family.dfy`, `gemini_agent.dfy`, `ollama_agent.dfy` | the agent families |

## What the proofs establish about the system

1. **Plan length.** The plan length is an exact function of the number n of
   values extracted from the text (`ToolOrchestrator.PlanLength`):
   - balance sheet: 0, 1, 2, 3, 3, 3, 4, then 5 from n = 7 on;
   - income statement: 0, 2 or 3;
   - cash flow: 0, 1 or 2.
2. **The footing step always fails to bind.** It binds its components under
   `"components"`, but the tool's parameter is `component_values`. So the
   step is always rejected, and an `{"error": ...}` leaf is filed in its
   place (`ToolOrchestrator.FootingStepRecipe`, `ToolOrchestrator.PlanRun`).
3. **Consequence for scoring.** Every balance sheet with at least three
   extracted values logs one entry fewer than its plan has steps. Its agent
   result is therefore always scored 0 with confidence 10 and the message
   "Expected n tools, got n-1" (`BaseAgent.FootingStepFailsValidation`).
4. **`tool_calls_made` is the plan length, not the log length.** All agents
   run the same plan on the same text, so:
   - the inconsistency branch of the controller never fires;
   - the first attempt always reaches consensus on the shared data;
   - no retry is ever logged (`BaseTripleAgentSystem.NoRetries`,
     `BaseTripleAgentSystem.AuditWithoutRetries`).
   
   As a result, both families always report `"consensus_quality": "Perfect"`
   (`GeminiAgent.AlwaysPerfect`, `OllamaAgent.AlwaysPerfect`).
5. **Key figures.** The standardized balance-sheet structure records the
   whole result dictionary of the sum tool as `nilai_tercatat`. `float()` of
   a dictionary raises TypeError, so the key-figure reading stops at once.
   Two steps prove it for the structure the pipeline builds:
   - on any standardized structure, a current-asset value that does not
     convert leaves no figure (`BaseAgent.StructureFigures`);
   - for a balance type with at least one extracted value, the run files the
     sum tool's result dictionary there (`ToolOrchestrator.CurrentAssetsFiled`).
   
   Together they give no figure for every such agent result
   (`BaseAgent.BalanceSheetWithoutFigures`, `BaseAgent.StatementWithoutFigures`).
6. **The tolerance dictates agreement.** The strict tolerance of a baseline
   of 1,000,000 is 100. A figure of 1,000,050 therefore agrees with it, and
   1,000,101 does not (`GeminiAgent.StrictToleranceExample`).

## Model

| member | source | states |
|---|---|---|
| CalculationTools.Abs | calculation_tools.py:111 | abs(): non-negative and equal to x or -x |
| CalculationTools.CleanNumeric | calculation_tools.py:33 | the cleaned operand text holds no comma and no parenthesis |
| CalculationTools.PreciseDecimal | calculation_tools.py:29-35 | a number converts to itself; text is cleaned, then read as Decimal() reads it, underscores dropped; None, lists, dictionaries and booleans do not convert |
| CalculationTools.UnderscoresIgnored | calculation_tools.py:29-35 | digits with underscores anywhere among them convert to the number the digits denote |
| CalculationTools.ExponentText | calculation_tools.py:29-35 | "m" "e" "x" converts to m scaled up by 10^x, and "m" "E-" "x" to m scaled down by 10^x |
| CalculationTools.PlainOperand | calculation_tools.py:29-35 | text with no comma, parenthesis or underscore and no whitespace at its ends is read as written |
| CalculationTools.NonNone | calculation_tools.py:40 | the operands kept are exactly those that are not None, never more than given |
| CalculationTools.NonNoneConcat | calculation_tools.py:40 | filtering two lists joined is filtering each in turn, so the kept operands keep their order and multiplicity |
| CalculationTools.NonNoneSingle | calculation_tools.py:40 | one operand is dropped exactly when it is None |
| CalculationTools.ParseAll | calculation_tools.py:40 | every operand converts, each to its own value, or the list comprehension fails on one that does not |
| CalculationTools.TotalAppend | calculation_tools.py:41 | sum() over two lists is the sum of their sums |
| CalculationTools.Sum | calculation_tools.py:37-66 | succeeds exactly when every non-None operand converts; then the result is the exact total of the converted operands, one component per non-None operand; otherwise the conversion error is reported |
| CalculationTools.SumEntries | calculation_tools.py:44-49 | a successful sum logs one "sum" entry with the operand list, a failed one logs nothing |
| CalculationTools.Subtract | calculation_tools.py:68-97 | succeeds exactly when both operands convert, with result minuend - subtrahend and both operands echoed; otherwise the conversion error |
| CalculationTools.SubtractEntries | calculation_tools.py:77-82 | a successful subtraction logs one "subtract" entry, a failed one nothing |
| CalculationTools.Balance | calculation_tools.py:99-146 | succeeds exactly when all three operands convert; difference is assets - (liabilities + equity), balanced exactly when it lies strictly within one cent, status "Balanced" exactly when balanced |
| CalculationTools.BalanceEntries | calculation_tools.py:125-130 | a successful check logs one "balance_verification" entry holding its result, a failed one nothing |
| CalculationTools.Percentage | calculation_tools.py:148-191 | fails exactly when an operand does not convert; reports division by zero exactly when the total is zero; otherwise part / total * 100 |
| CalculationTools.PercentageEntries | calculation_tools.py:168-173 | only a computed percentage is logged, described by its part and total |
| CalculationTools.Footing | calculation_tools.py:256-288 | the calculated total is the sum's result, the difference the subtraction's result against the reported total, accurate exactly when its absolute value is below 1.0; reported total, components and description are echoed |
| CalculationTools.FootingEntries | calculation_tools.py:269-295 | the footing check's entries end with its own "footing_validation" entry |
| CalculationTools.FootingEntry | calculation_tools.py:290-295 | the entry the footing check logs is a "footing_validation" entry |
| CalculationTools.FinancialCalculator.constructor | calculation_tools.py:17-18 | a new calculator has an empty log |
| CalculationTools.FinancialCalculator.LogCalculation | calculation_tools.py:20-27 | appends exactly one entry with the given fields |
| CalculationTools.FinancialCalculator.SumValues | calculation_tools.py:37-66 | returns Sum and appends exactly SumEntries to the log |
| CalculationTools.FinancialCalculator.SubtractValues | calculation_tools.py:68-97 | returns Subtract and appends exactly SubtractEntries |
| CalculationTools.FinancialCalculator.VerifyBalanceEquation | calculation_tools.py:99-146 | returns Balance and appends exactly BalanceEntries |
| CalculationTools.FinancialCalculator.CalculatePercentage | calculation_tools.py:148-191 | returns Percentage and appends exactly PercentageEntries |
| CalculationTools.ValidateFootingCalculation | calculation_tools.py:255-297 | on the shared calculator returns Footing and appends exactly FootingEntries |
| CalculationTools.FootingEntriesSplit | calculation_tools.py:269-295 | the sum's, the subtraction's and the footing's entries, logged in turn, make up FootingEntries |
| CalculationTools.GetCalculationLog | calculation_tools.py:299-307 | hands out every entry of the calculator's log, in order |
| CalculationTools.ClearCalculationLog | calculation_tools.py:309-318 | empties the log and returns the "cleared" confirmation |
| CalculationTools.ValidateCalculationResult | calculation_tools.py:334-356 | true exactly for a dictionary with result, precision and operation, without error, with precision "high" and a numeric (int, float or bool) result |
| CalculationTools.GroupedDigitsParse | calculation_tools.py:29-35 | "1,000"-style grouped digits convert to the number their digits denote |
| CalculationTools.CleanParenthesized | calculation_tools.py:33 | cleaning turns "(g)" into "-" followed by the digits of g |
| CalculationTools.ParenthesizedIsNegative | calculation_tools.py:29-35 | a parenthesised grouped amount such as "(1,000)" converts to minus its value |
| CalculationTools.ParseNums | calculation_tools.py:40 | numeric operands are all kept and convert to themselves |
| CalculationTools.SumOfNumbers | calculation_tools.py:37-57 | summing numbers gives their exact total with every number a component, and logs one entry with the operands and the total |
| CalculationTools.SumSkipsNone | calculation_tools.py:40 | appending a None operand leaves the sum unchanged |
| CalculationTools.SumFailure | calculation_tools.py:58-66 | one non-None operand that does not convert makes the sum fail and log nothing |
| CalculationTools.SubtractSelf | calculation_tools.py:68-90 | a readable operand subtracted from itself gives 0 |
| CalculationTools.SubtractOnNumbers | calculation_tools.py:68-90 | on numbers: the exact difference and one entry |
| CalculationTools.BalanceOnNumbers | calculation_tools.py:99-132 | on numbers the check succeeds, is balanced exactly when a - (l + e) lies within one cent, reports status "Balanced" exactly then, and logs one entry |
| CalculationTools.BalanceExample | calculation_tools.py:380-386 | 28793225 against 5591163 + 23202062 is balanced with difference 0 |
| CalculationTools.PercentageOnNumbers | calculation_tools.py:148-181 | on numbers: a zero total is a division-by-zero report with no entry, otherwise part / total * 100 with one entry |
| CalculationTools.FootingOnNumbers | calculation_tools.py:256-288 | on numbers: calculated total is the sum, difference is sum - reported, accurate exactly when that lies strictly within 1 |
| CalculationTools.FootingEntriesOnNumbers | calculation_tools.py:269-295 | on numbers the footing check logs three entries: sum, subtract, footing_validation |
| CalculationTools.FootingExample | calculation_tools.py:389-395 | 1850000 against [1000000, 500000, 250000, 100000] is accurate, status OK |
| CalculationTools.FootingUnreadableTotal | calculation_tools.py:269-295 | an unreadable reported total makes the subtraction fail with result 0, so the footing is reported accurate with two entries logged |
| CalculationTools.SumResultValidity | calculation_tools.py:334-356 | a sum result passes validate_calculation_result exactly when the sum succeeded |
| CalculationTools.SubtractResultValidity | calculation_tools.py:334-356 | a subtraction result passes exactly when the subtraction succeeded |
| CalculationTools.WithoutResultInvalid | calculation_tools.py:340-342 | a dictionary without a "result" field never passes |
| CalculationTools.BalanceResultInvalid | calculation_tools.py:113-146 | balance results, having no "result" field, never pass |
| CalculationTools.PercentageResultInvalid | calculation_tools.py:155-191 | percentage results never pass |
| CalculationTools.FootingResultInvalid | calculation_tools.py:277-288 | footing results never pass |
| ToolOrchestrator.RunLength | core/tool_orchestrator.py:66-67 | the maximal run of number characters at the start of a text |
| ToolOrchestrator.Runs | core/tool_orchestrator.py:66-67 | findall yields non-empty runs of digits, commas and dots |
| ToolOrchestrator.RunLengthSeparated | core/tool_orchestrator.py:66-67 | a character outside [\d,.] ends a run whatever follows it |
| ToolOrchestrator.RunsSeparated | core/tool_orchestrator.py:66-67 | the runs of a + c + b, for c outside the class, are the runs of a followed by the runs of b |
| ToolOrchestrator.RunsSingle | core/tool_orchestrator.py:66-67 | a text that is one run of number characters is found as exactly that run |
| ToolOrchestrator.CleanNumber | core/tool_orchestrator.py:71-78 | a run is kept, as its value, exactly when it parses once its commas are removed and the value exceeds 1000 |
| ToolOrchestrator.CleanNumbers | core/tool_orchestrator.py:70-78 | at most one value per run, every value above 1000 |
| ToolOrchestrator.CleanNumbersConcat | core/tool_orchestrator.py:71-78 | values are kept run by run in text order |
| ToolOrchestrator.ExtractValues | core/tool_orchestrator.py:62-78 | every extracted value is greater than 1000 |
| ToolOrchestrator.ExtractValuesSeparated | core/tool_orchestrator.py:62-78 | the values of a + c + b, for c outside the class, are those of a followed by those of b |
| ToolOrchestrator.ExtractValuesRun | core/tool_orchestrator.py:66-78 | one run yields its float() value exactly when that exceeds 1000 |
| ToolOrchestrator.Bucket | core/tool_orchestrator.py:81-86 | current assets are all values up to 3, else the first third; fixed assets and liabilities are empty up to 6 values, and beyond that the three buckets partition all values in order |
| ToolOrchestrator.ExtractFinancialValues | core/tool_orchestrator.py:62-86 | all_values is what the text yields |
| ToolOrchestrator.SumStep | core/tool_orchestrator.py:95-127 | a sum step binds its values and description and files under section.nilai_perhitungan |
| ToolOrchestrator.FootingStep | core/tool_orchestrator.py:130-140 | reported total v[0], components v[1:6] under "components" (never "component_values"), filed under footing_validation.status |
| ToolOrchestrator.BalanceStep | core/tool_orchestrator.py:143-154 | binds exactly assets v[0], liabilities v[n//2], equity v[-1]; filed under balancing.status |
| ToolOrchestrator.SubtractStep | core/tool_orchestrator.py:188-198 | binds minuend, subtrahend and "Calculate net income"; filed under laba_bersih.nilai_perhitungan |
| ToolOrchestrator.CreatePlan | core/tool_orchestrator.py:41-60 | the count always equals the number of steps, which are the recipe of the statement type applied to the buckets of the text |
| ToolOrchestrator.Kinds | core/tool_orchestrator.py:249-258 | the tool of each step, in order |
| ToolOrchestrator.BalanceSheetShape | core/tool_orchestrator.py:88-156 | the balance-sheet plan has 0,1,2,3,3,3,4 steps for n = 0..6 and 5 beyond |
| ToolOrchestrator.BalanceSheetKinds | core/tool_orchestrator.py:88-156 | from 7 values: sum, sum, sum, footing, balance in that order |
| ToolOrchestrator.IncomeStatementShape | core/tool_orchestrator.py:158-200 | 0 steps below 2 values, 2 for 2 or 3, 3 (sum, sum, subtract) from 4 |
| ToolOrchestrator.CashFlowShape | core/tool_orchestrator.py:202-231 | 0 steps below 3 values, 1 for 3 to 5, 2 sums from 6 |
| ToolOrchestrator.PlanLength | core/tool_orchestrator.py:41-60 | the plan length is an exact function of the type and the number of extracted values; an unknown type gets an empty plan |
| ToolOrchestrator.NumberArg | core/tool_orchestrator.py:249-258 | a numeric parameter binds exactly when present with a number |
| ToolOrchestrator.NumbersArg | core/tool_orchestrator.py:249-258 | a list parameter binds exactly when present with a list of numbers |
| ToolOrchestrator.TextArg | core/tool_orchestrator.py:249-258 | an absent description takes its default; a present one binds only when it is text |
| ToolOrchestrator.Bind | core/tool_orchestrator.py:249-258 | arguments that bind are of the shape of the step's own tool |
| ToolOrchestrator.Invocation | core/tool_orchestrator.py:249-258 | a call is rejected exactly when binding fails |
| ToolOrchestrator.InvocationEntries | core/tool_orchestrator.py:249-258 | a rejected call logs nothing |
| ToolOrchestrator.CallTool | calculation_tools.py:197-297 | each tool's body on the shared calculator returns its result and appends its entries |
| ToolOrchestrator.InvokeTool | core/tool_orchestrator.py:249-258 | invoking a step returns its outcome and appends exactly its entries |
| ToolOrchestrator.Split | core/tool_orchestrator.py:276 | split always yields at least one part |
| ToolOrchestrator.SplitWithoutSeparator | core/tool_orchestrator.py:276 | text without a dot is a single part |
| ToolOrchestrator.SplitResultKey | core/tool_orchestrator.py:276 | section.field splits back into its two parts |
| ToolOrchestrator.StorePathFails | core/tool_orchestrator.py:273-286 | a store raises exactly when the walk meets a non-dictionary |
| ToolOrchestrator.StorePathSpec | core/tool_orchestrator.py:273-286 | after a store the path leads to the value, missing dictionaries are created, every other top-level key is unchanged, and below the first key the store is the same store into the existing (or a fresh) dictionary, so storing at "a.b" keeps every other field of an existing dictionary a |
| ToolOrchestrator.Calls | core/tool_orchestrator.py:244-259 | the call each step makes, in plan order |
| ToolOrchestrator.ReplayAfterEscape | core/tool_orchestrator.py:244-268 | once an exception escapes, nothing further happens |
| ToolOrchestrator.ExecuteMandatoryCalculations | core/tool_orchestrator.py:233-271 | clears the log, runs every step in order, files each result or error leaf; results, success count and log are those of Run |
| ToolOrchestrator.OneEntry | calculation_tools.py:37-132 | a sum, subtraction or balance check on numbers logs one entry |
| ToolOrchestrator.RecipeCall | core/tool_orchestrator.py:244-267 | a recipe step returns and logs one entry, except a footing step, which is rejected and logs nothing |
| ToolOrchestrator.Entries | core/tool_orchestrator.py:261-267 | one filed entry per step |
| ToolOrchestrator.FootingCount | core/tool_orchestrator.py:129-140 | the footing steps of a plan are at most its steps |
| ToolOrchestrator.PutFresh | core/tool_orchestrator.py:282-286 | assigning a new key appends it |
| ToolOrchestrator.StoreFresh | core/tool_orchestrator.py:273-286 | storing at section.field for a new section appends {section: {field: value}} |
| ToolOrchestrator.FileFresh | core/tool_orchestrator.py:261-267 | filing an outcome under a new section appends its entry |
| ToolOrchestrator.ReplayRecipes | core/tool_orchestrator.py:244-268 | recipe steps with distinct sections file one entry each, appended in plan order |
| ToolOrchestrator.ReplayTally | core/tool_orchestrator.py:244-268 | the same steps count every non-footing step and log one entry for each |
| ToolOrchestrator.RunRecipes | core/tool_orchestrator.py:233-271 | a plan of recipe steps ends with one entry per step; success count and log length are the plan length minus its footing steps |
| ToolOrchestrator.BoundCall | core/tool_orchestrator.py:249-258 | bound arguments make the call return the tool's result and log its entries |
| ToolOrchestrator.BindSum | calculation_tools.py:197-209 | a sum step with numbers and text binds |
| ToolOrchestrator.BindSubtract | calculation_tools.py:211-224 | a subtraction step with two numbers and text binds |
| ToolOrchestrator.BindBalance | calculation_tools.py:226-239 | a balance step with three numbers binds |
| ToolOrchestrator.BindFootingWithoutComponents | calculation_tools.py:255-257 | a footing step lacking "component_values" is rejected with a binding error |
| ToolOrchestrator.SumStepRecipe | core/tool_orchestrator.py:95-127 | every sum step is a recipe step filed under its own section |
| ToolOrchestrator.SubtractStepRecipe | core/tool_orchestrator.py:188-198 | the net-income step is a recipe step under laba_bersih |
| ToolOrchestrator.BalanceStepRecipe | core/tool_orchestrator.py:143-154 | the balance step is a recipe step under balancing |
| ToolOrchestrator.FootingStepRecipe | core/tool_orchestrator.py:130-140 | the footing step is a recipe step under footing_validation that never reaches its tool |
| ToolOrchestrator.BalanceSheetRecipes | core/tool_orchestrator.py:88-156 | balance-sheet steps are recipe steps with distinct sections, with one footing step exactly from three values |
| ToolOrchestrator.IncomeStatementRecipes | core/tool_orchestrator.py:158-200 | income-statement steps are recipe steps with distinct sections and no footing step |
| ToolOrchestrator.CashFlowRecipes | core/tool_orchestrator.py:202-231 | cash-flow steps are recipe steps with distinct sections and no footing step |
| ToolOrchestrator.PlanRecipes | core/tool_orchestrator.py:41-60 | every plan is made of recipe steps with distinct sections |
| ToolOrchestrator.PlanRun | core/tool_orchestrator.py:233-271 | executing any plan files one entry per step and lets no exception escape; log length equals plan length exactly when there is no footing step |
| ToolOrchestrator.FirstMentioned | core/tool_orchestrator.py:308-310 | the first forbidden phrase the serialised result mentions, or None exactly when it mentions none |
| ToolOrchestrator.UsageVerdictOf | core/tool_orchestrator.py:288-312 | valid exactly when the log count matches and no forbidden phrase is mentioned; a wrong count gives "Expected X tools, got Y" |
| ToolOrchestrator.ValidateToolUsage | core/tool_orchestrator.py:288-312 | the count check then the phrase scan give UsageVerdictOf on the calculator's log |
| ToolOrchestrator.FirstMentionedAt | core/tool_orchestrator.py:308-310 | the scan stops at the first mentioned phrase |
| ToolOrchestrator.GetNested | core/tool_orchestrator.py:323-339 | .get(section, {}).get(field, default): the default for a missing section, the stored value when present, and a raise exactly when the section is no dictionary |
| ToolOrchestrator.CreateStandardizedJsonStructure | core/tool_orchestrator.py:314-346 | fails only for a balance type whose lookup raises; otherwise a dictionary |
| ToolOrchestrator.AccountLineFigures | core/tool_orchestrator.py:321-336 | nilai_tercatat and nilai_perhitungan are the same tool value, with selisih 0 and status OK |
| ToolOrchestrator.BalanceSheetFirstStep | core/tool_orchestrator.py:80-100 | from one value on, the current-asset bucket is non-empty and the balance-sheet plan opens with its sum under aset_lancar |
| ToolOrchestrator.SumStepOutcome | core/tool_orchestrator.py:247-248 | a sum step's call returns the sum tool's result dictionary |
| ToolOrchestrator.FirstEntryNested | core/tool_orchestrator.py:323-324 | results.get(section, {}).get(field) on the filed entries finds what the first step filed at its section.field path |
| ToolOrchestrator.OpeningSumCall | core/tool_orchestrator.py:247-248 | the run's first call, when its step is the sum under aset_lancar, returns the sum tool's result dictionary for those values |
| ToolOrchestrator.OpeningEntryFiled | core/tool_orchestrator.py:323-324 | when the first step files under aset_lancar.nilai_perhitungan and its call returned a value, that lookup on the filed entries yields exactly that value |
| ToolOrchestrator.OpeningSumFiled | core/tool_orchestrator.py:258-259 | results whose first step is a sum under aset_lancar give its result dictionary as aset_lancar.nilai_perhitungan |
| ToolOrchestrator.CurrentAssetsFiled | core/tool_orchestrator.py:92-100 | for a balance type with at least one value the run completes and nilai_perhitungan of aset_lancar is the sum tool's dictionary over the first five current assets |
| ToolOrchestrator.StandardizedStructure | core/tool_orchestrator.py:314-346 | a balance type builds the structure from the looked-up tool values; any other type wraps the tool results unchanged under tool_based_calculation |
| BaseAgent.StatementResult | core/base_agent.py:46-92 | tool_calls_made is the plan length; valid usage scores 100 / 95 with no error, otherwise 0 / 10 with one error |
| BaseAgent.ProcessStatement | core/base_agent.py:46-92 | returns StatementResult and leaves the calculator's log as the plan's run leaves it |
| BaseAgent.PlanDictionaries | core/tool_orchestrator.py:233-271 | every section of a run's results is a dictionary |
| BaseAgent.StructureOfDictionaries | core/tool_orchestrator.py:314-346 | results made of dictionaries always assemble into a structure |
| BaseAgent.StatementCompletes | core/base_agent.py:46-92 | process_statement never raises |
| BaseAgent.FootingStepFailsValidation | core/base_agent.py:66-90 | with a footing step in the plan the result is always scored 0 / 10 with "Expected n tools, got n-1" |
| BaseAgent.CountMatchesWithoutFooting | core/base_agent.py:66-90 | without a footing step the count matches, and the score is 100 exactly when no forbidden phrase is mentioned |
| BaseAgent.StatementAgentIndependent | core/base_agent.py:46-92 | two agents' results differ only in their identifier |
| BaseAgent.Gather | core/base_agent.py:313-340 | once raised, nothing is read; otherwise at most the one named figure is appended |
| BaseAgent.ExtractKeyFigures | core/base_agent.py:308-342 | at most four figures, named from the four key-figure names, each at most once, in reading order |
| BaseAgent.FiguresSourced | core/base_agent.py:308-342 | every extracted figure is float() of the value at its own path |
| BaseAgent.FigurePaths | core/base_agent.py:321-337 | the paths the four figures are read from |
| BaseAgent.BalanceSheetWithoutFigures | core/base_agent.py:308-342 | for a balance type with at least one extracted value the run completes, the structure assembles, and no key figure is read from it |
| BaseAgent.StatementWithoutFigures | core/base_agent.py:46-92 | so every such agent result exists and its extracted data yields no key figure |
| BaseAgent.StructureFigures | core/base_agent.py:308-342 | on a standardized structure the figures are the two recorded asset values, and the reading stops at the first that does not convert |
| CleanJson.Unfenced | core/utils.py:85-91 | fence removal never lengthens the stripped reply |
| CleanJson.CleanJsonResponse | core/utils.py:82-100 | never longer than the stripped reply; without a '{' it is the stripped unfenced reply |
| CleanJson.CleanBraceSpan | core/utils.py:93-100 | with a '}' after the first '{' the result runs exactly from the first '{' to the last '}' |
| CleanJson.CleanBraceUnclosed | core/utils.py:94-98 | a '{' with no later '}' leaves the empty text, since end is never -1 |
| CleanJson.BraceText | core/base_agent.py:120-127 | the same three cases for the brace span of _clean_json_response |
| CleanJson.FenceTrimmed | core/utils.py:88-91 | a ```json fence drops 7 and 3 characters, a bare ``` fence 3 and 3 |
| CleanJson.UnfencedPlain | core/utils.py:88-91 | text without a fence is only stripped |
| Utils.ValidateFinancialDataStructure | core/utils.py:132-155 | true exactly when laporan_posisi_keuangan.aset is a dictionary with an item that is a dictionary holding nilai_tercatat |
| Utils.ExtractNumericalValues | core/utils.py:157-177 | the numbers under the four figure keys, in traversal order |
| Utils.ExtractRecursive | core/utils.py:162-174 | appends what the traversal finds to what was collected |
| Utils.FieldValuesConcat | core/utils.py:164-171 | dictionary fields contribute one after the other |
| Utils.FigureKeyNotEntered | core/utils.py:165-169 | a figure key contributes only its own converted value (or nothing), never what nests below it |
| Utils.ItemValuesConcat | core/utils.py:172-174 | list items contribute one after the other |
| Utils.CalculatePercentageDifference | core/utils.py:183-187 | 100 or 0 for a zero value2; otherwise r * value2 is 100 times the absolute difference; 0 for equal values; sign follows value2 |
| Consensus.Tolerance | agents/gemini_agent.py:200-201 | the tolerance is the larger of the floor and the scaled baseline, never negative |
| Consensus.FiguresOf | agents/gemini_agent.py:181-184 | key_figures: one entry per result |
| Consensus.FiguresOfAt | agents/gemini_agent.py:183-184 | key_figures[agent_id] is the projection of that agent's data |
| Consensus.Scores | agents/gemini_agent.py:182-184 | confidence_scores: one entry per result |
| Consensus.ScoresAt | agents/gemini_agent.py:182 | confidence_scores[agent_id] is that agent's confidence |
| Consensus.AllKeys | agents/gemini_agent.py:188-190 | exactly the figure names some agent holds |
| Consensus.ValuesFor | agents/gemini_agent.py:193-196 | at most one value per agent |
| Consensus.ValuesForMembers | agents/gemini_agent.py:193-196 | values holds exactly (agent, figures[key]) for the agents holding the key |
| Consensus.ValuesForEmpty | agents/gemini_agent.py:193-196 | values is empty exactly when no agent holds the key |
| Consensus.Disagreeing | agents/gemini_agent.py:203-206 | exactly the agents whose value lies strictly beyond the tolerance |
| Consensus.DiscrepancyFor | agents/gemini_agent.py:198-217 | a discrepancy is recorded exactly when some agent disagrees on a key held by two or more |
| Consensus.Discrepancies | agents/gemini_agent.py:192-217 | at most one discrepancy per key |
| Consensus.DiscrepancyShape | agents/gemini_agent.py:210-217 | every discrepancy names its key, the first agent's baseline, the disagreeing agents and, in the strict family, the tolerance |
| Consensus.AddNew | agents/gemini_agent.py:207-208 | failing_agents grows by at most the new agents |
| Consensus.AddNewMembers | agents/gemini_agent.py:207-208 | an agent is listed exactly when it was listed or is new, and earlier entries keep their place |
| Consensus.AddNewDistinct | agents/gemini_agent.py:207-208 | no agent is listed twice |
| Consensus.FailingDistinct | agents/gemini_agent.py:203-208 | failing_agents has no duplicates |
| Consensus.FailingMembers | agents/gemini_agent.py:203-208 | an agent fails exactly when it disagrees on some key |
| Consensus.DiscrepanciesEmpty | agents/gemini_agent.py:210-220 | no discrepancy exactly when no key has a disagreeing agent |
| Consensus.FailingEmpty | agents/gemini_agent.py:207-220 | no failing agent exactly when no key has a disagreeing agent |
| Consensus.BestAgent | agents/gemini_agent.py:223 | the first agent of maximal confidence |
| Consensus.ConsensusMeaning | agents/gemini_agent.py:220-232 | consensus exactly when no agent lies beyond the tolerance, exactly when there are no discrepancies, exactly when no agent fails; retry_needed is its negation |
| Consensus.AgreedData | agents/gemini_agent.py:222-226 | on consensus the agreed data is the first most confident agent's; otherwise {} |
| Consensus.DisagreeingNone | agents/gemini_agent.py:204-206 | values within the tolerance leave nobody disagreeing |
| Consensus.SameFiguresAgree | agents/gemini_agent.py:192-217 | agents with equal figures never disagree |
| Consensus.IdenticalDataAgree | agents/gemini_agent.py:173-235 | agents extracting identical data reach consensus |
| Consensus.ValidateConsensus | agents/gemini_agent.py:173-235 | the loops compute ConsensusOf |
| Consensus.CompareKeys | agents/gemini_agent.py:192-217 | the loop over all_keys yields Discrepancies and Failing |
| Consensus.ProjectResults | agents/gemini_agent.py:181-184 | the first loop yields key_figures and confidence_scores |
| Consensus.CompareKey | agents/gemini_agent.py:193-217 | one key's discrepancy and failing-agent update |
| Consensus.CollectValues | agents/gemini_agent.py:193-196 | the inner loop gathers ValuesFor |
| Consensus.CompareValues | agents/gemini_agent.py:203-208 | the loop over values[1:] yields the disagreeing agents and adds new ones to failing_agents |
| GeminiAgent.ValidateConsensus | agents/gemini_agent.py:173-235 | the Gemini check is the consensus check with the strict profile |
| GeminiAgent.StrictTolerance | agents/gemini_agent.py:201 | |base|/10000 from a baseline of 10000 in absolute value, 1 below |
| GeminiAgent.StrictToleranceExample | agents/gemini_agent.py:198-206 | baseline 1,000,000: tolerance 100, 1,000,050 agrees, 1,000,101 disagrees |
| GeminiAgent.KeywordHitsBound | agents/gemini_agent.py:97-98 | the keyword hits are at most one per keyword per character |
| GeminiAgent.ImpliedCalculations | agents/gemini_agent.py:88-105 | the count is never below 3 |
| GeminiAgent.ImpliedCalculationsBound | agents/gemini_agent.py:88-105 | at least 3 and at most seven times the response length plus 13 |
| GeminiAgent.ImpliedCalculationsFloor | agents/gemini_agent.py:103-105 | no keyword and fewer than 4 numbers give exactly 3 |
| GeminiAgent.CountImpliedCalculations | agents/gemini_agent.py:88-105 | the loop computes ImpliedCalculations |
| GeminiAgent.AssetScore | agents/gemini_agent.py:123-130 | the detail and difference points lie in [0, 25]; asset values that are no dictionary raise |
| GeminiAgent.PositionScore | agents/gemini_agent.py:117-134 | the position points lie in [0, 60] |
| GeminiAgent.ValidationScore | agents/gemini_agent.py:107-136 | the score lies in [0, 100] when it does not raise |
| GeminiAgent.StructuredScore | agents/gemini_agent.py:107-136 | data passing the structure check scores at least 65, without raising |
| GeminiAgent.FullScore | agents/gemini_agent.py:107-136 | 100 exactly when the structure passes, some asset has a detail, some a zero selisih, and balancing is present |
| GeminiAgent.NoStructureScore | agents/gemini_agent.py:113-136 | without the structure check at most 60 |
| GeminiAgent.Confidence | agents/gemini_agent.py:138-152 | the confidence is clamped to [0, 100] |
| GeminiAgent.ConfidenceMonotone | agents/gemini_agent.py:138-152 | a better score never lowers the confidence |
| GeminiAgent.ConfidenceOfScore | agents/gemini_agent.py:138-152 | at most 90; 0.8 times the score plus the structure bonus, less 15 (floored at 0) when an error phrase appears |
| GeminiAgent.FinalAuditResult | agents/gemini_agent.py:237-253 | the results sit under audit_footing_laporan_keuangan; consensus_quality is "Perfect" exactly when total_retries is 0 |
| GeminiAgent.MetadataPaths | agents/gemini_agent.py:241-247 | the metadata fields are found at their paths |
| GeminiAgent.ProcessStatements | core/base_agent.py:191-216 | the Gemini system's audit is AuditResult |
| GeminiAgent.AlwaysPerfect | agents/gemini_agent.py:246 | every Gemini audit succeeds with "Perfect" consensus and 0 retries |
| OllamaAgent.ValidateConsensus | agents/ollama_agent.py:185-247 | the Ollama check is the consensus check with the loose profile |
| OllamaAgent.LooseTolerance | agents/ollama_agent.py:212 | |base|/1000 from a baseline of 5000 in absolute value, 5 below |
| OllamaAgent.LooseToleranceExample | agents/ollama_agent.py:209-217 | baseline 1000: tolerance 5, 1004.5 agrees, 1005.5 disagrees |
| OllamaAgent.PatternHitsBound | agents/ollama_agent.py:89-91 | each pattern matches at most once per character |
| OllamaAgent.SimulatedToolCalls | agents/ollama_agent.py:73-100 | the count always lies in [6, 25] |
| OllamaAgent.SimulatedExact | agents/ollama_agent.py:89-100 | between the floor and the cap, with few numbers, the count is the pattern hits exactly |
| OllamaAgent.SimulatedFloor | agents/ollama_agent.py:97-98 | a response of at most one character counts 6 |
| OllamaAgent.SimulateToolCalculations | agents/ollama_agent.py:73-100 | the loop computes SimulatedToolCalls |
| OllamaAgent.NumericalFields | agents/ollama_agent.py:125-131 | at most two fields per asset item |
| OllamaAgent.NumericalBonus | agents/ollama_agent.py:133 | the numeric-field bonus lies in [0, 15] |
| OllamaAgent.RecordedItemCounted | agents/ollama_agent.py:126-129 | an item recording a figure is counted |
| OllamaAgent.PositionScore | agents/ollama_agent.py:116-137 | the position points lie in [0, 45] |
| OllamaAgent.ValidationScore | agents/ollama_agent.py:102-139 | the score lies in [0, 100] when it does not raise |
| OllamaAgent.StructuredScore | agents/ollama_agent.py:102-139 | data passing the structure check scores at least 77 |
| OllamaAgent.Confidence | agents/ollama_agent.py:141-164 | the confidence is clamped to [0, 100] |
| OllamaAgent.ConfidenceMonotone | agents/ollama_agent.py:141-164 | a better score or more tool calls never lower the confidence |
| OllamaAgent.ConfidenceOfScore | agents/ollama_agent.py:141-164 | 0.75 of the score plus the capped tool bonus and the structure bonus, less the error and imbalance penalties, clamped |
| OllamaAgent.FinalAuditResult | agents/ollama_agent.py:249-265 | the results under audit_footing_laporan_keuangan; consensus_quality "Perfect" exactly when total_retries is 0 |
| OllamaAgent.MetadataPaths | agents/ollama_agent.py:253-260 | the metadata fields are found at their paths |
| OllamaAgent.ProcessStatements | core/base_agent.py:191-216 | the Ollama system's audit is AuditResult |
| OllamaAgent.AlwaysPerfect | agents/ollama_agent.py:259 | every Ollama audit succeeds with "Perfect" consensus and 0 retries |
| AgentFamily.ClampPercent | agents/gemini_agent.py:152 | min(max(x, 0), 100) lies in [0, 100] and leaves values in range alone |
| AgentFamily.ConsensusQuality | agents/gemini_agent.py:246 | "Perfect" exactly when there were no retries |
| BaseTripleAgentSystem.PutResult | core/base_agent.py:243 | agent_results[agent_id] = result keeps identifiers distinct and drops only the replaced result |
| BaseTripleAgentSystem.Collect | core/base_agent.py:240-248 | the filed results have distinct identifiers and are empty only without agents |
| BaseTripleAgentSystem.File | core/base_agent.py:242-248 | one agent's turn succeeds exactly when its process_statement does |
| BaseTripleAgentSystem.Counts | core/base_agent.py:260 | agent_tool_counts: each agent with its tool_calls_made |
| BaseTripleAgentSystem.Attempts | core/base_agent.py:225-300 | the remaining attempts add at most one retry entry each to the log |
| BaseTripleAgentSystem.InconsistentRecords | core/base_agent.py:256-262 | the inconsistency entries of a range of attempts, one per attempt, numbered attempt + 1 in turn |
| BaseTripleAgentSystem.DisagreedRecords | core/base_agent.py:283-290 | the disagreement entries of a range of attempts, one per attempt, numbered attempt + 1 in turn |
| BaseTripleAgentSystem.AttemptsExhausted | core/base_agent.py:300 | with no attempt left the result is {} and the log is unchanged |
| BaseTripleAgentSystem.AttemptsAgree | core/base_agent.py:272-277 | a valid attempt reaching consensus returns the agreed data, logging nothing more |
| BaseTripleAgentSystem.AttemptsInconsistent | core/base_agent.py:254-269 | inconsistent tool counts log one entry per remaining attempt and end with {} |
| BaseTripleAgentSystem.AttemptsDisagree | core/base_agent.py:278-298 | valid attempts that never agree log one entry per remaining attempt and end with the first agent's data |
| BaseTripleAgentSystem.DisagreeStep | core/base_agent.py:283-298 | a disagreeing attempt logs its entry, then retries or, after the last attempt, returns the first agent's data |
| BaseTripleAgentSystem.ConsensusRun | core/base_agent.py:218-300 | at most max_retries + 1 retry entries |
| BaseTripleAgentSystem.Outcomes | core/base_agent.py:240-243 | one outcome per agent |
| BaseTripleAgentSystem.OutcomesAt | core/base_agent.py:240-243 | each agent files its own process_statement result |
| BaseTripleAgentSystem.RunAttempt | core/base_agent.py:237-251 | the agent loop of one attempt computes RunAgents |
| BaseTripleAgentSystem.RunAgent | core/base_agent.py:241-248 | one turn of the agent loop files that agent's outcome |
| BaseTripleAgentSystem.ProcessWithConsensus | core/base_agent.py:218-300 | the attempt loop with its early returns computes ConsensusRun |
| BaseTripleAgentSystem.CollectAgreeing | core/base_agent.py:240-254 | agents with the planned count and the same data make a valid attempt with that data |
| BaseTripleAgentSystem.AgentsAgree | core/base_agent.py:228-254 | every agent makes the planned number of calls and extracts the shared data |
| BaseTripleAgentSystem.AgentOutcome | core/base_agent.py:242-246 | any agent's result has the planned count and the shared data |
| BaseTripleAgentSystem.FirstAttemptAgrees | core/base_agent.py:254-277 | the first attempt is valid and reaches consensus on the shared data |
| BaseTripleAgentSystem.SettlesAtOnce | core/base_agent.py:272-277 | a valid first attempt reaching consensus returns the agreed data with no retry |
| BaseTripleAgentSystem.NoRetries | core/base_agent.py:225-300 | with agents every statement settles on the shared data with no retry; with no agents agents[0] raises; with negative max_retries the result is {} |
| BaseTripleAgentSystem.Update | core/base_agent.py:212 | results.update succeeds exactly for a dictionary |
| BaseTripleAgentSystem.PutAll | core/base_agent.py:212 | keys not updated keep their values |
| BaseTripleAgentSystem.PutAllLast | core/base_agent.py:212 | an updated key takes the value of its last field |
| BaseTripleAgentSystem.PutAllFields | core/base_agent.py:212 | after results.update(d), every key of d holds d's value for it |
| BaseTripleAgentSystem.Runs | core/base_agent.py:205-210 | one run per statement |
| BaseTripleAgentSystem.RunsAt | core/base_agent.py:205-210 | each statement's run is its own |
| BaseTripleAgentSystem.Merge | core/base_agent.py:205-214 | total_retries is the length of the retry log |
| BaseTripleAgentSystem.Absorb | core/base_agent.py:212-214 | one statement adds its retries to the log and to total_retries |
| BaseTripleAgentSystem.RetryLogJson | core/base_agent.py:256-290 | one dictionary per retry entry, each the dictionary of its own entry, in order |
| BaseTripleAgentSystem.ProcessFinancialStatements | core/base_agent.py:191-216 | the statement loop computes AuditOf |
| BaseTripleAgentSystem.ProcessOne | core/base_agent.py:205-214 | one turn of the statement loop absorbs that statement's run |
| BaseTripleAgentSystem.MergeWithoutRetries | core/base_agent.py:205-214 | statements settling at once merge with no retries |
| BaseTripleAgentSystem.AuditWithoutRetries | core/base_agent.py:191-216 | every audit succeeds with total_retries 0 and an empty retry log |
| Text.Strip | core/utils.py:85 | str.strip(): a slice of the text with only whitespace before and after it and no whitespace at either of its ends |
| Text.Find | core/utils.py:94 | the first index of the character, -1 exactly when absent |
| Text.RFind | core/utils.py:95 | the last index of the character, -1 exactly when absent |
| Text.Count | agents/gemini_agent.py:98 | str.count: non-overlapping occurrences, so count times the pattern length never exceeds the text length |
| Text.Lower | agents/gemini_agent.py:95 | str.lower(): same length, each character lowered on its own |
| Text.DigitRuns | agents/gemini_agent.py:102 | findall(r'\d+'): at most one run per two characters |
| Text.CountAlternation | agents/ollama_agent.py:90 | findall of a word alternation: at most one match per character |
| Text.NatToString | core/tool_orchestrator.py:296 | str(n) is a digit string denoting n |
| Text.ParseExponentForm | calculation_tools.py:35 | digits, 'e' or 'E' and digits read as the mantissa scaled up by that power of ten, and scaled down after a '-' |
| Text.ScaleUp | calculation_tools.py:35 | a non-negative exponent multiplies by the power of ten |
| Text.ScaleDown | calculation_tools.py:35 | a negative exponent divides by the power of ten |
| Text.StartsWithMeaning | core/utils.py:88-91 | str.startswith: the prefix is no longer than the text and its characters begin it one by one |
| Text.ContainsMeaning | core/tool_orchestrator.py:309 | `p in s`: true exactly when p occurs at some position of s |
| Text.Replace | calculation_tools.py:33 | str.replace of one character: none is left when the replacement lacks it, only characters of the text or the replacement appear, and a text without it is unchanged |
| Text.ReplaceConcat | calculation_tools.py:33 | replacing works character by character, so it distributes over concatenation |
| Text.SliceBound | core/utils.py:89-98 | a slice bound in range is itself, a negative one within the length counts from the end, and every bound is at most the length |
| Text.Slice | core/utils.py:89-98 | s[start:stop] is never longer than s; what it holds is stated by SliceMeaning |
| Text.SliceMeaning | core/utils.py:89-98 | s[start:stop] in range is that subsequence, s[start:-k] ends k before the end, and the slice is empty once the normalised stop is not after the normalised start |
| Text.Take | core/tool_orchestrator.py:98-212 | s[:k]: the first k elements, or the whole sequence when it is shorter |
| Json.FieldTextsMembers | core/tool_orchestrator.py:299 | the texts json.dumps writes for a dictionary are exactly its keys and the texts of its values |
| Json.ItemTextsMembers | core/tool_orchestrator.py:299 | the texts written for a list are exactly the texts of its items |
| Json.EscapeConcat | core/tool_orchestrator.py:299 | json.dumps escapes a string character by character |
| Json.EscapeCharAscii | agents/gemini_agent.py:148 | with the default ensure_ascii=True one character is written in printable ASCII: itself, a backslash escape, a \uXXXX escape or a surrogate pair of them |
| Json.EscapeAscii | agents/gemini_agent.py:148 | with ensure_ascii=True a whole string is written in printable ASCII |
| Json.EscapeCharKept | agents/ollama_agent.py:156 | a printable character other than the quote and the backslash is written as itself, as is every character from U+007F on with ensure_ascii=False; the quote and the backslash get a backslash before them |
| Json.EscapePlain | core/tool_orchestrator.py:299 | printable ASCII without quote or backslash is written unchanged |
| Json.TextsMentionConcat | core/tool_orchestrator.py:307-309 | a phrase is found in the texts a + b exactly when it is found in a or in b |
| Json.TextsMentionSingle | core/tool_orchestrator.py:307-309 | one text mentions a phrase exactly when its escaped, lower-cased form contains it |
| Json.MentionsLeaf | core/tool_orchestrator.py:299-309 | `pattern in json.dumps(x).lower()`: a string is searched in its escaped, lower-cased form, and null, the booleans and the numbers mention no phrase |
| Json.MentionsObject | core/tool_orchestrator.py:299-309 | a dictionary mentions a phrase exactly when one of its keys or one of its values does |
| Json.MentionsArray | agents/ollama_agent.py:156-159 | a list mentions a phrase exactly when one of its items does |
| Json.PlainTextLacks | agents/gemini_agent.py:148-149 | a plain text lacking a character of the phrase, in either case, does not mention it |
| Json.Put | core/tool_orchestrator.py:282-286 | d[key] = value: the key holds the value, every other key keeps its value |
| Json.Lookup | core/base_agent.py:314-337 | `key in x` then `x[key]`: present exactly for a dictionary holding the key |
| Json.Get | core/tool_orchestrator.py:323-339 | dict.get: absent exactly when the key is missing |
| Json.PyIn | core/base_agent.py:314-337 | `key in x`: raises for None, booleans and numbers; on a dictionary tells whether the key is present |
| Json.PyFloat | core/base_agent.py:323 | float() of a number is itself; None, lists and dictionaries raise |
| Json.PyFloatDigits | core/base_agent.py:323 | float() of a digit string is the number its digits denote |
| Json.PyFloatGrouped | core/base_agent.py:323 | underscores each between two digits are dropped |
| Json.PyFloatTrailingUnderscore | core/base_agent.py:323 | an underscore ending the text makes float() raise |

## Left out

- The language-model calls (`_setup_model`, `_get_llm_interpretation`,
  `_create_agent_specific_prompt`, `_create_base_prompt`). They are foreign
  and nondeterministic, and the pipeline never feeds their output back into
  scoring.
- `parse_json_safely`: it rests on `json.loads`, which is not part of this
  model.
- `core/config.py` is not part of this model. The model names and the
  Ollama server address are parameters.
- The audit timestamp comes from `time.strftime` and is a parameter.
  `processing_time`, `time.time` and `time.sleep` are left out, because
  they are clock reads.
- Console prints are left out; they have no effect on results.
- Floats are exact `real`s. The narrowing of `Decimal` results to float is
  not modelled. Neither is the 28-digit precision of
  `getcontext().prec = 28` (calculation_tools.py:12). It rounds every
  `Decimal` operation: the sums, the subtractions and the balance check's
  addition and difference, as well as the division in
  `calculate_percentage`. The model computes all of them exactly.
- Json.PyFloat: "inf", "infinity" and "nan" have no real counterpart, so
  the model reads them as not converting.
- CalculationTools.PreciseDecimal: the special values "NaN", "sNaN", "Inf"
  and "Infinity" that `Decimal()` accepts have no real counterpart, so the
  model reads them as not converting.
- `Text.Lower`, `Text.Strip` and the digit class cover ASCII only. The
  ASCII whitespace set includes the separators \x1c to \x1f. Python's Unicode
  `lower()` (which can change the length), Unicode whitespace such as \x85
  and \xa0, and Unicode digits are not modelled.
- The iteration order of the Python `set` `all_keys` is unspecified. The
  model compares keys in the fixed reading order of the four figure names,
  so the order of the discrepancy list is that order.
- The optional `calculation_verification` and `calculation_accuracy` fields
  of `ConsensusResult` are never set by the core, so they are not modelled.
- Percentage-entry descriptions interpolate Python's float repr of the
  operands. The model records the operands instead of the formatted text.
- Dictionaries are field lists with distinct keys as the core builds them.
  Duplicate keys in input data are not modelled.
- The `except Exception` branch of `execute_mandatory_calculations` is
  reached in the model only through argument binding, which is the only way
  a recipe step fails. An unknown tool name cannot occur with the closed set
  of five tools.
- The LangChain `@tool` wrapper is modelled only by its argument binding by
  name. Its other validation and coercion rules are not modelled.
- `results.update(final_result)` with a non-dictionary result raises in
  Python. The model reports this as no audit (None). It never happens, since
  every statement settles on a dictionary.
- The scoring helpers (validation score, confidence, implied or simulated
  tool counts) are modelled and bounded, but they are not wired into the
  pipeline. The Python pipeline does not call them either: `process_statement`
  scores agents by 100/95 or 0/10.
- BaseTripleAgentSystem.Attempts: every attempt is given the same agent
  loop result. The source recomputes it each time, but the computation is
  deterministic, so the results are identical; the model does not re-run it.
- The detection of the target phrases in `json.dumps(...)` is modelled on
  the texts of the value (its keys and strings). Numbers and punctuation of
  the serialisation are not searched, and no phrase crosses a string
  boundary. For the phrases the core searches for (lower-case letters and
  spaces) this is exact: none of them can occur inside a number, a literal
  (true, false, null), a quote, a separator or a bracket.
