/** The controller of core/base_agent.py (BaseTripleAgentSystem): every
    statement is run by all agents on the same plan, their tool counts
    are checked, their results are compared, and the attempt is repeated
    up to max_retries more times when the counts or the figures differ.
    The comparison is the consensus check of a concrete agent family,
    given here by its tolerance profile. */
module BaseTripleAgentSystem {
  import opened Wrappers
  import opened Json
  import opened CalculationTools
  import opened ToolOrchestrator
  import opened BaseAgent
  import opened Consensus

  /** tool_calls_made of one agent, as recorded in a retry entry. */
  datatype ToolCount = ToolCount(agentId: string, count: nat)

  /** One entry of the retry log. */
  datatype RetryRecord =
    | Inconsistent(attempt: nat, expectedTools: nat, agentToolCounts: seq<ToolCount>)
    | Disagreed(attempt: nat, disagreements: nat, failingAgents: seq<string>)

  function Reason(r: RetryRecord): string
  {
    match r
    case Inconsistent(_, _, _) => "tool_execution_inconsistent"
    case Disagreed(_, _, _) => "tool_results_disagree_unexpectedly"
  }

  function Note(r: RetryRecord): Option<string>
  {
    match r
    case Inconsistent(_, _, _) => None
    case Disagreed(_, _, _) => Some("Identical tools produced different results - possible bug")
  }

  // ---------------------------------------------------------------------
  // agent_results

  /** agent_results[agent_id] = result: a result for an agent already
      present replaces it in its place, a new one goes last. */
  function PutResult(results: seq<AgentResult>, r: AgentResult): (s: seq<AgentResult>)
    ensures r in s
    ensures forall x :: x in s ==> x == r || x in results
    ensures forall x :: x in results && x.agentId != r.agentId ==> x in s
    ensures DistinctIds(results) ==> DistinctIds(s)
  {
    if results == [] then [r]
    else if results[0].agentId == r.agentId then [r] + results[1..]
    else [results[0]] + PutResult(results[1..], r)
  }

  /** The results of one attempt, and whether every agent made the
      planned number of tool calls. */
  datatype Attempt = Attempt(results: seq<AgentResult>, valid: bool)

  /** What process_statement returns for each agent in turn. */
  function Outcomes(ids: seq<string>, text: string, statementType: string, company: string)
    : (o: seq<Option<AgentResult>>)
    ensures |o| == |ids|
  {
    if ids == [] then []
    else Outcomes(ids[..|ids| - 1], text, statementType, company) + [StatementResult(ids[|ids| - 1], text, statementType, company)]
  }

  /** The agent loop over the agents' outcomes: each result is filed, and
      the attempt stays valid while every agent made the expected number of
      tool calls; None at the first outcome that raised. */
  function Collect(outcomes: seq<Option<AgentResult>>, expected: nat): (a: Option<Attempt>)
    ensures a.Some? ==> DistinctIds(a.value.results) && (a.value.results == [] <==> outcomes == [])
  {
    if outcomes == [] then Some(Attempt([], true)) else File(Collect(outcomes[..|outcomes| - 1], expected), outcomes[|outcomes| - 1], expected)
  }

  /** One turn of the agent loop: agent_results[agent_id] = result, and
      the check of its tool_calls_made. */
  function File(attempt: Option<Attempt>, outcome: Option<AgentResult>, expected: nat): (a: Option<Attempt>)
    ensures a.Some? <==> attempt.Some? && outcome.Some?
    ensures a.Some? && DistinctIds(attempt.value.results) ==> DistinctIds(a.value.results) && a.value.results != []
  {
    match attempt
    case None => None
    case Some(a) =>
      match outcome
      case None => None
      case Some(r) =>
        assert r in PutResult(a.results, r);
        Some(Attempt(PutResult(a.results, r), a.valid && r.toolCallsMade == expected))
  }

  /** The agent loop of one attempt. */
  function RunAgents(ids: seq<string>, text: string, statementType: string, company: string, expected: nat)
    : Option<Attempt>
  {
    Collect(Outcomes(ids, text, statementType, company), expected)
  }

  /** {aid: res.tool_calls_made for aid, res in agent_results.items()} */
  function Counts(results: seq<AgentResult>): (c: seq<ToolCount>)
    ensures |c| == |results|
    ensures forall i :: 0 <= i < |results| ==> c[i] == ToolCount(results[i].agentId, results[i].toolCallsMade)
  {
    if results == [] then [] else [ToolCount(results[0].agentId, results[0].toolCallsMade)] + Counts(results[1..])
  }

  // ---------------------------------------------------------------------
  // _process_with_consensus

  /** The data a statement settles on and the retry entries it logged. */
  datatype Outcome = Outcome(data: Json, retries: seq<RetryRecord>)

  /** The attempts from `attempt` on, with the retry entries logged so
      far. Every attempt runs the same agents on the same plan, so every
      attempt's agent loop ends in the same `run`; None when an exception
      escaped (agents[0] of no agents, or a raising process_statement). */
  function Attempts(p: Profile, hasAgents: bool, run: Option<Attempt>, expected: nat, maxRetries: int,
                    attempt: nat, retries: seq<RetryRecord>): (r: Option<Outcome>)
    requires hasAgents && run.Some? ==> run.value.results != []
    ensures r.Some? ==> |retries| <= |r.value.retries| <= |retries| + (if attempt <= maxRetries then maxRetries + 1 - attempt else 0)
    decreases if attempt <= maxRetries then maxRetries + 1 - attempt else 0
  {
    if attempt > maxRetries then Some(Outcome(JObj([]), retries))
    else if !hasAgents then None
    else
      match run
      case None => None
      case Some(a) =>
        if !a.valid then
          var logged := retries + [Inconsistent(attempt + 1, expected, Counts(a.results))];
          if attempt < maxRetries then Attempts(p, hasAgents, run, expected, maxRetries, attempt + 1, logged)
          else Some(Outcome(JObj([]), logged))
        else
          var c := ConsensusOf(p, a.results);
          if c.isConsensus then Some(Outcome(c.agreedData, retries))
          else
            var logged := retries + [Disagreed(attempt + 1, |c.discrepancies|, c.failingAgents)];
            if attempt < maxRetries then Attempts(p, hasAgents, run, expected, maxRetries, attempt + 1, logged)
            else Some(Outcome(a.results[0].extractedData, logged))
  }

  /** What _process_with_consensus returns. */
  function ConsensusRun(p: Profile, ids: seq<string>, maxRetries: int, text: string, statementType: string,
                        company: string): (r: Option<Outcome>)
    ensures r.Some? ==> |r.value.retries| <= if maxRetries >= 0 then maxRetries + 1 else 0
  {
    var expected := CreatePlan(text, statementType).totalToolCount;
    Attempts(p, ids != [], RunAgents(ids, text, statementType, company, expected), expected, maxRetries, 0, [])
  }

  /** The agent loop after one more outcome. */
  lemma CollectStep(before: seq<Option<AgentResult>>, outcomes: seq<Option<AgentResult>>, expected: nat)
    requires outcomes != [] && outcomes[..|outcomes| - 1] == before
    ensures Collect(outcomes, expected) == File(Collect(before, expected), outcomes[|outcomes| - 1], expected)
  {
  }

  lemma OutcomesPrefix(ids: seq<string>, i: nat, text: string, statementType: string, company: string)
    requires i < |ids|
    ensures var o := Outcomes(ids[..i + 1], text, statementType, company);
      o[..i] == Outcomes(ids[..i], text, statementType, company) && o[i] == StatementResult(ids[i], text, statementType, company)
  {
    assert ids[..i + 1][..i] == ids[..i];
  }

  /** One more agent of the loop files its own outcome. */
  lemma CollectNext(ids: seq<string>, i: nat, text: string, statementType: string, company: string, expected: nat)
    requires i < |ids|
    ensures Collect(Outcomes(ids[..i + 1], text, statementType, company), expected)
            == File(Collect(Outcomes(ids[..i], text, statementType, company), expected),
                    StatementResult(ids[i], text, statementType, company), expected)
  {
    OutcomesPrefix(ids, i, text, statementType, company);
    CollectStep(Outcomes(ids[..i], text, statementType, company), Outcomes(ids[..i + 1], text, statementType, company), expected);
  }

  /** The outcome filed for each agent is its own. */
  lemma {:induction false} OutcomesAt(ids: seq<string>, i: nat, text: string, statementType: string, company: string)
    requires i < |ids|
    ensures Outcomes(ids, text, statementType, company)[i] == StatementResult(ids[i], text, statementType, company)
    decreases |ids|
  {
    if i < |ids| - 1 {
      var init := ids[..|ids| - 1];
      OutcomesAt(init, i, text, statementType, company);
    }
  }

  /** One agent loop: process_statement for each agent in turn on the
      shared calculator, filing each result under its agent. */
  method RunAttempt(calculator: FinancialCalculator, ids: seq<string>, text: string, statementType: string,
                    company: string, expected: nat) returns (a: Option<Attempt>)
    modifies calculator
    ensures a == RunAgents(ids, text, statementType, company, expected)
    ensures calculator.calculationLog
            == if ids == [] then old(calculator.calculationLog) else Run(CreatePlan(text, statementType).requiredTools).log
  {
    a := Some(Attempt([], true));
    ghost var runLog := Run(CreatePlan(text, statementType).requiredTools).log;
    assert ids[..0] == [];
    var i := 0;
    while i < |ids|
      invariant 0 <= i <= |ids|
      invariant a == Collect(Outcomes(ids[..i], text, statementType, company), expected)
      invariant i == 0 ==> calculator.calculationLog == old(calculator.calculationLog)
      invariant i > 0 ==> calculator.calculationLog == runLog
      invariant a.None? ==> i > 0
    {
      CollectNext(ids, i, text, statementType, company, expected);
      a := RunAgent(calculator, ids[i], text, statementType, company, expected, a);
      i := i + 1;
    }
    assert ids[..i] == ids;
  }

  /** One turn of the agent loop on the results filed so far (None once
      an exception has escaped, after which no agent runs). */
  method RunAgent(calculator: FinancialCalculator, id: string, text: string, statementType: string,
                  company: string, expected: nat, attempt: Option<Attempt>) returns (a: Option<Attempt>)
    modifies calculator
    ensures a == File(attempt, StatementResult(id, text, statementType, company), expected)
    ensures calculator.calculationLog
            == if attempt.None? then old(calculator.calculationLog) else Run(CreatePlan(text, statementType).requiredTools).log
  {
    if attempt.None? {
      a := None;
    } else {
      var r := ProcessStatement(calculator, id, text, statementType, company);
      a := File(attempt, r, expected);
    }
  }

  /** _process_with_consensus: the attempts, stopping at the first
      consensus; after the last attempt an inconsistent tool count gives
      no data and a disagreement gives the first agent's data. */
  method ProcessWithConsensus(calculator: FinancialCalculator, p: Profile, ids: seq<string>, maxRetries: int,
                              text: string, statementType: string, company: string) returns (r: Option<Outcome>)
    modifies calculator
    ensures r == ConsensusRun(p, ids, maxRetries, text, statementType, company)
  {
    var retries: seq<RetryRecord> := [];
    var attempt: nat := 0;
    var done := false;
    r := None;
    ghost var expected0 := CreatePlan(text, statementType).totalToolCount;
    ghost var run := RunAgents(ids, text, statementType, company, expected0);
    while attempt <= maxRetries && !done
      invariant done ==> r == ConsensusRun(p, ids, maxRetries, text, statementType, company)
      invariant !done ==> ConsensusRun(p, ids, maxRetries, text, statementType, company)
                          == Attempts(p, ids != [], run, expected0, maxRetries, attempt, retries)
      decreases (if attempt <= maxRetries then maxRetries + 1 - attempt else 0), !done
    {
      if ids == [] {
        r, done := None, true;
      } else {
        var expected := CreatePlan(text, statementType).totalToolCount;
        var a := RunAttempt(calculator, ids, text, statementType, company, expected);
        if a.None? {
          r, done := None, true;
        } else if !a.value.valid {
          retries := retries + [Inconsistent(attempt + 1, expected, Counts(a.value.results))];
          if attempt < maxRetries {
            attempt := attempt + 1;
          } else {
            r, done := Some(Outcome(JObj([]), retries)), true;
          }
        } else {
          var c := ValidateConsensus(p, a.value.results);
          if c.isConsensus {
            r, done := Some(Outcome(c.agreedData, retries)), true;
          } else {
            retries := retries + [Disagreed(attempt + 1, |c.discrepancies|, c.failingAgents)];
            if attempt < maxRetries {
              attempt := attempt + 1;
            } else {
              r, done := Some(Outcome(a.value.results[0].extractedData, retries)), true;
            }
          }
        }
      }
    }
    if !done {
      r := Some(Outcome(JObj([]), retries));
    }
  }

  // ---------------------------------------------------------------------
  // Every attempt succeeds

  /** The data every agent extracts from a statement. */
  function SharedData(text: string, statementType: string, company: string): Json
  {
    StatementCompletes("", text, statementType, company);
    StatementResult("", text, statementType, company).value.extractedData
  }

  /** Outcomes that all carry the expected count and the same data
      collect into a valid attempt holding that data. */
  lemma {:induction false} CollectAgreeing(outcomes: seq<Option<AgentResult>>, expected: nat, data: Json)
    requires forall i :: 0 <= i < |outcomes| ==>
      outcomes[i].Some? && outcomes[i].value.toolCallsMade == expected && outcomes[i].value.extractedData == data
    ensures var a := Collect(outcomes, expected);
      && a.Some? && a.value.valid
      && forall i :: 0 <= i < |a.value.results| ==> a.value.results[i].extractedData == data
    decreases |outcomes|
  {
    if outcomes != [] {
      CollectAgreeing(outcomes[..|outcomes| - 1], expected, data);
    }
  }

  lemma SharedDataObject(text: string, statementType: string, company: string)
    ensures SharedData(text, statementType, company).JObj?
  {
    StatementCompletes("", text, statementType, company);
  }

  /** Every agent makes the planned number of calls and extracts the
      shared data. */
  lemma AgentsAgree(ids: seq<string>, text: string, statementType: string, company: string)
    ensures var a := RunAgents(ids, text, statementType, company, CreatePlan(text, statementType).totalToolCount);
      && a.Some? && a.value.valid
      && forall i :: 0 <= i < |a.value.results| ==> a.value.results[i].extractedData == SharedData(text, statementType, company)
  {
    var outcomes := Outcomes(ids, text, statementType, company);
    var expected := CreatePlan(text, statementType).totalToolCount;
    var data := SharedData(text, statementType, company);
    forall i | 0 <= i < |outcomes|
      ensures outcomes[i].Some? && outcomes[i].value.toolCallsMade == expected && outcomes[i].value.extractedData == data
    {
      OutcomesAt(ids, i, text, statementType, company);
      AgentOutcome(ids[i], text, statementType, company);
    }
    CollectAgreeing(outcomes, expected, data);
  }

  /** Any agent makes the planned number of calls and extracts the shared
      data. */
  lemma AgentOutcome(id: string, text: string, statementType: string, company: string)
    ensures var r := StatementResult(id, text, statementType, company);
      && r.Some? && r.value.toolCallsMade == CreatePlan(text, statementType).totalToolCount
      && r.value.extractedData == SharedData(text, statementType, company)
  {
    StatementCompletes(id, text, statementType, company);
    StatementAgentIndependent(id, "", text, statementType, company);
  }

  /** Identical tools give identical results: with at least one agent and
      max_retries >= 0, the first attempt reaches consensus on the shared
      data and nothing is retried; with no agents agents[0] raises. */
  lemma NoRetries(p: Profile, ids: seq<string>, maxRetries: int, text: string, statementType: string, company: string)
    requires p.floor >= 0.0
    ensures ConsensusRun(p, ids, maxRetries, text, statementType, company)
            == if maxRetries < 0 then Some(Outcome(JObj([]), []))
               else if ids == [] then None
               else Some(Outcome(SharedData(text, statementType, company), []))
  {
    if maxRetries >= 0 && ids != [] {
      FirstAttemptAgrees(p, ids, text, statementType, company);
      var expected := CreatePlan(text, statementType).totalToolCount;
      SettlesAtOnce(p, RunAgents(ids, text, statementType, company, expected), expected, maxRetries);
    }
  }

  /** A valid first attempt that reaches consensus ends the attempts with
      the agreed data and no retry. */
  lemma SettlesAtOnce(p: Profile, run: Option<Attempt>, expected: nat, maxRetries: int)
    requires maxRetries >= 0 && run.Some? && run.value.valid && run.value.results != []
    requires ConsensusOf(p, run.value.results).isConsensus
    ensures Attempts(p, true, run, expected, maxRetries, 0, [])
            == Some(Outcome(ConsensusOf(p, run.value.results).agreedData, []))
  {
  }

  /** The entries logged by the attempts numbered from + 1 to until after
      inconsistent tool counts, one per attempt, in order. */
  function InconsistentRecords(from: nat, until: nat, expected: nat, counts: seq<ToolCount>): (r: seq<RetryRecord>)
    ensures |r| == if from <= until then until - from else 0
    ensures forall i :: 0 <= i < |r| ==> r[i] == Inconsistent(from + i + 1, expected, counts)
    decreases until - from
  {
    if from >= until then [] else [Inconsistent(from + 1, expected, counts)] + InconsistentRecords(from + 1, until, expected, counts)
  }

  /** The entries logged by the attempts numbered from + 1 to until after
      a disagreement, one per attempt, in order. */
  function DisagreedRecords(from: nat, until: nat, disagreements: nat, failing: seq<string>): (r: seq<RetryRecord>)
    ensures |r| == if from <= until then until - from else 0
    ensures forall i :: 0 <= i < |r| ==> r[i] == Disagreed(from + i + 1, disagreements, failing)
    decreases until - from
  {
    if from >= until then [] else [Disagreed(from + 1, disagreements, failing)] + DisagreedRecords(from + 1, until, disagreements, failing)
  }

  /** Once the retries are used up the loop ends with an empty dictionary. */
  lemma AttemptsExhausted(p: Profile, hasAgents: bool, run: Option<Attempt>, expected: nat, maxRetries: int,
                          attempt: nat, retries: seq<RetryRecord>)
    requires hasAgents && run.Some? ==> run.value.results != []
    requires attempt > maxRetries
    ensures Attempts(p, hasAgents, run, expected, maxRetries, attempt, retries) == Some(Outcome(JObj([]), retries))
  {
  }

  /** A valid attempt that reaches consensus, at any attempt, ends the loop
      with the agreed data and logs nothing more. */
  lemma AttemptsAgree(p: Profile, run: Option<Attempt>, expected: nat, maxRetries: int, attempt: nat,
                      retries: seq<RetryRecord>)
    requires run.Some? && run.value.results != [] && run.value.valid && attempt <= maxRetries
    requires ConsensusOf(p, run.value.results).isConsensus
    ensures Attempts(p, true, run, expected, maxRetries, attempt, retries)
            == Some(Outcome(ConsensusOf(p, run.value.results).agreedData, retries))
  {
  }

  /** Every attempt repeats the same run, so inconsistent tool counts log one
      entry per remaining attempt and end with an empty dictionary. */
  lemma {:induction false} AttemptsInconsistent(p: Profile, run: Option<Attempt>, expected: nat, maxRetries: int,
                                                attempt: nat, retries: seq<RetryRecord>)
    requires run.Some? && run.value.results != [] && !run.value.valid && attempt <= maxRetries
    ensures Attempts(p, true, run, expected, maxRetries, attempt, retries)
            == Some(Outcome(JObj([]), retries + InconsistentRecords(attempt, maxRetries + 1, expected, Counts(run.value.results))))
    decreases maxRetries - attempt
  {
    var counts := Counts(run.value.results);
    var logged := retries + [Inconsistent(attempt + 1, expected, counts)];
    var rest := InconsistentRecords(attempt + 1, maxRetries + 1, expected, counts);
    assert InconsistentRecords(attempt, maxRetries + 1, expected, counts) == [Inconsistent(attempt + 1, expected, counts)] + rest;
    assert logged + rest == retries + ([Inconsistent(attempt + 1, expected, counts)] + rest);
    assert run == Some(run.value);
    if attempt < maxRetries {
      assert Attempts(p, true, run, expected, maxRetries, attempt, retries)
             == Attempts(p, true, run, expected, maxRetries, attempt + 1, logged);
      AttemptsInconsistent(p, run, expected, maxRetries, attempt + 1, logged);
    } else {
      assert Attempts(p, true, run, expected, maxRetries, attempt, retries) == Some(Outcome(JObj([]), logged));
      assert rest == [];
      assert logged + rest == logged;
    }
  }

  /** Valid attempts that never agree (c is their consensus check) log one
      entry per remaining attempt and end with the first agent's data. */
  lemma {:induction false} AttemptsDisagree(p: Profile, run: Option<Attempt>, expected: nat, maxRetries: int,
                                            attempt: nat, retries: seq<RetryRecord>, c: ConsensusResult)
    requires run.Some? && run.value.results != [] && run.value.valid && attempt <= maxRetries
    requires c == ConsensusOf(p, run.value.results) && !c.isConsensus
    ensures Attempts(p, true, run, expected, maxRetries, attempt, retries)
            == Some(Outcome(run.value.results[0].extractedData,
                            retries + DisagreedRecords(attempt, maxRetries + 1, |c.discrepancies|, c.failingAgents)))
    decreases maxRetries - attempt
  {
    var entry := Disagreed(attempt + 1, |c.discrepancies|, c.failingAgents);
    var logged := retries + [entry];
    var rest := DisagreedRecords(attempt + 1, maxRetries + 1, |c.discrepancies|, c.failingAgents);
    assert DisagreedRecords(attempt, maxRetries + 1, |c.discrepancies|, c.failingAgents) == [entry] + rest;
    assert logged + rest == retries + ([entry] + rest);
    if attempt < maxRetries {
      DisagreeStep(p, run, expected, maxRetries, attempt, retries, c);
      AttemptsDisagree(p, run, expected, maxRetries, attempt + 1, logged, c);
    } else {
      DisagreeStep(p, run, expected, maxRetries, attempt, retries, c);
      assert rest == [];
      assert logged + rest == logged;
    }
  }

  /** One disagreeing attempt: its entry is logged, then the next attempt
      runs or, after the last one, the first agent's data is returned. */
  lemma DisagreeStep(p: Profile, run: Option<Attempt>, expected: nat, maxRetries: int, attempt: nat,
                     retries: seq<RetryRecord>, c: ConsensusResult)
    requires run.Some? && run.value.results != [] && run.value.valid && attempt <= maxRetries
    requires c == ConsensusOf(p, run.value.results) && !c.isConsensus
    ensures var logged := retries + [Disagreed(attempt + 1, |c.discrepancies|, c.failingAgents)];
      && (attempt < maxRetries ==>
            Attempts(p, true, run, expected, maxRetries, attempt, retries)
            == Attempts(p, true, run, expected, maxRetries, attempt + 1, logged))
      && (attempt == maxRetries ==>
            Attempts(p, true, run, expected, maxRetries, attempt, retries)
            == Some(Outcome(run.value.results[0].extractedData, logged)))
  {
    assert run == Some(run.value);
  }

  /** The first attempt is valid and agrees on the shared data. */
  lemma FirstAttemptAgrees(p: Profile, ids: seq<string>, text: string, statementType: string, company: string)
    requires p.floor >= 0.0 && ids != []
    ensures var a := RunAgents(ids, text, statementType, company, CreatePlan(text, statementType).totalToolCount);
      && a.Some? && a.value.valid && |a.value.results| > 0
      && ConsensusOf(p, a.value.results).isConsensus
      && ConsensusOf(p, a.value.results).agreedData == SharedData(text, statementType, company)
  {
    var expected := CreatePlan(text, statementType).totalToolCount;
    AgentsAgree(ids, text, statementType, company);
    var a := RunAgents(ids, text, statementType, company, expected).value;
    IdenticalDataAgree(p, a.results);
    AgreedData(p, a.results);
  }

  // ---------------------------------------------------------------------
  // process_financial_statements

  /** One statement: its type (the dictionary key) and its text. */
  datatype Statement = Statement(statementType: string, text: string)

  /** results.update(final_result) for a dictionary result; None for
      anything else, which update rejects. */
  function Update(results: seq<Field>, j: Json): (r: Option<seq<Field>>)
    ensures r.Some? <==> j.JObj?
  {
    match j
    case JObj(fields) => Some(PutAll(results, fields))
    case _ => None
  }

  /** The field at `i` is the last one with its key. */
  predicate LastWithKey(fields: seq<Field>, i: int)
    requires 0 <= i < |fields|
  {
    forall j :: i < j < |fields| ==> fields[j].key != fields[i].key
  }

  /** A field last with its key before the final field is still last
      without it, and does not share its key. */
  lemma LastWithKeyPrefix(fields: seq<Field>, i: nat)
    requires i < |fields| - 1 && LastWithKey(fields, i)
    ensures var n := |fields| - 1; LastWithKey(fields[..n], i) && fields[..n][i] == fields[i] && fields[n].key != fields[i].key
  {
  }

  /** Putting each field in turn. */
  function PutAll(results: seq<Field>, fields: seq<Field>): (r: seq<Field>)
    ensures forall k :: k !in Keys(fields) ==> Get(r, k) == Get(results, k)
  {
    if fields == [] then results
    else
      var last := fields[|fields| - 1];
      Put(PutAll(results, fields[..|fields| - 1]), last.key, last.value)
  }

  /** A key the fields name takes the value of its last field: a later
      field with the same key overwrites an earlier one. */
  lemma {:induction false} PutAllLast(results: seq<Field>, fields: seq<Field>, i: nat)
    requires i < |fields| && LastWithKey(fields, i)
    ensures Get(PutAll(results, fields), fields[i].key) == Some(fields[i].value)
    decreases |fields|
  {
    var n := |fields| - 1;
    var inner := PutAll(results, fields[..n]);
    assert PutAll(results, fields) == Put(inner, fields[n].key, fields[n].value);
    if i < n {
      LastWithKeyPrefix(fields, i);
      PutAllLast(results, fields[..n], i);
    }
  }

  /** Updating with a dictionary, whose keys are distinct, gives every key
      it holds its value there. */
  lemma PutAllFields(results: seq<Field>, fields: seq<Field>, k: string)
    requires forall i, j :: 0 <= i < j < |fields| ==> fields[i].key != fields[j].key
    requires k in Keys(fields)
    ensures Get(PutAll(results, fields), k) == Get(fields, k)
  {
    var i :| 0 <= i < |fields| && Keys(fields)[i] == k;
    PutAllLast(results, fields, i);
    GetAt(fields, i);
  }

  /** The merged results, total_retries and retry_log handed to
      _create_final_audit_result. */
  datatype Audit = Audit(results: seq<Field>, totalRetries: nat, retryLog: seq<RetryRecord>)

  /** What _process_with_consensus returns for each statement in turn. */
  function Runs(p: Profile, ids: seq<string>, maxRetries: int, statements: seq<Statement>, company: string)
    : (o: seq<Option<Outcome>>)
    ensures |o| == |statements|
  {
    if statements == [] then []
    else
      var s := statements[|statements| - 1];
      Runs(p, ids, maxRetries, statements[..|statements| - 1], company)
      + [ConsensusRun(p, ids, maxRetries, s.text, s.statementType, company)]
  }

  /** The statement loop over the statements' outcomes: each statement's
      data is merged in and its retries are counted and logged; None at
      the first outcome that raised or did not merge. */
  function Merge(runs: seq<Option<Outcome>>): (r: Option<Audit>)
    ensures r.Some? ==> r.value.totalRetries == |r.value.retryLog|
  {
    if runs == [] then Some(Audit([], 0, [])) else Absorb(Merge(runs[..|runs| - 1]), runs[|runs| - 1])
  }

  /** One turn of the statement loop: results.update(final_result),
      total_retries += len(retries), retry_log.extend(retries). */
  function Absorb(audit: Option<Audit>, run: Option<Outcome>): (r: Option<Audit>)
    ensures r.Some? <==> audit.Some? && run.Some? && run.value.data.JObj?
    ensures r.Some? ==> (r.value.totalRetries == audit.value.totalRetries + |run.value.retries|
                         && r.value.retryLog == audit.value.retryLog + run.value.retries)
  {
    match audit
    case None => None
    case Some(a) =>
      match run
      case None => None
      case Some(o) =>
        match Update(a.results, o.data)
        case None => None
        case Some(merged) => Some(Audit(merged, a.totalRetries + |o.retries|, a.retryLog + o.retries))
  }

  /** A retry entry as the dictionary the retry log holds. */
  function RetryJson(r: RetryRecord): Json
  {
    match r
    case Inconsistent(attempt, expected, counts) =>
      JObj([Field("attempt", JNum(attempt as real)), Field("reason", JStr(Reason(r))),
            Field("expected_tools", JNum(expected as real)), Field("agent_tool_counts", JObj(CountFields(counts)))])
    case Disagreed(attempt, disagreements, failing) =>
      JObj([Field("attempt", JNum(attempt as real)), Field("reason", JStr(Reason(r))),
            Field("disagreements", JNum(disagreements as real)), Field("failing_agents", JArr(Names(failing))),
            Field("note", JStr(Note(r).value))])
  }

  function CountFields(counts: seq<ToolCount>): seq<Field>
  {
    if counts == [] then []
    else CountFields(counts[..|counts| - 1]) + [Field(counts[|counts| - 1].agentId, JNum(counts[|counts| - 1].count as real))]
  }

  function Names(names: seq<string>): seq<Json>
  {
    if names == [] then [] else Names(names[..|names| - 1]) + [JStr(names[|names| - 1])]
  }

  /** The retry log as a list of dictionaries. */
  function RetryLogJson(log: seq<RetryRecord>): (items: seq<Json>)
    ensures |items| == |log|
    ensures forall i :: 0 <= i < |log| ==> items[i] == RetryJson(log[i])
  {
    if log == [] then [] else RetryLogJson(log[..|log| - 1]) + [RetryJson(log[|log| - 1])]
  }

  /** What process_financial_statements hands to the final wrapping. */
  function AuditOf(p: Profile, ids: seq<string>, maxRetries: int, statements: seq<Statement>, company: string)
    : Option<Audit>
  {
    Merge(Runs(p, ids, maxRetries, statements, company))
  }

  lemma RunsPrefix(p: Profile, ids: seq<string>, maxRetries: int, statements: seq<Statement>, company: string, i: nat)
    requires i < |statements|
    ensures var o := Runs(p, ids, maxRetries, statements[..i + 1], company);
      && o[..i] == Runs(p, ids, maxRetries, statements[..i], company)
      && o[i] == ConsensusRun(p, ids, maxRetries, statements[i].text, statements[i].statementType, company)
  {
    assert statements[..i + 1][..i] == statements[..i];
  }

  /** The outcome recorded for each statement is its own. */
  lemma {:induction false} RunsAt(p: Profile, ids: seq<string>, maxRetries: int, statements: seq<Statement>,
                                  company: string, i: nat)
    requires i < |statements|
    ensures Runs(p, ids, maxRetries, statements, company)[i]
            == ConsensusRun(p, ids, maxRetries, statements[i].text, statements[i].statementType, company)
    decreases |statements|
  {
    if i < |statements| - 1 {
      RunsAt(p, ids, maxRetries, statements[..|statements| - 1], company, i);
    }
  }

  /** The statement loop after one more statement. */
  lemma MergeStep(before: seq<Option<Outcome>>, runs: seq<Option<Outcome>>)
    requires runs != [] && runs[..|runs| - 1] == before
    ensures Merge(runs) == Absorb(Merge(before), runs[|runs| - 1])
  {
  }

  /** process_financial_statements up to the final, family-specific
      wrapping of its result. */
  method ProcessFinancialStatements(calculator: FinancialCalculator, p: Profile, ids: seq<string>, maxRetries: int,
                                    statements: seq<Statement>, company: string) returns (r: Option<Audit>)
    modifies calculator
    ensures r == AuditOf(p, ids, maxRetries, statements, company)
  {
    r := Some(Audit([], 0, []));
    assert statements[..0] == [];
    var i := 0;
    while i < |statements|
      invariant 0 <= i <= |statements|
      invariant r == Merge(Runs(p, ids, maxRetries, statements[..i], company))
    {
      ghost var before := Runs(p, ids, maxRetries, statements[..i], company);
      ghost var after := Runs(p, ids, maxRetries, statements[..i + 1], company);
      RunsPrefix(p, ids, maxRetries, statements, company, i);
      MergeStep(before, after);
      r := ProcessOne(calculator, p, ids, maxRetries, statements[i], company, r);
      i := i + 1;
      assert after == Runs(p, ids, maxRetries, statements[..i], company);
    }
    assert statements[..i] == statements;
  }

  /** One turn of the statement loop on the merged results, the retry
      count and the retry log so far (None once an exception has escaped,
      after which nothing runs). */
  method ProcessOne(calculator: FinancialCalculator, p: Profile, ids: seq<string>, maxRetries: int,
                    statement: Statement, company: string, audit: Option<Audit>) returns (r: Option<Audit>)
    modifies calculator
    ensures r == Absorb(audit, ConsensusRun(p, ids, maxRetries, statement.text, statement.statementType, company))
  {
    if audit.None? {
      r := None;
    } else {
      var o := ProcessWithConsensus(calculator, p, ids, maxRetries, statement.text, statement.statementType, company);
      r := Absorb(audit, o);
    }
  }

  /** Statements that each settle at once on dictionary data merge with no
      retries. */
  lemma {:induction false} MergeWithoutRetries(runs: seq<Option<Outcome>>)
    requires forall i :: 0 <= i < |runs| ==> runs[i].Some? && runs[i].value.retries == [] && runs[i].value.data.JObj?
    ensures var r := Merge(runs);
      r.Some? && r.value.totalRetries == 0 && r.value.retryLog == []
    decreases |runs|
  {
    if runs != [] {
      MergeWithoutRetries(runs[..|runs| - 1]);
    }
  }

  /** Every statement settles at once, with agents or with no attempts at
      all: the audit succeeds with no retries. */
  lemma AuditWithoutRetries(p: Profile, ids: seq<string>, maxRetries: int, statements: seq<Statement>, company: string)
    requires p.floor >= 0.0 && (ids != [] || maxRetries < 0)
    ensures var r := AuditOf(p, ids, maxRetries, statements, company);
      r.Some? && r.value.totalRetries == 0 && r.value.retryLog == []
  {
    var runs := Runs(p, ids, maxRetries, statements, company);
    forall i | 0 <= i < |runs|
      ensures runs[i].Some? && runs[i].value.retries == [] && runs[i].value.data.JObj?
    {
      RunsAt(p, ids, maxRetries, statements, company, i);
      NoRetries(p, ids, maxRetries, statements[i].text, statements[i].statementType, company);
      SharedDataObject(statements[i].text, statements[i].statementType, company);
    }
    MergeWithoutRetries(runs);
  }
}
