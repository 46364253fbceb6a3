/** The consensus check both agent families share (the _validate_consensus
    methods of agents/gemini_agent.py and agents/ollama_agent.py, which
    differ only in their tolerance profile and in whether a discrepancy
    records the tolerance): every result is projected onto its key figures,
    the first agent holding a figure gives the baseline, agents further than
    the tolerance from it disagree, and on consensus the result of the most
    confident agent is the agreed data. */
module Consensus {
  import opened Wrappers
  import opened Json
  import opened CalculationTools
  import opened BaseAgent

  /** tolerance = max(abs(base * factor), floor); recordsTolerance says
      whether a discrepancy carries tolerance_used. */
  datatype Profile = Profile(factor: real, floor: real, recordsTolerance: bool)

  function Tolerance(p: Profile, base: real): (t: real)
    ensures t >= p.floor && t >= Abs(base * p.factor) && t >= 0.0
    ensures t == p.floor || t == Abs(base * p.factor)
  {
    if Abs(base * p.factor) >= p.floor then Abs(base * p.factor) else p.floor
  }

  /** key_figures[agent_id] */
  datatype AgentFigures = AgentFigures(agentId: string, figures: seq<Figure>)

  /** `figures[key]` when `key in figures`. */
  function FigureValue(figures: seq<Figure>, key: string): Option<real>
  {
    if figures == [] then None
    else if figures[0].key == key then Some(figures[0].value)
    else FigureValue(figures[1..], key)
  }

  function FiguresOf(results: seq<AgentResult>): (r: seq<AgentFigures>)
    ensures |r| == |results|
  {
    if results == [] then []
    else FiguresOf(results[..|results| - 1])
         + [AgentFigures(results[|results| - 1].agentId, ExtractKeyFigures(results[|results| - 1].extractedData))]
  }

  function Scores(results: seq<AgentResult>): (r: seq<AgentValue>)
    ensures |r| == |results|
  {
    if results == [] then []
    else Scores(results[..|results| - 1]) + [AgentValue(results[|results| - 1].agentId, results[|results| - 1].confidence)]
  }

  predicate DistinctIds(results: seq<AgentResult>)
  {
    forall i, j :: 0 <= i < j < |results| ==> results[i].agentId != results[j].agentId
  }

  /** Whether some agent holds a figure. */
  predicate Held(all: seq<AgentFigures>, key: string)
  {
    exists i :: 0 <= i < |all| && FigureValue(all[i].figures, key).Some?
  }

  /** all_keys, listed in reading order (the order of a Python set is not
      modelled). */
  function AllKeys(all: seq<AgentFigures>): (r: seq<string>)
    ensures forall k :: k in r <==> k in KeyFigureNames && Held(all, k)
  {
    KeysHeld(all, KeyFigureNames)
  }

  function KeysHeld(all: seq<AgentFigures>, names: seq<string>): (r: seq<string>)
    ensures forall k :: k in r <==> k in names && Held(all, k)
  {
    if names == [] then []
    else KeysHeld(all, names[..|names| - 1]) + (if Held(all, names[|names| - 1]) then [names[|names| - 1]] else [])
  }

  /** values: (agent_id, figures[key]) for the agents holding the key,
      in agent order. */
  function ValuesFor(all: seq<AgentFigures>, key: string): (r: seq<AgentValue>)
    ensures |r| <= |all|
  {
    if all == [] then []
    else
      var last := all[|all| - 1];
      ValuesFor(all[..|all| - 1], key)
      + match FigureValue(last.figures, key)
        case Some(x) => [AgentValue(last.agentId, x)]
        case None => []
  }

  /** The agents among values whose figure lies strictly further than the
      tolerance from the baseline. */
  function Disagreeing(values: seq<AgentValue>, base: real, tolerance: real): (r: seq<string>)
    ensures forall a :: a in r <==> exists i :: 0 <= i < |values| && values[i].agentId == a
                                               && Abs(values[i].value - base) > tolerance
    ensures |r| <= |values|
  {
    if values == [] then []
    else
      var last := values[|values| - 1];
      Disagreeing(values[..|values| - 1], base, tolerance)
      + (if Abs(last.value - base) > tolerance then [last.agentId] else [])
  }

  /** The disagreeing agents for one key: only a key held by two agents or
      more is compared, against the first holder's value. */
  function Compared(p: Profile, all: seq<AgentFigures>, key: string): seq<string>
  {
    var values := ValuesFor(all, key);
    if |values| < 2 then []
    else Disagreeing(values[1..], values[0].value, Tolerance(p, values[0].value))
  }

  /** The discrepancy recorded for one key, if any agent disagrees. */
  function DiscrepancyFor(p: Profile, all: seq<AgentFigures>, key: string): (r: Option<Discrepancy>)
    ensures r.Some? <==> Compared(p, all, key) != []
  {
    var values := ValuesFor(all, key);
    if |values| < 2 then None
    else
      var base := values[0].value;
      var tolerance := Tolerance(p, base);
      var disagreeing := Disagreeing(values[1..], base, tolerance);
      if disagreeing == [] then None
      else Some(Discrepancy(key, base, disagreeing, values, if p.recordsTolerance then Some(tolerance) else None))
  }

  function Discrepancies(p: Profile, all: seq<AgentFigures>, keys: seq<string>): (r: seq<Discrepancy>)
    ensures |r| <= |keys|
  {
    if keys == [] then []
    else
      Discrepancies(p, all, keys[..|keys| - 1])
      + match DiscrepancyFor(p, all, keys[|keys| - 1])
        case Some(d) => [d]
        case None => []
  }

  /** Appending each agent not yet listed. */
  function AddNew(failing: seq<string>, agents: seq<string>): (r: seq<string>)
    ensures |failing| <= |r| <= |failing| + |agents|
  {
    if agents == [] then failing
    else
      var before := AddNew(failing, agents[..|agents| - 1]);
      var a := agents[|agents| - 1];
      if a in before then before else before + [a]
  }

  /** failing_agents after the given keys. */
  function Failing(p: Profile, all: seq<AgentFigures>, keys: seq<string>): seq<string>
  {
    if keys == [] then []
    else AddNew(Failing(p, all, keys[..|keys| - 1]), Compared(p, all, keys[|keys| - 1]))
  }

  /** The position of max(..., key=confidence): the first result of
      highest confidence. */
  function BestAgent(results: seq<AgentResult>): (r: nat)
    requires |results| > 0
    ensures r < |results|
    ensures forall j :: 0 <= j < |results| ==> results[j].confidence <= results[r].confidence
    ensures forall j :: 0 <= j < r ==> results[j].confidence < results[r].confidence
  {
    if |results| == 1 then 0
    else
      var b := BestAgent(results[..|results| - 1]);
      if results[|results| - 1].confidence > results[b].confidence then |results| - 1 else b
  }

  /** What the consensus check returns. */
  function ConsensusOf(p: Profile, results: seq<AgentResult>): ConsensusResult
    requires |results| > 0
  {
    var all := FiguresOf(results);
    var keys := AllKeys(all);
    var discrepancies := Discrepancies(p, all, keys);
    var failing := Failing(p, all, keys);
    var isConsensus := |discrepancies| == 0 && |failing| == 0;
    ConsensusResult(isConsensus, if isConsensus then results[BestAgent(results)].extractedData else JObj([]),
                    discrepancies, !isConsensus, failing, Scores(results))
  }

  /** _validate_consensus over agent_results (a dictionary, hence distinct
      agent identifiers; max() of an empty one raises, hence non-empty). */
  method ValidateConsensus(p: Profile, results: seq<AgentResult>) returns (c: ConsensusResult)
    requires |results| > 0 && DistinctIds(results)
    ensures c == ConsensusOf(p, results)
  {
    var all, scores := ProjectResults(results);
    var discrepancies, failing := CompareKeys(p, all, AllKeys(all));
    var isConsensus := |discrepancies| == 0 && |failing| == 0;
    var agreed := if isConsensus then results[BestAgent(results)].extractedData else JObj([]);
    c := ConsensusResult(isConsensus, agreed, discrepancies, !isConsensus, failing, scores);
  }

  /** The loop over all_keys. */
  method CompareKeys(p: Profile, all: seq<AgentFigures>, keys: seq<string>)
    returns (discrepancies: seq<Discrepancy>, failing: seq<string>)
    ensures discrepancies == Discrepancies(p, all, keys)
    ensures failing == Failing(p, all, keys)
  {
    discrepancies, failing := [], [];
    var k := 0;
    while k < |keys|
      invariant 0 <= k <= |keys|
      invariant discrepancies == Discrepancies(p, all, keys[..k])
      invariant failing == Failing(p, all, keys[..k])
    {
      assert keys[..k + 1][..k] == keys[..k];
      var d;
      d, failing := CompareKey(p, all, keys[k], failing);
      if d.Some? {
        discrepancies := discrepancies + [d.value];
      }
      k := k + 1;
    }
    assert keys[..k] == keys;
  }

  /** The first loop: confidence_scores and key_figures. */
  method ProjectResults(results: seq<AgentResult>) returns (all: seq<AgentFigures>, scores: seq<AgentValue>)
    ensures all == FiguresOf(results) && scores == Scores(results)
  {
    all, scores := [], [];
    var i := 0;
    while i < |results|
      invariant 0 <= i <= |results|
      invariant all == FiguresOf(results[..i]) && scores == Scores(results[..i])
    {
      assert results[..i + 1][..i] == results[..i];
      scores := scores + [AgentValue(results[i].agentId, results[i].confidence)];
      all := all + [AgentFigures(results[i].agentId, ExtractKeyFigures(results[i].extractedData))];
      i := i + 1;
    }
    assert results[..i] == results;
  }

  /** One iteration of the loop over all_keys. */
  method CompareKey(p: Profile, all: seq<AgentFigures>, key: string, failing0: seq<string>)
    returns (d: Option<Discrepancy>, failing: seq<string>)
    ensures d == DiscrepancyFor(p, all, key)
    ensures failing == AddNew(failing0, Compared(p, all, key))
  {
    var values := CollectValues(all, key);
    failing := failing0;
    d := None;
    if |values| >= 2 {
      var base := values[0].value;
      var tolerance := Tolerance(p, base);
      var disagreeing;
      disagreeing, failing := CompareValues(values, base, tolerance, failing);
      if disagreeing != [] {
        d := Some(Discrepancy(key, base, disagreeing, values, if p.recordsTolerance then Some(tolerance) else None));
      }
    }
  }

  /** The inner loop gathering (agent_id, figures[key]). */
  method CollectValues(all: seq<AgentFigures>, key: string) returns (values: seq<AgentValue>)
    ensures values == ValuesFor(all, key)
  {
    values := [];
    var j := 0;
    while j < |all|
      invariant 0 <= j <= |all|
      invariant values == ValuesFor(all[..j], key)
    {
      assert all[..j + 1][..j] == all[..j];
      var x := FigureValue(all[j].figures, key);
      if x.Some? {
        values := values + [AgentValue(all[j].agentId, x.value)];
      }
      j := j + 1;
    }
    assert all[..j] == all;
  }

  /** The inner loop over values[1:]: collects the disagreeing agents and
      adds the new ones to failing_agents. */
  method CompareValues(values: seq<AgentValue>, base: real, tolerance: real, failing0: seq<string>)
    returns (disagreeing: seq<string>, failing: seq<string>)
    requires |values| >= 1
    ensures disagreeing == Disagreeing(values[1..], base, tolerance)
    ensures failing == AddNew(failing0, disagreeing)
  {
    var rest := values[1..];
    disagreeing := [];
    failing := failing0;
    var m := 0;
    assert rest[..0] == [];
    while m < |rest|
      invariant 0 <= m <= |rest|
      invariant disagreeing == Disagreeing(rest[..m], base, tolerance)
      invariant failing == AddNew(failing0, disagreeing)
    {
      DisagreeingStep(rest[..m + 1], base, tolerance);
      assert rest[..m + 1][..m] == rest[..m];
      var v := rest[m];
      if Abs(v.value - base) > tolerance {
        AddNewStep(failing0, disagreeing, v.agentId);
        disagreeing := disagreeing + [v.agentId];
        if v.agentId !in failing {
          failing := failing + [v.agentId];
        }
      }
      m := m + 1;
    }
    assert rest[..m] == rest;
  }

  /** Disagreeing grows by the last value's agent when that value is out of
      tolerance. */
  lemma DisagreeingStep(values: seq<AgentValue>, base: real, tolerance: real)
    requires values != []
    ensures var last := values[|values| - 1];
      Disagreeing(values, base, tolerance)
      == Disagreeing(values[..|values| - 1], base, tolerance) + (if Abs(last.value - base) > tolerance then [last.agentId] else [])
  {
  }

  /** AddNew over one more agent. */
  lemma AddNewStep(failing: seq<string>, agents: seq<string>, a: string)
    ensures AddNew(failing, agents + [a])
      == (var before := AddNew(failing, agents); if a in before then before else before + [a])
  {
    assert (agents + [a])[..|agents|] == agents;
  }

  // ---------------------------------------------------------------------
  // Properties of the consensus check

  /** key_figures[agent_id] is the projection of that agent's data. */
  lemma {:induction false} FiguresOfAt(results: seq<AgentResult>, i: int)
    requires 0 <= i < |results|
    ensures FiguresOf(results)[i] == AgentFigures(results[i].agentId, ExtractKeyFigures(results[i].extractedData))
    decreases |results|
  {
    if i < |results| - 1 {
      var init := results[..|results| - 1];
      FiguresOfAt(init, i);
    }
  }

  /** confidence_scores[agent_id] is that agent's confidence. */
  lemma {:induction false} ScoresAt(results: seq<AgentResult>, i: int)
    requires 0 <= i < |results|
    ensures Scores(results)[i] == AgentValue(results[i].agentId, results[i].confidence)
    decreases |results|
  {
    if i < |results| - 1 {
      ScoresAt(results[..|results| - 1], i);
    }
  }

  /** `figures[key] == v.value` for the agent of v. */
  predicate HoldsAs(f: AgentFigures, key: string, v: AgentValue)
  {
    f.agentId == v.agentId && FigureValue(f.figures, key) == Some(v.value)
  }

  /** What the last agent adds to values. */
  function LastValue(f: AgentFigures, key: string): (r: seq<AgentValue>)
    ensures forall v :: v in r <==> HoldsAs(f, key, v)
  {
    if FigureValue(f.figures, key).Some? then [AgentValue(f.agentId, FigureValue(f.figures, key).value)] else []
  }

  lemma ValuesForLast(all: seq<AgentFigures>, key: string)
    requires all != []
    ensures ValuesFor(all, key) == ValuesFor(all[..|all| - 1], key) + LastValue(all[|all| - 1], key)
  {
  }

  /** values holds exactly the pairs (agent, figures[key]) of the agents
      holding the key. */
  lemma {:induction false} ValuesForMembers(all: seq<AgentFigures>, key: string, v: AgentValue)
    ensures v in ValuesFor(all, key) <==> exists i :: 0 <= i < |all| && HoldsAs(all[i], key, v)
    decreases |all|
  {
    if all != [] {
      var init := all[..|all| - 1];
      ValuesForMembers(init, key, v);
      ValuesForLast(all, key);
      assert forall i :: 0 <= i < |init| ==> init[i] == all[i];
    }
  }

  /** values is empty exactly when no agent holds the key. */
  lemma {:induction false} ValuesForEmpty(all: seq<AgentFigures>, key: string)
    ensures ValuesFor(all, key) == [] <==> !Held(all, key)
    decreases |all|
  {
    if all != [] {
      var init := all[..|all| - 1];
      ValuesForEmpty(init, key);
      ValuesForLast(all, key);
      assert forall i :: 0 <= i < |init| ==> init[i] == all[i];
    }
  }

  /** failing_agents only grows: what was listed stays listed, in front,
      and exactly the given agents are added. */
  lemma {:induction false} AddNewMembers(failing: seq<string>, agents: seq<string>, a: string)
    ensures a in AddNew(failing, agents) <==> a in failing || a in agents
    ensures AddNew(failing, agents)[..|failing|] == failing
    decreases |agents|
  {
    if agents != [] {
      var init := agents[..|agents| - 1];
      AddNewMembers(failing, init, a);
      var before := AddNew(failing, init);
      assert (before + [agents[|agents| - 1]])[..|failing|] == before[..|failing|];
      assert a in agents <==> a in init || a == agents[|agents| - 1];
    }
  }

  predicate Distinct(s: seq<string>)
  {
    forall i, j :: 0 <= i < j < |s| ==> s[i] != s[j]
  }

  /** No agent is listed twice. */
  lemma {:induction false} AddNewDistinct(failing: seq<string>, agents: seq<string>)
    requires Distinct(failing)
    ensures Distinct(AddNew(failing, agents))
    decreases |agents|
  {
    if agents != [] {
      AddNewDistinct(failing, agents[..|agents| - 1]);
    }
  }

  /** failing_agents lists each disagreeing agent once. */
  lemma {:induction false} FailingDistinct(p: Profile, all: seq<AgentFigures>, keys: seq<string>)
    ensures Distinct(Failing(p, all, keys))
    decreases |keys|
  {
    if keys != [] {
      FailingDistinct(p, all, keys[..|keys| - 1]);
      AddNewDistinct(Failing(p, all, keys[..|keys| - 1]), Compared(p, all, keys[|keys| - 1]));
    }
  }

  /** An agent fails exactly when it disagrees on some key. */
  lemma {:induction false} FailingMembers(p: Profile, all: seq<AgentFigures>, keys: seq<string>, a: string)
    ensures a in Failing(p, all, keys) <==> exists k :: 0 <= k < |keys| && a in Compared(p, all, keys[k])
    decreases |keys|
  {
    if keys != [] {
      var init := keys[..|keys| - 1];
      FailingMembers(p, all, init, a);
      AddNewMembers(Failing(p, all, init), Compared(p, all, keys[|keys| - 1]), a);
      if exists k :: 0 <= k < |keys| && a in Compared(p, all, keys[k]) {
        var k :| 0 <= k < |keys| && a in Compared(p, all, keys[k]);
        if k < |init| {
          assert init[k] == keys[k];
        }
      }
      if exists k :: 0 <= k < |init| && a in Compared(p, all, init[k]) {
        var k :| 0 <= k < |init| && a in Compared(p, all, init[k]);
        assert keys[k] == init[k];
      }
    }
  }

  lemma DiscrepanciesLast(p: Profile, all: seq<AgentFigures>, keys: seq<string>)
    requires keys != []
    ensures var d := DiscrepancyFor(p, all, keys[|keys| - 1]);
      Discrepancies(p, all, keys) == Discrepancies(p, all, keys[..|keys| - 1]) + (if d.Some? then [d.value] else [])
      && (d.Some? <==> Compared(p, all, keys[|keys| - 1]) != [])
  {
  }

  /** No key has a disagreeing agent. */
  predicate NoneDisagree(p: Profile, all: seq<AgentFigures>, keys: seq<string>)
  {
    forall k :: 0 <= k < |keys| ==> Compared(p, all, keys[k]) == []
  }

  /** There are no discrepancies exactly when no key has a disagreeing
      agent. */
  lemma {:induction false} DiscrepanciesEmpty(p: Profile, all: seq<AgentFigures>, keys: seq<string>)
    ensures Discrepancies(p, all, keys) == [] <==> NoneDisagree(p, all, keys)
    decreases |keys|
  {
    if keys != [] {
      var init := keys[..|keys| - 1];
      DiscrepanciesEmpty(p, all, init);
      DiscrepanciesLast(p, all, keys);
      NoneDisagreeLast(p, all, keys);
    }
  }

  lemma NoneDisagreeLast(p: Profile, all: seq<AgentFigures>, keys: seq<string>)
    requires keys != []
    ensures NoneDisagree(p, all, keys)
            <==> NoneDisagree(p, all, keys[..|keys| - 1]) && Compared(p, all, keys[|keys| - 1]) == []
  {
    var init := keys[..|keys| - 1];
    assert forall k :: 0 <= k < |init| ==> init[k] == keys[k];
  }

  /** The same holds for failing_agents, so the two halves of the
      consensus test always agree. */
  lemma FailingEmpty(p: Profile, all: seq<AgentFigures>, keys: seq<string>)
    ensures Failing(p, all, keys) == [] <==> NoneDisagree(p, all, keys)
  {
    if Failing(p, all, keys) != [] {
      FailingMembers(p, all, keys, Failing(p, all, keys)[0]);
    }
    if exists k :: 0 <= k < |keys| && Compared(p, all, keys[k]) != [] {
      var k :| 0 <= k < |keys| && Compared(p, all, keys[k]) != [];
      FailingMembers(p, all, keys, Compared(p, all, keys[k])[0]);
    }
  }

  /** Every recorded discrepancy names its key, its baseline (the first
      holder's value), the disagreeing agents, and the tolerance when the
      profile records it. */
  lemma DiscrepancyShape(p: Profile, all: seq<AgentFigures>, key: string)
    requires DiscrepancyFor(p, all, key).Some?
    ensures var d := DiscrepancyFor(p, all, key).value;
      var values := ValuesFor(all, key);
      && |values| >= 2 && d.key == key && d.values == values && d.baseValue == values[0].value
      && d.disagreeingAgents == Compared(p, all, key) != []
      && (d.toleranceUsed.Some? <==> p.recordsTolerance)
      && (p.recordsTolerance ==> d.toleranceUsed.value == Tolerance(p, values[0].value))
  {
  }

  /** Consensus holds exactly when no agent lies beyond the tolerance from
      the baseline on any figure, exactly when there are no discrepancies
      and exactly when no agent fails; a retry is asked for otherwise. */
  lemma ConsensusMeaning(p: Profile, results: seq<AgentResult>)
    requires |results| > 0
    ensures var c := ConsensusOf(p, results);
      var all := FiguresOf(results);
      var keys := AllKeys(all);
      && (c.isConsensus <==> NoneDisagree(p, all, keys))
      && (c.isConsensus <==> c.discrepancies == [])
      && (c.isConsensus <==> c.failingAgents == [])
      && c.retryNeeded == !c.isConsensus
  {
    var all := FiguresOf(results);
    var keys := AllKeys(all);
    var c := ConsensusOf(p, results);
    assert c.discrepancies == Discrepancies(p, all, keys);
    assert c.failingAgents == Failing(p, all, keys);
    assert c.isConsensus == (c.discrepancies == [] && c.failingAgents == []);
    DiscrepanciesEmpty(p, all, keys);
    FailingEmpty(p, all, keys);
  }

  /** On consensus the agreed data is that of the first most confident
      agent; otherwise it is the empty dictionary. */
  lemma AgreedData(p: Profile, results: seq<AgentResult>)
    requires |results| > 0
    ensures var c := ConsensusOf(p, results);
      && (c.isConsensus ==> exists b :: 0 <= b < |results| && c.agreedData == results[b].extractedData
                                     && (forall j :: 0 <= j < |results| ==> results[j].confidence <= results[b].confidence)
                                     && (forall j :: 0 <= j < b ==> results[j].confidence < results[b].confidence))
      && (!c.isConsensus ==> c.agreedData == JObj([]))
  {
    var b := BestAgent(results);
    var c := ConsensusOf(p, results);
    assert c.isConsensus ==> c.agreedData == results[b].extractedData;
  }

  /** Values all within the tolerance leave nobody disagreeing. */
  lemma {:induction false} DisagreeingNone(values: seq<AgentValue>, base: real, tolerance: real)
    requires forall i :: 0 <= i < |values| ==> Abs(values[i].value - base) <= tolerance
    ensures Disagreeing(values, base, tolerance) == []
    decreases |values|
  {
    if values != [] {
      DisagreeingNone(values[..|values| - 1], base, tolerance);
    }
  }

  /** Agents whose figures are all equal never disagree, whatever the
      profile's tolerance. */
  lemma SameFiguresAgree(p: Profile, all: seq<AgentFigures>, key: string)
    requires forall i :: 0 <= i < |all| ==> all[i].figures == all[0].figures
    requires p.floor >= 0.0
    ensures Compared(p, all, key) == []
  {
    var values := ValuesFor(all, key);
    if |values| >= 2 {
      var base := values[0].value;
      var tolerance := Tolerance(p, base);
      forall m | 0 <= m < |values|
        ensures values[m].value == base
      {
        ValuesForMembers(all, key, values[m]);
        ValuesForMembers(all, key, values[0]);
      }
      DisagreeingNone(values[1..], base, tolerance);
    }
  }

  /** Agents that extract identical data reach consensus. */
  lemma IdenticalDataAgree(p: Profile, results: seq<AgentResult>)
    requires |results| > 0 && p.floor >= 0.0
    requires forall i :: 0 <= i < |results| ==> results[i].extractedData == results[0].extractedData
    ensures ConsensusOf(p, results).isConsensus
  {
    var all := FiguresOf(results);
    forall i | 0 <= i < |all|
      ensures all[i].figures == all[0].figures
    {
      FiguresOfAt(results, i);
      FiguresOfAt(results, 0);
    }
    var keys := AllKeys(all);
    forall k | 0 <= k < |keys|
      ensures Compared(p, all, keys[k]) == []
    {
      SameFiguresAgree(p, all, keys[k]);
    }
    ConsensusMeaning(p, results);
  }
}
