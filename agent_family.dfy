/** The rules agents/gemini_agent.py and agents/ollama_agent.py write out
    identically: the clamp of a confidence to [0, 100], the consensus
    quality reported in the final metadata, and small arithmetic helpers. */
module AgentFamily {

  /** min(max(x, 0.0), 100.0) */
  function ClampPercent(x: real): (r: real)
    ensures 0.0 <= r <= 100.0
    ensures 0.0 <= x <= 100.0 ==> r == x
    ensures x < 0.0 ==> r == 0.0
    ensures x > 100.0 ==> r == 100.0
  {
    if x < 0.0 then 0.0 else if x > 100.0 then 100.0 else x
  }

  /** Clamping keeps the order of its arguments. */
  lemma ClampMonotone(x: real, y: real)
    requires x <= y
    ensures ClampPercent(x) <= ClampPercent(y)
  {
  }

  /** "Perfect" if total_retries == 0 else "Achieved with retries". */
  function ConsensusQuality(totalRetries: nat): (q: string)
    ensures q == "Perfect" <==> totalRetries == 0
  {
    assert "Achieved with retries"[0] != "Perfect"[0];
    if totalRetries == 0 then "Perfect" else "Achieved with retries"
  }

  function Min(a: int, b: int): int
  {
    if a <= b then a else b
  }

  function Max(a: int, b: int): int
  {
    if a >= b then a else b
  }

  lemma MulStep(n: nat, m: nat)
    ensures (n + 1) * m == n * m + m
  {
  }
}
