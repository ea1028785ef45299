/** The completion gate of `isFinished`: a finished configuration counts as
    drained once as many requests have completed as were issued for it. */
module Gate {
  import opened Configs

  datatype GateState = GateState(configFin: bool, numIssued: u64)

  /** The configuration has finished issuing and all its requests completed. */
  predicate Drained(g: GateState, completed: u64)
  {
    g.configFin && g.numIssued == completed
  }

  /** One `isFinished` call: the new gate state and the answer. */
  function Drain(g: GateState, completed: u64, configIdx: nat, numConfigs: nat): (r: (GateState, bool))
    ensures r.1 <==> Drained(g, completed) && configIdx == numConfigs
    ensures Drained(g, completed) <==> g.configFin && !r.0.configFin
    ensures r.0 == g || r.0 == GateState(false, 0)
  {
    if g.configFin && g.numIssued == completed then
      (GateState(false, 0), configIdx == numConfigs)
    else
      (g, false)
  }

  /** While the current configuration is still issuing, the gate answers
      "not finished" and changes nothing, whatever has completed. */
  lemma DrainWhileIssuing(g: GateState, completed: u64, configIdx: nat, numConfigs: nat)
    requires !g.configFin
    ensures Drain(g, completed, configIdx, numConfigs) == (g, false)
  {
  }

  /** A repeated call with the same completed count changes nothing and
      answers "not finished"; once the gate has opened, that holds for any
      completed count. */
  lemma DrainTwice(g: GateState, completed: u64, completed': u64, configIdx: nat, numConfigs: nat)
    ensures var g1 := Drain(g, completed, configIdx, numConfigs).0;
      Drain(g1, completed, configIdx, numConfigs) == (g1, false)
    ensures Drained(g, completed) ==>
      var g1 := Drain(g, completed, configIdx, numConfigs).0;
      Drain(g1, completed', configIdx, numConfigs) == (g1, false)
  {
  }
}
