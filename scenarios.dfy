/** A worked example: a small gather configuration, the addresses it issues
    and how its run ends. */
module Scenarios {
  import opened Configs
  import opened Addresses
  import opened Odometer
  import opened Gate

  /** A gather over pattern [0, 1, 2] with delta 3, two repeats and wrap 1. */
  const SmallGather: Config := Config("gather", [0, 1, 2], [], [], 3, 0, 0, 2, 1)

  /** With the source at 0 and the target at 100, the six reads walk 0..5 and
      every write lands on 100. */
  lemma SmallGatherStream()
    ensures Stream(SmallGather, 0, 100) == [
      AddressPair(0, 100), AddressPair(1, 100), AddressPair(2, 100),
      AddressPair(3, 100), AddressPair(4, 100), AddressPair(5, 100)]
  {
    var s := Stream(SmallGather, 0, 100);
    assert |s| == 6;
    assert s[3] == KernelAddresses(SmallGather, 0, 1, 0, 100);
  }

  /** Its six odometer steps finish the configuration, its 12 requests open
      the gate, and as the only configuration the run is then finished. */
  lemma SmallGatherFinishes()
    ensures Steps(3, 2, Start(0), 6) == Cursor(0, 0, 1, true)
    ensures Drain(GateState(true, 12), 11, 1, 1) == (GateState(true, 12), false)
    ensures Drain(GateState(true, 12), 12, 1, 1) == (GateState(false, 0), true)
  {
    StepsFinish(3, 2, 0);
  }
}
