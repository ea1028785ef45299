/** The Spatter request generator: on each `Generate` call it issues one read
    and one dependent write for the current pattern position, repeat and
    run-configuration, then advances; `IsFinished` gates the step from one
    finished configuration to the next on the external completed count. */
module Generator {
  import opened Configs
  import opened Words
  import opened Addresses
  import opened Odometer
  import opened Gate
  import opened Overlap
  import opened Requests

  /** The component parameters setup reads; `None` selects the default. */
  datatype Params = Params(
    args: Option<string>,
    datawidth: Option<u32>,
    startSource: Option<u32>,
    startTarget: Option<u32>)

  /** A parameter lookup with a default. */
  function Find<T>(p: Option<T>, default: T): T
  {
    match p
    case Some(v) => v
    case None => default
  }

  /** `initConfigs`: count and tokenise the argument string, hand the tokens
      to the parser and report whether it succeeded. */
  method InitConfigs(args: string, parse: seq<string> -> ParseResult) returns (ok: bool, cl: ClArgs)
    ensures ok <==> parse(Tokens(args)).status == 0
    ensures cl == parse(Tokens(args)).cl
  {
    var argc := CountArgs(args);
    var argv := TokenizeArgs(args, argc);
    ArgStringsOfAsArgs(Tokens(args));
    var result := parse(ArgStrings(argv[..argc]));
    ok := result.status == 0;
    cl := result.cl;
  }

  /** A prefix of `s` grows by the next element of `s`. */
  lemma PrefixExtend<T>(prefix: seq<T>, s: seq<T>, x: T)
    requires prefix <= s && |prefix| < |s| && s[|prefix|] == x
    ensures prefix + [x] <= s
  {
    assert prefix == s[..|prefix|];
    assert prefix + [x] == s[..|prefix| + 1];
  }

  /** Where the iteration stands and what it has issued for the current
      configuration: the cursor is in range and the pairs issued so far are,
      in order, the first ones of the configuration's reference stream. Once
      the configuration has finished they are all of it; after the final
      drain there are none. */
  ghost predicate Progress(configs: seq<Config>, cur: Cursor, pairs: seq<AddressPair>, startSource: u32, startTarget: u32)
  {
    && WellFormedSet(configs)
    && cur.configIdx <= |configs|
    && (cur.configFin ==>
          && 0 < cur.configIdx && cur.patternIdx == 0 && cur.countIdx == 0
          && pairs == Stream(configs[cur.configIdx - 1], startSource, startTarget))
    && (!cur.configFin && cur.configIdx < |configs| ==>
          var cfg := configs[cur.configIdx];
          && InBounds(PatternSize(cfg), cfg.count, cur)
          && |pairs| == Position(PatternSize(cfg), cur)
          && pairs <= Stream(cfg, startSource, startTarget))
    && (!cur.configFin && cur.configIdx == |configs| ==>
          cur.patternIdx == 0 && cur.countIdx == 0 && pairs == [])
  }

  /** A configuration list starts with nothing issued. */
  lemma ProgressAtStart(configs: seq<Config>, startSource: u32, startTarget: u32)
    requires WellFormedSet(configs)
    ensures Progress(configs, Start(0), [], startSource, startTarget)
  {
  }

  /** Issuing the pair at the current indices and taking one odometer step
      keeps the pairs issued so far a prefix of the configuration's stream, and
      the step that sets the finished flag is the one that completes it. */
  lemma IssueAdvances(configs: seq<Config>, startSource: u32, startTarget: u32, cur: Cursor, pairs: seq<AddressPair>)
    requires Progress(configs, cur, pairs, startSource, startTarget)
    requires !cur.configFin && cur.configIdx < |configs|
    ensures var cfg := configs[cur.configIdx];
      Progress(configs, Step(PatternSize(cfg), cfg.count, cur),
        pairs + [KernelAddresses(cfg, cur.patternIdx, cur.countIdx, startSource, startTarget)],
        startSource, startTarget)
  {
    var cfg := configs[cur.configIdx];
    var s := Stream(cfg, startSource, startTarget);
    var pair := KernelAddresses(cfg, cur.patternIdx, cur.countIdx, startSource, startTarget);
    StreamAt(cfg, startSource, startTarget, cur.countIdx, cur.patternIdx);
    StepIncrements(PatternSize(cfg), cfg.count, cur);
    PrefixExtend(pairs, s, pair);
    if |pairs| + 1 == |s| {
      assert s[..|s|] == s;
    }
  }

  /** Draining a finished configuration clears the flag and forgets its
      pairs; the cursor then stands at the start of the next configuration. */
  lemma DrainRestarts(configs: seq<Config>, startSource: u32, startTarget: u32, cur: Cursor, pairs: seq<AddressPair>)
    requires Progress(configs, cur, pairs, startSource, startTarget) && cur.configFin
    ensures Progress(configs, cur.(configFin := false), [], startSource, startTarget)
    ensures cur.(configFin := false) == Start(cur.configIdx)
  {
  }

  class SpatterGenerator {
    const configs: seq<Config>
    const datawidth: u32
    const startSource: u32
    const startTarget: u32
    /** Whether the corrected overlap check warns; the log line itself is not modelled. */
    const overlapWarned: bool

    var config: Config
    var numIssuedReqs: u64
    var sourceAddr: u64
    var targetAddr: u64
    var patternIdx: nat
    var countIdx: nat
    var configIdx: nat
    var configFin: bool
    var queue: RequestQueue?
    /** Identity the next request receives (the framework's request counter). */
    var nextReqId: nat

    /** Address pairs issued for the current configuration, in issue order. */
    ghost var runPairs: seq<AddressPair>
    /** Every request issued so far, in issue order. */
    ghost var issued: seq<Request>

    ghost function Indices(): Cursor
      reads this
    {
      Cursor(patternIdx, countIdx, configIdx, configFin)
    }

    /** The object invariant. Besides the bounds of the indices, it says that
        the pairs issued for the current configuration are, in order, the
        first ones of its reference stream (all of it once the configuration
        has finished), that `numIssuedReqs` counts their requests, and that
        every write issued depends exactly on the read before it. */
    ghost predicate Valid()
      reads this
    {
      && Progress(configs, Indices(), runPairs, startSource, startTarget)
      && WellFormed(config)
      && WellIssued(issued, nextReqId)
      && numIssuedReqs == Wrap64(2 * |runPairs|)
    }

    /** One pair has been emitted for `pair` onto `q`: a read at its source, a
        write at its target depending on that read, two fresh identities, and
        `numIssuedReqs` two higher (modulo 2^64). */
    twostate predicate Emitted(q: RequestQueue, pair: AddressPair)
      reads this`sourceAddr, this`targetAddr, this`issued, this`runPairs, this`nextReqId, this`numIssuedReqs, q
    {
      var rw := ReadWritePair(old(nextReqId), pair.source, pair.target, datawidth);
      && sourceAddr == pair.source && targetAddr == pair.target
      && q.items == old(q.items) + rw
      && issued == old(issued) + rw
      && runPairs == old(runPairs) + [pair]
      && nextReqId == old(nextReqId) + 2
      && numIssuedReqs == Wrap64(old(numIssuedReqs) + 2)
    }

    /** `build`: read the parameters, parse the command line and run the
        overlap check. A parse failure is fatal in the component, so the
        constructor requires success. */
    constructor (params: Params, parse: seq<string> -> ParseResult)
      requires parse(Tokens(CommandLine(Find(params.args, "")))).status == 0
      requires WellFormedSet(parse(Tokens(CommandLine(Find(params.args, "")))).cl.configs)
      ensures Valid()
      ensures var cl := parse(Tokens(CommandLine(Find(params.args, "")))).cl;
        && configs == cl.configs
        && datawidth == Find(params.datawidth, 8)
        && startSource == Find(params.startSource, 0)
        && startTarget == Find(params.startTarget, DefaultStartTarget(cl))
        && overlapWarned == OverlapWarning(startSource, startTarget,
             Max(cl.sparseSize, cl.sparseGatherSize), Max(cl.denseSize, cl.sparseScatterSize))
      ensures Indices() == Start(0) && config == configs[0]
      ensures numIssuedReqs == 0 && sourceAddr == 0 && targetAddr == 0
      ensures queue == null && runPairs == [] && issued == []
    {
      numIssuedReqs := 0;
      sourceAddr := 0;
      targetAddr := 0;
      datawidth := Find(params.datawidth, 8);
      patternIdx := 0;
      countIdx := 0;
      configIdx := 0;
      configFin := false;
      var ok, cl := InitConfigs(CommandLine(Find(params.args, "")), parse);
      assert ok;
      configs := cl.configs;
      var ss := Find(params.startSource, 0);
      var st := Find(params.startTarget, DefaultStartTarget(cl));
      startSource := ss;
      startTarget := st;
      overlapWarned := OverlapWarning(ss, st,
        Max(cl.sparseSize, cl.sparseGatherSize), Max(cl.denseSize, cl.sparseScatterSize));
      config := cl.configs[0];
      queue := null;
      nextReqId := 0;
      runPairs := [];
      issued := [];
      ProgressAtStart(cl.configs, ss, st);
    }

    /** `generate`: a no-op while the current configuration awaits its drain;
        otherwise one dependent read/write pair at the addresses the current
        kernel derives for the current indices, then one odometer step. */
    method Generate(q: RequestQueue)
      requires Valid()
      requires configFin || configIdx < |configs|
      modifies this, q
      ensures Valid()
      ensures old(configFin) ==> unchanged(this) && unchanged(q)
      ensures !old(configFin) ==>
        var cfg := configs[old(configIdx)];
        && queue == q && config == cfg
        && Emitted(q, KernelAddresses(cfg, old(patternIdx), old(countIdx), startSource, startTarget))
        && Indices() == Step(PatternSize(cfg), cfg.count, old(Indices()))
    {
      if configFin {
        return;
      }
      ghost var cur, pairs, issued0, nextReqId0 := Indices(), runPairs, issued, nextReqId;
      ghost var pair := KernelAddresses(configs[configIdx], patternIdx, countIdx, startSource, startTarget);
      IssueAndStep(q);
      AppendPair(issued0, nextReqId0, pair.source, pair.target, datawidth);
      WrapAdd(2 * |pairs|, 2);
      IssueAdvances(configs, startSource, startTarget, cur, pairs);
    }

    /** The body of `generate` past its finished check: select the current
        configuration, emit its pair for the current indices, step. */
    method IssueAndStep(q: RequestQueue)
      requires Valid() && !configFin && configIdx < |configs|
      modifies this, q
      ensures var cfg := configs[old(configIdx)];
        && queue == q && config == cfg
        && Emitted(q, KernelAddresses(cfg, old(patternIdx), old(countIdx), startSource, startTarget))
        && Indices() == Step(PatternSize(cfg), cfg.count, old(Indices()))
    {
      config := configs[configIdx];
      queue := q;
      IssueForKernel();
      UpdateIndices();
    }

    /** The kernel dispatch of `generate`: the current configuration's kernel
        name selects the method that derives and emits the pair. */
    method IssueForKernel()
      requires queue != null && WellFormed(config) && patternIdx < PatternSize(config)
      modifies this`sourceAddr, this`targetAddr, this`numIssuedReqs, this`nextReqId, this`issued, this`runPairs, queue
      ensures Emitted(queue, KernelAddresses(config, patternIdx, countIdx, startSource, startTarget))
    {
      var kernel := config.kernel;
      if kernel == "gather" {
        Gather();
      } else if kernel == "scatter" {
        Scatter();
      } else if kernel == "gs" {
        GatherScatter();
      } else if kernel == "multigather" {
        MultiGather();
      } else if kernel == "multiscatter" {
        MultiScatter();
      }
    }

    /** `isFinished`: the completion gate on the externally reported count of
        completed requests. */
    method IsFinished(completedReqs: u64) returns (done: bool)
      requires Valid()
      modifies this`numIssuedReqs, this`configFin, this`runPairs
      ensures Valid()
      ensures (GateState(configFin, numIssuedReqs), done)
           == Drain(old(GateState(configFin, numIssuedReqs)), completedReqs, configIdx, |configs|)
      ensures runPairs == if Drained(old(GateState(configFin, numIssuedReqs)), completedReqs) then [] else old(runPairs)
    {
      if configFin {
        if numIssuedReqs == completedReqs {
          DrainRestarts(configs, startSource, startTarget, Indices(), runPairs);
          numIssuedReqs := 0;
          configFin := false;
          runPairs := [];
          return configIdx == |configs|;
        }
      }
      return false;
    }

    /** `updateIndices`: one odometer step for the current configuration. */
    method UpdateIndices()
      requires PatternSize(config) >= 1 && config.count >= 1
      modifies this`patternIdx, this`countIdx, this`configIdx, this`configFin
      ensures Indices() == Step(PatternSize(config), config.count, old(Indices()))
    {
      var patternSize := PatternSize(config);
      if patternIdx == patternSize - 1 {
        patternIdx := 0;
        if countIdx == config.count - 1 {
          countIdx := 0;
          configFin := true;
          configIdx := configIdx + 1;
        } else {
          countIdx := countIdx + 1;
        }
      } else {
        patternIdx := patternIdx + 1;
      }
    }

    /** The request emitter shared by the five kernels: a read at
        `sourceAddr`, then a write at `targetAddr` that depends on it. */
    method Emit()
      requires queue != null
      modifies this`numIssuedReqs, this`nextReqId, this`issued, this`runPairs, queue
      ensures Emitted(queue, AddressPair(sourceAddr, targetAddr))
    {
      var readReq := Request(nextReqId, sourceAddr, datawidth, Read, []);
      var writeReq := Request(nextReqId + 1, targetAddr, datawidth, Write, []);
      nextReqId := nextReqId + 2;
      writeReq := writeReq.(deps := writeReq.deps + [readReq.id]);
      assert writeReq.deps == [readReq.id];
      queue.PushBack(readReq);
      queue.PushBack(writeReq);
      numIssuedReqs := Wrap64(numIssuedReqs + 2);
      issued := issued + [readReq, writeReq];
      runPairs := runPairs + [AddressPair(sourceAddr, targetAddr)];
      assert [readReq, writeReq] == ReadWritePair(old(nextReqId), sourceAddr, targetAddr, datawidth);
      assert queue.items == old(queue.items) + [readReq, writeReq];
    }

    /** `gather`: read through the pattern, write densely. */
    method Gather()
      requires queue != null && patternIdx < |config.pattern| && config.wrap >= 1
      modifies this`sourceAddr, this`targetAddr, this`numIssuedReqs, this`nextReqId, this`issued, this`runPairs, queue
      ensures Emitted(queue, GatherAddresses(config, patternIdx, countIdx, startSource, startTarget))
    {
      sourceAddr := Wrap64(startSource + config.pattern[patternIdx] + config.delta * countIdx);
      targetAddr := Wrap64(startTarget + |config.pattern| * (countIdx % config.wrap));
      Emit();
    }

    /** `scatter`: read densely, write through the pattern. */
    method Scatter()
      requires queue != null && patternIdx < |config.pattern| && config.wrap >= 1
      modifies this`sourceAddr, this`targetAddr, this`numIssuedReqs, this`nextReqId, this`issued, this`runPairs, queue
      ensures Emitted(queue, ScatterAddresses(config, patternIdx, countIdx, startSource, startTarget))
    {
      sourceAddr := Wrap64(startTarget + |config.pattern| * (countIdx % config.wrap));
      targetAddr := Wrap64(startSource + config.pattern[patternIdx] + config.delta * countIdx);
      Emit();
    }

    /** `gatherScatter`: read through the gather pattern, write through the
        scatter pattern. */
    method GatherScatter()
      requires queue != null && patternIdx < |config.patternGather| && patternIdx < |config.patternScatter|
      modifies this`sourceAddr, this`targetAddr, this`numIssuedReqs, this`nextReqId, this`issued, this`runPairs, queue
      ensures Emitted(queue, GatherScatterAddresses(config, patternIdx, countIdx, startSource, startTarget))
    {
      sourceAddr := Wrap64(startSource + config.patternGather[patternIdx] + config.deltaGather * countIdx);
      targetAddr := Wrap64(startTarget + config.patternScatter[patternIdx] + config.deltaScatter * countIdx);
      Emit();
    }

    /** `multiGather`: read through the pattern indexed by the gather pattern,
        write densely. */
    method MultiGather()
      requires queue != null && config.wrap >= 1
      requires patternIdx < |config.patternGather| && config.patternGather[patternIdx] < |config.pattern|
      modifies this`sourceAddr, this`targetAddr, this`numIssuedReqs, this`nextReqId, this`issued, this`runPairs, queue
      ensures Emitted(queue, MultiGatherAddresses(config, patternIdx, countIdx, startSource, startTarget))
    {
      sourceAddr := Wrap64(startSource + config.pattern[config.patternGather[patternIdx]] + config.deltaGather * countIdx);
      targetAddr := Wrap64(startTarget + |config.patternGather| * (countIdx % config.wrap));
      Emit();
    }

    /** `multiScatter`: read densely, write through the pattern indexed by the
        scatter pattern. */
    method MultiScatter()
      requires queue != null && config.wrap >= 1
      requires patternIdx < |config.patternScatter| && config.patternScatter[patternIdx] < |config.pattern|
      modifies this`sourceAddr, this`targetAddr, this`numIssuedReqs, this`nextReqId, this`issued, this`runPairs, queue
      ensures Emitted(queue, MultiScatterAddresses(config, patternIdx, countIdx, startSource, startTarget))
    {
      sourceAddr := Wrap64(startTarget + |config.patternScatter| * (countIdx % config.wrap));
      targetAddr := Wrap64(startSource + config.pattern[config.patternScatter[patternIdx]] + config.deltaScatter * countIdx);
      Emit();
    }
  }
}
