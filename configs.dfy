/** Run-configurations as the pattern parser delivers them, the fixed-width
    integer types the generator uses, and the kernel-dependent pattern size. */
module Configs {

  /** C++ `uint32_t`. */
  type u32 = x: int | 0 <= x < 0x1_0000_0000
  /** C++ `uint64_t` and, on the 64-bit hosts the generator targets, `size_t`. */
  type u64 = x: int | 0 <= x < 0x1_0000_0000_0000_0000

  const TWO_32: int := 0x1_0000_0000
  const TWO_64: int := 0x1_0000_0000_0000_0000

  /** Unsigned 64-bit wrap-around of an exact integer result. */
  function Wrap64(x: int): (r: u64)
    ensures 0 <= x < TWO_64 ==> r == x
  {
    x % TWO_64
  }

  /** Unsigned 32-bit truncation, as in an implicit `size_t` to `uint32_t` conversion. */
  function Wrap32(x: int): (r: u32)
    ensures 0 <= x < TWO_32 ==> r == x
  {
    x % TWO_32
  }

  datatype Option<T> = None | Some(value: T)

  /** The five access kernels the generator knows. */
  datatype Kernel = Gather | Scatter | GatherScatter | MultiGather | MultiScatter

  /** The kernel name the parser stores in a run-configuration. */
  function KernelName(k: Kernel): string
  {
    match k
    case Gather => "gather"
    case Scatter => "scatter"
    case GatherScatter => "gs"
    case MultiGather => "multigather"
    case MultiScatter => "multiscatter"
  }

  /** The string comparisons of the generator: which kernel, if any, a name selects. */
  function KernelKind(name: string): (r: Option<Kernel>)
    ensures r.Some? ==> KernelName(r.value) == name
    ensures r.None? <==> name !in {"gather", "scatter", "gs", "multigather", "multiscatter"}
  {
    if name == "gather" then Some(Gather)
    else if name == "scatter" then Some(Scatter)
    else if name == "gs" then Some(GatherScatter)
    else if name == "multigather" then Some(MultiGather)
    else if name == "multiscatter" then Some(MultiScatter)
    else None
  }

  /** Names and kernels are in one-to-one correspondence. */
  lemma KernelKindNames(name: string, k: Kernel)
    ensures KernelKind(KernelName(k)) == Some(k)
    ensures KernelKind(name) == Some(k) <==> name == KernelName(k)
  {
  }

  /** One run-configuration; all numbers are `size_t` in the parser. */
  datatype Config = Config(
    kernel: string,
    pattern: seq<u64>,
    patternGather: seq<u64>,
    patternScatter: seq<u64>,
    delta: u64,
    deltaGather: u64,
    deltaScatter: u64,
    count: u64,
    wrap: u64)

  /** What the parser hands back besides the configurations: the array sizes
      it derived from them. */
  datatype ClArgs = ClArgs(
    configs: seq<Config>,
    sparseSize: u64,
    sparseGatherSize: u64,
    sparseScatterSize: u64,
    denseSize: u64)

  /** The parser's outcome: a status (0 is success) and the parsed arguments. */
  datatype ParseResult = ParseResult(status: int, cl: ClArgs)

  /** Number of pattern positions visited per repeat: the length of the
      pattern that drives the kernel, and 0 for a name no kernel matches. */
  function PatternSize(cfg: Config): (n: nat)
    ensures KernelKind(cfg.kernel) == None ==> n == 0
  {
    match KernelKind(cfg.kernel)
    case Some(Gather) => |cfg.pattern|
    case Some(Scatter) => |cfg.pattern|
    case Some(GatherScatter) => |cfg.patternScatter|
    case Some(MultiGather) => |cfg.patternGather|
    case Some(MultiScatter) => |cfg.patternScatter|
    case None => 0
  }

  /** The pattern size per kernel name. gather and scatter share the plain
      pattern; gs is bounded by the scatter pattern, not the gather pattern. */
  lemma PatternSizeByName(cfg: Config)
    ensures cfg.kernel == "gather" || cfg.kernel == "scatter" ==> PatternSize(cfg) == |cfg.pattern|
    ensures cfg.kernel == "gs" ==> PatternSize(cfg) == |cfg.patternScatter|
    ensures cfg.kernel == "multigather" ==> PatternSize(cfg) == |cfg.patternGather|
    ensures cfg.kernel == "multiscatter" ==> PatternSize(cfg) == |cfg.patternScatter|
    ensures cfg.kernel !in {"gather", "scatter", "gs", "multigather", "multiscatter"} ==> PatternSize(cfg) == 0
  {
  }

  /** A configuration the generator can run without an unsigned underflow, a
      division by zero or an out-of-range pattern read: a known kernel, at
      least one pattern position and one repeat, a non-zero wrap where the
      kernel divides by it, and every pattern entry it indexes present. */
  predicate WellFormed(cfg: Config)
  {
    && KernelKind(cfg.kernel).Some?
    && PatternSize(cfg) >= 1
    && cfg.count >= 1
    && match KernelKind(cfg.kernel).value
       case Gather => cfg.wrap >= 1
       case Scatter => cfg.wrap >= 1
       case GatherScatter => |cfg.patternScatter| <= |cfg.patternGather|
       case MultiGather =>
         cfg.wrap >= 1 && forall i :: 0 <= i < |cfg.patternGather| ==> cfg.patternGather[i] < |cfg.pattern|
       case MultiScatter =>
         cfg.wrap >= 1 && forall i :: 0 <= i < |cfg.patternScatter| ==> cfg.patternScatter[i] < |cfg.pattern|
  }

  /** A configuration list the generator can be built on. */
  predicate WellFormedSet(configs: seq<Config>)
  {
    |configs| >= 1 && forall i :: 0 <= i < |configs| ==> WellFormed(configs[i])
  }
}
