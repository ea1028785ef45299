/** Address derivation: for each kernel, the source (read) and target (write)
    address of the pair issued at pattern position `p` of repeat `c`. All
    arithmetic is unsigned 64-bit and wraps. */
module Addresses {
  import opened Configs
  import opened Arith

  datatype AddressPair = AddressPair(source: u64, target: u64)

  function Swap(a: AddressPair): AddressPair
  {
    AddressPair(a.target, a.source)
  }

  /** The pattern-indexed side: `start + offset + delta * c`. */
  function SparseAddress(start: u32, offset: u64, delta: u64, c: nat): u64
  {
    Wrap64(start + offset + delta * c)
  }

  /** The densely packed side: `start + len * (c % wrap)`. */
  function DenseAddress(start: u32, len: nat, c: nat, wrap: u64): u64
    requires wrap >= 1
  {
    Wrap64(start + len * (c % wrap))
  }

  /** Gather reads through the pattern and writes densely. Each address is
      the source's exact sum whenever that sum fits in 64 bits. */
  function GatherAddresses(cfg: Config, p: nat, c: nat, startSource: u32, startTarget: u32): (r: AddressPair)
    requires p < |cfg.pattern| && cfg.wrap >= 1
    ensures var exact := startSource + cfg.pattern[p] + cfg.delta * c;
      exact < TWO_64 ==> r.source == exact
    ensures var exact := startTarget + |cfg.pattern| * (c % cfg.wrap);
      exact < TWO_64 ==> r.target == exact
  {
    AddressPair(
      SparseAddress(startSource, cfg.pattern[p], cfg.delta, c),
      DenseAddress(startTarget, |cfg.pattern|, c, cfg.wrap))
  }

  /** Scatter reads densely and writes through the pattern. */
  function ScatterAddresses(cfg: Config, p: nat, c: nat, startSource: u32, startTarget: u32): (r: AddressPair)
    requires p < |cfg.pattern| && cfg.wrap >= 1
    ensures var exact := startTarget + |cfg.pattern| * (c % cfg.wrap);
      exact < TWO_64 ==> r.source == exact
    ensures var exact := startSource + cfg.pattern[p] + cfg.delta * c;
      exact < TWO_64 ==> r.target == exact
  {
    AddressPair(
      DenseAddress(startTarget, |cfg.pattern|, c, cfg.wrap),
      SparseAddress(startSource, cfg.pattern[p], cfg.delta, c))
  }

  /** gs reads through the gather pattern from the source array and writes
      through the scatter pattern into the target array. */
  function GatherScatterAddresses(cfg: Config, p: nat, c: nat, startSource: u32, startTarget: u32): (r: AddressPair)
    requires p < |cfg.patternGather| && p < |cfg.patternScatter|
    ensures var exact := startSource + cfg.patternGather[p] + cfg.deltaGather * c;
      exact < TWO_64 ==> r.source == exact
    ensures var exact := startTarget + cfg.patternScatter[p] + cfg.deltaScatter * c;
      exact < TWO_64 ==> r.target == exact
  {
    AddressPair(
      SparseAddress(startSource, cfg.patternGather[p], cfg.deltaGather, c),
      SparseAddress(startTarget, cfg.patternScatter[p], cfg.deltaScatter, c))
  }

  /** Multigather reads through the pattern entry the gather pattern selects
      and writes densely. */
  function MultiGatherAddresses(cfg: Config, p: nat, c: nat, startSource: u32, startTarget: u32): (r: AddressPair)
    requires p < |cfg.patternGather| && cfg.patternGather[p] < |cfg.pattern| && cfg.wrap >= 1
    ensures var exact := startSource + cfg.pattern[cfg.patternGather[p]] + cfg.deltaGather * c;
      exact < TWO_64 ==> r.source == exact
    ensures var exact := startTarget + |cfg.patternGather| * (c % cfg.wrap);
      exact < TWO_64 ==> r.target == exact
  {
    AddressPair(
      SparseAddress(startSource, cfg.pattern[cfg.patternGather[p]], cfg.deltaGather, c),
      DenseAddress(startTarget, |cfg.patternGather|, c, cfg.wrap))
  }

  /** Multiscatter reads densely and writes through the pattern entry the
      scatter pattern selects. */
  function MultiScatterAddresses(cfg: Config, p: nat, c: nat, startSource: u32, startTarget: u32): (r: AddressPair)
    requires p < |cfg.patternScatter| && cfg.patternScatter[p] < |cfg.pattern| && cfg.wrap >= 1
    ensures var exact := startTarget + |cfg.patternScatter| * (c % cfg.wrap);
      exact < TWO_64 ==> r.source == exact
    ensures var exact := startSource + cfg.pattern[cfg.patternScatter[p]] + cfg.deltaScatter * c;
      exact < TWO_64 ==> r.target == exact
  {
    AddressPair(
      DenseAddress(startTarget, |cfg.patternScatter|, c, cfg.wrap),
      SparseAddress(startSource, cfg.pattern[cfg.patternScatter[p]], cfg.deltaScatter, c))
  }

  /** The kernel dispatch of `generate`, defined for every position the
      iteration can reach. */
  function KernelAddresses(cfg: Config, p: nat, c: nat, startSource: u32, startTarget: u32): AddressPair
    requires WellFormed(cfg) && p < PatternSize(cfg)
  {
    match KernelKind(cfg.kernel).value
    case Gather => GatherAddresses(cfg, p, c, startSource, startTarget)
    case Scatter => ScatterAddresses(cfg, p, c, startSource, startTarget)
    case GatherScatter => GatherScatterAddresses(cfg, p, c, startSource, startTarget)
    case MultiGather => MultiGatherAddresses(cfg, p, c, startSource, startTarget)
    case MultiScatter => MultiScatterAddresses(cfg, p, c, startSource, startTarget)
  }

  /** The dispatch by kernel name, as `generate` compares the names. */
  lemma KernelAddressesByName(cfg: Config, p: nat, c: nat, startSource: u32, startTarget: u32)
    requires WellFormed(cfg) && p < PatternSize(cfg)
    ensures var r := KernelAddresses(cfg, p, c, startSource, startTarget);
      && (cfg.kernel == "gather" ==> r == GatherAddresses(cfg, p, c, startSource, startTarget))
      && (cfg.kernel == "scatter" ==> r == ScatterAddresses(cfg, p, c, startSource, startTarget))
      && (cfg.kernel == "gs" ==> r == GatherScatterAddresses(cfg, p, c, startSource, startTarget))
      && (cfg.kernel == "multigather" ==> r == MultiGatherAddresses(cfg, p, c, startSource, startTarget))
      && (cfg.kernel == "multiscatter" ==> r == MultiScatterAddresses(cfg, p, c, startSource, startTarget))
  {
  }

  /** Reference order of a whole configuration: the k-th pair issued is at
      pattern position `k % P` of repeat `k / P`, so repeats are major and
      pattern positions minor. */
  function Stream(cfg: Config, startSource: u32, startTarget: u32): (s: seq<AddressPair>)
    requires WellFormed(cfg)
    ensures |s| == PatternSize(cfg) * cfg.count
  {
    var n := PatternSize(cfg);
    seq(n * cfg.count, k requires 0 <= k < n * cfg.count =>
      KernelAddresses(cfg, k % n, k / n, startSource, startTarget))
  }

  // ---------------------------------------------------------------------
  // Arithmetic facts

  /** Euclidean division recovers the repeat and the position from `c * n + p`. */
  lemma DivModOfPosition(c: nat, p: nat, n: nat)
    requires p < n
    ensures (c * n + p) / n == c && (c * n + p) % n == p
  {
    DivModUnique(c * n + p, c, p, n);
  }

  /** Wrapping after every addition is the same as wrapping once at the end. */
  lemma WrapAdd(x: int, d: int)
    ensures Wrap64(Wrap64(x) + d) == Wrap64(x + d)
  {
    var q := x / TWO_64;
    assert x + d == (Wrap64(x) + d) + q * TWO_64;
    ModAddMultiple(Wrap64(x) + d, q, TWO_64);
  }

  // ---------------------------------------------------------------------
  // Properties of the kernels

  /** Each further repeat moves the pattern-indexed address by `delta`
      (modulo 2^64). */
  lemma SparseStride(start: u32, offset: u64, delta: u64, c: nat)
    ensures SparseAddress(start, offset, delta, c + 1) == Wrap64(SparseAddress(start, offset, delta, c) + delta)
  {
    WrapAdd(start + offset + delta * c, delta);
    assert start + offset + delta * (c + 1) == start + offset + delta * c + delta;
  }

  /** The densely packed address cycles with period `wrap` over the repeats. */
  lemma DensePeriodic(start: u32, len: nat, c: nat, k: nat, wrap: u64)
    requires wrap >= 1
    ensures DenseAddress(start, len, c + k * wrap, wrap) == DenseAddress(start, len, c, wrap)
  {
    MulNonNeg(k, wrap);
    ModAddMultiple(c, k, wrap);
  }

  /** With `wrap == 1` the densely packed address is the start address. */
  lemma DenseWrapOne(start: u32, len: nat, c: nat)
    ensures DenseAddress(start, len, c, 1) == start
  {
  }

  /** A gather's target address depends on the repeat only, never on the
      pattern position. */
  lemma GatherTargetIgnoresPosition(cfg: Config, p: nat, p': nat, c: nat, startSource: u32, startTarget: u32)
    requires p < |cfg.pattern| && p' < |cfg.pattern| && cfg.wrap >= 1
    ensures GatherAddresses(cfg, p, c, startSource, startTarget).target
         == GatherAddresses(cfg, p', c, startSource, startTarget).target
  {
  }

  /** Scatter reads where gather writes and writes where gather reads. */
  lemma ScatterSwapsGather(cfg: Config, p: nat, c: nat, startSource: u32, startTarget: u32)
    requires p < |cfg.pattern| && cfg.wrap >= 1
    ensures ScatterAddresses(cfg, p, c, startSource, startTarget)
         == Swap(GatherAddresses(cfg, p, c, startSource, startTarget))
  {
  }

  /** Multiscatter is multigather with the roles swapped, when its index
      pattern and delta are the gather ones. */
  lemma MultiScatterSwapsMultiGather(cfg: Config, p: nat, c: nat, startSource: u32, startTarget: u32)
    requires cfg.patternScatter == cfg.patternGather && cfg.deltaScatter == cfg.deltaGather
    requires p < |cfg.patternGather| && cfg.patternGather[p] < |cfg.pattern| && cfg.wrap >= 1
    ensures MultiScatterAddresses(cfg, p, c, startSource, startTarget)
         == Swap(MultiGatherAddresses(cfg, p, c, startSource, startTarget))
  {
  }

  /** Multigather through the identity index pattern is a gather with the
      gather-side delta. */
  lemma MultiGatherOfIdentity(cfg: Config, p: nat, c: nat, startSource: u32, startTarget: u32)
    requires p < |cfg.patternGather| == |cfg.pattern| && cfg.patternGather[p] == p && cfg.wrap >= 1
    ensures MultiGatherAddresses(cfg, p, c, startSource, startTarget)
         == GatherAddresses(cfg.(delta := cfg.deltaGather), p, c, startSource, startTarget)
  {
  }

  /** The pair issued at position `p` of repeat `c` sits at index `c * P + p`
      of the configuration's stream. */
  lemma StreamAt(cfg: Config, startSource: u32, startTarget: u32, c: nat, p: nat)
    requires WellFormed(cfg) && c < cfg.count && p < PatternSize(cfg)
    ensures c * PatternSize(cfg) + p < |Stream(cfg, startSource, startTarget)|
    ensures Stream(cfg, startSource, startTarget)[c * PatternSize(cfg) + p]
         == KernelAddresses(cfg, p, c, startSource, startTarget)
  {
    var n := PatternSize(cfg);
    DivModOfPosition(c, p, n);
    MulStep(c, n);
    MulMono(c + 1, cfg.count, n);
  }
}
