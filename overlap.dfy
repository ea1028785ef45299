/** The overlap warning of the generator's setup: the source array spans
    `max(sparse_size, sparse_gather_size)` elements from `start_source`, the
    target array `max(dense_size, sparse_scatter_size)` elements from
    `start_target`. Sums are `size_t`, so they wrap modulo 2^64. */
module Overlap {
  import opened Configs

  function Max(a: u64, b: u64): u64
  {
    if a >= b then a else b
  }

  /** Last element of an array of `len` elements at `start`, in `size_t`. */
  function LastElement(start: u32, len: u64): u64
  {
    Wrap64(start + len - 1)
  }

  /** The check as the setup code writes it: its middle test repeats the
      first one, so the target-below-source case falls to the final branch. */
  function OverlapWarningAsWritten(startSource: u32, startTarget: u32, sourceLen: u64, targetLen: u64): (r: bool)
    ensures r <==> startTarget <= startSource || startTarget <= LastElement(startSource, sourceLen)
  {
    if startTarget > startSource then
      startTarget <= LastElement(startSource, sourceLen)
    else if startSource < startTarget then
      startSource <= LastElement(startTarget, targetLen)
    else
      true
  }

  /** The check with the middle test the other way round, as the symmetric
      inner condition shows was meant. */
  function OverlapWarning(startSource: u32, startTarget: u32, sourceLen: u64, targetLen: u64): (r: bool)
    ensures r <==>
      && (startTarget > startSource ==> startTarget <= LastElement(startSource, sourceLen))
      && (startSource > startTarget ==> startSource <= LastElement(startTarget, targetLen))
  {
    if startTarget > startSource then
      startTarget <= LastElement(startSource, sourceLen)
    else if startSource > startTarget then
      startSource <= LastElement(startTarget, targetLen)
    else
      true
  }

  /** The half-open element ranges `[start, start + len)` share an element. */
  predicate RangesIntersect(startSource: int, sourceLen: int, startTarget: int, targetLen: int)
  {
    startSource < startTarget + targetLen && startTarget < startSource + sourceLen
  }

  /** As written: above the source, the warning fires exactly when the target
      start falls at or before the source's last element; at or below the
      source start it fires always, whatever the sizes. */
  lemma AsWrittenCases(startSource: u32, startTarget: u32, sourceLen: u64, targetLen: u64)
    ensures startTarget > startSource ==>
      (OverlapWarningAsWritten(startSource, startTarget, sourceLen, targetLen) <==> startTarget <= LastElement(startSource, sourceLen))
    ensures startTarget <= startSource ==> OverlapWarningAsWritten(startSource, startTarget, sourceLen, targetLen)
  {
  }

  /** As written, a target array wholly below the source array still draws
      the warning. */
  lemma AsWrittenWarnsOnDisjointRanges()
    ensures !RangesIntersect(1000, 8, 0, 8)
    ensures OverlapWarningAsWritten(1000, 0, 8, 8)
  {
  }

  /** Corrected, the warning fires exactly when the two arrays share an
      element, for non-empty arrays whose end addresses do not wrap. */
  lemma OverlapWarningIffIntersect(startSource: u32, startTarget: u32, sourceLen: u64, targetLen: u64)
    requires 1 <= sourceLen <= TWO_64 - TWO_32 && 1 <= targetLen <= TWO_64 - TWO_32
    ensures OverlapWarning(startSource, startTarget, sourceLen, targetLen)
        <==> RangesIntersect(startSource, sourceLen, startTarget, targetLen)
  {
    assert LastElement(startSource, sourceLen) == startSource + sourceLen - 1;
    assert LastElement(startTarget, targetLen) == startTarget + targetLen - 1;
  }

  /** Both versions agree whenever the target starts above the source. */
  lemma CorrectionOnlyBelow(startSource: u32, startTarget: u32, sourceLen: u64, targetLen: u64)
    requires startTarget > startSource
    ensures OverlapWarning(startSource, startTarget, sourceLen, targetLen)
         == OverlapWarningAsWritten(startSource, startTarget, sourceLen, targetLen)
  {
  }

  /** `start_target`'s default: the source size, converted to `uint32_t`. */
  function DefaultStartTarget(cl: ClArgs): (r: u32)
    ensures Max(cl.sparseSize, cl.sparseGatherSize) < TWO_32 ==>
      (r == cl.sparseSize || r == cl.sparseGatherSize) && r >= cl.sparseSize && r >= cl.sparseGatherSize
  {
    Wrap32(Max(cl.sparseSize, cl.sparseGatherSize))
  }

  /** With both defaults, the target array begins right after a non-empty
      source array and no warning is given. */
  lemma DefaultsDoNotOverlap(cl: ClArgs)
    requires 1 <= Max(cl.sparseSize, cl.sparseGatherSize) < TWO_32
    ensures !OverlapWarning(0, DefaultStartTarget(cl), Max(cl.sparseSize, cl.sparseGatherSize),
                            Max(cl.denseSize, cl.sparseScatterSize))
  {
  }
}
