# Spatter request generator — a verified model

This project models the request sequencer of the SST Spatter generator
(`SpatterGenerator`). The generator replays Spatter gather/scatter access
patterns as a stream of memory requests for a simulated CPU.

- **Setup.** `build` tokenises the `args` string behind the fixed program
  name `./Spatter` and hands the tokens to the Spatter pattern parser. It
  reads the data width before that, and afterwards the start addresses of
  the source and target arrays. Then it warns when the two arrays overlap.
- **Generating.** Each `generate` call issues one pair of requests for the
  current pattern position, repeat and run-configuration. The pair is a
  read at a source address and a write at a target address, and the write
  depends on the read. The addresses come from one of five kernels:
  gather, scatter, gs, multigather, multiscatter. `updateIndices` then
  advances a three-level odometer: pattern position fastest, repeat next,
  configuration slowest.
- **Finishing a configuration.** After the last pair of a configuration,
  the generator issues nothing until `isFinished` sees that as many
  requests have completed as were issued. It then resets the issue counter
  and moves on to the next configuration. It reports the whole run
  finished after the last configuration has drained.

The model's modules follow the structure of the source:

- `Configs`: the parser's data.
  - Run-configurations with their kernel name, patterns, deltas, count and
    wrap, and the array sizes the parser derives.
  - `uint32_t` and `uint64_t` as subset types, with wrap-around written
    out.
  - `getPatternSize` (`PatternSize`), and what a configuration must
    satisfy for the generator to run it (`WellFormed`).
- `Words`: the `std::istream >> std::string` tokenisation behind
  `countArgs` and `tokenizeArgs`.
  - A reference definition `Tokens`, and the two loops that follow it.
  - Round-trip and split lemmas, and the `./Spatter ` prefix.
- `Addresses`: the address formulas of the five kernels, in 64-bit modular
  arithmetic.
  - Each configuration's reference stream: the k-th pair is at pattern
    position `k % P` of repeat `k / P`.
  - Lemmas relating the kernels to one another.
- `Odometer`: `updateIndices` as a function `Step`. It is proved to be a
  mixed-radix increment that visits all `P * count` positions in
  repeat-major order and sets the finished flag exactly at the end.
- `Gate`: `isFinished` as a function `Drain`, in terms of the completed
  count.
- `Overlap`: the overlap warning of `build`, as written and corrected (see
  "## Findings").
- `Requests`: memory requests, the `ReadWritePair` every kernel issues,
  and the request queue the generator appends to.
- `Generator`: the class `SpatterGenerator`.
  - Its fields are those of the source.
  - Its methods `Generate`, `IsFinished`, `UpdateIndices` and the five
    kernel methods update them in place. `IssueAndStep` is the part of
    `Generate` past its finished check.
  - Its object invariant states two things. First, the pairs issued for
    the current configuration are, in order, a prefix of that
    configuration's reference stream (all of it once the configuration has
    finished). Second, `numIssuedReqs` is twice their number, modulo 2^64.
- `Scenarios`: a small gather worked through.

The external pattern parser `Spatter::parse_input` is a function parameter
`parse` of the constructor. The count of completed requests, which the
source reads from a statistic, is a parameter of `IsFinished`.

The documented default of `start_target` is 0 (`spatterGenerator.h:56`).
The code defaults it to `max(sparse_size, sparse_gather_size)`, converted
to `uint32_t` (`spatterGenerator.cc:60`). The model follows the code.

## Model

| member | source | states |
|---|---|---|
| Configs.KernelKindNames | src/generators/spatterGenerator.cc:91-101 | the five kernel names select distinct kernels, and a name selects a kernel exactly when it is that kernel's name |
| Configs.KernelKind | src/generators/spatterGenerator.cc:91-101 | a name selects a kernel only if it is that kernel's name, and selects none exactly when it is not one of gather, scatter, gs, multigather, multiscatter |
| Configs.PatternSize | src/generators/spatterGenerator.cc:299-315 | a name that matches no kernel gives pattern size 0 |
| Configs.PatternSizeByName | src/generators/spatterGenerator.cc:304-312 | gather and scatter use the plain pattern's length, gs the scatter pattern's, multigather the gather pattern's, multiscatter the scatter pattern's; any other name gives 0 |
| Words.WordLength | src/generators/spatterGenerator.cc:232 | the extracted word is white-space free and ends at white space or at the end of the input |
| Words.Tokens | src/generators/spatterGenerator.cc:229-234 | every token is non-empty and free of white space |
| Words.WordLengthExact | src/generators/spatterGenerator.cc:232 | a white-space-free prefix that ends at white space or at the end is the whole extracted word |
| Words.TokensOfWord | src/generators/spatterGenerator.cc:232 | a single word tokenises to itself |
| Words.TokensSplit | src/generators/spatterGenerator.cc:232 | a white-space character separates the tokens on its two sides |
| Words.TokensOfJoin | src/generators/spatterGenerator.cc:229-234 | tokenising words joined by single spaces gives back exactly those words |
| Words.CommandLine | src/generators/spatterGenerator.cc:54 | the command line is `./Spatter ` followed by `args` unchanged |
| Words.CommandLineTokens | src/generators/spatterGenerator.cc:54 | token 0 of the command line is `./Spatter`, followed unchanged by the tokens of `args`, also for empty `args` |
| Words.TokensSkipSpace | src/generators/spatterGenerator.cc:232 | leading white space yields no token |
| Words.TokensAtWord | src/generators/spatterGenerator.cc:232 | a maximal white-space-free run is the next token |
| Words.NextToken | src/generators/spatterGenerator.cc:232 | one extraction returns the first token of the rest of the input and the position after it, or fails at the end when no token is left |
| Words.AsArgs | src/generators/spatterGenerator.cc:255-262 | entry i of the argument vector is token i |
| Words.ArgStrings | src/generators/spatterGenerator.cc:282 | the parser reads each string entry of the vector unchanged |
| Words.ArgStringsOfAsArgs | src/generators/spatterGenerator.cc:255-282 | reading the argument vector back gives the tokens it was built from |
| Words.CountArgs | src/generators/spatterGenerator.cc:226-237 | the count is the number of tokens of the input |
| Words.TokenizeArgs | src/generators/spatterGenerator.cc:247-266 | a fresh vector of `argc + 1` entries whose first entries are the tokens in order, followed by the null terminator |
| Addresses.GatherAddresses | src/generators/spatterGenerator.cc:347-348 | reads at `startSource + pattern[p] + delta * c` and writes at `startTarget + size(pattern) * (c % wrap)`, each exact whenever the sum fits in 64 bits (wrapped modulo 2^64 otherwise) |
| Addresses.ScatterAddresses | src/generators/spatterGenerator.cc:370-371 | reads at `startTarget + size(pattern) * (c % wrap)` and writes at `startSource + pattern[p] + delta * c`, each exact whenever the sum fits in 64 bits |
| Addresses.GatherScatterAddresses | src/generators/spatterGenerator.cc:393-394 | reads at `startSource + pattern_gather[p] + delta_gather * c` and writes at `startTarget + pattern_scatter[p] + delta_scatter * c`, each exact whenever the sum fits in 64 bits |
| Addresses.MultiGatherAddresses | src/generators/spatterGenerator.cc:416-417 | reads at `startSource + pattern[pattern_gather[p]] + delta_gather * c` and writes at `startTarget + size(pattern_gather) * (c % wrap)`, each exact whenever the sum fits in 64 bits |
| Addresses.MultiScatterAddresses | src/generators/spatterGenerator.cc:439-440 | reads at `startTarget + size(pattern_scatter) * (c % wrap)` and writes at `startSource + pattern[pattern_scatter[p]] + delta_scatter * c`, each exact whenever the sum fits in 64 bits |
| Addresses.KernelAddressesByName | src/generators/spatterGenerator.cc:89-101 | the kernel name selects the pair: gather, scatter, gs, multigather or multiscatter addresses for the names "gather", "scatter", "gs", "multigather", "multiscatter" |
| Addresses.Stream | src/generators/spatterGenerator.cc:82-104 | a configuration issues `P * count` pairs |
| Addresses.SparseStride | src/generators/spatterGenerator.cc:347 | each further repeat moves the pattern-indexed address by `delta`, modulo 2^64 |
| Addresses.DensePeriodic | src/generators/spatterGenerator.cc:348 | the densely packed address repeats with period `wrap` over the repeats |
| Addresses.DenseWrapOne | src/generators/spatterGenerator.cc:348 | with `wrap == 1` the densely packed address is the start address |
| Addresses.GatherTargetIgnoresPosition | src/generators/spatterGenerator.cc:348 | a gather's write address depends on the repeat only, never on the pattern position |
| Addresses.ScatterSwapsGather | src/generators/spatterGenerator.cc:370-371 | scatter reads at gather's write address and writes at gather's read address |
| Addresses.MultiScatterSwapsMultiGather | src/generators/spatterGenerator.cc:439-440 | with the same index pattern and delta, multiscatter swaps multigather's read and write addresses |
| Addresses.MultiGatherOfIdentity | src/generators/spatterGenerator.cc:416-417 | multigather through the identity index pattern is a gather with the gather-side delta |
| Addresses.StreamAt | src/generators/spatterGenerator.cc:82-104 | the pair issued at position p of repeat c is element `c * P + p` of the stream |
| Odometer.Step | src/generators/spatterGenerator.cc:321-339 | a step keeps both indices in range |
| Odometer.StepIncrements | src/generators/spatterGenerator.cc:321-339 | a step increments the linear position `c * P + p` by one; after the last position it instead sets the finished flag, clears both indices and moves to the next configuration |
| Odometer.StepsVisit | src/generators/spatterGenerator.cc:321-339 | from the start of a configuration, step `c * P + p` reaches position p of repeat c, not finished |
| Odometer.StepsFinish | src/generators/spatterGenerator.cc:325-332 | exactly `P * count` steps finish the configuration and point at the next one |
| Odometer.StepsFinishOnlyAtEnd | src/generators/spatterGenerator.cc:325-332 | within a configuration, the flag is set after n steps if and only if `n == P * count`, and before that the cursor is `(n % P, n / P)` |
| Gate.Drain | src/generators/spatterGenerator.cc:106-120 | the answer is true if and only if the configuration has drained and it was the last one; the flag is cleared exactly when it has drained; the state either stays or becomes (not finished, 0 issued) |
| Gate.DrainWhileIssuing | src/generators/spatterGenerator.cc:108 | while a configuration is still issuing, the answer is false and nothing changes |
| Gate.DrainTwice | src/generators/spatterGenerator.cc:108-116 | a second call with the same count answers false and changes nothing; once drained, so does any later call |
| Overlap.OverlapWarningAsWritten | src/generators/spatterGenerator.cc:62-72 | as written, the warning fires exactly when the target starts at or below the source, or at or before the source's last element; the target's size never matters |
| Overlap.OverlapWarning | src/generators/spatterGenerator.cc:62-72 | corrected, a target above the source warns when it starts at or before the source's last element, and a source above the target warns when it starts at or before the target's last element; equal starts always warn |
| Overlap.DefaultStartTarget | src/generators/spatterGenerator.cc:60 | when the source size fits in `uint32_t`, the default target start is the larger of `sparse_size` and `sparse_gather_size` |
| Overlap.AsWrittenCases | src/generators/spatterGenerator.cc:62-72 | as written, a target above the source draws the warning exactly when it starts at or before the source's last element, and a target at or below the source always draws it |
| Overlap.AsWrittenWarnsOnDisjointRanges | src/generators/spatterGenerator.cc:66-71 | as written, a target array wholly below the source array draws the warning |
| Overlap.OverlapWarningIffIntersect | src/generators/spatterGenerator.cc:62-72 | corrected, the warning fires exactly when the two arrays share an element (non-empty arrays whose ends do not wrap) |
| Overlap.CorrectionOnlyBelow | src/generators/spatterGenerator.cc:62-65 | the correction changes nothing when the target starts above the source |
| Overlap.DefaultsDoNotOverlap | src/generators/spatterGenerator.cc:59-63 | with both default start addresses, a non-empty source array and its target do not draw the warning |
| Requests.ReadWritePair | src/generators/spatterGenerator.cc:350-359 | two requests: a read at the source and a write at the target, both of the data width, with fresh increasing identities; the write depends on exactly the read |
| Requests.PairedStreamAt | src/generators/spatterGenerator.cc:353 | in a paired stream, every write depends on exactly the read just before it |
| Requests.PairedStreamAppend | src/generators/spatterGenerator.cc:356-359 | appending a dependent pair keeps a stream paired |
| Requests.AppendPair | src/generators/spatterGenerator.cc:350-359 | appending a fresh pair keeps the stream paired with strictly increasing identities, all below the next free identity |
| Requests.RequestQueue.PushBack | src/generators/spatterGenerator.cc:356 | the request is appended at the back |
| Generator.InitConfigs | src/generators/spatterGenerator.cc:274-291 | success if and only if the parser accepts the tokens of the argument string; the parsed arguments are the parser's |
| Generator.ProgressAtStart | src/generators/spatterGenerator.cc:46-49 | at indices zero of the first configuration, with nothing issued, the progress invariant holds for any well-formed configuration list |
| Generator.DrainRestarts | src/generators/spatterGenerator.cc:108-115 | clearing the flag of a finished configuration and forgetting its pairs leaves the cursor at the start of the next configuration, with the progress invariant kept |
| Generator.IssueAdvances | src/generators/spatterGenerator.cc:82-104 | issuing the current pair and stepping keeps the issued pairs a prefix of the stream; the step that sets the flag completes it |
| Generator.SpatterGenerator.constructor | src/generators/spatterGenerator.cc:35-75 | defaults: data width 8, start_source 0, start_target the source size as `uint32_t`; the overlap warning as corrected; indices at the start; counters at zero; the first configuration selected |
| Generator.SpatterGenerator.Generate | src/generators/spatterGenerator.cc:82-104 | while the flag is set, nothing changes; otherwise it emits the kernel's pair for the current indices and takes one odometer step, and the invariant is kept |
| Generator.SpatterGenerator.IssueAndStep | src/generators/spatterGenerator.cc:86-103 | the current configuration is selected and the queue stored; the kernel's pair for the current indices is emitted; the indices take one odometer step |
| Generator.SpatterGenerator.IssueForKernel | src/generators/spatterGenerator.cc:89-101 | the kernel name selects the kernel whose pair is emitted |
| Generator.SpatterGenerator.IsFinished | src/generators/spatterGenerator.cc:106-120 | flag, counter and answer evolve as `Drain` says, and the invariant is kept |
| Generator.SpatterGenerator.UpdateIndices | src/generators/spatterGenerator.cc:321-339 | the indices take one odometer step |
| Generator.SpatterGenerator.Emit | src/generators/spatterGenerator.cc:350-361 | a read at `sourceAddr` and a dependent write at `targetAddr` are appended to the queue; `numIssuedReqs` grows by 2 modulo 2^64 |
| Generator.SpatterGenerator.Gather | src/generators/spatterGenerator.cc:345-362 | emits `(startSource + pattern[p] + delta * c, startTarget + P * (c % wrap))` |
| Generator.SpatterGenerator.Scatter | src/generators/spatterGenerator.cc:368-385 | emits `(startTarget + P * (c % wrap), startSource + pattern[p] + delta * c)` |
| Generator.SpatterGenerator.GatherScatter | src/generators/spatterGenerator.cc:391-408 | emits `(startSource + pattern_gather[p] + delta_gather * c, startTarget + pattern_scatter[p] + delta_scatter * c)` |
| Generator.SpatterGenerator.MultiGather | src/generators/spatterGenerator.cc:414-431 | emits `(startSource + pattern[pattern_gather[p]] + delta_gather * c, startTarget + size(pattern_gather) * (c % wrap))` |
| Generator.SpatterGenerator.MultiScatter | src/generators/spatterGenerator.cc:437-454 | emits `(startTarget + size(pattern_scatter) * (c % wrap), startSource + pattern[pattern_scatter[p]] + delta_scatter * c)` |
| Scenarios.SmallGatherStream | src/generators/spatterGenerator.cc:345-348 | gather over [0, 1, 2] with delta 3, count 2, wrap 1, from 0 to 100: reads at 0..5, every write at 100 |
| Scenarios.SmallGatherFinishes | src/generators/spatterGenerator.cc:106-120 | that configuration finishes after six steps; 11 completions keep the gate shut, and 12 open it and finish the run |

## Left out

- Statistics: registering, flagging, resetting and printing them.
  `performGlobalStatisticOutput` is also left out. The completed count the
  gate reads from `statCompletedReqs` is the `completedReqs` parameter of
  `IsFinished`.
- Pattern parser: `Spatter::parse_input` is not part of this model. It is
  the function parameter `parse`, and the model assumes nothing about it
  beyond the constructor's requires: the parse succeeds and yields
  well-formed configurations.
- Logging: the `Output` object, `verbose` and every log line are left out.
  The overlap warning is kept as the boolean `overlapWarned`, from the
  corrected check.
- Memory management: the destructor and the freeing of the argument vector
  in `initConfigs` have no counterpart; tokens are values.
- `completed`: its body is empty, so there is nothing to model.
- Warm-up fields: `maxWarmupRuns`, `remainingWarmupRuns` and
  `configStartTime` are declared but never used by the modelled code.
- Request identities: they come from the framework's request counter. This
  is modelled as the field `nextReqId`, starting at 0. Only their freshness
  and order matter.
- Request queue: `MirandaRequestQueue` is modelled only by the `push_back`
  the generator uses (`Requests.RequestQueue`).
- The Python test configuration and the statistics tool are not modelled.
- Words.CountArgs: the count is an unbounded natural; the `int32_t`
  overflow of more than 2^31 - 1 tokens is not modelled.
- Words.TokenizeArgs: a token is copied as a string value; the
  character-array copy and its terminating byte are not modelled.
- Generator.SpatterGenerator.constructor: requires the parse to succeed,
  because the source stops the simulation with a fatal error otherwise.
  It also requires every configuration to be `WellFormed`: a known kernel,
  at least one pattern position and one repeat, a non-zero `wrap` and
  in-range indirection indices. With any other configuration the source
  underflows `patternSize - 1`, divides by zero or reads out of range.
  Checking this is the parser's job.
- Generator.SpatterGenerator.Generate: requires that the run has not ended
  (the flag is set, or configurations remain). The driver stops calling
  after `isFinished` has answered true. Past that point the source would
  read `cl.configs` out of range.
- Generator.SpatterGenerator.IssueForKernel: an unknown kernel name, for
  which the source issues nothing, is excluded by `WellFormed`.
- Index widths: `patternIdx`, `countIdx` and `configIdx` are `size_t` in
  the source and naturals here. In the source they stay below the pattern
  size, `count` and the number of configurations, which fit in `size_t`, so
  the increments of `updateIndices` cannot wrap. In the model only `count`
  is bounded (it is a `uint64_t`); the sequence lengths are unbounded.
- Init-time conversions: the `uint32_t` conversions of `start_target`'s
  default are written out (`Wrap32`); the other parameters are taken as
  already-converted `uint32_t` values.
- Generator.SpatterGenerator.constructor: uses the corrected overlap check
  (see "## Findings"), not the one the code writes.
- Scenarios: the worked example is stated on the reference stream, the
  odometer and the gate, not on a run of the generator object.

## Findings

| source | as written | input that shows it | evidently intended | confidence | as-written member | corrected member |
|---|---|---|---|---|---|---|
| src/generators/spatterGenerator.cc:66 | `else if (startSource < startTarget)` repeats the first test `startTarget > startSource`, so it can never be true; every target at or below the source falls through to the unconditional warning | start_source 1000, start_target 0, both arrays 8 elements long: the arrays are disjoint, but the warning is printed | `else if (startSource > startTarget)`, so that a target below the source warns only when the source starts at or before the target's last element | high (not executed) | Overlap.OverlapWarningAsWritten, Overlap.AsWrittenWarnsOnDisjointRanges | Overlap.OverlapWarning, Overlap.OverlapWarningIffIntersect |
