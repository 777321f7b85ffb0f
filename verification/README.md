# Text-compression challenge protocol and benchmark bookkeeping, in Dafny

This project models two pieces of the neural-condense subnet.

1. **The challenge message** `TextCompressProtocol`. It holds three fields: the
   `context` a miner must compress, the miner's `compressed_tokens` (a list of
   float vectors), and the validator's ground truth `expected_completion`.
   It has three operations:
   - the miner's view (`get_miner_payload`);
   - the in-place redaction of the ground truth (`hide_ground_truth`);
   - the three-field wire/persistence form (`deserialize`).

   The message is modelled as an immutable datatype (`protocol.dfy`, module
   `Protocol`). Hiding is a function that returns the updated message. To
   state "what a live object looks like after any mix of these calls", the
   three operations are also modelled as calls folded over a message
   (`Invoke`, `InvokeAll`). The float elements of `compressed_tokens` are
   `real`s; the message only carries them. `FromWire` reads
   a message back from its wire form. It has no counterpart in the source; it
   exists to state that the wire form loses nothing.

2. **The bookkeeping of `benchmark_challenger`**. The generator, the tokenizer
   and the clock are replaced by an oracle table with one `Outcome` per
   (iteration, task) attempt. An attempt ends in one of four ways:
   - generation or item construction fails (`GenerationFailed`);
   - extracting the formatted context fails after the time was added
     (`ExtractionFailed`);
   - encoding fails after the context length was recorded (`EncodeFailed`);
   - the attempt succeeds (`Generated`).

   Durations, lengths and token counts are `nat`s, and the generator's payload
   is an opaque `D`. The loop is a fold (`Step`, `RunAttempts`) over the
   attempts in loop order (`Attempts`), which is the outer loop over the
   iteration and the inner loop over the task (`benchmark.dfy`, module
   `Benchmark`). Reference selections over that attempt list (module `Seqs`,
   `seqs.dfy`) say which attempts leave a trace in each list. The summary
   (`Summarize`) computes the per-task average time and the error rate as exact
   reals, and fails with `ZeroDivisionError` where the source divides by zero.
   `benchmark_loop.dfy` (module `BenchmarkLoop`) writes the same loop as the
   source does, with nested `while` loops, and proves that it computes the fold.

The iteration count is an `int`. As with Python's `range`, a negative count
runs no iteration. The task list is a parameter; the source fixes it to
`["question_answering"]` (the constant `Benchmark.Tasks`). The per-task time
totals form a map, as the source's dict does, so a task named twice shares one
total.

Behaviour of the code worth knowing:
- With a zero iteration count the code raises `ZeroDivisionError` at line 103,
  and at line 105 when the task list is empty. `Summarize` returns
  `Err(ZeroDivisionError)` in exactly those cases.
- The time total of a task also grows for attempts that fail after generation
  (during extraction or encoding), because line 75 runs before lines 78-84.
- The message has no `prompt_after_context` or `expected_generation` field,
  though the class docstring names them. The model has the three declared fields.

## Model

| member | source | states |
|---|---|---|
| `Protocol.Default` | neural_condense_core/protocol.py:22-24 | A message built without arguments has an empty context, no compressed tokens and an empty expected completion |
| `Protocol.DefaultMetadata` | neural_condense_core/protocol.py:5-6 | The metadata message built without arguments holds the empty mapping |
| `Protocol.GetMinerPayload` | neural_condense_core/protocol.py:26-34 | The miner's view has exactly one key, `"context"`, whose value is the message's context; it never has a `compressed_tokens` or `expected_completion` key, whatever those fields hold |
| `Protocol.HideGroundTruth` | neural_condense_core/protocol.py:36-40 | After hiding, the expected completion is empty and the context and compressed tokens are what they were |
| `Protocol.HideGroundTruthIdempotent` | neural_condense_core/protocol.py:36-40 | Hiding twice leaves the same message as hiding once |
| `Protocol.Deserialize` | neural_condense_core/protocol.py:42-47 | The wire form has exactly the keys `context`, `compressed_tokens`, `expected_completion`; each holds the current field; the tokens keep their row count and every row |
| `Protocol.WireRoundTrip` | neural_condense_core/protocol.py:42-47 | Reading a message back from its wire form yields the same message, so the wire form loses nothing |
| `Protocol.WireRoundTripBack` | neural_condense_core/protocol.py:42-47 | Every well-formed three-key mapping is the wire form of the message read back from it |
| `Protocol.MinerPayloadIsWireRestriction` | neural_condense_core/protocol.py:26-47 | The miner's view is the wire form restricted to a strict subset of its keys, namely the context |
| `Protocol.DeserializeAfterHide` | neural_condense_core/protocol.py:36-47 | The wire form of a hidden message carries an empty expected completion next to the context and tokens from before the hide |
| `Protocol.Invoke` | neural_condense_core/protocol.py:26-47 | Of the three calls only the hide changes the message, and it changes only the expected completion; the miner view has the single context key; the wire form reads back to the message |
| `Protocol.InvokeAll` | neural_condense_core/protocol.py:26-47 | A sequence of calls on one live message, each seeing the message the earlier calls left; it gives one reply per call |
| `Protocol.SessionFinalState` | neural_condense_core/protocol.py:26-47 | After any sequence of calls the context and tokens are unchanged, and the ground truth is empty if and only if a hide was among the calls |
| `Protocol.SessionReplies` | neural_condense_core/protocol.py:26-47 | In any sequence of calls every miner view shows only the original context. Every wire form is the original message, with the ground truth emptied if and only if a hide came earlier |
| `Benchmark.TokenizerName` | tests/test_synthetic.py:28-31 | The tokenizer is `gpt2` for the model name `universal` and the model name itself otherwise; so `gpt2` is chosen for exactly two model names |
| `Benchmark.Init` | tests/test_synthetic.py:41-45 | Before the loop every task has a zero time total, and the counter and the lists are empty |
| `Benchmark.Step` | tests/test_synthetic.py:53-96 | A successful attempt stores exactly its item (tagged with task, iteration, model name and character bound), appends its token count and advances the progress counter, and counts no error. Any other attempt counts exactly one error and stores nothing. A context length is appended exactly when the attempt got past extraction. Only the attempt's own task gains time, and it gains exactly the attempt's duration |
| `Benchmark.RunAttempts` | tests/test_synthetic.py:51-96 | Over any attempts, errors plus new items equals the number of attempts, and the progress counter and token counts grow with the items |
| `Benchmark.RunCountsErrors` | tests/test_synthetic.py:89-93 | The error counter grows by exactly the number of attempts that did not store an item |
| `Benchmark.RunStoresItems` | tests/test_synthetic.py:66-87 | The stored items are exactly those of the successful attempts, in attempt order, each tagged with its task, iteration, model name and character bound |
| `Benchmark.RunRecordsTokenCounts` | tests/test_synthetic.py:81-84 | The token counts are exactly those of the successful attempts, in attempt order |
| `Benchmark.RunRecordsContextLengths` | tests/test_synthetic.py:77-80 | The context lengths are exactly those of the attempts that got past extraction, including the ones that then failed to encode |
| `Benchmark.RunAccumulatesTime` | tests/test_synthetic.py:54-75 | Each task's time total grows by exactly the durations of that task's attempts that got past generation |
| `Benchmark.Attempts` | tests/test_synthetic.py:51-52 | The attempts the two loops make, outer over the iteration and inner over the task: every attempt has a configured task and an iteration below the iteration count (their number and positions are the next two rows) |
| `Benchmark.Run` | tests/test_synthetic.py:41-96 | The whole nested loop as a fold from the initial state over the attempts in loop order; the time totals keep exactly one key per task |
| `Benchmark.AttemptsCount` | tests/test_synthetic.py:48-52 | The loop makes iterations times tasks attempts |
| `Benchmark.AttemptAt` | tests/test_synthetic.py:51-52 | Attempt number `i * len(tasks) + j` is iteration `i` with the `j`-th task: outer loop over iterations, inner over tasks |
| `Benchmark.AttemptsSorted` | tests/test_synthetic.py:51-52 | Iteration indices never decrease along the attempts |
| `Benchmark.ErrorsPlusItems` | tests/test_synthetic.py:48-96 | After the loop, `error_count + len(dataset_items)` equals iterations times tasks, and the progress counter equals `len(dataset_items)` |
| `Benchmark.ItemsAndTokenCountsAligned` | tests/test_synthetic.py:78-87 | After the loop the items and the token counts come from the same successful attempts in the same order, so they have equal lengths and correspond position by position |
| `Benchmark.ContextLengthsExcess` | tests/test_synthetic.py:78-87 | After the loop there are as many context lengths as items plus the attempts that failed while encoding |
| `Benchmark.ItemsTaggedInOrder` | tests/test_synthetic.py:51-87 | Every item has a configured task, an id below the iteration count, the run's model name and character bound; item ids never decrease |
| `Benchmark.TimeLogsSumTaskDurations` | tests/test_synthetic.py:54-75 | After the loop each task's time total is the sum of durations of that task's attempts that got past generation, including later failures |
| `Benchmark.Summarize` | tests/test_synthetic.py:101-105 | The summary fails with a division by zero exactly when the iteration count is zero or the task list is empty. Otherwise the error rate times the number of attempts is the error count, and each average times the iteration count is the task's total |
| `Benchmark.ErrorRateBounds` | tests/test_synthetic.py:48-105 | With at least one iteration and one task, the error rate equals `error_count / (n_iterations * len(tasks))` and lies between 0 and 1 |
| `Benchmark.NegativeIterations` | tests/test_synthetic.py:48-105 | With a negative iteration count and a task, no attempt runs, and the summary reports a zero error rate and a zero average for every task |
| `Benchmark.ThreeIterationScenario` | tests/test_synthetic.py:51-105 | Three iterations of one task, the middle one failing in generation: one error, items with ids 0 and 2, lengths 100 and 300, error rate one third |
| `BenchmarkLoop.RunIteration` | tests/test_synthetic.py:52-96 | The inner loop over the tasks extends the fold by that iteration's attempts, in task order |
| `BenchmarkLoop.RunIterations` | tests/test_synthetic.py:51-96 | The nested loops compute the fold over all attempts in loop order |
| `BenchmarkLoop.BenchmarkChallenger` | tests/test_synthetic.py:41-136 | The whole benchmark: the fold's state, with errors plus items equal to attempts, progress and token counts equal to items, items from the successful attempts. The returned summary is the one `Summarize` gives for that state: it fails exactly on a zero divisor, carries the error count, rate and per-task averages, and with at least one iteration and one task has an error rate in [0, 1] |

## Left out

- The `bittensor.Synapse` base class, its transport and its own wire serialisation (neural_condense_core/protocol.py:1, 5, 9) belong to an external framework. Only the three-field projection is modelled.
- `ChallengeGenerator.generate_challenge` and `asyncio.run` (tests/test_synthetic.py:32, 57-63) are foreign code and async plumbing. The oracle `Outcome` table replaces them.
- Tokenizer loading and `encode` (tests/test_synthetic.py:29-31, 81-83) are library calls. Only the choice of tokenizer name is kept, and token counts are oracle `nat`s.
- `time.time()` readings (tests/test_synthetic.py:54, 75) are I/O. Each attempt carries its elapsed duration as an abstract `nat`, so a clock that runs backwards is not modelled.
- `tqdm` rendering, `traceback` and `print` output (tests/test_synthetic.py:49, 90-91, 99, 108-126) are I/O. The progress bar is kept only as its counter.
- The numpy means and standard deviations (tests/test_synthetic.py:114-119) are floating-point statistics (the standard deviation needs a square root). They are not in `Summary`.
- The JSON file write (tests/test_synthetic.py:129-130) and the top-level script call with 100 iterations, 40000 characters and `"universal"` (tests/test_synthetic.py:145-151) are I/O. The items that would be written are `Bench.items`.
- The keyword defaults of `benchmark_challenger` (10 iterations, 10000 characters, a Mistral model name; tests/test_synthetic.py:11-15) are not modelled. Every argument is a parameter. The docstring's "defaults to 5000" disagrees with the code's 10.
- Benchmark.Summarize: computes the error rate and the averages as exact reals. The source uses floating-point division, so its values are the nearest doubles, and a negative iteration count gives `-0.0` where the model has `0`.
- `Protocol.Metadata` models only the single dictionary field and its empty default. The class has no behaviour of its own.
- The framework's handling of field defaults is not modelled. `Protocol.Default` states only the declared default values.
