/** The bookkeeping of the synthetic-challenge benchmark. The generator, the
    tokenizer and the clock are replaced by an oracle table giving, for every
    (iteration, task) attempt, how the attempt ended; what remains is a
    deterministic fold of those outcomes into the counters and lists the
    harness keeps, followed by the summary it computes from them. */
module Benchmark {
  import opened Seqs

  /** The model name that asks for the generic fallback tokenizer, and that tokenizer. */
  const UniversalModel := "universal"
  const FallbackTokenizer := "gpt2"

  /** The task kinds the harness enumerates; tests/test_synthetic.py lists three
      more, commented out. */
  const Tasks: seq<string> := ["question_answering"]

  /** The tokenizer whose encoding gives the token counts. */
  function TokenizerName(modelName: string): (r: string)
    ensures modelName == UniversalModel ==> r == FallbackTokenizer
    ensures modelName != UniversalModel ==> r == modelName
    ensures r == FallbackTokenizer <==> modelName == UniversalModel || modelName == FallbackTokenizer
  {
    if modelName == UniversalModel then FallbackTokenizer else modelName
  }

  /** How one attempt ended. `elapsed` is the duration added to the task's
      time total, `contextLength` the character length of the formatted
      context, `tokenCount` the length of its encoding, and `data` the
      generator's payload stored with the item. */
  datatype Outcome<D> =
    | GenerationFailed
    | ExtractionFailed(elapsed: nat)
    | EncodeFailed(elapsed: nat, contextLength: nat)
    | Generated(elapsed: nat, contextLength: nat, tokenCount: nat, data: D)
  {
    /** The duration this attempt adds to its task's total: none when
        generation itself failed, since the clock is read only after it. */
    function Elapsed(): nat {
      if GenerationFailed? then 0 else elapsed
    }
  }

  /** One pass through the inner loop body: iteration index, task, outcome. */
  datatype Attempt<D> = Attempt(iteration: nat, task: string, outcome: Outcome<D>)

  predicate IsError<D>(a: Attempt<D>) { !a.outcome.Generated? }
  predicate IsGenerated<D>(a: Attempt<D>) { a.outcome.Generated? }
  predicate IsMeasured<D>(a: Attempt<D>) { a.outcome.EncodeFailed? || a.outcome.Generated? }
  predicate IsEncodeFailure<D>(a: Attempt<D>) { a.outcome.EncodeFailed? }

  /** The arguments of the benchmark that every item records. */
  datatype Config = Config(modelName: string, maxCharacters: int)

  /** One stored dataset item. */
  datatype Item<D> = Item(task: string, id: nat, data: D, modelId: string, maxCharacters: int)

  /** Everything the loop accumulates: the per-task time totals, the error
      counter, the stored items, the recorded context lengths and token
      counts, and the progress counter. */
  datatype Bench<D> = Bench(
    timeLogs: map<string, nat>,
    errorCount: nat,
    items: seq<Item<D>>,
    contextLengths: seq<nat>,
    tokenCounts: seq<nat>,
    progress: nat
  )

  /** The state before the loop: a zero time total for every task, everything else empty. */
  function Init<D>(tasks: seq<string>): (s: Bench<D>)
    ensures s.timeLogs.Keys == set t | t in tasks
    ensures forall t :: t in s.timeLogs ==> s.timeLogs[t] == 0
    ensures s.errorCount == 0 && s.progress == 0
    ensures s.items == [] && s.contextLengths == [] && s.tokenCounts == []
  {
    Bench(map t | t in tasks :: 0, 0, [], [], [], 0)
  }

  function ItemOf<D>(cfg: Config, a: Attempt<D>): Item<D>
    requires a.outcome.Generated?
  {
    Item(a.task, a.iteration, a.outcome.data, cfg.modelName, cfg.maxCharacters)
  }

  /** One attempt of the inner loop body: the try block and its handler. */
  function Step<D>(cfg: Config, s: Bench<D>, a: Attempt<D>): (r: Bench<D>)
    requires a.task in s.timeLogs
    ensures r.timeLogs.Keys == s.timeLogs.Keys
    ensures r.timeLogs[a.task] == s.timeLogs[a.task] + a.outcome.Elapsed()
    ensures forall t :: t in s.timeLogs && t != a.task ==> r.timeLogs[t] == s.timeLogs[t]
    ensures a.outcome.Generated? <==> |r.items| == |s.items| + 1
    ensures r.errorCount + |r.items| == s.errorCount + |s.items| + 1
    ensures r.progress - s.progress == |r.items| - |s.items|
    ensures |r.tokenCounts| - |s.tokenCounts| == |r.items| - |s.items|
    ensures a.outcome.Generated? ==>
              && r.errorCount == s.errorCount
              && r.items == s.items + [ItemOf(cfg, a)]
              && r.tokenCounts == s.tokenCounts + [a.outcome.tokenCount]
              && r.progress == s.progress + 1
    ensures !a.outcome.Generated? ==>
              && r.errorCount == s.errorCount + 1
              && r.items == s.items
              && r.tokenCounts == s.tokenCounts
              && r.progress == s.progress
    ensures r.contextLengths == s.contextLengths + (if IsMeasured(a) then [a.outcome.contextLength] else [])
  {
    var task := a.task;
    match a.outcome
    case GenerationFailed =>
      s.(errorCount := s.errorCount + 1)
    case ExtractionFailed(t) =>
      s.(timeLogs := s.timeLogs[task := s.timeLogs[task] + t],
         errorCount := s.errorCount + 1)
    case EncodeFailed(t, len) =>
      s.(timeLogs := s.timeLogs[task := s.timeLogs[task] + t],
         contextLengths := s.contextLengths + [len],
         errorCount := s.errorCount + 1)
    case Generated(t, len, tokens, data) =>
      s.(timeLogs := s.timeLogs[task := s.timeLogs[task] + t],
         contextLengths := s.contextLengths + [len],
         tokenCounts := s.tokenCounts + [tokens],
         items := s.items + [ItemOf(cfg, a)],
         progress := s.progress + 1)
  }

  /** Folds the attempts, in order, into the accumulated state. */
  function RunAttempts<D>(cfg: Config, s: Bench<D>, attempts: seq<Attempt<D>>): (r: Bench<D>)
    requires TasksKnown(s, attempts)
    ensures r.timeLogs.Keys == s.timeLogs.Keys
    ensures r.errorCount + |r.items| == s.errorCount + |s.items| + |attempts|
    ensures r.progress - s.progress == |r.items| - |s.items|
    ensures |r.tokenCounts| - |s.tokenCounts| == |r.items| - |s.items|
    decreases |attempts|
  {
    if |attempts| == 0 then s
    else RunAttempts(cfg, Step(cfg, s, attempts[0]), attempts[1..])
  }

  /** Folding one more attempt is one more step after the fold. */
  lemma {:induction false} RunAttemptsSnoc<D>(cfg: Config, s: Bench<D>, done: seq<Attempt<D>>, a: Attempt<D>)
    requires TasksKnown(s, done + [a])
    ensures TasksKnown(s, done)
    ensures a.task in RunAttempts(cfg, s, done).timeLogs
    ensures RunAttempts(cfg, s, done + [a]) == Step(cfg, RunAttempts(cfg, s, done), a)
    decreases |done|
  {
    var all := done + [a];
    assert all[|done|] == a;
    assert TasksKnown(s, done) by {
      forall k | 0 <= k < |done| ensures done[k].task in s.timeLogs {
        assert done[k] == all[k];
      }
    }
    if |done| == 0 {
      assert all == [a];
    } else {
      assert all[0] == done[0];
      assert all[1..] == done[1..] + [a];
      TasksKnownTail(cfg, s, all);
      RunAttemptsSnoc(cfg, Step(cfg, s, done[0]), done[1..], a);
    }
  }

  /** The sum of the durations the given attempts add to the total of `task`. */
  function TimeSpent<D>(attempts: seq<Attempt<D>>, task: string): nat
    decreases |attempts|
  {
    if |attempts| == 0 then 0
    else (if attempts[0].task == task then attempts[0].outcome.Elapsed() else 0)
         + TimeSpent(attempts[1..], task)
  }

  /** The items stored for the given successful attempts. */
  function ItemsOf<D>(cfg: Config, attempts: seq<Attempt<D>>): (r: seq<Item<D>>)
    requires forall k :: 0 <= k < |attempts| ==> attempts[k].outcome.Generated?
    ensures |r| == |attempts|
    ensures forall k :: 0 <= k < |r| ==> r[k] == ItemOf(cfg, attempts[k])
    decreases |attempts|
  {
    if |attempts| == 0 then []
    else [ItemOf(cfg, attempts[0])] + ItemsOf(cfg, attempts[1..])
  }

  /** The context lengths recorded for the given measured attempts. */
  function ContextLengthsOf<D>(attempts: seq<Attempt<D>>): (r: seq<nat>)
    requires forall k :: 0 <= k < |attempts| ==>
               attempts[k].outcome.EncodeFailed? || attempts[k].outcome.Generated?
    ensures |r| == |attempts|
    ensures forall k :: 0 <= k < |r| ==> r[k] == attempts[k].outcome.contextLength
    decreases |attempts|
  {
    if |attempts| == 0 then []
    else [attempts[0].outcome.contextLength] + ContextLengthsOf(attempts[1..])
  }

  /** The token counts recorded for the given successful attempts. */
  function TokenCountsOf<D>(attempts: seq<Attempt<D>>): (r: seq<nat>)
    requires forall k :: 0 <= k < |attempts| ==> attempts[k].outcome.Generated?
    ensures |r| == |attempts|
    ensures forall k :: 0 <= k < |r| ==> r[k] == attempts[k].outcome.tokenCount
    decreases |attempts|
  {
    if |attempts| == 0 then []
    else [attempts[0].outcome.tokenCount] + TokenCountsOf(attempts[1..])
  }

  /** Every attempt names a task that already has a time total. */
  predicate TasksKnown<D>(s: Bench<D>, attempts: seq<Attempt<D>>) {
    forall k :: 0 <= k < |attempts| ==> attempts[k].task in s.timeLogs
  }

  /** The error counter grows by exactly the attempts that did not store an item. */
  lemma {:induction false} RunCountsErrors<D>(cfg: Config, s: Bench<D>, attempts: seq<Attempt<D>>)
    requires TasksKnown(s, attempts)
    ensures RunAttempts(cfg, s, attempts).errorCount == s.errorCount + |Filter(attempts, IsError)|
    decreases |attempts|
  {
    if |attempts| > 0 {
      RunCountsErrors(cfg, Step(cfg, s, attempts[0]), attempts[1..]);
    }
  }

  /** The stored items are those of the successful attempts, in attempt order. */
  lemma {:induction false} RunStoresItems<D>(cfg: Config, s: Bench<D>, attempts: seq<Attempt<D>>)
    requires TasksKnown(s, attempts)
    ensures RunAttempts(cfg, s, attempts).items == s.items + ItemsOf(cfg, Filter(attempts, IsGenerated))
    decreases |attempts|
  {
    if |attempts| > 0 {
      var a := attempts[0];
      var tail := attempts[1..];
      var s1 := Step(cfg, s, a);
      TasksKnownTail(cfg, s, attempts);
      RunStoresItems(cfg, s1, tail);
      assert RunAttempts(cfg, s, attempts) == RunAttempts(cfg, s1, tail);
      var g := Filter(tail, IsGenerated);
      assert Filter(attempts, IsGenerated) == (if IsGenerated(a) then [a] else []) + g;
      var rest := ItemsOf(cfg, g);
      if a.outcome.Generated? {
        assert ([a] + g)[1..] == g;
        assert ItemsOf(cfg, [a] + g) == [ItemOf(cfg, a)] + rest;
        calc {
          RunAttempts(cfg, s, attempts).items;
          s1.items + rest;
          (s.items + [ItemOf(cfg, a)]) + rest;
          { SeqAssoc(s.items, [ItemOf(cfg, a)], rest); }
          s.items + ([ItemOf(cfg, a)] + rest);
          s.items + ItemsOf(cfg, [a] + g);
        }
      } else {
        assert [] + g == g;
      }
    }
  }

  /** The token counts are those of the successful attempts, in attempt order. */
  lemma {:induction false} RunRecordsTokenCounts<D>(cfg: Config, s: Bench<D>, attempts: seq<Attempt<D>>)
    requires TasksKnown(s, attempts)
    ensures RunAttempts(cfg, s, attempts).tokenCounts == s.tokenCounts + TokenCountsOf(Filter(attempts, IsGenerated))
    decreases |attempts|
  {
    if |attempts| > 0 {
      var a := attempts[0];
      var tail := attempts[1..];
      var s1 := Step(cfg, s, a);
      TasksKnownTail(cfg, s, attempts);
      RunRecordsTokenCounts(cfg, s1, tail);
      var g := Filter(tail, IsGenerated);
      assert Filter(attempts, IsGenerated) == (if IsGenerated(a) then [a] else []) + g;
      var rest := TokenCountsOf(g);
      if a.outcome.Generated? {
        assert ([a] + g)[1..] == g;
        assert TokenCountsOf([a] + g) == [a.outcome.tokenCount] + rest;
        calc {
          RunAttempts(cfg, s, attempts).tokenCounts;
          s1.tokenCounts + rest;
          (s.tokenCounts + [a.outcome.tokenCount]) + rest;
          { SeqAssoc(s.tokenCounts, [a.outcome.tokenCount], rest); }
          s.tokenCounts + ([a.outcome.tokenCount] + rest);
          s.tokenCounts + TokenCountsOf([a] + g);
        }
      } else {
        assert [] + g == g;
      }
    }
  }

  /** The context lengths are those of the attempts that got as far as
      measuring the context, in attempt order. */
  lemma {:induction false} RunRecordsContextLengths<D>(cfg: Config, s: Bench<D>, attempts: seq<Attempt<D>>)
    requires TasksKnown(s, attempts)
    ensures RunAttempts(cfg, s, attempts).contextLengths
              == s.contextLengths + ContextLengthsOf(Filter(attempts, IsMeasured))
    decreases |attempts|
  {
    if |attempts| > 0 {
      var a := attempts[0];
      var tail := attempts[1..];
      var s1 := Step(cfg, s, a);
      TasksKnownTail(cfg, s, attempts);
      RunRecordsContextLengths(cfg, s1, tail);
      var me := Filter(tail, IsMeasured);
      assert Filter(attempts, IsMeasured) == (if IsMeasured(a) then [a] else []) + me;
      var rest := ContextLengthsOf(me);
      if IsMeasured(a) {
        assert ([a] + me)[1..] == me;
        assert ContextLengthsOf([a] + me) == [a.outcome.contextLength] + rest;
        calc {
          RunAttempts(cfg, s, attempts).contextLengths;
          s1.contextLengths + rest;
          (s.contextLengths + [a.outcome.contextLength]) + rest;
          { SeqAssoc(s.contextLengths, [a.outcome.contextLength], rest); }
          s.contextLengths + ([a.outcome.contextLength] + rest);
          s.contextLengths + ContextLengthsOf([a] + me);
        }
      } else {
        assert [] + me == me;
      }
    }
  }

  /** After the first attempt, the remaining ones still name known tasks. */
  lemma TasksKnownTail<D>(cfg: Config, s: Bench<D>, attempts: seq<Attempt<D>>)
    requires TasksKnown(s, attempts) && |attempts| > 0
    ensures TasksKnown(Step(cfg, s, attempts[0]), attempts[1..])
  {
    var tail := attempts[1..];
    forall k | 0 <= k < |tail| ensures tail[k].task in Step(cfg, s, attempts[0]).timeLogs {
      assert tail[k] == attempts[k + 1];
    }
  }

  /** Each task's time total grows by exactly the durations of its attempts. */
  lemma {:induction false} RunAccumulatesTime<D>(cfg: Config, s: Bench<D>, attempts: seq<Attempt<D>>, t: string)
    requires TasksKnown(s, attempts)
    requires t in s.timeLogs
    ensures RunAttempts(cfg, s, attempts).timeLogs[t] == s.timeLogs[t] + TimeSpent(attempts, t)
    decreases |attempts|
  {
    if |attempts| > 0 {
      RunAccumulatesTime(cfg, Step(cfg, s, attempts[0]), attempts[1..], t);
    }
  }

  /** The outcome table has one row per iteration, each as long as the task list. */
  predicate Shaped<D>(tasks: seq<string>, table: seq<seq<Outcome<D>>>) {
    forall i :: 0 <= i < |table| ==> |table[i]| == |tasks|
  }

  /** The inner loop's attempts for iteration `i`. */
  function RowAttempts<D>(i: nat, tasks: seq<string>, row: seq<Outcome<D>>): (r: seq<Attempt<D>>)
    requires |row| == |tasks|
    ensures |r| == |tasks|
    ensures forall j :: 0 <= j < |tasks| ==> r[j] == Attempt(i, tasks[j], row[j])
  {
    seq(|tasks|, j requires 0 <= j < |tasks| => Attempt(i, tasks[j], row[j]))
  }

  /** All attempts in loop order: outer over the iteration, inner over the task. */
  function Attempts<D>(tasks: seq<string>, table: seq<seq<Outcome<D>>>): (r: seq<Attempt<D>>)
    requires Shaped(tasks, table)
    ensures forall a :: a in r ==> a.task in tasks && a.iteration < |table|
    decreases |table|
  {
    if |table| == 0 then []
    else
      var m := |table| - 1;
      Attempts(tasks, table[..m]) + RowAttempts(m, tasks, table[m])
  }

  /** Every attempt of the loop names a task that has a time total from the start. */
  lemma KnownTasks<D>(tasks: seq<string>, table: seq<seq<Outcome<D>>>)
    requires Shaped(tasks, table)
    ensures TasksKnown(Init(tasks), Attempts(tasks, table))
  {
    var att := Attempts(tasks, table);
    var s0: Bench<D> := Init(tasks);
    forall k | 0 <= k < |att| ensures att[k].task in s0.timeLogs {
      assert att[k] in att;
    }
  }

  /** There are as many attempts as iterations times tasks. */
  lemma {:induction false} AttemptsCount<D>(tasks: seq<string>, table: seq<seq<Outcome<D>>>)
    requires Shaped(tasks, table)
    ensures |Attempts(tasks, table)| == |table| * |tasks|
    decreases |table|
  {
    if |table| > 0 {
      var m := |table| - 1;
      assert Shaped(tasks, table[..m]);
      AttemptsCount(tasks, table[..m]);
      MulSucc(m, |tasks|);
    }
  }

  lemma MulSucc(m: nat, t: nat)
    ensures (m + 1) * t == m * t + t
  {
  }

  /** Attempt number `i * |tasks| + j` is iteration `i` with task `j`. */
  lemma {:induction false} AttemptAt<D>(tasks: seq<string>, table: seq<seq<Outcome<D>>>, i: nat, j: nat)
    requires Shaped(tasks, table)
    requires i < |table| && j < |tasks|
    ensures i * |tasks| + j < |Attempts(tasks, table)|
    ensures Attempts(tasks, table)[i * |tasks| + j] == Attempt(i, tasks[j], table[i][j])
    decreases |table|
  {
    var m := |table| - 1;
    var prefix := table[..m];
    assert Shaped(tasks, prefix);
    AttemptsCount(tasks, prefix);
    var pre := Attempts(tasks, prefix);
    var row := RowAttempts(m, tasks, table[m]);
    assert Attempts(tasks, table) == pre + row;
    if i < m {
      AttemptAt(tasks, prefix, i, j);
      assert prefix[i] == table[i];
    } else {
      assert i * |tasks| + j == |pre| + j;
      assert row[j] == Attempt(i, tasks[j], table[i][j]);
    }
  }

  /** Iteration indices never decrease along the attempts. */
  lemma {:induction false} AttemptsSorted<D>(tasks: seq<string>, table: seq<seq<Outcome<D>>>)
    requires Shaped(tasks, table)
    ensures forall k, l :: 0 <= k < l < |Attempts(tasks, table)| ==>
              Attempts(tasks, table)[k].iteration <= Attempts(tasks, table)[l].iteration
    decreases |table|
  {
    if |table| > 0 {
      var m := |table| - 1;
      assert Shaped(tasks, table[..m]);
      AttemptsSorted(tasks, table[..m]);
      var pre := Attempts(tasks, table[..m]);
      var row := RowAttempts(m, tasks, table[m]);
      var att := Attempts(tasks, table);
      assert att == pre + row;
      forall k, l | 0 <= k < l < |att| ensures att[k].iteration <= att[l].iteration {
        if l >= |pre| {
          assert att[l] == row[l - |pre|];
          if k < |pre| {
            assert att[k] in pre;
          }
        }
      }
    }
  }

  function IterationOf<D>(a: Attempt<D>): int { a.iteration }

  /** The state after the whole loop. */
  function Run<D>(cfg: Config, tasks: seq<string>, table: seq<seq<Outcome<D>>>): (s: Bench<D>)
    requires Shaped(tasks, table)
    ensures s.timeLogs.Keys == set t | t in tasks
  {
    RunAttempts(cfg, Init(tasks), Attempts(tasks, table))
  }

  /** Every attempt is counted once, either as an error or as a stored item,
      and the progress counter follows the items one for one. */
  lemma ErrorsPlusItems<D>(cfg: Config, tasks: seq<string>, table: seq<seq<Outcome<D>>>)
    requires Shaped(tasks, table)
    ensures Run(cfg, tasks, table).errorCount + |Run(cfg, tasks, table).items| == |table| * |tasks|
    ensures Run(cfg, tasks, table).progress == |Run(cfg, tasks, table).items|
  {
    AttemptsCount(tasks, table);
  }

  /** The items are those of the successful attempts in loop order, and the
      token count at each position belongs to the item at that position. */
  lemma ItemsAndTokenCountsAligned<D>(cfg: Config, tasks: seq<string>, table: seq<seq<Outcome<D>>>)
    requires Shaped(tasks, table)
    ensures Run(cfg, tasks, table).items == ItemsOf(cfg, Filter(Attempts(tasks, table), IsGenerated))
    ensures Run(cfg, tasks, table).tokenCounts == TokenCountsOf(Filter(Attempts(tasks, table), IsGenerated))
    ensures |Run(cfg, tasks, table).tokenCounts| == |Run(cfg, tasks, table).items|
  {
    var s0: Bench<D> := Init(tasks);
    RunStoresItems(cfg, s0, Attempts(tasks, table));
    RunRecordsTokenCounts(cfg, s0, Attempts(tasks, table));
  }

  /** The context lengths outnumber the items by exactly the attempts that
      failed while encoding. */
  lemma ContextLengthsExcess<D>(cfg: Config, tasks: seq<string>, table: seq<seq<Outcome<D>>>)
    requires Shaped(tasks, table)
    ensures |Run(cfg, tasks, table).contextLengths|
              == |Run(cfg, tasks, table).items| + |Filter(Attempts(tasks, table), IsEncodeFailure)|
  {
    var att := Attempts(tasks, table);
    var s0: Bench<D> := Init(tasks);
    RunStoresItems(cfg, s0, att);
    RunRecordsContextLengths(cfg, s0, att);
    var me := Filter(att, IsMeasured);
    FilterPartition(me, IsEncodeFailure, IsGenerated);
    FilterOfSubset(att, IsMeasured, IsEncodeFailure);
    FilterOfSubset(att, IsMeasured, IsGenerated);
  }

  /** Every item carries its iteration, its task and the run's arguments, and
      item ids never decrease. */
  lemma ItemsTaggedInOrder<D>(cfg: Config, tasks: seq<string>, table: seq<seq<Outcome<D>>>)
    requires Shaped(tasks, table)
    ensures forall it :: it in Run(cfg, tasks, table).items ==>
              it.task in tasks && it.id < |table| && it.modelId == cfg.modelName
              && it.maxCharacters == cfg.maxCharacters
    ensures forall k, l :: 0 <= k < l < |Run(cfg, tasks, table).items| ==>
              Run(cfg, tasks, table).items[k].id <= Run(cfg, tasks, table).items[l].id
  {
    var att := Attempts(tasks, table);
    var s := Run(cfg, tasks, table);
    var gen := Filter(att, IsGenerated);
    ItemsAndTokenCountsAligned(cfg, tasks, table);
    AttemptsSorted(tasks, table);
    FilterKeepsOrder(att, IsGenerated, IterationOf);
    FilterMembers(att, IsGenerated);
    forall it | it in s.items
      ensures it.task in tasks && it.id < |table| && it.modelId == cfg.modelName
              && it.maxCharacters == cfg.maxCharacters
    {
      var k :| 0 <= k < |s.items| && s.items[k] == it;
      assert gen[k] in att;
    }
    forall k, l | 0 <= k < l < |s.items| ensures s.items[k].id <= s.items[l].id {
      assert IterationOf(gen[k]) <= IterationOf(gen[l]);
    }
  }

  /** Each task's time total sums exactly the durations of its attempts that
      got past generation, including those that failed later. */
  lemma TimeLogsSumTaskDurations<D>(cfg: Config, tasks: seq<string>, table: seq<seq<Outcome<D>>>, t: string)
    requires Shaped(tasks, table)
    requires t in tasks
    ensures Run(cfg, tasks, table).timeLogs[t] == TimeSpent(Attempts(tasks, table), t)
  {
    var s0: Bench<D> := Init(tasks);
    RunAccumulatesTime(cfg, s0, Attempts(tasks, table), t);
  }

  /** Why the summary cannot be computed. */
  datatype BenchError = ZeroDivisionError

  datatype Result<T> = Ok(value: T) | Err(error: BenchError)

  /** The summary returned by the benchmark (the mean and standard deviation
      figures are not part of this model). */
  datatype Summary = Summary(errorCount: nat, errorRate: real, avgTimePerTask: map<string, real>)

  /** The average time per task and the error rate. The average divides by the
      iteration count whenever there is a task; the error rate divides by the
      number of attempts. Either division by zero raises. */
  function Summarize<D>(n: int, tasks: seq<string>, s: Bench<D>): (r: Result<Summary>)
    requires s.timeLogs.Keys == set t | t in tasks
    ensures r.Err? <==> n == 0 || |tasks| == 0
    ensures r.Ok? ==> r.value.errorCount == s.errorCount
    ensures r.Ok? ==> r.value.errorRate * (n * |tasks|) as real == s.errorCount as real
    ensures r.Ok? ==> r.value.avgTimePerTask.Keys == s.timeLogs.Keys
    ensures r.Ok? ==> forall t :: t in r.value.avgTimePerTask ==>
              r.value.avgTimePerTask[t] * n as real == s.timeLogs[t] as real
  {
    assert |tasks| > 0 ==> tasks[0] in s.timeLogs;
    if n == 0 && s.timeLogs != map[] then Err(ZeroDivisionError)
    else if n * |tasks| == 0 then Err(ZeroDivisionError)
    else
      var total := (n * |tasks|) as real;
      Ok(Summary(
        s.errorCount,
        s.errorCount as real / total,
        map t | t in s.timeLogs :: s.timeLogs[t] as real / n as real))
  }

  /** With at least one iteration and one task, the error rate is the number of
      errors over the number of attempts, and lies between zero and one. */
  lemma ErrorRateBounds<D>(n: int, cfg: Config, tasks: seq<string>, table: seq<seq<Outcome<D>>>)
    requires n >= 1 && |tasks| >= 1
    requires |table| == n && Shaped(tasks, table)
    ensures Summarize(n, tasks, Run(cfg, tasks, table)).Ok?
    ensures Summarize(n, tasks, Run(cfg, tasks, table)).value.errorRate
              == Run(cfg, tasks, table).errorCount as real / (n * |tasks|) as real
    ensures 0.0 <= Summarize(n, tasks, Run(cfg, tasks, table)).value.errorRate <= 1.0
  {
    ErrorsPlusItems(cfg, tasks, table);
    SummaryOfBoundedErrors(n, tasks, Run(cfg, tasks, table));
  }

  /** The summary of any state with no more errors than attempts. */
  lemma SummaryOfBoundedErrors<D>(n: int, tasks: seq<string>, s: Bench<D>)
    requires n >= 1 && |tasks| >= 1
    requires s.timeLogs.Keys == set t | t in tasks
    requires s.errorCount <= n * |tasks|
    ensures Summarize(n, tasks, s).Ok?
    ensures Summarize(n, tasks, s).value.errorRate == s.errorCount as real / (n * |tasks|) as real
    ensures 0.0 <= Summarize(n, tasks, s).value.errorRate <= 1.0
  {
    var total := n * |tasks|;
    MulPositive(n, |tasks|);
    var r := Summarize(n, tasks, s);
    assert r.Ok?;
    var rate := r.value.errorRate;
    assert rate * total as real == s.errorCount as real;
    QuotientOfBoundedCount(s.errorCount, total, rate);
  }

  lemma MulPositive(a: int, b: int)
    requires a >= 1 && b >= 1
    ensures a * b >= 1
  {
  }

  /** A ratio whose numerator is at most its positive denominator is a
      fraction between zero and one. */
  lemma QuotientOfBoundedCount(count: nat, total: int, q: real)
    requires 1 <= total && count <= total
    requires q * total as real == count as real
    ensures q == count as real / total as real
    ensures 0.0 <= q <= 1.0
  {
  }

  /** With a negative iteration count the loop never runs, and the summary
      reports no errors and a zero average for every task. */
  lemma NegativeIterations<D>(n: int, cfg: Config, tasks: seq<string>, table: seq<seq<Outcome<D>>>)
    requires n < 0 && |tasks| >= 1
    requires |table| == 0
    ensures Summarize(n, tasks, Run(cfg, tasks, table)).Ok?
    ensures Summarize(n, tasks, Run(cfg, tasks, table)).value.errorRate == 0.0
    ensures forall t :: t in tasks ==> Summarize(n, tasks, Run(cfg, tasks, table)).value.avgTimePerTask[t] == 0.0
  {
    var s := Run(cfg, tasks, table);
    assert Attempts(tasks, table) == [];
    forall t | t in tasks ensures s.timeLogs[t] == 0 {
      TimeLogsSumTaskDurations(cfg, tasks, table, t);
    }
  }

  /** A run of three iterations over the one enabled task, where the middle
      attempt fails during generation and the other two store contexts of 100
      and 300 characters: one error, two items with ids 0 and 2, and an error
      rate of one third. */
  lemma ThreeIterationScenario<D>(cfg: Config, d0: D, d2: D)
    ensures var s := Run(cfg, Tasks, ScenarioTable(d0, d2));
            && s.errorCount == 1
            && |s.items| == 2 && s.items[0].id == 0 && s.items[1].id == 2
            && s.contextLengths == [100, 300]
            && s.tokenCounts == [20, 60]
            && s.timeLogs[Tasks[0]] == 12
            && Summarize(3, Tasks, s) == Ok(Summary(1, 1.0 / 3.0, map[Tasks[0] := 4.0]))
  {
    ScenarioRun(cfg, d0, d2);
    var s := Run(cfg, Tasks, ScenarioTable(d0, d2));
    assert Summarize(3, Tasks, s).value.avgTimePerTask == map[Tasks[0] := 4.0];
  }

  function ScenarioTable<D>(d0: D, d2: D): seq<seq<Outcome<D>>> {
    [[Generated(5, 100, 20, d0)], [GenerationFailed], [Generated(7, 300, 60, d2)]]
  }

  lemma ScenarioRun<D>(cfg: Config, d0: D, d2: D)
    ensures Run(cfg, Tasks, ScenarioTable(d0, d2)) == ScenarioState(cfg, d0, d2, 3)
  {
    var table := ScenarioTable(d0, d2);
    var a0 := Attempt(0, Tasks[0], table[0][0]);
    var a1 := Attempt(1, Tasks[0], table[1][0]);
    var a2 := Attempt(2, Tasks[0], table[2][0]);
    ScenarioAttempts(d0, d2);
    var s0: Bench<D> := Init(Tasks);
    ScenarioInit<D>();
    ScenarioFirstStep(cfg, d0, d2);
    ScenarioLaterSteps(cfg, d0, d2);
    assert [a0, a1, a2][1..] == [a1, a2] && [a1, a2][1..] == [a2] && [a2][1..] == [];
    assert RunAttempts(cfg, ScenarioState(cfg, d0, d2, 2), [a2]) == ScenarioState(cfg, d0, d2, 3);
    assert RunAttempts(cfg, ScenarioState(cfg, d0, d2, 1), [a1, a2]) == ScenarioState(cfg, d0, d2, 3);
  }

  /** The state of the scenario after its first `k` attempts. */
  function ScenarioState<D>(cfg: Config, d0: D, d2: D, k: nat): Bench<D> {
    var i0 := Item(Tasks[0], 0, d0, cfg.modelName, cfg.maxCharacters);
    var i2 := Item(Tasks[0], 2, d2, cfg.modelName, cfg.maxCharacters);
    if k == 0 then Bench(map[Tasks[0] := 0], 0, [], [], [], 0)
    else if k == 1 then Bench(map[Tasks[0] := 5], 0, [i0], [100], [20], 1)
    else if k == 2 then Bench(map[Tasks[0] := 5], 1, [i0], [100], [20], 1)
    else Bench(map[Tasks[0] := 12], 1, [i0, i2], [100, 300], [20, 60], 2)
  }

  lemma ScenarioInit<D>()
    ensures Init<D>(Tasks) == Bench(map[Tasks[0] := 0], 0, [], [], [], 0)
  {
    assert Init<D>(Tasks).timeLogs.Keys == {Tasks[0]};
  }

  lemma ScenarioFirstStep<D>(cfg: Config, d0: D, d2: D)
    ensures Step(cfg, ScenarioState(cfg, d0, d2, 0), Attempt(0, Tasks[0], ScenarioTable(d0, d2)[0][0]))
            == ScenarioState(cfg, d0, d2, 1)
  {
  }

  lemma ScenarioLaterSteps<D>(cfg: Config, d0: D, d2: D)
    ensures Step(cfg, ScenarioState(cfg, d0, d2, 1), Attempt(1, Tasks[0], ScenarioTable(d0, d2)[1][0]))
            == ScenarioState(cfg, d0, d2, 2)
    ensures Step(cfg, ScenarioState(cfg, d0, d2, 2), Attempt(2, Tasks[0], ScenarioTable(d0, d2)[2][0]))
            == ScenarioState(cfg, d0, d2, 3)
  {
  }

  lemma ScenarioAttempts<D>(d0: D, d2: D)
    ensures var table := ScenarioTable(d0, d2);
            Attempts(Tasks, table)
              == [Attempt(0, Tasks[0], table[0][0]), Attempt(1, Tasks[0], table[1][0]), Attempt(2, Tasks[0], table[2][0])]
  {
    var table := ScenarioTable(d0, d2);
    AttemptsCount(Tasks, table);
    AttemptAt(Tasks, table, 0, 0);
    AttemptAt(Tasks, table, 1, 0);
    AttemptAt(Tasks, table, 2, 0);
  }
}
