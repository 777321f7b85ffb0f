/** The benchmark loop written as the harness writes it: an outer loop over
    the iterations, an inner loop over the tasks, one guarded step per attempt,
    and the summary computed once the loop is done. */
module BenchmarkLoop {
  import opened Seqs
  import opened Benchmark

  /** The inner loop for iteration `i`: one attempt per task, in task order. */
  method RunIteration<D>(cfg: Config, s0: Bench<D>, ghost done: seq<Attempt<D>>, s: Bench<D>,
                         i: nat, tasks: seq<string>, row: seq<Outcome<D>>)
    returns (r: Bench<D>)
    requires |row| == |tasks|
    requires TasksKnown(s0, done + RowAttempts(i, tasks, row))
    requires TasksKnown(s0, done) && s == RunAttempts(cfg, s0, done)
    ensures r == RunAttempts(cfg, s0, done + RowAttempts(i, tasks, row))
  {
    ghost var attempts := RowAttempts(i, tasks, row);
    r := s;
    var j := 0;
    assert done + attempts[..0] == done;
    while j < |tasks|
      invariant 0 <= j <= |tasks|
      invariant TasksKnown(s0, done + attempts[..j])
      invariant r == RunAttempts(cfg, s0, done + attempts[..j])
    {
      KnownPrefix(s0, done, attempts, j);
      RunAttemptsSnoc(cfg, s0, done + attempts[..j], attempts[j]);
      r := Step(cfg, r, Attempt(i, tasks[j], row[j]));
      j := j + 1;
    }
    assert attempts[..|tasks|] == attempts;
  }

  /** Extending a prefix of the attempts by the next one keeps every task known. */
  lemma KnownPrefix<D>(s0: Bench<D>, done: seq<Attempt<D>>, attempts: seq<Attempt<D>>, j: nat)
    requires TasksKnown(s0, done + attempts) && j < |attempts|
    ensures (done + attempts[..j]) + [attempts[j]] == done + attempts[..j + 1]
    ensures TasksKnown(s0, done + attempts[..j + 1])
  {
    assert attempts[..j + 1] == attempts[..j] + [attempts[j]];
    var longer := done + attempts[..j + 1];
    forall k | 0 <= k < |longer| ensures longer[k].task in s0.timeLogs {
      assert longer[k] == (done + attempts)[k];
    }
  }

  /** The outer loop: one inner loop per iteration, in iteration order. */
  method RunIterations<D>(cfg: Config, tasks: seq<string>, table: seq<seq<Outcome<D>>>)
    returns (s: Bench<D>)
    requires Shaped(tasks, table)
    ensures s == Run(cfg, tasks, table)
  {
    var init: Bench<D> := Init(tasks);
    s := init;
    var i := 0;
    while i < |table|
      invariant 0 <= i <= |table|
      invariant Shaped(tasks, table[..i])
      invariant s == Run(cfg, tasks, table[..i])
    {
      assert table[..i + 1][..i] == table[..i];
      assert Shaped(tasks, table[..i + 1]);
      ghost var done := Attempts(tasks, table[..i]);
      assert Attempts(tasks, table[..i + 1]) == done + RowAttempts(i, tasks, table[i]);
      KnownTasks(tasks, table[..i + 1]);
      KnownTasks(tasks, table[..i]);
      s := RunIteration(cfg, init, done, s, i, tasks, table[i]);
      i := i + 1;
    }
    assert table[..i] == table;
  }

  /** Runs the benchmark over the oracle table and summarises it. The table
      has a row per iteration; a negative iteration count runs no iteration. */
  method BenchmarkChallenger<D>(n: int, cfg: Config, tasks: seq<string>, table: seq<seq<Outcome<D>>>)
    returns (s: Bench<D>, summary: Result<Summary>)
    requires |table| == (if n < 0 then 0 else n)
    requires Shaped(tasks, table)
    ensures s == Run(cfg, tasks, table)
    ensures s.errorCount + |s.items| == |table| * |tasks|
    ensures s.progress == |s.items| && |s.tokenCounts| == |s.items|
    ensures s.items == ItemsOf(cfg, Filter(Attempts(tasks, table), IsGenerated))
    ensures summary == Summarize(n, tasks, s)
    ensures summary.Err? <==> n == 0 || |tasks| == 0
    ensures summary.Ok? ==> summary.value.errorCount == s.errorCount
    ensures n >= 1 && |tasks| >= 1 ==>
              summary.Ok? && summary.value.errorRate == s.errorCount as real / (n * |tasks|) as real
              && 0.0 <= summary.value.errorRate <= 1.0
  {
    s := RunIterations(cfg, tasks, table);
    ErrorsPlusItems(cfg, tasks, table);
    ItemsAndTokenCountsAligned(cfg, tasks, table);
    summary := Summarize(n, tasks, s);
    if n >= 1 && |tasks| >= 1 {
      ErrorRateBounds(n, cfg, tasks, table);
    }
  }
}
