/** `src/lib/run_every.c`: the timing loop that calls a tick function and supplies its time step. */
module RunEvery {
  /** What one iteration sees: the clock at its start, the clock after the call, and whether the call wants more. */
  datatype Iteration = Iteration(start: int, end: int, again: bool)

  /** How long the loop asks to sleep; a request of zero or less does not sleep at all. */
  function SleepTime(intervalMs: int, it: Iteration): int {
    intervalMs - (it.end - it.start)
  }

  function Positive(ms: int): nat {
    if ms > 0 then ms else 0
  }

  /** The clock never goes back, and a sleep lasts at least as long as asked. */
  predicate IsSchedule(intervalMs: int, first: int, schedule: seq<Iteration>) {
    && (schedule != [] ==> first <= schedule[0].start)
    && (forall k :: 0 <= k < |schedule| ==> schedule[k].start <= schedule[k].end)
    && (forall k :: 0 <= k < |schedule| - 1 ==>
        schedule[k].end + Positive(SleepTime(intervalMs, schedule[k])) <= schedule[k + 1].start)
  }

  /** The iterations that are run: up to the first one that does not want more. */
  function Executed(schedule: seq<Iteration>): nat {
    if schedule == [] then 0 else if schedule[0].again then 1 + Executed(schedule[1..]) else 1
  }

  lemma {:induction false} ExecutedIsFirstStop(schedule: seq<Iteration>, n: nat)
    requires n <= |schedule| && (forall k :: 0 <= k < n - 1 ==> schedule[k].again)
    requires n == |schedule| || (n > 0 && !schedule[n - 1].again)
    ensures Executed(schedule) == n
  {
    if n > 1 || (n == 1 && schedule[0].again) {
      ExecutedIsFirstStop(schedule[1..], n - 1);
    }
  }

  /** The time step of the `k`-th call: since the call before, and for the first as if there had been one an interval
      before the loop. */
  function Step(intervalMs: int, first: int, schedule: seq<Iteration>, k: nat): int
    requires k < |schedule|
  {
    if k == 0 then schedule[0].start - first + intervalMs else schedule[k].start - schedule[k - 1].start
  }

  /** A step is never shorter than the interval: after the first it is the work, the rest of the interval if there
      is any, and what was slept too long. */
  lemma StepIsLongEnough(intervalMs: int, first: int, schedule: seq<Iteration>, k: nat) returns (overslept: nat)
    requires IsSchedule(intervalMs, first, schedule) && k < |schedule|
    ensures Step(intervalMs, first, schedule, k) >= intervalMs
    ensures k > 0 ==>
              var before := schedule[k - 1];
              Step(intervalMs, first, schedule, k)
                == (before.end - before.start) + Positive(SleepTime(intervalMs, before)) + overslept
  {
    overslept := 0;
    if k > 0 {
      var before := schedule[k - 1];
      var j := k - 1;
      assert schedule[j].end + Positive(SleepTime(intervalMs, schedule[j])) <= schedule[j + 1].start;
      overslept := schedule[k].start - (before.end + Positive(SleepTime(intervalMs, before)));
    }
  }

  function Elapsed(intervalMs: int, first: int, schedule: seq<Iteration>, n: nat): int
    requires n <= |schedule|
  {
    if n == 0 then 0 else Elapsed(intervalMs, first, schedule, n - 1) + Step(intervalMs, first, schedule, n - 1)
  }

  /** No time is lost or counted twice: the steps add up to the time from one interval before the loop to the last
      start. */
  lemma {:induction false} StepsAddUp(intervalMs: int, first: int, schedule: seq<Iteration>, n: nat)
    requires 0 < n <= |schedule|
    ensures Elapsed(intervalMs, first, schedule, n) == schedule[n - 1].start - (first - intervalMs)
  {
    if n == 1 {
      assert Elapsed(intervalMs, first, schedule, 0) == 0;
    } else {
      StepsAddUp(intervalMs, first, schedule, n - 1);
    }
  }

  /** `run_every`. `first` is the reading before the loop; the result lists the time steps handed to the calls. */
  method RunAtIntervals(intervalMs: int, first: int, schedule: seq<Iteration>) returns (deltas: seq<int>)
    ensures |deltas| == Executed(schedule) <= |schedule|
    ensures forall k :: 0 <= k < |deltas| ==> deltas[k] == Step(intervalMs, first, schedule, k)
  {
    var last := first - intervalMs;
    var run := true;
    deltas := [];
    while run && |deltas| < |schedule|
      invariant |deltas| <= |schedule|
      invariant last == if deltas == [] then first - intervalMs else schedule[|deltas| - 1].start
      invariant forall k :: 0 <= k < |deltas| - 1 ==> schedule[k].again
      invariant run || (deltas != [] && !schedule[|deltas| - 1].again)
      invariant run && deltas != [] ==> schedule[|deltas| - 1].again
      invariant forall k :: 0 <= k < |deltas| ==> deltas[k] == Step(intervalMs, first, schedule, k)
      decreases |schedule| - |deltas|
    {
      var it := schedule[|deltas|];
      var start := it.start;
      var deltaTime := start - last;
      deltas := deltas + [deltaTime];
      run := it.again;
      last := start;
    }
    ExecutedIsFirstStop(schedule, |deltas|);
  }
}
