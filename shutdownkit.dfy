/** src/shutdownkit.js: the process-wide list of jobs run once, newest
    first, before the process exits. */
module Shutdown {
  import opened Js

  /** `s` in reverse order (what `Array.prototype.reverse` leaves). */
  function Reverse<T>(s: seq<T>): (r: seq<T>)
    ensures |r| == |s|
    ensures forall i | 0 <= i < |s| :: r[i] == s[|s| - 1 - i]
  {
    if s == [] then [] else Reverse(s[1..]) + [s[0]]
  }

  lemma ReverseReverse<T>(s: seq<T>)
    ensures Reverse(Reverse(s)) == s
  {
    assert forall i | 0 <= i < |s| :: Reverse(Reverse(s))[i] == s[i];
  }

  /** The jobs `async.series(jobs, cb)` starts: one at a time, in order,
      stopping after the first one that fails. */
  function Series(jobs: seq<Callable>, failing: set<Callable>): (run: seq<Callable>)
    ensures |run| <= |jobs|
  {
    if jobs == [] then []
    else if jobs[0] in failing then [jobs[0]]
    else [jobs[0]] + Series(jobs[1..], failing)
  }

  /** The series runs a prefix of the jobs: every job before the last one
      run succeeded, and it stops early only at a failing job; with no
      failure it runs them all. */
  lemma {:induction false} SeriesStopsAtFirstFailure(jobs: seq<Callable>, failing: set<Callable>)
    ensures var run := Series(jobs, failing);
      && |run| <= |jobs| && run == jobs[..|run|]
      && (forall i | 0 <= i < |run| - 1 :: run[i] !in failing)
      && (|run| < |jobs| ==> |run| > 0 && run[|run| - 1] in failing)
      && ((forall j | j in jobs :: j !in failing) ==> run == jobs)
  {
    if jobs != [] && jobs[0] !in failing {
      SeriesStopsAtFirstFailure(jobs[1..], failing);
      var rest := Series(jobs[1..], failing);
      assert Series(jobs, failing) == [jobs[0]] + rest;
      assert jobs == [jobs[0]] + jobs[1..];
      assert (forall j | j in jobs :: j !in failing) ==> (forall j | j in jobs[1..] :: j !in failing);
    }
  }

  class ShutdownKit {
    var jobs: seq<Callable>
    var isShuttingDown: bool
    /** The jobs started so far, in order. */
    var ran: seq<Callable>
    /** How many times `exit_` ran. */
    var exits: nat

    /** `new ShutdownKit()`: no jobs, not shutting down. */
    constructor ()
      ensures jobs == [] && !isShuttingDown && ran == [] && exits == 0
    {
      jobs, isShuttingDown, ran, exits := [], false, [], 0;
    }

    /** `addJob(job)`: appends. */
    method AddJob(job: Callable)
      modifies this
      ensures jobs == old(jobs) + [job]
      ensures isShuttingDown == old(isShuttingDown) && ran == old(ran) && exits == old(exits)
    {
      jobs := jobs + [job];
    }

    /** `gracefulShutdown()`; the jobs in `failing` call back with an error,
        the others succeed. A second call does nothing; the first sets the
        flag, reverses `jobs_` in place, runs the series and exits once
        whatever the series reports. */
    method GracefulShutdown(failing: set<Callable>)
      modifies this
      ensures old(isShuttingDown) ==>
        jobs == old(jobs) && isShuttingDown && ran == old(ran) && exits == old(exits)
      ensures !old(isShuttingDown) ==>
        && isShuttingDown
        && jobs == Reverse(old(jobs))
        && ran == old(ran) + Series(Reverse(old(jobs)), failing)
        && exits == old(exits) + 1
    {
      if isShuttingDown {
        return;
      }
      isShuttingDown := true;
      jobs := Reverse(jobs);
      var series := RunSeries(jobs, failing);
      ran := ran + series;
      exits := exits + 1;
    }
  }

  lemma SeriesFrom(jobs: seq<Callable>, i: nat, failing: set<Callable>)
    requires i < |jobs|
    ensures Series(jobs[i..], failing) ==
      if jobs[i] in failing then [jobs[i]] else [jobs[i]] + Series(jobs[i + 1..], failing)
  {
    assert jobs[i..][1..] == jobs[i + 1..];
  }

  /** The loop `async.series` performs over `tasks`. */
  method RunSeries(tasks: seq<Callable>, failing: set<Callable>) returns (run: seq<Callable>)
    ensures run == Series(tasks, failing)
  {
    run := [];
    var i := 0;
    while i < |tasks|
      invariant 0 <= i <= |tasks|
      invariant run == tasks[..i]
      invariant Series(tasks, failing) == run + Series(tasks[i..], failing)
      decreases |tasks| - i
    {
      SeriesFrom(tasks, i, failing);
      run := run + [tasks[i]];
      if tasks[i] in failing {
        return;
      }
      i := i + 1;
    }
    assert tasks[i..] == [];
  }

  /** Shutdown runs the job added last first: with a successful series the
      jobs run in exactly the reverse of the order they were added. */
  lemma NewestJobFirst(jobs: seq<Callable>, failing: set<Callable>)
    requires jobs != [] && forall j | j in jobs :: j !in failing
    ensures Series(Reverse(jobs), failing)[0] == jobs[|jobs| - 1]
    ensures Reverse(Series(Reverse(jobs), failing)) == jobs
  {
    ReverseReverse(jobs);
    SeriesStopsAtFirstFailure(Reverse(jobs), failing);
    assert forall j | j in Reverse(jobs) :: j !in failing by {
      forall j | j in Reverse(jobs) ensures j !in failing {
        var i :| 0 <= i < |jobs| && Reverse(jobs)[i] == j;
        assert jobs[|jobs| - 1 - i] == j;
      }
    }
  }
}
