/** The registry of test runs: the ones in flight, up to a cap, and the finished ones that
    somebody may still come back for. */
module TestRuns {
  import opened LogSinks

  const MAX_CONCURRENT_TEST_RUNS: nat := 3
  const TEST_RUN_RETENTION: int := 300

  class TestRunRegistry {
    const limitBytes: int
    var runs: map<string, TestRun>

    ghost function RunningIds(): set<string>
      reads this, runs.Values
    {
      set id | id in runs && !runs[id].finished
    }

    predicate IsExpired(id: string, now: int)
      reads this, runs.Values
      requires id in runs
    {
      runs[id].finished && now - runs[id].finishedAt > TEST_RUN_RETENTION
    }

    /** Each run is registered once, and no more are in flight than the cap allows. */
    ghost predicate Valid()
      reads this, runs.Values
    {
      && |RunningIds()| <= MAX_CONCURRENT_TEST_RUNS
      && forall a, b :: a in runs && b in runs && runs[a] == runs[b] ==> a == b
    }

    constructor (limitBytes: int)
      ensures Valid() && runs == map[] && this.limitBytes == limitBytes
    {
      this.limitBytes := limitBytes;
      runs := map[];
    }

    method CountRunning() returns (n: nat)
      ensures n == |RunningIds()|
    {
      n := 0;
      var rest := runs.Keys;
      ghost var seen := {};
      while rest != {}
        invariant rest <= runs.Keys
        invariant seen == (set id | id in runs && id !in rest && !runs[id].finished) && n == |seen|
        decreases |rest|
      {
        var id :| id in rest;
        if !runs[id].finished {
          n := n + 1;
          seen := seen + {id};
        }
        rest := rest - {id};
      }
      assert seen == RunningIds();
    }

    /** start: refuses exactly when the cap is taken. Finished runs do not count. */
    method Start(id: string, now: int) returns (run: TestRun?)
      requires Valid()
      modifies this`runs
      ensures Valid()
      ensures run == null <==> |old(RunningIds())| >= MAX_CONCURRENT_TEST_RUNS
      ensures run == null ==> runs == old(runs)
      ensures run != null ==> fresh(run) && runs == old(runs)[id := run] && RunningIds() == old(RunningIds()) + {id}
    {
      var inFlight := CountRunning();
      if inFlight >= MAX_CONCURRENT_TEST_RUNS {
        return null;
      }
      run := new TestRun(limitBytes, now);
      runs := runs[id := run];
      assert RunningIds() == old(RunningIds()) + {id};
    }

    /** The loop that looks for it. */
    method OldestRunning() returns (oldest: TestRun?, ghost oldestId: string)
      ensures oldest == null <==> RunningIds() == {}
      ensures oldest != null ==>
        && oldestId in RunningIds() && runs[oldestId] == oldest
        && forall o :: o in RunningIds() ==> oldest.startedAt <= runs[o].startedAt
    {
      oldest, oldestId := null, "";
      var rest := runs.Keys;
      while rest != {}
        invariant rest <= runs.Keys
        invariant oldest == null ==> forall id :: id in runs && id !in rest ==> runs[id].finished
        invariant oldest != null ==>
          && oldestId in runs && runs[oldestId] == oldest && !oldest.finished
          && forall id :: id in runs && id !in rest && !runs[id].finished ==> oldest.startedAt <= runs[id].startedAt
        decreases |rest|
      {
        var id :| id in rest;
        rest := rest - {id};
        var run := runs[id];
        if run.finished {
          continue;
        }
        if oldest == null || run.startedAt < oldest.startedAt {
          oldest := run;
          oldestId := id;
        }
      }
      assert oldest != null ==> oldestId in RunningIds();
    }

    /** cancelOldestRunning: of the runs in flight, one that started first is asked to stop.
        `early` and `late` say that this one finishes before it is asked, or after it was
        found running and before its switch is closed; the answer is the same. */
    method CancelOldestRunning(early: bool, late: bool, outcome: RunStatus, now: int) returns (ok: bool)
      requires Valid()
      modifies runs.Values`cancelClosed, runs.Values`status, runs.Values`finished, runs.Values`finishedAt
      ensures Valid()
      ensures ok <==> old(RunningIds()) != {}
      ensures !ok ==> forall id :: id in runs ==>
                runs[id].cancelClosed == old(runs[id].cancelClosed) && runs[id].finished == old(runs[id].finished)
      ensures ok ==> exists id ::
        && id in old(RunningIds())
        && runs[id].cancelClosed == (old(runs[id].cancelClosed) || !early) && runs[id].finished == (early || late)
        && (forall o :: o in old(RunningIds()) ==> runs[id].startedAt <= runs[o].startedAt)
        && (forall o :: o in runs && o != id ==>
              runs[o].cancelClosed == old(runs[o].cancelClosed) && runs[o].finished == old(runs[o].finished))
    {
      var oldest, oldestId := OldestRunning();
      if oldest == null {
        return false;
      }
      assert oldest in runs.Values;
      ghost var before := RunningIds();
      Ask(oldest, early, late, outcome, now);
      assert RunningIds() == if early || late then before - {oldestId} else before;
      return true;
    }

    /** Asks a run that was running when it was chosen. */
    static method Ask(run: TestRun, early: bool, late: bool, outcome: RunStatus, now: int)
      requires !run.finished
      modifies run`cancelClosed, run`status, run`finished, run`finishedAt
      ensures run.cancelClosed == (old(run.cancelClosed) || !early) && run.finished == (early || late)
    {
      if early {
        run.Finish(outcome, now);
      }
      var stoppable := run.RequestCancel(late, outcome, now);
    }

    /** sweep: exactly the runs that finished long enough ago are dropped, and none in flight. */
    method Sweep(now: int) returns (removed: nat)
      requires Valid()
      modifies this`runs
      ensures Valid() && RunningIds() == old(RunningIds())
      ensures runs == map id | id in old(runs) && !old(IsExpired(id, now)) :: old(runs)[id]
      ensures removed == |old(runs)| - |runs|
    {
      removed := 0;
      var rest := runs.Keys;
      while rest != {}
        invariant rest <= runs.Keys <= old(runs).Keys
        invariant forall id :: id in runs ==> runs[id] == old(runs)[id]
        invariant forall id :: id in old(runs) && id !in rest ==> (id in runs <==> !old(IsExpired(id, now)))
        invariant removed == |old(runs)| - |runs|
        decreases |rest|
      {
        var id :| id in rest;
        if IsExpired(id, now) {
          runs := runs - {id};
          removed := removed + 1;
        }
        rest := rest - {id};
      }
      assert RunningIds() == old(RunningIds());
    }
  }
}
