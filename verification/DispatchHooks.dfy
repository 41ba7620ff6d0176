/** When an abandonment hook runs relative to the validity check of the same job. */
module DispatchHooks {
  import opened Coalesce
  import opened Dispatch
  import opened DispatchSafety
  import opened DispatchStop
  import opened DispatchHookOrder
  import opened DispatchTheorems

  /** A resolver is about to ask a job that was never attempted whether it is still valid. */
  predicate Checks(s: System, t: nat, j: Job) {
    t < |s.threads| && s.threads[t] != [] && s.threads[t][0] == Recheck(j)
  }

  /** The check comes before the hook exactly while the stop still has that hook on its list: noted
      under the lock, not yet run. */
  lemma CheckFirstIffPledged(states: seq<System>, k: nat, t: nat, j: Job)
    requires Run(states) && k < |states| && Checks(states[k], t, j)
    ensures |states[k].threads| >= 2
    ensures j !in states[k].sh.hooked <==> Pledged(states[k].threads[STOPPER], j)
  {
    hide Run, FullInv, StopSide, ChecksLate;
    RunHooks(states, k);
    var s := states[k];
    CheckedJob(s, t, j);
    if Pledged(s.threads[STOPPER], j) {
      PledgedLeavesWorker(s, t, j);
      assert WorkSide(s.sh, s.threads[WORKER], s.threads[STOPPER]);
    }
  }

  lemma CheckedJob(s: System, t: nat, j: Job)
    requires HookInv(s) && Checks(s, t, j)
    ensures s.sh.stopping && j in s.sh.accepted && j !in s.sh.attempted && HookCover(s.sh, s.threads[STOPPER])
    ensures |s.threads| >= 2
  {
    hide Duty, Classes, Pooled, Claimed, LoopInv, Total, StopSide, WorkSide;
    assert OkOps(s.sh, s.threads[t]) && Recheck(j) in s.threads[t];
    assert s.threads[t][0].Recheck?;
  }

  /** While the first stop runs its hooks nobody but the worker can be at a check. */
  lemma PledgedLeavesWorker(s: System, t: nat, j: Job)
    requires HookInv(s) && Checks(s, t, j) && Pledged(s.threads[STOPPER], j)
    ensures t == WORKER
  {
    hide Inv, Duty, StopInv, LoopAtEnd, ChecksLate, WorkSide;
    assert InClass(t, s.threads[t][0]);
    assert ResolversDone(s.threads);
  }

  /** So once the beginning of a stop has returned, the hook has run before every check. */
  lemma HookBeforeCheck(states: seq<System>, k: nat, t: nat, j: Job)
    requires Run(states) && k < |states| && Checks(states[k], t, j) && StopReturned(states[k])
    ensures j in states[k].sh.hooked
  {
    hide Run, Checks;
    CheckFirstIffPledged(states, k, t, j);
    assert Rank(Hook(j, None)) == 0;
  }

  // ---------- a run in which the check comes first ----------

  function Queued(j: Job): Shared {
    Fresh(1).(started := true, queue := [j], pending := 1, pendingJobs := {j}, idleClosed := false, accepted := {j})
  }

  function Snapped(j: Job): Shared {
    Queued(j).(accepting := false, stopping := true, noted := {j})
  }

  /** The stop has noted the job and unlocked, but its hook has not run yet. */
  function Stopper(j: Job): seq<Op> {
    [Hook(j, None), Spawn([j]), Discard([j])]
  }

  /** The worker sees the stop, finds the job noted, claims it, and goes on to the check. */
  function Story(j: Job): seq<System> {
    [System(Fresh(1), [[], []]),
     System(Fresh(1).(started := true), [[Select], []]),
     System(Queued(j), [[Select], []]),
     System(Queued(j), [[Select], [CloseAdmission(false)]]),
     System(Queued(j).(accepting := false), [[Select], [MarkStopping(false)]]),
     System(Snapped(j), [[Select], Stopper(j)]),
     System(Snapped(j), [[AbandonUnattempted, Drain], Stopper(j)]),
     System(Snapped(j), [[Note(j, Stranded), Drain], Stopper(j)]),
     System(Snapped(j), [[Claim(j, Stranded), Drain], Stopper(j)]),
     System(Snapped(j).(resolving := {j}), [[Recheck(j), Finish(j), Drain], Stopper(j)])]
  }

  lemma WorkerMoves(a: Shared, op: Op, rest: seq<Op>, b: Shared, push: seq<Op>, stopper: seq<Op>)
    requires Exec(a, op, b, push) && !op.Spawn? && !op.WaitResolvers?
    ensures Step(System(a, [[op] + rest, stopper]), System(b, [push + rest, stopper]))
  {
    hide Exec;
    var s, s' := System(a, [[op] + rest, stopper]), System(b, [push + rest, stopper]);
    assert s.threads[WORKER := push + s.threads[WORKER][1..]] + [] == s'.threads;
    assert ThreadStepWith(s, WORKER, push, s');
  }

  lemma StopperMoves(a: Shared, op: Op, b: Shared, push: seq<Op>, worker: seq<Op>)
    requires Exec(a, op, b, push) && !op.Spawn? && !op.WaitResolvers?
    ensures Step(System(a, [worker, [op]]), System(b, [worker, push]))
  {
    hide Exec;
    var s, s' := System(a, [worker, [op]]), System(b, [worker, push]);
    assert push + s.threads[STOPPER][1..] == push;
    assert s.threads[STOPPER := push + s.threads[STOPPER][1..]] + [] == s'.threads;
    assert ThreadStepWith(s, STOPPER, push, s');
  }

  lemma OpeningSteps(j: Job)
    ensures Init(Story(j)[0]) && Step(Story(j)[0], Story(j)[1]) && Step(Story(j)[1], Story(j)[2])
      && Step(Story(j)[2], Story(j)[3])
  {
    hide ThreadStepWith;
    var s := Story(j);
    assert s[0].threads[WORKER := [Select]] == s[1].threads;
    assert CallStep(s[0], s[1]);
    assert Enqueue(s[1].sh, j) == Queued(j);
    assert CallStep(s[1], s[2]);
    assert s[2].threads[STOPPER := [CloseAdmission(false)]] == s[3].threads;
    assert CallStep(s[2], s[3]);
  }

  lemma SnapshotStep(j: Job)
    ensures Exec(Queued(j).(accepting := false), MarkStopping(false), Snapped(j), Stopper(j))
  {
    var a := Queued(j).(accepting := false);
    assert a.pendingJobs - a.attempted == {j};
    assert Enumerates([j], {j});
    assert (set x | x in [j]) == {j};
    assert Hooks([j]) == [Hook(j, None)] by { assert [j][1..] == []; }
    assert Without([j], {}) == [j] by { assert [j][1..] == []; }
    assert StopSteps(a, [j], false) == Stopper(j);
    assert StopExec(a, MarkStopping(false), Snapped(j), Stopper(j));
  }

  lemma AbandonStepOne(j: Job)
    ensures Exec(Snapped(j), AbandonUnattempted, Snapped(j), [Note(j, Stranded)])
  {
    var a := Snapped(j);
    assert a.pendingJobs - a.attempted == {j};
    assert Enumerates([j], {j});
    assert Strand([j]) == [Note(j, Stranded)] by { assert [j][1..] == []; }
    assert AbandonStep(a, [Note(j, Stranded)]);
  }

  lemma StopperCloses(j: Job)
    ensures Step(Story(j)[3], Story(j)[4])
  {
    assert StopExec(Queued(j), CloseAdmission(false), Queued(j).(accepting := false), [MarkStopping(false)]);
    hide Step, StopExec, WorkerExec, ResolveExec;
    StopperMoves(Queued(j), CloseAdmission(false), Queued(j).(accepting := false), [MarkStopping(false)], [Select]);
  }

  lemma StopperNotes(j: Job)
    ensures Step(Story(j)[4], Story(j)[5])
  {
    hide Step, Exec;
    SnapshotStep(j);
    StopperMoves(Queued(j).(accepting := false), MarkStopping(false), Snapped(j), Stopper(j), [Select]);
  }

  lemma WorkerSees(j: Job)
    ensures Step(Story(j)[5], Story(j)[6])
  {
    hide Step;
    assert [Select] + [] == [Select] && [AbandonUnattempted, Drain] + [] == [AbandonUnattempted, Drain];
    WorkerMoves(Snapped(j), Select, [], Snapped(j), [AbandonUnattempted, Drain], Stopper(j));
  }

  lemma WorkerAbandons(j: Job)
    ensures Step(Story(j)[6], Story(j)[7])
  {
    hide Step, Exec;
    AbandonStepOne(j);
    assert [AbandonUnattempted] + [Drain] == [AbandonUnattempted, Drain];
    assert [Note(j, Stranded)] + [Drain] == [Note(j, Stranded), Drain];
    WorkerMoves(Snapped(j), AbandonUnattempted, [Drain], Snapped(j), [Note(j, Stranded)], Stopper(j));
  }

  lemma WorkerNotes(j: Job)
    ensures Step(Story(j)[7], Story(j)[8])
  {
    hide Step;
    assert [Note(j, Stranded)] + [Drain] == [Note(j, Stranded), Drain];
    assert [Claim(j, Stranded)] + [Drain] == [Claim(j, Stranded), Drain];
    WorkerMoves(Snapped(j), Note(j, Stranded), [Drain], Snapped(j), [Claim(j, Stranded)], Stopper(j));
  }

  lemma WorkerClaims(j: Job)
    ensures Step(Story(j)[8], Story(j)[9])
  {
    hide Step;
    assert [Claim(j, Stranded)] + [Drain] == [Claim(j, Stranded), Drain];
    assert [Recheck(j), Finish(j)] + [Drain] == [Recheck(j), Finish(j), Drain];
    WorkerMoves(Snapped(j), Claim(j, Stranded), [Drain], Snapped(j).(resolving := {j}), [Recheck(j), Finish(j)],
      Stopper(j));
  }

  /** The check may come first: the stop notes a job, releases the lock and only then runs the hook. */
  lemma CheckMayPrecedeHook(j: Job)
    ensures Run(Story(j)) && Checks(Story(j)[9], WORKER, j) && j !in Story(j)[9].sh.hooked
  {
    hide Step, Init;
    OpeningSteps(j);
    StopperCloses(j);
    StopperNotes(j);
    WorkerSees(j);
    WorkerAbandons(j);
    WorkerNotes(j);
    WorkerClaims(j);
    assert Story(j)[9].sh.hooked == {};
  }
}
