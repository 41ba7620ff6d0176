/** The dispatcher's guarantees, over every run. */
module DispatchTheorems {
  import opened Coalesce
  import opened Dispatch
  import opened DispatchSafety
  import opened DispatchStop

  // ---------- attempts, reports and hooks ----------

  /** A job that was part of a send is never reported unattempted, whichever comes first. */
  lemma SentIsNeverUnattempted(states: seq<System>, i: nat, k: nat, n: nat, j: Job)
    requires Run(states) && i < |states| && k < |states|
    requires n < |states[i].sh.sends| && j in states[i].sh.sends[n].jobs
    ensures j !in states[k].sh.unattempted
  {
    hide Run, Grow, SharedInv;
    if i <= k {
      RunInv(states, i, k);
      SentAttempted(states[k], states[i].sh.sends, n, j) by { GrowSends(states[i].sh, states[k].sh); }
    } else {
      RunInv(states, k, i);
      SentAttempted(states[i], states[i].sh.sends, n, j);
      GrowUnattempted(states[k].sh, states[i].sh);
    }
  }

  lemma GrowSends(a: Shared, b: Shared)
    requires Grow(a, b)
    ensures a.sends <= b.sends
  {
  }

  lemma GrowUnattempted(a: Shared, b: Shared)
    requires Grow(a, b)
    ensures a.unattempted <= b.unattempted
  {
  }

  lemma SentAttempted(s: System, sends: seq<SendRecord>, n: nat, j: Job)
    requires Inv(s) && sends <= s.sh.sends && n < |sends| && j in sends[n].jobs
    ensures j in s.sh.attempted && j !in s.sh.unattempted
  {
    hide OkThreads, Total, Pooled, Claimed, LoopInv;
    assert s.sh.sends[n] in s.sh.sends;
  }

  /** No job becomes attempted once a stop has begun. */
  lemma StopEndsAttempts(states: seq<System>, i: nat, k: nat)
    requires Run(states) && i <= k < |states| && states[i].sh.stopping
    ensures states[k].sh.attempted == states[i].sh.attempted && states[k].sh.stopping
  {
    hide Run, Inv;
    RunInv(states, i, k);
  }

  /** The abandonment hook of an attempted job never runs, before or after the attempt. */
  lemma AttemptedIsNeverHooked(states: seq<System>, i: nat, k: nat, j: Job)
    requires Run(states) && i < |states| && k < |states|
    requires j in states[i].sh.attempted
    ensures j !in states[k].sh.hooked
  {
    hide Run, OkThreads, Total, Pooled, Claimed, LoopInv;
    if i <= k {
      RunInv(states, i, k);
    } else {
      RunInv(states, k, i);
    }
  }

  /** The stop has taken its snapshot and run the hooks it listed. */
  ghost predicate StopReturned(s: System) {
    && |s.threads| >= 2 && s.sh.stopping
    && forall op | op in s.threads[STOPPER] :: Rank(op) >= 1
  }

  /** By the time the beginning of a stop returns, hooks have run for exactly the jobs never attempted. */
  lemma HooksSettledAtStop(states: seq<System>, k: nat)
    requires Run(states) && k < |states| && StopReturned(states[k])
    ensures forall j | j in states[k].sh.accepted :: j in states[k].sh.hooked <==> j !in states[k].sh.attempted
  {
    hide Run, OkThreads, Total, Pooled, Claimed, LoopInv, Duty, Classes, StopOrder, WaitCover;
    RunFull(states, k);
    var sh, ops := states[k].sh, states[k].threads[STOPPER];
    assert SharedInv(sh) && HookCover(sh, ops);
    forall j | j in sh.accepted ensures j in sh.hooked <==> j !in sh.attempted {
      assert Hook(j, None) in ops ==> Rank(Hook(j, None)) >= 1;
    }
  }

  // ---------- resolution ----------

  /** Every accepted job is resolved at most once and called back at most once; the count, the idle
      channel and the done channels agree with the set of pending jobs; no channel is closed twice. */
  lemma ResolvedAtMostOnce(states: seq<System>, k: nat)
    requires Run(states) && k < |states|
    ensures var sh := states[k].sh;
      && (forall j :: sh.resolved[j] == if j in sh.accepted - sh.pendingJobs then 1 else 0)
      && (forall j :: sh.reported[j] <= 1)
      && sh.pending == |sh.pendingJobs| && (sh.idleClosed <==> sh.pendingJobs == {})
      && sh.closed == sh.accepted - sh.pendingJobs && !sh.faulted
  {
    hide Run, OkThreads, Total, Pooled, Pool;
    RunInv(states, k, k);
    var s := states[k];
    assert LoopInv(s.sh, Total(Controls, Job(0, Message("", 0, "", "", "")), s.threads));
    forall j ensures s.sh.reported[j] <= 1 {
      assert Claimed(s.sh, j, Total(Owes, j, s.threads), Total(Speaks, j, s.threads));
    }
  }

  /** A job the stop takes out of the channel is resolved, or is in the snapshot whose resolvers are running. */
  lemma DiscardLosesNothing(states: seq<System>, k: nat, jobs: seq<Job>)
    requires Run(states) && k < |states| && |states[k].threads| >= 2 && states[k].threads[STOPPER] != []
    requires states[k].threads[STOPPER][0] == Discard(jobs) && states[k].sh.queue != []
    ensures var s := states[k]; var j := s.sh.queue[0];
      || s.sh.resolved[j] == 1
      || (j in jobs && (j in s.sh.resolving || Served(s, j)))
  {
    hide Run, OkThreads, Total, Pooled, Claimed, LoopInv, Classes, Served;
    RunFull(states, k);
    var s := states[k];
    var j := s.sh.queue[0];
    QueuedUnattempted(s, j);
    assert s.threads[STOPPER][0] in s.threads[STOPPER];
    assert ChannelCover(s.sh, Discard(jobs));
  }

  // ---------- the final stop ----------

  lemma {:induction false} SumPositive(k: Tally, j: Job, ops: seq<Op>)
    requires Sum(k, j, ops) > 0
    ensures exists i :: 0 <= i < |ops| && Weight(k, j, ops[i]) > 0
  {
    hide Weight;
    if Weight(k, j, ops[0]) == 0 {
      SumPositive(k, j, ops[1..]);
      var i :| 0 <= i < |ops[1..]| && Weight(k, j, ops[1..][i]) > 0;
      assert ops[i + 1] == ops[1..][i];
    }
  }

  lemma {:induction false} TotalPositive(k: Tally, j: Job, threads: seq<seq<Op>>)
    requires Total(k, j, threads) > 0
    ensures exists t, i :: 0 <= t < |threads| && 0 <= i < |threads[t]| && Weight(k, j, threads[t][i]) > 0
  {
    hide Weight;
    if Sum(k, j, threads[0]) > 0 {
      SumPositive(k, j, threads[0]);
    } else {
      TotalPositive(k, j, threads[1..]);
      var t, i :| 0 <= t < |threads[1..]| && 0 <= i < |threads[1..][t]| && Weight(k, j, threads[1..][t][i]) > 0;
      assert threads[t + 1] == threads[1..][t];
    }
  }

  /** A worker that has exited has nothing left to do. */
  lemma ExitedWorkerEmpty(s: System)
    requires FullInv(s) && (s.sh.exited || !s.sh.started)
    ensures s.threads[WORKER] == []
  {
    hide SharedInv, OkThreads, Total, Pooled, Claimed, Duty, Classes, StopInv, Sum;
    var any := Job(0, Message("", 0, "", "", ""));
    assert LoopInv(s.sh, Total(Controls, any, s.threads));
    if s.threads[WORKER] != [] {
      LoopingCounts(s.threads, any);
    }
  }

  lemma LoopingCounts(threads: seq<seq<Op>>, j: Job)
    requires threads != [] && threads[WORKER] != [] && LoopAtEnd(threads[WORKER])
    ensures Total(Controls, j, threads) > 0
  {
    hide Sum, Total;
    SumMember(Controls, j, threads[WORKER], |threads[WORKER]| - 1);
    TotalMember(Controls, j, threads, WORKER);
  }

  /** When the final stop's last wait is over, every accepted job has been resolved exactly once and
      called back at most once, and no thread has a step left. */
  lemma FinalStopSettlesAll(states: seq<System>, k: nat, push: seq<Op>, s': System)
    requires Run(states) && k < |states|
    requires ThreadStepWith(states[k], STOPPER, push, s') && states[k].threads[STOPPER][0].WaitResolvers?
    ensures s'.sh.pendingJobs == {} && s'.sh == states[k].sh
    ensures forall j | j in s'.sh.accepted :: s'.sh.resolved[j] == 1 && s'.sh.reported[j] <= 1
    ensures forall t | 0 <= t < |s'.threads| && t != STOPPER :: s'.threads[t] == []
  {
    hide Run, FullInv, Exec;
    RunFull(states, k);
    ResolvedAtMostOnce(states, k);
    var s := states[k];
    var ops := s.threads[STOPPER];
    FinalStopState(s);
    WaitResolversExec(s.sh, s'.sh, push) by { ThreadStepExec(s, STOPPER, push, s'); }
    Placed(s, STOPPER, push, s');
    forall t | 0 <= t < |s'.threads| && t != STOPPER ensures s'.threads[t] == [] {
      assert ResolversDone(s.threads);
    }
  }

  lemma WaitResolversExec(a: Shared, b: Shared, push: seq<Op>)
    requires Exec(a, WaitResolvers, b, push)
    ensures b == a
  {
  }

  lemma FinalStopState(s: System)
    requires FullInv(s) && s.threads[STOPPER] != [] && s.threads[STOPPER][0].WaitResolvers?
    ensures s.sh.pendingJobs == {} && s.threads[WORKER] == []
  {
    var ops := s.threads[STOPPER];
    assert StopInv(s.sh, ops) && ops[0] in ops;
    hide Inv, Classes, Duty;
    FinalWaits(s.sh, ops);
    ExitedWorkerEmpty(s);
  }

  lemma FinalWaits(sh: Shared, ops: seq<Op>)
    requires StopInv(sh, ops) && ops != [] && ops[0].WaitResolvers?
    ensures sh.pendingJobs == {} && (sh.started ==> sh.exited)
  {
    assert ops[0] in ops;
    forall i | 0 <= i < |ops| ensures Rank(ops[i]) == 6 {
      if i > 0 {
        assert Rank(ops[0]) <= Rank(ops[i]);
      }
    }
    assert Rank(WaitIdle) == 5 && Rank(WaitWorker) == 4;
  }

  // ---------- no stop waits for ever ----------

  ghost predicate CanStep(s: System, t: nat) {
    exists push, s' :: ThreadStepWith(s, t, push, s')
  }

  ghost predicate CanExec(sh: Shared, op: Op) {
    exists sh', push :: Exec(sh, op, sh', push)
  }

  lemma ExecSteps(s: System, t: nat)
    requires t < |s.threads| && s.threads[t] != [] && CanExec(s.sh, s.threads[t][0]) && !s.threads[t][0].WaitResolvers?
    ensures CanStep(s, t)
  {
    hide Exec;
    var op := s.threads[t][0];
    var sh', push :| Exec(s.sh, op, sh', push);
    var s' := System(sh', s.threads[t := push + s.threads[t][1..]] + Spawned(op));
    assert ThreadStepWith(s, t, push, s');
  }

  lemma {:induction false} AnyOrder(jobs: set<Job>) returns (order: seq<Job>)
    ensures Enumerates(order, jobs)
    decreases jobs
  {
    if jobs == {} {
      order := [];
    } else {
      var j :| j in jobs;
      var rest := AnyOrder(jobs - {j});
      order := [j] + rest;
      assert multiset(order) == multiset{j} + multiset(jobs - {j});
      assert multiset(jobs) == multiset{j} + multiset(jobs - {j});
    }
  }

  /** Every step of the worker and the resolvers can be taken once a stop has begun. */
  lemma WorkerNeverBlocks(sh: Shared, op: Op)
    requires sh.stopping && WorkerOp(op)
    ensures CanExec(sh, op)
  {
    if ResolverOp(op) {
      ResolverNeverBlocks(sh, op);
    } else {
      WorkerProgress(sh, op);
    }
  }

  lemma ExecExists(sh: Shared, op: Op, sh': Shared, push: seq<Op>)
    requires WorkerExec(sh, op, sh', push) || ResolveExec(sh, op, sh', push)
    ensures CanExec(sh, op)
  {
    hide WorkerExec, ResolveExec, StopExec;
    assert Exec(sh, op, sh', push);
  }

  lemma WorkerProgress(sh: Shared, op: Op)
    requires sh.stopping && WorkerOp(op) && !ResolverOp(op)
    ensures CanExec(sh, op)
  {
    hide CanExec, MarkAttempted, ScanNext, GroupsNext, MessagesNext, MarkNext, Deliver, Strand, Settle;
    match op {
      case Select => ExecExists(sh, op, sh, [AbandonUnattempted, Drain]);
      case Collect(batch) => ExecExists(sh, op, sh, Deliver(batch));
      case Scan(todo, kept, cont) => ExecExists(sh, op, sh, [ScanNext(sh, todo, kept, cont)]);
      case CallValid(job, todo, kept, cont) => ExecExists(sh, op, sh, [Scan(todo, kept + [job], cont)]);
      case Groups(groups) => ExecExists(sh, op, sh, GroupsNext(sh, groups));
      case Messages(messages, rest) => ExecExists(sh, op, sh, MessagesNext(sh, messages, rest));
      case Mark(jobs, more, rest) =>
        ExecExists(sh, op, sh.(attempted := sh.attempted + (set j | j in MarkAttempted(sh, jobs))),
          MarkNext(MarkAttempted(sh, jobs), more, rest));
      case Send(jobs) =>
        assert SendStep(sh, jobs, sh.(sends := sh.sends + [SendRecord(jobs, false)]), Settle(jobs, false));
        ExecExists(sh, op, sh.(sends := sh.sends + [SendRecord(jobs, false)]), Settle(jobs, false));
      case AfterBatch => ExecExists(sh, op, sh, [AbandonUnattempted, Drain]);
      case AbandonUnattempted =>
        var order := AnyOrder(sh.pendingJobs - sh.attempted);
        assert AbandonStep(sh, Strand(order));
        ExecExists(sh, op, sh, Strand(order));
      case Drain =>
        if sh.queue == [] { ExecExists(sh, op, sh, [Exit]); }
        else { ExecExists(sh, op, Dequeue(sh), [Note(sh.queue[0], Stranded), Drain]); }
      case Exit => ExecExists(sh, op, sh.(exited := true, faulted := sh.faulted || sh.exited), []);
      case _ =>
    }
  }

  lemma ResolverNeverBlocks(sh: Shared, op: Op)
    requires ResolverOp(op)
    ensures CanExec(sh, op)
  {
    hide CanExec;
    if op.Note? || op.Hook? || op.CompleteNote? { NotingNeverBlocks(sh, op); } else { ClaimingNeverBlocks(sh, op); }
  }

  lemma ResolveExists(sh: Shared, op: Op, sh': Shared, push: seq<Op>)
    requires ResolveExec(sh, op, sh', push)
    ensures CanExec(sh, op)
  {
    hide ResolveExec, WorkerExec, StopExec;
    ExecExists(sh, op, sh', push);
  }

  lemma NotingNeverBlocks(sh: Shared, op: Op)
    requires op.Note? || (op.Hook? && op.next.Some?) || (op.CompleteNote? && op.next.Some?)
    ensures CanExec(sh, op)
  {
    hide CanExec, Notable;
    match op {
      case Note(job, goal) =>
        if Notable(sh, job) { ResolveExists(sh, op, sh.(noted := sh.noted + {job}), [Hook(job, Some(goal))]); }
        else { ResolveExists(sh, op, sh, [Claim(job, goal)]); }
      case Hook(job, next) => ResolveExists(sh, op, sh.(hooked := sh.hooked + {job}), [CompleteNote(job, next)]);
      case CompleteNote(job, next) =>
        ResolveExists(sh, op, sh.(abandoned := sh.abandoned + {job}), [Claim(job, next.value)]);
      case _ =>
    }
  }

  lemma ClaimingNeverBlocks(sh: Shared, op: Op)
    requires op.Claim? || op.Recheck? || op.Report? || op.Finish?
    ensures CanExec(sh, op)
  {
    hide CanExec, Claimable, FinishResolution;
    match op {
      case Claim(job, claimant) =>
        if Claimable(sh, job, claimant) {
          ResolveExists(sh, op, sh.(resolving := sh.resolving + {job}), ClaimSteps(job, claimant));
        } else {
          ResolveExists(sh, op, sh, []);
        }
      case Recheck(job) => ResolveExists(sh, op, sh, []);
      case Report(job, outcome) =>
        var unattempted := if outcome.Unattempted? then sh.unattempted + {job} else sh.unattempted;
        ResolveExists(sh, op, sh.(reported := sh.reported + multiset{job}, unattempted := unattempted), []);
      case Finish(job) => ResolveExists(sh, op, FinishResolution(sh, job), []);
      case _ =>
    }
  }

  /** Any thread but the stop caller can take its next step. */
  lemma OthersCanStep(s: System, t: nat)
    requires FullInv(s) && s.sh.stopping && t < |s.threads| && t != STOPPER && s.threads[t] != []
    ensures CanStep(s, t)
  {
    hide Inv, Duty, StopInv, CanExec, CanStep;
    assert InClass(t, s.threads[t][0]);
    WorkerNeverBlocks(s.sh, s.threads[t][0]);
    ExecSteps(s, t);
  }

  /** As long as a job is pending after the snapshot, some thread other than the stop caller has a step
      to take, unless the caller is still about to spawn the job's resolver. */
  lemma PendingHasAThread(s: System, j: Job)
    requires FullInv(s) && s.sh.stopping && j in s.sh.pendingJobs
    ensures || (exists t :: 0 <= t < |s.threads| && t != STOPPER && s.threads[t] != [])
            || (exists op :: op in s.threads[STOPPER] && op.Spawn?)
  {
    if j in s.sh.resolving {
      OwedHasAThread(s, j);
    } else {
      var t, i := ServerOf(s, j);
      assert InClass(t, s.threads[t][i]);
      hide Inv;
      if t == STOPPER {
        assert s.threads[t][i] in s.threads[STOPPER];
      }
    }
  }

  lemma OwedHasAThread(s: System, j: Job)
    requires FullInv(s) && j in s.sh.pendingJobs && j in s.sh.resolving
    ensures exists t :: 0 <= t < |s.threads| && t != STOPPER && s.threads[t] != []
  {
    assert s.sh.resolved[j] == 0;
    assert Claimed(s.sh, j, Total(Owes, j, s.threads), Total(Speaks, j, s.threads));
    hide SharedInv, OkThreads, Pooled, Duty, StopInv, Sum, Total;
    TotalPositive(Owes, j, s.threads);
    var t, i :| 0 <= t < |s.threads| && 0 <= i < |s.threads[t]| && Weight(Owes, j, s.threads[t][i]) > 0;
    assert InClass(t, s.threads[t][i]);
  }

  lemma StopExecExists(sh: Shared, op: Op, sh': Shared, push: seq<Op>)
    requires StopExec(sh, op, sh', push)
    ensures CanExec(sh, op)
  {
    hide WorkerExec, ResolveExec, StopExec;
    assert Exec(sh, op, sh', push);
  }

  lemma SnapshotProgress(sh: Shared, join: bool)
    ensures CanExec(sh, MarkStopping(join))
  {
    hide StopSteps, CanExec;
    var order := AnyOrder(sh.pendingJobs - sh.attempted);
    StopExecExists(sh, MarkStopping(join), sh.(stopping := true, noted := sh.noted + (set j | j in order)),
      StopSteps(sh, order, join));
  }

  /** The steps of a stop that never wait. */
  lemma StopProgress(sh: Shared, op: Op)
    requires StopOp(op) && !op.WaitJob? && !op.WaitWorker? && !op.WaitIdle? && !op.WaitResolvers?
    ensures CanExec(sh, op)
  {
    hide CanExec, StopSteps, Notable, Claimable, FinishResolution, WorkerExec;
    match op {
      case CloseAdmission(join) => StopExecExists(sh, op, sh.(accepting := false), [MarkStopping(join)]);
      case MarkStopping(join) => hide *; SnapshotProgress(sh, join);
      case Spawn(_) => StopExecExists(sh, op, sh, []);
      case Discard(jobs) =>
        if sh.queue == [] { StopExecExists(sh, op, sh, []); }
        else { StopExecExists(sh, op, Dequeue(sh), [Discard(jobs)]); }
      case Hook(job, next) => ExecExists(sh, op, sh.(hooked := sh.hooked + {job}), [CompleteNote(job, next)]);
      case CompleteNote(job, next) => ExecExists(sh, op, sh.(abandoned := sh.abandoned + {job}), []);
      case _ =>
    }
  }

  lemma WaitExec(sh: Shared, op: Op)
    requires (op.WaitJob? && op.job in sh.closed) || (op.WaitWorker? && sh.exited) || (op.WaitIdle? && sh.idleClosed)
    ensures CanExec(sh, op)
  {
    hide CanExec, Enumerates, StopSteps;
    StopExecExists(sh, op, sh, []);
  }

  lemma WaitRank(sh: Shared, ops: seq<Op>)
    requires StopInv(sh, ops) && ops != [] && Rank(ops[0]) >= 3
    ensures !(exists op :: op in ops && op.Spawn?) && sh.stopping
  {
    forall op | op in ops ensures !op.Spawn? {
      var i :| 0 <= i < |ops| && ops[i] == op;
      if i > 0 {
        assert Rank(ops[0]) <= Rank(ops[i]);
      }
    }
  }

  ghost predicate SomeStep(s: System) {
    exists t :: 0 <= t < |s.threads| && CanStep(s, t)
  }

  lemma PendingSteps(s: System, j: Job)
    requires FullInv(s) && s.sh.stopping && j in s.sh.pendingJobs
    requires !(exists op :: op in s.threads[STOPPER] && op.Spawn?)
    ensures SomeStep(s)
  {
    hide FullInv, CanStep;
    PendingHasAThread(s, j);
    var t :| 0 <= t < |s.threads| && t != STOPPER && s.threads[t] != [];
    OthersCanStep(s, t);
  }

  lemma UnexitedWorkerSteps(s: System)
    requires FullInv(s) && s.sh.stopping && s.sh.started && !s.sh.exited
    ensures SomeStep(s)
  {
    var any := Job(0, Message("", 0, "", "", ""));
    assert SomeStep(s) by {
      hide *;
      WorkerControls(s, any);
      TotalPositive(Controls, any, s.threads);
      var t, i :| 0 <= t < |s.threads| && 0 <= i < |s.threads[t]| && Weight(Controls, any, s.threads[t][i]) > 0;
      ControlIsWorkers(s, any, t, i);
      OthersCanStep(s, t);
      StepIsSome(s, t);
    }
  }

  lemma WorkerControls(s: System, any: Job)
    requires FullInv(s) && s.sh.started && !s.sh.exited
    ensures Total(Controls, any, s.threads) > 0
  {
    hide SharedInv, OkThreads, Pooled, Claimed, Duty, StopInv, Total, Classes, LoopAtEnd;
    assert LoopInv(s.sh, Total(Controls, any, s.threads));
  }

  lemma ControlIsWorkers(s: System, any: Job, t: nat, i: nat)
    requires FullInv(s) && t < |s.threads| && i < |s.threads[t]| && Weight(Controls, any, s.threads[t][i]) > 0
    ensures t != STOPPER && s.threads[t] != []
  {
    hide Inv, Duty, StopInv, LoopAtEnd;
    assert InClass(t, s.threads[t][i]);
  }

  lemma StepIsSome(s: System, t: nat)
    requires t < |s.threads| && CanStep(s, t)
    ensures SomeStep(s)
  {
    hide CanStep;
  }

  lemma StopperWaits(s: System)
    requires FullInv(s) && s.threads[STOPPER] != [] && Rank(s.threads[STOPPER][0]) >= 3
    ensures SomeStep(s)
  {
    var op := s.threads[STOPPER][0];
    assert SharedInv(s.sh) && StopInv(s.sh, s.threads[STOPPER]) && op in s.threads[STOPPER];
    WaitRank(s.sh, s.threads[STOPPER]);
    hide Inv, Duty, Classes, StopOrder, HookCover, ChannelCover, CanExec, CanStep;
    if op.WaitResolvers? {
      if t :| 2 <= t < |s.threads| && s.threads[t] != [] {
        OthersCanStep(s, t);
      } else {
        ResolversDoneStep(s);
      }
    } else if (op.WaitJob? && op.job in s.sh.closed) || (op.WaitWorker? && s.sh.exited)
      || (op.WaitIdle? && s.sh.idleClosed) {
      WaitExec(s.sh, op);
      ExecSteps(s, STOPPER);
    } else if op.WaitWorker? {
      UnexitedWorkerSteps(s);
    } else {
      var j :| j in s.sh.pendingJobs;
      PendingSteps(s, j);
    }
  }

  lemma ResolversDoneStep(s: System)
    requires |s.threads| >= 2 && s.threads[STOPPER] != [] && s.threads[STOPPER][0].WaitResolvers?
      && ResolversDone(s.threads)
    ensures CanStep(s, STOPPER)
  {
    assert StopExec(s.sh, WaitResolvers, s.sh, []);
    hide WorkerExec, ResolveExec, StopExec;
    assert ThreadStepWith(s, STOPPER, [],
      System(s.sh, s.threads[STOPPER := [] + s.threads[STOPPER][1..]] + Spawned(WaitResolvers)));
  }

  /** No deadlock: whenever a stop has not returned, some thread has a step it can take. */
  lemma StopNeverDeadlocks(states: seq<System>, k: nat)
    requires Run(states) && k < |states| && |states[k].threads| >= 2 && states[k].threads[STOPPER] != []
    ensures SomeStep(states[k])
  {
    RunFull(states, k);
    var s := states[k];
    var op := s.threads[STOPPER][0];
    assert InClass(STOPPER, s.threads[STOPPER][0]);
    hide Run, FullInv, CanExec, CanStep;
    if Rank(op) >= 3 {
      StopperWaits(s);
    } else {
      StopProgress(s.sh, op);
      ExecSteps(s, STOPPER);
    }
  }
}
