/** What a stop keeps: hooks complete before it goes on, nothing pending is left without a thread
    that will resolve it, and the final stop can always finish. */
module DispatchStop {
  import opened Coalesce
  import opened Dispatch
  import opened DispatchSafety

  // ---------- which thread runs which steps ----------

  predicate ResolverOp(op: Op) {
    || op.Note? || (op.Hook? && op.next.Some?) || (op.CompleteNote? && op.next.Some?)
    || op.Claim? || op.Recheck? || op.Report? || op.Finish?
  }

  predicate WorkerOp(op: Op) {
    || op.Select? || op.Collect? || op.Scan? || op.CallValid? || op.Groups? || op.Messages? || op.Mark?
    || op.Send? || op.AfterBatch? || op.AbandonUnattempted? || op.Drain? || op.Exit? || ResolverOp(op)
  }

  predicate StopOp(op: Op) {
    || op.CloseAdmission? || op.MarkStopping? || op.Spawn? || op.Discard?
    || op.WaitJob? || op.WaitWorker? || op.WaitIdle? || op.WaitResolvers?
    || (op.Hook? && op.next.None?) || (op.CompleteNote? && op.next.None?)
  }

  predicate InClass(t: nat, op: Op) {
    if t == WORKER then WorkerOp(op) else if t == STOPPER then StopOp(op) else ResolverOp(op)
  }

  ghost predicate Classes(s: System) {
    forall t, i | 0 <= t < |s.threads| && 0 <= i < |s.threads[t]| :: InClass(t, s.threads[t][i])
  }

  ghost predicate AllInClass(t: nat, ops: seq<Op>) {
    forall op | op in ops :: InClass(t, op)
  }

  lemma BuiltWorkerOps(jobs: seq<Job>, ok: bool)
    ensures AllInClass(WORKER, Strand(jobs)) && AllInClass(WORKER, Settle(jobs, ok))
    ensures AllInClass(WORKER, Strand(jobs) + [AbandonUnattempted, Drain])
  {
    hide Strand, Settle;
    StrandOps(jobs);
    SettleOps(jobs, ok);
  }

  lemma LoopClass(a: Shared, op: Op, b: Shared, push: seq<Op>)
    requires WorkerExec(a, op, b, push)
    requires op.Select? || op.Collect? || op.AfterBatch? || op.AbandonUnattempted? || op.Drain? || op.Exit? || op.Send?
    ensures AllInClass(WORKER, push)
  {
    hide Strand, Settle;
    match op {
      case Collect(batch) => BuiltWorkerOps(batch, true);
      case Send(jobs) =>
        var ok :| b == a.(sends := a.sends + [SendRecord(jobs, ok)]) && push == Settle(jobs, ok);
        BuiltWorkerOps(jobs, ok);
      case AbandonUnattempted =>
        var order :| Enumerates(order, a.pendingJobs - a.attempted) && push == Strand(order);
        BuiltWorkerOps(order, true);
      case _ =>
    }
  }

  lemma BatchClass(a: Shared, op: Op, b: Shared, push: seq<Op>)
    requires WorkerExec(a, op, b, push)
    requires op.Scan? || op.CallValid? || op.Groups? || op.Messages? || op.Mark?
    ensures AllInClass(WORKER, push)
  {
    hide Strand, Resume, MarkAttempted, Flatten;
    match op {
      case Scan(todo, kept, cont) => ResumeSilent(kept, cont);
      case Groups(groups) => BuiltWorkerOps(Flatten(groups), true);
      case Messages(messages, rest) => BuiltWorkerOps(Flatten(messages), true); BuiltWorkerOps(Flatten(rest), true);
      case _ =>
    }
  }

  lemma StopClass(a: Shared, op: Op, b: Shared, push: seq<Op>)
    requires StopExec(a, op, b, push)
    ensures AllInClass(STOPPER, push)
  {
    if op.MarkStopping? {
      hide StopSteps;
      var order :| Enumerates(order, a.pendingJobs - a.attempted)
        && b == a.(stopping := true, noted := a.noted + (set j | j in order)) && push == StopSteps(a, order, op.join);
      StopStepsOps(a, order, op.join);
    }
  }

  lemma ResolveClass(t: nat, a: Shared, op: Op, b: Shared, push: seq<Op>)
    requires ResolveExec(a, op, b, push) && InClass(t, op)
    ensures AllInClass(t, push)
  {
    hide FinishResolution, Claimable, Notable;
  }

  /** Only the worker runs worker steps, only the stop caller stop steps. */
  lemma ExecClass(t: nat, a: Shared, op: Op, b: Shared, push: seq<Op>)
    requires Exec(a, op, b, push) && InClass(t, op)
    ensures AllInClass(t, push)
    ensures op.Spawn? ==> t == STOPPER
  {
    hide ResolveExec, StopExec, WorkerExec, InClass, AllInClass;
    SpawnClass(t, op);
    if ResolveExec(a, op, b, push) {
      ResolveClass(t, a, op, b, push);
    } else if StopExec(a, op, b, push) {
      StopperClass(t, a, op, b, push);
    } else {
      WorkerClass(t, a, op, b, push);
    }
  }

  lemma SpawnClass(t: nat, op: Op)
    requires InClass(t, op)
    ensures op.Spawn? ==> t == STOPPER
  {
  }

  lemma StopperClass(t: nat, a: Shared, op: Op, b: Shared, push: seq<Op>)
    requires StopExec(a, op, b, push) && InClass(t, op)
    ensures AllInClass(t, push)
  {
    hide Enumerates, StopSteps, AllInClass;
    StopClass(a, op, b, push);
  }

  lemma WorkerClass(t: nat, a: Shared, op: Op, b: Shared, push: seq<Op>)
    requires WorkerExec(a, op, b, push) && InClass(t, op)
    ensures AllInClass(t, push)
  {
    hide SelectStep, CollectStep, ScanNext, ValidStep, GroupsNext, MessagesNext, MarkNext, MarkAttempted, SendStep,
      AbandonStep, DrainStep, AllInClass;
    if op.Scan? || op.CallValid? || op.Groups? || op.Messages? || op.Mark? {
      BatchClass(a, op, b, push);
    } else {
      LoopClass(a, op, b, push);
    }
  }

  lemma SpawnedClass(t: nat, op: Op, ops: seq<Op>)
    requires ops in Spawned(op) && t >= 2
    ensures AllInClass(t, ops)
  {
    ResolverThreads(op.jobs);
  }

  lemma ClassesStep(s: System, t: nat, push: seq<Op>, s': System)
    requires Classes(s) && |s.threads| >= 2 && ThreadStepWith(s, t, push, s')
    ensures Classes(s')
  {
    hide Exec, InClass, Spawned;
    var op := s.threads[t][0];
    ExecClass(t, s.sh, op, s'.sh, push);
    forall u, i | 0 <= u < |s'.threads| && 0 <= i < |s'.threads[u]| ensures InClass(u, s'.threads[u][i]) {
      if u >= |s.threads| {
        assert s'.threads[u] in Spawned(op);
        SpawnedClass(u, op, s'.threads[u]);
        assert s'.threads[u][i] in s'.threads[u];
      } else if u == t {
        if i < |push| {
          assert s'.threads[u][i] in push;
        } else {
          assert s'.threads[u][i] == s.threads[t][i - |push| + 1];
        }
      } else {
        assert s'.threads[u] == s.threads[u];
      }
    }
  }

  // ---------- somebody will resolve every pending job ----------

  /** A step on the way to resolving the job as never attempted. */
  predicate Pursues(op: Op, j: Job) {
    || op == Note(j, Stranded) || op == Hook(j, Some(Stranded)) || op == CompleteNote(j, Some(Stranded))
    || op == Claim(j, Stranded) || (op.Spawn? && j in op.jobs)
  }

  /** A step on the way to resolving the job as delivered. */
  predicate Delivers(op: Op, j: Job) {
    (op.Send? && j in op.jobs) || (op.Claim? && op.job == j && op.claimant.Sent?)
  }

  predicate Serves(sh: Shared, op: Op, j: Job) {
    if j in sh.attempted then Delivers(op, j) else Pursues(op, j)
  }

  ghost predicate Served(s: System, j: Job) {
    exists t, i :: 0 <= t < |s.threads| && 0 <= i < |s.threads[t]| && Serves(s.sh, s.threads[t][i], j)
  }

  /** Attempted jobs, and after a stop all pending jobs, are claimed or have a thread on the way to claim them. */
  ghost predicate Duty(s: System) {
    forall j | j in s.sh.pendingJobs && (s.sh.stopping || j in s.sh.attempted) && j !in s.sh.resolving :: Served(s, j)
  }

  lemma PursuitGoesOn(a: Shared, op: Op, b: Shared, push: seq<Op>, j: Job)
    requires ResolveExec(a, op, b, push) && Pursues(op, j)
    requires j in a.pendingJobs && j !in a.attempted && j !in a.resolving
    ensures j in b.resolving || exists x :: x in push && Pursues(x, j)
  {
    hide FinishResolution;
    if !(op.Claim? && Claimable(a, j, Stranded)) {
      assert push != [];
      assert push[0] in push && Pursues(push[0], j);
    }
  }

  lemma SpawnGoesOn(op: Op, j: Job)
    requires op.Spawn? && j in op.jobs
    ensures [Note(j, Stranded)] in Spawned(op)
  {
    ResolverThreads(op.jobs);
  }

  lemma DeliveryGoesOn(a: Shared, op: Op, b: Shared, push: seq<Op>, j: Job)
    requires WorkerExec(a, op, b, push) || ResolveExec(a, op, b, push)
    requires Delivers(op, j) && j in a.pendingJobs && j !in a.resolving
    ensures j in b.resolving || exists x :: x in push && Delivers(x, j)
  {
    if op.Send? {
      var ok :| b == a.(sends := a.sends + [SendRecord(op.jobs, ok)]) && push == Settle(op.jobs, ok);
      SettleOps(op.jobs, ok);
      assert Delivers(Claim(j, Sent(ok)), j);
    } else {
      hide FinishResolution;
      assert Claimable(a, j, op.claimant);
    }
  }

  /** Thread steps accept no job and put none back into the channel. */
  ghost predicate Narrows(a: Shared, b: Shared) {
    && b.accepted == a.accepted && b.pendingJobs <= a.pendingJobs
    && b.started == a.started && (b.accepting ==> a.accepting)
    && forall j | j in b.queue :: j in a.queue
  }

  lemma WorkerKind(a: Shared, op: Op, b: Shared, push: seq<Op>)
    requires WorkerExec(a, op, b, push)
    ensures WorkerOp(op) && !ResolverOp(op)
    ensures !op.Mark? ==> b.attempted == a.attempted
    ensures b.stopping == a.stopping && Narrows(a, b)
  {
    hide WorkerExec, WorkerOp, ResolverOp, Narrows;
    WorkerFields(a, op, b, push);
    if Batching(op) {
      BatchKind(a, op, b, push);
    } else {
      UnbatchedKind(a, op, b, push);
    }
  }

  lemma BatchKind(a: Shared, op: Op, b: Shared, push: seq<Op>)
    requires WorkerExec(a, op, b, push) && Batching(op)
    ensures WorkerOp(op) && !ResolverOp(op) && (!op.Mark? ==> b.attempted == a.attempted) && Narrows(a, b)
  {
    hide MarkAttempted, GroupsNext, MessagesNext, MarkNext, ScanNext, ValidStep;
  }

  lemma UnbatchedKind(a: Shared, op: Op, b: Shared, push: seq<Op>)
    requires WorkerExec(a, op, b, push) && !Batching(op)
    ensures WorkerOp(op) && !ResolverOp(op) && b.attempted == a.attempted && Narrows(a, b)
  {
    hide WorkerExec, Narrows, Dequeue;
    if op.Select? || op.Collect? || op.Drain? {
      LoopNarrows(a, op, b, push);
    } else {
      PlainNarrows(a, op, b, push);
    }
  }

  lemma PlainNarrows(a: Shared, op: Op, b: Shared, push: seq<Op>)
    requires WorkerExec(a, op, b, push) && !Batching(op) && !op.Select? && !op.Collect? && !op.Drain?
    ensures op.AfterBatch? || op.AbandonUnattempted? || op.Exit? || op.Send?
    ensures b.attempted == a.attempted && Narrows(a, b)
  {
    hide AbandonStep, Settle;
  }

  lemma LoopNarrows(a: Shared, op: Op, b: Shared, push: seq<Op>)
    requires WorkerExec(a, op, b, push) && (op.Select? || op.Collect? || op.Drain?)
    ensures b == a || (a.queue != [] && b == Dequeue(a))
    ensures b.attempted == a.attempted && Narrows(a, b)
  {
    hide WorkerExec;
    LoopDequeues(a, op, b, push);
  }

  lemma ResolveKind(a: Shared, op: Op, b: Shared, push: seq<Op>)
    requires ResolveExec(a, op, b, push)
    ensures op.Note? || op.Hook? || op.CompleteNote? || op.Claim? || op.Recheck? || op.Report? || op.Finish?
    ensures b.attempted == a.attempted && b.stopping == a.stopping && Narrows(a, b)
  {
    hide Claimable, Notable, ClaimSteps, FinishResolution;
    if op.Finish? {
      FinishKind(a, op.job);
    }
  }

  lemma FinishKind(a: Shared, job: Job)
    ensures var b := FinishResolution(a, job);
      b.attempted == a.attempted && b.stopping == a.stopping && Narrows(a, b)
  {
  }

  lemma StopKind(a: Shared, op: Op, b: Shared, push: seq<Op>)
    requires StopExec(a, op, b, push)
    ensures op.CloseAdmission? || op.MarkStopping? || op.Spawn? || op.Discard? || op.WaitJob? || op.WaitWorker?
      || op.WaitIdle? || op.WaitResolvers?
    ensures b.attempted == a.attempted && (b.stopping == a.stopping || op.MarkStopping?) && Narrows(a, b)
  {
    hide StopExec;
    StopFields(a, op, b, push);
  }

  lemma WorkerSide(a: Shared, op: Op, b: Shared, push: seq<Op>)
    requires Exec(a, op, b, push) && WorkerOp(op)
    ensures WorkerExec(a, op, b, push) || ResolveExec(a, op, b, push)
  {
    hide WorkerExec, ResolveExec, StopExec;
    if StopExec(a, op, b, push) {
      StopKind(a, op, b, push);
    }
  }

  /** A stop closes admission, marks, takes jobs out of the channel, or waits. */
  lemma StopFields(a: Shared, op: Op, b: Shared, push: seq<Op>)
    requires StopExec(a, op, b, push)
    ensures op.CloseAdmission? || op.MarkStopping? || op.Spawn? || op.Discard? || op.WaitJob? || op.WaitWorker?
      || op.WaitIdle? || op.WaitResolvers?
    ensures b == if op.CloseAdmission? then a.(accepting := false)
                 else if op.MarkStopping? then a.(stopping := true, noted := b.noted)
                 else if op.Discard? && a.queue != [] then Dequeue(a) else a
  {
    hide StopSteps, Enumerates, Dequeue;
  }

  lemma ExecKind(a: Shared, op: Op, b: Shared, push: seq<Op>, j: Job)
    requires Exec(a, op, b, push)
    ensures Pursues(op, j) && !op.Spawn? ==> ResolveExec(a, op, b, push)
    ensures Delivers(op, j) ==> WorkerExec(a, op, b, push) || ResolveExec(a, op, b, push)
  {
    hide WorkerExec, ResolveExec, StopExec;
    if WorkerExec(a, op, b, push) {
      WorkerKind(a, op, b, push);
    } else if StopExec(a, op, b, push) {
      StopKind(a, op, b, push);
    }
  }

  /** The step that was to serve a job runs: the job is claimed or a pushed step takes over. */
  lemma ServiceGoesOn(a: Shared, op: Op, b: Shared, push: seq<Op>, j: Job)
    requires Exec(a, op, b, push) && Serves(a, op, j) && !op.Spawn?
    requires j in a.pendingJobs && j !in a.resolving && (j in b.attempted <==> j in a.attempted)
    ensures j in b.resolving || exists x :: x in push && Serves(b, x, j)
  {
    hide ResolveExec, WorkerExec, Exec, Pursues, Delivers;
    ExecKind(a, op, b, push, j);
    if j in a.attempted {
      DeliveryGoesOn(a, op, b, push, j);
    } else {
      PursuitGoesOn(a, op, b, push, j);
    }
    if j !in b.resolving {
      var x :| x in push && (if j in a.attempted then Delivers(x, j) else Pursues(x, j));
      assert Serves(b, x, j);
    }
  }

  /** A job that enters duty in this step has a pushed step serving it. */
  lemma NewDuty(a: Shared, op: Op, b: Shared, push: seq<Op>, j: Job)
    requires Exec(a, op, b, push) && j in b.pendingJobs
    requires b.stopping || j in b.attempted
    requires !(a.stopping || j in a.attempted) || (j in b.attempted && j !in a.attempted)
    ensures exists x :: x in push && Serves(b, x, j)
  {
    if op.Mark? {
      assert j in MarkAttempted(a, op.jobs);
      assert Serves(b, push[0], j);
    } else {
      NewStop(a, op, b, push, j);
    }
  }

  lemma NewStop(a: Shared, op: Op, b: Shared, push: seq<Op>, j: Job)
    requires Exec(a, op, b, push) && j in b.pendingJobs && !op.Mark?
    requires b.stopping || j in b.attempted
    requires !(a.stopping || j in a.attempted) || (j in b.attempted && j !in a.attempted)
    ensures exists x :: x in push && Serves(b, x, j)
  {
    ExecStopping(a, op, b, push);
    var order :| Enumerates(order, a.pendingJobs - a.attempted)
      && b == a.(stopping := true, noted := a.noted + (set x | x in order)) && push == StopSteps(a, order, op.join);
    EnumeratedJobs(order, a.pendingJobs - a.attempted);
    assert Spawn(order) in push;
    assert Serves(b, Spawn(order), j);
  }

  lemma ExecStopping(a: Shared, op: Op, b: Shared, push: seq<Op>)
    requires Exec(a, op, b, push) && !op.Mark?
    ensures b.attempted == a.attempted
    ensures b.stopping == a.stopping || op.MarkStopping?
    ensures op.MarkStopping? ==> StopExec(a, op, b, push)
  {
    hide WorkerExec, ResolveExec, StopExec;
    if WorkerExec(a, op, b, push) {
      WorkerKind(a, op, b, push);
    } else if ResolveExec(a, op, b, push) {
      ResolveKind(a, op, b, push);
    } else {
      StopKind(a, op, b, push);
    }
  }

  /** Where a thread's pushed or remaining steps end up. */
  lemma Placed(s: System, t: nat, push: seq<Op>, s': System)
    requires ThreadStepWith(s, t, push, s')
    ensures t < |s'.threads| && s'.threads[t] == push + s.threads[t][1..]
    ensures forall u | 0 <= u < |s.threads| && u != t :: s'.threads[u] == s.threads[u]
    ensures forall k | 0 <= k < |Spawned(s.threads[t][0])| ::
      |s.threads| + k < |s'.threads| && s'.threads[|s.threads| + k] == Spawned(s.threads[t][0])[k]
    ensures |s'.threads| == |s.threads| + |Spawned(s.threads[t][0])|
  {
    hide Exec, Spawned;
  }

  lemma ServedByPush(s: System, t: nat, push: seq<Op>, s': System, j: Job)
    requires ThreadStepWith(s, t, push, s') && exists x :: x in push && Serves(s'.sh, x, j)
    ensures Served(s', j)
  {
    hide Exec, Serves, Spawned;
    Placed(s, t, push, s');
    var x :| x in push && Serves(s'.sh, x, j);
    var i :| 0 <= i < |push| && push[i] == x;
    assert s'.threads[t][i] == x;
  }

  lemma ServedByRest(s: System, t: nat, push: seq<Op>, s': System, j: Job, u: nat, i: nat)
    requires ThreadStepWith(s, t, push, s') && (j in s'.sh.attempted <==> j in s.sh.attempted)
    requires u < |s.threads| && i < |s.threads[u]| && Serves(s.sh, s.threads[u][i], j) && !(u == t && i == 0)
    ensures Served(s', j)
  {
    hide Exec, Spawned;
    Placed(s, t, push, s');
    var op := s.threads[u][i];
    assert Serves(s'.sh, op, j);
    if u == t {
      assert s'.threads[u][|push| + i - 1] == op;
    } else {
      assert s'.threads[u][i] == op;
    }
  }

  lemma ServedBySpawn(s: System, t: nat, push: seq<Op>, s': System, j: Job)
    requires ThreadStepWith(s, t, push, s') && j !in s'.sh.attempted
    requires s.threads[t][0].Spawn? && j in s.threads[t][0].jobs
    ensures Served(s', j)
  {
    hide Exec, Spawned;
    Placed(s, t, push, s');
    var op := s.threads[t][0];
    SpawnGoesOn(op, j);
    var k :| 0 <= k < |Spawned(op)| && Spawned(op)[k] == [Note(j, Stranded)];
    assert s'.threads[|s.threads| + k][0] == Note(j, Stranded);
    assert Serves(s'.sh, Note(j, Stranded), j);
  }

  lemma DutyStepOf(s: System, t: nat, push: seq<Op>, s': System, j: Job)
    requires Duty(s) && ThreadStepWith(s, t, push, s') && Grow(s.sh, s'.sh) && s'.sh.pendingJobs <= s.sh.pendingJobs
    requires j in s'.sh.pendingJobs && (s'.sh.stopping || j in s'.sh.attempted) && j !in s'.sh.resolving
    ensures Served(s', j)
  {
    hide Exec, Serves, Spawned, Served;
    var a, b, op := s.sh, s'.sh, s.threads[t][0];
    assert Exec(a, op, b, push);
    if !(a.stopping || j in a.attempted) || (j in b.attempted && j !in a.attempted) {
      NewDuty(a, op, b, push, j);
      ServedByPush(s, t, push, s', j);
    } else {
      var u, i := ServerOf(s, j);
      if u == t && i == 0 {
        if op.Spawn? {
          SpawnServes(a, op, j);
          ServedBySpawn(s, t, push, s', j);
        } else {
          ServiceGoesOn(a, op, b, push, j);
          ServedByPush(s, t, push, s', j);
        }
      } else {
        ServedByRest(s, t, push, s', j, u, i);
      }
    }
  }

  lemma SpawnServes(a: Shared, op: Op, j: Job)
    requires op.Spawn? && Serves(a, op, j)
    ensures j in op.jobs && j !in a.attempted
  {
  }

  lemma ServerOf(s: System, j: Job) returns (u: nat, i: nat)
    requires Duty(s) && j in s.sh.pendingJobs && (s.sh.stopping || j in s.sh.attempted) && j !in s.sh.resolving
    ensures u < |s.threads| && i < |s.threads[u]| && Serves(s.sh, s.threads[u][i], j)
  {
    assert Served(s, j);
    u, i :| 0 <= u < |s.threads| && 0 <= i < |s.threads[u]| && Serves(s.sh, s.threads[u][i], j);
  }

  lemma ExecNarrows(a: Shared, op: Op, b: Shared, push: seq<Op>)
    requires Exec(a, op, b, push)
    ensures Narrows(a, b)
  {
    hide WorkerExec, ResolveExec, StopExec, Narrows;
    if WorkerExec(a, op, b, push) {
      WorkerKind(a, op, b, push);
    } else if ResolveExec(a, op, b, push) {
      ResolveKind(a, op, b, push);
    } else {
      StopKind(a, op, b, push);
    }
  }

  // ---------- the order of a stop ----------

  function Rank(op: Op): nat {
    match op
    case Spawn(_) => 1
    case Discard(_) => 2
    case WaitJob(_) => 3
    case WaitWorker => 4
    case WaitIdle => 5
    case WaitResolvers => 6
    case _ => 0
  }

  ghost predicate Ranked(ops: seq<Op>) {
    forall i, k | 0 <= i < k < |ops| :: Rank(ops[i]) <= Rank(ops[k])
  }

  /** Hooks, then the resolvers, then the channel, then the waits. */
  ghost predicate StopOrder(sh: Shared, ops: seq<Op>) {
    && Ranked(ops)
    && (forall i | 0 < i < |ops| :: !ops[i].CloseAdmission? && !ops[i].MarkStopping?)
    && (ops != [] && (ops[0].CloseAdmission? || ops[0].MarkStopping?) ==> |ops| == 1)
    && (ops != [] && !ops[0].CloseAdmission? ==> !sh.accepting)
    && (ops != [] && !ops[0].CloseAdmission? && !ops[0].MarkStopping? ==> sh.stopping)
  }

  /** Once a stop has taken its snapshot, every job was attempted, had its hook run, or has it on the list. */
  ghost predicate HookCover(sh: Shared, ops: seq<Op>) {
    sh.stopping ==> forall j | j in sh.accepted :: j in sh.attempted || j in sh.hooked || Hook(j, None) in ops
  }

  /** Whatever is still in the channel is already resolved or in the stop's snapshot. */
  ghost predicate ChannelCover(sh: Shared, op: Op) {
    op.Spawn? || op.Discard? ==> forall j | j in sh.queue :: j in op.jobs || j !in sh.pendingJobs
  }

  ghost predicate WaitCover(sh: Shared, ops: seq<Op>) {
    && (forall op | op in ops :: (op.WaitJob? ==> op.job in sh.accepted) && (op.WaitWorker? ==> sh.started))
    && (WaitResolvers in ops ==> WaitIdle in ops || sh.pendingJobs == {})
    && (WaitResolvers in ops && sh.started ==> WaitWorker in ops || sh.exited)
  }

  ghost predicate StopInv(sh: Shared, ops: seq<Op>) {
    && StopOrder(sh, ops) && HookCover(sh, ops) && WaitCover(sh, ops)
    && forall op | op in ops :: ChannelCover(sh, op)
  }

  lemma StopInvNarrows(a: Shared, b: Shared, ops: seq<Op>)
    requires StopInv(a, ops) && Grow(a, b) && Narrows(a, b) && a.stopping == b.stopping
    ensures StopInv(b, ops)
  {
    hide Ranked;
  }

  lemma RankedTail(ops: seq<Op>)
    requires ops != [] && Ranked(ops)
    ensures Ranked(ops[1..])
    ensures forall op | op in ops[1..] :: Rank(ops[0]) <= Rank(op)
  {
  }

  lemma MemberSplit(ops: seq<Op>)
    requires ops != []
    ensures forall op :: op in ops <==> op == ops[0] || op in ops[1..]
  {
    assert ops == [ops[0]] + ops[1..];
  }

  /** Finishing the top step of a stop. */
  lemma StopPop(sh: Shared, ops: seq<Op>)
    requires ops != [] && StopInv(sh, ops) && !ops[0].CloseAdmission? && !ops[0].MarkStopping?
    requires ops[0].Hook? ==> ops[0].job in sh.hooked
    requires ops[0].WaitIdle? ==> sh.pendingJobs == {}
    requires ops[0].WaitWorker? ==> sh.exited
    ensures StopInv(sh, ops[1..])
  {
    hide Ranked, ChannelCover;
    RankedTail(ops);
    MemberSplit(ops);
    forall op | op in ops[1..] ensures ChannelCover(sh, op) {
      assert op in ops;
    }
  }

  /** Replacing the top step of a stop by one of the same rank. */
  lemma StopSwap(sh: Shared, ops: seq<Op>, op: Op)
    requires StopInv(sh, ops)
      && (ops != [] ==> Rank(op) <= Rank(ops[0]) && sh.stopping && !ops[0].CloseAdmission? && !ops[0].MarkStopping?)
    requires !sh.accepting && sh.stopping
    requires (op.Discard? && ChannelCover(sh, op)) || op.CompleteNote?
    ensures StopInv(sh, [op] + ops)
  {
    var all := [op] + ops;
    forall i, k | 0 <= i < k < |all| ensures Rank(all[i]) <= Rank(all[k]) {
      if i == 0 && k > 1 {
        assert Rank(ops[0]) <= Rank(ops[k - 1]);
      }
    }
    hide Ranked, ChannelCover;
  }

  // -- the snapshot --

  lemma {:induction false} WaitsRanked(jobs: seq<Job>)
    ensures forall op | op in Waits(jobs) :: Rank(op) == 3
  {
    WaitsOps(jobs);
  }

  lemma HooksRanked(jobs: seq<Job>)
    ensures forall op | op in Hooks(jobs) :: Rank(op) == 0
  {
    HooksOps(jobs);
  }

  lemma RankedAppend(a: seq<Op>, b: seq<Op>)
    requires Ranked(a) && Ranked(b)
    requires forall x, y | x in a && y in b :: Rank(x) <= Rank(y)
    ensures Ranked(a + b)
  {
  }

  lemma RankedFlat(a: seq<Op>, n: nat)
    requires forall x | x in a :: Rank(x) == n
    ensures Ranked(a)
  {
  }

  function Tail(sh: Shared): seq<Op> {
    (if sh.started then [WaitWorker] else []) + [WaitIdle, WaitResolvers]
  }

  function Head(sh: Shared, order: seq<Job>): seq<Op> {
    Hooks(Without(order, sh.abandoned)) + [Spawn(order), Discard(order)]
  }

  lemma HeadRanked(sh: Shared, order: seq<Job>)
    ensures Ranked(Head(sh, order)) && forall x | x in Head(sh, order) :: Rank(x) <= 2
  {
    hide Hooks, Without;
    var hooks := Hooks(Without(order, sh.abandoned));
    HooksRanked(Without(order, sh.abandoned));
    RankedFlat(hooks, 0);
    RankedAppend(hooks, [Spawn(order), Discard(order)]);
  }

  lemma LastWaits()
    ensures Ranked([WaitIdle, WaitResolvers]) && forall x | x in [WaitIdle, WaitResolvers] :: Rank(x) >= 5
  {
  }

  lemma TailOps(sh: Shared)
    ensures Ranked(Tail(sh)) && forall x | x in Tail(sh) :: Rank(x) >= 4
  {
    hide Ranked;
    LastWaits();
    RankedFlat([WaitWorker], 4);
    RankedAppend([WaitWorker], [WaitIdle, WaitResolvers]);
    assert [] + [WaitIdle, WaitResolvers] == [WaitIdle, WaitResolvers];
  }

  lemma TailRanked(sh: Shared, order: seq<Job>)
    ensures Ranked(Waits(order) + Tail(sh)) && forall x | x in Waits(order) + Tail(sh) :: Rank(x) >= 3
  {
    hide Waits, Tail, Ranked, Rank;
    WaitsRanked(order);
    RankedFlat(Waits(order), 3);
    TailOps(sh);
    RankedAppend(Waits(order), Tail(sh));
  }

  lemma StopStepsRanked(sh: Shared, order: seq<Job>, join: bool)
    ensures Ranked(StopSteps(sh, order, join))
  {
    HeadRanked(sh, order);
    TailRanked(sh, order);
    JoinShape(sh, order);
    if join {
      hide *;
      RankedAppend(Head(sh, order), Waits(order) + Tail(sh));
    } else {
      hide Ranked, Hooks, Without;
      assert StopSteps(sh, order, join) == Head(sh, order);
    }
  }

  lemma JoinShape(sh: Shared, order: seq<Job>)
    ensures StopSteps(sh, order, true)
         == Head(sh, order) + (Waits(order) + Tail(sh))
  {
    hide Hooks, Waits, Without;
  }

  lemma SnapshotMembers(sh: Shared, order: seq<Job>, join: bool)
    ensures forall j | j in order && j !in sh.abandoned :: Hook(j, None) in StopSteps(sh, order, join)
    ensures WaitResolvers in StopSteps(sh, order, join) ==>
      WaitIdle in StopSteps(sh, order, join) && (sh.started ==> WaitWorker in StopSteps(sh, order, join))
    ensures forall op | op in StopSteps(sh, order, join) ::
      (op.WaitJob? ==> op.job in order) && (op.WaitWorker? ==> sh.started)
  {
    hide Hooks, Waits, Without;
    WithoutKeeps(order, sh.abandoned);
    HooksOps(Without(order, sh.abandoned));
    WaitsOps(order);
  }

  lemma SnapshotOrder(a: Shared, order: seq<Job>, join: bool, b: Shared)
    requires b.stopping && !b.accepting
    ensures StopOrder(b, StopSteps(a, order, join))
  {
    hide Ranked, StopSteps;
    StopStepsRanked(a, order, join);
    StopStepsOps(a, order, join);
    var ops := StopSteps(a, order, join);
    forall i | 0 <= i < |ops| ensures !ops[i].CloseAdmission? && !ops[i].MarkStopping? {
      assert ops[i] in ops;
    }
  }

  lemma SnapshotCover(a: Shared, order: seq<Job>, ops: seq<Op>, b: Shared)
    requires SharedInv(a) && forall j :: j in order <==> j in a.pendingJobs - a.attempted
    requires b == a.(stopping := true, noted := a.noted + (set j | j in order))
    requires a.stopping ==> forall j | j in a.accepted :: j in a.attempted || j in a.hooked
    requires forall j | j in order && j !in a.abandoned :: Hook(j, None) in ops
    ensures HookCover(b, ops)
  {
  }

  /** The snapshot itself: every job it cannot leave to the worker gets its hook and a resolver. */
  lemma SnapshotInv(a: Shared, order: seq<Job>, join: bool, b: Shared)
    requires SharedInv(a) && !a.accepting && Enumerates(order, a.pendingJobs - a.attempted)
    requires b == a.(stopping := true, noted := a.noted + (set j | j in order))
    requires forall j | j in a.queue :: j !in a.attempted
    requires a.stopping ==> forall j | j in a.accepted :: j in a.attempted || j in a.hooked
    ensures StopInv(b, StopSteps(a, order, join))
  {
    var ops := StopSteps(a, order, join);
    EnumeratedJobs(order, a.pendingJobs - a.attempted);
    SnapshotOrder(a, order, join, b);
    StopStepsOps(a, order, join);
    SnapshotMembers(a, order, join);
    SnapshotCover(a, order, ops, b);
    assert forall j | j in order :: j in a.accepted;
    hide StopOrder, HookCover, StopSteps, Enumerates, SharedInv;
    forall op | op in ops ensures ChannelCover(b, op) {
    }
  }

  lemma QueuedUnattempted(s: System, j: Job)
    requires Inv(s) && j in s.sh.queue
    ensures j in s.sh.accepted && j !in s.sh.attempted
  {
    hide SharedInv, OkThreads;
    assert Pooled(s.sh, j, Pool(s, j));
    assert multiset(s.sh.queue)[j] > 0;
  }

  lemma StopperStep(s: System, push: seq<Op>, s': System)
    requires Inv(s) && Classes(s) && ThreadStepWith(s, STOPPER, push, s')
    requires StopInv(s.sh, s.threads[STOPPER])
    ensures StopInv(s'.sh, push + s.threads[STOPPER][1..])
  {
    var a, ops, b := s.sh, s.threads[STOPPER], s'.sh;
    var op, rest := ops[0], ops[1..];
    ThreadStepInv(s, STOPPER, push, s');
    ExecNarrows(a, op, b, push);
    assert InClass(STOPPER, s.threads[STOPPER][0]);
    if op.MarkStopping? {
      forall j | j in a.queue ensures j !in a.attempted { QueuedUnattempted(s, j); }
      StopMarkStep(a, ops, b, push);
    } else if op.CloseAdmission? {
      hide Inv, SharedInv;
      StopCloseStep(a, ops, b, push);
    } else {
      hide Inv, ThreadStepWith, Narrows, Grow, StopInv, Classes;
      StopperStepShared(s, push, s');
      StopRunStep(a, ops, b, push);
    }
  }

  lemma StopperStepShared(s: System, push: seq<Op>, s': System)
    requires Inv(s) && Classes(s) && ThreadStepWith(s, STOPPER, push, s')
    ensures SharedInv(s.sh) && Exec(s.sh, s.threads[STOPPER][0], s'.sh, push) && StopOp(s.threads[STOPPER][0])
  {
    assert InClass(STOPPER, s.threads[STOPPER][0]);
  }

  lemma StopMarkStep(a: Shared, ops: seq<Op>, b: Shared, push: seq<Op>)
    requires SharedInv(a) && ops != [] && StopInv(a, ops) && ops[0].MarkStopping? && Exec(a, ops[0], b, push)
    requires forall j | j in a.queue :: j !in a.attempted
    ensures StopInv(b, push + ops[1..])
  {
    var order :| Enumerates(order, a.pendingJobs - a.attempted)
      && b == a.(stopping := true, noted := a.noted + (set j | j in order)) && push == StopSteps(a, order, ops[0].join);
    assert ops == [ops[0]];
    assert push + ops[1..] == push;
    SnapshotInv(a, order, ops[0].join, b);
  }

  lemma StopCloseStep(a: Shared, ops: seq<Op>, b: Shared, push: seq<Op>)
    requires ops != [] && StopInv(a, ops) && ops[0].CloseAdmission? && Exec(a, ops[0], b, push)
    ensures StopInv(b, push + ops[1..])
  {
    assert ops == [ops[0]];
    assert push + ops[1..] == [MarkStopping(ops[0].join)];
  }

  lemma StopRunStep(a: Shared, ops: seq<Op>, b: Shared, push: seq<Op>)
    requires SharedInv(a) && ops != [] && StopInv(a, ops) && Exec(a, ops[0], b, push) && StopOp(ops[0])
    requires !ops[0].MarkStopping? && !ops[0].CloseAdmission?
    requires Grow(a, b) && Narrows(a, b)
    ensures StopInv(b, push + ops[1..])
  {
    hide Exec, Narrows;
    var op, rest := ops[0], ops[1..];
    StopRunKind(a, op, b, push);
    StopInvNarrows(a, b, ops);
    StopPop(b, ops);
    assert [] + rest == rest;
    if push != [] {
      RankedTail(ops);
      StopRest(a, ops);
      hide StopInv;
      StopSwap(b, rest, push[0]);
    }
  }

  lemma StopRest(sh: Shared, ops: seq<Op>)
    requires ops != [] && StopInv(sh, ops) && !ops[0].MarkStopping? && !ops[0].CloseAdmission?
    ensures !sh.accepting && sh.stopping && Ranked(ops)
    ensures ops[1..] != [] ==> !ops[1].CloseAdmission? && !ops[1].MarkStopping?
  {
  }

  lemma StopRunKind(a: Shared, op: Op, b: Shared, push: seq<Op>)
    requires SharedInv(a) && Exec(a, op, b, push) && StopOp(op) && !op.MarkStopping? && !op.CloseAdmission?
    requires ChannelCover(a, op)
    ensures a.stopping == b.stopping
    ensures op.Hook? ==> op.job in b.hooked
    ensures op.WaitIdle? ==> b.pendingJobs == {}
    ensures op.WaitWorker? ==> b.exited
    ensures push == [] || (push == [op] && op.Discard? && ChannelCover(b, op))
      || (op.Hook? && push == [CompleteNote(op.job, None)])
  {
    hide WorkerExec, ResolveExec, StopExec, ChannelCover;
    if WorkerExec(a, op, b, push) {
      WorkerKind(a, op, b, push);
    } else if ResolveExec(a, op, b, push) {
      StopHookKind(a, op, b, push);
    } else {
      StopWaitKind(a, op, b, push);
    }
  }

  lemma StopHookKind(a: Shared, op: Op, b: Shared, push: seq<Op>)
    requires ResolveExec(a, op, b, push) && StopOp(op)
    ensures op.Hook? || op.CompleteNote?
    ensures a.stopping == b.stopping && (op.Hook? ==> op.job in b.hooked)
    ensures push == [] || (op.Hook? && push == [CompleteNote(op.job, None)])
  {
    hide FinishResolution, Claimable, Notable, ClaimSteps;
  }

  lemma StopWaitKind(a: Shared, op: Op, b: Shared, push: seq<Op>)
    requires SharedInv(a) && StopExec(a, op, b, push) && !op.MarkStopping? && !op.CloseAdmission?
    requires ChannelCover(a, op)
    ensures a.stopping == b.stopping && !op.Hook?
    ensures op.WaitIdle? ==> b.pendingJobs == {}
    ensures op.WaitWorker? ==> b.exited
    ensures push == [] || (push == [op] && op.Discard? && ChannelCover(b, op))
  {
  }

  // ---------- the worker's stack ends in its loop ----------

  predicate Looping(op: Op) {
    op.Select? || op.Collect? || op.AfterBatch? || op.Drain? || op.Exit?
  }

  ghost predicate LoopAtEnd(ops: seq<Op>) {
    ops != [] ==> Looping(ops[|ops| - 1])
  }

  lemma LoopingPush(a: Shared, op: Op, b: Shared, push: seq<Op>)
    requires Exec(a, op, b, push) && Looping(op)
    ensures LoopAtEnd(push)
  {
    hide Strand, MarkAttempted, ScanNext, ValidStep, GroupsNext, MessagesNext, MarkNext, SendStep, AbandonStep,
      StopSteps, FinishResolution, Notable, Claimable, ClaimSteps;
  }

  lemma LoopAtEndStep(a: Shared, ops: seq<Op>, b: Shared, push: seq<Op>)
    requires ops != [] && LoopAtEnd(ops) && Exec(a, ops[0], b, push)
    ensures LoopAtEnd(push + ops[1..])
  {
    hide Exec, Looping;
    if |ops| == 1 {
      LoopingPush(a, ops[0], b, push);
      assert push + ops[1..] == push;
    } else {
      var all := push + ops[1..];
      assert all[|all| - 1] == ops[|ops| - 1];
    }
  }

  // ---------- the full invariant ----------

  ghost predicate FullInv(s: System) {
    && Inv(s) && Classes(s) && Duty(s)
    && StopInv(s.sh, s.threads[STOPPER]) && LoopAtEnd(s.threads[WORKER])
  }

  lemma DutyStep(s: System, t: nat, push: seq<Op>, s': System)
    requires Duty(s) && ThreadStepWith(s, t, push, s') && Grow(s.sh, s'.sh) && Narrows(s.sh, s'.sh)
    ensures Duty(s')
  {
    hide ThreadStepWith, Grow, Served;
    forall j | j in s'.sh.pendingJobs && (s'.sh.stopping || j in s'.sh.attempted) && j !in s'.sh.resolving
      ensures Served(s', j)
    {
      DutyStepOf(s, t, push, s', j);
    }
  }

  lemma StopInvStep(s: System, t: nat, push: seq<Op>, s': System)
    requires FullInv(s) && ThreadStepWith(s, t, push, s') && Grow(s.sh, s'.sh) && Narrows(s.sh, s'.sh)
    ensures StopInv(s'.sh, s'.threads[STOPPER])
  {
    Placed(s, t, push, s');
    if t == STOPPER {
      StopperStep(s, push, s');
    } else {
      SteadyStopping(s, t, push, s');
      hide FullInv, ThreadStepWith;
      FullStop(s);
      StopInvNarrows(s.sh, s'.sh, s.threads[STOPPER]);
    }
  }

  lemma FullStop(s: System)
    requires FullInv(s)
    ensures |s.threads| >= 2 && StopInv(s.sh, s.threads[STOPPER])
  {
  }

  lemma SteadyStopping(s: System, t: nat, push: seq<Op>, s': System)
    requires Classes(s) && ThreadStepWith(s, t, push, s') && t != STOPPER
    ensures s'.sh.stopping == s.sh.stopping
  {
    hide Exec;
    var op := s.threads[t][0];
    assert InClass(t, op);
    if op.Mark? {
      MarkSteady(s.sh, op, s'.sh, push);
    } else {
      ExecStopping(s.sh, op, s'.sh, push);
    }
  }

  lemma MarkSteady(a: Shared, op: Op, b: Shared, push: seq<Op>)
    requires op.Mark? && Exec(a, op, b, push)
    ensures b.stopping == a.stopping
  {
  }

  lemma ThreadStepFull(s: System, t: nat, push: seq<Op>, s': System)
    requires FullInv(s) && ThreadStepWith(s, t, push, s')
    ensures FullInv(s')
  {
    ThreadStepInv(s, t, push, s');
    ClassesStep(s, t, push, s');
    ThreadStepExec(s, t, push, s');
    ExecNarrows(s.sh, s.threads[t][0], s'.sh, push);
    DutyStep(s, t, push, s');
    StopInvStep(s, t, push, s');
    Placed(s, t, push, s');
    if t == WORKER {
      LoopAtEndStep(s.sh, s.threads[WORKER], s'.sh, push);
    }
    hide *;
  }

  /** While the dispatcher still accepts jobs, a stop is at most about to close admission. */
  lemma AcceptingStop(sh: Shared, ops: seq<Op>)
    requires StopInv(sh, ops) && sh.accepting
    ensures ops == [] || (|ops| == 1 && ops[0].CloseAdmission?)
  {
  }

  lemma OpenStopInv(sh: Shared, ops: seq<Op>)
    requires ops == [] || (|ops| == 1 && ops[0].CloseAdmission?)
    requires sh.stopping ==> forall j | j in sh.accepted :: j in sh.attempted || j in sh.hooked
    ensures StopInv(sh, ops)
  {
  }

  lemma DutyKept(s: System, s': System)
    requires Duty(s) && s'.sh.attempted == s.sh.attempted && s'.sh.resolving == s.sh.resolving
      && s'.sh.stopping == s.sh.stopping
    requires forall j | j in s'.sh.pendingJobs && (s.sh.stopping || j in s.sh.attempted) :: j in s.sh.pendingJobs
    requires |s'.threads| == |s.threads| && forall t | 0 <= t < |s.threads| ::
      s.threads[t] == [] || s'.threads[t] == s.threads[t]
    ensures Duty(s')
  {
    hide Serves;
    forall j | j in s'.sh.pendingJobs && (s'.sh.stopping || j in s'.sh.attempted) && j !in s'.sh.resolving
      ensures Served(s', j)
    {
      var u, i := ServerOf(s, j);
      assert s'.threads[u] == s.threads[u];
      SameServes(s.sh, s'.sh, s.threads[u][i], j);
    }
  }

  lemma SameServes(a: Shared, b: Shared, op: Op, j: Job)
    requires a.attempted == b.attempted
    ensures Serves(a, op, j) == Serves(b, op, j)
  {
  }

  lemma EnqueueFull(s: System, job: Job)
    requires FullInv(s) && job !in s.sh.accepted
    ensures FullInv(s.(sh := Enqueue(s.sh, job)))
  {
    var s' := s.(sh := Enqueue(s.sh, job));
    EnqueueInv(s, job);
    EnqueueFields(s.sh, job);
    var ops := s.threads[STOPPER];
    assert SharedInv(s.sh);
    assert s.sh.stopping ==> !s.sh.accepting;
    assert job !in s.sh.attempted;
    hide Inv, SharedInv, Enqueue, Grow;
    DutyKept(s, s');
    if s.sh.accepting {
      AcceptingStop(s.sh, ops);
      OpenStopInv(s'.sh, ops);
    }
  }

  lemma EnqueueFields(a: Shared, job: Job)
    ensures var b := Enqueue(a, job);
            && b.attempted == a.attempted && b.resolving == a.resolving && b.stopping == a.stopping
            && (forall j | j in b.pendingJobs :: j in a.pendingJobs || j == job)
            && (!a.accepting ==> b == a)
  {
  }

  lemma StopCallFull(s: System, join: bool)
    requires FullInv(s) && s.threads[STOPPER] == []
    ensures FullInv(s.(threads := s.threads[STOPPER := [CloseAdmission(join)]]))
  {
    var s' := s.(threads := s.threads[STOPPER := [CloseAdmission(join)]]);
    StopCallInv(s, join);
    hide Inv;
    DutyKept(s, s');
    OpenStopInv(s'.sh, s'.threads[STOPPER]);
  }

  lemma DrainCallFull(s: System)
    requires FullInv(s)
    ensures FullInv(s.(sh := s.sh.(accepting := false)))
  {
    var s' := s.(sh := s.sh.(accepting := false));
    DrainCallInv(s);
    hide Inv, Grow;
    DutyKept(s, s');
    ClosedStop(s.sh, s.threads[STOPPER]);
  }

  lemma ClosedStop(sh: Shared, ops: seq<Op>)
    requires StopInv(sh, ops)
    ensures StopInv(sh.(accepting := false), ops)
  {
    hide Ranked;
  }

  lemma StartFull(s: System)
    requires FullInv(s) && s.sh.accepting && !s.sh.started
    ensures FullInv(s.(sh := s.sh.(started := true), threads := s.threads[WORKER := [Select]]))
  {
    var s' := s.(sh := s.sh.(started := true), threads := s.threads[WORKER := [Select]]);
    StartInv(s);
    assert SharedInv(s.sh);
    assert !s.sh.stopping;
    hide Inv, Grow, SharedInv;
    DutyKept(s, s');
    AcceptingStop(s.sh, s.threads[STOPPER]);
    OpenStopInv(s'.sh, s'.threads[STOPPER]);
  }

  lemma CallStepFull(s: System, s': System)
    requires FullInv(s) && CallStep(s, s')
    ensures FullInv(s')
  {
    hide FullInv, Enqueue;
    if job :| job !in s.sh.accepted && s' == s.(sh := Enqueue(s.sh, job)) {
      EnqueueFull(s, job);
    } else if s' == s.(sh := s.sh.(accepting := false)) {
      DrainCallFull(s);
    } else if join :| s.threads[STOPPER] == [] && s' == s.(threads := s.threads[STOPPER := [CloseAdmission(join)]]) {
      StopCallFull(s, join);
    } else {
      StartFull(s);
    }
  }

  lemma StepFull(s: System, s': System)
    requires FullInv(s) && Step(s, s')
    ensures FullInv(s')
  {
    hide FullInv, ThreadStepWith, CallStep;
    if t, push :| ThreadStepWith(s, t, push, s') {
      ThreadStepFull(s, t, push, s');
    } else {
      CallStepFull(s, s');
    }
  }

  lemma InitFull(s: System)
    requires Init(s)
    ensures FullInv(s)
  {
    hide Inv;
    InitInv(s);
  }

  lemma {:induction false} RunFull(states: seq<System>, k: nat)
    requires Run(states) && k < |states|
    ensures FullInv(states[k])
  {
    hide FullInv, Step;
    if k == 0 {
      InitFull(states[0]);
    } else {
      RunFull(states, k - 1);
      assert Step(states[k - 1], states[k]);
      StepFull(states[k - 1], states[k]);
    }
  }
}
