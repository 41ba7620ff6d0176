/** Before a stop the worker serves everybody: while a job is pending it has a step to take, and it takes
    only boundedly many until no job is left. */
module DispatchService {
  import opened Coalesce
  import opened Dispatch
  import opened DispatchSafety
  import opened DispatchStop
  import opened DispatchHookOrder
  import opened DispatchTheorems
  import opened DispatchTermination
  import opened DispatchFlow

  // ---------- the worker never stands still ----------

  /** Before a stop the worker can take any step but the wait at an empty channel. */
  lemma WorkerWorks(sh: Shared, op: Op)
    requires WorkerOp(op) && (op.Select? ==> sh.queue != []) && !op.Drain? && !op.AbandonUnattempted?
    ensures CanExec(sh, op)
  {
    hide *;
    if ResolverOp(op) {
      ResolverNeverBlocks(sh, op);
    } else {
      LoopWorks(sh, op);
    }
  }

  lemma LoopWorks(sh: Shared, op: Op)
    requires WorkerOp(op) && !ResolverOp(op) && (op.Select? ==> sh.queue != []) && !op.Drain? && !op.AbandonUnattempted?
    ensures CanExec(sh, op)
  {
    hide CanExec, MarkAttempted, ScanNext, GroupsNext, MessagesNext, MarkNext, Deliver, Settle, Dequeue;
    match op {
      case Select => ExecExists(sh, op, Dequeue(sh), [Collect([sh.queue[0]])]);
      case Collect(batch) => ExecExists(sh, op, sh, Deliver(batch));
      case Scan(todo, kept, cont) => ExecExists(sh, op, sh, [ScanNext(sh, todo, kept, cont)]);
      case CallValid(job, todo, kept, cont) => ExecExists(sh, op, sh, [Scan(todo, kept + [job], cont)]);
      case Groups(groups) => ExecExists(sh, op, sh, GroupsNext(sh, groups));
      case Messages(messages, rest) => ExecExists(sh, op, sh, MessagesNext(sh, messages, rest));
      case Mark(jobs, more, rest) =>
        ExecExists(sh, op, sh.(attempted := sh.attempted + (set j | j in MarkAttempted(sh, jobs))),
          MarkNext(MarkAttempted(sh, jobs), more, rest));
      case Send(jobs) =>
        assert SendStep(sh, jobs, sh.(sends := sh.sends + [SendRecord(jobs, false)]), Settle(jobs, false));
        ExecExists(sh, op, sh.(sends := sh.sends + [SendRecord(jobs, false)]), Settle(jobs, false));
      case AfterBatch =>
        ExecExists(sh, op, sh, if sh.stopping then [AbandonUnattempted, Drain] else [Select]);
      case Exit => ExecExists(sh, op, sh.(exited := true, faulted := sh.faulted || sh.exited), []);
      case _ =>
    }
  }

  /** While a job is pending, a started worker has a step to take. */
  lemma PendingKeepsWorkerBusy(states: seq<System>, k: nat)
    requires Run(states) && k < |states| && !states[k].sh.stopping && states[k].sh.started
    requires states[k].sh.pendingJobs != {}
    ensures CanStep(states[k], WORKER)
  {
    hide Run, FullInv, StopSide, WorkSide, ChecksLate, CanStep, CanExec, InHand;
    var s := states[k];
    RunFlow(states, k);
    RunHooks(states, k);
    StartedHasWork(s);
    var op := s.threads[WORKER][0];
    BeforeAStop(s, op);
    if op.Select? && s.sh.queue == [] {
      IdleWorkerServedAll(states, k);
    } else {
      WorkerWorks(s.sh, op);
      ExecSteps(s, WORKER);
    }
  }

  lemma StartedHasWork(s: System)
    requires HookInv(s) && Flow(s) && !s.sh.stopping && s.sh.started
    ensures s.threads[WORKER] != []
  {
    hide *;
    var any := Job(0, Message("", 0, "", "", ""));
    Unended(s);
    HookFull(s);
    WorkerControls(s, any);
    TotalPositive(Controls, any, s.threads);
    var t, i :| 0 <= t < |s.threads| && 0 <= i < |s.threads[t]| && Weight(Controls, any, s.threads[t][i]) > 0;
    if t != WORKER {
      OnlyWorker(s, t, i);
      ControlIsWorkers(s, any, t, i);
    }
  }

  lemma Unended(s: System)
    requires Flow(s) && !s.sh.stopping
    ensures !s.sh.exited
  {
    hide Balanced;
  }

  lemma HookFull(s: System)
    requires HookInv(s)
    ensures FullInv(s)
  {
    hide FullInv, StopSide, WorkSide, ChecksLate;
  }

  lemma BeforeAStop(s: System, op: Op)
    requires HookInv(s) && !s.sh.stopping && s.threads[WORKER] != [] && op == s.threads[WORKER][0]
    ensures WorkerOp(op) && !op.Drain? && !op.AbandonUnattempted?
  {
    assert InClass(WORKER, s.threads[WORKER][0]);
    assert OkOps(s.sh, s.threads[WORKER]) && op in s.threads[WORKER];
    hide SharedInv, Duty, StopInv, LoopAtEnd, StopSide, WorkSide, ChecksLate;
  }

  // ---------- and comes to an end ----------

  /** An upper bound on the worker's steps that follow from one step before a stop: every job waiting
      is weighed by all it still has to go through. */
  function Effort(op: Op): nat {
    match op
    case Select => 1
    case AfterBatch => 2
    case Collect(batch) => 6 + 23 * |batch|
    case Scan(todo, kept, cont) => 3 + ContEffort(|todo|, |kept|, cont)
    case CallValid(_, todo, kept, cont) => 2 + ContEffort(|todo| + 1, |kept|, cont)
    case Groups(groups) => 1 + GroupsEffort(groups)
    case Messages(messages, rest) => 2 + MessagesEffort(messages) + GroupsEffort(rest)
    case Mark(jobs, more, rest) => 4 + 4 * |jobs| + MessagesEffort(more) + GroupsEffort(rest)
    case Send(jobs) => 1 + 4 * |jobs|
    case Note(_, _) => 7
    case Hook(_, _) => 6
    case CompleteNote(_, _) => 5
    case Claim(_, _) => 4
    case Recheck(_) => 2
    case _ => 1
  }

  function GroupsEffort(groups: seq<seq<Job>>): nat {
    18 * |Flatten(groups)| + 3 * |groups|
  }

  function MessagesEffort(messages: seq<seq<Job>>): nat {
    10 * |Flatten(messages)| + 6 * |messages|
  }

  function ContEffort(todo: nat, kept: nat, cont: Cont): nat {
    match cont
    case AfterCollect => 23 * todo + 21 * kept
    case AfterGroup(rest) => 18 * todo + 16 * kept + GroupsEffort(rest)
    case AfterMessage(more, rest) => 2 + 10 * todo + 4 * kept + MessagesEffort(more) + GroupsEffort(rest)
  }

  function Labour(ops: seq<Op>): nat {
    if ops == [] then 0 else Effort(ops[0]) + Labour(ops[1..])
  }

  function Backlog(s: System): nat {
    30 * |s.sh.queue| + if s.threads == [] then 0 else Labour(s.threads[WORKER])
  }

  lemma {:induction false} LabourAppend(a: seq<Op>, b: seq<Op>)
    ensures Labour(a + b) == Labour(a) + Labour(b)
  {
    hide Effort;
    if a == [] {
      assert a + b == b;
    } else {
      assert (a + b)[1..] == a[1..] + b;
      LabourAppend(a[1..], b);
    }
  }

  lemma NoLabour()
    ensures Labour([]) == 0
  {
  }

  lemma LabourOne(a: Op)
    ensures Labour([a]) == Effort(a)
  {
    hide Effort;
  }

  lemma LabourTwo(a: Op, b: Op)
    ensures Labour([a, b]) == Effort(a) + Effort(b)
  {
    hide Effort;
    assert [a, b][1..] == [b];
    LabourOne(b);
  }

  /** A step pays for what it pushes, the channel counted in. */
  ghost predicate Pays(a: Shared, op: Op, b: Shared, push: seq<Op>) {
    30 * |b.queue| + Labour(push) < 30 * |a.queue| + Effort(op)
  }

  lemma DeliverLabour(batch: seq<Job>)
    ensures Labour(Deliver(batch)) == 5 + 23 * |batch|
  {
    hide Labour;
    LabourTwo(Scan(batch, [], AfterCollect), AfterBatch);
  }

  lemma {:induction false} SettleLabour(jobs: seq<Job>, ok: bool)
    ensures Labour(Settle(jobs, ok)) == 4 * |jobs|
  {
    if jobs != [] {
      SettleLabour(jobs[1..], ok);
      assert Settle(jobs, ok)[1..] == Settle(jobs[1..], ok);
    }
  }

  lemma {:induction false} NonemptyGroups(groups: seq<seq<Job>>)
    requires forall g | g in groups :: |g| > 0
    ensures |groups| <= |Flatten(groups)|
  {
    if groups != [] {
      assert groups[0] in groups;
      forall g | g in groups[1..] ensures |g| > 0 {
        assert g in groups;
      }
      NonemptyGroups(groups[1..]);
    }
  }

  lemma {:induction false} GroupedLength(jobs: seq<Job>)
    ensures |GroupByKey(jobs)| <= |jobs| && |Flatten(GroupByKey(jobs))| == |jobs|
    decreases |jobs|
  {
    GroupingKeepsJobs(jobs);
    assert |multiset(Flatten(GroupByKey(jobs)))| == |multiset(jobs)|;
    if jobs != [] {
      GroupedLength(Like(jobs[0], jobs[1..], false));
    }
  }

  lemma SplitLength(kept: seq<Job>)
    requires kept != []
    ensures var messages := if |kept| > 1 then Split(kept) else [kept];
      |messages| <= |kept| && |Flatten(messages)| == |kept|
  {
    hide Split;
    FlattenSplit(kept);
    if |kept| > 1 {
      SplitPartitions(kept);
      NonemptyGroups(Split(kept));
    }
  }

  lemma ResumeEffort(kept: seq<Job>, cont: Cont)
    ensures Effort(Resume(kept, cont)) < 3 + ContEffort(0, |kept|, cont)
  {
    hide Split, GroupByKey, Flatten;
    match cont
    case AfterCollect => GroupedLength(kept);
    case AfterGroup(rest) => if kept != [] { SplitLength(kept); }
    case AfterMessage(more, rest) =>
  }

  lemma ScanLabour(a: Shared, todo: seq<Job>, kept: seq<Job>, cont: Cont)
    ensures Labour([ScanNext(a, todo, kept, cont)]) < Effort(Scan(todo, kept, cont))
  {
    hide Labour, Resume, GroupsEffort, MessagesEffort;
    LabourOne(ScanNext(a, todo, kept, cont));
    ResumeEffort(kept, cont);
  }

  lemma ValidLabour(job: Job, todo: seq<Job>, kept: seq<Job>, cont: Cont, push: seq<Op>)
    requires ValidStep(job, todo, kept, cont, push)
    ensures Labour(push) < Effort(CallValid(job, todo, kept, cont))
  {
    hide Labour, GroupsEffort, MessagesEffort;
    LabourOne(Scan(todo, kept + [job], cont));
    LabourTwo(Note(job, Invalid), Scan(todo, kept, cont));
  }

  lemma HeadEffort(groups: seq<seq<Job>>)
    requires groups != []
    ensures GroupsEffort(groups) == 3 + 18 * |groups[0]| + GroupsEffort(groups[1..])
    ensures MessagesEffort(groups) == 6 + 10 * |groups[0]| + MessagesEffort(groups[1..])
  {
  }

  lemma GroupsLabour(a: Shared, groups: seq<seq<Job>>)
    requires !a.stopping
    ensures Labour(GroupsNext(a, groups)) < Effort(Groups(groups))
  {
    hide Labour, GroupsEffort, MessagesEffort;
    NoLabour();
    if groups != [] {
      HeadEffort(groups);
      LabourOne(Scan(groups[0], [], AfterGroup(groups[1..])));
    }
  }

  lemma MessagesLabour(a: Shared, messages: seq<seq<Job>>, rest: seq<seq<Job>>)
    requires !a.stopping
    ensures Labour(MessagesNext(a, messages, rest)) < Effort(Messages(messages, rest))
  {
    hide Labour, GroupsEffort, MessagesEffort;
    LabourOne(Groups(rest));
    if messages != [] {
      HeadEffort(messages);
      LabourOne(Scan(messages[0], [], AfterMessage(messages[1..], rest)));
    }
  }

  lemma {:induction false} MarkedLength(sh: Shared, jobs: seq<Job>)
    ensures |MarkAttempted(sh, jobs)| <= |jobs|
    decreases |jobs|
  {
    if jobs != [] && !sh.stopping {
      MarkedLength(if Markable(sh, jobs[0]) then sh.(attempted := sh.attempted + {jobs[0]}) else sh, jobs[1..]);
    }
  }

  lemma MarkLabour(a: Shared, jobs: seq<Job>, more: seq<seq<Job>>, rest: seq<seq<Job>>)
    ensures Labour(MarkNext(MarkAttempted(a, jobs), more, rest)) < Effort(Mark(jobs, more, rest))
  {
    hide Labour, GroupsEffort, MessagesEffort, MarkAttempted;
    MarkedLength(a, jobs);
    LabourOne(Messages(more, rest));
    LabourTwo(Send(MarkAttempted(a, jobs)), Messages(more, rest));
  }

  lemma BatchLabour(a: Shared, op: Op, b: Shared, push: seq<Op>)
    requires WorkerExec(a, op, b, push) && !a.stopping && Batching(op)
    ensures Labour(push) < Effort(op) && b.queue == a.queue
  {
    hide Labour, Effort, ScanNext, GroupsNext, MessagesNext, MarkNext, MarkAttempted, ValidStep;
    match op {
      case Scan(todo, kept, cont) => ScanLabour(a, todo, kept, cont);
      case CallValid(job, todo, kept, cont) => ValidLabour(job, todo, kept, cont, push);
      case Groups(groups) => GroupsLabour(a, groups);
      case Messages(messages, rest) => MessagesLabour(a, messages, rest);
      case Mark(jobs, more, rest) => MarkLabour(a, jobs, more, rest);
    }
  }

  lemma LoopLabour(a: Shared, op: Op, b: Shared, push: seq<Op>)
    requires WorkerExec(a, op, b, push) && !a.stopping && (op.Select? || op.AfterBatch? || op.Collect?)
    ensures Pays(a, op, b, push)
  {
    hide Labour, Deliver;
    LabourOne(Select);
    if op.Collect? {
      DeliverLabour(op.batch);
      if a.queue != [] {
        DeliverLabour(op.batch + [a.queue[0]]);
        LabourOne(Collect(op.batch + [a.queue[0]]));
      }
    } else if op.Select? {
      LabourOne(Collect([a.queue[0]]));
    }
  }

  lemma SendLabour(a: Shared, op: Op, b: Shared, push: seq<Op>)
    requires WorkerExec(a, op, b, push) && (op.Send? || op.Exit?)
    ensures Pays(a, op, b, push)
  {
    hide Labour, Settle;
    NoLabour();
    if op.Send? {
      var ok :| b == a.(sends := a.sends + [SendRecord(op.jobs, ok)]) && push == Settle(op.jobs, ok);
      SettleLabour(op.jobs, ok);
    }
  }

  lemma ResolveLabour(a: Shared, op: Op, b: Shared, push: seq<Op>)
    requires ResolveExec(a, op, b, push)
    ensures Pays(a, op, b, push)
  {
    hide Labour, Notable, Claimable, FinishResolution, ClaimSteps;
    NoLabour();
    match op {
      case Note(job, goal) => LabourOne(Hook(job, Some(goal))); LabourOne(Claim(job, goal));
      case Hook(job, next) => LabourOne(CompleteNote(job, next));
      case CompleteNote(job, next) => if next.Some? { LabourOne(Claim(job, next.value)); }
      case Claim(job, claimant) => ClaimLabour(job, claimant);
      case Recheck(job) => LabourOne(Report(job, Unattempted));
      case Finish(job) => FinishQueue(a, job);
      case _ =>
    }
  }

  lemma FinishQueue(a: Shared, job: Job)
    ensures FinishResolution(a, job).queue == a.queue
  {
  }

  lemma ClaimLabour(job: Job, claimant: Claimant)
    ensures Labour(ClaimSteps(job, claimant)) <= 3
  {
    hide Labour;
    LabourTwo(Recheck(job), Finish(job));
    LabourOne(Finish(job));
    match claimant
    case Sent(ok) => LabourTwo(Report(job, Delivered(ok)), Finish(job));
    case _ =>
  }

  lemma StepPays(a: Shared, op: Op, b: Shared, push: seq<Op>)
    requires !a.stopping && !op.Drain? && !op.AbandonUnattempted?
    requires WorkerExec(a, op, b, push) || ResolveExec(a, op, b, push)
    ensures Pays(a, op, b, push)
  {
    hide WorkerExec, ResolveExec, Labour, Effort;
    if ResolveExec(a, op, b, push) {
      ResolveLabour(a, op, b, push);
    } else {
      WorkerKind(a, op, b, push);
      if Batching(op) {
        BatchLabour(a, op, b, push);
      } else if op.Send? || op.Exit? {
        SendLabour(a, op, b, push);
      } else {
        LoopLabour(a, op, b, push);
      }
    }
  }

  /** Before a stop every step of the worker makes its backlog smaller. */
  lemma WorkLowersBacklog(s: System, push: seq<Op>, s': System)
    requires HookInv(s) && ThreadStepWith(s, WORKER, push, s') && !s.sh.stopping
    ensures Backlog(s') < Backlog(s)
  {
    var op, rest := s.threads[WORKER][0], s.threads[WORKER][1..];
    BeforeAStop(s, op);
    hide HookInv, WorkerExec, ResolveExec, StopExec, Labour, Effort, Spawned;
    WorkerSide(s.sh, op, s'.sh, push);
    StepPays(s.sh, op, s'.sh, push);
    assert s.threads[WORKER] == [op] + rest && s'.threads[WORKER] == push + rest;
    LabourAppend([op], rest);
    LabourAppend(push, rest);
    LabourOne(op);
  }

  ghost predicate WorkerMove(s: System, s': System) {
    exists push :: ThreadStepWith(s, WORKER, push, s')
  }

  /** How many steps between two states were the worker's. */
  ghost function Worked(states: seq<System>, i: nat, k: nat): nat
    requires i <= k < |states|
    decreases k - i
  {
    if i == k then 0 else (if WorkerMove(states[i], states[i + 1]) then 1 else 0) + Worked(states, i + 1, k)
  }

  /** What is not the worker's step, and accepts no job, leaves the backlog alone but for starting the worker. */
  lemma OthersKeepBacklog(s: System, s': System)
    requires HookInv(s) && Step(s, s') && !WorkerMove(s, s') && !s'.sh.stopping
    requires s'.sh.accepted == s.sh.accepted && s'.sh.started == s.sh.started
    ensures Backlog(s') == Backlog(s)
  {
    if CallStep(s, s') {
      hide HookInv, Labour, ThreadStepWith;
      CallKeepsBacklog(s, s');
    } else {
      var t, push :| ThreadStepWith(s, t, push, s');
      assert t != WORKER;
      hide Labour, Step, WorkerMove, CallStep;
      SteadyOthers(s, t, push, s');
    }
  }

  lemma CallKeepsBacklog(s: System, s': System)
    requires CallStep(s, s') && s'.sh.accepted == s.sh.accepted && s'.sh.started == s.sh.started
    ensures s'.sh.queue == s.sh.queue && |s'.threads| == |s.threads| >= 2 && s'.threads[WORKER] == s.threads[WORKER]
  {
  }

  lemma SteadyOthers(s: System, t: nat, push: seq<Op>, s': System)
    requires HookInv(s) && ThreadStepWith(s, t, push, s') && t != WORKER && !s'.sh.stopping
    ensures s'.sh.queue == s.sh.queue && |s.threads| >= 2 && |s'.threads| >= 2
    ensures s'.threads[WORKER] == s.threads[WORKER]
  {
    hide HookInv, Exec;
    Placed(s, t, push, s');
    ThreadStepExec(s, t, push, s');
    NeverUnstopped(s, t, push, s');
    OnlyWorker(s, t, 0);
    OpeningKeeps(s.sh, s.threads[t][0], s'.sh, push);
  }

  lemma NeverUnstopped(s: System, t: nat, push: seq<Op>, s': System)
    requires HookInv(s) && ThreadStepWith(s, t, push, s') && !s'.sh.stopping
    ensures !s.sh.stopping && |s.threads| >= 2
  {
    hide HookInv, ThreadStepWith;
    if s.sh.stopping {
      StoppingOn(s, t, push, s');
    }
    HookThreads(s);
  }

  lemma HookThreads(s: System)
    requires HookInv(s)
    ensures |s.threads| >= 2
  {
    hide FullInv, StopSide, WorkSide, ChecksLate;
    assert FullInv(s);
    FullStop(s);
  }

  /** While no stop has begun and no job comes in, the worker takes at most `Backlog` steps; as it has a
      step to take while a job is pending, every accepted job is resolved by then. */
  lemma {:induction false} ServiceEnds(states: seq<System>, i: nat, k: nat)
    requires Run(states) && i <= k < |states| && !states[k].sh.stopping
    requires states[k].sh.accepted == states[i].sh.accepted && states[k].sh.started == states[i].sh.started
    ensures Worked(states, i, k) + Backlog(states[k]) <= Backlog(states[i])
    decreases k - i
  {
    if i < k {
      Between(states, i, k);
      ServiceEnds(states, i + 1, k);
      RunHooks(states, i);
      assert Step(states[i], states[i + 1]);
      hide Run, HookInv, Step, Backlog, ThreadStepWith;
      if WorkerMove(states[i], states[i + 1]) {
        var push :| ThreadStepWith(states[i], WORKER, push, states[i + 1]);
        WorkLowersBacklog(states[i], push, states[i + 1]);
      } else {
        OthersKeepBacklog(states[i], states[i + 1]);
      }
    }
  }

  lemma Between(states: seq<System>, i: nat, k: nat)
    requires Run(states) && i < k < |states| && !states[k].sh.stopping
    requires states[k].sh.accepted == states[i].sh.accepted && states[k].sh.started == states[i].sh.started
    ensures !states[i].sh.stopping && !states[i + 1].sh.stopping
    ensures states[i + 1].sh.accepted == states[i].sh.accepted && states[i + 1].sh.started == states[i].sh.started
  {
    hide Run, Inv;
    RunInv(states, i, i + 1);
    RunInv(states, i + 1, k);
  }
}
