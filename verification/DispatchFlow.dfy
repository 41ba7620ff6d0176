/** Before a stop nothing gets lost: every accepted job is resolved, in the channel, or in the worker's
    hands, and the worker keeps working until none is left. */
module DispatchFlow {
  import opened Coalesce
  import opened Dispatch
  import opened DispatchSafety
  import opened DispatchStop
  import opened DispatchHookOrder
  import opened DispatchTheorems

  /** The jobs a step still has to do something about: to put into a message, to send, or to resolve. */
  function Carried(op: Op): multiset<Job> {
    match op
    case Send(jobs) => multiset(jobs)
    case Note(job, _) => multiset{job}
    case Hook(job, next) => if next.Some? then multiset{job} else multiset{}
    case CompleteNote(job, next) => if next.Some? then multiset{job} else multiset{}
    case Claim(job, _) => multiset{job}
    case Finish(job) => multiset{job}
    case _ => Held(op)
  }

  function InHand(ops: seq<Op>): multiset<Job> {
    if ops == [] then multiset{} else Carried(ops[0]) + InHand(ops[1..])
  }

  /** Every pending job is in the channel or in the worker's hands, exactly once. */
  ghost predicate Balanced(sh: Shared, work: seq<Op>) {
    multiset(sh.queue) + InHand(work) == multiset(sh.pendingJobs)
  }

  ghost predicate Unexited(sh: Shared, work: seq<Op>) {
    !sh.exited && forall op | op in work :: !op.Exit?
  }

  ghost predicate Flow(s: System) {
    && |s.threads| >= 2
    && (!s.sh.stopping ==> Balanced(s.sh, s.threads[WORKER]) && Unexited(s.sh, s.threads[WORKER]))
  }

  // ---------- what the pushed steps carry ----------

  lemma {:induction false} HandAppend(a: seq<Op>, b: seq<Op>)
    ensures InHand(a + b) == InHand(a) + InHand(b)
  {
    hide Carried;
    if a == [] {
      assert a + b == b;
    } else {
      assert (a + b)[1..] == a[1..] + b;
      HandAppend(a[1..], b);
    }
  }

  lemma HandOne(a: Op)
    ensures InHand([a]) == Carried(a)
  {
    hide Carried;
  }

  lemma HandTwo(a: Op, b: Op)
    ensures InHand([a, b]) == Carried(a) + Carried(b)
  {
    hide Carried;
    assert [a, b][1..] == [b];
    HandOne(b);
  }

  lemma {:induction false} HandSettle(jobs: seq<Job>, ok: bool)
    ensures InHand(Settle(jobs, ok)) == multiset(jobs)
  {
    hide InHand;
    if jobs == [] {
      NothingInHand();
    } else {
      HandSettle(jobs[1..], ok);
      SeqHead(jobs);
      HandAppend([Claim(jobs[0], Sent(ok))], Settle(jobs[1..], ok));
      HandOne(Claim(jobs[0], Sent(ok)));
    }
  }

  lemma {:induction false} HandMember(ops: seq<Op>, i: nat, j: Job)
    requires i < |ops|
    ensures InHand(ops)[j] >= Carried(ops[i])[j]
  {
    hide Carried;
    if i > 0 {
      HandMember(ops[1..], i - 1, j);
    }
  }

  lemma {:induction false} HandOf(ops: seq<Op>, j: Job)
    requires InHand(ops)[j] > 0
    ensures exists op :: op in ops && j in Carried(op)
  {
    hide Carried;
    if j in Carried(ops[0]) {
      assert ops[0] in ops;
    } else {
      HandOf(ops[1..], j);
      var op :| op in ops[1..] && j in Carried(op);
      assert op in ops;
    }
  }

  // ---------- the worker's steps ----------

  /** The step hands over all it carried. */
  ghost predicate HandsOver(a: Shared, op: Op, b: Shared, push: seq<Op>) {
    multiset(b.queue) + InHand(push) == multiset(a.queue) + Carried(op)
  }

  lemma SelectFlow(a: Shared, b: Shared, push: seq<Op>)
    requires SelectStep(a, b, push) && !a.stopping
    ensures HandsOver(a, Select, b, push)
  {
    QueueSplit(a);
    HandOne(Collect([a.queue[0]]));
  }

  lemma DeliverHand(batch: seq<Job>)
    ensures InHand(Deliver(batch)) == multiset(batch)
  {
    HandTwo(Scan(batch, [], AfterCollect), AfterBatch);
  }

  lemma CollectFlow(a: Shared, batch: seq<Job>, b: Shared, push: seq<Op>)
    requires CollectStep(a, batch, b, push) && !a.stopping
    ensures HandsOver(a, Collect(batch), b, push)
  {
    hide Deliver, InHand;
    DeliverHand(batch);
    if a.queue != [] {
      QueueSplit(a);
      DeliverHand(batch + [a.queue[0]]);
      HandOne(Collect(batch + [a.queue[0]]));
    }
  }

  /** Before a stop every job in hand is still to be asked about. */
  lemma ScanFlow(a: Shared, todo: seq<Job>, kept: seq<Job>, cont: Cont)
    requires todo != [] ==> todo[0] in a.pendingJobs && todo[0] !in a.resolving
    ensures InHand([ScanNext(a, todo, kept, cont)]) == Carried(Scan(todo, kept, cont))
  {
    hide Resume, HeldCont, InHand;
    HandOne(ScanNext(a, todo, kept, cont));
    ResumeHolds(kept, cont);
    ResumeSilent(kept, cont);
    if todo != [] {
      SeqHead(todo);
    }
  }

  lemma ScanCarries(job: Job, todo: seq<Job>, kept: seq<Job>, cont: Cont)
    ensures Carried(Scan(todo, kept + [job], cont)) == Carried(CallValid(job, todo, kept, cont))
    ensures Carried(Note(job, Invalid)) + Carried(Scan(todo, kept, cont)) == Carried(CallValid(job, todo, kept, cont))
  {
    hide Carried, HeldCont;
    WaitingCarries(job, todo, kept, cont);
    WaitingCarries(job, todo, kept + [job], cont);
    MoreKept(kept, job);
    Reordered(multiset{job}, multiset(todo), multiset(kept), HeldCont(cont));
  }

  lemma WaitingCarries(job: Job, todo: seq<Job>, kept: seq<Job>, cont: Cont)
    ensures Carried(Scan(todo, kept, cont)) == multiset(todo) + multiset(kept) + HeldCont(cont)
    ensures Carried(CallValid(job, todo, kept, cont))
         == multiset{job} + multiset(todo) + multiset(kept) + HeldCont(cont)
    ensures Carried(Note(job, Invalid)) == multiset{job}
  {
    hide HeldCont;
  }

  lemma MoreKept(kept: seq<Job>, job: Job)
    ensures multiset(kept + [job]) == multiset(kept) + multiset{job}
  {
  }

  lemma Reordered(j: multiset<Job>, t: multiset<Job>, k: multiset<Job>, h: multiset<Job>)
    ensures t + (k + j) + h == j + t + k + h == j + (t + k + h)
  {
  }

  lemma ValidFlow(job: Job, todo: seq<Job>, kept: seq<Job>, cont: Cont, push: seq<Op>)
    requires ValidStep(job, todo, kept, cont, push)
    ensures InHand(push) == Carried(CallValid(job, todo, kept, cont))
  {
    hide HeldCont, InHand, Carried;
    ScanCarries(job, todo, kept, cont);
    if push == [Scan(todo, kept + [job], cont)] {
      HandOne(Scan(todo, kept + [job], cont));
    } else {
      HandTwo(Note(job, Invalid), Scan(todo, kept, cont));
    }
  }

  lemma GroupsFlow(a: Shared, groups: seq<seq<Job>>)
    requires !a.stopping
    ensures InHand(GroupsNext(a, groups)) == Carried(Groups(groups))
  {
    hide Flatten, InHand;
    NothingFlattened();
    NothingInHand();
    if groups != [] {
      HeadHeld(groups);
      HandOne(GroupsNext(a, groups)[0]);
    }
  }

  lemma NothingFlattened()
    ensures Flatten([]) == []
  {
  }

  lemma NothingInHand()
    ensures InHand([]) == multiset{}
  {
  }

  lemma MessagesFlow(a: Shared, messages: seq<seq<Job>>, rest: seq<seq<Job>>)
    requires !a.stopping
    ensures InHand(MessagesNext(a, messages, rest)) == Carried(Messages(messages, rest))
  {
    hide Flatten, InHand;
    NothingFlattened();
    HandOne(MessagesNext(a, messages, rest)[0]);
    if messages != [] {
      HeadHeld(messages);
    }
  }

  /** Before a stop every job in hand is marked. */
  lemma {:induction false} AllMarked(sh: Shared, jobs: seq<Job>)
    requires !sh.stopping && forall j | j in jobs :: Markable(sh, j) && multiset(jobs)[j] == 1
    ensures MarkAttempted(sh, jobs) == jobs
    decreases |jobs|
  {
    if jobs != [] {
      SeqHead(jobs);
      var next := sh.(attempted := sh.attempted + {jobs[0]});
      forall j | j in jobs[1..] ensures Markable(next, j) && multiset(jobs[1..])[j] == 1 {
        assert j in jobs && multiset(jobs[1..])[j] > 0;
      }
      AllMarked(next, jobs[1..]);
      assert jobs == [jobs[0]] + jobs[1..];
    }
  }

  lemma MarkFlow(a: Shared, jobs: seq<Job>, more: seq<seq<Job>>, rest: seq<seq<Job>>)
    requires !a.stopping && forall j | j in jobs :: Markable(a, j) && multiset(jobs)[j] == 1
    ensures InHand(MarkNext(MarkAttempted(a, jobs), more, rest)) == Carried(Mark(jobs, more, rest))
  {
    hide MarkAttempted, Flatten, InHand;
    AllMarked(a, jobs);
    HandOne(Messages(more, rest));
    HandTwo(Send(jobs), Messages(more, rest));
  }

  /** What the invariants say about a step the worker is about to take before a stop. */
  ghost predicate Steady(a: Shared, op: Op) {
    && SharedInv(a) && OkOp(a, op) && !a.stopping
    && (forall j | j in Carried(op) :: j in a.pendingJobs && Carried(op)[j] == 1)
    && (forall j | j in Held(op) :: j !in a.attempted && j !in a.resolving)
    && (op.Claim? ==> op.job !in a.resolving)
  }

  lemma BatchFlow(a: Shared, op: Op, b: Shared, push: seq<Op>)
    requires Steady(a, op) && WorkerExec(a, op, b, push) && Batching(op)
    ensures InHand(push) == Carried(op) && b.queue == a.queue
  {
    hide InHand, SharedInv, ScanNext, GroupsNext, MessagesNext, MarkNext, MarkAttempted, Flatten, ValidStep;
    match op {
      case Scan(todo, kept, cont) =>
        if todo != [] { assert todo[0] in Held(op); }
        ScanFlow(a, todo, kept, cont);
      case CallValid(job, todo, kept, cont) => ValidFlow(job, todo, kept, cont, push);
      case Groups(groups) => GroupsFlow(a, groups);
      case Messages(messages, rest) => MessagesFlow(a, messages, rest);
      case Mark(jobs, more, rest) =>
        MarkableJobs(a, jobs, more, rest);
        MarkFlow(a, jobs, more, rest);
    }
  }

  lemma MarkableJobs(a: Shared, jobs: seq<Job>, more: seq<seq<Job>>, rest: seq<seq<Job>>)
    requires Steady(a, Mark(jobs, more, rest))
    ensures forall j | j in jobs :: Markable(a, j) && multiset(jobs)[j] == 1
  {
    hide SharedInv, Flatten;
    var op := Mark(jobs, more, rest);
    forall j | j in jobs ensures Markable(a, j) && multiset(jobs)[j] == 1 {
      assert multiset(jobs)[j] > 0;
      assert j in Held(op) && j in Carried(op) && Carried(op)[j] == 1;
    }
  }

  lemma UnbatchedFlow(a: Shared, op: Op, b: Shared, push: seq<Op>)
    requires Steady(a, op) && WorkerExec(a, op, b, push) && !Batching(op)
    ensures HandsOver(a, op, b, push)
  {
    hide InHand, SharedInv, SelectStep, CollectStep, Settle, Deliver, AbandonStep, DrainStep;
    NothingInHand();
    HandOne(Select);
    match op {
      case Select => SelectFlow(a, b, push);
      case Collect(batch) => CollectFlow(a, batch, b, push);
      case Send(jobs) =>
        var ok :| b == a.(sends := a.sends + [SendRecord(jobs, ok)]) && push == Settle(jobs, ok);
        HandSettle(jobs, ok);
      case _ =>
    }
  }

  /** What a resolution step passes on, and that it resolves what it finishes. */
  lemma ResolveFlow(a: Shared, op: Op, b: Shared, push: seq<Op>)
    requires Steady(a, op) && ResolveExec(a, op, b, push)
    ensures b.queue == a.queue
    ensures if op.Finish? then InHand(push) == multiset{} && b.pendingJobs == a.pendingJobs - {op.job}
            else InHand(push) == Carried(op) && b.pendingJobs == a.pendingJobs
  {
    hide *;
    if op.Note? || op.Hook? || op.CompleteNote? {
      NoteFlow(a, op, b, push);
    } else if op.Finish? {
      FinishFlow(a, op, b, push);
    } else {
      ClaimFlow(a, op, b, push);
    }
  }

  lemma NoteFlow(a: Shared, op: Op, b: Shared, push: seq<Op>)
    requires ResolveExec(a, op, b, push) && (op.Note? || op.Hook? || op.CompleteNote?)
    ensures b.queue == a.queue && InHand(push) == Carried(op) && b.pendingJobs == a.pendingJobs
  {
    hide InHand, Notable;
    match op {
      case Note(job, goal) => NoteHand(a, job, goal, b, push);
      case Hook(job, next) => HandOne(CompleteNote(job, next));
      case CompleteNote(job, next) => NothingInHand(); if next.Some? { HandOne(Claim(job, next.value)); }
    }
  }

  lemma NoteHand(a: Shared, job: Job, goal: Claimant, b: Shared, push: seq<Op>)
    requires ResolveExec(a, Note(job, goal), b, push)
    ensures b.queue == a.queue && InHand(push) == multiset{job} && b.pendingJobs == a.pendingJobs
  {
    hide InHand, Notable;
    HandOne(Hook(job, Some(goal)));
    HandOne(Claim(job, goal));
  }

  lemma FinishFlow(a: Shared, op: Op, b: Shared, push: seq<Op>)
    requires ResolveExec(a, op, b, push) && op.Finish?
    ensures b.queue == a.queue && InHand(push) == multiset{} && b.pendingJobs == a.pendingJobs - {op.job}
  {
  }

  lemma ClaimFlow(a: Shared, op: Op, b: Shared, push: seq<Op>)
    requires Steady(a, op) && ResolveExec(a, op, b, push)
    requires !(op.Note? || op.Hook? || op.CompleteNote? || op.Finish?)
    ensures b.queue == a.queue && InHand(push) == Carried(op) && b.pendingJobs == a.pendingJobs
  {
    hide InHand, SharedInv, ClaimSteps;
    NothingInHand();
    if op.Claim? {
      assert op.job in Carried(op);
      ClaimHand(op.job, op.claimant);
    } else if op.Recheck? {
      HandOne(Report(op.job, Unattempted));
    }
  }

  lemma ClaimHand(job: Job, claimant: Claimant)
    ensures InHand(ClaimSteps(job, claimant)) == multiset{job}
  {
    hide InHand;
    match claimant
    case Stranded => HandTwo(Recheck(job), Finish(job));
    case Invalid => HandOne(Finish(job));
    case Sent(ok) => HandTwo(Report(job, Delivered(ok)), Finish(job));
  }

  /** One step of the worker before a stop keeps the balance. */
  lemma StepFlow(a: Shared, op: Op, rest: seq<Op>, b: Shared, push: seq<Op>)
    requires Steady(a, op) && Balanced(a, [op] + rest) && (WorkerExec(a, op, b, push) || ResolveExec(a, op, b, push))
    ensures Balanced(b, push + rest)
  {
    hide WorkerExec, ResolveExec, Steady, InHand, Carried, Unresolved;
    HandAppend([op], rest);
    HandOne(op);
    HandAppend(push, rest);
    if WorkerExec(a, op, b, push) {
      WorkerFlow(a, op, b, push);
      HandBalance(a, op, rest, b, push);
    } else {
      ResolveFlow(a, op, b, push);
      FinishBalance(a, op, rest, b, push);
    }
  }

  lemma HandBalance(a: Shared, op: Op, rest: seq<Op>, b: Shared, push: seq<Op>)
    requires multiset(a.queue) + (Carried(op) + InHand(rest)) == multiset(a.pendingJobs)
    requires HandsOver(a, op, b, push) && b.pendingJobs == a.pendingJobs
    ensures multiset(b.queue) + (InHand(push) + InHand(rest)) == multiset(b.pendingJobs)
  {
    hide InHand, Carried;
    assert multiset(b.queue) + (InHand(push) + InHand(rest)) == multiset(b.queue) + InHand(push) + InHand(rest);
  }

  lemma WorkerFlow(a: Shared, op: Op, b: Shared, push: seq<Op>)
    requires Steady(a, op) && WorkerExec(a, op, b, push)
    ensures HandsOver(a, op, b, push) && b.pendingJobs == a.pendingJobs
  {
    hide WorkerExec, Steady, InHand, Carried;
    WorkerFields(a, op, b, push);
    if Batching(op) {
      BatchFlow(a, op, b, push);
    } else {
      UnbatchedFlow(a, op, b, push);
    }
  }

  lemma FinishBalance(a: Shared, op: Op, rest: seq<Op>, b: Shared, push: seq<Op>)
    requires multiset(a.queue) + (Carried(op) + InHand(rest)) == multiset(a.pendingJobs) && b.queue == a.queue
    requires if op.Finish? then InHand(push) == multiset{} && b.pendingJobs == a.pendingJobs - {op.job}
             else InHand(push) == Carried(op) && b.pendingJobs == a.pendingJobs
    ensures multiset(b.queue) + (InHand(push) + InHand(rest)) == multiset(b.pendingJobs)
  {
    hide InHand;
    if op.Finish? {
      assert op.job in multiset(a.pendingJobs);
      assert multiset(a.pendingJobs - {op.job}) == multiset(a.pendingJobs) - multiset{op.job};
    }
  }

  // ---------- why the worker's step is steady ----------

  /** Before a stop nobody but the worker has a step to take, but for a stop about to begin. */
  lemma OnlyWorker(s: System, t: nat, i: nat)
    requires HookInv(s) && !s.sh.stopping && t < |s.threads| && i < |s.threads[t]| && t != WORKER
    ensures t == STOPPER && i == 0 && (s.threads[t][0].CloseAdmission? || s.threads[t][0].MarkStopping?)
  {
    assert ResolversDone(s.threads);
    hide Inv, Classes, Duty, HookCover, WaitCover, ChannelCover, WorkSide, ChecksLate, LoopAtEnd;
    assert StopOrder(s.sh, s.threads[STOPPER]);
  }

  lemma ClaimedOnce(s: System, j: Job)
    requires HookInv(s) && Flow(s) && !s.sh.stopping && j in s.sh.pendingJobs
    requires s.threads[WORKER] != [] && s.threads[WORKER][0].Claim? && s.threads[WORKER][0].job == j
    ensures j !in s.sh.resolving
  {
    hide HookInv, Total, InHand, Weight;
    if j in s.sh.resolving {
      ClaimIsOwed(s, j);
      TotalPositive(Owes, j, s.threads);
      var t, i :| 0 <= t < |s.threads| && 0 <= i < |s.threads[t]| && Weight(Owes, j, s.threads[t][i]) > 0;
      OweIsFinish(s.threads[t][i], j);
      if t != WORKER {
        OnlyWorker(s, t, i);
      }
      assert t == WORKER && multiset(s.sh.pendingJobs)[j] == 1;
      CarriedTwice(s.threads[WORKER], i, j);
    }
  }

  lemma OweIsFinish(op: Op, j: Job)
    requires Weight(Owes, j, op) > 0
    ensures op == Finish(j)
  {
  }

  lemma ClaimIsOwed(s: System, j: Job)
    requires HookInv(s) && j in s.sh.pendingJobs && j in s.sh.resolving
    ensures Total(Owes, j, s.threads) > 0
  {
    hide Classes, Duty, StopInv, LoopAtEnd, StopSide, WorkSide, ChecksLate, Total, OkThreads, Pooled, LoopInv;
    assert s.sh.resolved[j] == 0;
    assert Claimed(s.sh, j, Total(Owes, j, s.threads), Total(Speaks, j, s.threads));
  }

  lemma CarriedTwice(work: seq<Op>, i: nat, j: Job)
    requires 0 < i < |work| && j in Carried(work[0]) && j in Carried(work[i])
    ensures InHand(work)[j] >= 2
  {
    hide Carried;
    HandMember(work[1..], i - 1, j);
  }

  lemma TopSteady(s: System)
    requires HookInv(s) && Flow(s) && !s.sh.stopping && s.threads[WORKER] != []
    ensures Steady(s.sh, s.threads[WORKER][0])
  {
    var work := s.threads[WORKER];
    var op := work[0];
    ContextOf(s);
    hide FullInv, StopSide, WorkSide, ChecksLate, SharedInv, InHand;
    forall j | j in Carried(op) ensures j in s.sh.pendingJobs && Carried(op)[j] == 1 {
      HandMember(work, 0, j);
      assert multiset(s.sh.pendingJobs)[j] <= 1;
    }
    forall j | j in Held(op) ensures j !in s.sh.attempted && j !in s.sh.resolving {
      assert Pooled(s.sh, j, multiset(s.sh.queue)[j] + Weight(Holds, j, op));
    }
    if op.Claim? {
      assert op.job in Carried(op);
      ClaimedOnce(s, op.job);
    }
  }

  lemma ContextOf(s: System)
    requires HookInv(s) && |s.threads| >= 2 && s.threads[WORKER] != []
    ensures Context(s.sh, s.threads[WORKER][0])
  {
    hide Classes, Duty, StopInv, LoopAtEnd, StopSide, WorkSide, ChecksLate, Inv, Context;
    ContextHolds(s, WORKER);
  }

  // ---------- every run ----------

  /** Steps pushed before a stop do not end the worker. */
  lemma PushStays(a: Shared, op: Op, b: Shared, push: seq<Op>)
    requires OkOp(a, op) && !a.stopping && !op.Exit? && (WorkerExec(a, op, b, push) || ResolveExec(a, op, b, push))
    ensures b.exited == a.exited && forall x | x in push :: !x.Exit?
  {
    hide *;
    if WorkerExec(a, op, b, push) {
      if Batching(op) {
        BatchStays(a, op, b, push);
      } else {
        UnbatchedStays(a, op, b, push);
      }
    } else {
      ResolveStays(a, op, b, push);
    }
  }

  lemma BatchStays(a: Shared, op: Op, b: Shared, push: seq<Op>)
    requires WorkerExec(a, op, b, push) && Batching(op) && !a.stopping
    ensures b.exited == a.exited && forall x | x in push :: !x.Exit?
  {
    hide MarkAttempted, Resume;
    if op.Scan? {
      ResumeSilent(op.kept, op.cont);
    }
  }

  lemma UnbatchedStays(a: Shared, op: Op, b: Shared, push: seq<Op>)
    requires OkOp(a, op) && WorkerExec(a, op, b, push) && !Batching(op) && !a.stopping && !op.Exit?
    ensures b.exited == a.exited && forall x | x in push :: !x.Exit?
  {
    hide Settle;
    if op.Send? {
      var ok :| b == a.(sends := a.sends + [SendRecord(op.jobs, ok)]) && push == Settle(op.jobs, ok);
      SettleOps(op.jobs, ok);
    }
  }

  lemma ResolveStays(a: Shared, op: Op, b: Shared, push: seq<Op>)
    requires ResolveExec(a, op, b, push)
    ensures b.exited == a.exited && forall x | x in push :: !x.Exit?
  {
    hide ResolveExec;
    ResolveLeadsOn(a, op, b, push);
  }

  lemma WorkerStepFlow(s: System, push: seq<Op>, s': System)
    requires HookInv(s) && Flow(s) && ThreadStepWith(s, WORKER, push, s') && !s.sh.stopping
    ensures Balanced(s'.sh, s'.threads[WORKER]) && Unexited(s'.sh, s'.threads[WORKER])
  {
    var op, rest := s.threads[WORKER][0], s.threads[WORKER][1..];
    assert InClass(WORKER, op) && op in s.threads[WORKER];
    TopSteady(s);
    assert OkOp(s.sh, op);
    hide HookInv, Steady, Balanced, WorkerExec, ResolveExec, StopExec;
    WorkerSide(s.sh, op, s'.sh, push);
    assert s.threads[WORKER] == [op] + rest;
    assert s'.threads[WORKER] == push + rest;
    StepFlow(s.sh, op, rest, s'.sh, push);
    PushStays(s.sh, op, s'.sh, push);
  }

  lemma ThreadStepFlow(s: System, t: nat, push: seq<Op>, s': System)
    requires HookInv(s) && Flow(s) && ThreadStepWith(s, t, push, s')
    ensures Flow(s')
  {
    Placed(s, t, push, s');
    if s.sh.stopping {
      hide HookInv, Flow;
      StoppingOn(s, t, push, s');
    } else if t == WORKER {
      WorkerStepFlow(s, push, s');
    } else {
      OnlyWorker(s, t, 0);
      OpeningKeeps(s.sh, s.threads[t][0], s'.sh, push);
    }
  }

  lemma StoppingOn(s: System, t: nat, push: seq<Op>, s': System)
    requires HookInv(s) && ThreadStepWith(s, t, push, s') && s.sh.stopping
    ensures s'.sh.stopping && |s'.threads| >= 2
  {
    hide Classes, Duty, StopInv, LoopAtEnd, StopSide, WorkSide, ChecksLate, Inv, ThreadStepWith;
    ThreadStepInv(s, t, push, s');
    assert Inv(s');
    GrowStops(s.sh, s'.sh);
    InvThreads(s');
  }

  lemma GrowStops(a: Shared, b: Shared)
    requires Grow(a, b)
    ensures a.stopping ==> b.stopping
  {
  }

  lemma InvThreads(s: System)
    requires Inv(s)
    ensures |s.threads| >= 2
  {
  }

  lemma OpeningKeeps(a: Shared, op: Op, b: Shared, push: seq<Op>)
    requires Exec(a, op, b, push) && (op.CloseAdmission? || op.MarkStopping?)
    ensures b.queue == a.queue && b.pendingJobs == a.pendingJobs && b.exited == a.exited
  {
    hide StopExec;
    assert StopExec(a, op, b, push);
    DispatchStop.StopFields(a, op, b, push);
  }

  lemma EnqueueFlow(a: Shared, work: seq<Op>, job: Job)
    requires Balanced(a, work) && job !in a.pendingJobs
    ensures Balanced(Enqueue(a, job), work)
  {
    hide InHand;
    assert multiset(a.queue + [job]) == multiset(a.queue) + multiset{job};
    assert multiset(a.pendingJobs + {job}) == multiset(a.pendingJobs) + multiset{job};
  }

  lemma CallFlow(s: System, s': System)
    requires HookInv(s) && Flow(s) && CallStep(s, s')
    ensures Flow(s')
  {
    hide HookInv, Enqueue, Balanced, Unexited;
    QuietStart(s);
    if job :| job !in s.sh.accepted && s' == s.(sh := Enqueue(s.sh, job)) {
      EnqueueSteady(s.sh, s.threads[WORKER], job);
      if !s.sh.stopping {
        EnqueueFlow(s.sh, s.threads[WORKER], job);
      }
    } else {
      CallBalance(s.sh, s.threads[WORKER], s'.sh, s'.threads[WORKER]);
    }
  }

  lemma QuietStart(s: System)
    requires HookInv(s)
    ensures s.sh.pendingJobs <= s.sh.accepted && (!s.sh.started ==> s.threads[WORKER] == [])
  {
    hide Classes, Duty, StopInv, LoopAtEnd, StopSide, WorkSide, ChecksLate, Total, OkThreads, Pooled, LoopInv;
  }

  lemma CallBalance(a: Shared, work: seq<Op>, b: Shared, after: seq<Op>)
    requires b.queue == a.queue && b.pendingJobs == a.pendingJobs && b.exited == a.exited
    requires after == work || (work == [] && after == [Select])
    ensures Balanced(a, work) ==> Balanced(b, after)
    ensures Unexited(a, work) ==> Unexited(b, after)
  {
    HandOne(Select);
  }

  lemma EnqueueSteady(a: Shared, work: seq<Op>, job: Job)
    ensures Enqueue(a, job).stopping == a.stopping && (Unexited(a, work) ==> Unexited(Enqueue(a, job), work))
  {
  }

  lemma {:induction false} RunFlow(states: seq<System>, k: nat)
    requires Run(states) && k < |states|
    ensures Flow(states[k])
  {
    hide HookInv, Flow, ThreadStepWith, CallStep;
    if k == 0 {
      InitFlow(states[0]);
    } else {
      RunFlow(states, k - 1);
      RunHooks(states, k - 1);
      assert Step(states[k - 1], states[k - 1 + 1]);
      if CallStep(states[k - 1], states[k]) {
        CallFlow(states[k - 1], states[k]);
      } else {
        var t, push :| ThreadStepWith(states[k - 1], t, push, states[k]);
        ThreadStepFlow(states[k - 1], t, push, states[k]);
      }
    }
  }

  lemma InitFlow(s: System)
    requires Init(s)
    ensures Flow(s)
  {
  }

  // ---------- what this means ----------

  /** Before a stop every accepted job has been resolved, or waits in the channel, or the worker has it in
      its hands: waiting in a batch, about to be sent, or on its way to be resolved.  And only one of them. */
  lemma NothingIsLost(states: seq<System>, k: nat, j: Job)
    requires Run(states) && k < |states| && !states[k].sh.stopping && j in states[k].sh.accepted
    ensures |states[k].threads| >= 2
    ensures var sh, work := states[k].sh, states[k].threads[WORKER];
      && (sh.resolved[j] == 1 || j in sh.queue || exists op :: op in work && j in Carried(op))
      && sh.resolved[j] + multiset(sh.queue)[j] + InHand(work)[j] == 1
  {
    RunFlow(states, k);
    hide Run, Carried, InHand;
    ResolvedAtMostOnce(states, k);
    var sh, work := states[k].sh, states[k].threads[WORKER];
    assert multiset(sh.pendingJobs)[j] == if j in sh.pendingJobs then 1 else 0;
    if InHand(work)[j] > 0 {
      HandOf(work, j);
    }
  }

  /** A worker waiting at its channel with nothing in it has served everybody. */
  lemma IdleWorkerServedAll(states: seq<System>, k: nat)
    requires Run(states) && k < |states| && !states[k].sh.stopping && states[k].sh.queue == []
    requires |states[k].threads| >= 2 && states[k].threads[WORKER] != [] && states[k].threads[WORKER][0].Select?
    ensures states[k].sh.pendingJobs == {} && forall j | j in states[k].sh.accepted :: states[k].sh.resolved[j] == 1
  {
    hide Run;
    RunFlow(states, k);
    RunHooks(states, k);
    SelectAlone(states[k]);
    hide FullInv, StopSide, WorkSide, ChecksLate, Unexited;
    HandOne(Select);
    NoMembers(states[k].sh.pendingJobs);
    ResolvedAtMostOnce(states, k);
  }

  lemma NoMembers(jobs: set<Job>)
    requires multiset(jobs) == multiset{}
    ensures jobs == {}
  {
    forall j ensures j in jobs <==> multiset(jobs)[j] > 0 {
    }
  }

  /** At the head of its loop the worker has nothing else on its stack. */
  lemma SelectAlone(s: System)
    requires HookInv(s) && s.threads[WORKER] != [] && s.threads[WORKER][0].Select?
    ensures s.threads[WORKER] == [Select]
  {
    var work := s.threads[WORKER];
    var any := Job(0, Message("", 0, "", "", ""));
    assert LoopInv(s.sh, Total(Controls, any, s.threads)) && LoopAtEnd(work);
    hide FullInv, StopSide, WorkSide, ChecksLate, Sum, Total;
    TotalMember(Controls, any, s.threads, WORKER);
    if |work| > 1 {
      ControlledTwice(work, any);
    }
  }

  lemma ControlledTwice(work: seq<Op>, any: Job)
    requires |work| > 1 && work[0].Select? && LoopAtEnd(work)
    ensures Sum(Controls, any, work) >= 2
  {
    SumMember(Controls, any, work[1..], |work| - 2);
    hide Sum;
    assert Sum(Controls, any, work) == Weight(Controls, any, work[0]) + Sum(Controls, any, work[1..]) by {
      SumHead(Controls, any, work);
    }
  }

  lemma SumHead(k: Tally, j: Job, ops: seq<Op>)
    requires ops != []
    ensures Sum(k, j, ops) == Weight(k, j, ops[0]) + Sum(k, j, ops[1..])
  {
  }
}
