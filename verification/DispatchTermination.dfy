/** After a stop has begun, only boundedly many steps are left. */
module DispatchTermination {
  import opened Coalesce
  import opened Dispatch
  import opened DispatchSafety
  import opened DispatchStop

  /** An upper bound on the steps that follow from one step, with `p` jobs pending. */
  function Cost(p: nat, op: Op): nat {
    match op
    case Select => 9 + 7 * p
    case Collect(batch) => 9 + 7 * p + 17 * |batch|
    case Scan(todo, kept, cont) => 3 + 17 * |todo| + 7 * |kept| + ContCost(cont)
    case CallValid(_, todo, kept, cont) => 16 + 17 * |todo| + 7 * |kept| + ContCost(cont)
    case Groups(groups) => 1 + 7 * |Flatten(groups)|
    case Messages(messages, rest) => 2 + 7 * |Flatten(messages)| + 7 * |Flatten(rest)|
    case Mark(_, more, rest) => 3 + 7 * |Flatten(more)| + 7 * |Flatten(rest)|
    case Send(jobs) => 1 + 4 * |jobs|
    case AfterBatch => 5 + 7 * p
    case AbandonUnattempted => 1 + 7 * p
    case Drain => 3
    case Note(_, _) => 7
    case Hook(_, next) => if next.Some? then 6 else 2
    case CompleteNote(_, next) => if next.Some? then 5 else 1
    case Claim(_, _) => 4
    case Recheck(_) => 2
    case CloseAdmission(_) => 8 + 10 * p
    case MarkStopping(_) => 7 + 10 * p
    case Spawn(jobs) => 1 + 7 * |jobs|
    case _ => 1
  }

  function ContCost(cont: Cont): nat {
    match cont
    case AfterCollect => 0
    case AfterGroup(rest) => 1 + 7 * |Flatten(rest)|
    case AfterMessage(more, rest) => 2 + 7 * |Flatten(more)| + 7 * |Flatten(rest)|
  }

  function StackCost(p: nat, ops: seq<Op>): nat {
    if ops == [] then 0 else Cost(p, ops[0]) + StackCost(p, ops[1..])
  }

  function ThreadsCost(p: nat, threads: seq<seq<Op>>): nat {
    if threads == [] then 0 else StackCost(p, threads[0]) + ThreadsCost(p, threads[1..])
  }

  function Measure(s: System): nat {
    18 * |s.sh.queue| + ThreadsCost(|s.sh.pendingJobs|, s.threads)
  }

  lemma {:induction false} StackAppend(p: nat, a: seq<Op>, b: seq<Op>)
    ensures StackCost(p, a + b) == StackCost(p, a) + StackCost(p, b)
  {
    hide Cost;
    if a == [] {
      assert a + b == b;
    } else {
      assert (a + b)[1..] == a[1..] + b;
      StackAppend(p, a[1..], b);
    }
  }

  lemma {:induction false} ThreadsAppend(p: nat, a: seq<seq<Op>>, b: seq<seq<Op>>)
    ensures ThreadsCost(p, a + b) == ThreadsCost(p, a) + ThreadsCost(p, b)
  {
    hide StackCost;
    if a == [] {
      assert a + b == b;
    } else {
      assert (a + b)[1..] == a[1..] + b;
      ThreadsAppend(p, a[1..], b);
    }
  }

  lemma {:induction false} ThreadsUpdate(p: nat, threads: seq<seq<Op>>, t: nat, ops: seq<Op>)
    requires t < |threads|
    ensures ThreadsCost(p, threads[t := ops]) + StackCost(p, threads[t]) == ThreadsCost(p, threads) + StackCost(p, ops)
  {
    hide StackCost;
    var updated := threads[t := ops];
    if t > 0 {
      assert updated[1..] == threads[1..][t - 1 := ops];
      ThreadsUpdate(p, threads[1..], t - 1, ops);
      assert threads[1..][t - 1] == threads[t];
    } else {
      assert updated[1..] == threads[1..];
    }
  }

  lemma CostMonotone(p: nat, q: nat, op: Op)
    requires p <= q
    ensures Cost(p, op) <= Cost(q, op)
  {
  }

  lemma {:induction false} StackMonotone(p: nat, q: nat, ops: seq<Op>)
    requires p <= q
    ensures StackCost(p, ops) <= StackCost(q, ops)
  {
    hide Cost;
    if ops != [] {
      CostMonotone(p, q, ops[0]);
      StackMonotone(p, q, ops[1..]);
    }
  }

  lemma {:induction false} ThreadsMonotone(p: nat, q: nat, threads: seq<seq<Op>>)
    requires p <= q
    ensures ThreadsCost(p, threads) <= ThreadsCost(q, threads)
  {
    hide StackCost;
    if threads != [] {
      StackMonotone(p, q, threads[0]);
      ThreadsMonotone(p, q, threads[1..]);
    }
  }

  // ---------- what the pushed steps cost ----------

  lemma NoCost(p: nat)
    ensures StackCost(p, []) == 0
  {
  }

  lemma PushCost(p: nat, a: Op, ops: seq<Op>)
    ensures StackCost(p, [a] + ops) == Cost(p, a) + StackCost(p, ops)
  {
    hide Cost, StackCost;
    StackAppend(p, [a], ops);
    OneCost(p, a);
  }

  lemma {:induction false} StrandCost(p: nat, jobs: seq<Job>)
    ensures StackCost(p, Strand(jobs)) == 7 * |jobs|
  {
    hide StackCost;
    NoCost(p);
    if jobs != [] {
      StrandCost(p, jobs[1..]);
      PushCost(p, Note(jobs[0], Stranded), Strand(jobs[1..]));
    }
  }

  lemma {:induction false} SettleCost(p: nat, jobs: seq<Job>, ok: bool)
    ensures StackCost(p, Settle(jobs, ok)) == 4 * |jobs|
  {
    hide StackCost;
    NoCost(p);
    if jobs != [] {
      SettleCost(p, jobs[1..], ok);
      PushCost(p, Claim(jobs[0], Sent(ok)), Settle(jobs[1..], ok));
    }
  }

  lemma {:induction false} HooksCost(p: nat, jobs: seq<Job>)
    ensures StackCost(p, Hooks(jobs)) == 2 * |jobs|
  {
    hide StackCost;
    NoCost(p);
    if jobs != [] {
      HooksCost(p, jobs[1..]);
      PushCost(p, Hook(jobs[0], None), Hooks(jobs[1..]));
    }
  }

  lemma {:induction false} WaitsCost(p: nat, jobs: seq<Job>)
    ensures StackCost(p, Waits(jobs)) == |jobs|
  {
    hide StackCost;
    NoCost(p);
    if jobs != [] {
      WaitsCost(p, jobs[1..]);
      PushCost(p, WaitJob(jobs[0]), Waits(jobs[1..]));
    }
  }

  lemma {:induction false} ResolversCost(p: nat, jobs: seq<Job>)
    ensures ThreadsCost(p, Resolvers(jobs)) == 7 * |jobs|
  {
    hide StackCost;
    if jobs != [] {
      ResolversCost(p, jobs[1..]);
      OneCost(p, Note(jobs[0], Stranded));
      assert Resolvers(jobs)[0] == [Note(jobs[0], Stranded)];
      assert Resolvers(jobs)[1..] == Resolvers(jobs[1..]);
    }
  }

  lemma OneCost(p: nat, a: Op)
    ensures StackCost(p, [a]) == Cost(p, a)
  {
    hide Cost;
  }

  lemma TwoCost(p: nat, a: Op, b: Op)
    ensures StackCost(p, [a, b]) == Cost(p, a) + Cost(p, b)
  {
    hide Cost;
    assert [a, b][1..] == [b];
    OneCost(p, b);
  }

  lemma EnumeratedLength(order: seq<Job>, jobs: set<Job>)
    requires Enumerates(order, jobs)
    ensures |order| == |jobs|
  {
    assert |multiset(order)| == |order| && |multiset(jobs)| == |jobs|;
  }

  lemma {:induction false} WithoutLength(order: seq<Job>, jobs: set<Job>)
    ensures |Without(order, jobs)| <= |order|
  {
    if order != [] {
      WithoutLength(order[1..], jobs);
    }
  }

  lemma SubsetSize(a: set<Job>, b: set<Job>)
    requires a <= b
    ensures |a| <= |b|
  {
    if a != b {
      assert b == a + (b - a);
    }
  }

  lemma ResumeCost(p: nat, kept: seq<Job>, cont: Cont)
    ensures Cost(p, Resume(kept, cont)) < Cost(p, Scan([], kept, cont))
  {
    hide Split, GroupByKey, Flatten;
    match cont
    case AfterCollect =>
      GroupingKeepsJobs(kept);
      assert |multiset(Flatten(GroupByKey(kept)))| == |multiset(kept)|;
    case AfterGroup(rest) => FlattenSplit(kept);
    case AfterMessage(more, rest) =>
  }

  /** A step is paid for: what it pushes and spawns costs less than it did, the channel counted in. */
  ghost predicate Cheaper(p: nat, a: Shared, op: Op, b: Shared, push: seq<Op>) {
    18 * |b.queue| + StackCost(p, push) + ThreadsCost(p, Spawned(op)) < 18 * |a.queue| + Cost(p, op)
  }

  lemma CheaperStack(p: nat, a: Shared, op: Op, b: Shared, push: seq<Op>)
    requires !op.Spawn? && 18 * |b.queue| + StackCost(p, push) < 18 * |a.queue| + Cost(p, op)
    ensures Cheaper(p, a, op, b, push)
  {
    hide StackCost, Cost;
  }

  lemma LoopCheaper(p: nat, a: Shared, op: Op, b: Shared, push: seq<Op>)
    requires WorkerExec(a, op, b, push) && a.stopping && (op.Select? || op.AfterBatch? || op.Drain? || op.Exit?)
    ensures 18 * |b.queue| + StackCost(p, push) < 18 * |a.queue| + Cost(p, op)
  {
    hide StackCost, ResolveExec, ScanNext, ValidStep, GroupsNext, MessagesNext, MarkNext, MarkAttempted, AbandonStep,
      Deliver;
    TwoCost(p, AbandonUnattempted, Drain);
    OneCost(p, Exit);
    if a.queue != [] {
      OneCost(p, Collect([a.queue[0]]));
      TwoCost(p, Note(a.queue[0], Stranded), Drain);
    }
    NoCost(p);
  }

  lemma DeliverCost(p: nat, batch: seq<Job>)
    ensures StackCost(p, Deliver(batch)) == 8 + 17 * |batch| + 7 * p
  {
    hide StackCost;
    TwoCost(p, Scan(batch, [], AfterCollect), AfterBatch);
  }

  lemma CollectCheaper(p: nat, a: Shared, batch: seq<Job>, b: Shared, push: seq<Op>)
    requires CollectStep(a, batch, b, push)
    ensures 18 * |b.queue| + StackCost(p, push) < 18 * |a.queue| + Cost(p, Collect(batch))
  {
    hide StackCost, Deliver, Strand;
    DeliverCost(p, batch);
    StrandCost(p, batch);
    StackAppend(p, Strand(batch), [AbandonUnattempted, Drain]);
    TwoCost(p, AbandonUnattempted, Drain);
    if a.queue != [] {
      DeliverCost(p, batch + [a.queue[0]]);
      OneCost(p, Collect(batch + [a.queue[0]]));
    }
  }

  lemma ScanCheaper(p: nat, a: Shared, todo: seq<Job>, kept: seq<Job>, cont: Cont)
    ensures StackCost(p, [ScanNext(a, todo, kept, cont)]) < Cost(p, Scan(todo, kept, cont))
  {
    hide StackCost, Resume;
    OneCost(p, ScanNext(a, todo, kept, cont));
    ResumeCost(p, kept, cont);
  }

  lemma ValidCheaper(p: nat, job: Job, todo: seq<Job>, kept: seq<Job>, cont: Cont, push: seq<Op>)
    requires ValidStep(job, todo, kept, cont, push)
    ensures StackCost(p, push) < Cost(p, CallValid(job, todo, kept, cont))
  {
    hide StackCost, ContCost;
    OneCost(p, Scan(todo, kept + [job], cont));
    TwoCost(p, Note(job, Invalid), Scan(todo, kept, cont));
  }

  lemma GroupsCheaper(p: nat, a: Shared, groups: seq<seq<Job>>, messages: seq<seq<Job>>, rest: seq<seq<Job>>)
    requires a.stopping
    ensures StackCost(p, GroupsNext(a, groups)) < Cost(p, Groups(groups))
    ensures StackCost(p, MessagesNext(a, messages, rest)) < Cost(p, Messages(messages, rest))
  {
    hide StackCost, Flatten, Strand;
    StrandCost(p, Flatten(groups));
    StrandCost(p, Flatten(messages));
    StrandCost(p, Flatten(rest));
    StackAppend(p, Strand(Flatten(messages)), Strand(Flatten(rest)));
    OneCost(p, Groups(rest));
    NoCost(p);
  }

  lemma SendCheaper(p: nat, a: Shared, jobs: seq<Job>, b: Shared, push: seq<Op>)
    requires SendStep(a, jobs, b, push)
    ensures 18 * |b.queue| + StackCost(p, push) < 18 * |a.queue| + Cost(p, Send(jobs))
  {
    hide StackCost, Settle;
    var ok :| b == a.(sends := a.sends + [SendRecord(jobs, ok)]) && push == Settle(jobs, ok);
    SettleCost(p, jobs, ok);
  }

  lemma AbandonCheaper(p: nat, a: Shared, push: seq<Op>)
    requires AbandonStep(a, push) && p == |a.pendingJobs|
    ensures StackCost(p, push) < Cost(p, AbandonUnattempted)
  {
    hide StackCost, Strand;
    var order :| Enumerates(order, a.pendingJobs - a.attempted) && push == Strand(order);
    StrandCost(p, order);
    EnumeratedLength(order, a.pendingJobs - a.attempted);
    SubsetSize(a.pendingJobs - a.attempted, a.pendingJobs);
  }

  lemma WorkerCheaper(p: nat, a: Shared, op: Op, b: Shared, push: seq<Op>)
    requires WorkerExec(a, op, b, push) && a.stopping && p == |a.pendingJobs|
    ensures 18 * |b.queue| + StackCost(p, push) < 18 * |a.queue| + Cost(p, op)
  {
    match op {
      case Collect(batch) => CollectCheaper(p, a, batch, b, push);
      case Scan(todo, kept, cont) => ScanCheaper(p, a, todo, kept, cont);
      case CallValid(job, todo, kept, cont) => ValidCheaper(p, job, todo, kept, cont, push);
      case Groups(groups) => GroupsCheaper(p, a, groups, [], []);
      case Messages(messages, rest) => GroupsCheaper(p, a, [], messages, rest);
      case Mark(jobs, more, rest) =>
        hide StackCost, Flatten;
        OneCost(p, Messages(more, rest));
      case Send(jobs) => SendCheaper(p, a, jobs, b, push);
      case AbandonUnattempted => AbandonCheaper(p, a, push);
      case _ => hide Cost, StackCost; LoopCheaper(p, a, op, b, push);
    }
  }

  lemma ResolveCheaper(p: nat, a: Shared, op: Op, b: Shared, push: seq<Op>)
    requires ResolveExec(a, op, b, push)
    ensures 18 * |b.queue| + StackCost(p, push) < 18 * |a.queue| + Cost(p, op)
  {
    hide StackCost, Notable, Claimable;
    NoCost(p);
    match op {
      case Note(job, goal) => OneCost(p, Hook(job, Some(goal))); OneCost(p, Claim(job, goal));
      case Hook(job, next) => OneCost(p, CompleteNote(job, next));
      case CompleteNote(job, next) => if next.Some? { OneCost(p, Claim(job, next.value)); }
      case Claim(job, claimant) => ClaimCost(p, job, claimant); hide ClaimSteps;
      case Recheck(job) => OneCost(p, Report(job, Unattempted));
      case _ =>
    }
  }

  lemma ClaimCost(p: nat, job: Job, claimant: Claimant)
    ensures StackCost(p, ClaimSteps(job, claimant)) <= 3
  {
    hide StackCost;
    TwoCost(p, Recheck(job), Finish(job));
    OneCost(p, Finish(job));
    match claimant
    case Sent(ok) => TwoCost(p, Report(job, Delivered(ok)), Finish(job));
    case _ =>
  }

  lemma StopStepsCost(p: nat, sh: Shared, order: seq<Job>, join: bool)
    ensures StackCost(p, StopSteps(sh, order, join)) <= 10 * |order| + 5
  {
    hide StackCost, Hooks, Without, Waits;
    var hooks := Hooks(Without(order, sh.abandoned));
    WithoutLength(order, sh.abandoned);
    HooksCost(p, Without(order, sh.abandoned));
    HeadCost(p, sh, order);
    TailCost(p, sh, order);
    JoinShape(sh, order);
    if join {
      StackAppend(p, Head(sh, order), Waits(order) + DispatchStop.Tail(sh));
    } else {
      assert StopSteps(sh, order, join) == Head(sh, order);
    }
  }

  lemma HeadCost(p: nat, sh: Shared, order: seq<Job>)
    ensures StackCost(p, Head(sh, order)) <= 9 * |order| + 2
  {
    hide StackCost, Hooks, Without;
    WithoutLength(order, sh.abandoned);
    HooksCost(p, Without(order, sh.abandoned));
    StackAppend(p, Hooks(Without(order, sh.abandoned)), [Spawn(order), Discard(order)]);
    TwoCost(p, Spawn(order), Discard(order));
  }

  lemma TailCost(p: nat, sh: Shared, order: seq<Job>)
    ensures StackCost(p, Waits(order) + DispatchStop.Tail(sh)) <= |order| + 3
  {
    hide StackCost, Waits;
    WaitsCost(p, order);
    StackAppend(p, Waits(order), DispatchStop.Tail(sh));
    TwoCost(p, WaitIdle, WaitResolvers);
    NoCost(p);
    OneCost(p, WaitWorker);
    StackAppend(p, if sh.started then [WaitWorker] else [], [WaitIdle, WaitResolvers]);
  }

  lemma SnapshotCheaper(p: nat, a: Shared, join: bool, b: Shared, push: seq<Op>)
    requires StopExec(a, MarkStopping(join), b, push) && p == |a.pendingJobs|
    ensures Cheaper(p, a, MarkStopping(join), b, push)
  {
    hide StackCost, StopSteps;
    var order :| Enumerates(order, a.pendingJobs - a.attempted)
      && b == a.(stopping := true, noted := a.noted + (set j | j in order)) && push == StopSteps(a, order, join);
    StopStepsCost(p, a, order, join);
    EnumeratedLength(order, a.pendingJobs - a.attempted);
    SubsetSize(a.pendingJobs - a.attempted, a.pendingJobs);
  }

  lemma StopCheaper(p: nat, a: Shared, op: Op, b: Shared, push: seq<Op>)
    requires StopExec(a, op, b, push) && p == |a.pendingJobs|
    ensures Cheaper(p, a, op, b, push)
  {
    hide StackCost;
    NoCost(p);
    match op {
      case Spawn(jobs) => ResolversCost(p, jobs);
      case CloseAdmission(join) => OneCost(p, MarkStopping(join));
      case MarkStopping(join) => hide *; SnapshotCheaper(p, a, join, b, push);
      case Discard(jobs) => OneCost(p, Discard(jobs));
      case _ =>
    }
  }

  lemma ExecCheaper(p: nat, a: Shared, op: Op, b: Shared, push: seq<Op>)
    requires Exec(a, op, b, push) && a.stopping && p == |a.pendingJobs|
    ensures Cheaper(p, a, op, b, push)
  {
    hide Cheaper, WorkerExec, ResolveExec, StopExec, Cost, StackCost;
    if WorkerExec(a, op, b, push) {
      WorkerKind(a, op, b, push);
      WorkerCheaper(p, a, op, b, push);
      CheaperStack(p, a, op, b, push);
    } else if ResolveExec(a, op, b, push) {
      ResolveKind(a, op, b, push);
      ResolveCheaper(p, a, op, b, push);
      CheaperStack(p, a, op, b, push);
    } else {
      StopCheaper(p, a, op, b, push);
    }
  }

  /** Once a stop has begun, every thread step makes the measure smaller. */
  lemma StepLowersMeasure(s: System, t: nat, push: seq<Op>, s': System)
    requires ThreadStepWith(s, t, push, s') && s.sh.stopping
    ensures Measure(s') < Measure(s)
  {
    hide Exec, Cost, ThreadsCost, Spawned;
    var p, q := |s.sh.pendingJobs|, |s'.sh.pendingJobs|;
    var op, rest := s.threads[t][0], s.threads[t][1..];
    ThreadStepExec(s, t, push, s');
    ExecNarrows(s.sh, op, s'.sh, push);
    SubsetSize(s'.sh.pendingJobs, s.sh.pendingJobs);
    ExecCheaper(p, s.sh, op, s'.sh, push);
    StackAppend(p, push, rest);
    assert s.threads[t] == [op] + rest;
    PushCost(p, op, rest);
    ThreadsUpdate(p, s.threads, t, push + rest);
    ThreadsAppend(p, s.threads[t := push + rest], Spawned(op));
    ThreadsMonotone(q, p, s'.threads);
  }

  ghost predicate ThreadMove(s: System, s': System) {
    exists t, push :: ThreadStepWith(s, t, push, s')
  }

  /** Somebody calls a stop. */
  ghost predicate StopCall(s: System, s': System) {
    exists join :: |s.threads| >= 2 && s.threads[STOPPER] == []
      && s' == s.(threads := s.threads[STOPPER := [CloseAdmission(join)]])
  }

  /** How many steps between two states were taken by a thread. */
  ghost function Moves(states: seq<System>, i: nat, k: nat): nat
    requires i <= k < |states|
    decreases k - i
  {
    if i == k then 0 else (if ThreadMove(states[i], states[i + 1]) then 1 else 0) + Moves(states, i + 1, k)
  }

  /** Once a stop has begun, a refused enqueue or a repeated drain changes nothing. */
  lemma CallsAreIdle(s: System, s': System)
    requires SharedInv(s.sh) && s.sh.stopping && CallStep(s, s') && !StopCall(s, s')
    ensures s' == s
  {
    hide ThreadMove;
    assert !s.sh.accepting;
  }

  lemma RunShared(states: seq<System>, i: nat)
    requires Run(states) && i < |states|
    ensures SharedInv(states[i].sh)
  {
    hide Run, SharedInv, OkThreads, Total;
    RunInv(states, i, i);
  }

  /** From any moment of a stop on, the threads take at most `Measure` further steps, whatever else is
      called in between short of a new stop; with no deadlock, a stop that waits gets its answer. */
  lemma {:induction false} StopTerminates(states: seq<System>, i: nat, k: nat)
    requires Run(states) && i <= k < |states| && states[i].sh.stopping
    requires forall m | i <= m < k :: !StopCall(states[m], states[m + 1])
    ensures Moves(states, i, k) + Measure(states[k]) <= Measure(states[i])
    decreases k - i
  {
    if i < k {
      RunShared(states, i);
      assert Step(states[i], states[i + 1]);
      StoppingStays(states, i);
      StopTerminates(states, i + 1, k);
      hide Run, ThreadStepWith, Measure, SharedInv, CallStep, StopCall;
      if ThreadMove(states[i], states[i + 1]) {
        var t, push :| ThreadStepWith(states[i], t, push, states[i + 1]);
        StepLowersMeasure(states[i], t, push, states[i + 1]);
      } else {
        CallsAreIdle(states[i], states[i + 1]);
      }
    }
  }

  lemma StoppingStays(states: seq<System>, i: nat)
    requires Run(states) && i + 1 < |states| && states[i].sh.stopping
    ensures states[i + 1].sh.stopping
  {
    hide Run, Inv;
    RunInv(states, i, i + 1);
  }
}
