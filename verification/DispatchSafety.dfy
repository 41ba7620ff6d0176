/** What every interleaving of the dispatcher keeps. */
module DispatchSafety {
  import opened Coalesce
  import opened Dispatch

  // ---------- counting over stacks ----------

  /** What is counted about a job. */
  datatype Tally = Holds | Owes | Speaks | Controls

  function Weight(k: Tally, j: Job, op: Op): nat {
    match k
    case Holds => Held(op)[j]
    case Owes => if op.Finish? && op.job == j then 1 else 0
    case Speaks => if (op.Recheck? || op.Report?) && op.job == j then 1 else 0
    case Controls => if op.Select? || op.Collect? || op.AfterBatch? || op.Drain? || op.Exit? then 1 else 0
  }

  function Sum(k: Tally, j: Job, ops: seq<Op>): nat {
    if ops == [] then 0 else Weight(k, j, ops[0]) + Sum(k, j, ops[1..])
  }

  function Total(k: Tally, j: Job, threads: seq<seq<Op>>): nat {
    if threads == [] then 0 else Sum(k, j, threads[0]) + Total(k, j, threads[1..])
  }

  lemma {:induction false} SumAppend(k: Tally, j: Job, a: seq<Op>, b: seq<Op>)
    ensures Sum(k, j, a + b) == Sum(k, j, a) + Sum(k, j, b)
  {
    hide Weight;
    if a == [] {
      assert a + b == b;
    } else {
      assert (a + b)[1..] == a[1..] + b;
      SumAppend(k, j, a[1..], b);
    }
  }

  lemma {:induction false} TotalAppend(k: Tally, j: Job, a: seq<seq<Op>>, b: seq<seq<Op>>)
    ensures Total(k, j, a + b) == Total(k, j, a) + Total(k, j, b)
  {
    hide Sum;
    if a == [] {
      assert a + b == b;
    } else {
      assert (a + b)[1..] == a[1..] + b;
      TotalAppend(k, j, a[1..], b);
    }
  }

  lemma {:induction false} TotalUpdate(k: Tally, j: Job, threads: seq<seq<Op>>, t: nat, ops: seq<Op>)
    requires t < |threads|
    ensures Total(k, j, threads[t := ops]) + Sum(k, j, threads[t]) == Total(k, j, threads) + Sum(k, j, ops)
  {
    hide Sum;
    var updated := threads[t := ops];
    if t > 0 {
      assert updated[1..] == threads[1..][t - 1 := ops];
      TotalUpdate(k, j, threads[1..], t - 1, ops);
      assert threads[1..][t - 1] == threads[t];
    } else {
      assert updated[1..] == threads[1..];
    }
  }

  /** The effect of one thread step on any such total. */
  lemma TotalStep(k: Tally, j: Job, s: System, t: nat, push: seq<Op>, s': System)
    requires ThreadStepWith(s, t, push, s')
    ensures Total(k, j, s'.threads) + Weight(k, j, s.threads[t][0])
         == Total(k, j, s.threads) + Sum(k, j, push) + Total(k, j, Spawned(s.threads[t][0]))
  {
    hide Exec, Weight, Total;
    var op, rest := s.threads[t][0], s.threads[t][1..];
    SumAppend(k, j, push, rest);
    TotalUpdate(k, j, s.threads, t, push + rest);
    TotalAppend(k, j, s.threads[t := push + rest], Spawned(op));
  }

  /** Jobs the step may still put into a message. */
  function Held(op: Op): multiset<Job> {
    match op
    case Collect(batch) => multiset(batch)
    case Scan(todo, kept, cont) => multiset(todo) + multiset(kept) + HeldCont(cont)
    case CallValid(job, todo, kept, cont) => multiset{job} + multiset(todo) + multiset(kept) + HeldCont(cont)
    case Groups(groups) => multiset(Flatten(groups))
    case Messages(messages, rest) => multiset(Flatten(messages)) + multiset(Flatten(rest))
    case Mark(jobs, more, rest) => multiset(jobs) + multiset(Flatten(more)) + multiset(Flatten(rest))
    case Note(job, goal) => if goal.Invalid? then multiset{job} else multiset{}
    case _ => multiset{}
  }

  function HeldCont(cont: Cont): multiset<Job> {
    match cont
    case AfterCollect => multiset{}
    case AfterGroup(rest) => multiset(Flatten(rest))
    case AfterMessage(more, rest) => multiset(Flatten(more)) + multiset(Flatten(rest))
  }

  // ---------- the invariant ----------

  /** What the shared fields keep on their own. */
  ghost predicate SharedInv(sh: Shared) {
    && sh.pendingJobs <= sh.accepted && sh.attempted <= sh.accepted
    && sh.resolving <= sh.accepted && sh.noted <= sh.accepted
    && sh.abandoned <= sh.hooked <= sh.noted
    && sh.attempted !! sh.noted
    && sh.accepted - sh.pendingJobs <= sh.resolving
    && sh.closed == sh.accepted - sh.pendingJobs
    && sh.pending == |sh.pendingJobs|
    && (sh.idleClosed <==> sh.pendingJobs == {})
    && |sh.queue| <= sh.capacity
    && (sh.stopping ==> !sh.accepting)
    && (!sh.stopping ==> sh.resolving <= sh.attempted + sh.abandoned)
    && (forall record | record in sh.sends :: forall j | j in record.jobs :: j in sh.attempted)
    && sh.unattempted <= sh.resolving - sh.attempted
    && (forall j :: sh.resolved[j] == if j in sh.accepted - sh.pendingJobs then 1 else 0)
  }

  /** What is known about a step waiting on some stack. */
  ghost predicate OkOp(sh: Shared, op: Op) {
    match op
    case Send(jobs) => forall j | j in jobs :: j in sh.attempted
    case AbandonUnattempted => sh.stopping
    case Drain => sh.stopping
    case Note(job, goal) => job in sh.accepted && (goal.Stranded? ==> sh.stopping) && !goal.Sent?
    case Hook(job, next) => job in sh.noted
      && (next.Some? ==> !next.value.Sent? && (next.value.Stranded? ==> sh.stopping))
    case CompleteNote(job, next) => job in sh.hooked
      && (next.Some? ==> !next.value.Sent? && (next.value.Stranded? ==> sh.stopping))
    case Claim(job, claimant) =>
      && job in sh.accepted
      && (claimant.Sent? ==> job in sh.attempted)
      && (claimant.Invalid? ==> sh.stopping || job in sh.abandoned)
      && (claimant.Invalid? ==> job !in sh.attempted && (job in sh.resolving || job in sh.noted))
      && (claimant.Stranded? ==> sh.stopping)
    case Recheck(job) => job in sh.resolving && job !in sh.attempted
    case Report(job, outcome) => job in sh.resolving && (outcome.Unattempted? <==> job !in sh.attempted)
    case Finish(job) => job in sh.resolving
    case MarkStopping(_) => !sh.accepting
    case Spawn(jobs) => sh.stopping && forall j | j in jobs :: j in sh.accepted
    case _ => true
  }

  ghost predicate OkOps(sh: Shared, ops: seq<Op>) {
    forall op | op in ops :: OkOp(sh, op)
  }

  ghost predicate OkThreads(s: System) {
    forall t | 0 <= t < |s.threads| :: OkOps(s.sh, s.threads[t])
  }

  /** How often a job may still be put into a message: in the channel or from a stack. */
  function Pool(s: System, j: Job): nat {
    multiset(s.sh.queue)[j] + Total(Holds, j, s.threads)
  }

  /** A job in the pool is there once and was never attempted; before a stop nobody has touched it. */
  ghost predicate Pooled(sh: Shared, j: Job, n: nat) {
    0 < n ==>
      && n == 1 && j in sh.accepted && j !in sh.attempted
      && (!sh.stopping ==> j in sh.pendingJobs && j !in sh.noted && j !in sh.resolving)
  }

  /** Every claim is either finished or still owed by exactly one thread, and gives at most one callback. */
  ghost predicate Claimed(sh: Shared, j: Job, owed: nat, voice: nat) {
    && owed + sh.resolved[j] == (if j in sh.resolving then 1 else 0)
    && voice + sh.reported[j] <= (if j in sh.resolving then 1 else 0)
  }

  ghost predicate LoopInv(sh: Shared, control: nat) {
    && control == (if sh.started && !sh.exited then 1 else 0)
    && (sh.exited ==> sh.started) && !sh.faulted
  }

  ghost predicate Inv(s: System) {
    && |s.threads| >= 2 && (!s.sh.started ==> s.threads[WORKER] == [])
    && SharedInv(s.sh)
    && OkThreads(s)
    && forall j ::
      && Pooled(s.sh, j, Pool(s, j))
      && Claimed(s.sh, j, Total(Owes, j, s.threads), Total(Speaks, j, s.threads))
      && LoopInv(s.sh, Total(Controls, j, s.threads))
  }

  // ---------- the pieces a step pushes ----------

  lemma {:induction false} SumEmpty(k: Tally, j: Job, ops: seq<Op>)
    requires forall op | op in ops :: Weight(k, j, op) == 0
    ensures Sum(k, j, ops) == 0
  {
    hide Weight;
    if ops != [] {
      SumEmpty(k, j, ops[1..]);
    }
  }

  lemma {:induction false} StrandOps(jobs: seq<Job>)
    ensures forall op | op in Strand(jobs) :: op.Note? && op.goal.Stranded? && op.job in jobs
    ensures forall j | j in jobs :: Note(j, Stranded) in Strand(jobs)
  {
    if jobs != [] {
      StrandOps(jobs[1..]);
    }
  }

  lemma {:induction false} SettleOps(jobs: seq<Job>, ok: bool)
    ensures forall op | op in Settle(jobs, ok) :: op.Claim? && op.claimant == Sent(ok) && op.job in jobs
    ensures forall j | j in jobs :: Claim(j, Sent(ok)) in Settle(jobs, ok)
  {
    if jobs != [] {
      SettleOps(jobs[1..], ok);
    }
  }

  lemma {:induction false} HooksOps(jobs: seq<Job>)
    ensures forall op | op in Hooks(jobs) :: op.Hook? && op.next.None? && op.job in jobs
    ensures forall j | j in jobs :: Hook(j, None) in Hooks(jobs)
  {
    if jobs != [] {
      HooksOps(jobs[1..]);
    }
  }

  lemma {:induction false} WaitsOps(jobs: seq<Job>)
    ensures forall op | op in Waits(jobs) :: op.WaitJob? && op.job in jobs
  {
    if jobs != [] {
      WaitsOps(jobs[1..]);
    }
  }

  lemma {:induction false} WithoutKeeps(order: seq<Job>, jobs: set<Job>)
    ensures forall j :: j in Without(order, jobs) <==> j in order && j !in jobs
  {
    if order != [] {
      WithoutKeeps(order[1..], jobs);
    }
  }

  lemma {:induction false} ResolverThreads(jobs: seq<Job>)
    ensures forall ops: seq<Op> | ops in Resolvers(jobs) ::
      |ops| == 1 && ops[0].Note? && ops[0].goal.Stranded? && ops[0].job in jobs
    ensures forall j | j in jobs :: [Note(j, Stranded)] in Resolvers(jobs)
  {
    if jobs != [] {
      ResolverThreads(jobs[1..]);
    }
  }

  lemma {:induction false} TotalResolvers(k: Tally, j: Job, jobs: seq<Job>)
    ensures Total(k, j, Resolvers(jobs)) == 0
  {
    if jobs != [] {
      TotalResolvers(k, j, jobs[1..]);
      SumEmpty(k, j, [Note(jobs[0], Stranded)]);
    }
  }

  lemma {:induction false} LikeSplits(job: Job, jobs: seq<Job>)
    ensures multiset(Like(job, jobs, true)) + multiset(Like(job, jobs, false)) == multiset(jobs)
  {
    hide SameKey;
    if jobs != [] {
      LikeSplits(job, jobs[1..]);
      SeqHead(jobs);
      var like, unlike := Like(job, jobs[1..], true), Like(job, jobs[1..], false);
      assert multiset([jobs[0]] + like) == multiset{jobs[0]} + multiset(like);
      assert multiset([jobs[0]] + unlike) == multiset{jobs[0]} + multiset(unlike);
    }
  }

  /** Grouping a batch neither loses nor repeats a job. */
  lemma {:induction false} GroupingKeepsJobs(jobs: seq<Job>)
    ensures multiset(Flatten(GroupByKey(jobs))) == multiset(jobs)
    decreases |jobs|
  {
    hide Like;
    if jobs != [] {
      var tail := Like(jobs[0], jobs[1..], false);
      GroupingKeepsJobs(tail);
      LikeSplits(jobs[0], jobs[1..]);
      assert jobs == [jobs[0]] + jobs[1..];
      assert GroupByKey(jobs)[1..] == GroupByKey(tail);
    }
  }

  lemma {:induction false} MarkedJobs(sh: Shared, jobs: seq<Job>)
    ensures multiset(MarkAttempted(sh, jobs)) <= multiset(jobs)
    ensures forall j | j in MarkAttempted(sh, jobs) :: Markable(sh, j) && !sh.stopping && j in jobs
    decreases |jobs|
  {
    if jobs != [] && !sh.stopping {
      assert jobs == [jobs[0]] + jobs[1..];
      if Markable(sh, jobs[0]) {
        MarkedJobs(sh.(attempted := sh.attempted + {jobs[0]}), jobs[1..]);
      } else {
        MarkedJobs(sh, jobs[1..]);
      }
    }
  }

  /** Before a stop, exactly the jobs that are pending, unclaimed and never attempted are marked, once each. */
  lemma {:induction false} MarkedExactly(sh: Shared, jobs: seq<Job>)
    ensures forall j :: j in MarkAttempted(sh, jobs) <==>
      !sh.stopping && j in jobs && j in sh.pendingJobs && j !in sh.attempted && j !in sh.resolving
    ensures forall j | j in MarkAttempted(sh, jobs) :: multiset(MarkAttempted(sh, jobs))[j] == 1
    decreases |jobs|
  {
    if jobs != [] && !sh.stopping {
      var first, marked := jobs[0], MarkAttempted(sh, jobs);
      if Markable(sh, first) {
        var more := MarkAttempted(sh.(attempted := sh.attempted + {first}), jobs[1..]);
        MarkedExactly(sh.(attempted := sh.attempted + {first}), jobs[1..]);
        assert marked == [first] + more && first !in more;
        assert multiset(marked) == multiset{first} + multiset(more);
      } else {
        MarkedExactly(sh, jobs[1..]);
      }
    }
  }

  // ---------- one thread step, seen from the shared fields ----------

  /** What any step does to the shared fields. */
  ghost predicate Grow(a: Shared, b: Shared) {
    && a.accepted <= b.accepted && a.resolving <= b.resolving && a.attempted <= b.attempted
    && a.noted <= b.noted && a.abandoned <= b.abandoned && a.hooked <= b.hooked
    && a.unattempted <= b.unattempted && a.sends <= b.sends
    && (forall j :: a.reported[j] <= b.reported[j] && a.resolved[j] <= b.resolved[j])
    && (b.attempted - a.attempted) !! (a.resolving + a.noted)
    && b.pendingJobs * a.accepted <= a.pendingJobs
    && (a.stopping ==> b.stopping && b.attempted == a.attempted)
    && (b.accepting ==> a.accepting)
    && (a.exited ==> b.exited) && (a.started ==> b.started)
  }

  lemma OkOpStable(a: Shared, b: Shared, op: Op)
    requires Grow(a, b) && OkOp(a, op)
    ensures OkOp(b, op)
  {
  }

  /** What a step takes out of the pool for good: jobs it attempts, and jobs it notes before a stop. */
  function Leaving(a: Shared, b: Shared): set<Job> {
    (b.attempted - a.attempted) + (if b.stopping then {} else b.noted - a.noted)
  }

  ghost predicate PoolStep(j: Job, a: Shared, op: Op, b: Shared, push: seq<Op>) {
    && multiset(b.queue)[j] + Sum(Holds, j, push) <= multiset(a.queue)[j] + Weight(Holds, j, op)
    && (j in Leaving(a, b) ==> multiset(b.queue)[j] + Sum(Holds, j, push) < multiset(a.queue)[j] + Weight(Holds, j, op))
  }

  ghost predicate ClaimStep(j: Job, a: Shared, op: Op, b: Shared, push: seq<Op>) {
    && Sum(Owes, j, push) + b.resolved[j] + (if j in a.resolving then 1 else 0)
       == Weight(Owes, j, op) + a.resolved[j] + (if j in b.resolving then 1 else 0)
    && Sum(Speaks, j, push) + b.reported[j] + (if j in a.resolving then 1 else 0)
       <= Weight(Speaks, j, op) + a.reported[j] + (if j in b.resolving then 1 else 0)
  }

  ghost predicate LoopStep(j: Job, a: Shared, op: Op, b: Shared, push: seq<Op>) {
    && b.started == a.started
    && Sum(Controls, j, push) + (if b.exited then 1 else 0) == Weight(Controls, j, op) + (if a.exited then 1 else 0)
  }

  /** The facts about the rest of the system that a step relies on. */
  ghost predicate Context(sh: Shared, op: Op) {
    && SharedInv(sh) && OkOp(sh, op) && !sh.faulted
    && (forall j :: Pooled(sh, j, multiset(sh.queue)[j] + Weight(Holds, j, op)))
    && (op.Finish? ==> sh.resolved[op.job] == 0)
    && (op.Exit? ==> !sh.exited)
  }

  lemma QueueSplit(sh: Shared)
    requires sh.queue != []
    ensures multiset(sh.queue) == multiset{sh.queue[0]} + multiset(sh.queue[1..])
  {
    assert sh.queue == [sh.queue[0]] + sh.queue[1..];
  }

  lemma SumOne(k: Tally, j: Job, a: Op)
    ensures Sum(k, j, [a]) == Weight(k, j, a)
  {
    hide Weight;
  }

  lemma SumTwo(k: Tally, j: Job, a: Op, b: Op)
    ensures Sum(k, j, [a, b]) == Weight(k, j, a) + Weight(k, j, b)
  {
    hide Weight;
    assert [a, b][1..] == [b];
    SumOne(k, j, b);
  }

  // -- the worker --

  lemma MarkShared(a: Shared, op: Op, b: Shared)
    requires Context(a, op) && op.Mark?
    requires b == a.(attempted := a.attempted + (set j | j in MarkAttempted(a, op.jobs)))
    ensures SharedInv(b) && Grow(a, b)
  {
    hide Flatten, MarkAttempted;
    MarkedJobs(a, op.jobs);
    forall j | j in MarkAttempted(a, op.jobs) ensures j !in a.noted {
      assert j in op.jobs;
      assert multiset(op.jobs)[j] > 0;
      assert Pooled(a, j, multiset(a.queue)[j] + Weight(Holds, j, op));
    }
  }

  lemma RecordShared(a: Shared, record: SendRecord)
    requires SharedInv(a) && forall j | j in record.jobs :: j in a.attempted
    ensures var b := a.(sends := a.sends + [record]); SharedInv(b) && Grow(a, b)
  {
  }

  lemma DequeueShared(a: Shared)
    requires SharedInv(a) && a.queue != []
    ensures SharedInv(Dequeue(a)) && Grow(a, Dequeue(a))
  {
  }

  lemma SameShared(a: Shared, exited: bool, faulted: bool)
    requires SharedInv(a) && (a.exited ==> exited)
    ensures SharedInv(a.(exited := exited, faulted := faulted)) && Grow(a, a.(exited := exited, faulted := faulted))
  {
  }

  lemma WorkerShared(a: Shared, op: Op, b: Shared, push: seq<Op>)
    requires Context(a, op) && WorkerExec(a, op, b, push)
    ensures SharedInv(b) && Grow(a, b)
  {
    hide SharedInv, Grow, MarkAttempted, MarkNext, Deliver, Strand, Settle, ScanNext, GroupsNext, MessagesNext;
    if op.Mark? {
      MarkShared(a, op, b);
    } else if op.Send? {
      var ok :| b == a.(sends := a.sends + [SendRecord(op.jobs, ok)]);
      RecordShared(a, SendRecord(op.jobs, ok));
    } else {
      if a.queue != [] {
        DequeueShared(a);
      }
      SameShared(a, a.exited, a.faulted);
      SameShared(a, true, a.faulted || a.exited);
    }
  }

  lemma StrandWeighsNothing(k: Tally, j: Job, jobs: seq<Job>)
    ensures Sum(k, j, Strand(jobs)) == 0
  {
    hide Strand, Sum;
    StrandOps(jobs);
    SumEmpty(k, j, Strand(jobs));
  }

  lemma SettleWeighsNothing(k: Tally, j: Job, jobs: seq<Job>, ok: bool)
    ensures Sum(k, j, Settle(jobs, ok)) == 0
  {
    hide Settle, Sum;
    SettleOps(jobs, ok);
    SumEmpty(k, j, Settle(jobs, ok));
  }

  /** The last two steps of a worker that gives up. */
  lemma StrandThen(k: Tally, j: Job, jobs: seq<Job>, a: Op, b: Op)
    ensures Sum(k, j, Strand(jobs) + [a, b]) == Weight(k, j, a) + Weight(k, j, b)
  {
    hide Strand, Sum, Weight;
    StrandWeighsNothing(k, j, jobs);
    SumAppend(k, j, Strand(jobs), [a, b]);
    SumTwo(k, j, a, b);
  }

  lemma FlattenSplit(kept: seq<Job>)
    ensures Flatten(if |kept| > 1 then Split(kept) else [kept]) == kept
  {
    hide Split;
    if |kept| > 1 {
      SplitPartitions(kept);
    } else {
      assert [kept][1..] == [];
      assert Flatten([kept]) == kept + Flatten([]);
    }
  }

  lemma ResumeHolds(kept: seq<Job>, cont: Cont)
    ensures Held(Resume(kept, cont)) == multiset(kept) + HeldCont(cont)
  {
    hide Split, GroupByKey, Flatten;
    match cont
    case AfterCollect => GroupingKeepsJobs(kept);
    case AfterGroup(rest) => FlattenSplit(kept);
    case AfterMessage(more, rest) =>
  }

  lemma HeadHeld(groups: seq<seq<Job>>)
    requires groups != []
    ensures multiset(Flatten(groups)) == multiset(groups[0]) + multiset(Flatten(groups[1..]))
  {
  }

  lemma SeqHead(jobs: seq<Job>)
    requires jobs != []
    ensures multiset(jobs) == multiset{jobs[0]} + multiset(jobs[1..])
  {
    assert jobs == [jobs[0]] + jobs[1..];
  }

  lemma DeliverWeighs(k: Tally, j: Job, batch: seq<Job>)
    ensures Sum(k, j, Deliver(batch)) == Weight(k, j, Scan(batch, [], AfterCollect)) + Weight(k, j, AfterBatch)
  {
    hide Weight;
    SumTwo(k, j, Scan(batch, [], AfterCollect), AfterBatch);
  }

  // -- the pool after each worker step --

  /** A worker step that leaves the fields alone trades one step for others holding no more. */
  ghost predicate Trade(j: Job, op: Op, push: seq<Op>) {
    Sum(Holds, j, push) <= Weight(Holds, j, op)
  }

  lemma TradePool(j: Job, a: Shared, op: Op, push: seq<Op>)
    requires Trade(j, op, push)
    ensures PoolStep(j, a, op, a, push)
  {
    hide Sum, Weight;
  }

  /** Receiving from the channel moves one job from the queue to the stack. */
  lemma DequeuePool(j: Job, a: Shared, op: Op, push: seq<Op>)
    requires a.queue != []
    requires Sum(Holds, j, push) <= Weight(Holds, j, op) + (if j == a.queue[0] then 1 else 0)
    ensures PoolStep(j, a, op, Dequeue(a), push)
  {
    hide Sum, Weight;
    QueueSplit(a);
  }

  lemma SelectPool(j: Job, a: Shared, b: Shared, push: seq<Op>)
    requires SelectStep(a, b, push)
    ensures PoolStep(j, a, Select, b, push)
  {
    hide Sum, PoolStep;
    SumTwo(Holds, j, AbandonUnattempted, Drain);
    if push == [AbandonUnattempted, Drain] {
      TradePool(j, a, Select, push);
    } else {
      SumOne(Holds, j, Collect([a.queue[0]]));
      DequeuePool(j, a, Select, push);
    }
  }

  lemma CollectTrade(j: Job, batch: seq<Job>)
    ensures Trade(j, Collect(batch), Deliver(batch))
    ensures Trade(j, Collect(batch), Strand(batch) + [AbandonUnattempted, Drain])
  {
    hide Sum, Deliver, Strand;
    DeliverWeighs(Holds, j, batch);
    StrandThen(Holds, j, batch, AbandonUnattempted, Drain);
  }

  lemma CollectMore(j: Job, batch: seq<Job>, next: Job, push: seq<Op>)
    requires push == Deliver(batch + [next]) || push == [Collect(batch + [next])]
    ensures Sum(Holds, j, push) <= Weight(Holds, j, Collect(batch)) + (if j == next then 1 else 0)
  {
    hide Sum, Deliver;
    DeliverWeighs(Holds, j, batch + [next]);
    SumOne(Holds, j, Collect(batch + [next]));
    assert multiset(batch + [next]) == multiset(batch) + multiset{next};
  }

  lemma CollectPool(j: Job, a: Shared, batch: seq<Job>, b: Shared, push: seq<Op>)
    requires CollectStep(a, batch, b, push)
    ensures PoolStep(j, a, Collect(batch), b, push)
  {
    hide Sum, PoolStep, Deliver, Strand, Weight, Trade;
    CollectTrade(j, batch);
    if b == a && (push == Deliver(batch) || push == Strand(batch) + [AbandonUnattempted, Drain]) {
      TradePool(j, a, Collect(batch), push);
    } else {
      CollectMore(j, batch, a.queue[0], push);
      DequeuePool(j, a, Collect(batch), push);
    }
  }

  lemma DrainPool(j: Job, a: Shared, b: Shared, push: seq<Op>)
    requires DrainStep(a, b, push)
    ensures PoolStep(j, a, Drain, b, push)
  {
    hide Sum, PoolStep;
    if a.queue != [] {
      SumTwo(Holds, j, Note(a.queue[0], Stranded), Drain);
      DequeuePool(j, a, Drain, push);
    } else {
      SumOne(Holds, j, Exit);
      TradePool(j, a, Drain, push);
    }
  }

  lemma ScanTrade(j: Job, a: Shared, todo: seq<Job>, kept: seq<Job>, cont: Cont)
    ensures Trade(j, Scan(todo, kept, cont), [ScanNext(a, todo, kept, cont)])
  {
    hide Sum, Resume, HeldCont;
    ResumeHolds(kept, cont);
    SumOne(Holds, j, ScanNext(a, todo, kept, cont));
    if todo != [] {
      SeqHead(todo);
    }
  }

  lemma ValidTrade(j: Job, job: Job, todo: seq<Job>, kept: seq<Job>, cont: Cont, push: seq<Op>)
    requires ValidStep(job, todo, kept, cont, push)
    ensures Trade(j, CallValid(job, todo, kept, cont), push)
  {
    hide Sum, HeldCont;
    SumOne(Holds, j, Scan(todo, kept + [job], cont));
    SumTwo(Holds, j, Note(job, Invalid), Scan(todo, kept, cont));
  }

  lemma GroupsTrade(j: Job, a: Shared, groups: seq<seq<Job>>)
    ensures Trade(j, Groups(groups), GroupsNext(a, groups))
  {
    hide Sum, Strand, Flatten;
    StrandWeighsNothing(Holds, j, Flatten(groups));
    SumEmpty(Holds, j, []);
    if groups != [] {
      HeadHeld(groups);
      SumOne(Holds, j, Scan(groups[0], [], AfterGroup(groups[1..])));
    }
  }

  lemma MessagesTrade(j: Job, a: Shared, messages: seq<seq<Job>>, rest: seq<seq<Job>>)
    ensures Trade(j, Messages(messages, rest), MessagesNext(a, messages, rest))
  {
    hide Sum, Strand, Flatten;
    StrandWeighsNothing(Holds, j, Flatten(messages));
    StrandWeighsNothing(Holds, j, Flatten(rest));
    SumAppend(Holds, j, Strand(Flatten(messages)), Strand(Flatten(rest)));
    SumOne(Holds, j, Groups(rest));
    if messages != [] {
      HeadHeld(messages);
      SumOne(Holds, j, Scan(messages[0], [], AfterMessage(messages[1..], rest)));
    }
  }

  lemma MarkPool(j: Job, a: Shared, jobs: seq<Job>, more: seq<seq<Job>>, rest: seq<seq<Job>>)
    ensures var marked := MarkAttempted(a, jobs);
            PoolStep(j, a, Mark(jobs, more, rest), a.(attempted := a.attempted + (set x | x in marked)),
              MarkNext(marked, more, rest))
  {
    hide Sum, Flatten, MarkAttempted;
    var marked := MarkAttempted(a, jobs);
    MarkedJobs(a, jobs);
    SumOne(Holds, j, Messages(more, rest));
    SumTwo(Holds, j, Send(marked), Messages(more, rest));
    if j in marked {
      assert multiset(jobs)[j] > 0;
    }
  }

  lemma WorkerPool(j: Job, a: Shared, op: Op, b: Shared, push: seq<Op>)
    requires WorkerExec(a, op, b, push)
    ensures PoolStep(j, a, op, b, push)
  {
    hide *;
    if Batching(op) {
      BatchPool(j, a, op, b, push);
    } else {
      UnbatchedPool(j, a, op, b, push);
    }
  }

  lemma BatchPool(j: Job, a: Shared, op: Op, b: Shared, push: seq<Op>)
    requires WorkerExec(a, op, b, push) && Batching(op)
    ensures PoolStep(j, a, op, b, push)
  {
    hide Sum, PoolStep, ScanNext, ValidStep, GroupsNext, MessagesNext, MarkNext, MarkAttempted;
    match op {
      case Scan(todo, kept, cont) => ScanTrade(j, a, todo, kept, cont); TradePool(j, a, op, push);
      case CallValid(job, todo, kept, cont) => ValidTrade(j, job, todo, kept, cont, push); TradePool(j, a, op, push);
      case Groups(groups) => GroupsTrade(j, a, groups); TradePool(j, a, op, push);
      case Messages(messages, rest) => MessagesTrade(j, a, messages, rest); TradePool(j, a, op, push);
      case Mark(jobs, more, rest) => MarkPool(j, a, jobs, more, rest);
    }
  }

  lemma UnbatchedPool(j: Job, a: Shared, op: Op, b: Shared, push: seq<Op>)
    requires WorkerExec(a, op, b, push) && !Batching(op)
    ensures PoolStep(j, a, op, b, push)
  {
    hide Sum, PoolStep, SelectStep, CollectStep, DrainStep;
    match op {
      case Select => SelectPool(j, a, b, push);
      case AfterBatch =>
        SumTwo(Holds, j, AbandonUnattempted, Drain);
        SumOne(Holds, j, Select);
        TradePool(j, a, op, push);
      case Exit => ExitPool(j, a, b);
      case Collect(batch) => CollectPool(j, a, batch, b, push);
      case Drain => DrainPool(j, a, b, push);
      case AbandonUnattempted =>
        var order :| Enumerates(order, a.pendingJobs - a.attempted) && push == Strand(order);
        StrandWeighsNothing(Holds, j, order);
        TradePool(j, a, op, push);
      case Send(jobs) => SendPool(j, a, jobs, b, push);
      case _ =>
    }
  }

  lemma ExitPool(j: Job, a: Shared, b: Shared)
    requires b == a.(exited := true, faulted := a.faulted || a.exited)
    ensures PoolStep(j, a, Exit, b, [])
  {
  }

  lemma SendPool(j: Job, a: Shared, jobs: seq<Job>, b: Shared, push: seq<Op>)
    requires SendStep(a, jobs, b, push)
    ensures PoolStep(j, a, Send(jobs), b, push)
  {
    hide Sum, Settle;
    var ok :| b == a.(sends := a.sends + [SendRecord(jobs, ok)]) && push == Settle(jobs, ok);
    SettleWeighsNothing(Holds, j, jobs, ok);
  }

  // -- claims and loop control after each worker step --

  /** A step that neither claims nor speaks, before or after. */
  ghost predicate Silent(op: Op) {
    !op.Finish? && !op.Recheck? && !op.Report?
  }

  lemma SilentPush(j: Job, a: Shared, op: Op, b: Shared, push: seq<Op>)
    requires Silent(op) && forall x | x in push :: Silent(x)
    requires b.resolving == a.resolving && b.resolved == a.resolved && b.reported == a.reported
    ensures ClaimStep(j, a, op, b, push)
  {
    hide Sum;
    SumEmpty(Owes, j, push);
    SumEmpty(Speaks, j, push);
  }

  ghost predicate AllSilent(ops: seq<Op>) {
    forall x | x in ops :: Silent(x)
  }

  lemma BuiltSilent(jobs: seq<Job>, ok: bool)
    ensures AllSilent(Strand(jobs)) && AllSilent(Settle(jobs, ok)) && AllSilent(Deliver(jobs))
    ensures AllSilent(Strand(jobs) + [AbandonUnattempted, Drain])
  {
    hide Strand, Settle;
    StrandOps(jobs);
    SettleOps(jobs, ok);
  }

  lemma LoopSilent(a: Shared, op: Op, b: Shared, push: seq<Op>)
    requires WorkerExec(a, op, b, push)
    requires op.Select? || op.Collect? || op.AfterBatch? || op.AbandonUnattempted? || op.Drain? || op.Exit? || op.Send?
    ensures AllSilent(push)
  {
    hide Strand, Settle, Deliver;
    match op {
      case Collect(batch) =>
        BuiltSilent(batch, true);
        if a.queue != [] { BuiltSilent(batch + [a.queue[0]], true); }
      case Send(jobs) =>
        var ok :| b == a.(sends := a.sends + [SendRecord(jobs, ok)]) && push == Settle(jobs, ok);
        BuiltSilent(jobs, ok);
      case AbandonUnattempted =>
        var order :| Enumerates(order, a.pendingJobs - a.attempted) && push == Strand(order);
        BuiltSilent(order, true);
      case _ =>
    }
  }

  lemma BatchSilent(a: Shared, op: Op, b: Shared, push: seq<Op>)
    requires WorkerExec(a, op, b, push)
    requires op.Scan? || op.CallValid? || op.Groups? || op.Messages? || op.Mark?
    ensures AllSilent(push)
  {
    hide Strand, Resume, MarkAttempted, Flatten;
    match op {
      case Scan(todo, kept, cont) => ResumeSilent(kept, cont);
      case Groups(groups) => BuiltSilent(Flatten(groups), true);
      case Messages(messages, rest) => BuiltSilent(Flatten(messages), true); BuiltSilent(Flatten(rest), true);
      case _ =>
    }
  }

  /** Every worker step pushes silent steps and leaves claims and reports alone. */
  lemma WorkerSilent(a: Shared, op: Op, b: Shared, push: seq<Op>)
    requires WorkerExec(a, op, b, push)
    ensures Silent(op) && forall x | x in push :: Silent(x)
    ensures b.resolving == a.resolving && b.resolved == a.resolved && b.reported == a.reported
  {
    WorkerFields(a, op, b, push);
    if op.Scan? || op.CallValid? || op.Groups? || op.Messages? || op.Mark? {
      BatchSilent(a, op, b, push);
    } else {
      LoopSilent(a, op, b, push);
    }
    hide WorkerExec;
  }

  lemma WorkerFields(a: Shared, op: Op, b: Shared, push: seq<Op>)
    requires WorkerExec(a, op, b, push)
    ensures Silent(op) && !op.Note? && !op.Hook? && !op.CompleteNote? && !op.Claim? && Unresolved(a, b)
  {
    hide *;
    if Batching(op) {
      BatchFields(a, op, b, push);
    } else {
      UnbatchedFields(a, op, b, push);
    }
  }

  /** Nobody is noted, claimed or resolved. */
  predicate Unresolved(a: Shared, b: Shared) {
    && b.resolving == a.resolving && b.resolved == a.resolved && b.reported == a.reported
    && b.pendingJobs == a.pendingJobs && b.noted == a.noted && b.stopping == a.stopping
  }

  lemma BatchFields(a: Shared, op: Op, b: Shared, push: seq<Op>)
    requires WorkerExec(a, op, b, push) && Batching(op)
    ensures Silent(op) && !op.Note? && !op.Hook? && !op.CompleteNote? && !op.Claim? && Unresolved(a, b)
  {
    hide MarkAttempted, GroupsNext, MessagesNext, MarkNext, ScanNext, ValidStep;
  }

  lemma UnbatchedFields(a: Shared, op: Op, b: Shared, push: seq<Op>)
    requires WorkerExec(a, op, b, push) && !Batching(op)
    ensures Silent(op) && !op.Note? && !op.Hook? && !op.CompleteNote? && !op.Claim? && Unresolved(a, b)
  {
    hide SelectStep, CollectStep, DrainStep, AbandonStep, Settle, ResolveExec, StopExec;
    if op.Select? || op.Collect? || op.Drain? {
      LoopDequeues(a, op, b, push);
    }
  }

  /** Whatever else these steps do, all they change is the channel. */
  lemma LoopDequeues(a: Shared, op: Op, b: Shared, push: seq<Op>)
    requires WorkerExec(a, op, b, push) && (op.Select? || op.Collect? || op.Drain?)
    ensures b == a || (a.queue != [] && b == Dequeue(a))
  {
    hide Deliver, Strand, Dequeue;
  }

  lemma ResumeSilent(kept: seq<Job>, cont: Cont)
    ensures var op := Resume(kept, cont); op.Groups? || op.Messages? || op.Mark?
  {
  }

  lemma Uncontrolled(j: Job, a: Shared, op: Op, b: Shared, push: seq<Op>)
    requires Weight(Controls, j, op) == 0 && forall x | x in push :: Weight(Controls, j, x) == 0
    requires a.started == b.started && a.exited == b.exited
    ensures LoopStep(j, a, op, b, push)
  {
    hide Sum, Weight;
    SumEmpty(Controls, j, push);
  }

  lemma WorkerLoop(j: Job, a: Shared, op: Op, b: Shared, push: seq<Op>)
    requires WorkerExec(a, op, b, push) && (op.Exit? ==> !a.exited)
    ensures LoopStep(j, a, op, b, push)
  {
    hide Sum, MarkAttempted, Resume, Flatten, Strand, Settle, Deliver;
    forall jobs ensures forall x | x in Strand(jobs) :: Weight(Controls, j, x) == 0 { StrandOps(jobs); }
    forall jobs, ok ensures forall x | x in Settle(jobs, ok) :: Weight(Controls, j, x) == 0 { SettleOps(jobs, ok); }
    if op.Scan? && op.todo == [] {
      ResumeSilent(op.kept, op.cont);
    }
    SumTwo(Controls, j, AbandonUnattempted, Drain);
    if op.Select? || op.AfterBatch? || op.Drain? || op.Exit? {
      LoopEnds(j, a, op, b, push);
    } else if op.Collect? {
      LoopCollect(j, a, op.batch, b, push);
    } else {
      Uncontrolled(j, a, op, b, push);
    }
  }

  lemma LoopEnds(j: Job, a: Shared, op: Op, b: Shared, push: seq<Op>)
    requires WorkerExec(a, op, b, push) && (op.Exit? ==> !a.exited)
    requires op.Select? || op.AfterBatch? || op.Drain? || op.Exit?
    ensures LoopStep(j, a, op, b, push)
  {
    hide Sum, ScanNext, ValidStep, GroupsNext, MessagesNext, MarkNext, MarkAttempted, SendStep, AbandonStep, Deliver;
    SumTwo(Controls, j, AbandonUnattempted, Drain);
    SumOne(Controls, j, Select);
    SumOne(Controls, j, Exit);
    SumEmpty(Controls, j, []);
    if a.queue != [] {
      SumOne(Controls, j, Collect([a.queue[0]]));
      SumTwo(Controls, j, Note(a.queue[0], Stranded), Drain);
    }
  }

  lemma LoopCollect(j: Job, a: Shared, batch: seq<Job>, b: Shared, push: seq<Op>)
    requires CollectStep(a, batch, b, push)
    ensures LoopStep(j, a, Collect(batch), b, push)
  {
    hide Sum, Deliver, Strand;
    DeliverWeighs(Controls, j, batch);
    StrandThen(Controls, j, batch, AbandonUnattempted, Drain);
    if a.queue != [] {
      DeliverWeighs(Controls, j, batch + [a.queue[0]]);
      SumOne(Controls, j, Collect(batch + [a.queue[0]]));
    }
  }

  lemma StrandOk(sh: Shared, jobs: seq<Job>)
    requires sh.stopping && forall j | j in jobs :: j in sh.accepted
    ensures OkOps(sh, Strand(jobs))
  {
    hide Strand;
    StrandOps(jobs);
  }

  /** Every job a step holds has been accepted. */
  lemma HeldAccepted(sh: Shared, op: Op)
    requires Context(sh, op)
    ensures forall j | j in sh.queue :: j in sh.accepted
    ensures forall j | Held(op)[j] > 0 :: j in sh.accepted
  {
    hide SharedInv, OkOp, Held;
    forall j | j in sh.queue || Held(op)[j] > 0 ensures j in sh.accepted {
      assert multiset(sh.queue)[j] > 0 || Held(op)[j] > 0;
      assert Pooled(sh, j, multiset(sh.queue)[j] + Weight(Holds, j, op));
    }
  }

  lemma CollectOk(a: Shared, batch: seq<Job>, b: Shared, push: seq<Op>)
    requires CollectStep(a, batch, b, push) && forall j | j in batch :: j in a.accepted
    ensures OkOps(b, push)
  {
    hide Strand, SharedInv;
    if a.stopping {
      StrandOk(a, batch);
    }
  }

  lemma GroupsOk(a: Shared, groups: seq<seq<Job>>)
    requires forall j | j in Flatten(groups) :: j in a.accepted
    ensures OkOps(a, GroupsNext(a, groups))
  {
    hide Strand, Flatten;
    if a.stopping {
      StrandOk(a, Flatten(groups));
    }
  }

  lemma MessagesOk(a: Shared, messages: seq<seq<Job>>, rest: seq<seq<Job>>)
    requires forall j | j in Flatten(messages) || j in Flatten(rest) :: j in a.accepted
    ensures OkOps(a, MessagesNext(a, messages, rest))
  {
    hide Strand, Flatten;
    if a.stopping {
      StrandOk(a, Flatten(messages));
      StrandOk(a, Flatten(rest));
    }
  }

  lemma MarkOk(a: Shared, jobs: seq<Job>, more: seq<seq<Job>>, rest: seq<seq<Job>>, b: Shared)
    requires b == a.(attempted := a.attempted + (set j | j in MarkAttempted(a, jobs)))
    ensures OkOps(b, MarkNext(MarkAttempted(a, jobs), more, rest))
  {
    hide MarkAttempted;
  }

  lemma StackedAccepted(a: Shared, op: Op)
    requires Context(a, op)
    ensures forall j | j in a.queue :: j in a.accepted
    ensures op.Collect? ==> forall j | j in op.batch :: j in a.accepted
    ensures op.Groups? ==> forall j | j in Flatten(op.groups) :: j in a.accepted
    ensures op.Messages? ==> forall j | j in Flatten(op.messages) || j in Flatten(op.rest) :: j in a.accepted
    ensures op.CallValid? ==> op.job in a.accepted
  {
    hide SharedInv, OkOp, Pooled, Flatten;
    HeldAccepted(a, op);
    forall j | op.Collect? && j in op.batch ensures j in a.accepted { assert Held(op)[j] > 0; }
    forall j | op.Groups? && j in Flatten(op.groups) ensures j in a.accepted { assert Held(op)[j] > 0; }
    forall j | op.Messages? && (j in Flatten(op.messages) || j in Flatten(op.rest)) ensures j in a.accepted {
      assert Held(op)[j] > 0;
    }
    if op.CallValid? {
      assert Held(op)[op.job] > 0;
    }
  }

  lemma LoopOk(a: Shared, op: Op, b: Shared, push: seq<Op>)
    requires Context(a, op) && WorkerExec(a, op, b, push)
    requires op.Select? || op.AfterBatch? || op.Drain? || op.Exit?
    ensures OkOps(b, push)
  {
    hide SharedInv, Held, Pooled;
    StackedAccepted(a, op);
  }

  lemma WorkerOk(a: Shared, op: Op, b: Shared, push: seq<Op>)
    requires Context(a, op) && WorkerExec(a, op, b, push)
    ensures OkOps(b, push)
  {
    hide *;
    if Batching(op) {
      BatchOk(a, op, b, push);
    } else {
      UnbatchedOk(a, op, b, push);
    }
  }

  /** The steps of the worker on a batch, between collecting it and sending its messages. */
  predicate Batching(op: Op) {
    op.Scan? || op.CallValid? || op.Groups? || op.Messages? || op.Mark?
  }

  lemma BatchOk(a: Shared, op: Op, b: Shared, push: seq<Op>)
    requires Context(a, op) && WorkerExec(a, op, b, push) && Batching(op)
    ensures OkOps(b, push)
  {
    hide SharedInv, OkOps, SelectStep, CollectStep, ScanNext, ValidStep, GroupsNext, MessagesNext, MarkNext, SendStep,
      AbandonStep, DrainStep, MarkAttempted, Pooled;
    StackedAccepted(a, op);
    match op {
      case Groups(groups) => GroupsOk(a, groups);
      case Messages(messages, rest) => MessagesOk(a, messages, rest);
      case Mark(jobs, more, rest) => MarkOk(a, jobs, more, rest, b);
      case Scan(todo, kept, cont) => ScanOk(a, todo, kept, cont);
      case CallValid(job, todo, kept, cont) => ValidOk(a, job, todo, kept, cont, push);
    }
  }

  lemma UnbatchedOk(a: Shared, op: Op, b: Shared, push: seq<Op>)
    requires Context(a, op) && WorkerExec(a, op, b, push) && !Batching(op)
    ensures OkOps(b, push)
  {
    hide SharedInv, OkOps, SelectStep, CollectStep, SendStep, AbandonStep, DrainStep, Pooled;
    StackedAccepted(a, op);
    match op {
      case Collect(batch) => CollectOk(a, batch, b, push);
      case Send(jobs) => SendOk(a, jobs, b, push);
      case AbandonUnattempted => AbandonOk(a, push);
      case _ => LoopOk(a, op, b, push);
    }
  }

  lemma ScanOk(a: Shared, todo: seq<Job>, kept: seq<Job>, cont: Cont)
    ensures OkOps(a, [ScanNext(a, todo, kept, cont)])
  {
    hide Resume;
    ResumeSilent(kept, cont);
  }

  lemma ValidOk(a: Shared, job: Job, todo: seq<Job>, kept: seq<Job>, cont: Cont, push: seq<Op>)
    requires job in a.accepted && ValidStep(job, todo, kept, cont, push)
    ensures OkOps(a, push)
  {
  }

  lemma SendOk(a: Shared, jobs: seq<Job>, b: Shared, push: seq<Op>)
    requires SharedInv(a) && SendStep(a, jobs, b, push) && forall j | j in jobs :: j in a.attempted
    ensures OkOps(b, push)
  {
    hide Settle;
    var ok :| b == a.(sends := a.sends + [SendRecord(jobs, ok)]) && push == Settle(jobs, ok);
    SettleOps(jobs, ok);
  }

  lemma AbandonOk(a: Shared, push: seq<Op>)
    requires SharedInv(a) && a.stopping && AbandonStep(a, push)
    ensures OkOps(a, push)
  {
    hide Strand;
    var order :| Enumerates(order, a.pendingJobs - a.attempted) && push == Strand(order);
    EnumeratedJobs(order, a.pendingJobs - a.attempted);
    StrandOk(a, order);
  }

  lemma EnumeratedJobs(order: seq<Job>, jobs: set<Job>)
    requires Enumerates(order, jobs)
    ensures forall j :: j in order <==> j in jobs
  {
    forall j ensures j in order <==> j in jobs {
      assert j in order <==> multiset(order)[j] > 0;
      assert j in jobs <==> multiset(jobs)[j] > 0;
    }
  }

  // -- resolution of one job --

  lemma NoteShared(a: Shared, job: Job)
    requires SharedInv(a) && Notable(a, job)
    ensures var b := a.(noted := a.noted + {job}); SharedInv(b) && Grow(a, b)
  {
  }

  lemma HookShared(a: Shared, job: Job)
    requires SharedInv(a) && job in a.noted
    ensures var b := a.(hooked := a.hooked + {job}); SharedInv(b) && Grow(a, b)
  {
  }

  lemma CompleteShared(a: Shared, job: Job)
    requires SharedInv(a) && job in a.hooked
    ensures var b := a.(abandoned := a.abandoned + {job}); SharedInv(b) && Grow(a, b)
  {
  }

  lemma ClaimShared(a: Shared, job: Job, claimant: Claimant)
    requires SharedInv(a) && OkOp(a, Claim(job, claimant))
    ensures var b := a.(resolving := a.resolving + {job}); SharedInv(b) && Grow(a, b)
  {
  }

  lemma ReportShared(a: Shared, job: Job, outcome: Outcome)
    requires SharedInv(a) && OkOp(a, Report(job, outcome))
    ensures var b := a.(reported := a.reported + multiset{job},
                        unattempted := if outcome.Unattempted? then a.unattempted + {job} else a.unattempted);
            SharedInv(b) && Grow(a, b)
  {
  }

  lemma ResolveShared(a: Shared, op: Op, b: Shared, push: seq<Op>)
    requires Context(a, op) && ResolveExec(a, op, b, push)
    ensures SharedInv(b) && Grow(a, b) && !b.faulted
  {
    hide *;
    if op.Note? || op.Hook? || op.CompleteNote? {
      AbandonShared(a, op, b, push);
    } else if op.Finish? {
      FinishedShared(a, op, b, push);
    } else {
      SettleShared(a, op, b, push);
    }
  }

  lemma AbandonShared(a: Shared, op: Op, b: Shared, push: seq<Op>)
    requires Context(a, op) && ResolveExec(a, op, b, push) && (op.Note? || op.Hook? || op.CompleteNote?)
    ensures SharedInv(b) && Grow(a, b) && !b.faulted
  {
    hide SharedInv, Grow, Pooled;
    SameShared(a, a.exited, a.faulted);
    match op {
      case Note(job, goal) => if Notable(a, job) { NoteShared(a, job); }
      case Hook(job, next) => HookShared(a, job);
      case CompleteNote(job, next) => CompleteShared(a, job);
    }
  }

  lemma FinishedShared(a: Shared, op: Op, b: Shared, push: seq<Op>)
    requires Context(a, op) && ResolveExec(a, op, b, push) && op.Finish?
    ensures SharedInv(b) && Grow(a, b) && !b.faulted
  {
    hide SharedInv, Grow, Pooled, FinishResolution;
    FinishShared(a, op.job);
  }

  lemma SettleShared(a: Shared, op: Op, b: Shared, push: seq<Op>)
    requires Context(a, op) && ResolveExec(a, op, b, push)
    requires !(op.Note? || op.Hook? || op.CompleteNote? || op.Finish?)
    ensures SharedInv(b) && Grow(a, b) && !b.faulted
  {
    hide SharedInv, Grow, Pooled, FinishResolution, Claimable, ClaimSteps;
    SameShared(a, a.exited, a.faulted);
    match op {
      case Claim(job, claimant) => ClaimShared(a, job, claimant);
      case Report(job, outcome) => ReportShared(a, job, outcome);
      case _ =>
    }
  }

  lemma FinishShared(a: Shared, job: Job)
    requires SharedInv(a) && job in a.resolving && a.resolved[job] == 0 && !a.faulted
    ensures var b := FinishResolution(a, job);
            SharedInv(b) && Grow(a, b) && !b.faulted && job in a.pendingJobs && b.resolved == a.resolved + multiset{job}
  {
    var b := FinishResolution(a, job);
    assert job in a.pendingJobs;
    assert |a.pendingJobs - {job}| == |a.pendingJobs| - 1;
    forall j ensures b.resolved[j] == if j in b.accepted - b.pendingJobs then 1 else 0 {
      assert a.resolved[j] == if j in a.accepted - a.pendingJobs then 1 else 0;
    }
  }

  lemma NotePool(j: Job, a: Shared, op: Op, b: Shared, push: seq<Op>)
    requires ResolveExec(a, op, b, push) && op.Note? && OkOp(a, op)
    ensures PoolStep(j, a, op, b, push)
  {
    hide *;
    if Notable(a, op.job) {
      NotedPool(j, a, op, b, push);
    } else {
      KnownPool(j, a, op, b, push);
    }
  }

  lemma NotedPool(j: Job, a: Shared, op: Op, b: Shared, push: seq<Op>)
    requires ResolveExec(a, op, b, push) && op.Note? && OkOp(a, op) && Notable(a, op.job)
    ensures PoolStep(j, a, op, b, push)
  {
    hide Sum, FinishResolution, Claimable, ClaimSteps, SharedInv;
    SumOne(Holds, j, Hook(op.job, Some(op.goal)));
  }

  lemma KnownPool(j: Job, a: Shared, op: Op, b: Shared, push: seq<Op>)
    requires ResolveExec(a, op, b, push) && op.Note? && OkOp(a, op) && !Notable(a, op.job)
    ensures PoolStep(j, a, op, b, push)
  {
    hide Sum, FinishResolution, Claimable, ClaimSteps, SharedInv;
    SumOne(Holds, j, Claim(op.job, op.goal));
  }

  /** The other resolution steps hold nothing and let nothing leave the pool. */
  lemma WeightlessPool(j: Job, a: Shared, op: Op, b: Shared, push: seq<Op>)
    requires Weight(Holds, j, op) == 0 && forall x | x in push :: Weight(Holds, j, x) == 0
    requires b.queue == a.queue && Leaving(a, b) == {}
    ensures PoolStep(j, a, op, b, push)
  {
    hide Sum, Weight;
    SumEmpty(Holds, j, push);
  }

  lemma ResolvePool(j: Job, a: Shared, op: Op, b: Shared, push: seq<Op>)
    requires ResolveExec(a, op, b, push) && OkOp(a, op)
    ensures PoolStep(j, a, op, b, push)
  {
    hide PoolStep, Sum;
    if op.Note? {
      NotePool(j, a, op, b, push);
    } else {
      ResolveWeightless(j, a, op, b, push);
      WeightlessPool(j, a, op, b, push);
    }
  }

  lemma ResolveWeightless(j: Job, a: Shared, op: Op, b: Shared, push: seq<Op>)
    requires ResolveExec(a, op, b, push) && !op.Note?
    ensures Weight(Holds, j, op) == 0 && forall x | x in push :: Weight(Holds, j, x) == 0
    ensures b.queue == a.queue && Leaving(a, b) == {}
  {
    hide ResolveExec, Weight;
    ResolveFields(a, op, b, push);
    ResolvePush(a, op, b, push);
    forall x | x in [op] + push ensures Weight(Holds, j, x) == 0 {
      ResolutionHoldsNothing(j, x);
    }
    assert op in [op] + push && forall x | x in push :: x in [op] + push;
  }

  lemma ResolutionHoldsNothing(j: Job, op: Op)
    requires op.Hook? || op.CompleteNote? || op.Claim? || op.Recheck? || op.Report? || op.Finish?
    ensures Weight(Holds, j, op) == 0
  {
  }

  lemma ResolvePush(a: Shared, op: Op, b: Shared, push: seq<Op>)
    requires ResolveExec(a, op, b, push) && !op.Note?
    ensures forall x | x in [op] + push ::
      x.Hook? || x.CompleteNote? || x.Claim? || x.Recheck? || x.Report? || x.Finish?
  {
    hide FinishResolution, Claimable, Notable;
  }

  /** Resolving a job leads to nothing but resolving it, and sends nothing. */
  lemma ResolveLeadsOn(a: Shared, op: Op, b: Shared, push: seq<Op>)
    requires ResolveExec(a, op, b, push)
    ensures forall x | x in push :: x.Hook? || x.CompleteNote? || x.Claim? || x.Recheck? || x.Report? || x.Finish?
    ensures b.sends == a.sends && b.exited == a.exited
  {
    if op.Note? {
      NoteLeadsOn(a, op, b, push);
      hide *;
    } else {
      ResolveRecord(a, op, b, push);
      hide *;
      ResolvePush(a, op, b, push);
    }
  }

  lemma NoteLeadsOn(a: Shared, op: Op, b: Shared, push: seq<Op>)
    requires ResolveExec(a, op, b, push) && op.Note?
    ensures forall x | x in push :: x.Hook? || x.Claim?
    ensures b.sends == a.sends && b.exited == a.exited
  {
    hide Notable;
  }

  lemma ResolveRecord(a: Shared, op: Op, b: Shared, push: seq<Op>)
    requires ResolveExec(a, op, b, push) && !op.Note?
    ensures b.sends == a.sends && b.exited == a.exited
  {
    if op.Finish? {
      FinishRecord(a, op.job);
      hide FinishResolution;
    } else {
      hide Claimable, ClaimSteps, FinishResolution;
    }
  }

  lemma FinishRecord(a: Shared, job: Job)
    ensures FinishResolution(a, job).sends == a.sends && FinishResolution(a, job).exited == a.exited
  {
  }

  lemma ResolveFields(a: Shared, op: Op, b: Shared, push: seq<Op>)
    requires ResolveExec(a, op, b, push) && !op.Note?
    ensures b.queue == a.queue && b.attempted == a.attempted && b.noted == a.noted
  {
    hide ClaimSteps, FinishResolution;
    if op.Finish? {
      FinishedFields(a, op.job);
    }
  }

  lemma FinishedFields(a: Shared, job: Job)
    ensures var b := FinishResolution(a, job); b.queue == a.queue && b.attempted == a.attempted && b.noted == a.noted
  {
  }

  lemma ClaimClaims(j: Job, a: Shared, job: Job, claimant: Claimant, b: Shared, push: seq<Op>)
    requires ResolveExec(a, Claim(job, claimant), b, push)
    ensures ClaimStep(j, a, Claim(job, claimant), b, push)
  {
    hide Sum, ClaimSteps;
    if Claimable(a, job, claimant) {
      assert job !in a.resolving;
      ClaimWeights(j, job, claimant);
      hide Claimable;
    } else {
      hide Claimable;
      SumEmpty(Owes, j, []);
      SumEmpty(Speaks, j, []);
    }
  }

  lemma ReportClaims(j: Job, a: Shared, op: Op, b: Shared, push: seq<Op>)
    requires ResolveExec(a, op, b, push) && (op.Report? || op.Recheck?)
    ensures ClaimStep(j, a, op, b, push)
  {
    hide Sum;
    if op.Recheck? {
      SumOne(Owes, j, Report(op.job, Unattempted));
      SumOne(Speaks, j, Report(op.job, Unattempted));
    }
    SumEmpty(Owes, j, []);
    SumEmpty(Speaks, j, []);
  }

  lemma FinishClaims(j: Job, a: Shared, job: Job)
    requires SharedInv(a) && job in a.resolving && a.resolved[job] == 0 && !a.faulted
    ensures ClaimStep(j, a, Finish(job), FinishResolution(a, job), [])
  {
    hide Sum;
    FinishShared(a, job);
    SumEmpty(Owes, j, []);
    SumEmpty(Speaks, j, []);
  }

  lemma ResolveClaims(j: Job, a: Shared, op: Op, b: Shared, push: seq<Op>)
    requires Context(a, op) && ResolveExec(a, op, b, push)
    ensures ClaimStep(j, a, op, b, push)
  {
    match op {
      case Claim(job, claimant) => hide *; ClaimClaims(j, a, job, claimant, b, push);
      case Recheck(_) => hide *; ReportClaims(j, a, op, b, push);
      case Report(_, _) => hide *; ReportClaims(j, a, op, b, push);
      case Finish(job) => hide ClaimStep, FinishResolution, SharedInv, Pooled, Held; FinishClaims(j, a, job);
      case _ => hide ClaimStep, SharedInv, Pooled, Held; SilentPush(j, a, op, b, push);
    }
  }

  lemma ClaimWeights(j: Job, job: Job, claimant: Claimant)
    ensures Sum(Owes, j, ClaimSteps(job, claimant)) == (if j == job then 1 else 0)
    ensures Sum(Speaks, j, ClaimSteps(job, claimant)) <= (if j == job then 1 else 0)
  {
    hide Sum;
    match claimant
    case Stranded => SumTwo(Owes, j, Recheck(job), Finish(job)); SumTwo(Speaks, j, Recheck(job), Finish(job));
    case Invalid => SumOne(Owes, j, Finish(job)); SumOne(Speaks, j, Finish(job));
    case Sent(ok) =>
      SumTwo(Owes, j, Report(job, Delivered(ok)), Finish(job));
      SumTwo(Speaks, j, Report(job, Delivered(ok)), Finish(job));
  }

  lemma ResolveLoop(j: Job, a: Shared, op: Op, b: Shared, push: seq<Op>)
    requires ResolveExec(a, op, b, push)
    ensures LoopStep(j, a, op, b, push)
  {
    hide Sum;
    Uncontrolled(j, a, op, b, push);
  }

  lemma NoteOk(a: Shared, op: Op, b: Shared, push: seq<Op>)
    requires Context(a, op) && ResolveExec(a, op, b, push) && op.Note?
    ensures OkOps(b, push)
  {
    if op.goal.Invalid? && !a.stopping {
      assert Pooled(a, op.job, multiset(a.queue)[op.job] + Weight(Holds, op.job, op));
      hide SharedInv;
      assert Notable(a, op.job);
    }
  }

  lemma ResolveOk(a: Shared, op: Op, b: Shared, push: seq<Op>)
    requires Context(a, op) && ResolveExec(a, op, b, push)
    ensures OkOps(b, push)
  {
    if op.Note? {
      hide *;
      NoteOk(a, op, b, push);
    } else {
      HookedAccepted(a);
      hide Pooled, SharedInv, FinishResolution;
    }
  }

  lemma HookedAccepted(a: Shared)
    requires SharedInv(a)
    ensures a.hooked <= a.accepted
  {
  }

  // -- a stop caller --

  lemma StoppingShared(a: Shared, order: seq<Job>)
    requires SharedInv(a) && !a.accepting && Enumerates(order, a.pendingJobs - a.attempted)
    ensures var b := a.(stopping := true, noted := a.noted + (set j | j in order)); SharedInv(b) && Grow(a, b)
  {
    EnumeratedJobs(order, a.pendingJobs - a.attempted);
  }

  lemma CloseAdmissionShared(a: Shared)
    requires SharedInv(a)
    ensures var b := a.(accepting := false); SharedInv(b) && Grow(a, b)
  {
  }

  lemma SnapshotShared(a: Shared, join: bool, b: Shared, push: seq<Op>)
    requires SharedInv(a) && !a.accepting && StopExec(a, MarkStopping(join), b, push)
    ensures SharedInv(b) && Grow(a, b) && b.faulted == a.faulted
  {
    hide StopSteps, SharedInv, Grow;
    var order :| Enumerates(order, a.pendingJobs - a.attempted)
      && b == a.(stopping := true, noted := a.noted + (set j | j in order)) && push == StopSteps(a, order, join);
    StoppingShared(a, order);
  }

  lemma StopShared(a: Shared, op: Op, b: Shared, push: seq<Op>)
    requires Context(a, op) && StopExec(a, op, b, push)
    ensures SharedInv(b) && Grow(a, b) && b.faulted == a.faulted
  {
    hide SharedInv, Grow, StopSteps, Pooled;
    SameShared(a, a.exited, a.faulted);
    match op {
      case CloseAdmission(_) => CloseAdmissionShared(a);
      case MarkStopping(join) => hide StopExec; SnapshotShared(a, join, b, push);
      case Discard(_) => if a.queue != [] { DequeueShared(a); }
      case _ =>
    }
  }

  /** None of the steps after a stop's snapshot holds, owes, speaks or controls anything. */
  lemma StopStepsOps(sh: Shared, order: seq<Job>, join: bool)
    ensures forall x | x in StopSteps(sh, order, join) ::
              || (x.Hook? && x.next.None? && x.job in order) || x == Spawn(order) || x == Discard(order)
              || x.WaitJob? || x.WaitWorker? || x.WaitIdle? || x.WaitResolvers?
  {
    hide Hooks, Waits, Without;
    WithoutKeeps(order, sh.abandoned);
    HooksOps(Without(order, sh.abandoned));
    WaitsOps(order);
  }

  ghost predicate Idle(j: Job, op: Op) {
    Silent(op) && Weight(Holds, j, op) == 0 && Weight(Controls, j, op) == 0
  }

  lemma StopSilent(j: Job, a: Shared, op: Op, b: Shared, push: seq<Op>)
    requires StopExec(a, op, b, push)
    ensures Idle(j, op) && forall x | x in push :: Idle(j, x)
    ensures b.resolving == a.resolving && b.resolved == a.resolved && b.reported == a.reported
    ensures b.started == a.started && b.exited == a.exited && b.attempted == a.attempted
    ensures b.queue == a.queue || op.Discard?
    ensures b.noted == a.noted || b.stopping
  {
    if op.MarkStopping? {
      hide StopSteps, Idle;
      var order :| Enumerates(order, a.pendingJobs - a.attempted)
        && b == a.(stopping := true, noted := a.noted + (set j | j in order)) && push == StopSteps(a, order, op.join);
      StopStepsIdle(j, a, order, op.join);
      SnapshotIdle(j, op.join);
    }
  }

  lemma SnapshotIdle(j: Job, join: bool)
    ensures Idle(j, MarkStopping(join))
  {
  }

  lemma StopStepsIdle(j: Job, sh: Shared, order: seq<Job>, join: bool)
    ensures forall x | x in StopSteps(sh, order, join) :: Idle(j, x)
  {
    hide StopSteps;
    StopStepsOps(sh, order, join);
  }

  lemma StopPool(j: Job, a: Shared, op: Op, b: Shared, push: seq<Op>)
    requires StopExec(a, op, b, push)
    ensures PoolStep(j, a, op, b, push)
  {
    StopSilent(j, a, op, b, push);
    if op.Discard? && a.queue != [] {
      hide Sum, PoolStep;
      SumEmpty(Holds, j, push);
      DequeuePool(j, a, op, push);
    } else {
      hide PoolStep, Weight, StopSteps;
      assert Leaving(a, b) == {};
      WeightlessPool(j, a, op, b, push);
    }
  }

  lemma StopClaims(j: Job, a: Shared, op: Op, b: Shared, push: seq<Op>)
    requires StopExec(a, op, b, push)
    ensures ClaimStep(j, a, op, b, push) && LoopStep(j, a, op, b, push)
  {
    hide Sum, Weight, Silent, ClaimStep, LoopStep, StopExec;
    StopSilent(j, a, op, b, push);
    SilentPush(j, a, op, b, push);
    Uncontrolled(j, a, op, b, push);
  }

  lemma StopOk(a: Shared, op: Op, b: Shared, push: seq<Op>)
    requires Context(a, op) && StopExec(a, op, b, push)
    ensures OkOps(b, push)
  {
    if op.MarkStopping? {
      hide StopSteps, Pooled;
      var order :| Enumerates(order, a.pendingJobs - a.attempted)
        && b == a.(stopping := true, noted := a.noted + (set j | j in order)) && push == StopSteps(a, order, op.join);
      StopStepsOk(a, order, op.join, b);
    } else {
      hide SharedInv, Pooled;
    }
  }

  lemma StopStepsOk(a: Shared, order: seq<Job>, join: bool, b: Shared)
    requires SharedInv(a) && Enumerates(order, a.pendingJobs - a.attempted)
    requires b == a.(stopping := true, noted := a.noted + (set j | j in order))
    ensures OkOps(b, StopSteps(a, order, join))
  {
    hide StopSteps;
    EnumeratedJobs(order, a.pendingJobs - a.attempted);
    StopStepsOps(a, order, join);
  }

  // ---------- one step of the system ----------

  lemma ExecShared(a: Shared, op: Op, b: Shared, push: seq<Op>)
    requires Context(a, op) && Exec(a, op, b, push)
    ensures SharedInv(b) && Grow(a, b) && OkOps(b, push) && !b.faulted
  {
    hide SharedInv, Grow, OkOps, WorkerExec, ResolveExec, StopExec, Pooled, Held;
    if WorkerExec(a, op, b, push) {
      WorkerShared(a, op, b, push);
      WorkerOk(a, op, b, push);
      WorkerFaultless(a, op, b, push);
    } else if ResolveExec(a, op, b, push) {
      ResolveShared(a, op, b, push);
      ResolveOk(a, op, b, push);
    } else {
      StopShared(a, op, b, push);
      StopOk(a, op, b, push);
    }
  }

  lemma WorkerFaultless(a: Shared, op: Op, b: Shared, push: seq<Op>)
    requires Context(a, op) && WorkerExec(a, op, b, push)
    ensures !b.faulted
  {
    hide SharedInv, Pooled, Held, MarkAttempted;
  }

  lemma ExecCounts(j: Job, a: Shared, op: Op, b: Shared, push: seq<Op>)
    requires Context(a, op) && Exec(a, op, b, push)
    ensures PoolStep(j, a, op, b, push) && ClaimStep(j, a, op, b, push) && LoopStep(j, a, op, b, push)
  {
    hide PoolStep, ClaimStep, LoopStep, WorkerExec, ResolveExec, StopExec, Pooled, Held, SharedInv;
    if WorkerExec(a, op, b, push) {
      WorkerPool(j, a, op, b, push);
      WorkerSilent(a, op, b, push);
      SilentPush(j, a, op, b, push);
      WorkerLoop(j, a, op, b, push);
    } else if ResolveExec(a, op, b, push) {
      ResolvePool(j, a, op, b, push);
      ResolveClaims(j, a, op, b, push);
      ResolveLoop(j, a, op, b, push);
    } else {
      StopPool(j, a, op, b, push);
      StopClaims(j, a, op, b, push);
    }
  }

  lemma {:induction false} SumMember(k: Tally, j: Job, ops: seq<Op>, i: nat)
    requires i < |ops|
    ensures Weight(k, j, ops[i]) <= Sum(k, j, ops)
  {
    hide Weight;
    if i > 0 {
      SumMember(k, j, ops[1..], i - 1);
    }
  }

  lemma {:induction false} TotalMember(k: Tally, j: Job, threads: seq<seq<Op>>, t: nat)
    requires t < |threads|
    ensures Sum(k, j, threads[t]) <= Total(k, j, threads)
  {
    hide Sum;
    if t > 0 {
      TotalMember(k, j, threads[1..], t - 1);
    }
  }

  /** The invariant gives a step everything it relies on. */
  lemma WeightBound(k: Tally, j: Job, s: System, t: nat)
    requires t < |s.threads| && s.threads[t] != []
    ensures Weight(k, j, s.threads[t][0]) <= Total(k, j, s.threads)
  {
    hide Weight, Sum, Total;
    SumMember(k, j, s.threads[t], 0);
    TotalMember(k, j, s.threads, t);
  }

  lemma ContextCounts(j: Job, s: System, t: nat)
    requires Inv(s) && t < |s.threads| && s.threads[t] != []
    ensures Pooled(s.sh, j, multiset(s.sh.queue)[j] + Weight(Holds, j, s.threads[t][0]))
    ensures s.threads[t][0] == Finish(j) && j in s.sh.resolving ==> s.sh.resolved[j] == 0
    ensures (s.threads[t][0].Exit? ==> !s.sh.exited) && !s.sh.faulted
  {
    hide SharedInv, OkThreads, Total, Sum, Held;
    assert Pooled(s.sh, j, Pool(s, j));
    assert Claimed(s.sh, j, Total(Owes, j, s.threads), Total(Speaks, j, s.threads));
    assert LoopInv(s.sh, Total(Controls, j, s.threads));
    WeightBound(Holds, j, s, t);
    WeightBound(Owes, j, s, t);
    WeightBound(Controls, j, s, t);
  }

  /** The invariant gives a step everything it relies on. */
  lemma ContextHolds(s: System, t: nat)
    requires Inv(s) && t < |s.threads| && s.threads[t] != []
    ensures Context(s.sh, s.threads[t][0])
  {
    hide SharedInv, Total, Sum, Held, Weight, Pooled, Claimed, LoopInv;
    var op := s.threads[t][0];
    assert OkOps(s.sh, s.threads[t]);
    assert OkOp(s.sh, op);
    var any := Job(0, Message("", 0, "", "", ""));
    ContextCounts(if op.Finish? then op.job else any, s, t);
    forall j ensures Pooled(s.sh, j, multiset(s.sh.queue)[j] + Weight(Holds, j, op)) {
      ContextCounts(j, s, t);
    }
  }

  lemma SpawnedWeigh(k: Tally, j: Job, op: Op)
    ensures Total(k, j, Spawned(op)) == 0
  {
    if op.Spawn? {
      TotalResolvers(k, j, op.jobs);
    }
  }

  lemma OkThreadsStep(s: System, t: nat, push: seq<Op>, s': System)
    requires OkThreads(s) && ThreadStepWith(s, t, push, s') && Grow(s.sh, s'.sh) && OkOps(s'.sh, push)
    ensures OkThreads(s')
  {
    hide Exec, Grow, OkOp;
    var head := s.threads[t][0];
    forall u | 0 <= u < |s'.threads| ensures OkOps(s'.sh, s'.threads[u]) {
      forall op | op in s'.threads[u] ensures OkOp(s'.sh, op) {
        if u >= |s.threads| {
          assert s'.threads[u] in Spawned(head);
          assert OkOps(s.sh, s.threads[t]);
          OkOpStable(s.sh, s'.sh, head);
          SpawnedOk(s'.sh, head, s'.threads[u]);
        } else if u != t {
          assert OkOps(s.sh, s.threads[u]);
          OkOpStable(s.sh, s'.sh, op);
        } else if op !in push {
          assert op in s.threads[t][1..];
          assert OkOps(s.sh, s.threads[t]);
          OkOpStable(s.sh, s'.sh, op);
        }
      }
    }
  }

  lemma SpawnedOk(sh: Shared, op: Op, ops: seq<Op>)
    requires OkOp(sh, op) && ops in Spawned(op)
    ensures OkOps(sh, ops)
  {
    ResolverThreads(op.jobs);
  }

  lemma PooledNext(j: Job, a: Shared, n: nat, b: Shared, m: nat)
    requires SharedInv(b) && Grow(a, b) && Pooled(a, j, n)
    requires m <= n && (j in Leaving(a, b) ==> m < n)
    ensures Pooled(b, j, m)
  {
  }

  lemma CountsStep(j: Job, s: System, t: nat, push: seq<Op>, s': System)
    requires ThreadStepWith(s, t, push, s')
    requires PoolStep(j, s.sh, s.threads[t][0], s'.sh, push)
    requires ClaimStep(j, s.sh, s.threads[t][0], s'.sh, push)
    requires LoopStep(j, s.sh, s.threads[t][0], s'.sh, push)
    ensures Pool(s', j) <= Pool(s, j) && (j in Leaving(s.sh, s'.sh) ==> Pool(s', j) < Pool(s, j))
    ensures Claimed(s.sh, j, Total(Owes, j, s.threads), Total(Speaks, j, s.threads))
         ==> Claimed(s'.sh, j, Total(Owes, j, s'.threads), Total(Speaks, j, s'.threads))
    ensures Total(Controls, j, s'.threads) + (if s'.sh.exited then 1 else 0)
         == Total(Controls, j, s.threads) + (if s.sh.exited then 1 else 0)
    ensures s'.sh.started == s.sh.started
  {
    hide Sum, Total, Weight, Exec, Spawned, Leaving;
    var op := s.threads[t][0];
    TotalStep(Holds, j, s, t, push, s');
    TotalStep(Owes, j, s, t, push, s');
    TotalStep(Speaks, j, s, t, push, s');
    TotalStep(Controls, j, s, t, push, s');
    SpawnedWeigh(Holds, j, op);
    SpawnedWeigh(Owes, j, op);
    SpawnedWeigh(Speaks, j, op);
    SpawnedWeigh(Controls, j, op);
  }

  lemma LoopNext(a: Shared, n: nat, b: Shared, m: nat)
    requires LoopInv(a, n) && Grow(a, b) && !b.faulted && b.started == a.started
    requires m + (if b.exited then 1 else 0) == n + (if a.exited then 1 else 0)
    ensures LoopInv(b, m)
  {
  }

  lemma CountsInv(j: Job, s: System, t: nat, push: seq<Op>, s': System)
    requires Inv(s) && ThreadStepWith(s, t, push, s') && Context(s.sh, s.threads[t][0])
    requires SharedInv(s'.sh) && Grow(s.sh, s'.sh) && !s'.sh.faulted
    ensures Pooled(s'.sh, j, Pool(s', j))
    ensures Claimed(s'.sh, j, Total(Owes, j, s'.threads), Total(Speaks, j, s'.threads))
    ensures LoopInv(s'.sh, Total(Controls, j, s'.threads))
  {
    assert Pooled(s.sh, j, Pool(s, j));
    assert LoopInv(s.sh, Total(Controls, j, s.threads));
    assert Claimed(s.sh, j, Total(Owes, j, s.threads), Total(Speaks, j, s.threads));
    hide *;
    ThreadStepExec(s, t, push, s');
    ExecCounts(j, s.sh, s.threads[t][0], s'.sh, push);
    CountsStep(j, s, t, push, s');
    PooledNext(j, s.sh, Pool(s, j), s'.sh, Pool(s', j));
    LoopNext(s.sh, Total(Controls, j, s.threads), s'.sh, Total(Controls, j, s'.threads));
  }

  lemma ThreadStepExec(s: System, t: nat, push: seq<Op>, s': System)
    requires ThreadStepWith(s, t, push, s')
    ensures t < |s.threads| && s.threads[t] != [] && Exec(s.sh, s.threads[t][0], s'.sh, push)
  {
  }

  lemma ThreadStepInv(s: System, t: nat, push: seq<Op>, s': System)
    requires Inv(s) && ThreadStepWith(s, t, push, s')
    ensures Inv(s') && Grow(s.sh, s'.sh)
  {
    hide SharedInv, Grow, OkOps, Exec, Total, Pooled, Claimed, Context, OkThreads, LoopInv;
    ContextHolds(s, t);
    ExecShared(s.sh, s.threads[t][0], s'.sh, push);
    OkThreadsStep(s, t, push, s');
    UnstartedStep(s, t, push, s');
    forall j
      ensures Pooled(s'.sh, j, Pool(s', j))
      ensures Claimed(s'.sh, j, Total(Owes, j, s'.threads), Total(Speaks, j, s'.threads))
      ensures LoopInv(s'.sh, Total(Controls, j, s'.threads))
    {
      CountsInv(j, s, t, push, s');
    }
  }

  lemma UnstartedStep(s: System, t: nat, push: seq<Op>, s': System)
    requires ThreadStepWith(s, t, push, s') && |s.threads| >= 2 && Grow(s.sh, s'.sh)
    requires !s.sh.started ==> s.threads[WORKER] == []
    ensures |s'.threads| >= 2 && (!s'.sh.started ==> s'.threads[WORKER] == [])
  {
    hide Exec;
  }

  lemma EnqueueShared(a: Shared, job: Job)
    requires SharedInv(a) && job !in a.accepted
    ensures SharedInv(Enqueue(a, job)) && Grow(a, Enqueue(a, job))
  {
  }

  lemma EnqueueCounts(j: Job, a: Shared, job: Job, n: nat, owed: nat, voice: nat)
    requires SharedInv(a) && job !in a.accepted && n >= multiset(a.queue)[j]
    requires Pooled(a, j, n) && Claimed(a, j, owed, voice)
    ensures var b := Enqueue(a, job);
            Pooled(b, j, n - multiset(a.queue)[j] + multiset(b.queue)[j]) && Claimed(b, j, owed, voice)
  {
    assert j == job ==> n == 0;
  }

  lemma EnqueueInv(s: System, job: Job)
    requires Inv(s) && job !in s.sh.accepted
    ensures var s' := s.(sh := Enqueue(s.sh, job)); Inv(s') && Grow(s.sh, s'.sh)
  {
    var s' := s.(sh := Enqueue(s.sh, job));
    EnqueueShared(s.sh, job);
    KeepsOk(s, s');
    forall j
      ensures Pooled(s'.sh, j, Pool(s', j))
      ensures Claimed(s'.sh, j, Total(Owes, j, s'.threads), Total(Speaks, j, s'.threads))
      ensures LoopInv(s'.sh, Total(Controls, j, s'.threads))
    {
      hide SharedInv, OkThreads, Total, Grow;
      assert Pooled(s.sh, j, Pool(s, j));
      assert Claimed(s.sh, j, Total(Owes, j, s.threads), Total(Speaks, j, s.threads));
      assert LoopInv(s.sh, Total(Controls, j, s.threads));
      EnqueueCounts(j, s.sh, job, Pool(s, j), Total(Owes, j, s.threads), Total(Speaks, j, s.threads));
    }
  }

  lemma KeepsOk(s: System, s': System)
    requires OkThreads(s) && s'.threads == s.threads && Grow(s.sh, s'.sh)
    ensures OkThreads(s')
  {
    hide OkOp, Grow;
    forall t | 0 <= t < |s'.threads| ensures OkOps(s'.sh, s'.threads[t]) {
      assert OkOps(s.sh, s.threads[t]);
      forall op | op in s'.threads[t] ensures OkOp(s'.sh, op) {
        OkOpStable(s.sh, s'.sh, op);
      }
    }
  }

  /** Replacing an empty stack by steps that hold and owe nothing. */
  lemma RefillCounts(k: Tally, j: Job, threads: seq<seq<Op>>, t: nat, ops: seq<Op>)
    requires t < |threads| && threads[t] == []
    ensures Total(k, j, threads[t := ops]) == Total(k, j, threads) + Sum(k, j, ops)
  {
    hide Total;
    TotalUpdate(k, j, threads, t, ops);
  }

  lemma StopCallInv(s: System, join: bool)
    requires Inv(s) && s.threads[STOPPER] == []
    ensures Inv(s.(threads := s.threads[STOPPER := [CloseAdmission(join)]]))
  {
    var ops := [CloseAdmission(join)];
    var s' := s.(threads := s.threads[STOPPER := ops]);
    forall t | 0 <= t < |s'.threads| ensures OkOps(s'.sh, s'.threads[t]) {
      assert t != STOPPER ==> OkOps(s.sh, s.threads[t]);
    }
    forall k: Tally, j ensures Total(k, j, s'.threads) == Total(k, j, s.threads) {
      RefillCounts(k, j, s.threads, STOPPER, ops);
      SumOne(k, j, CloseAdmission(join));
    }
    SameTotals(s, s');
  }

  lemma SameTotals(s: System, s': System)
    requires Inv(s) && s'.sh == s.sh
    requires forall k: Tally, j :: Total(k, j, s'.threads) == Total(k, j, s.threads)
    ensures forall j ::
      && Pooled(s'.sh, j, Pool(s', j))
      && Claimed(s'.sh, j, Total(Owes, j, s'.threads), Total(Speaks, j, s'.threads))
      && LoopInv(s'.sh, Total(Controls, j, s'.threads))
  {
    hide SharedInv, OkThreads, Total, Pooled, Claimed, LoopInv;
    forall j
      ensures Pooled(s'.sh, j, Pool(s', j))
      ensures Claimed(s'.sh, j, Total(Owes, j, s'.threads), Total(Speaks, j, s'.threads))
      ensures LoopInv(s'.sh, Total(Controls, j, s'.threads))
    {
      assert Pooled(s.sh, j, Pool(s, j));
    }
  }

  lemma StartInv(s: System)
    requires Inv(s) && s.sh.accepting && !s.sh.started
    ensures var s' := s.(sh := s.sh.(started := true), threads := s.threads[WORKER := [Select]]);
            Inv(s') && Grow(s.sh, s'.sh)
  {
    var s' := s.(sh := s.sh.(started := true), threads := s.threads[WORKER := [Select]]);
    forall t | 0 <= t < |s'.threads| ensures OkOps(s'.sh, s'.threads[t]) {
      assert t != WORKER ==> OkOps(s.sh, s.threads[t]);
      forall op | op in s'.threads[t] && t != WORKER ensures OkOp(s'.sh, op) {
        OkOpStable(s.sh, s'.sh, op);
      }
    }
    forall j
      ensures Pooled(s'.sh, j, Pool(s', j))
      ensures Claimed(s'.sh, j, Total(Owes, j, s'.threads), Total(Speaks, j, s'.threads))
      ensures LoopInv(s'.sh, Total(Controls, j, s'.threads))
    {
      StartCounts(s, s', j);
    }
  }

  lemma StartCounts(s: System, s': System, j: Job)
    requires Inv(s) && !s.sh.started
    requires s' == s.(sh := s.sh.(started := true), threads := s.threads[WORKER := [Select]])
    ensures Pooled(s'.sh, j, Pool(s', j))
    ensures Claimed(s'.sh, j, Total(Owes, j, s'.threads), Total(Speaks, j, s'.threads))
    ensures LoopInv(s'.sh, Total(Controls, j, s'.threads))
  {
    hide SharedInv, OkThreads, Total;
    assert Pooled(s.sh, j, Pool(s, j));
    forall k: Tally ensures Total(k, j, s'.threads) == Total(k, j, s.threads) + (if k == Controls then 1 else 0) {
      RefillCounts(k, j, s.threads, WORKER, [Select]);
      SumOne(k, j, Select);
    }
  }

  lemma ClosedCounts(a: Shared, j: Job, n: nat, owed: nat, voice: nat, control: nat)
    requires Pooled(a, j, n) && Claimed(a, j, owed, voice) && LoopInv(a, control)
    ensures var b := a.(accepting := false); Pooled(b, j, n) && Claimed(b, j, owed, voice) && LoopInv(b, control)
  {
  }

  lemma DrainCallInv(s: System)
    requires Inv(s)
    ensures var s' := s.(sh := s.sh.(accepting := false)); Inv(s') && Grow(s.sh, s'.sh)
  {
    var s' := s.(sh := s.sh.(accepting := false));
    CloseAdmissionShared(s.sh);
    KeepsOk(s, s');
    forall j
      ensures Pooled(s'.sh, j, Pool(s', j))
      ensures Claimed(s'.sh, j, Total(Owes, j, s'.threads), Total(Speaks, j, s'.threads))
      ensures LoopInv(s'.sh, Total(Controls, j, s'.threads))
    {
      hide SharedInv, OkThreads, Total, Grow, Pooled, Claimed, LoopInv;
      assert Pooled(s.sh, j, Pool(s, j));
      ClosedCounts(s.sh, j, Pool(s, j), Total(Owes, j, s.threads), Total(Speaks, j, s.threads),
        Total(Controls, j, s.threads));
    }
  }

  // ---------- runs ----------

  lemma GrowReflexive(a: Shared)
    requires SharedInv(a)
    ensures Grow(a, a)
  {
  }

  lemma StepInv(s: System, s': System)
    requires Inv(s) && Step(s, s')
    ensures Inv(s') && Grow(s.sh, s'.sh)
  {
    hide Enqueue, SharedInv, Grow, Total, OkThreads, ThreadStepWith, Pooled, Claimed, LoopInv;
    if t, push :| ThreadStepWith(s, t, push, s') {
      ThreadStepInv(s, t, push, s');
    } else {
      GrowReflexive(s.sh);
      CallStepInv(s, s');
    }
  }

  lemma CallStepInv(s: System, s': System)
    requires Inv(s) && CallStep(s, s')
    ensures Inv(s') && Grow(s.sh, s'.sh)
  {
    hide Enqueue, SharedInv, Grow, Total, OkThreads, Pooled, Claimed, LoopInv;
    GrowReflexive(s.sh);
    if job :| job !in s.sh.accepted && s' == s.(sh := Enqueue(s.sh, job)) {
      EnqueueInv(s, job);
    } else if s' == s.(sh := s.sh.(accepting := false)) {
      DrainCallInv(s);
    } else if join :| s.threads[STOPPER] == [] && s' == s.(threads := s.threads[STOPPER := [CloseAdmission(join)]]) {
      StopCallInv(s, join);
    } else {
      StartInv(s);
    }
  }

  lemma InitInv(s: System)
    requires Init(s)
    ensures Inv(s)
  {
    assert s.threads[1..] == [[]] && s.threads[1..][1..] == [];
    forall k: Tally, j ensures Total(k, j, s.threads) == 0 {
      assert Sum(k, j, []) == 0 && Total(k, j, []) == 0;
    }
  }

  lemma GrowTransitive(a: Shared, b: Shared, c: Shared)
    requires Grow(a, b) && Grow(b, c) && SharedInv(a) && SharedInv(b)
    ensures Grow(a, c)
  {
  }

  lemma {:induction false} RunInv(states: seq<System>, i: nat, k: nat)
    requires Run(states) && i <= k < |states|
    ensures Inv(states[i]) && Inv(states[k]) && Grow(states[i].sh, states[k].sh)
    decreases k
  {
    hide SharedInv, Grow, Step, Total, OkThreads, Pooled, Claimed, LoopInv;
    if k == 0 {
      InitInv(states[0]);
      GrowReflexive(states[0].sh);
    } else {
      RunInv(states, k - 1, k - 1);
      assert Step(states[k - 1], states[k]);
      StepInv(states[k - 1], states[k]);
      if i == k {
        GrowReflexive(states[k].sh);
      } else {
        RunInv(states, i, k - 1);
        GrowTransitive(states[i].sh, states[k - 1].sh, states[k].sh);
      }
    }
  }
}
