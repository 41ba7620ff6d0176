/** The delivery dispatcher as a protocol: one worker, stop callers, and the resolvers they spawn.
    A thread is the stack of steps it still has to take.  One step is one critical section of
    the state lock, one channel operation, or one call of a job's hook, validity check or callback. */
module Dispatch {
  import opened Coalesce

  datatype Option<T> = None | Some(value: T)

  /** What a callback is told. */
  datatype Outcome = Unattempted | Delivered(accepted: bool)

  /** On whose behalf a job is claimed for resolution. */
  datatype Claimant = Stranded | Invalid | Sent(accepted: bool)

  datatype SendRecord = SendRecord(jobs: seq<Job>, accepted: bool)

  /** The fields behind the state lock, the channel, and the record of what happened.
      A job's dispatch state is spread over sets: `noted` holds the jobs whose abandonment state is
      1 or 2, `abandoned` those where it is 2, `closed` those whose done channel is closed. */
  datatype Shared = Shared(
    accepting: bool, started: bool, stopping: bool, exited: bool,
    capacity: nat, queue: seq<Job>,
    pending: int, pendingJobs: set<Job>, idleClosed: bool,
    attempted: set<Job>, resolving: set<Job>, noted: set<Job>, abandoned: set<Job>, closed: set<Job>,
    // the record
    accepted: set<Job>, hooked: set<Job>, sends: seq<SendRecord>,
    reported: multiset<Job>, unattempted: set<Job>, resolved: multiset<Job>,
    faulted: bool)

  /** What the survivors of a validity scan are wanted for. */
  datatype Cont =
    | AfterCollect
    | AfterGroup(rest: seq<seq<Job>>)
    | AfterMessage(more: seq<seq<Job>>, rest: seq<seq<Job>>)

  datatype Op =
    // the worker
    | Select
    | Collect(batch: seq<Job>)
    | Scan(todo: seq<Job>, kept: seq<Job>, cont: Cont)
    | CallValid(job: Job, todo: seq<Job>, kept: seq<Job>, cont: Cont)
    | Groups(groups: seq<seq<Job>>)
    | Messages(messages: seq<seq<Job>>, rest: seq<seq<Job>>)
    | Mark(jobs: seq<Job>, more: seq<seq<Job>>, rest: seq<seq<Job>>)
    | Send(jobs: seq<Job>)
    | AfterBatch
    | AbandonUnattempted
    | Drain
    | Exit
    // resolution of one job
    | Note(job: Job, goal: Claimant)
    | Hook(job: Job, next: Option<Claimant>)
    | CompleteNote(job: Job, next: Option<Claimant>)
    | Claim(job: Job, claimant: Claimant)
    | Recheck(job: Job)
    | Report(job: Job, outcome: Outcome)
    | Finish(job: Job)
    // a stop caller, once it holds the stop lock
    | CloseAdmission(join: bool)
    | MarkStopping(join: bool)
    | Spawn(jobs: seq<Job>)
    | Discard(jobs: seq<Job>)
    | WaitJob(job: Job)
    | WaitWorker
    | WaitIdle
    | WaitResolvers

  // ---------- critical sections ----------

  function Enqueue(sh: Shared, job: Job): Shared {
    if !sh.accepting || |sh.queue| >= sh.capacity then sh
    else sh.(queue := sh.queue + [job],
             idleClosed := if sh.pending == 0 then false else sh.idleClosed,
             pending := sh.pending + 1,
             pendingJobs := sh.pendingJobs + {job},
             accepted := sh.accepted + {job})
  }

  function Dequeue(sh: Shared): Shared
    requires sh.queue != []
  {
    sh.(queue := sh.queue[1..])
  }

  predicate Notable(sh: Shared, job: Job) {
    job in sh.pendingJobs && job !in sh.attempted && job !in sh.noted
  }

  predicate Claimable(sh: Shared, job: Job, claimant: Claimant) {
    job in sh.pendingJobs && job !in sh.resolving && !(claimant.Stranded? && job in sh.attempted)
  }

  function FinishResolution(sh: Shared, job: Job): Shared {
    if job !in sh.pendingJobs then sh
    else
      var left := if sh.pending > 0 then sh.pending - 1 else sh.pending;
      sh.(pendingJobs := sh.pendingJobs - {job}, pending := left,
          closed := sh.closed + {job},
          idleClosed := sh.idleClosed || left == 0,
          resolved := sh.resolved + multiset{job},
          faulted := sh.faulted || job in sh.closed || (left == 0 && sh.idleClosed))
  }

  predicate Markable(sh: Shared, job: Job) {
    job in sh.pendingJobs && job !in sh.attempted && job !in sh.resolving
  }

  function MarkAttempted(sh: Shared, jobs: seq<Job>): seq<Job>
    decreases |jobs|
  {
    if jobs == [] || sh.stopping then []
    else if Markable(sh, jobs[0]) then
      [jobs[0]] + MarkAttempted(sh.(attempted := sh.attempted + {jobs[0]}), jobs[1..])
    else MarkAttempted(sh, jobs[1..])
  }

  ghost predicate Enumerates(order: seq<Job>, jobs: set<Job>) {
    multiset(order) == multiset(jobs)
  }

  function Without(order: seq<Job>, jobs: set<Job>): seq<Job> {
    if order == [] then []
    else if order[0] in jobs then Without(order[1..], jobs)
    else [order[0]] + Without(order[1..], jobs)
  }

  // ---------- what a step leaves on the stack ----------

  function Strand(jobs: seq<Job>): seq<Op> {
    if jobs == [] then [] else [Note(jobs[0], Stranded)] + Strand(jobs[1..])
  }

  function Settle(jobs: seq<Job>, ok: bool): seq<Op> {
    if jobs == [] then [] else [Claim(jobs[0], Sent(ok))] + Settle(jobs[1..], ok)
  }

  function Hooks(jobs: seq<Job>): seq<Op> {
    if jobs == [] then [] else [Hook(jobs[0], None)] + Hooks(jobs[1..])
  }

  function Waits(jobs: seq<Job>): seq<Op> {
    if jobs == [] then [] else [WaitJob(jobs[0])] + Waits(jobs[1..])
  }

  /** Same kind and priority share a message. */
  predicate SameKey(a: Job, b: Job) {
    a.message.kind == b.message.kind && a.message.priority == b.message.priority
  }

  function Like(job: Job, jobs: seq<Job>, same: bool): (r: seq<Job>)
    ensures |r| <= |jobs|
  {
    if jobs == [] then []
    else (if SameKey(job, jobs[0]) == same then [jobs[0]] else []) + Like(job, jobs[1..], same)
  }

  /** The groups of a batch, in order of first appearance. */
  function GroupByKey(jobs: seq<Job>): seq<seq<Job>>
    decreases |jobs|
  {
    if jobs == [] then []
    else [[jobs[0]] + Like(jobs[0], jobs[1..], true)] + GroupByKey(Like(jobs[0], jobs[1..], false))
  }

  function Deliver(batch: seq<Job>): seq<Op> {
    [Scan(batch, [], AfterCollect), AfterBatch]
  }

  function Resume(kept: seq<Job>, cont: Cont): Op {
    match cont
    case AfterCollect => Groups(GroupByKey(kept))
    case AfterGroup(rest) =>
      if kept == [] then Groups(rest)
      else Messages(if |kept| > 1 then Split(kept) else [kept], rest)
    case AfterMessage(more, rest) =>
      if kept == [] then Messages(more, rest) else Mark(kept, more, rest)
  }

  function ClaimSteps(job: Job, claimant: Claimant): seq<Op> {
    match claimant
    case Stranded => [Recheck(job), Finish(job)]
    case Invalid => [Finish(job)]
    case Sent(ok) => [Report(job, Delivered(ok)), Finish(job)]
  }

  /** The rest of a stop after its snapshot.  The bounded stop's waits change nothing and may time
      out at once, so only the final stop carries its waits. */
  function StopSteps(sh: Shared, order: seq<Job>, join: bool): seq<Op> {
    Hooks(Without(order, sh.abandoned)) + [Spawn(order), Discard(order)]
    + (if join then Waits(order) + (if sh.started then [WaitWorker] else []) + [WaitIdle, WaitResolvers] else [])
  }

  // ---------- one step ----------

  ghost predicate SelectStep(sh: Shared, sh': Shared, push: seq<Op>) {
    || (sh.stopping && sh' == sh && push == [AbandonUnattempted, Drain])
    || (sh.queue != [] && sh' == Dequeue(sh) && push == [Collect([sh.queue[0]])])
  }

  /** A batch closes at 32 jobs, or at any time: there may be no window, and a flush or the timer ends it. */
  ghost predicate CollectStep(sh: Shared, batch: seq<Job>, sh': Shared, push: seq<Op>) {
    || (sh.queue != [] && sh' == Dequeue(sh)
        && push == if |batch| + 1 >= 32 then Deliver(batch + [sh.queue[0]]) else [Collect(batch + [sh.queue[0]])])
    || (sh' == sh && push == Deliver(batch))
    || (sh.stopping && sh' == sh && push == Strand(batch) + [AbandonUnattempted, Drain])
  }

  /** The loop of `validPending`: skip what is no longer pending, ask the rest whether they are valid. */
  function ScanNext(sh: Shared, todo: seq<Job>, kept: seq<Job>, cont: Cont): Op {
    if todo == [] then Resume(kept, cont)
    else if todo[0] in sh.pendingJobs && todo[0] !in sh.resolving then CallValid(todo[0], todo[1..], kept, cont)
    else Scan(todo[1..], kept, cont)
  }

  ghost predicate ValidStep(job: Job, todo: seq<Job>, kept: seq<Job>, cont: Cont, push: seq<Op>) {
    push == [Scan(todo, kept + [job], cont)] || push == [Note(job, Invalid), Scan(todo, kept, cont)]
  }

  function GroupsNext(sh: Shared, groups: seq<seq<Job>>): seq<Op> {
    if groups == [] then []
    else if sh.stopping then Strand(Flatten(groups))
    else [Scan(groups[0], [], AfterGroup(groups[1..]))]
  }

  function MessagesNext(sh: Shared, messages: seq<seq<Job>>, rest: seq<seq<Job>>): seq<Op> {
    if messages == [] then [Groups(rest)]
    else if sh.stopping then Strand(Flatten(messages)) + Strand(Flatten(rest))
    else [Scan(messages[0], [], AfterMessage(messages[1..], rest))]
  }

  function MarkNext(marked: seq<Job>, more: seq<seq<Job>>, rest: seq<seq<Job>>): seq<Op> {
    if marked == [] then [Messages(more, rest)] else [Send(marked), Messages(more, rest)]
  }

  ghost predicate SendStep(sh: Shared, jobs: seq<Job>, sh': Shared, push: seq<Op>) {
    exists ok :: sh' == sh.(sends := sh.sends + [SendRecord(jobs, ok)]) && push == Settle(jobs, ok)
  }

  ghost predicate AbandonStep(sh: Shared, push: seq<Op>) {
    exists order :: Enumerates(order, sh.pendingJobs - sh.attempted) && push == Strand(order)
  }

  ghost predicate DrainStep(sh: Shared, sh': Shared, push: seq<Op>) {
    if sh.queue != [] then sh' == Dequeue(sh) && push == [Note(sh.queue[0], Stranded), Drain]
    else sh' == sh && push == [Exit]
  }

  ghost predicate WorkerExec(sh: Shared, op: Op, sh': Shared, push: seq<Op>) {
    match op
    case Select => SelectStep(sh, sh', push)
    case Collect(batch) => CollectStep(sh, batch, sh', push)
    case Scan(todo, kept, cont) => sh' == sh && push == [ScanNext(sh, todo, kept, cont)]
    case CallValid(job, todo, kept, cont) => sh' == sh && ValidStep(job, todo, kept, cont, push)
    case Groups(groups) => sh' == sh && push == GroupsNext(sh, groups)
    case Messages(messages, rest) => sh' == sh && push == MessagesNext(sh, messages, rest)
    case Mark(jobs, more, rest) =>
      && sh' == sh.(attempted := sh.attempted + (set j | j in MarkAttempted(sh, jobs)))
      && push == MarkNext(MarkAttempted(sh, jobs), more, rest)
    case Send(jobs) => SendStep(sh, jobs, sh', push)
    case AfterBatch => sh' == sh && push == if sh.stopping then [AbandonUnattempted, Drain] else [Select]
    case AbandonUnattempted => sh' == sh && AbandonStep(sh, push)
    case Drain => DrainStep(sh, sh', push)
    case Exit => sh' == sh.(exited := true, faulted := sh.faulted || sh.exited) && push == []
    case _ => false
  }

  ghost predicate ResolveExec(sh: Shared, op: Op, sh': Shared, push: seq<Op>) {
    match op
    case Note(job, goal) =>
      if Notable(sh, job) then sh' == sh.(noted := sh.noted + {job}) && push == [Hook(job, Some(goal))]
      else sh' == sh && push == [Claim(job, goal)]
    case Hook(job, next) =>
      sh' == sh.(hooked := sh.hooked + {job}) && push == [CompleteNote(job, next)]
    case CompleteNote(job, next) =>
      && sh' == sh.(abandoned := sh.abandoned + {job})
      && push == if next.Some? then [Claim(job, next.value)] else []
    case Claim(job, claimant) =>
      if Claimable(sh, job, claimant) then
        sh' == sh.(resolving := sh.resolving + {job}) && push == ClaimSteps(job, claimant)
      else sh' == sh && push == []
    case Recheck(job) =>
      sh' == sh && (push == [Report(job, Unattempted)] || push == [])
    case Report(job, outcome) =>
      && sh' == sh.(reported := sh.reported + multiset{job},
                    unattempted := if outcome.Unattempted? then sh.unattempted + {job} else sh.unattempted)
      && push == []
    case Finish(job) =>
      sh' == FinishResolution(sh, job) && push == []
    case _ => false
  }

  ghost predicate StopExec(sh: Shared, op: Op, sh': Shared, push: seq<Op>) {
    match op
    case CloseAdmission(join) => sh' == sh.(accepting := false) && push == [MarkStopping(join)]
    case MarkStopping(join) =>
      exists order :: Enumerates(order, sh.pendingJobs - sh.attempted)
        && sh' == sh.(stopping := true, noted := sh.noted + (set j | j in order))
        && push == StopSteps(sh, order, join)
    case Spawn(_) => sh' == sh && push == []
    case Discard(jobs) =>
      if sh.queue != [] then sh' == Dequeue(sh) && push == [Discard(jobs)] else sh' == sh && push == []
    case WaitJob(job) => job in sh.closed && sh' == sh && push == []
    case WaitWorker => sh.exited && sh' == sh && push == []
    case WaitIdle => sh.idleClosed && sh' == sh && push == []
    case WaitResolvers => sh' == sh && push == []
    case _ => false
  }

  ghost predicate Exec(sh: Shared, op: Op, sh': Shared, push: seq<Op>) {
    WorkerExec(sh, op, sh', push) || ResolveExec(sh, op, sh', push) || StopExec(sh, op, sh', push)
  }

  // ---------- the whole system ----------

  const WORKER := 0
  const STOPPER := 1

  /** Thread 0 is the worker, thread 1 the holder of the stop lock, the rest are resolvers. */
  datatype System = System(sh: Shared, threads: seq<seq<Op>>)

  function Resolvers(jobs: seq<Job>): seq<seq<Op>> {
    if jobs == [] then [] else [[Note(jobs[0], Stranded)]] + Resolvers(jobs[1..])
  }

  function Spawned(op: Op): seq<seq<Op>> {
    if op.Spawn? then Resolvers(op.jobs) else []
  }

  ghost predicate ResolversDone(threads: seq<seq<Op>>) {
    forall t | 2 <= t < |threads| :: threads[t] == []
  }

  ghost predicate ThreadStepWith(s: System, t: nat, push: seq<Op>, s': System) {
    && t < |s.threads| && s.threads[t] != []
    && var op := s.threads[t][0];
    && Exec(s.sh, op, s'.sh, push)
    && (op.WaitResolvers? ==> ResolversDone(s.threads))
    && s'.threads == s.threads[t := push + s.threads[t][1..]] + Spawned(op)
  }

  /** Producers enqueue, the host starts the worker, begins a drain, or calls a stop. */
  ghost predicate CallStep(s: System, s': System) {
    && |s.threads| >= 2
    && (|| (exists job :: job !in s.sh.accepted && s' == s.(sh := Enqueue(s.sh, job)))
        || (s.sh.accepting && !s.sh.started
            && s' == s.(sh := s.sh.(started := true), threads := s.threads[WORKER := [Select]]))
        || s' == s.(sh := s.sh.(accepting := false))
        || (exists join :: s.threads[STOPPER] == []
              && s' == s.(threads := s.threads[STOPPER := [CloseAdmission(join)]])))
  }

  ghost predicate Step(s: System, s': System) {
    CallStep(s, s') || exists t, push :: ThreadStepWith(s, t, push, s')
  }

  ghost predicate Init(s: System) {
    && s.threads == [[], []]
    && exists capacity: nat :: s.sh == Fresh(capacity)
  }

  function Fresh(capacity: nat): Shared {
    Shared(true, false, false, false, capacity, [], 0, {}, true, {}, {}, {}, {}, {},
           {}, {}, [], multiset{}, {}, multiset{}, false)
  }

  ghost predicate Run(states: seq<System>) {
    && states != [] && Init(states[0])
    && forall i | 0 <= i < |states| - 1 :: Step(states[i], states[i + 1])
  }
}
