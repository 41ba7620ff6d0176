/** Which abandonment hooks a stop still has to run, and who may have run them before it. */
module DispatchHookOrder {
  import opened Coalesce
  import opened Dispatch
  import opened DispatchSafety
  import opened DispatchStop

  /** The stop still has the job's hook on its list. */
  predicate Pledged(ops: seq<Op>, j: Job) {
    Hook(j, None) in ops
  }

  /** The worker noted the job before the stop did, ran its hook, and is about to claim it as invalid. */
  predicate Completing(work: seq<Op>, j: Job) {
    work != [] && (work[0] == CompleteNote(j, Some(Invalid)) || work[0] == Claim(j, Invalid))
  }

  predicate HookStep(op: Op) {
    op.Hook? || op.CompleteNote?
  }

  ghost predicate NoHooks(ops: seq<Op>) {
    forall op | op in ops :: !HookStep(op)
  }

  ghost predicate DistinctHooks(ops: seq<Op>) {
    forall i, k | 0 <= i < k < |ops| && ops[i].Hook? :: ops[i] != ops[k]
  }

  /** What the stop caller's stack keeps; `done` says that no resolver is running. */
  ghost predicate StopSide(sh: Shared, ops: seq<Op>, done: bool) {
    && DistinctHooks(ops)
    && (!sh.stopping ==> done && NoHooks(ops))
    && (!done ==> forall op | op in ops :: !op.Hook?)
    && (sh.stopping ==> forall j | j in sh.pendingJobs && j !in sh.attempted ::
          j in sh.abandoned || Pledged(ops, j) || CompleteNote(j, None) in ops)
  }

  /** What the worker's stack keeps with respect to the hooks the stop has on its list. */
  ghost predicate WorkSide(sh: Shared, work: seq<Op>, ops: seq<Op>) {
    && (!sh.stopping ==> forall j | j in sh.hooked && j !in sh.abandoned ::
          work != [] && work[0] == CompleteNote(j, Some(Invalid)))
    && (forall j | Pledged(ops, j) :: Hook(j, Some(Stranded)) !in work)
    && (forall j | Pledged(ops, j) && j in sh.hooked :: j in sh.resolving || Completing(work, j))
    && (forall j | Pledged(ops, j) && work != [] && work[0] == Recheck(j) :: j !in sh.hooked)
    && (forall i | 0 < i < |work| :: !work[i].Recheck?)
  }

  /** Only a stop makes anyone ask an unattempted job whether it is valid. */
  ghost predicate ChecksLate(s: System) {
    !s.sh.stopping ==> forall t, i | 0 <= t < |s.threads| && 0 <= i < |s.threads[t]| :: !s.threads[t][i].Recheck?
  }

  ghost predicate HookInv(s: System) {
    && FullInv(s) && ChecksLate(s)
    && StopSide(s.sh, s.threads[STOPPER], ResolversDone(s.threads))
    && WorkSide(s.sh, s.threads[WORKER], s.threads[STOPPER])
  }

  // ---------- the worker ----------

  /** Before a message is claimed or resolved, the worker touches no hook. */
  lemma WorkerPlain(a: Shared, op: Op, b: Shared, push: seq<Op>)
    requires WorkerExec(a, op, b, push)
    ensures !HookStep(op) && !op.Claim? && !op.Recheck?
    ensures b.hooked == a.hooked && b.abandoned == a.abandoned && b.resolving == a.resolving && b.noted == a.noted
    ensures b.pendingJobs == a.pendingJobs && b.stopping == a.stopping && (a.stopping ==> b.attempted == a.attempted)
    ensures forall x | x in push :: !x.Recheck? && !x.Hook?
  {
    WorkerFieldsKept(a, op, b, push);
    WorkerPushPlain(a, op, b, push);
  }

  lemma WorkerFieldsKept(a: Shared, op: Op, b: Shared, push: seq<Op>)
    requires WorkerExec(a, op, b, push)
    ensures !HookStep(op) && !op.Claim? && !op.Recheck? && FieldsKept(a, b)
  {
    hide *;
    if Batching(op) {
      BatchFieldsKept(a, op, b, push);
    } else {
      UnbatchedFieldsKept(a, op, b, push);
    }
  }

  ghost predicate FieldsKept(a: Shared, b: Shared) {
    && b.hooked == a.hooked && b.abandoned == a.abandoned && b.resolving == a.resolving && b.noted == a.noted
    && b.pendingJobs == a.pendingJobs && b.stopping == a.stopping && (a.stopping ==> b.attempted == a.attempted)
  }

  lemma BatchFieldsKept(a: Shared, op: Op, b: Shared, push: seq<Op>)
    requires WorkerExec(a, op, b, push) && Batching(op)
    ensures !HookStep(op) && !op.Claim? && !op.Recheck? && FieldsKept(a, b)
  {
    hide ScanNext, ValidStep, GroupsNext, MessagesNext, MarkNext, MarkAttempted;
    if op.Mark? {
      MarkedJobs(a, op.jobs);
    }
  }

  lemma UnbatchedFieldsKept(a: Shared, op: Op, b: Shared, push: seq<Op>)
    requires WorkerExec(a, op, b, push) && !Batching(op)
    ensures !HookStep(op) && !op.Claim? && !op.Recheck? && FieldsKept(a, b)
  {
    hide SelectStep, CollectStep, DrainStep, AbandonStep, Settle;
    if op.Select? || op.Collect? || op.Drain? {
      LoopNarrows(a, op, b, push);
    }
  }

  lemma WorkerPushPlain(a: Shared, op: Op, b: Shared, push: seq<Op>)
    requires WorkerExec(a, op, b, push)
    ensures forall x | x in push :: !x.Recheck? && !x.Hook?
  {
    hide *;
    if Batching(op) {
      BatchPushPlain(a, op, b, push);
    } else {
      UnbatchedPushPlain(a, op, b, push);
    }
  }

  lemma BatchPushPlain(a: Shared, op: Op, b: Shared, push: seq<Op>)
    requires WorkerExec(a, op, b, push) && Batching(op)
    ensures forall x | x in push :: !x.Recheck? && !x.Hook?
  {
    hide Strand, Flatten, MarkAttempted, Resume;
    match op {
      case Scan(todo, kept, cont) => ResumeSilent(kept, cont);
      case Groups(groups) => StrandOps(Flatten(groups));
      case Messages(messages, rest) => StrandOps(Flatten(messages)); StrandOps(Flatten(rest));
      case _ =>
    }
  }

  lemma UnbatchedPushPlain(a: Shared, op: Op, b: Shared, push: seq<Op>)
    requires WorkerExec(a, op, b, push) && !Batching(op)
    ensures forall x | x in push :: !x.Recheck? && !x.Hook?
  {
    hide Strand, Settle, Enumerates;
    match op {
      case Collect(batch) => StrandOps(batch);
      case Send(jobs) =>
        var ok :| b == a.(sends := a.sends + [SendRecord(jobs, ok)]) && push == Settle(jobs, ok);
        SettleOps(jobs, ok);
      case AbandonUnattempted =>
        var order :| Enumerates(order, a.pendingJobs - a.attempted) && push == Strand(order);
        StrandOps(order);
      case _ =>
    }
  }

  lemma PlainWork(a: Shared, op: Op, rest: seq<Op>, b: Shared, push: seq<Op>, ops: seq<Op>)
    requires WorkSide(a, [op] + rest, ops) && WorkerExec(a, op, b, push)
    ensures WorkSide(b, push + rest, ops)
  {
    hide WorkerExec, Pledged;
    WorkerPlain(a, op, b, push);
    UncheckedStack(a, op, rest, push, ops);
    assert ([op] + rest)[0] == op;
    assert forall x | x in push + rest :: x in push || x in [op] + rest;
  }

  lemma UncheckedStack(a: Shared, op: Op, rest: seq<Op>, push: seq<Op>, ops: seq<Op>)
    requires WorkSide(a, [op] + rest, ops) && forall x | x in push :: !x.Recheck?
    ensures forall i | 0 <= i < |push + rest| :: !(push + rest)[i].Recheck?
  {
    var work, after := [op] + rest, push + rest;
    forall i | 0 <= i < |after| ensures !after[i].Recheck? {
      if i < |push| { assert after[i] in push; } else { assert after[i] == work[i - |push| + 1]; }
    }
  }

  /** A resolution step of the worker. */
  lemma ResolveWork(a: Shared, op: Op, rest: seq<Op>, b: Shared, push: seq<Op>, ops: seq<Op>)
    requires WorkSide(a, [op] + rest, ops) && ResolveExec(a, op, b, push) && InClass(WORKER, op)
    requires SharedInv(a) && OkOp(a, op) && OkOps(a, ops)
    ensures WorkSide(b, push + rest, ops)
  {
    hide SharedInv, OkOp, ResolveExec, HookStep, InClass, Completing;
    RecheckOnTop(a, op, rest, b, push, ops);
    HooksBeforeStop(a, op, rest, b, push, ops);
    HooksPledged(a, op, rest, b, push, ops);
    StrandedHooks(a, op, rest, b, push, ops);
  }

  lemma RecheckOnTop(a: Shared, op: Op, rest: seq<Op>, b: Shared, push: seq<Op>, ops: seq<Op>)
    requires WorkSide(a, [op] + rest, ops) && ResolveExec(a, op, b, push)
    ensures forall i | 0 < i < |push + rest| :: !(push + rest)[i].Recheck?
    ensures forall j | Pledged(ops, j) && push + rest != [] && (push + rest)[0] == Recheck(j) :: j !in b.hooked
  {
    hide ResolveExec;
    var work, after := [op] + rest, push + rest;
    PushedRechecks(a, op, b, push);
    assert forall i | 0 <= i < |rest| :: work[i + 1] == rest[i];
    forall i | 0 < i < |after| ensures !after[i].Recheck? {
      if i < |push| { assert after[i] == push[i]; } else { assert after[i] == rest[i - |push|]; }
    }
    forall j | Pledged(ops, j) && after != [] && after[0] == Recheck(j) ensures j !in b.hooked {
      if push != [] {
        assert after[0] == push[0] && work[0] == op;
      }
    }
  }

  /** A check is pushed by a successful claim on behalf of an unattempted job, and stands on top. */
  lemma PushedRechecks(a: Shared, op: Op, b: Shared, push: seq<Op>)
    requires ResolveExec(a, op, b, push)
    ensures forall i | 0 < i < |push| :: !push[i].Recheck?
    ensures push != [] && push[0].Recheck? ==>
      op == Claim(push[0].job, Stranded) && push[0].job !in a.resolving && b.hooked == a.hooked
  {
    hide Notable, FinishResolution;
  }

  lemma HooksBeforeStop(a: Shared, op: Op, rest: seq<Op>, b: Shared, push: seq<Op>, ops: seq<Op>)
    requires WorkSide(a, [op] + rest, ops) && ResolveExec(a, op, b, push) && OkOp(a, op) && InClass(WORKER, op)
    ensures !b.stopping ==> forall j | j in b.hooked && j !in b.abandoned ::
      push + rest != [] && (push + rest)[0] == CompleteNote(j, Some(Invalid))
  {
    hide Notable, Claimable, ClaimSteps, WorkSide;
    assert ([op] + rest)[0] == op;
    if !b.stopping {
      ResolveKind(a, op, b, push);
      UnhookedBefore(a, op, rest, ops);
      if op.Finish? { FinishedHooks(a, op.job); }
      hide FinishResolution;
      if op.Hook? { assert (push + rest)[0] == push[0]; }
    }
  }

  lemma UnhookedBefore(a: Shared, op: Op, rest: seq<Op>, ops: seq<Op>)
    requires WorkSide(a, [op] + rest, ops) && !a.stopping
    ensures forall j | j in a.hooked && j !in a.abandoned :: op == CompleteNote(j, Some(Invalid))
  {
    assert ([op] + rest)[0] == op;
  }

  lemma FinishedHooks(a: Shared, job: Job)
    ensures var b := FinishResolution(a, job);
      b.hooked == a.hooked && b.abandoned == a.abandoned && b.resolving == a.resolving && b.noted == a.noted
      && b.stopping == a.stopping && b.attempted == a.attempted && b.pendingJobs <= a.pendingJobs
  {
  }

  lemma HooksPledged(a: Shared, op: Op, rest: seq<Op>, b: Shared, push: seq<Op>, ops: seq<Op>)
    requires WorkSide(a, [op] + rest, ops) && ResolveExec(a, op, b, push) && OkOp(a, op) && InClass(WORKER, op)
      && SharedInv(a)
    ensures forall j | Pledged(ops, j) && j in b.hooked :: j in b.resolving || Completing(push + rest, j)
  {
    var work, after := [op] + rest, push + rest;
    assert work[0] == op && op in work;
    forall j | Pledged(ops, j) && j in b.hooked ensures j in b.resolving || Completing(after, j) {
      PledgedStep(a, op, b, push, j);
      assert j in a.hooked ==> j in a.resolving || Completing(work, j);
      hide WorkSide, SharedInv, OkOp, ResolveExec;
      if push != [] { assert after[0] == push[0]; }
    }
  }

  /** How one step carries a hooked job on to its claim. */
  lemma PledgedStep(a: Shared, op: Op, b: Shared, push: seq<Op>, j: Job)
    requires ResolveExec(a, op, b, push) && OkOp(a, op) && InClass(WORKER, op) && SharedInv(a)
    ensures j in a.resolving ==> j in b.resolving
    ensures j in b.hooked && j !in a.hooked ==> op.Hook? && op.job == j
    ensures op.Hook? && op.job == j && op != Hook(j, Some(Stranded)) ==> push == [CompleteNote(j, Some(Invalid))]
    ensures op == CompleteNote(j, Some(Invalid)) ==> push == [Claim(j, Invalid)]
    ensures op == Claim(j, Invalid) ==> j in b.resolving
  {
    hide Notable, ClaimSteps, FinishResolution;
    if op.Finish? { FinishedHooks(a, op.job); }
  }

  lemma StrandedHooks(a: Shared, op: Op, rest: seq<Op>, b: Shared, push: seq<Op>, ops: seq<Op>)
    requires WorkSide(a, [op] + rest, ops) && ResolveExec(a, op, b, push)
    requires forall j | Pledged(ops, j) :: OkOp(a, Hook(j, None))
    ensures forall j | Pledged(ops, j) :: Hook(j, Some(Stranded)) !in push + rest
  {
    forall j | Pledged(ops, j) ensures Hook(j, Some(Stranded)) !in push + rest {
      assert Hook(j, Some(Stranded)) !in [op] + rest;
      assert OkOp(a, Hook(j, None));
      NotedOnce(a, op, b, push, j);
    }
  }

  lemma NotedOnce(a: Shared, op: Op, b: Shared, push: seq<Op>, j: Job)
    requires ResolveExec(a, op, b, push) && j in a.noted
    ensures Hook(j, Some(Stranded)) !in push
  {
    hide Claimable, FinishResolution;
  }

  /** What the worker does leaves the stop's side as it is. */
  lemma StopSideKept(a: Shared, b: Shared, ops: seq<Op>, done: bool)
    requires StopSide(a, ops, done) && b.stopping == a.stopping && b.pendingJobs <= a.pendingJobs
    requires a.abandoned <= b.abandoned && a.attempted <= b.attempted
    ensures StopSide(b, ops, done)
  {
    hide Pledged, NoHooks, DistinctHooks;
  }

  // ---------- the stop caller ----------

  ghost predicate Unhooking(ops: seq<Op>) {
    forall op | op in ops :: !op.Hook?
  }

  /** Without hooks on the list the worker's side says nothing about it. */
  lemma NothingPledged(a: Shared, b: Shared, work: seq<Op>, ops: seq<Op>, after: seq<Op>)
    requires WorkSide(a, work, ops) && Unhooking(after) && (b.stopping || b == a)
    ensures WorkSide(b, work, after)
  {
  }

  lemma DistinctAppend(hooks: seq<Op>, tail: seq<Op>)
    requires DistinctHooks(hooks) && Unhooking(tail)
    ensures DistinctHooks(hooks + tail)
  {
    var ops := hooks + tail;
    forall i, k | 0 <= i < k < |ops| && ops[i].Hook? ensures ops[i] != ops[k] {
      if k >= |hooks| { assert ops[k] in tail; }
      if i >= |hooks| { assert ops[i] in tail; }
    }
  }

  lemma {:induction false} HooksDistinct(jobs: seq<Job>)
    requires forall i, k | 0 <= i < k < |jobs| :: jobs[i] != jobs[k]
    ensures DistinctHooks(Hooks(jobs)) && |Hooks(jobs)| == |jobs|
    ensures forall i | 0 <= i < |jobs| :: Hooks(jobs)[i] == Hook(jobs[i], None)
  {
    if jobs != [] {
      HooksDistinct(jobs[1..]);
    }
  }

  lemma {:induction false} WithoutDistinct(order: seq<Job>, jobs: set<Job>)
    requires forall i, k | 0 <= i < k < |order| :: order[i] != order[k]
    ensures forall i, k | 0 <= i < k < |Without(order, jobs)| :: Without(order, jobs)[i] != Without(order, jobs)[k]
  {
    if order != [] {
      WithoutDistinct(order[1..], jobs);
      WithoutKeeps(order[1..], jobs);
      forall j | j in order[1..] ensures j != order[0] {
        var i :| 0 <= i < |order[1..]| && order[1..][i] == j;
        assert order[i + 1] == j;
      }
    }
  }

  lemma EnumeratedOnce(order: seq<Job>, jobs: set<Job>)
    requires Enumerates(order, jobs)
    ensures forall i, k | 0 <= i < k < |order| :: order[i] != order[k]
  {
    forall i, k | 0 <= i < k < |order| ensures order[i] != order[k] {
      CountedTwice(order, i, k);
      assert multiset(jobs)[order[i]] <= 1;
    }
  }

  lemma CountedTwice(order: seq<Job>, i: nat, k: nat)
    requires i < k < |order|
    ensures order[i] == order[k] ==> multiset(order)[order[i]] >= 2
  {
    assert order == order[..k] + order[k..];
    assert order[..k][i] == order[i] && order[k..][0] == order[k];
    assert order[i] in multiset(order[..k]) && order[k] in multiset(order[k..]);
  }

  function Rest(sh: Shared, order: seq<Job>, join: bool): seq<Op> {
    [Spawn(order), Discard(order)]
    + (if join then Waits(order) + (if sh.started then [WaitWorker] else []) + [WaitIdle, WaitResolvers] else [])
  }

  lemma RestOps(sh: Shared, order: seq<Job>, join: bool)
    ensures NoHooks(Rest(sh, order, join)) && Unhooking(Rest(sh, order, join))
  {
    hide Waits;
    WaitsOps(order);
  }

  lemma SnapshotShape(sh: Shared, order: seq<Job>, join: bool)
    ensures StopSteps(sh, order, join) == Hooks(Without(order, sh.abandoned)) + Rest(sh, order, join)
  {
    hide Hooks, Without, Waits;
  }

  /** The list of steps a snapshot makes: distinct hooks, then steps without hooks. */
  lemma SnapshotHooks(sh: Shared, order: seq<Job>, join: bool)
    requires Enumerates(order, sh.pendingJobs - sh.attempted)
    ensures DistinctHooks(StopSteps(sh, order, join))
    ensures forall op | op in StopSteps(sh, order, join) :: HookStep(op) ==>
      op.Hook? && op.next.None? && op.job in order && op.job !in sh.abandoned
    ensures forall j | j in order && j !in sh.abandoned :: Pledged(StopSteps(sh, order, join), j)
  {
    hide *;
    var left, rest := Without(order, sh.abandoned), Rest(sh, order, join);
    EnumeratedOnce(order, sh.pendingJobs - sh.attempted);
    WithoutDistinct(order, sh.abandoned);
    WithoutKeeps(order, sh.abandoned);
    HooksDistinct(left);
    RestOps(sh, order, join);
    SnapshotShape(sh, order, join);
    DistinctAppend(Hooks(left), rest);
    SnapshotMembersOf(order, sh.abandoned, left, rest);
  }

  lemma SnapshotMembersOf(order: seq<Job>, abandoned: set<Job>, left: seq<Job>, rest: seq<Op>)
    requires (forall j :: j in left <==> j in order && j !in abandoned) && NoHooks(rest)
    ensures forall op | op in Hooks(left) + rest :: HookStep(op) ==>
      op.Hook? && op.next.None? && op.job in order && op.job !in abandoned
    ensures forall j | j in order && j !in abandoned :: Pledged(Hooks(left) + rest, j)
  {
    hide Hooks;
    HooksOps(left);
  }

  lemma SnapshotSide(a: Shared, order: seq<Job>, join: bool, ops: seq<Op>, done: bool, b: Shared)
    requires StopSide(a, ops, done) && ops == [MarkStopping(join)]
    requires Enumerates(order, a.pendingJobs - a.attempted)
    requires b == a.(stopping := true, noted := a.noted + (set j | j in order))
    ensures StopSide(b, StopSteps(a, order, join), done)
  {
    hide StopSteps, Enumerates, DistinctHooks;
    SnapshotHooks(a, order, join);
    EnumeratedJobs(order, a.pendingJobs - a.attempted);
    var push := StopSteps(a, order, join);
    if a.stopping {
      forall j | j in order ensures j in a.abandoned {
        assert !Pledged(ops, j) && CompleteNote(j, None) !in ops;
      }
    }
  }

  lemma SnapshotWork(a: Shared, order: seq<Job>, join: bool, ops: seq<Op>, done: bool, work: seq<Op>, b: Shared)
    requires StopSide(a, ops, done) && ops == [MarkStopping(join)] && WorkSide(a, work, ops) && OkOps(a, work)
    requires Enumerates(order, a.pendingJobs - a.attempted) && (!a.stopping ==> forall op | op in work :: !op.Recheck?)
    requires b == a.(stopping := true, noted := a.noted + (set j | j in order))
    ensures WorkSide(b, work, StopSteps(a, order, join))
  {
    hide StopSteps, Enumerates, DistinctHooks;
    SnapshotHooks(a, order, join);
    EnumeratedJobs(order, a.pendingJobs - a.attempted);
    var push := StopSteps(a, order, join);
    if a.stopping {
      forall j ensures !Pledged(push, j) {
        assert !Pledged(ops, j) && CompleteNote(j, None) !in ops;
      }
    } else {
      assert forall j | Hook(j, Some(Stranded)) in work :: OkOp(a, Hook(j, Some(Stranded)));
      assert work != [] ==> work[0] in work;
    }
  }

  lemma TailDistinct(op: Op, rest: seq<Op>)
    requires DistinctHooks([op] + rest)
    ensures DistinctHooks(rest) && (op.Hook? ==> op !in rest)
  {
    var ops := [op] + rest;
    forall i, k | 0 <= i < k < |rest| && rest[i].Hook? ensures rest[i] != rest[k] {
      assert ops[i + 1] == rest[i] && ops[k + 1] == rest[k];
    }
    forall k | 0 <= k < |rest| && op.Hook? ensures rest[k] != op {
      assert ops[0] == op && ops[k + 1] == rest[k];
    }
  }

  lemma ConsDistinct(op: Op, rest: seq<Op>)
    requires DistinctHooks(rest) && !op.Hook?
    ensures DistinctHooks([op] + rest)
  {
    var ops := [op] + rest;
    forall i, k | 0 <= i < k < |ops| && ops[i].Hook? ensures ops[i] != ops[k] {
      assert ops[i] == rest[i - 1] && ops[k] == rest[k - 1];
    }
  }

  /** The other steps of a stop, by what they leave of its list. */
  lemma HookRunSide(a: Shared, j: Job, rest: seq<Op>, done: bool)
    requires StopSide(a, [Hook(j, None)] + rest, done)
    ensures StopSide(a.(hooked := a.hooked + {j}), [CompleteNote(j, None)] + rest, done)
    ensures !Pledged([CompleteNote(j, None)] + rest, j)
    ensures forall i | Pledged([CompleteNote(j, None)] + rest, i) :: Pledged([Hook(j, None)] + rest, i)
  {
    hide DistinctHooks;
    var ops, after := [Hook(j, None)] + rest, [CompleteNote(j, None)] + rest;
    TailDistinct(Hook(j, None), rest);
    ConsDistinct(CompleteNote(j, None), rest);
    assert forall op :: op in after <==> op == CompleteNote(j, None) || op in rest;
    assert forall op :: op in ops <==> op == Hook(j, None) || op in rest;
  }

  lemma HookRunWork(a: Shared, j: Job, rest: seq<Op>, work: seq<Op>)
    requires WorkSide(a, work, [Hook(j, None)] + rest) && a.stopping
    requires !Pledged([CompleteNote(j, None)] + rest, j)
    requires forall i | Pledged([CompleteNote(j, None)] + rest, i) :: Pledged([Hook(j, None)] + rest, i)
    ensures WorkSide(a.(hooked := a.hooked + {j}), work, [CompleteNote(j, None)] + rest)
  {
    hide Pledged;
  }

  lemma PopSide(a: Shared, op: Op, rest: seq<Op>, done: bool, b: Shared)
    requires StopSide(a, [op] + rest, done) && !op.Hook? && b.stopping == a.stopping
    requires b.pendingJobs == a.pendingJobs && b.attempted == a.attempted
    requires b.abandoned == if op.CompleteNote? then a.abandoned + {op.job} else a.abandoned
    ensures StopSide(b, rest, done)
    ensures forall i | Pledged(rest, i) :: Pledged([op] + rest, i)
  {
    hide DistinctHooks;
    TailDistinct(op, rest);
    assert forall x :: x in [op] + rest <==> x == op || x in rest;
  }

  lemma PopWork(a: Shared, op: Op, rest: seq<Op>, work: seq<Op>, b: Shared)
    requires WorkSide(a, work, [op] + rest) && forall i | Pledged(rest, i) :: Pledged([op] + rest, i)
    requires b.hooked == a.hooked && b.resolving == a.resolving && a.abandoned <= b.abandoned
      && b.stopping == a.stopping
    ensures WorkSide(b, work, rest)
  {
    hide Pledged;
  }

  /** Past the hooks, nothing on the list is one. */
  lemma PastHooks(sh: Shared, ops: seq<Op>)
    requires StopOrder(sh, ops) && ops != [] && Rank(ops[0]) >= 1
    ensures NoHooks(ops)
  {
    forall op | op in ops ensures !HookStep(op) {
      var i :| 0 <= i < |ops| && ops[i] == op;
      assert i > 0 ==> Rank(ops[0]) <= Rank(ops[i]);
    }
  }

  lemma PastSide(a: Shared, op: Op, rest: seq<Op>, done: bool, b: Shared, push: seq<Op>, after: bool)
    requires StopSide(a, [op] + rest, done) && NoHooks([op] + rest) && a.stopping
    requires push == [] || push == [op]
    requires b.stopping && b.pendingJobs == a.pendingJobs && b.attempted == a.attempted && b.abandoned == a.abandoned
    ensures StopSide(b, push + rest, after) && Unhooking(push + rest)
  {
    var ops, left := [op] + rest, push + rest;
    assert forall x | x in left :: x in ops;
    forall i, k | 0 <= i < k < |left| && left[i].Hook? ensures left[i] != left[k] {
      assert left[i] in left;
    }
    forall j | j in b.pendingJobs && j !in b.attempted ensures j in b.abandoned {
      assert !Pledged(ops, j) && CompleteNote(j, None) !in ops;
    }
  }

  lemma StopFields(a: Shared, op: Op, b: Shared, push: seq<Op>)
    requires Exec(a, op, b, push) && StopOp(op) && Rank(op) >= 1
    ensures b.stopping == a.stopping && b.pendingJobs == a.pendingJobs && b.attempted == a.attempted
    ensures b.abandoned == a.abandoned && b.hooked == a.hooked && b.resolving == a.resolving
    ensures push == [] || push == [op]
  {
    hide WorkerExec, ResolveExec, StopExec;
    if WorkerExec(a, op, b, push) {
      WorkerKind(a, op, b, push);
    } else if ResolveExec(a, op, b, push) {
      ResolveKind(a, op, b, push);
    } else {
      StopFieldsExec(a, op, b, push);
    }
  }

  lemma StopFieldsExec(a: Shared, op: Op, b: Shared, push: seq<Op>)
    requires StopExec(a, op, b, push) && Rank(op) >= 1
    ensures b.stopping == a.stopping && b.pendingJobs == a.pendingJobs && b.attempted == a.attempted
    ensures b.abandoned == a.abandoned && b.hooked == a.hooked && b.resolving == a.resolving
    ensures push == [] || push == [op]
  {
  }

  lemma StopHookExec(a: Shared, op: Op, b: Shared, push: seq<Op>)
    requires Exec(a, op, b, push) && StopOp(op) && HookStep(op)
    ensures op.next.None?
    ensures if op.Hook? then b == a.(hooked := a.hooked + {op.job}) && push == [CompleteNote(op.job, None)]
            else b == a.(abandoned := a.abandoned + {op.job}) && push == []
  {
    hide StopExec, StopSteps, SelectStep, CollectStep, DrainStep, ScanNext, ValidStep, GroupsNext, MessagesNext,
      MarkNext, AbandonStep;
    if StopExec(a, op, b, push) {
      StopKind(a, op, b, push);
    }
  }

  lemma StopStartExec(a: Shared, op: Op, b: Shared, push: seq<Op>)
    requires Exec(a, op, b, push) && (op.CloseAdmission? || op.MarkStopping?)
    ensures StopExec(a, op, b, push)
  {
    hide StopExec, SelectStep, CollectStep, DrainStep, ScanNext, ValidStep, GroupsNext, MessagesNext, MarkNext,
      AbandonStep;
  }

  /** Both sides after a step of the stop caller; `after` is whether resolvers run then. */
  lemma StopperHooks(a: Shared, op: Op, rest: seq<Op>, done: bool, b: Shared, push: seq<Op>, after: bool, work: seq<Op>)
    requires Exec(a, op, b, push) && StopOp(op) && StopOrder(a, [op] + rest)
    requires StopSide(a, [op] + rest, done) && WorkSide(a, work, [op] + rest) && OkOps(a, work)
    requires (!a.stopping ==> forall x | x in work :: !x.Recheck?) && (!op.Spawn? ==> after == done)
    ensures StopSide(b, push + rest, after) && WorkSide(b, work, push + rest)
  {
    var ops := [op] + rest;
    assert ops[0] == op;
    if Rank(op) >= 1 {
      PastHooks(a, ops);
      StopFields(a, op, b, push);
      assert a.stopping;
      hide Exec, StopSide, WorkSide, NoHooks, StopOrder, Unhooking;
      PastSide(a, op, rest, done, b, push, after);
      PastWork(a, b, work, ops, push + rest);
    } else if HookStep(op) {
      StopHookExec(a, op, b, push);
      assert a.stopping;
      hide Exec, StopSide, WorkSide, StopOrder;
      if op.Hook? {
        HookRunSide(a, op.job, rest, done);
        HookRunWork(a, op.job, rest, work);
      } else {
        assert push + rest == rest;
        PopSide(a, op, rest, done, b);
        PopWork(a, op, rest, work, b);
      }
    } else {
      assert ops == [op] && rest == [];
      assert push + rest == push;
      StopStartExec(a, op, b, push);
      StartHooks(a, op, done, b, push, work);
    }
  }

  lemma PastWork(a: Shared, b: Shared, work: seq<Op>, ops: seq<Op>, after: seq<Op>)
    requires WorkSide(a, work, ops) && Unhooking(after) && a.stopping && b.stopping
    ensures WorkSide(b, work, after)
  {
    NothingPledged(a, b, work, ops, after);
  }

  lemma StartHooks(a: Shared, op: Op, done: bool, b: Shared, push: seq<Op>, work: seq<Op>)
    requires StopExec(a, op, b, push) && (op.CloseAdmission? || op.MarkStopping?)
    requires StopSide(a, [op], done) && WorkSide(a, work, [op]) && OkOps(a, work)
    requires !a.stopping ==> forall x | x in work :: !x.Recheck?
    ensures StopSide(b, push, done) && WorkSide(b, work, push)
  {
    hide StopSteps, OkOps;
    if op.MarkStopping? {
      var order :| Enumerates(order, a.pendingJobs - a.attempted)
        && b == a.(stopping := true, noted := a.noted + (set j | j in order)) && push == StopSteps(a, order, op.join);
      SnapshotSide(a, order, op.join, [op], done, b);
      SnapshotWork(a, order, op.join, [op], done, work, b);
    } else {
      CloseHooks(a, op, done, work);
    }
  }

  lemma CloseHooks(a: Shared, op: Op, done: bool, work: seq<Op>)
    requires op.CloseAdmission? && StopSide(a, [op], done) && WorkSide(a, work, [op])
    ensures var b := a.(accepting := false);
      StopSide(b, [MarkStopping(op.join)], done) && WorkSide(b, work, [MarkStopping(op.join)])
  {
    forall j | j in a.pendingJobs && j !in a.attempted && a.stopping ensures j in a.abandoned {
      assert !Pledged([op], j) && CompleteNote(j, None) !in [op];
    }
    assert forall j :: !Pledged([MarkStopping(op.join)], j);
  }

  // ---------- every step ----------

  /** Nobody pushes a check before a stop. */
  lemma PushesNoCheck(a: Shared, op: Op, b: Shared, push: seq<Op>)
    requires Exec(a, op, b, push) && OkOp(a, op) && !a.stopping
    ensures forall x | x in push :: !x.Recheck?
  {
    hide WorkerExec, ResolveExec, StopExec;
    if WorkerExec(a, op, b, push) {
      WorkerPushPlain(a, op, b, push);
    } else if ResolveExec(a, op, b, push) {
      PushedRechecks(a, op, b, push);
    } else {
      StopPushesNoCheck(a, op, b, push);
    }
  }

  lemma StopPushesNoCheck(a: Shared, op: Op, b: Shared, push: seq<Op>)
    requires StopExec(a, op, b, push)
    ensures forall x | x in push :: !x.Recheck?
  {
    if op.MarkStopping? {
      hide StopSteps;
      var order :| Enumerates(order, a.pendingJobs - a.attempted)
        && b == a.(stopping := true, noted := a.noted + (set j | j in order)) && push == StopSteps(a, order, op.join);
      StopStepsOps(a, order, op.join);
    }
  }

  lemma ChecksLateStep(s: System, t: nat, push: seq<Op>, s': System)
    requires FullInv(s) && ChecksLate(s) && ThreadStepWith(s, t, push, s')
    ensures ChecksLate(s')
  {
    TopFacts(s, t, push, s');
    var op := s.threads[t][0];
    Placed(s, t, push, s');
    assert !s.sh.stopping ==> Spawned(op) == [];
    hide FullInv, Exec, Spawned, ThreadStepWith, OkOp;
    if !s'.sh.stopping {
      PushesNoCheck(s.sh, op, s'.sh, push);
      forall u, i | 0 <= u < |s'.threads| && 0 <= i < |s'.threads[u]| ensures !s'.threads[u][i].Recheck? {
        if u == t {
          if i < |push| { assert s'.threads[u][i] in push; }
          else { assert s'.threads[u][i] == s.threads[t][i - |push| + 1]; }
        } else {
          assert s'.threads[u] == s.threads[u];
        }
      }
    }
  }

  /** What is known about the step on top of a stack. */
  lemma TopFacts(s: System, t: nat, push: seq<Op>, s': System)
    requires FullInv(s) && ThreadStepWith(s, t, push, s')
    ensures |s.threads| >= 2 && t < |s.threads| && s.threads[t] != []
    ensures var op := s.threads[t][0];
      Exec(s.sh, op, s'.sh, push) && OkOp(s.sh, op) && InClass(t, op) && SharedInv(s.sh)
    ensures OkOps(s.sh, s.threads[WORKER]) && OkOps(s.sh, s.threads[STOPPER]) && StopOrder(s.sh, s.threads[STOPPER])
    ensures s'.sh.stopping || !s.sh.stopping
  {
    hide Exec, SharedInv, Duty, Pooled, Claimed, LoopInv, Total, OkOp;
    ThreadStepExec(s, t, push, s');
    ThreadStepInv(s, t, push, s');
    assert OkOps(s.sh, s.threads[t]) && s.threads[t][0] in s.threads[t];
  }

  lemma WorkerTurn(s: System, push: seq<Op>, s': System)
    requires HookInv(s) && ThreadStepWith(s, WORKER, push, s')
    ensures StopSide(s'.sh, s'.threads[STOPPER], ResolversDone(s'.threads))
    ensures WorkSide(s'.sh, s'.threads[WORKER], s'.threads[STOPPER])
  {
    hide FullInv, Exec, WorkerExec, ResolveExec, StopSide, WorkSide, SharedInv, OkOp, OkOps, InClass, ThreadStepWith,
      StopOrder;
    TopFacts(s, WORKER, push, s');
    Placed(s, WORKER, push, s');
    var op, rest, ops := s.threads[WORKER][0], s.threads[WORKER][1..], s.threads[STOPPER];
    assert s.threads[WORKER] == [op] + rest;
    WorkerSpawnsNone(s, push, s');
    WorkerSides(s.sh, op, s'.sh, push);
    if WorkerExec(s.sh, op, s'.sh, push) {
      WorkerPlain(s.sh, op, s'.sh, push);
      WorkerKind(s.sh, op, s'.sh, push);
      WorkerFields(s.sh, op, s'.sh, push);
      PlainWork(s.sh, op, rest, s'.sh, push, ops);
    } else {
      ResolveKind(s.sh, op, s'.sh, push);
      ResolveWork(s.sh, op, rest, s'.sh, push, ops);
    }
    GrowsAside(s, WORKER, push, s');
    StopSideKept(s.sh, s'.sh, ops, ResolversDone(s.threads));
  }

  lemma WorkerSides(a: Shared, op: Op, b: Shared, push: seq<Op>)
    requires Exec(a, op, b, push) && InClass(WORKER, op)
    ensures WorkerExec(a, op, b, push) || ResolveExec(a, op, b, push)
  {
    hide WorkerExec, ResolveExec, StopSteps;
  }

  lemma GrowsAside(s: System, t: nat, push: seq<Op>, s': System)
    requires FullInv(s) && ThreadStepWith(s, t, push, s')
    ensures s.sh.abandoned <= s'.sh.abandoned && s.sh.attempted <= s'.sh.attempted
    ensures s'.sh.pendingJobs <= s.sh.pendingJobs
  {
    hide Inv, Exec;
    ThreadStepInv(s, t, push, s');
    ThreadStepExec(s, t, push, s');
    ExecNarrows(s.sh, s.threads[t][0], s'.sh, push);
  }

  lemma WorkerSpawnsNone(s: System, push: seq<Op>, s': System)
    requires FullInv(s) && ThreadStepWith(s, WORKER, push, s')
    ensures ResolversDone(s'.threads) <==> ResolversDone(s.threads)
    ensures s'.threads[STOPPER] == s.threads[STOPPER]
  {
    hide FullInv, Exec, ThreadStepWith;
    TopFacts(s, WORKER, push, s');
    Placed(s, WORKER, push, s');
    assert Spawned(s.threads[WORKER][0]) == [];
    assert forall t | 2 <= t < |s.threads| :: s'.threads[t] == s.threads[t];
  }

  lemma StopperTurn(s: System, push: seq<Op>, s': System)
    requires HookInv(s) && ThreadStepWith(s, STOPPER, push, s')
    ensures StopSide(s'.sh, s'.threads[STOPPER], ResolversDone(s'.threads))
    ensures WorkSide(s'.sh, s'.threads[WORKER], s'.threads[STOPPER])
  {
    TopFacts(s, STOPPER, push, s');
    Placed(s, STOPPER, push, s');
    var op, rest := s.threads[STOPPER][0], s.threads[STOPPER][1..];
    assert s.threads[STOPPER] == [op] + rest;
    assert !s.sh.stopping ==> forall x | x in s.threads[WORKER] :: !x.Recheck?;
    assert !op.Spawn? ==> Spawned(op) == [];
    hide FullInv, Exec, StopSide, WorkSide, SharedInv, OkOp, OkOps, ThreadStepWith, StopOrder, Spawned;
    if !op.Spawn? {
      assert forall t | 2 <= t < |s.threads| :: s'.threads[t] == s.threads[t];
    }
    StopperHooks(s.sh, op, rest, ResolversDone(s.threads), s'.sh, push, ResolversDone(s'.threads), s.threads[WORKER]);
  }

  lemma ResolverTurn(s: System, t: nat, push: seq<Op>, s': System)
    requires HookInv(s) && t >= 2 && ThreadStepWith(s, t, push, s')
    ensures StopSide(s'.sh, s'.threads[STOPPER], ResolversDone(s'.threads))
    ensures WorkSide(s'.sh, s'.threads[WORKER], s'.threads[STOPPER])
  {
    TopFacts(s, t, push, s');
    Placed(s, t, push, s');
    GrowsAside(s, t, push, s');
    assert !ResolversDone(s.threads);
    assert s.sh.stopping && Unhooking(s.threads[STOPPER]);
    hide FullInv, Exec, ThreadStepWith, Pledged, ResolversDone, OkOp, OkOps, StopOrder, SharedInv;
    NothingPledged(s.sh, s'.sh, s.threads[WORKER], s.threads[STOPPER], s.threads[STOPPER]);
  }

  lemma ThreadStepHooks(s: System, t: nat, push: seq<Op>, s': System)
    requires HookInv(s) && ThreadStepWith(s, t, push, s')
    ensures HookInv(s')
  {
    hide FullInv, ChecksLate, StopSide, WorkSide, ThreadStepWith;
    ThreadStepFull(s, t, push, s');
    ChecksLateStep(s, t, push, s');
    if t == WORKER { WorkerTurn(s, push, s'); } else if t == STOPPER { StopperTurn(s, push, s'); }
    else { ResolverTurn(s, t, push, s'); }
  }

  // -- calls --

  lemma SameSides(s: System, s': System)
    requires HookInv(s) && FullInv(s') && s'.threads == s.threads && s'.sh.stopping == s.sh.stopping
    requires s'.sh.hooked == s.sh.hooked && s'.sh.abandoned == s.sh.abandoned && s'.sh.resolving == s.sh.resolving
    requires s'.sh.attempted == s.sh.attempted && (s.sh.stopping ==> s'.sh.pendingJobs == s.sh.pendingJobs)
    ensures HookInv(s')
  {
    hide FullInv, Pledged, NoHooks, DistinctHooks, ResolversDone;
  }

  lemma EnqueueHooks(s: System, job: Job, s': System)
    requires HookInv(s) && FullInv(s') && s' == s.(sh := Enqueue(s.sh, job))
    ensures HookInv(s')
  {
    assert s.sh.stopping ==> !s.sh.accepting;
    hide FullInv, StopSide, WorkSide, ChecksLate;
    SameSides(s, s');
  }

  lemma StartHooksCall(s: System, s': System)
    requires HookInv(s) && FullInv(s') && s.sh.accepting && !s.sh.started
    requires s' == s.(sh := s.sh.(started := true), threads := s.threads[WORKER := [Select]])
    ensures HookInv(s')
  {
    assert s.threads[WORKER] == [] && !s.sh.stopping;
    assert forall t | 2 <= t < |s.threads| :: s'.threads[t] == s.threads[t];
    hide FullInv;
    forall t, i | 0 <= t < |s'.threads| && 0 <= i < |s'.threads[t]| ensures !s'.threads[t][i].Recheck? {
      if t != WORKER { assert s'.threads[t] == s.threads[t]; }
    }
  }

  lemma StopCallHooks(s: System, join: bool, s': System)
    requires HookInv(s) && FullInv(s') && s.threads[STOPPER] == []
    requires s' == s.(threads := s.threads[STOPPER := [CloseAdmission(join)]])
    ensures HookInv(s')
  {
    assert forall t | 2 <= t < |s.threads| :: s'.threads[t] == s.threads[t];
    assert forall j :: !Pledged([CloseAdmission(join)], j) && !Pledged([], j);
    hide FullInv;
    forall t, i | !s.sh.stopping && 0 <= t < |s'.threads| && 0 <= i < |s'.threads[t]|
      ensures !s'.threads[t][i].Recheck?
    {
      if t != STOPPER { assert s'.threads[t] == s.threads[t]; }
    }
  }

  lemma CallStepHooks(s: System, s': System)
    requires HookInv(s) && CallStep(s, s')
    ensures HookInv(s')
  {
    CallStepFull(s, s');
    hide HookInv, FullInv, Enqueue;
    if job :| job !in s.sh.accepted && s' == s.(sh := Enqueue(s.sh, job)) {
      EnqueueHooks(s, job, s');
    } else if s' == s.(sh := s.sh.(accepting := false)) {
      DrainHooks(s, s');
    } else if join :| s.threads[STOPPER] == [] && s' == s.(threads := s.threads[STOPPER := [CloseAdmission(join)]]) {
      StopCallHooks(s, join, s');
    } else {
      StartHooksCall(s, s');
    }
  }

  lemma DrainHooks(s: System, s': System)
    requires HookInv(s) && FullInv(s') && s' == s.(sh := s.sh.(accepting := false))
    ensures HookInv(s')
  {
    hide FullInv, StopSide, WorkSide, ChecksLate;
    SameSides(s, s');
  }

  lemma InitHooks(s: System)
    requires Init(s)
    ensures HookInv(s)
  {
    hide FullInv;
    InitFull(s);
  }

  lemma {:induction false} RunHooks(states: seq<System>, k: nat)
    requires Run(states) && k < |states|
    ensures HookInv(states[k])
  {
    hide HookInv, ThreadStepWith, CallStep;
    if k == 0 {
      InitHooks(states[0]);
    } else {
      RunHooks(states, k - 1);
      var s, s' := states[k - 1], states[k];
      assert Step(s, s');
      if t, push :| ThreadStepWith(s, t, push, s') {
        ThreadStepHooks(s, t, push, s');
      } else {
        CallStepHooks(s, s');
      }
    }
  }
}
