/** Usage notices through the dispatcher: the latches of one account, composed with every run of the
    delivery protocol. */
module QuotaRuns {
  import opened Coalesce
  import opened Dispatch
  import opened DispatchSafety
  import opened DispatchStop
  import opened Health
  import opened Quotas
  import A = Accounts
  import I = Incident

  /** The dispatcher and the usage latches of one account that stays current throughout. */
  datatype World = World(s: System, q: A.Quota)

  /** What a step of the composition is: a usage poll, or a step of the dispatcher. */
  datatype Event = Poll(u: Usage, now: Time, admit: bool) | Other

  /** What the closures of the account's usage jobs captured; all other jobs are not in the map. */
  type Slips = map<Job, Slip>

  // ---------- the composition ----------

  ghost predicate Hears(q: A.Quota, slip: Slip, accepted: bool, stopping: bool, q': A.Quota) {
    // a monitor retires only after its dispatcher has begun to stop; its callbacks then do nothing
    || (stopping && q' == q)
    || (!accepted && q' == q)
    || (accepted && exists at :: at != 0 && q' == Settled(q, slip, I.Accepted(at)))
  }

  /** What a dispatcher step means for the latches, and what the latches mean for it. */
  ghost predicate Effect(slips: Slips, sh: Shared, q: A.Quota, op: Op, push: seq<Op>, q': A.Quota) {
    match op
    case CallValid(job, todo, kept, cont) =>
      q' == q && (job in slips ==> (push == [Scan(todo, kept + [job], cont)] <==> StillWanted(q, slips[job])))
    case Recheck(job) =>
      q' == q && (job in slips ==> (push != [] <==> StillWanted(q, slips[job])))
    case Report(job, outcome) =>
      if job !in slips then q' == q
      else if outcome.Unattempted? then (sh.stopping && q' == q) || q' == Settled(q, slips[job], I.Unattempted)
      else Hears(q, slips[job], outcome.accepted, sh.stopping, q')
    case _ => q' == q
  }

  ghost predicate Acts(slips: Slips, w: World, t: nat, push: seq<Op>, w': World) {
    ThreadStepWith(w.s, t, push, w'.s) && Effect(slips, w.s.sh, w.q, w.s.threads[t][0], push, w'.q)
  }

  /** A poll queues at most one job, which is the only way the account's usage jobs come about. */
  ghost predicate Polls(slips: Slips, limits: Limits, w: World, e: Event, w': World)
    requires e.Poll?
  {
    var p := Apply(w.q, e.u, e.now, limits, e.admit);
    && w'.q == p.quota
    && if p.queued == {} then w'.s == w.s
       else exists job :: job in slips && p.queued == {slips[job]} && job !in w.s.sh.accepted
                       && w'.s == w.s.(sh := Enqueue(w.s.sh, job))
  }

  ghost predicate Calls(slips: Slips, w: World, w': World) {
    CallStep(w.s, w'.s) && w'.q == w.q && forall job | job in slips && job in w'.s.sh.accepted :: job in w.s.sh.accepted
  }

  ghost predicate Next(slips: Slips, limits: Limits, w: World, e: Event, w': World) {
    if e.Poll? then Polls(slips, limits, w, e, w')
    else Calls(slips, w, w') || exists t, push :: Acts(slips, w, t, push, w')
  }

  /** A poll that opens (or re-opens) the window `key`. */
  predicate Opens(key: Time, limits: Limits, w: World, e: Event) {
    e.Poll? && NewWindow(w.q, e.u, limits) && e.u.resetAt == key
  }

  ghost predicate NothingQueued(slips: Slips, key: Time, sh: Shared) {
    forall job | job in slips && slips[job].windowKey == key :: job !in sh.accepted
  }

  /** A run in which the window `key` is never re-opened once a notice for it was queued: the reset
      instant does not come back and usage does not fall from the warning line or above to below it. */
  ghost predicate Runs(slips: Slips, key: Time, limits: Limits, worlds: seq<World>, events: seq<Event>) {
    && |worlds| == |events| + 1 && Init(worlds[0].s)
    && forall i | 0 <= i < |events| ::
      && Next(slips, limits, worlds[i], events[i], worlds[i + 1])
      && (Opens(key, limits, worlds[i], events[i]) ==> NothingQueued(slips, key, worlds[i].s.sh))
  }

  // ---------- the shape of the worker's stack ----------

  predicate Settler(op: Op) {
    (op.Claim? && op.claimant.Sent?) || (op.Report? && op.outcome.Delivered?) || op.Finish?
  }

  predicate Chore(op: Op) {
    || (op.Note? && !op.goal.Sent?) || (op.Claim? && !op.claimant.Sent?) || op.Recheck? || op.Finish?
    || ((op.Hook? || op.CompleteNote?) && (op.next.Some? ==> !op.next.value.Sent?))
    || (op.Report? && op.outcome.Unattempted?)
  }

  predicate Stage(op: Op) {
    op.Scan? || op.CallValid? || op.Groups? || op.Messages? || op.Mark?
  }

  predicate Between(ops: seq<Op>) {
    |ops| == 2 && ops[0].Messages? && ops[1].AfterBatch?
  }

  predicate Base(ops: seq<Op>) {
    || ops == []
    || (|ops| == 1 && (ops[0].Select? || ops[0].Collect? || ops[0].AfterBatch? || ops[0].Drain? || ops[0].Exit?))
    || ops == [AbandonUnattempted, Drain]
    || (|ops| == 2 && Stage(ops[0]) && ops[1].AfterBatch?)
  }

  predicate Settling(ops: seq<Op>) {
    ops != [] && if Settler(ops[0]) then Settling(ops[1..]) else Between(ops)
  }

  predicate Sending(ops: seq<Op>) {
    ops != [] && ops[0].Send? && Between(ops[1..])
  }

  predicate Quiet(ops: seq<Op>) {
    if ops != [] && Chore(ops[0]) then Quiet(ops[1..]) else Base(ops)
  }

  /** While callbacks for a message are outstanding, nothing validated waits on the stack. */
  predicate Shape(ops: seq<Op>) {
    Settling(ops) || Sending(ops) || Quiet(ops)
  }

  lemma {:induction false} SettlingOps(ops: seq<Op>)
    requires Settling(ops)
    ensures forall op | op in ops :: Settler(op) || op.Messages? || op.AfterBatch?
  {
    if Settler(ops[0]) {
      SettlingOps(ops[1..]);
    }
  }

  lemma {:induction false} QuietOps(ops: seq<Op>)
    requires Quiet(ops)
    ensures forall op | op in ops ::
      !op.Send? && !(op.Claim? && op.claimant.Sent?) && !(op.Report? && op.outcome.Delivered?)
  {
    if ops != [] && Chore(ops[0]) {
      QuietOps(ops[1..]);
    }
  }

  lemma {:induction false} QuietPush(push: seq<Op>, rest: seq<Op>)
    requires forall op | op in push :: Chore(op)
    requires Quiet(rest)
    ensures Quiet(push + rest)
  {
    hide Chore;
    if push == [] {
      assert push + rest == rest;
    } else {
      assert (push + rest)[1..] == push[1..] + rest;
      QuietPush(push[1..], rest);
    }
  }

  lemma {:induction false} SettlingPush(push: seq<Op>, rest: seq<Op>)
    requires forall op | op in push :: Settler(op)
    requires Settling(rest) || Between(rest)
    ensures Settling(push + rest)
  {
    hide Settler;
    if push == [] {
      assert push + rest == rest;
      if Between(rest) { BetweenSettles(rest); }
    } else {
      assert (push + rest)[1..] == push[1..] + rest;
      SettlingPush(push[1..], rest);
    }
  }

  lemma BetweenSettles(ops: seq<Op>)
    requires Between(ops)
    ensures Settling(ops)
  {
  }

  lemma StrandChores(jobs: seq<Job>)
    ensures forall op | op in Strand(jobs) :: Chore(op)
  {
    StrandOps(jobs);
  }

  lemma StrandQuiet(jobs: seq<Job>, rest: seq<Op>)
    requires Quiet(rest)
    ensures Quiet(Strand(jobs) + rest)
  {
    StrandChores(jobs);
    QuietPush(Strand(jobs), rest);
  }

  /** Resolution steps on a quiet stack. */
  lemma ChoreStep(a: Shared, op: Op, b: Shared, push: seq<Op>)
    requires ResolveExec(a, op, b, push) && Chore(op)
    ensures forall x | x in push :: Chore(x)
  {
    hide Notable, Claimable, FinishResolution;
  }

  lemma SettlerStep(a: Shared, op: Op, b: Shared, push: seq<Op>)
    requires ResolveExec(a, op, b, push) && Settler(op)
    ensures forall x | x in push :: Settler(x)
  {
    hide Notable, Claimable, FinishResolution;
  }

  lemma CollectShape(a: Shared, batch: seq<Job>, b: Shared, push: seq<Op>)
    requires CollectStep(a, batch, b, push)
    ensures Quiet(push)
  {
    hide Strand;
    StrandQuiet(batch, [AbandonUnattempted, Drain]);
  }

  lemma AbandonShape(a: Shared, push: seq<Op>)
    requires AbandonStep(a, push)
    ensures Quiet(push + [Drain])
  {
    hide Strand, Enumerates;
    var order :| Enumerates(order, a.pendingJobs - a.attempted) && push == Strand(order);
    StrandQuiet(order, [Drain]);
  }

  lemma DrainShape(a: Shared, b: Shared, push: seq<Op>)
    requires DrainStep(a, b, push)
    ensures Quiet(push)
  {
    if a.queue != [] {
      QuietPush([Note(a.queue[0], Stranded)], [Drain]);
    }
  }

  lemma LoopShape(a: Shared, ops: seq<Op>, b: Shared, push: seq<Op>)
    requires ops != [] && Base(ops) && !Stage(ops[0]) && WorkerExec(a, ops[0], b, push)
    ensures Quiet(push + ops[1..])
  {
    hide CollectStep, AbandonStep, DrainStep, Quiet;
    var op := ops[0];
    assert push + [] == push;
    if op.AbandonUnattempted? {
      AbandonShape(a, push);
    } else {
      assert ops[1..] == [];
      if op.Collect? {
        CollectShape(a, op.batch, b, push);
      } else if op.Drain? {
        DrainShape(a, b, push);
      } else {
        LoopShapeRest(a, op, b, push);
      }
    }
  }

  lemma LoopShapeRest(a: Shared, op: Op, b: Shared, push: seq<Op>)
    requires (op.Select? || op.AfterBatch? || op.Exit?) && WorkerExec(a, op, b, push)
    ensures Quiet(push)
  {
  }

  lemma StageQuiet(op: Op)
    requires Stage(op)
    ensures Quiet([op] + [AfterBatch])
  {
  }

  lemma GroupsShape(a: Shared, groups: seq<seq<Job>>)
    ensures Quiet(GroupsNext(a, groups) + [AfterBatch])
  {
    assert Quiet([AfterBatch]);
    hide Strand, Flatten, Quiet;
    assert [] + [AfterBatch] == [AfterBatch];
    if groups != [] {
      if a.stopping { StrandQuiet(Flatten(groups), [AfterBatch]); } else { StageQuiet(GroupsNext(a, groups)[0]); }
    }
  }

  lemma MessagesShape(a: Shared, messages: seq<seq<Job>>, others: seq<seq<Job>>)
    ensures Quiet(MessagesNext(a, messages, others) + [AfterBatch])
  {
    assert Quiet([AfterBatch]);
    hide Strand, Flatten, Quiet;
    if messages != [] && a.stopping {
      StrandQuiet(Flatten(others), [AfterBatch]);
      StrandQuiet(Flatten(messages), Strand(Flatten(others)) + [AfterBatch]);
      assert MessagesNext(a, messages, others) + [AfterBatch]
          == Strand(Flatten(messages)) + (Strand(Flatten(others)) + [AfterBatch]);
    } else {
      StageQuiet(MessagesNext(a, messages, others)[0]);
    }
  }

  lemma ValidShape(job: Job, todo: seq<Job>, kept: seq<Job>, cont: Cont, push: seq<Op>)
    requires ValidStep(job, todo, kept, cont, push)
    ensures Quiet(push + [AfterBatch])
  {
    if push == [Note(job, Invalid), Scan(todo, kept, cont)] {
      QuietPush([Note(job, Invalid)], [Scan(todo, kept, cont)] + [AfterBatch]);
      assert push + [AfterBatch] == [Note(job, Invalid)] + ([Scan(todo, kept, cont)] + [AfterBatch]);
    }
  }

  lemma MarkShape(marked: seq<Job>, more: seq<seq<Job>>, rest: seq<seq<Job>>)
    ensures Shape(MarkNext(marked, more, rest) + [AfterBatch])
  {
    var ops := MarkNext(marked, more, rest) + [AfterBatch];
    if marked != [] {
      assert ops[1..] == [Messages(more, rest), AfterBatch];
    }
  }

  lemma StageShape(a: Shared, op: Op, b: Shared, push: seq<Op>)
    requires Stage(op) && WorkerExec(a, op, b, push)
    ensures Shape(push + [AfterBatch])
  {
    hide GroupsNext, MessagesNext, MarkNext, MarkAttempted, ValidStep, Quiet, Settling, Sending, Split, GroupByKey;
    match op {
      case Groups(groups) => GroupsShape(a, groups);
      case Messages(messages, others) => MessagesShape(a, messages, others);
      case CallValid(job, todo, kept, cont) => ValidShape(job, todo, kept, cont, push);
      case Mark(jobs, more, others) => MarkShape(MarkAttempted(a, jobs), more, others);
      case Scan(todo, kept, cont) => StageQuiet(push[0]);
      case _ =>
    }
  }

  lemma SendShape(a: Shared, ops: seq<Op>, b: Shared, push: seq<Op>)
    requires Sending(ops) && WorkerExec(a, ops[0], b, push)
    ensures Settling(push + ops[1..])
  {
    var jobs := ops[0].jobs;
    var ok :| b == a.(sends := a.sends + [SendRecord(jobs, ok)]) && push == Settle(jobs, ok);
    SettleOps(jobs, ok);
    SettlingPush(push, ops[1..]);
  }

  /** The worker's own step keeps the shape. */
  lemma ShapeStep(a: Shared, ops: seq<Op>, b: Shared, push: seq<Op>)
    requires ops != [] && Shape(ops) && (WorkerExec(a, ops[0], b, push) || ResolveExec(a, ops[0], b, push))
    ensures Shape(push + ops[1..])
  {
    hide WorkerExec, ResolveExec;
    if Sending(ops) {
      ExecSides(a, ops[0], b, push);
      SendShape(a, ops, b, push);
    } else if Settling(ops) && Settler(ops[0]) {
      ExecSides(a, ops[0], b, push);
      SettlerStep(a, ops[0], b, push);
      SettlingPush(push, ops[1..]);
    } else if Quiet(ops) && Chore(ops[0]) {
      ExecSides(a, ops[0], b, push);
      ChoreStep(a, ops[0], b, push);
      QuietPush(push, ops[1..]);
    } else {
      BaseStep(a, ops, b, push);
    }
  }

  lemma BaseStep(a: Shared, ops: seq<Op>, b: Shared, push: seq<Op>)
    requires ops != [] && (Base(ops) || Between(ops))
      && (WorkerExec(a, ops[0], b, push) || ResolveExec(a, ops[0], b, push))
    ensures Shape(push + ops[1..])
  {
    hide WorkerExec, ResolveExec;
    ExecSides(a, ops[0], b, push);
    if Stage(ops[0]) {
      assert ops[1..] == [AfterBatch];
      StageShape(a, ops[0], b, push);
    } else {
      LoopShape(a, ops, b, push);
    }
  }

  /** Which of the two kinds of step an operation takes. */
  lemma ExecSides(a: Shared, op: Op, b: Shared, push: seq<Op>)
    requires WorkerExec(a, op, b, push) || ResolveExec(a, op, b, push)
    ensures Settler(op) || Chore(op) || op.Note? || op.Hook? || op.CompleteNote? ==> ResolveExec(a, op, b, push)
    ensures !(Settler(op) || Chore(op) || op.Note? || op.Hook? || op.CompleteNote?) ==> WorkerExec(a, op, b, push)
  {
    hide SelectStep, CollectStep, ScanNext, ValidStep, GroupsNext, MessagesNext, MarkNext, MarkAttempted, SendStep,
      AbandonStep, DrainStep;
  }

  // ---------- other threads ----------

  /** Only the worker claims for a delivery. */
  predicate Meek(op: Op) {
    && (op.Note? ==> op.goal.Stranded?) && (op.Claim? ==> op.claimant.Stranded?)
    && (op.Hook? || op.CompleteNote? ==> (op.next.Some? ==> op.next.value.Stranded?))
    && (op.Report? ==> op.outcome.Unattempted?)
  }

  ghost predicate Meeks(ops: seq<Op>) {
    forall op | op in ops :: Meek(op)
  }

  ghost predicate MeekThreads(s: System) {
    forall t | 0 <= t < |s.threads| && t != WORKER :: Meeks(s.threads[t])
  }

  lemma MeekResolve(a: Shared, op: Op, b: Shared, push: seq<Op>)
    requires ResolveExec(a, op, b, push) && Meek(op)
    ensures Meeks(push)
  {
    hide Notable, Claimable, FinishResolution;
  }

  lemma MeekStop(a: Shared, op: Op, b: Shared, push: seq<Op>)
    requires StopExec(a, op, b, push)
    ensures Meeks(push)
  {
    hide StopSteps, Enumerates;
    if op.MarkStopping? {
      var order :| Enumerates(order, a.pendingJobs - a.attempted)
        && b == a.(stopping := true, noted := a.noted + (set j | j in order)) && push == StopSteps(a, order, op.join);
      SnapshotMeek(a, order, op.join);
    }
  }

  lemma SnapshotMeek(a: Shared, order: seq<Job>, join: bool)
    ensures Meeks(StopSteps(a, order, join))
  {
    hide StopSteps;
    StopStepsOps(a, order, join);
  }

  lemma MeekExec(a: Shared, op: Op, b: Shared, push: seq<Op>)
    requires Exec(a, op, b, push) && (ResolverOp(op) || StopOp(op)) && Meek(op)
    ensures Meeks(push)
  {
    hide StopExec, ResolveExec, WorkerExec, Meek;
    ExecOther(a, op, b, push);
    if StopExec(a, op, b, push) { MeekStop(a, op, b, push); } else { MeekResolve(a, op, b, push); }
  }

  lemma ExecOther(a: Shared, op: Op, b: Shared, push: seq<Op>)
    requires Exec(a, op, b, push) && (ResolverOp(op) || StopOp(op))
    ensures StopExec(a, op, b, push) || ResolveExec(a, op, b, push)
  {
    hide StopExec, ResolveExec, SelectStep, CollectStep, ScanNext, ValidStep, GroupsNext, MessagesNext, MarkNext,
      MarkAttempted, SendStep, AbandonStep, DrainStep;
  }

  lemma MeekSpawned(op: Op, ops: seq<Op>)
    requires ops in Spawned(op)
    ensures Meeks(ops)
  {
    ResolverThreads(op.jobs);
  }

  lemma WorkerSpawnsNothing(s: System, t: nat, push: seq<Op>, s': System)
    requires Classes(s) && |s.threads| >= 2 && ThreadStepWith(s, t, push, s')
    ensures t < |s.threads| && s.threads[t] != [] && InClass(t, s.threads[t][0])
  {
    hide Exec;
  }

  lemma MeekStep(s: System, t: nat, push: seq<Op>, s': System)
    requires Classes(s) && |s.threads| >= 2 && MeekThreads(s) && ThreadStepWith(s, t, push, s')
    ensures MeekThreads(s')
  {
    hide Exec, Spawned, Meek, Classes;
    WorkerSpawnsNothing(s, t, push, s');
    var op := s.threads[t][0];
    ThreadStepExec(s, t, push, s');
    if t != WORKER {
      assert op in s.threads[t];
      MeekExec(s.sh, op, s'.sh, push);
    }
    forall u | 0 <= u < |s'.threads| && u != WORKER ensures Meeks(s'.threads[u]) {
      if u >= |s.threads| {
        assert s'.threads[u] in Spawned(op);
        MeekSpawned(op, s'.threads[u]);
      } else if u == t {
        assert Meeks(s.threads[t]);
      }
    }
  }

  // ---------- attempted jobs the worker still has to claim ----------

  function DueOf(op: Op): seq<Job> {
    if op.Send? then op.jobs else if op.Claim? && op.claimant.Sent? then [op.job] else []
  }

  function Dues(ops: seq<Op>): seq<Job> {
    if ops == [] then [] else DueOf(ops[0]) + Dues(ops[1..])
  }

  lemma {:induction false} DuesAppend(a: seq<Op>, b: seq<Op>)
    ensures Dues(a + b) == Dues(a) + Dues(b)
  {
    hide DueOf;
    if a == [] {
      assert a + b == b;
    } else {
      assert (a + b)[1..] == a[1..] + b;
      DuesAppend(a[1..], b);
      assert DueOf(a[0]) + (Dues(a[1..]) + Dues(b)) == (DueOf(a[0]) + Dues(a[1..])) + Dues(b);
    }
  }

  lemma {:induction false} NoDues(ops: seq<Op>)
    requires forall op | op in ops :: DueOf(op) == []
    ensures Dues(ops) == []
  {
    hide DueOf;
    if ops != [] {
      NoDues(ops[1..]);
    }
  }

  lemma {:induction false} SettleDues(jobs: seq<Job>, ok: bool)
    ensures Dues(Settle(jobs, ok)) == jobs
  {
    if jobs != [] {
      SettleDues(jobs[1..], ok);
    }
  }

  ghost predicate NoRepeats(jobs: seq<Job>) {
    forall i, k | 0 <= i < k < |jobs| :: jobs[i] != jobs[k]
  }

  ghost predicate Unclaimed(sh: Shared, jobs: seq<Job>) {
    NoRepeats(jobs) && forall j | j in jobs :: j in sh.pendingJobs && j !in sh.resolving && j in sh.attempted
  }

  lemma {:induction false} MarkedUnclaimed(sh: Shared, jobs: seq<Job>)
    ensures NoRepeats(MarkAttempted(sh, jobs))
    ensures forall j | j in MarkAttempted(sh, jobs) :: j in sh.pendingJobs && j !in sh.resolving && j !in sh.attempted
    decreases |jobs|
  {
    if jobs != [] && !sh.stopping {
      if Markable(sh, jobs[0]) {
        MarkedUnclaimed(sh.(attempted := sh.attempted + {jobs[0]}), jobs[1..]);
      } else {
        MarkedUnclaimed(sh, jobs[1..]);
      }
    }
  }

  /** What a resolution step may do to jobs that wait to be claimed. */
  lemma ResolveKeepsUnclaimed(a: Shared, op: Op, b: Shared, push: seq<Op>, jobs: seq<Job>)
    requires ResolveExec(a, op, b, push) && OkOp(a, op) && Unclaimed(a, jobs)
    requires op.Claim? ==> op.claimant.Stranded? || op.job !in jobs
    ensures Unclaimed(b, jobs)
  {
    hide NoRepeats;
  }

  lemma StopKeepsUnclaimed(a: Shared, op: Op, b: Shared, push: seq<Op>, jobs: seq<Job>)
    requires StopExec(a, op, b, push) && Unclaimed(a, jobs)
    ensures Unclaimed(b, jobs) && b.sends == a.sends
  {
    hide StopExec, NoRepeats;
    StopFields(a, op, b, push);
  }

  // ---------- what the latches know ----------

  predicate About(slips: Slips, key: Time, j: Job, notice: Notice) {
    j in slips && slips[j].windowKey == key && slips[j].notice == notice
  }

  ghost predicate Carries(slips: Slips, key: Time, record: SendRecord, notice: Notice) {
    exists j :: j in record.jobs && About(slips, key, j, notice)
  }

  /** A message with such a notice was accepted. */
  ghost predicate Announced(slips: Slips, key: Time, sends: seq<SendRecord>, notice: Notice) {
    exists n :: 0 <= n < |sends| && sends[n].accepted && Carries(slips, key, sends[n], notice)
  }

  /** The latches suppress this notice, or the window has moved on. */
  predicate Blocked(q: A.Quota, key: Time, notice: Notice) {
    q.windowKey == key ==> q.exhaustedSent != 0 || (notice.Warning? && q.warningSent != 0)
  }

  predicate Owes1(slips: Slips, key: Time, op: Op, notice: Notice) {
    || (op.Claim? && op.claimant == Sent(true) && About(slips, key, op.job, notice))
    || (op.Report? && op.outcome == Delivered(true) && About(slips, key, op.job, notice))
  }

  /** The callback that will set the latch is still to come. */
  ghost predicate Owing(slips: Slips, key: Time, ops: seq<Op>, notice: Notice) {
    exists op :: op in ops && Owes1(slips, key, op, notice)
  }

  /** An accepted notice has set its latch, or is about to, or the dispatcher is stopping. */
  ghost predicate Latched(slips: Slips, key: Time, sh: Shared, q: A.Quota, ops: seq<Op>) {
    forall notice :: Announced(slips, key, sh.sends, notice) && !sh.stopping ==>
      Blocked(q, key, notice) || Owing(slips, key, ops, notice)
  }

  /** Sending the job would not repeat an accepted notice. */
  ghost predicate Novel(slips: Slips, key: Time, sends: seq<SendRecord>, j: Job) {
    forall notice | About(slips, key, j, notice) ::
      !Announced(slips, key, sends, notice) && (notice.Warning? ==> !Announced(slips, key, sends, Exhaustion))
  }

  predicate Wanted(slips: Slips, key: Time, q: A.Quota, j: Job) {
    j in slips && slips[j].windowKey == key && q.windowKey == key ==> StillWanted(q, slips[j])
  }

  ghost predicate Checked(slips: Slips, key: Time, sh: Shared, q: A.Quota, jobs: seq<Job>) {
    forall j | j in jobs :: Wanted(slips, key, q, j) && (sh.stopping || Novel(slips, key, sh.sends, j))
  }

  ghost predicate Ready(slips: Slips, key: Time, sh: Shared, q: A.Quota, jobs: seq<Job>) {
    forall j | j in jobs :: Wanted(slips, key, q, j) && Novel(slips, key, sh.sends, j)
  }

  /** What waits to be sent in the current message was found wanted, and nothing changed since. */
  ghost predicate Sound(slips: Slips, key: Time, sh: Shared, q: A.Quota, op: Op) {
    match op
    case Scan(_, kept, cont) => cont.AfterMessage? ==> Checked(slips, key, sh, q, kept)
    case CallValid(_, _, kept, cont) => cont.AfterMessage? ==> Checked(slips, key, sh, q, kept)
    case Mark(jobs, _, _) => Checked(slips, key, sh, q, jobs)
    case Send(jobs) => Ready(slips, key, sh, q, jobs)
    case _ => true
  }

  ghost predicate SoundOps(slips: Slips, key: Time, sh: Shared, q: A.Quota, ops: seq<Op>) {
    forall op | op in ops :: Sound(slips, key, sh, q, op)
  }

  /** After an accepted notice, no later message carries that notice again; after an accepted
      exhaustion, none carries a warning. */
  ghost predicate Apart(slips: Slips, key: Time, earlier: SendRecord, later: SendRecord) {
    forall notice | earlier.accepted && Carries(slips, key, earlier, notice) ::
      !Carries(slips, key, later, notice) && (notice.Exhaustion? ==> !Carries(slips, key, later, Warning))
  }

  ghost predicate Once(slips: Slips, key: Time, sends: seq<SendRecord>) {
    forall m, n | 0 <= m < n < |sends| :: Apart(slips, key, sends[m], sends[n])
  }

  /** What the worker's stack `ops` keeps. */
  ghost predicate WorkerInv(slips: Slips, key: Time, sh: Shared, q: A.Quota, ops: seq<Op>) {
    && Shape(ops) && Unclaimed(sh, Dues(ops))
    && Latched(slips, key, sh, q, ops) && SoundOps(slips, key, sh, q, ops) && Once(slips, key, sh.sends)
  }

  ghost predicate QuotaInv(slips: Slips, key: Time, w: World) {
    FullInv(w.s) && MeekThreads(w.s) && WorkerInv(slips, key, w.s.sh, w.q, w.s.threads[WORKER])
  }

  // ---------- steps that leave the latches alone ----------

  /** The latches and the window are the same, or the window is another one, or it was opened before
      anything about it was announced. */
  ghost predicate Compatible(slips: Slips, key: Time, sh: Shared, q: A.Quota, q': A.Quota) {
    || (q'.windowKey == q.windowKey && q'.warningSent == q.warningSent && q'.exhaustedSent == q.exhaustedSent)
    || q'.windowKey != key
    || (q'.warningSent == 0 && q'.exhaustedSent == 0
        && !Announced(slips, key, sh.sends, Warning) && !Announced(slips, key, sh.sends, Exhaustion))
  }

  /** A step by somebody else: the sends stand, and the worker's stack does. */
  lemma LatchedKept(slips: Slips, key: Time, a: Shared, q: A.Quota, b: Shared, q': A.Quota, ops: seq<Op>)
    requires Latched(slips, key, a, q, ops) && Compatible(slips, key, a, q, q')
    requires b.sends == a.sends && (a.stopping ==> b.stopping)
    ensures Latched(slips, key, b, q', ops)
  {
    hide Announced, Owing;
    forall notice | Announced(slips, key, b.sends, notice) && !b.stopping
      ensures Blocked(q', key, notice) || Owing(slips, key, ops, notice)
    {
      assert notice == Warning || notice == Exhaustion;
    }
  }

  lemma SoundKept(slips: Slips, key: Time, a: Shared, q: A.Quota, b: Shared, q': A.Quota, op: Op)
    requires Sound(slips, key, a, q, op) && Compatible(slips, key, a, q, q')
    requires b.sends == a.sends && (a.stopping ==> b.stopping)
    ensures Sound(slips, key, b, q', op)
  {
    hide Announced, Novel;
  }

  lemma SoundAllKept(slips: Slips, key: Time, a: Shared, q: A.Quota, b: Shared, q': A.Quota, ops: seq<Op>)
    requires SoundOps(slips, key, a, q, ops) && Compatible(slips, key, a, q, q')
    requires b.sends == a.sends && (a.stopping ==> b.stopping)
    ensures SoundOps(slips, key, b, q', ops)
  {
    forall op | op in ops ensures Sound(slips, key, b, q', op) {
      hide Sound, Compatible;
      SoundKept(slips, key, a, q, b, q', op);
    }
  }

  // ---------- the worker's steps ----------

  lemma OwingKept(slips: Slips, key: Time, op: Op, rest: seq<Op>, push: seq<Op>, notice: Notice)
    requires Owing(slips, key, [op] + rest, notice)
    requires Owes1(slips, key, op, notice) ==> exists x :: x in push && Owes1(slips, key, x, notice)
    ensures Owing(slips, key, push + rest, notice)
  {
    hide Owes1;
    var owed :| owed in [op] + rest && Owes1(slips, key, owed, notice);
    if owed in rest {
      assert owed in push + rest;
    } else {
      var x :| x in push && Owes1(slips, key, x, notice);
      assert x in push + rest;
    }
  }

  /** A step that neither sends nor settles. */
  lemma LatchedPop(slips: Slips, key: Time, sh: Shared, q: A.Quota, op: Op, rest: seq<Op>, push: seq<Op>)
    requires Latched(slips, key, sh, q, [op] + rest)
    requires forall notice | Owes1(slips, key, op, notice) :: exists x :: x in push && Owes1(slips, key, x, notice)
    ensures Latched(slips, key, sh, q, push + rest)
  {
    hide Announced, Owing, Blocked, Owes1;
    forall notice | Announced(slips, key, sh.sends, notice) && !sh.stopping
      ensures Blocked(q, key, notice) || Owing(slips, key, push + rest, notice)
    {
      if Owing(slips, key, [op] + rest, notice) {
        OwingKept(slips, key, op, rest, push, notice);
      }
    }
  }

  /** A job found valid in the last scan repeats nothing. */
  lemma ValidIsNovel(slips: Slips, key: Time, sh: Shared, q: A.Quota, ops: seq<Op>, job: Job)
    requires Latched(slips, key, sh, q, ops) && Quiet(ops)
    requires job in slips ==> StillWanted(q, slips[job])
    ensures Wanted(slips, key, q, job) && (sh.stopping || Novel(slips, key, sh.sends, job))
  {
    hide Announced, Quiet;
    QuietOps(ops);
    if !sh.stopping {
      forall notice | About(slips, key, job, notice)
        ensures !Announced(slips, key, sh.sends, notice)
          && (notice.Warning? ==> !Announced(slips, key, sh.sends, Exhaustion))
      {
        assert !Owing(slips, key, ops, notice) && !Owing(slips, key, ops, Exhaustion);
        assert !Blocked(q, key, notice);
      }
    }
  }

  lemma ValidSound(slips: Slips, key: Time, sh: Shared, q: A.Quota, ops: seq<Op>, push: seq<Op>)
    requires ops != [] && ops[0].CallValid? && Quiet(ops) && Latched(slips, key, sh, q, ops)
    requires Sound(slips, key, sh, q, ops[0]) && Effect(slips, sh, q, ops[0], push, q)
    requires ValidStep(ops[0].job, ops[0].todo, ops[0].kept, ops[0].cont, push)
    ensures SoundOps(slips, key, sh, q, push)
  {
    hide Latched, Novel, Wanted, Quiet;
    var job := ops[0].job;
    if push == [Scan(ops[0].todo, ops[0].kept + [job], ops[0].cont)] {
      ValidIsNovel(slips, key, sh, q, ops, job);
    }
  }

  lemma ScanSound(slips: Slips, key: Time, sh: Shared, q: A.Quota, op: Op)
    requires op.Scan? && Sound(slips, key, sh, q, op)
    ensures Sound(slips, key, sh, q, ScanNext(sh, op.todo, op.kept, op.cont))
  {
    hide Checked;
  }

  lemma MarkSound(slips: Slips, key: Time, sh: Shared, q: A.Quota, op: Op)
    requires op.Mark? && Sound(slips, key, sh, q, op)
    ensures SoundOps(slips, key, sh, q, MarkNext(MarkAttempted(sh, op.jobs), op.more, op.rest))
  {
    hide Novel, Wanted;
    MarkedJobs(sh, op.jobs);
  }

  lemma StrandSound(slips: Slips, key: Time, sh: Shared, q: A.Quota, jobs: seq<Job>)
    ensures SoundOps(slips, key, sh, q, Strand(jobs))
  {
    StrandOps(jobs);
  }

  lemma PlainSound(slips: Slips, key: Time, sh: Shared, q: A.Quota, op: Op, b: Shared, push: seq<Op>)
    requires WorkerExec(sh, op, b, push) && !op.Scan? && !op.CallValid? && !op.Mark? && !op.Send?
    ensures SoundOps(slips, key, sh, q, push)
  {
    hide *;
    if op.Groups? || op.Messages? {
      GroupsSound(slips, key, sh, q, op, b, push);
    } else {
      LoopSound(slips, key, sh, q, op, b, push);
    }
  }

  lemma GroupsSound(slips: Slips, key: Time, sh: Shared, q: A.Quota, op: Op, b: Shared, push: seq<Op>)
    requires WorkerExec(sh, op, b, push) && (op.Groups? || op.Messages?)
    ensures SoundOps(slips, key, sh, q, push)
  {
    hide Strand, Flatten, Novel, Wanted;
    if op.Groups? {
      StrandSound(slips, key, sh, q, Flatten(op.groups));
    } else {
      StrandSound(slips, key, sh, q, Flatten(op.messages));
      StrandSound(slips, key, sh, q, Flatten(op.rest));
    }
  }

  lemma LoopSound(slips: Slips, key: Time, sh: Shared, q: A.Quota, op: Op, b: Shared, push: seq<Op>)
    requires WorkerExec(sh, op, b, push) && !op.Scan? && !op.CallValid? && !op.Mark? && !op.Send?
    requires !op.Groups? && !op.Messages?
    ensures SoundOps(slips, key, sh, q, push)
  {
    hide Strand, Novel, Wanted, Enumerates;
    match op {
      case Collect(batch) => StrandSound(slips, key, sh, q, batch);
      case AbandonUnattempted =>
        var order :| Enumerates(order, sh.pendingJobs - sh.attempted) && push == Strand(order);
        StrandSound(slips, key, sh, q, order);
      case _ =>
    }
  }

  lemma ResolveSound(slips: Slips, key: Time, sh: Shared, q: A.Quota, op: Op, b: Shared, push: seq<Op>)
    requires ResolveExec(sh, op, b, push)
    ensures SoundOps(slips, key, sh, q, push)
  {
    hide Notable, Claimable, FinishResolution;
  }

  lemma SettlingSound(slips: Slips, key: Time, sh: Shared, q: A.Quota, ops: seq<Op>)
    requires Settling(ops)
    ensures SoundOps(slips, key, sh, q, ops)
  {
    SettlingOps(ops);
  }

  lemma NovelRecord(slips: Slips, key: Time, sends: seq<SendRecord>, record: SendRecord, notice: Notice)
    requires Announced(slips, key, sends, notice) && forall j | j in record.jobs :: Novel(slips, key, sends, j)
    ensures !Carries(slips, key, record, notice) && (notice.Exhaustion? ==> !Carries(slips, key, record, Warning))
  {
    hide Announced, About;
  }

  lemma OnceMore(slips: Slips, key: Time, sends: seq<SendRecord>, record: SendRecord)
    requires Once(slips, key, sends) && forall j | j in record.jobs :: Novel(slips, key, sends, j)
    ensures Once(slips, key, sends + [record])
  {
    hide Carries, Novel;
    var all := sends + [record];
    forall m, n | 0 <= m < n < |all| ensures Apart(slips, key, all[m], all[n]) {
      assert all[m] == sends[m];
      if n == |sends| {
        forall notice | all[m].accepted && Carries(slips, key, all[m], notice)
          ensures !Carries(slips, key, record, notice) && (notice.Exhaustion? ==> !Carries(slips, key, record, Warning))
        {
          assert Announced(slips, key, sends, notice);
          NovelRecord(slips, key, sends, record, notice);
        }
      } else {
        assert all[n] == sends[n];
      }
    }
  }

  lemma AnnouncedMore(slips: Slips, key: Time, sends: seq<SendRecord>, record: SendRecord, notice: Notice)
    requires Announced(slips, key, sends + [record], notice) && !Announced(slips, key, sends, notice)
    ensures record.accepted && Carries(slips, key, record, notice)
  {
    hide Carries;
    var all := sends + [record];
    var n :| 0 <= n < |all| && all[n].accepted && Carries(slips, key, all[n], notice);
    assert n == |sends|;
  }

  lemma SentOwes(slips: Slips, key: Time, jobs: seq<Job>, rest: seq<Op>, notice: Notice)
    requires Carries(slips, key, SendRecord(jobs, true), notice)
    ensures Owing(slips, key, Settle(jobs, true) + rest, notice)
  {
    hide About;
    SettleOps(jobs, true);
    var j :| j in jobs && About(slips, key, j, notice);
    assert Owes1(slips, key, Claim(j, Sent(true)), notice);
    assert Claim(j, Sent(true)) in Settle(jobs, true) + rest;
  }

  lemma SendLatched(slips: Slips, key: Time, a: Shared, q: A.Quota, jobs: seq<Job>, rest: seq<Op>, ok: bool)
    requires Latched(slips, key, a, q, [Send(jobs)] + rest)
    ensures Latched(slips, key, a.(sends := a.sends + [SendRecord(jobs, ok)]), q, Settle(jobs, ok) + rest)
  {
    hide Announced, Owing, Carries, Settle, Blocked;
    var b := a.(sends := a.sends + [SendRecord(jobs, ok)]);
    forall notice | Announced(slips, key, b.sends, notice) && !b.stopping
      ensures Blocked(q, key, notice) || Owing(slips, key, Settle(jobs, ok) + rest, notice)
    {
      if !Announced(slips, key, a.sends, notice) {
        AnnouncedMore(slips, key, a.sends, SendRecord(jobs, ok), notice);
        SentOwes(slips, key, jobs, rest, notice);
      } else if Owing(slips, key, [Send(jobs)] + rest, notice) {
        OwingKept(slips, key, Send(jobs), rest, Settle(jobs, ok), notice);
      }
    }
  }

  lemma SendingDues(ops: seq<Op>)
    requires Sending(ops)
    ensures ops == [Send(ops[0].jobs)] + ops[1..] && Dues(ops) == ops[0].jobs + Dues(ops[1..]) && Dues(ops[1..]) == []
  {
    NoDues(ops[1..]);
  }

  lemma SendingReady(slips: Slips, key: Time, a: Shared, q: A.Quota, ops: seq<Op>)
    requires SoundOps(slips, key, a, q, ops) && ops != [] && ops[0].Send?
    ensures Ready(slips, key, a, q, ops[0].jobs)
  {
    assert Sound(slips, key, a, q, ops[0]);
  }

  lemma SettlingDues(ops: seq<Op>)
    requires Settling(ops) && Settler(ops[0])
    ensures ops == [ops[0]] + ops[1..] && Settling(ops[1..]) && Dues(ops) == DueOf(ops[0]) + Dues(ops[1..])
  {
  }

  lemma SendKeeps(slips: Slips, key: Time, a: Shared, q: A.Quota, ops: seq<Op>, b: Shared, push: seq<Op>)
    requires WorkerInv(slips, key, a, q, ops) && Sending(ops) && WorkerExec(a, ops[0], b, push)
    ensures WorkerInv(slips, key, b, q, push + ops[1..])
  {
    hide *;
    SendingDues(ops);
    var jobs, rest := ops[0].jobs, ops[1..];
    InvParts(slips, key, a, q, ops);
    SendShape(a, ops, b, push);
    SendReady(slips, key, a, q, ops);
    var ok := SendOutcome(a, ops[0], b, push);
    SendLatched(slips, key, a, q, jobs, rest, ok);
    OnceMore(slips, key, a.sends, SendRecord(jobs, ok));
    SettleDues(jobs, ok);
    DuesAppend(push, rest);
    UnclaimedSame(a, b, jobs + []);
    SettlingInv(slips, key, b, q, push + rest);
  }

  lemma SendOutcome(a: Shared, op: Op, b: Shared, push: seq<Op>) returns (ok: bool)
    requires op.Send? && WorkerExec(a, op, b, push)
    ensures b == a.(sends := a.sends + [SendRecord(op.jobs, ok)]) && push == Settle(op.jobs, ok)
  {
    ok :| b == a.(sends := a.sends + [SendRecord(op.jobs, ok)]) && push == Settle(op.jobs, ok);
  }

  lemma SendReady(slips: Slips, key: Time, a: Shared, q: A.Quota, ops: seq<Op>)
    requires WorkerInv(slips, key, a, q, ops) && ops != [] && ops[0].Send?
    ensures forall j | j in ops[0].jobs :: Novel(slips, key, a.sends, j)
  {
    SendingReady(slips, key, a, q, ops);
    hide Novel;
  }

  /** The claim of a delivered job always succeeds. */
  lemma ClaimKeeps(slips: Slips, key: Time, a: Shared, q: A.Quota, ops: seq<Op>, b: Shared, push: seq<Op>)
    requires WorkerInv(slips, key, a, q, ops) && Settling(ops) && ops[0].Claim? && ops[0].claimant.Sent?
    requires ResolveExec(a, ops[0], b, push)
    ensures WorkerInv(slips, key, b, q, push + ops[1..])
  {
    hide *;
    SettlingNonempty(ops);
    var j, ok, rest := ops[0].job, ops[0].claimant.accepted, ops[1..];
    ClaimSettler(slips, key, j, ok);
    SettlingDues(ops);
    InvParts(slips, key, a, q, ops);
    ClaimFields(a, j, ok, Dues(rest), b, push);
    SettlingPush(push, rest);
    LatchedPop(slips, key, a, q, ops[0], rest, push);
    SameLatches(slips, key, a, q);
    LatchedKept(slips, key, a, q, b, q, push + rest);
    DuesAppend(push, rest);
    NoDues(push);
    assert Dues(push + rest) == Dues(rest);
    TailUnclaimed(a, j, Dues(rest));
    SettlingInv(slips, key, b, q, push + rest);
  }

  lemma ClaimSettler(slips: Slips, key: Time, j: Job, ok: bool)
    ensures Settler(Claim(j, Sent(ok))) && DueOf(Claim(j, Sent(ok))) == [j]
    ensures forall op | op in [Report(j, Delivered(ok)), Finish(j)] :: Settler(op) && DueOf(op) == []
    ensures forall notice :: Owes1(slips, key, Claim(j, Sent(ok)), notice) ==>
      Owes1(slips, key, [Report(j, Delivered(ok)), Finish(j)][0], notice)
  {
  }

  lemma ClaimFields(a: Shared, j: Job, ok: bool, rest: seq<Job>, b: Shared, push: seq<Op>)
    requires ResolveExec(a, Claim(j, Sent(ok)), b, push) && Unclaimed(a, [j] + rest)
    ensures push == [Report(j, Delivered(ok)), Finish(j)] && b == a.(resolving := a.resolving + {j})
  {
    assert ([j] + rest)[0] == j;
    assert Claimable(a, j, Sent(ok));
  }

  lemma TailUnclaimed(a: Shared, j: Job, rest: seq<Job>)
    requires Unclaimed(a, [j] + rest)
    ensures Unclaimed(a.(resolving := a.resolving + {j}), rest)
  {
    var all := [j] + rest;
    forall i | i in rest ensures i != j && i in all {
      var k :| 0 <= k < |rest| && rest[k] == i;
      assert all[k + 1] == i && all[0] == j;
    }
    forall i, k | 0 <= i < k < |rest| ensures rest[i] != rest[k] {
      assert all[i + 1] == rest[i] && all[k + 1] == rest[k];
    }
  }

  lemma BlockedStays(slips: Slips, key: Time, j: Job, q: A.Quota, at: Time, notice: Notice)
    requires j in slips && at != 0
    ensures Blocked(q, key, notice) ==> Blocked(Quotas.Settled(q, slips[j], I.Accepted(at)), key, notice)
    ensures About(slips, key, j, notice) ==> Blocked(Quotas.Settled(q, slips[j], I.Accepted(at)), key, notice)
  {
  }

  /** The callback of an accepted delivery sets the latch, unless the monitor is retiring. */
  lemma ReportLatched(slips: Slips, key: Time, a: Shared, q: A.Quota, j: Job, accepted: bool, rest: seq<Op>, b: Shared,
                      push: seq<Op>, q': A.Quota)
    requires Latched(slips, key, a, q, [Report(j, Delivered(accepted))] + rest)
    requires Effect(slips, a, q, Report(j, Delivered(accepted)), push, q')
    requires b.sends == a.sends && b.stopping == a.stopping
    ensures Latched(slips, key, b, q', rest)
  {
    hide Announced, Blocked, About, Quotas.Settled;
    var op := Report(j, Delivered(accepted));
    forall notice | Announced(slips, key, b.sends, notice) && !b.stopping
      ensures Blocked(q', key, notice) || Owing(slips, key, rest, notice)
    {
      if j in slips && accepted {
        var at :| at != 0 && q' == Quotas.Settled(q, slips[j], I.Accepted(at));
        BlockedStays(slips, key, j, q, at, notice);
      }
      if Owing(slips, key, [op] + rest, notice) && !Owes1(slips, key, op, notice) {
        assert [] + rest == rest;
        OwingKept(slips, key, op, rest, [], notice);
      } else if Owing(slips, key, [op] + rest, notice) {
        NotSlip(slips, key, j, notice);
      }
    }
  }

  lemma NotSlip(slips: Slips, key: Time, j: Job, notice: Notice)
    requires About(slips, key, j, notice)
    ensures j in slips
  {
  }

  lemma ReportFields(a: Shared, op: Op, b: Shared, push: seq<Op>)
    requires ResolveExec(a, op, b, push) && op.Report?
    ensures push == [] && b.sends == a.sends && b.stopping == a.stopping
    ensures b.pendingJobs == a.pendingJobs && b.resolving == a.resolving && b.attempted == a.attempted
  {
  }

  lemma InvParts(slips: Slips, key: Time, sh: Shared, q: A.Quota, ops: seq<Op>)
    requires WorkerInv(slips, key, sh, q, ops)
    ensures Unclaimed(sh, Dues(ops)) && Latched(slips, key, sh, q, ops) && Once(slips, key, sh.sends)
  {
  }

  lemma SettlingInv(slips: Slips, key: Time, sh: Shared, q: A.Quota, ops: seq<Op>)
    requires Settling(ops) && Unclaimed(sh, Dues(ops)) && Latched(slips, key, sh, q, ops) && Once(slips, key, sh.sends)
    ensures WorkerInv(slips, key, sh, q, ops)
  {
    SettlingSound(slips, key, sh, q, ops);
  }

  lemma UnclaimedSame(a: Shared, b: Shared, jobs: seq<Job>)
    requires Unclaimed(a, jobs) && b.pendingJobs == a.pendingJobs && b.resolving == a.resolving
      && b.attempted == a.attempted
    ensures Unclaimed(b, jobs)
  {
  }

  lemma ReportKeeps(slips: Slips, key: Time, a: Shared, q: A.Quota, ops: seq<Op>, b: Shared, q': A.Quota, push: seq<Op>)
    requires WorkerInv(slips, key, a, q, ops) && Settling(ops) && ops[0].Report? && ops[0].outcome.Delivered?
    requires ResolveExec(a, ops[0], b, push) && Effect(slips, a, q, ops[0], push, q')
    ensures WorkerInv(slips, key, b, q', push + ops[1..])
  {
    hide *;
    SettlingNonempty(ops);
    var j, accepted, rest := ops[0].job, ops[0].outcome.accepted, ops[1..];
    assert Settler(ops[0]) && DueOf(ops[0]) == [] by { ReportSettler(ops[0]); }
    SettlingDues(ops);
    ReportFields(a, ops[0], b, push);
    assert push + rest == rest && ops[0] == Report(j, Delivered(accepted)) && Dues(ops) == Dues(rest);
    InvParts(slips, key, a, q, ops);
    ReportLatched(slips, key, a, q, j, accepted, rest, b, push, q');
    UnclaimedSame(a, b, Dues(rest));
    SettlingInv(slips, key, b, q', rest);
  }

  lemma ReportSettler(op: Op)
    requires op.Report? && op.outcome.Delivered?
    ensures Settler(op) && DueOf(op) == []
  {
  }

  lemma FinishFields(a: Shared, op: Op, b: Shared, push: seq<Op>)
    requires ResolveExec(a, op, b, push) && op.Finish?
    ensures push == [] && b.sends == a.sends && b.stopping == a.stopping
  {
  }

  lemma FinishKeeps(slips: Slips, key: Time, a: Shared, q: A.Quota, ops: seq<Op>, b: Shared, push: seq<Op>)
    requires WorkerInv(slips, key, a, q, ops) && Settling(ops) && ops[0].Finish? && OkOp(a, ops[0])
    requires ResolveExec(a, ops[0], b, push)
    ensures WorkerInv(slips, key, b, q, push + ops[1..])
  {
    hide *;
    SettlingNonempty(ops);
    var rest := ops[1..];
    FinishSettler(slips, key, ops[0]);
    SettlingDues(ops);
    FinishFields(a, ops[0], b, push);
    InvParts(slips, key, a, q, ops);
    assert push + rest == rest && Dues(ops) == Dues(rest);
    ResolveKeepsUnclaimed(a, ops[0], b, push, Dues(rest));
    LatchedPop(slips, key, a, q, ops[0], rest, push);
    SameLatches(slips, key, a, q);
    LatchedKept(slips, key, a, q, b, q, rest);
    SettlingInv(slips, key, b, q, rest);
  }

  lemma FinishSettler(slips: Slips, key: Time, op: Op)
    requires op.Finish?
    ensures Settler(op) && DueOf(op) == [] && forall notice :: !Owes1(slips, key, op, notice)
  {
  }

  lemma SettlingNonempty(ops: seq<Op>)
    requires Settling(ops)
    ensures ops != []
  {
  }

  lemma SameLatches(slips: Slips, key: Time, sh: Shared, q: A.Quota)
    ensures Compatible(slips, key, sh, q, q)
  {
  }

  // ---------- the other steps of the worker ----------

  lemma {:induction false} QuietDues(ops: seq<Op>)
    requires Quiet(ops)
    ensures Dues(ops) == []
  {
    QuietOps(ops);
    NoDues(ops);
  }

  lemma WorkerQuietFields(a: Shared, op: Op, b: Shared, push: seq<Op>)
    requires WorkerExec(a, op, b, push) && !op.Send?
    ensures b.sends == a.sends && b.stopping == a.stopping
  {
    hide ScanNext, ValidStep, GroupsNext, MessagesNext, MarkNext, MarkAttempted, AbandonStep, Deliver, Strand,
      SelectStep, CollectStep, DrainStep;
    if op.Select? || op.Collect? || op.Drain? {
      ChannelFields(a, op, b, push);
    }
  }

  lemma ChannelFields(a: Shared, op: Op, b: Shared, push: seq<Op>)
    requires (op.Select? && SelectStep(a, b, push)) || (op.Collect? && CollectStep(a, op.batch, b, push))
      || (op.Drain? && DrainStep(a, b, push))
    ensures b.sends == a.sends && b.stopping == a.stopping
  {
    hide Deliver, Strand;
  }

  lemma ResolveQuietFields(a: Shared, op: Op, b: Shared, push: seq<Op>)
    requires ResolveExec(a, op, b, push)
    ensures b.sends == a.sends && b.stopping == a.stopping
  {
    hide Notable, Claimable;
    if op.Finish? {
      FinishFields(a, op, b, push);
    } else {
      hide FinishResolution;
    }
  }

  lemma QuietFields(a: Shared, op: Op, b: Shared, push: seq<Op>)
    requires WorkerExec(a, op, b, push) || ResolveExec(a, op, b, push)
    requires !op.Send?
    ensures b.sends == a.sends && b.stopping == a.stopping
  {
    hide WorkerExec, ResolveExec;
    if WorkerExec(a, op, b, push) { WorkerQuietFields(a, op, b, push); } else { ResolveQuietFields(a, op, b, push); }
  }

  lemma ReportCompatible(slips: Slips, key: Time, a: Shared, q: A.Quota, op: Op, push: seq<Op>, q': A.Quota)
    requires Effect(slips, a, q, op, push, q') && (op.Report? ==> op.outcome.Unattempted?)
    ensures Compatible(slips, key, a, q, q')
  {
    hide Announced;
  }

  /** The steps before a send and the resolutions without a delivery. */
  lemma PlainStepSound(slips: Slips, key: Time, a: Shared, q: A.Quota, ops: seq<Op>, b: Shared, q': A.Quota,
                       push: seq<Op>)
    requires WorkerInv(slips, key, a, q, ops) && ops != [] && Quiet(ops)
    requires WorkerExec(a, ops[0], b, push) || ResolveExec(a, ops[0], b, push)
    requires Effect(slips, a, q, ops[0], push, q')
    ensures SoundOps(slips, key, a, q, push) || ResolveExec(a, ops[0], b, push)
  {
    assert Sound(slips, key, a, q, ops[0]);
    var op := ops[0];
    QuietOps(ops);
    ExecSides(a, op, b, push);
    if !ResolveExec(a, op, b, push) {
      hide Shape, Latched, Sound, Once, Unclaimed, MarkAttempted, ScanNext, MarkNext, GroupsNext, MessagesNext,
        AbandonStep, CollectStep;
      if op.Scan? { ScanSound(slips, key, a, q, op); }
      else if op.CallValid? { ValidSound(slips, key, a, q, ops, push); }
      else if op.Mark? { MarkSound(slips, key, a, q, op); }
      else { PlainSound(slips, key, a, q, op, b, push); }
    }
  }

  lemma SoundAppend(slips: Slips, key: Time, sh: Shared, q: A.Quota, push: seq<Op>, ops: seq<Op>)
    requires SoundOps(slips, key, sh, q, push) && SoundOps(slips, key, sh, q, ops) && ops != []
    ensures SoundOps(slips, key, sh, q, push + ops[1..])
  {
    hide Sound;
  }

  lemma QuietOwesNothing(slips: Slips, key: Time, ops: seq<Op>)
    requires Quiet(ops) && ops != []
    ensures forall notice :: !Owes1(slips, key, ops[0], notice)
  {
    QuietOps(ops);
  }

  lemma QuietLatchedSound(slips: Slips, key: Time, a: Shared, q: A.Quota, ops: seq<Op>, b: Shared, q': A.Quota,
                          push: seq<Op>)
    requires WorkerInv(slips, key, a, q, ops) && ops != [] && Quiet(ops)
    requires WorkerExec(a, ops[0], b, push) || ResolveExec(a, ops[0], b, push)
    requires Effect(slips, a, q, ops[0], push, q')
    ensures b.sends == a.sends
    ensures Latched(slips, key, b, q', push + ops[1..]) && SoundOps(slips, key, b, q', push + ops[1..])
  {
    hide WorkerExec, ResolveExec, Latched, SoundOps, Once, Unclaimed, Effect, Owes1, Compatible, Quiet, Settling,
      Sending;
    var op, rest := ops[0], ops[1..];
    assert ops == [op] + rest && op in ops;
    QuietOps(ops);
    QuietOwesNothing(slips, key, ops);
    PlainStepSound(slips, key, a, q, ops, b, q', push);
    if ResolveExec(a, op, b, push) {
      ResolveSound(slips, key, a, q, op, b, push);
    }
    QuietFields(a, op, b, push);
    ReportCompatible(slips, key, a, q, op, push, q');
    SoundAppend(slips, key, a, q, push, ops);
    SoundAllKept(slips, key, a, q, b, q', push + rest);
    LatchedPop(slips, key, a, q, op, rest, push);
    LatchedKept(slips, key, a, q, b, q', push + rest);
  }

  lemma ChoreDues(push: seq<Op>)
    requires forall op | op in push :: Chore(op)
    ensures Dues(push) == []
  {
    NoDues(push);
  }

  lemma PlainDues(a: Shared, op: Op, b: Shared, push: seq<Op>)
    requires WorkerExec(a, op, b, push) && !op.Send? && !op.Mark?
    ensures Dues(push) == []
  {
    hide DueOf;
    PlainOps(a, op, b, push);
    NoDues(push);
  }

  lemma PlainOps(a: Shared, op: Op, b: Shared, push: seq<Op>)
    requires WorkerExec(a, op, b, push) && !op.Send? && !op.Mark?
    ensures forall x | x in push :: DueOf(x) == []
  {
    hide Strand, Flatten, Enumerates, Split, GroupByKey;
    match op {
      case Collect(batch) => StrandDues(batch);
      case AbandonUnattempted =>
        var order :| Enumerates(order, a.pendingJobs - a.attempted) && push == Strand(order);
        StrandDues(order);
      case Groups(groups) => StrandDues(Flatten(groups));
      case Messages(messages, rest) =>
        StrandDues(Flatten(messages));
        StrandDues(Flatten(rest));
      case _ =>
    }
  }

  lemma StrandDues(jobs: seq<Job>)
    ensures forall x | x in Strand(jobs) :: DueOf(x) == []
  {
    StrandOps(jobs);
  }

  lemma MarkDues(a: Shared, op: Op, b: Shared, push: seq<Op>)
    requires op.Mark? && WorkerExec(a, op, b, push)
    ensures Unclaimed(b, Dues(push))
  {
    var marked := MarkAttempted(a, op.jobs);
    MarkedUnclaimed(a, op.jobs);
    assert Dues(push) == marked by {
      hide MarkAttempted;
      assert Dues([Messages(op.more, op.rest)]) == [];
    }
    hide NoRepeats, MarkAttempted, Dues;
  }

  lemma QuietUnclaimed(a: Shared, ops: seq<Op>, b: Shared, push: seq<Op>)
    requires Quiet(ops) && ops != []
    requires WorkerExec(a, ops[0], b, push) || ResolveExec(a, ops[0], b, push)
    ensures Unclaimed(b, Dues(push + ops[1..]))
  {
    hide *;
    var op := ops[0];
    QuietOps(ops);
    assert op in ops;
    QuietDues(ops);
    DuesTail(ops);
    ExecSides(a, op, b, push);
    DuesAppend(push, ops[1..]);
    assert Dues(push + ops[1..]) == Dues(push);
    NothingUnclaimed(b);
    if WorkerExec(a, op, b, push) {
      if op.Mark? { MarkDues(a, op, b, push); } else { PlainDues(a, op, b, push); }
    } else {
      ResolvedChores(a, ops, b, push);
      ChoreDues(push);
    }
  }

  lemma DuesTail(ops: seq<Op>)
    requires ops != []
    ensures Dues(ops) == DueOf(ops[0]) + Dues(ops[1..])
  {
  }

  lemma NothingUnclaimed(sh: Shared)
    ensures Unclaimed(sh, [])
  {
  }

  lemma ResolvedChores(a: Shared, ops: seq<Op>, b: Shared, push: seq<Op>)
    requires Quiet(ops) && ops != [] && ResolveExec(a, ops[0], b, push)
    ensures forall op | op in push :: Chore(op)
  {
    assert Chore(ops[0]) by {
      hide Notable, Claimable, FinishResolution;
    }
    ChoreStep(a, ops[0], b, push);
  }

  /** Every step of the worker keeps what its stack keeps. */
  lemma WorkerKeeps(slips: Slips, key: Time, a: Shared, q: A.Quota, ops: seq<Op>, b: Shared, q': A.Quota, push: seq<Op>)
    requires WorkerInv(slips, key, a, q, ops) && ops != [] && OkOp(a, ops[0])
    requires WorkerExec(a, ops[0], b, push) || ResolveExec(a, ops[0], b, push)
    requires Effect(slips, a, q, ops[0], push, q')
    ensures WorkerInv(slips, key, b, q', push + ops[1..])
  {
    hide WorkerExec, ResolveExec, Latched, SoundOps, Unclaimed, Quiet, Settling, Sending, OkOp, Once;
    var op := ops[0];
    ExecSides(a, op, b, push);
    ShapeSides(ops);
    if Sending(ops) {
      SendKeeps(slips, key, a, q, ops, b, push);
    } else if Quiet(ops) {
      ShapeStep(a, ops, b, push);
      QuietUnclaimed(a, ops, b, push);
      QuietLatchedSound(slips, key, a, q, ops, b, q', push);
    } else if op.Claim? {
      ClaimKeeps(slips, key, a, q, ops, b, push);
    } else if op.Report? {
      ReportKeeps(slips, key, a, q, ops, b, q', push);
    } else {
      FinishKeeps(slips, key, a, q, ops, b, push);
    }
  }

  lemma ShapeSides(ops: seq<Op>)
    requires Shape(ops) && ops != []
    ensures Sending(ops) ==> ops[0].Send?
    ensures !Sending(ops) && !Quiet(ops) ==> Settling(ops) && Settler(ops[0])
  {
  }

  // ---------- steps of others ----------

  lemma OtherSides(a: Shared, op: Op, b: Shared, push: seq<Op>)
    requires Exec(a, op, b, push) && (ResolverOp(op) || StopOp(op))
    ensures b.sends == a.sends && (a.stopping ==> b.stopping)
  {
    hide Exec, ResolveExec, WorkerExec, StopSteps, Enumerates;
    ExecOther(a, op, b, push);
    if ResolveExec(a, op, b, push) { ResolveQuietFields(a, op, b, push); }
  }

  lemma OtherUnclaimed(a: Shared, op: Op, b: Shared, push: seq<Op>, jobs: seq<Job>)
    requires Exec(a, op, b, push) && (ResolverOp(op) || StopOp(op)) && Meek(op) && OkOp(a, op) && Unclaimed(a, jobs)
    ensures Unclaimed(b, jobs)
  {
    hide Exec, ResolveExec, StopExec, OkOp, Unclaimed;
    ExecOther(a, op, b, push);
    if ResolveExec(a, op, b, push) { ResolveKeepsUnclaimed(a, op, b, push, jobs); }
    else { StopKeepsUnclaimed(a, op, b, push, jobs); }
  }

  lemma OtherKeeps(slips: Slips, key: Time, a: Shared, q: A.Quota, op: Op, b: Shared, q': A.Quota, push: seq<Op>,
                   ops: seq<Op>)
    requires WorkerInv(slips, key, a, q, ops) && OkOp(a, op)
    requires Exec(a, op, b, push) && (ResolverOp(op) || StopOp(op)) && Meek(op) && Effect(slips, a, q, op, push, q')
    ensures WorkerInv(slips, key, b, q', ops)
  {
    hide Exec, Latched, SoundOps, Unclaimed, Shape, OkOp, Once, Effect, Compatible, Dues;
    OtherSides(a, op, b, push);
    OtherUnclaimed(a, op, b, push, Dues(ops));
    ReportCompatible(slips, key, a, q, op, push, q');
    LatchedKept(slips, key, a, q, b, q', ops);
    SoundAllKept(slips, key, a, q, b, q', ops);
  }

  // ---------- every run ----------

  lemma ActsInv(slips: Slips, key: Time, w: World, t: nat, push: seq<Op>, w': World)
    requires QuotaInv(slips, key, w) && Acts(slips, w, t, push, w') && FullInv(w'.s)
    ensures QuotaInv(slips, key, w')
  {
    var op := w.s.threads[t][0];
    assert Classes(w.s) && |w.s.threads| >= 2;
    MeekStep(w.s, t, push, w'.s);
    ThreadStepExec(w.s, t, push, w'.s);
    TopOk(w.s, t);
    assert op in w.s.threads[t];
    Placement(w.s, t, push, w'.s);
    if t == WORKER {
      WorkerExecs(w.s.sh, op, w'.s.sh, push);
      hide FullInv, Exec, WorkerExec, ResolveExec, WorkerInv, Effect, OkOp, Classes, MeekThreads;
      WorkerKeeps(slips, key, w.s.sh, w.q, w.s.threads[WORKER], w'.s.sh, w'.q, push);
    } else {
      assert (ResolverOp(op) || StopOp(op)) && Meek(op) by { assert Meeks(w.s.threads[t]); }
      hide FullInv, Exec, WorkerInv, Effect, OkOp, Classes, MeekThreads;
      OtherKeeps(slips, key, w.s.sh, w.q, op, w'.s.sh, w'.q, push, w.s.threads[WORKER]);
    }
  }

  lemma TopOk(s: System, t: nat)
    requires FullInv(s) && t < |s.threads| && s.threads[t] != []
    ensures OkOp(s.sh, s.threads[t][0]) && InClass(t, s.threads[t][0])
  {
    hide SharedInv, Duty, StopInv, Pooled, Claimed, LoopInv, Total;
    assert OkOps(s.sh, s.threads[t]) && s.threads[t][0] in s.threads[t];
  }

  lemma Placement(s: System, t: nat, push: seq<Op>, s': System)
    requires |s.threads| >= 2 && ThreadStepWith(s, t, push, s')
    ensures s'.threads[WORKER] == if t == WORKER then push + s.threads[WORKER][1..] else s.threads[WORKER]
  {
    hide Exec, Spawned;
  }

  lemma WorkerExecs(a: Shared, op: Op, b: Shared, push: seq<Op>)
    requires Exec(a, op, b, push) && WorkerOp(op)
    ensures WorkerExec(a, op, b, push) || ResolveExec(a, op, b, push)
  {
    hide WorkerExec, ResolveExec, StopSteps;
  }

  lemma EnqueueKeeps(slips: Slips, key: Time, a: Shared, q: A.Quota, ops: seq<Op>, job: Job, q': A.Quota)
    requires WorkerInv(slips, key, a, q, ops) && Compatible(slips, key, a, q, q')
    ensures WorkerInv(slips, key, Enqueue(a, job), q', ops)
  {
    hide Latched, SoundOps, Shape, Once, Compatible, NoRepeats;
    LatchedKept(slips, key, a, q, Enqueue(a, job), q', ops);
    SoundAllKept(slips, key, a, q, Enqueue(a, job), q', ops);
  }

  lemma SameKeeps(slips: Slips, key: Time, a: Shared, q: A.Quota, ops: seq<Op>, b: Shared, q': A.Quota)
    requires WorkerInv(slips, key, a, q, ops) && Compatible(slips, key, a, q, q')
    requires b.sends == a.sends && b.stopping == a.stopping && b.pendingJobs == a.pendingJobs
      && b.resolving == a.resolving && b.attempted == a.attempted
    ensures WorkerInv(slips, key, b, q', ops)
  {
    hide Latched, SoundOps, Shape, Once, Compatible, NoRepeats;
    LatchedKept(slips, key, a, q, b, q', ops);
    SoundAllKept(slips, key, a, q, b, q', ops);
  }

  lemma AnnouncedAccepted(slips: Slips, key: Time, s: System, notice: Notice)
    requires FullInv(s) && Announced(slips, key, s.sh.sends, notice)
    ensures !NothingQueued(slips, key, s.sh)
  {
    assert SharedInv(s.sh);
    hide FullInv;
    var n :| 0 <= n < |s.sh.sends| && s.sh.sends[n].accepted && Carries(slips, key, s.sh.sends[n], notice);
    assert s.sh.sends[n] in s.sh.sends;
    var j :| j in s.sh.sends[n].jobs && About(slips, key, j, notice);
  }

  lemma PollCompatible(slips: Slips, key: Time, limits: Limits, w: World, e: Event)
    requires FullInv(w.s) && e.Poll? && (Opens(key, limits, w, e) ==> NothingQueued(slips, key, w.s.sh))
    ensures Compatible(slips, key, w.s.sh, w.q, Apply(w.q, e.u, e.now, limits, e.admit).quota)
  {
    hide FullInv, Announced, NothingQueued;
    if Opens(key, limits, w, e) {
      if Announced(slips, key, w.s.sh.sends, Warning) { AnnouncedAccepted(slips, key, w.s, Warning); }
      if Announced(slips, key, w.s.sh.sends, Exhaustion) { AnnouncedAccepted(slips, key, w.s, Exhaustion); }
    }
  }

  lemma PollInv(slips: Slips, key: Time, limits: Limits, w: World, e: Event, w': World)
    requires QuotaInv(slips, key, w) && e.Poll? && Polls(slips, limits, w, e, w') && FullInv(w'.s)
    requires Opens(key, limits, w, e) ==> NothingQueued(slips, key, w.s.sh)
    ensures QuotaInv(slips, key, w')
  {
    PollCompatible(slips, key, limits, w, e);
    hide FullInv, WorkerInv, Compatible, Opens, NothingQueued, Apply, Enqueue;
    var p := Apply(w.q, e.u, e.now, limits, e.admit);
    if p.queued == {} {
      SameKeeps(slips, key, w.s.sh, w.q, w.s.threads[WORKER], w.s.sh, w'.q);
    } else {
      var job :| job in slips && p.queued == {slips[job]} && job !in w.s.sh.accepted
        && w'.s == w.s.(sh := Enqueue(w.s.sh, job));
      EnqueueKeeps(slips, key, w.s.sh, w.q, w.s.threads[WORKER], job, w'.q);
    }
  }

  lemma StartKeeps(slips: Slips, key: Time, a: Shared, q: A.Quota)
    requires WorkerInv(slips, key, a, q, [])
    ensures WorkerInv(slips, key, a, q, [Select])
  {
    hide Once, Announced, Blocked;
    forall notice | Announced(slips, key, a.sends, notice) && !a.stopping ensures Blocked(q, key, notice) {
      assert !Owing(slips, key, [], notice);
    }
    assert Dues([Select]) == [];
  }

  lemma CallsMeek(s: System, s': System)
    requires MeekThreads(s) && CallStep(s, s')
    ensures MeekThreads(s')
  {
    hide Enqueue;
    forall t | 0 <= t < |s'.threads| && t != WORKER ensures Meeks(s'.threads[t]) {
      assert Meeks(s.threads[t]);
    }
  }

  lemma CallsInv(slips: Slips, key: Time, w: World, w': World)
    requires QuotaInv(slips, key, w) && Calls(slips, w, w') && FullInv(w'.s)
    ensures QuotaInv(slips, key, w')
  {
    CallsMeek(w.s, w'.s);
    assert !w.s.sh.started ==> w.s.threads[WORKER] == [];
    CallsWork(slips, key, w, w');
    hide FullInv, WorkerInv, MeekThreads;
  }

  lemma CallsWork(slips: Slips, key: Time, w: World, w': World)
    requires Calls(slips, w, w') && |w.s.threads| >= 2 && (!w.s.sh.started ==> w.s.threads[WORKER] == [])
    requires WorkerInv(slips, key, w.s.sh, w.q, w.s.threads[WORKER])
    ensures |w'.s.threads| >= 2 && WorkerInv(slips, key, w'.s.sh, w'.q, w'.s.threads[WORKER])
  {
    hide WorkerInv, Compatible, Enqueue;
    SameLatches(slips, key, w.s.sh, w.q);
    if job :| job !in w.s.sh.accepted && w'.s == w.s.(sh := Enqueue(w.s.sh, job)) {
      EnqueueKeeps(slips, key, w.s.sh, w.q, w.s.threads[WORKER], job, w'.q);
    } else if w.s.sh.accepting && !w.s.sh.started
              && w'.s == w.s.(sh := w.s.sh.(started := true), threads := w.s.threads[WORKER := [Select]]) {
      StartKeeps(slips, key, w.s.sh, w.q);
      SameKeeps(slips, key, w.s.sh, w.q, [Select], w'.s.sh, w'.q);
    } else {
      assert w'.s.threads[WORKER] == w.s.threads[WORKER];
      SameKeeps(slips, key, w.s.sh, w.q, w.s.threads[WORKER], w'.s.sh, w'.q);
    }
  }

  lemma NextSteps(slips: Slips, limits: Limits, w: World, e: Event, w': World)
    requires Next(slips, limits, w, e, w') && |w.s.threads| >= 2
    ensures w'.s == w.s || Step(w.s, w'.s)
  {
    hide ThreadStepWith, Effect, Apply, Enqueue;
    if e.Poll? {
      if w'.s != w.s {
        var job :| job in slips && job !in w.s.sh.accepted && w'.s == w.s.(sh := Enqueue(w.s.sh, job));
        assert CallStep(w.s, w'.s);
      }
    } else if !Calls(slips, w, w') {
      var t, push :| Acts(slips, w, t, push, w');
      assert ThreadStepWith(w.s, t, push, w'.s);
    }
  }

  lemma NextInv(slips: Slips, key: Time, limits: Limits, w: World, e: Event, w': World)
    requires QuotaInv(slips, key, w) && Next(slips, limits, w, e, w')
    requires Opens(key, limits, w, e) ==> NothingQueued(slips, key, w.s.sh)
    ensures QuotaInv(slips, key, w')
  {
    assert |w.s.threads| >= 2;
    NextSteps(slips, limits, w, e, w');
    hide FullInv, WorkerInv, Polls, Calls, Acts, Step, Opens, MeekThreads;
    if w'.s != w.s { StepFull(w.s, w'.s); }
    if e.Poll? {
      PollInv(slips, key, limits, w, e, w');
    } else if Calls(slips, w, w') {
      CallsInv(slips, key, w, w');
    } else {
      var t, push :| Acts(slips, w, t, push, w');
      ActsInv(slips, key, w, t, push, w');
    }
  }

  lemma InitInvQ(slips: Slips, key: Time, w: World)
    requires Init(w.s)
    ensures QuotaInv(slips, key, w)
  {
    hide FullInv;
    InitFull(w.s);
  }

  lemma {:induction false} RunsInv(slips: Slips, key: Time, limits: Limits, worlds: seq<World>, events: seq<Event>,
                                   k: nat)
    requires Runs(slips, key, limits, worlds, events) && k < |worlds|
    ensures QuotaInv(slips, key, worlds[k])
  {
    if k == 0 {
      InitInvQ(slips, key, worlds[0]);
    } else {
      RunsInv(slips, key, limits, worlds, events, k - 1);
      hide QuotaInv, Next, Opens, NothingQueued;
      NextInv(slips, key, limits, worlds[k - 1], events[k - 1], worlds[k]);
    }
  }

  // ---------- the guarantees ----------

  /** However many notices for the account are queued at once, at most one message with its warning is
      accepted per window, and at most one with its exhaustion; after an accepted exhaustion no
      warning is even sent. */
  lemma OneNoticePerWindow(slips: Slips, key: Time, limits: Limits, worlds: seq<World>, events: seq<Event>,
                           k: nat, m: nat, n: nat, notice: Notice)
    requires Runs(slips, key, limits, worlds, events) && k < |worlds|
    requires m < n < |worlds[k].s.sh.sends|
    requires worlds[k].s.sh.sends[m].accepted && Carries(slips, key, worlds[k].s.sh.sends[m], notice)
    ensures !Carries(slips, key, worlds[k].s.sh.sends[n], notice)
    ensures notice.Exhaustion? ==> !Carries(slips, key, worlds[k].s.sh.sends[n], Warning)
  {
    hide Runs, FullInv, Shape, Latched, SoundOps, Unclaimed, Carries;
    RunsInv(slips, key, limits, worlds, events, k);
    var sends := worlds[k].s.sh.sends;
    assert Apart(slips, key, sends[m], sends[n]);
  }

  /** A usage notice goes out only while it is still wanted: at the moment of the send its window has
      moved on, or neither latch that would suppress it is set. */
  lemma SentNoticeIsWanted(slips: Slips, key: Time, limits: Limits, worlds: seq<World>, events: seq<Event>,
                           k: nat, jobs: seq<Job>, j: Job)
    requires Runs(slips, key, limits, worlds, events) && k < |worlds|
    requires |worlds[k].s.threads| >= 2 && worlds[k].s.threads[WORKER] != []
      && worlds[k].s.threads[WORKER][0] == Send(jobs)
    requires j in jobs && j in slips && slips[j].windowKey == key
    ensures worlds[k].q.windowKey == key ==> StillWanted(worlds[k].q, slips[j])
  {
    hide Runs, FullInv, Shape, Latched, Unclaimed, Once, Novel, MeekThreads;
    RunsInv(slips, key, limits, worlds, events, k);
    var w := worlds[k];
    assert w.s.threads[WORKER][0] in w.s.threads[WORKER];
    assert Sound(slips, key, w.s.sh, w.q, Send(jobs));
  }
}
