/** How a batch becomes messages: what is sent together is of one kind and fits, and what could have been
    sent together is not sent apart. */
module DispatchPlans {
  import opened Coalesce
  import opened Dispatch
  import opened DispatchSafety
  import opened DispatchStop
  import opened DispatchTheorems
  import Dispatchers

  const MAX_BATCH: nat := 32

  ghost predicate Alike(jobs: seq<Job>) {
    forall a, b | a in jobs && b in jobs :: SameKey(a, b)
  }

  ghost predicate Fitting(jobs: seq<Job>) {
    |jobs| > 1 ==> Fits(jobs)
  }

  /** What may go out as one message. */
  ghost predicate OneMessage(jobs: seq<Job>) {
    0 < |jobs| <= MAX_BATCH && Alike(jobs) && Fitting(jobs)
  }

  /** None of the jobs belongs to one of the groups. */
  ghost predicate Away(jobs: seq<Job>, groups: seq<seq<Job>>) {
    forall j, x | j in jobs && x in Flatten(groups) :: !SameKey(j, x)
  }

  /** Groups yet to come: each of one kind, no two of the same. */
  ghost predicate GroupsPlan(groups: seq<seq<Job>>) {
    groups == [] ||
    (groups[0] != [] && Alike(groups[0]) && Away(groups[0], groups[1..]) && GroupsPlan(groups[1..]))
  }

  /** The messages of one group: each fits, and none has room for the first job of the next. */
  ghost predicate MessagesPlan(messages: seq<seq<Job>>) {
    && Alike(Flatten(messages)) && Tight(messages)
    && forall m | m in messages :: m != [] && Fitting(m)
  }

  /** Everything of a batch is at most one batch, so everything in hand is. */
  ghost predicate ContPlan(jobs: seq<Job>, cont: Cont) {
    match cont
    case AfterCollect => |jobs| <= MAX_BATCH
    case AfterGroup(rest) =>
      && |jobs| + |Flatten(rest)| <= MAX_BATCH && Alike(jobs) && Away(jobs, rest) && GroupsPlan(rest)
    case AfterMessage(more, rest) =>
      && |jobs| + |Flatten(more)| + |Flatten(rest)| <= MAX_BATCH && Fitting(jobs) && Alike(jobs + Flatten(more))
      && Away(jobs + Flatten(more), rest) && MessagesPlan(more) && GroupsPlan(rest)
  }

  ghost predicate Plan(op: Op) {
    match op
    case Collect(batch) => 0 < |batch| < MAX_BATCH
    case Scan(todo, kept, cont) => ContPlan(kept + todo, cont)
    case CallValid(job, todo, kept, cont) => ContPlan(kept + ([job] + todo), cont)
    case Groups(groups) => |Flatten(groups)| <= MAX_BATCH && GroupsPlan(groups)
    case Messages(messages, rest) =>
      && |Flatten(messages)| + |Flatten(rest)| <= MAX_BATCH
      && MessagesPlan(messages) && Away(Flatten(messages), rest) && GroupsPlan(rest)
    case Mark(jobs, more, rest) => jobs != [] && ContPlan(jobs, AfterMessage(more, rest))
    case Send(jobs) => OneMessage(jobs)
    case _ => true
  }

  ghost predicate Plans(ops: seq<Op>) {
    forall op | op in ops :: Plan(op)
  }

  // ---------- leaving out a job ----------

  lemma {:induction false} ExtendBoth(a: seq<Job>, b: seq<Job>, tail: seq<Job>)
    requires Subsequence(a, b)
    ensures Subsequence(a + tail, b + tail)
    decreases |tail|
  {
    if tail == [] {
      assert a + tail == a && b + tail == b;
    } else {
      var n := |tail| - 1;
      ExtendBoth(a, b, tail[..n]);
      assert (a + tail)[..|a + tail| - 1] == a + tail[..n];
      assert (b + tail)[..|b + tail| - 1] == b + tail[..n];
    }
  }

  lemma LeaveOut(kept: seq<Job>, job: Job, todo: seq<Job>)
    ensures Subsequence(kept + todo, kept + ([job] + todo))
  {
    SubsequenceSelf(kept);
    assert (kept + [job])[..|kept|] == kept;
    assert Subsequence(kept, kept + [job]);
    ExtendBoth(kept, kept + [job], todo);
    assert (kept + [job]) + todo == kept + ([job] + todo);
  }

  lemma FewerPlan(kept: seq<Job>, job: Job, todo: seq<Job>, cont: Cont)
    requires ContPlan(kept + ([job] + todo), cont)
    ensures ContPlan(kept + todo, cont)
  {
    hide Fits, GroupsPlan, MessagesPlan, SameKey;
    LeaveOut(kept, job, todo);
    var few, all := kept + todo, kept + ([job] + todo);
    assert forall j | j in few :: j in all;
    if cont.AfterMessage? && |few| > 1 {
      FitsShrinks(few, all);
    }
  }

  // ---------- grouping and splitting ----------

  lemma {:induction false} GroupsApart(groups: seq<seq<Job>>)
    requires forall g | g in groups :: Dispatchers.OfOneKey(g)
    requires forall i, k | 0 <= i < k < |groups| :: Dispatchers.KeysDiffer(groups[i], groups[k])
    ensures GroupsPlan(groups)
  {
    if groups != [] {
      var first, rest := groups[0], groups[1..];
      assert first in groups && Dispatchers.OfOneKey(first);
      forall g | g in rest ensures Dispatchers.OfOneKey(g) { assert g in groups; }
      forall i, k | 0 <= i < k < |rest| ensures Dispatchers.KeysDiffer(rest[i], rest[k]) {
        assert rest[i] == groups[i + 1] && rest[k] == groups[k + 1];
      }
      GroupsApart(rest);
      forall j, x | j in first && x in Flatten(rest) ensures !SameKey(j, x) {
        var k := PlaceIn(rest, x);
        assert rest[k] == groups[k + 1] && Dispatchers.KeysDiffer(groups[0], groups[k + 1]);
        assert rest[k] in rest && Dispatchers.OfOneKey(rest[k]);
      }
    }
  }

  lemma {:induction false} PlaceIn(groups: seq<seq<Job>>, x: Job) returns (k: nat)
    requires x in Flatten(groups)
    ensures k < |groups| && x in groups[k]
  {
    if x in groups[0] {
      k := 0;
    } else {
      k := PlaceIn(groups[1..], x);
      k := k + 1;
    }
  }

  lemma GroupedPlan(kept: seq<Job>)
    ensures GroupsPlan(GroupByKey(kept)) && |Flatten(GroupByKey(kept))| == |kept|
  {
    hide GroupByKey;
    Dispatchers.GroupsByKind(kept);
    GroupsApart(GroupByKey(kept));
    GroupingKeepsJobs(kept);
    assert |multiset(Flatten(GroupByKey(kept)))| == |multiset(kept)|;
  }

  lemma SplitPlan(kept: seq<Job>)
    requires kept != [] && Alike(kept)
    ensures var messages := if |kept| > 1 then Split(kept) else [kept];
      MessagesPlan(messages) && Flatten(messages) == kept
  {
    hide Split, Fits, SameKey;
    FlattenSplit(kept);
    if |kept| > 1 {
      SplitPartitions(kept);
      SplitIsTight(kept);
    }
  }

  lemma ResumePlan(kept: seq<Job>, cont: Cont)
    requires ContPlan(kept, cont)
    ensures Plan(Resume(kept, cont))
  {
    hide Split, GroupByKey, Fits, SameKey, GroupsPlan, MessagesPlan;
    match cont
    case AfterCollect => GroupedPlan(kept);
    case AfterGroup(rest) => if kept != [] { SplitPlan(kept); }
    case AfterMessage(more, rest) =>
      if kept == [] { assert kept + Flatten(more) == Flatten(more); }
  }

  // ---------- the worker's steps ----------

  lemma ScanPlan(a: Shared, todo: seq<Job>, kept: seq<Job>, cont: Cont)
    requires ContPlan(kept + todo, cont)
    ensures Plan(ScanNext(a, todo, kept, cont))
  {
    hide ContPlan, Resume;
    if todo == [] {
      assert kept + todo == kept;
      ResumePlan(kept, cont);
      ResumeSilent(kept, cont);
    } else {
      assert todo == [todo[0]] + todo[1..];
      FewerPlan(kept, todo[0], todo[1..], cont);
    }
  }

  lemma ValidPlan(job: Job, todo: seq<Job>, kept: seq<Job>, cont: Cont, push: seq<Op>)
    requires ContPlan(kept + ([job] + todo), cont) && ValidStep(job, todo, kept, cont, push)
    ensures Plans(push)
  {
    hide ContPlan;
    assert kept + ([job] + todo) == (kept + [job]) + todo;
    FewerPlan(kept, job, todo, cont);
  }

  lemma GroupsNextPlan(a: Shared, groups: seq<seq<Job>>)
    requires Plan(Groups(groups))
    ensures Plans(GroupsNext(a, groups))
  {
    hide Strand, SameKey;
    StrandOps(Flatten(groups));
    if groups != [] {
      assert [] + groups[0] == groups[0];
    }
  }

  lemma HeadMessage(messages: seq<seq<Job>>)
    requires MessagesPlan(messages) && messages != []
    ensures messages[0] != [] && Fitting(messages[0]) && MessagesPlan(messages[1..])
    ensures Flatten(messages) == messages[0] + Flatten(messages[1..]) && Alike(Flatten(messages))
  {
    hide Fits, SameKey;
    var first, rest := messages[0], messages[1..];
    assert first in messages;
    forall m | m in rest ensures m != [] && Fitting(m) { assert m in messages; }
    forall i, k | 0 <= i < k < |rest| && k == i + 1 ensures NoRoom(rest[i], rest[k]) {
      assert rest[i] == messages[i + 1] && rest[k] == messages[k + 1];
    }
  }

  lemma MessagesNextPlan(a: Shared, messages: seq<seq<Job>>, rest: seq<seq<Job>>)
    requires Plan(Messages(messages, rest))
    ensures Plans(MessagesNext(a, messages, rest))
  {
    hide Strand, Fits, SameKey, MessagesPlan, GroupsPlan;
    StrandOps(Flatten(messages));
    StrandOps(Flatten(rest));
    if messages != [] {
      HeadMessage(messages);
      assert [] + messages[0] == messages[0];
    }
  }

  lemma {:induction false} ExtendRight(a: seq<Job>, b: seq<Job>, tail: seq<Job>)
    requires Subsequence(a, b)
    ensures Subsequence(a, b + tail)
    decreases |tail|
  {
    if tail == [] {
      assert b + tail == b;
    } else {
      var n := |tail| - 1;
      ExtendRight(a, b, tail[..n]);
      assert (b + tail)[..|b + tail| - 1] == b + tail[..n];
    }
  }

  /** What is marked of the rest, behind what was kept of the front. */
  lemma {:induction false} MarkedAfter(sh: Shared, jobs: seq<Job>, kept: seq<Job>, front: seq<Job>)
    requires Subsequence(kept, front)
    ensures Subsequence(kept + MarkAttempted(sh, jobs), front + jobs)
    decreases |jobs|
  {
    hide Subsequence;
    if jobs == [] || sh.stopping {
      assert kept + [] == kept;
      ExtendRight(kept, front, jobs);
    } else {
      assert (front + [jobs[0]]) + jobs[1..] == front + jobs;
      if Markable(sh, jobs[0]) {
        var next := sh.(attempted := sh.attempted + {jobs[0]});
        ExtendBoth(kept, front, [jobs[0]]);
        MarkedAfter(next, jobs[1..], kept + [jobs[0]], front + [jobs[0]]);
        assert kept + ([jobs[0]] + MarkAttempted(next, jobs[1..]))
            == (kept + [jobs[0]]) + MarkAttempted(next, jobs[1..]);
      } else {
        ExtendRight(kept, front, [jobs[0]]);
        MarkedAfter(sh, jobs[1..], kept, front + [jobs[0]]);
      }
    }
  }

  lemma MarkedPart(sh: Shared, jobs: seq<Job>)
    ensures Subsequence(MarkAttempted(sh, jobs), jobs) && |MarkAttempted(sh, jobs)| <= |jobs|
    ensures forall j | j in MarkAttempted(sh, jobs) :: j in jobs
  {
    hide MarkAttempted, Subsequence;
    SubsequenceSelf([]);
    MarkedAfter(sh, jobs, [], []);
    assert [] + MarkAttempted(sh, jobs) == MarkAttempted(sh, jobs) && [] + jobs == jobs;
    MarkedJobs(sh, jobs);
    SubsequenceLines(MarkAttempted(sh, jobs), jobs);
  }

  lemma MarkPlan(a: Shared, jobs: seq<Job>, more: seq<seq<Job>>, rest: seq<seq<Job>>)
    requires Plan(Mark(jobs, more, rest))
    ensures Plans(MarkNext(MarkAttempted(a, jobs), more, rest))
  {
    hide MarkAttempted, Fits, SameKey, MessagesPlan, GroupsPlan, Subsequence;
    MarkedPart(a, jobs);
    var marked := MarkAttempted(a, jobs);
    if |marked| > 1 {
      FitsShrinks(marked, jobs);
    }
    assert forall j | j in jobs :: j in jobs + Flatten(more);
  }

  lemma BatchPlan(a: Shared, op: Op, b: Shared, push: seq<Op>)
    requires WorkerExec(a, op, b, push) && Batching(op) && Plan(op)
    ensures Plans(push)
  {
    hide ScanNext, ValidStep, GroupsNext, MessagesNext, MarkNext, MarkAttempted, ContPlan, MessagesPlan, GroupsPlan,
      Away, OneMessage;
    match op {
      case Scan(todo, kept, cont) => ScanPlan(a, todo, kept, cont);
      case CallValid(job, todo, kept, cont) => ValidPlan(job, todo, kept, cont, push);
      case Groups(groups) => GroupsNextPlan(a, groups);
      case Messages(messages, rest) => MessagesNextPlan(a, messages, rest);
      case Mark(jobs, more, rest) => MarkPlan(a, jobs, more, rest);
    }
  }

  lemma CollectPlan(a: Shared, batch: seq<Job>, b: Shared, push: seq<Op>)
    requires CollectStep(a, batch, b, push) && 0 < |batch| < MAX_BATCH
    ensures Plans(push)
  {
    hide Strand, OneMessage;
    StrandOps(batch);
    assert [] + batch == batch;
    if a.queue != [] { assert [] + (batch + [a.queue[0]]) == batch + [a.queue[0]]; }
  }

  lemma LoopPlan(a: Shared, op: Op, b: Shared, push: seq<Op>)
    requires WorkerExec(a, op, b, push) && !Batching(op) && Plan(op)
    ensures Plans(push)
  {
    hide Strand, Settle, Enumerates, OneMessage, CollectStep;
    match op {
      case Collect(batch) => CollectPlan(a, batch, b, push);
      case Send(jobs) =>
        var ok :| b == a.(sends := a.sends + [SendRecord(jobs, ok)]) && push == Settle(jobs, ok);
        SettleOps(jobs, ok);
      case AbandonUnattempted =>
        var order :| Enumerates(order, a.pendingJobs - a.attempted) && push == Strand(order);
        StrandOps(order);
      case _ =>
    }
  }

  /** Steps that plan nothing. */
  predicate Unplanned(op: Op) {
    !Batching(op) && !op.Collect? && !op.Send?
  }

  lemma ResolveUnplanned(a: Shared, op: Op, b: Shared, push: seq<Op>)
    requires ResolveExec(a, op, b, push)
    ensures b.sends == a.sends && forall x | x in push :: Unplanned(x)
  {
    hide ResolveExec;
    ResolveLeadsOn(a, op, b, push);
  }

  lemma UnplannedPlans(ops: seq<Op>)
    requires forall x | x in ops :: Unplanned(x)
    ensures Plans(ops)
  {
  }

  ghost predicate SendsPlanned(sends: seq<SendRecord>) {
    forall n | 0 <= n < |sends| :: OneMessage(sends[n].jobs)
  }

  lemma PlannedSend(a: Shared, op: Op, b: Shared, push: seq<Op>)
    requires WorkerExec(a, op, b, push) && Plan(op) && op.Send? && SendsPlanned(a.sends)
    ensures SendsPlanned(b.sends)
  {
    hide Settle, OneMessage;
  }

  /** The worker's own step follows its plan. */
  lemma WorkerPlans(a: Shared, op: Op, rest: seq<Op>, b: Shared, push: seq<Op>)
    requires Plans([op] + rest) && SendsPlanned(a.sends) && (WorkerExec(a, op, b, push) || ResolveExec(a, op, b, push))
    ensures Plans(push + rest) && SendsPlanned(b.sends)
  {
    hide WorkerExec, ResolveExec, Plan, OneMessage, Unplanned;
    assert op in [op] + rest;
    forall x | x in rest ensures Plan(x) { assert x in [op] + rest; }
    if WorkerExec(a, op, b, push) {
      if Batching(op) { BatchPlan(a, op, b, push); } else { LoopPlan(a, op, b, push); }
      WorkerSends(a, op, b, push);
      if op.Send? { PlannedSend(a, op, b, push); }
    } else {
      ResolveUnplanned(a, op, b, push);
      UnplannedPlans(push);
    }
  }

  lemma WorkerSends(a: Shared, op: Op, b: Shared, push: seq<Op>)
    requires WorkerExec(a, op, b, push)
    ensures !op.Send? ==> b.sends == a.sends
  {
    hide *;
    if Batching(op) { BatchSends(a, op, b, push); } else if !op.Send? { LoopSends(a, op, b, push); }
  }

  lemma BatchSends(a: Shared, op: Op, b: Shared, push: seq<Op>)
    requires WorkerExec(a, op, b, push) && Batching(op)
    ensures b.sends == a.sends
  {
    hide ScanNext, ValidStep, GroupsNext, MessagesNext, MarkNext, MarkAttempted;
  }

  lemma LoopSends(a: Shared, op: Op, b: Shared, push: seq<Op>)
    requires WorkerExec(a, op, b, push) && !Batching(op) && !op.Send?
    ensures b.sends == a.sends
  {
    if op.Collect? {
      hide Deliver, Strand;
    } else {
      hide Strand, CollectStep, AbandonStep;
    }
  }

  // ---------- every run ----------

  ghost predicate Planned(s: System) {
    |s.threads| >= 2 && Plans(s.threads[WORKER]) && SendsPlanned(s.sh.sends)
  }

  lemma OthersSendNothing(a: Shared, op: Op, b: Shared, push: seq<Op>, t: nat)
    requires Exec(a, op, b, push) && InClass(t, op) && t != WORKER
    ensures b.sends == a.sends
  {
    hide WorkerExec, ResolveExec, StopExec, Unplanned;
    if WorkerExec(a, op, b, push) {
      WorkerKind(a, op, b, push);
      WorkerSends(a, op, b, push);
    } else if ResolveExec(a, op, b, push) {
      ResolveUnplanned(a, op, b, push);
    } else {
      StopFields(a, op, b, push);
    }
  }

  lemma ThreadStepPlans(s: System, t: nat, push: seq<Op>, s': System)
    requires Classes(s) && Planned(s) && ThreadStepWith(s, t, push, s')
    ensures Planned(s')
  {
    Placed(s, t, push, s');
    var op, rest := s.threads[t][0], s.threads[t][1..];
    assert InClass(t, op) && s.threads[t] == [op] + rest;
    hide Classes, Exec, ThreadStepWith, Spawned, Plan, OneMessage;
    ThreadStepExec(s, t, push, s');
    if t == WORKER {
      WorkerSide(s.sh, op, s'.sh, push);
      WorkerPlans(s.sh, op, rest, s'.sh, push);
    } else {
      OthersSendNothing(s.sh, op, s'.sh, push, t);
    }
  }

  lemma CallPlans(s: System, s': System)
    requires Planned(s) && CallStep(s, s')
    ensures Planned(s')
  {
    hide OneMessage;
  }

  lemma {:induction false} RunPlans(states: seq<System>, k: nat)
    requires Run(states) && k < |states|
    ensures Planned(states[k])
  {
    hide FullInv, Planned, ThreadStepWith, CallStep;
    if k == 0 {
      InitPlans(states[0]);
    } else {
      RunPlans(states, k - 1);
      RunFull(states, k - 1);
      FullClasses(states[k - 1]);
      assert Step(states[k - 1], states[k - 1 + 1]);
      if CallStep(states[k - 1], states[k]) {
        CallPlans(states[k - 1], states[k]);
      } else {
        var t, push :| ThreadStepWith(states[k - 1], t, push, states[k]);
        ThreadStepPlans(states[k - 1], t, push, states[k]);
      }
    }
  }

  lemma FullClasses(s: System)
    requires FullInv(s)
    ensures Classes(s)
  {
  }

  lemma InitPlans(s: System)
    requires Init(s)
    ensures Planned(s)
  {
  }

  // ---------- what this means ----------

  /** Before anything is done about a job, the worker asks whether it is still wanted; it asks of every job
      that is pending and not being resolved, in order, and passes over every other. */
  lemma LiveJobsAreAsked(s: System, push: seq<Op>, s': System)
    requires ThreadStepWith(s, WORKER, push, s') && s.threads[WORKER][0].Scan? && s.threads[WORKER][0].todo != []
    ensures var scan, next := s.threads[WORKER][0], s'.threads[WORKER][0];
      && s'.sh == s.sh
      && if scan.todo[0] in s.sh.pendingJobs && scan.todo[0] !in s.sh.resolving
         then next == CallValid(scan.todo[0], scan.todo[1..], scan.kept, scan.cont)
         else next == Scan(scan.todo[1..], scan.kept, scan.cont)
  {
    var op, rest := s.threads[WORKER][0], s.threads[WORKER][1..];
    ScanAsks(s.sh, op, s'.sh, push);
    hide WorkerExec, ResolveExec, StopExec, ScanNext;
    assert s'.threads[WORKER] == push + rest;
  }

  lemma ScanAsks(a: Shared, op: Op, b: Shared, push: seq<Op>)
    requires Exec(a, op, b, push) && op.Scan?
    ensures b == a && push == [ScanNext(a, op.todo, op.kept, op.cont)]
  {
    hide ScanNext;
  }

  /** What is sent together: one to 32 jobs of one kind and priority, and if more than one, with a body
      within the bound. */
  lemma SentTogether(states: seq<System>, k: nat, n: nat)
    requires Run(states) && k < |states| && n < |states[k].sh.sends|
    ensures var jobs := states[k].sh.sends[n].jobs;
      && 0 < |jobs| <= 32 && (|jobs| > 1 ==> |Body(jobs)| <= 1024)
      && forall a, b | a in jobs && b in jobs ::
           a.message.kind == b.message.kind && a.message.priority == b.message.priority
  {
    RunPlans(states, k);
    assert OneMessage(states[k].sh.sends[n].jobs);
    hide Run, Plans, Body;
  }

  /** What is not sent apart: the messages the worker still has to send of a group have no room for one
      another, and the groups to come are of other kinds. */
  lemma NotSentApart(states: seq<System>, k: nat, i: nat)
    requires Run(states) && k < |states| && |states[k].threads| >= 2 && i < |states[k].threads[WORKER]|
    requires states[k].threads[WORKER][i].Messages?
    ensures var op := states[k].threads[WORKER][i];
      && Tight(op.messages) && Alike(Flatten(op.messages)) && Away(Flatten(op.messages), op.rest)
      && GroupsPlan(op.rest)
  {
    hide Run, OneMessage, GroupsPlan, Tight, Alike, Away, Fitting;
    RunPlans(states, k);
    assert states[k].threads[WORKER][i] in states[k].threads[WORKER];
    assert Plan(states[k].threads[WORKER][i]);
  }

  /** A batch is taken to its messages as soon as it holds 32 jobs. */
  lemma BatchesAreBounded(states: seq<System>, k: nat, i: nat)
    requires Run(states) && k < |states| && |states[k].threads| >= 2 && i < |states[k].threads[WORKER]|
    ensures var op := states[k].threads[WORKER][i]; op.Collect? ==> 0 < |op.batch| < MAX_BATCH
  {
    hide Run, OneMessage, GroupsPlan, Tight, Alike, Away, Fitting;
    RunPlans(states, k);
    assert states[k].threads[WORKER][i] in states[k].threads[WORKER];
    assert Plan(states[k].threads[WORKER][i]);
  }
}
