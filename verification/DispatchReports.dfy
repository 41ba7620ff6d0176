/** Every attempted job is sent exactly once, and called back exactly once with what became of its send. */
module DispatchReports {
  import opened Coalesce
  import opened Dispatch
  import opened DispatchSafety
  import opened DispatchStop
  import opened DispatchTheorems

  // ---------- what a step says ----------

  /** Some message that carried the job had this outcome. */
  ghost predicate SaidSo(sends: seq<SendRecord>, j: Job, ok: bool) {
    exists n :: 0 <= n < |sends| && j in sends[n].jobs && sends[n].accepted == ok
  }

  ghost predicate SentIn(sends: seq<SendRecord>, j: Job) {
    exists n :: 0 <= n < |sends| && j in sends[n].jobs
  }

  /** A step about a delivered job says what became of its message. */
  ghost predicate Tale(sends: seq<SendRecord>, op: Op) {
    && (op.Claim? && op.claimant.Sent? ==> SaidSo(sends, op.job, op.claimant.accepted))
    && (op.Report? && op.outcome.Delivered? ==> SaidSo(sends, op.job, op.outcome.accepted))
  }

  ghost predicate Tales(sends: seq<SendRecord>, ops: seq<Op>) {
    forall op | op in ops :: Tale(sends, op)
  }

  /** A callback, or the check before it, is on top and followed by the end of the same resolution. */
  ghost predicate Paired(ops: seq<Op>) {
    forall i | 0 <= i < |ops| && (ops[i].Recheck? || ops[i].Report?) ::
      i == 0 && |ops| > 1 && ops[1] == Finish(ops[0].job)
  }

  lemma TaleGrows(a: seq<SendRecord>, b: seq<SendRecord>, op: Op)
    requires Tale(a, op) && a <= b
    ensures Tale(b, op)
  {
    if op.Claim? && op.claimant.Sent? {
      var n :| 0 <= n < |a| && op.job in a[n].jobs && a[n].accepted == op.claimant.accepted;
      assert b[n] == a[n];
    }
    if op.Report? && op.outcome.Delivered? {
      var n :| 0 <= n < |a| && op.job in a[n].jobs && a[n].accepted == op.outcome.accepted;
      assert b[n] == a[n];
    }
  }

  /** Steps that say nothing about a delivery. */
  predicate Mute(op: Op) {
    !(op.Claim? && op.claimant.Sent?) && !op.Recheck? && !op.Report?
  }

  lemma WorkerMute(a: Shared, op: Op, b: Shared, push: seq<Op>)
    requires WorkerExec(a, op, b, push) && !op.Send?
    ensures forall x | x in push :: Mute(x)
  {
    hide *;
    if Batching(op) {
      BatchMute(a, op, b, push);
    } else {
      LoopMute(a, op, b, push);
    }
  }

  lemma BatchMute(a: Shared, op: Op, b: Shared, push: seq<Op>)
    requires WorkerExec(a, op, b, push) && Batching(op)
    ensures forall x | x in push :: Mute(x)
  {
    hide Strand, Flatten, MarkAttempted, Resume;
    match op {
      case Scan(todo, kept, cont) => ResumeSilent(kept, cont);
      case Groups(groups) => StrandOps(Flatten(groups));
      case Messages(messages, rest) => StrandOps(Flatten(messages)); StrandOps(Flatten(rest));
      case _ =>
    }
  }

  lemma LoopMute(a: Shared, op: Op, b: Shared, push: seq<Op>)
    requires WorkerExec(a, op, b, push) && !Batching(op) && !op.Send?
    ensures forall x | x in push :: Mute(x)
  {
    hide Strand, Enumerates;
    match op {
      case Collect(batch) => StrandOps(batch);
      case AbandonUnattempted =>
        var order :| Enumerates(order, a.pendingJobs - a.attempted) && push == Strand(order);
        StrandOps(order);
      case _ =>
    }
  }

  lemma SendTells(a: Shared, op: Op, b: Shared, push: seq<Op>)
    requires WorkerExec(a, op, b, push) && op.Send?
    ensures Tales(b.sends, push) && forall x | x in push :: !x.Recheck? && !x.Report?
  {
    hide Settle;
    var ok :| b == a.(sends := a.sends + [SendRecord(op.jobs, ok)]) && push == Settle(op.jobs, ok);
    SettleOps(op.jobs, ok);
    assert b.sends[|a.sends|] == SendRecord(op.jobs, ok);
  }

  lemma ResolveTells(a: Shared, op: Op, b: Shared, push: seq<Op>)
    requires ResolveExec(a, op, b, push) && Tale(a.sends, op) && OkOp(a, op)
    ensures Tales(b.sends, push)
  {
    hide Notable, SaidSo, SentIn, FinishResolution, Claimable;
    ResolveLeadsOn(a, op, b, push);
  }

  lemma StopMute(a: Shared, op: Op, b: Shared, push: seq<Op>)
    requires StopExec(a, op, b, push)
    ensures forall x | x in push :: Mute(x)
  {
    hide StopSteps, Enumerates;
    if op.MarkStopping? {
      var order :| Enumerates(order, a.pendingJobs - a.attempted)
        && b == a.(stopping := true, noted := a.noted + (set j | j in order)) && push == StopSteps(a, order, op.join);
      StopStepsOps(a, order, op.join);
    }
  }

  lemma MuteTells(sends: seq<SendRecord>, push: seq<Op>)
    requires forall x | x in push :: Mute(x)
    ensures Tales(sends, push)
  {
    hide SaidSo;
  }

  lemma PushTells(a: Shared, op: Op, b: Shared, push: seq<Op>)
    requires Exec(a, op, b, push) && Tale(a.sends, op) && OkOp(a, op)
    ensures Tales(b.sends, push)
  {
    hide WorkerExec, ResolveExec, StopExec, Tale, Tales, OkOp, Mute;
    if WorkerExec(a, op, b, push) {
      if op.Send? {
        SendTells(a, op, b, push);
      } else {
        WorkerMute(a, op, b, push);
        MuteTells(b.sends, push);
      }
    } else if ResolveExec(a, op, b, push) {
      ResolveTells(a, op, b, push);
    } else {
      StopMute(a, op, b, push);
      MuteTells(b.sends, push);
    }
  }

  // ---------- callbacks come in pairs with the end of a resolution ----------

  lemma PlainPaired(push: seq<Op>, rest: seq<Op>)
    requires forall x | x in push :: !x.Recheck? && !x.Report?
    requires forall i | 0 <= i < |rest| :: !rest[i].Recheck? && !rest[i].Report?
    ensures Paired(push + rest)
  {
    var all := push + rest;
    forall i | 0 <= i < |all| ensures !all[i].Recheck? && !all[i].Report? {
      if i < |push| { assert all[i] == push[i]; } else { assert all[i] == rest[i - |push|]; }
    }
  }

  lemma RestSilent(op: Op, rest: seq<Op>)
    requires Paired([op] + rest)
    ensures forall i | 0 <= i < |rest| :: !rest[i].Recheck? && !rest[i].Report?
    ensures op.Recheck? || op.Report? ==> rest != [] && rest[0] == Finish(op.job)
  {
    var all := [op] + rest;
    assert all[0] == op;
    forall i | 0 <= i < |rest| ensures !rest[i].Recheck? && !rest[i].Report? {
      assert all[i + 1] == rest[i];
    }
    if op.Recheck? || op.Report? {
      assert all[1] == rest[0];
    }
  }

  lemma ResolvePaired(a: Shared, op: Op, rest: seq<Op>, b: Shared, push: seq<Op>)
    requires ResolveExec(a, op, b, push) && Paired([op] + rest)
    ensures Paired(push + rest)
  {
    hide Notable, FinishResolution;
    RestSilent(op, rest);
    if op.Claim? || op.Recheck? {
      var all := push + rest;
      assert forall i | |push| <= i < |all| :: all[i] == rest[i - |push|];
    } else {
      PlainPaired(push, rest);
    }
  }

  lemma PushPaired(a: Shared, op: Op, rest: seq<Op>, b: Shared, push: seq<Op>)
    requires Exec(a, op, b, push) && Paired([op] + rest)
    ensures Paired(push + rest)
  {
    hide WorkerExec, ResolveExec, StopExec, Paired, Tales;
    RestSilent(op, rest);
    if ResolveExec(a, op, b, push) {
      ResolvePaired(a, op, rest, b, push);
    } else {
      if WorkerExec(a, op, b, push) {
        if op.Send? { SendTells(a, op, b, push); } else { WorkerMute(a, op, b, push); }
      } else {
        StopMute(a, op, b, push);
      }
      PlainPaired(push, rest);
    }
  }

  // ---------- every attempted job is sent once ----------

  function AllSent(sends: seq<SendRecord>): multiset<Job> {
    if sends == [] then multiset{} else AllSent(sends[..|sends| - 1]) + multiset(sends[|sends| - 1].jobs)
  }

  /** What the worker has marked and is about to send. */
  function Sending(ops: seq<Op>): multiset<Job> {
    if ops == [] then multiset{}
    else (if ops[0].Send? then multiset(ops[0].jobs) else multiset{}) + Sending(ops[1..])
  }

  lemma {:induction false} SendingAppend(a: seq<Op>, b: seq<Op>)
    ensures Sending(a + b) == Sending(a) + Sending(b)
  {
    if a == [] {
      assert a + b == b;
    } else {
      assert (a + b)[1..] == a[1..] + b;
      SendingAppend(a[1..], b);
    }
  }

  lemma {:induction false} SendingNothing(ops: seq<Op>)
    requires forall op | op in ops :: !op.Send?
    ensures Sending(ops) == multiset{}
  {
    if ops != [] {
      SendingNothing(ops[1..]);
    }
  }

  lemma {:induction false} SentSome(sends: seq<SendRecord>, j: Job)
    ensures AllSent(sends)[j] > 0 <==> SentIn(sends, j)
  {
    if sends != [] {
      var front, last := sends[..|sends| - 1], sends[|sends| - 1];
      SentSome(front, j);
      if SentIn(front, j) {
        var n :| 0 <= n < |front| && j in front[n].jobs;
        assert sends[n] == front[n];
      }
      if SentIn(sends, j) && j !in last.jobs {
        var n :| 0 <= n < |sends| && j in sends[n].jobs;
        assert front[n] == sends[n];
      }
      assert j in last.jobs ==> sends[|sends| - 1] == last;
    }
  }

  /** Marking marks every job once, and none that was attempted before. */
  lemma {:induction false} MarkedOnce(sh: Shared, jobs: seq<Job>)
    ensures multiset(MarkAttempted(sh, jobs)) == multiset(set j | j in MarkAttempted(sh, jobs))
    ensures forall j | j in MarkAttempted(sh, jobs) :: j !in sh.attempted
    decreases |jobs|
  {
    if jobs != [] && !sh.stopping {
      if Markable(sh, jobs[0]) {
        var next := sh.(attempted := sh.attempted + {jobs[0]});
        MarkedOnce(next, jobs[1..]);
        OneMore(jobs[0], MarkAttempted(next, jobs[1..]));
      } else {
        MarkedOnce(sh, jobs[1..]);
      }
    }
  }

  lemma OneMore(j: Job, rest: seq<Job>)
    requires j !in rest && multiset(rest) == multiset(set x | x in rest)
    ensures multiset([j] + rest) == multiset(set x | x in [j] + rest)
  {
    assert (set x | x in [j] + rest) == {j} + (set x | x in rest);
    assert multiset([j] + rest) == multiset{j} + multiset(rest);
  }

  lemma UnionCounts(a: set<Job>, b: set<Job>)
    requires a !! b
    ensures multiset(a + b) == multiset(a) + multiset(b)
  {
  }

  lemma MarkSends(a: Shared, op: Op, b: Shared, push: seq<Op>)
    requires WorkerExec(a, op, b, push) && op.Mark?
    ensures b.sends == a.sends && multiset(b.attempted) == multiset(a.attempted) + Sending(push)
  {
    hide MarkAttempted;
    var marked := MarkAttempted(a, op.jobs);
    MarkedOnce(a, op.jobs);
    UnionCounts(a.attempted, set j | j in marked);
    assert Sending([Send(marked), Messages(op.more, op.rest)]) == multiset(marked) by {
      assert [Send(marked), Messages(op.more, op.rest)][1..] == [Messages(op.more, op.rest)];
      SendingNothing([Messages(op.more, op.rest)]);
    }
    SendingNothing([Messages(op.more, op.rest)]);
    assert multiset(a.attempted + (set j | j in marked)) == multiset(a.attempted) + multiset(marked);
  }

  lemma SendSends(a: Shared, op: Op, b: Shared, push: seq<Op>)
    requires WorkerExec(a, op, b, push) && op.Send?
    ensures b.attempted == a.attempted && AllSent(b.sends) == AllSent(a.sends) + multiset(op.jobs)
    ensures Sending(push) == multiset{}
  {
    hide Settle;
    var ok :| b == a.(sends := a.sends + [SendRecord(op.jobs, ok)]) && push == Settle(op.jobs, ok);
    assert b.sends[..|b.sends| - 1] == a.sends;
    SettleOps(op.jobs, ok);
    SendingNothing(push);
  }

  /** Whoever else steps, sends and attempts stay what they are. */
  lemma OthersSend(a: Shared, op: Op, b: Shared, push: seq<Op>)
    requires Exec(a, op, b, push) && !op.Mark? && !op.Send?
    ensures b.sends == a.sends && b.attempted == a.attempted && forall x | x in push :: !x.Send?
  {
    hide WorkerExec, ResolveExec, StopExec;
    if WorkerExec(a, op, b, push) {
      WorkerKind(a, op, b, push);
      WorkerSendsNot(a, op, b, push);
    } else if ResolveExec(a, op, b, push) {
      ResolveKind(a, op, b, push);
      ResolveSendsNot(a, op, b, push);
    } else {
      StopKind(a, op, b, push);
      StopSendsNot(a, op, b, push);
    }
  }

  lemma WorkerSendsNot(a: Shared, op: Op, b: Shared, push: seq<Op>)
    requires WorkerExec(a, op, b, push) && !op.Mark? && !op.Send?
    ensures b.sends == a.sends && forall x | x in push :: !x.Send?
  {
    hide *;
    if Batching(op) {
      BatchSendsNot(a, op, b, push);
    } else {
      LoopSendsNot(a, op, b, push);
    }
  }

  lemma BatchSendsNot(a: Shared, op: Op, b: Shared, push: seq<Op>)
    requires WorkerExec(a, op, b, push) && Batching(op) && !op.Mark?
    ensures b.sends == a.sends && forall x | x in push :: !x.Send?
  {
    hide Strand, Flatten, Resume;
    match op {
      case Scan(todo, kept, cont) => ResumeSilent(kept, cont);
      case Groups(groups) => StrandOps(Flatten(groups));
      case Messages(messages, rest) => StrandOps(Flatten(messages)); StrandOps(Flatten(rest));
      case _ =>
    }
  }

  lemma LoopSendsNot(a: Shared, op: Op, b: Shared, push: seq<Op>)
    requires WorkerExec(a, op, b, push) && !Batching(op) && !op.Send?
    ensures b.sends == a.sends && forall x | x in push :: !x.Send?
  {
    hide Strand, Enumerates;
    match op {
      case Collect(batch) => StrandOps(batch);
      case AbandonUnattempted =>
        var order :| Enumerates(order, a.pendingJobs - a.attempted) && push == Strand(order);
        StrandOps(order);
      case _ =>
    }
  }

  lemma ResolveSendsNot(a: Shared, op: Op, b: Shared, push: seq<Op>)
    requires ResolveExec(a, op, b, push)
    ensures b.sends == a.sends && forall x | x in push :: !x.Send?
  {
    hide ResolveExec;
    ResolveLeadsOn(a, op, b, push);
  }

  lemma StopSendsNot(a: Shared, op: Op, b: Shared, push: seq<Op>)
    requires StopExec(a, op, b, push)
    ensures b.sends == a.sends && forall x | x in push :: !x.Send?
  {
    hide StopSteps, Enumerates;
    StopFields(a, op, b, push);
    if op.MarkStopping? {
      var order :| Enumerates(order, a.pendingJobs - a.attempted)
        && b == a.(stopping := true, noted := a.noted + (set j | j in order)) && push == StopSteps(a, order, op.join);
      StopStepsOps(a, order, op.join);
    }
  }

  /** Attempted is what was sent or is about to be. */
  ghost predicate Accounted(sh: Shared, work: seq<Op>) {
    AllSent(sh.sends) + Sending(work) == multiset(sh.attempted)
  }

  lemma WorkerAccounts(a: Shared, op: Op, rest: seq<Op>, b: Shared, push: seq<Op>)
    requires Accounted(a, [op] + rest) && Exec(a, op, b, push) && WorkerOp(op)
    ensures Accounted(b, push + rest)
  {
    hide WorkerExec, ResolveExec, StopExec, AllSent;
    SendingAppend([op], rest);
    SendingAppend(push, rest);
    assert [op][1..] == [];
    if op.Mark? || op.Send? {
      SendingKind(a, op, b, push);
      if op.Mark? { MarkSends(a, op, b, push); } else { SendSends(a, op, b, push); }
    } else {
      OthersSend(a, op, b, push);
      SendingNothing(push);
    }
  }

  lemma SendingKind(a: Shared, op: Op, b: Shared, push: seq<Op>)
    requires Exec(a, op, b, push) && (op.Mark? || op.Send?)
    ensures WorkerExec(a, op, b, push)
  {
    hide WorkerExec, ResolveExec, StopExec;
    if ResolveExec(a, op, b, push) {
      ResolveKind(a, op, b, push);
    } else if StopExec(a, op, b, push) {
      StopKind(a, op, b, push);
    }
  }

  // ---------- callbacks ----------

  /** A claimed, attempted job was sent, and its callback has run or is on its way. */
  ghost predicate Voiced(sh: Shared, j: Job, voice: nat) {
    j in sh.resolving && j in sh.attempted ==> SentIn(sh.sends, j) && sh.reported[j] + voice == 1
  }

  /** For an attempted job a step makes a callback due exactly when it claims it. */
  ghost predicate VoiceStep(j: Job, a: Shared, op: Op, b: Shared, push: seq<Op>) {
    Sum(Speaks, j, push) + b.reported[j] + (if j in a.resolving then 1 else 0)
    == Weight(Speaks, j, op) + a.reported[j] + (if j in b.resolving then 1 else 0)
  }

  lemma SilentVoice(j: Job, a: Shared, op: Op, b: Shared, push: seq<Op>)
    requires Silent(op) && forall x | x in push :: Silent(x)
    requires b.resolving == a.resolving && b.reported == a.reported
    ensures VoiceStep(j, a, op, b, push)
  {
    hide Sum;
    SumEmpty(Speaks, j, push);
  }

  lemma ClaimVoice(j: Job, a: Shared, op: Op, b: Shared, push: seq<Op>)
    requires ResolveExec(a, op, b, push) && op.Claim? && OkOp(a, op) && j in a.attempted
    ensures VoiceStep(j, a, op, b, push)
  {
    hide Sum, ClaimSteps, Claimable;
    if Claimable(a, op.job, op.claimant) {
      ClaimIsNew(a, op.job, op.claimant);
      ClaimSpeaks(j, op.job, op.claimant);
    } else {
      SumEmpty(Speaks, j, []);
    }
  }

  lemma ClaimIsNew(a: Shared, job: Job, claimant: Claimant)
    requires Claimable(a, job, claimant)
    ensures job !in a.resolving
  {
  }

  lemma ClaimSpeaks(j: Job, job: Job, claimant: Claimant)
    ensures Sum(Speaks, j, ClaimSteps(job, claimant)) == if claimant.Invalid? || j != job then 0 else 1
  {
    hide Sum;
    match claimant
    case Stranded => SumTwo(Speaks, j, Recheck(job), Finish(job));
    case Invalid => SumOne(Speaks, j, Finish(job));
    case Sent(ok) => SumTwo(Speaks, j, Report(job, Delivered(ok)), Finish(job));
  }

  lemma SpeakVoice(j: Job, a: Shared, op: Op, b: Shared, push: seq<Op>)
    requires ResolveExec(a, op, b, push) && (op.Recheck? || op.Report?) && OkOp(a, op) && j in a.attempted
    ensures VoiceStep(j, a, op, b, push)
  {
    hide Sum;
    SumEmpty(Speaks, j, []);
    SumOne(Speaks, j, Report(op.job, Unattempted));
  }

  lemma QuietVoice(j: Job, a: Shared, op: Op, b: Shared, push: seq<Op>)
    requires ResolveExec(a, op, b, push) && (op.Note? || op.Hook? || op.CompleteNote? || op.Finish?)
    ensures VoiceStep(j, a, op, b, push)
  {
    hide Sum, ResolveExec;
    QuietRecord(a, op, b, push);
    SumEmpty(Speaks, j, push);
  }

  lemma QuietRecord(a: Shared, op: Op, b: Shared, push: seq<Op>)
    requires ResolveExec(a, op, b, push) && (op.Note? || op.Hook? || op.CompleteNote? || op.Finish?)
    ensures b.reported == a.reported && b.resolving == a.resolving
    ensures forall x | x in push :: x.Hook? || x.CompleteNote? || x.Claim?
  {
    hide Notable;
  }

  lemma ExecVoice(j: Job, a: Shared, op: Op, b: Shared, push: seq<Op>)
    requires Exec(a, op, b, push) && OkOp(a, op) && (j in a.attempted || op.Mark?)
    ensures VoiceStep(j, a, op, b, push)
  {
    hide WorkerExec, ResolveExec, StopExec, VoiceStep, OkOp, Idle;
    if WorkerExec(a, op, b, push) {
      WorkerSilent(a, op, b, push);
      SilentVoice(j, a, op, b, push);
    } else if ResolveExec(a, op, b, push) {
      ResolveKind(a, op, b, push);
      if op.Claim? {
        ClaimVoice(j, a, op, b, push);
      } else if op.Recheck? || op.Report? {
        SpeakVoice(j, a, op, b, push);
      } else {
        QuietVoice(j, a, op, b, push);
      }
    } else {
      StopIsSilent(j, a, op, b, push);
      SilentVoice(j, a, op, b, push);
    }
  }

  lemma StopIsSilent(j: Job, a: Shared, op: Op, b: Shared, push: seq<Op>)
    requires StopExec(a, op, b, push)
    ensures Silent(op) && forall x | x in push :: Silent(x)
    ensures b.resolving == a.resolving && b.reported == a.reported
  {
    hide StopExec, Weight;
    StopSilent(j, a, op, b, push);
  }

  /** Only a claim on behalf of a delivery claims an attempted job. */
  lemma NewClaim(j: Job, a: Shared, op: Op, b: Shared, push: seq<Op>)
    requires Exec(a, op, b, push) && OkOp(a, op) && j in b.resolving && j !in a.resolving
    ensures op.Claim? && op.job == j && b.attempted == a.attempted && (j in a.attempted ==> op.claimant.Sent?)
  {
    hide WorkerExec, StopExec, Silent, Idle, Weight;
    if WorkerExec(a, op, b, push) {
      WorkerSilent(a, op, b, push);
      assert false;
    } else if StopExec(a, op, b, push) {
      StopSilent(j, a, op, b, push);
      assert false;
    } else {
      ResolvingClaim(j, a, op, b, push);
    }
  }

  lemma ResolvingClaim(j: Job, a: Shared, op: Op, b: Shared, push: seq<Op>)
    requires ResolveExec(a, op, b, push) && OkOp(a, op) && j in b.resolving && j !in a.resolving
    ensures op.Claim? && op.job == j && b.attempted == a.attempted && (j in a.attempted ==> op.claimant.Sent?)
  {
    hide Notable, ClaimSteps, FinishResolution;
    if op.Finish? {
      FinishKeepsClaims(a, op.job);
    }
  }

  lemma FinishKeepsClaims(a: Shared, job: Job)
    ensures FinishResolution(a, job).resolving == a.resolving
  {
  }

  lemma SaidIsSent(sends: seq<SendRecord>, j: Job, ok: bool)
    requires SaidSo(sends, j, ok)
    ensures SentIn(sends, j)
  {
    var n :| 0 <= n < |sends| && j in sends[n].jobs && sends[n].accepted == ok;
  }

  lemma SentGrows(a: seq<SendRecord>, b: seq<SendRecord>, j: Job)
    requires SentIn(a, j) && a <= b
    ensures SentIn(b, j)
  {
    var n :| 0 <= n < |a| && j in a[n].jobs;
    assert b[n] == a[n];
  }

  lemma GrowAttempts(a: Shared, b: Shared)
    requires Grow(a, b)
    ensures (b.attempted - a.attempted) !! a.resolving && a.sends <= b.sends && a.resolving <= b.resolving
  {
  }

  lemma VoicedNext(j: Job, a: Shared, op: Op, b: Shared, push: seq<Op>, voice: nat, next: nat)
    requires Voiced(a, j, voice) && Exec(a, op, b, push) && OkOp(a, op) && Tale(a.sends, op) && Grow(a, b)
    requires next + Weight(Speaks, j, op) == voice + Sum(Speaks, j, push)
    requires j !in a.resolving && j in a.attempted ==> a.reported[j] + voice == 0
    ensures Voiced(b, j, next)
  {
    hide Exec, OkOp, Sum, Weight, Grow;
    GrowAttempts(a, b);
    if j in b.resolving && j in b.attempted {
      if j in a.resolving {
        SentGrows(a.sends, b.sends, j);
        ExecVoice(j, a, op, b, push);
      } else {
        NewClaim(j, a, op, b, push);
        SaidIsSent(a.sends, j, op.claimant.accepted);
        SentGrows(a.sends, b.sends, j);
        ExecVoice(j, a, op, b, push);
      }
    }
  }

  // ---------- every run ----------

  ghost predicate Reporting(s: System) {
    && |s.threads| >= 2 && Accounted(s.sh, s.threads[WORKER])
    && (forall t | 0 <= t < |s.threads| :: Tales(s.sh.sends, s.threads[t]) && Paired(s.threads[t]))
    && (forall j :: Voiced(s.sh, j, Total(Speaks, j, s.threads)))
  }

  lemma TalesStep(s: System, t: nat, push: seq<Op>, s': System)
    requires Inv(s) && Reporting(s) && ThreadStepWith(s, t, push, s') && s.sh.sends <= s'.sh.sends
    ensures forall u | 0 <= u < |s'.threads| :: Tales(s'.sh.sends, s'.threads[u]) && Paired(s'.threads[u])
  {
    Placed(s, t, push, s');
    ThreadStepExec(s, t, push, s');
    var op, rest := s.threads[t][0], s.threads[t][1..];
    assert OkOps(s.sh, s.threads[t]) && op in s.threads[t] && s.threads[t] == [op] + rest;
    assert Tales(s.sh.sends, s.threads[t]) && Paired(s.threads[t]);
    hide Inv, Exec, Tale, Spawned, ThreadStepWith, OkOp, Paired, Accounted, Voiced;
    PushTells(s.sh, op, s'.sh, push);
    PushPaired(s.sh, op, rest, s'.sh, push);
    forall u | 0 <= u < |s'.threads| ensures Tales(s'.sh.sends, s'.threads[u]) && Paired(s'.threads[u]) {
      if u >= |s.threads| {
        assert s'.threads[u] == Spawned(op)[u - |s.threads|];
        SpawnedTells(s'.sh.sends, op, s'.threads[u]);
      } else {
        forall x | x in s'.threads[u] ensures Tale(s'.sh.sends, x) {
          if u != t || x !in push {
            assert x in s.threads[u];
            assert Tales(s.sh.sends, s.threads[u]);
            TaleGrows(s.sh.sends, s'.sh.sends, x);
          }
        }
      }
    }
  }

  lemma SpawnedTells(sends: seq<SendRecord>, op: Op, ops: seq<Op>)
    requires ops in Spawned(op)
    ensures Tales(sends, ops) && Paired(ops)
  {
    ResolverThreads(op.jobs);
  }

  lemma VoicesStep(s: System, t: nat, push: seq<Op>, s': System, j: Job)
    requires Inv(s) && Reporting(s) && ThreadStepWith(s, t, push, s') && Grow(s.sh, s'.sh)
    ensures Voiced(s'.sh, j, Total(Speaks, j, s'.threads))
  {
    var op := s.threads[t][0];
    assert OkOps(s.sh, s.threads[t]) && Tales(s.sh.sends, s.threads[t]) && op in s.threads[t];
    assert Voiced(s.sh, j, Total(Speaks, j, s.threads));
    assert Claimed(s.sh, j, Total(Owes, j, s.threads), Total(Speaks, j, s.threads));
    hide *;
    ThreadStepExec(s, t, push, s');
    TopTale(s, t);
    ClaimedVoices(s.sh, j, Total(Owes, j, s.threads), Total(Speaks, j, s.threads));
    TotalStep(Speaks, j, s, t, push, s');
    SpawnedWeigh(Speaks, j, op);
    VoicedNext(j, s.sh, op, s'.sh, push, Total(Speaks, j, s.threads), Total(Speaks, j, s'.threads));
  }

  lemma TopTale(s: System, t: nat)
    requires Inv(s) && Reporting(s) && t < |s.threads| && s.threads[t] != []
    ensures OkOp(s.sh, s.threads[t][0]) && Tale(s.sh.sends, s.threads[t][0])
  {
    hide SharedInv, Total, Pooled, Claimed, LoopInv, OkOp, Tale, Paired, Voiced, Accounted;
    assert OkOps(s.sh, s.threads[t]) && Tales(s.sh.sends, s.threads[t]) && s.threads[t][0] in s.threads[t];
  }

  lemma ClaimedVoices(sh: Shared, j: Job, owed: nat, voice: nat)
    requires Claimed(sh, j, owed, voice)
    ensures j !in sh.resolving ==> sh.reported[j] + voice == 0
  {
  }

  lemma AccountsStep(s: System, t: nat, push: seq<Op>, s': System)
    requires FullInv(s) && Reporting(s) && ThreadStepWith(s, t, push, s')
    ensures |s'.threads| >= 2 && Accounted(s'.sh, s'.threads[WORKER])
  {
    Placed(s, t, push, s');
    var op, rest := s.threads[t][0], s.threads[t][1..];
    assert InClass(t, op) && s.threads[t] == [op] + rest;
    hide Inv, Duty, StopInv, LoopAtEnd, Exec, ThreadStepWith, Spawned, AllSent, Sending, Voiced, Paired, Tales;
    ThreadStepExec(s, t, push, s');
    if t == WORKER {
      WorkerAccounts(s.sh, op, rest, s'.sh, push);
    } else {
      OthersSend(s.sh, op, s'.sh, push);
    }
  }

  lemma ThreadStepReports(s: System, t: nat, push: seq<Op>, s': System)
    requires FullInv(s) && Reporting(s) && ThreadStepWith(s, t, push, s')
    ensures Reporting(s')
  {
    AccountsStep(s, t, push, s');
    assert Inv(s);
    ThreadStepInv(s, t, push, s');
    GrowAttempts(s.sh, s'.sh);
    TalesStep(s, t, push, s');
    forall j ensures Voiced(s'.sh, j, Total(Speaks, j, s'.threads)) {
      hide *;
      assert Inv(s) by { FullIsInv(s); }
      VoicesStep(s, t, push, s', j);
    }
    hide FullInv, Inv, Grow, ThreadStepWith, Tales, Paired, Voiced, Accounted, Total;
  }

  lemma FullIsInv(s: System)
    requires FullInv(s)
    ensures Inv(s)
  {
  }

  lemma CallReports(s: System, s': System)
    requires Inv(s) && Reporting(s) && CallStep(s, s')
    ensures Reporting(s')
  {
    hide Inv, Enqueue, Tale, Voiced, Total, AllSent;
    UnstartedIdle(s);
    if job :| job !in s.sh.accepted && s' == s.(sh := Enqueue(s.sh, job)) {
      EnqueueReports(s.sh, job);
      forall j ensures Voiced(s'.sh, j, Total(Speaks, j, s'.threads)) {
        assert Voiced(s.sh, j, Total(Speaks, j, s.threads));
        SameVoice(s.sh, s'.sh, j, Total(Speaks, j, s.threads));
      }
    } else {
      CallThreads(s, s');
      forall j ensures Voiced(s'.sh, j, Total(Speaks, j, s'.threads)) {
        assert Voiced(s.sh, j, Total(Speaks, j, s.threads));
        CallTotals(s, s', j);
        SameVoice(s.sh, s'.sh, j, Total(Speaks, j, s.threads));
      }
    }
  }

  lemma UnstartedIdle(s: System)
    requires Inv(s)
    ensures !s.sh.started ==> s.threads[WORKER] == []
  {
  }

  lemma SameVoice(a: Shared, b: Shared, j: Job, voice: nat)
    requires Voiced(a, j, voice) && b.resolving == a.resolving && b.attempted == a.attempted
    requires b.sends == a.sends && b.reported == a.reported
    ensures Voiced(b, j, voice)
  {
  }

  lemma EnqueueReports(a: Shared, job: Job)
    ensures var b := Enqueue(a, job);
      b.resolving == a.resolving && b.attempted == a.attempted && b.sends == a.sends && b.reported == a.reported
  {
  }

  /** What a call other than an enqueue puts on a stack says nothing. */
  lemma CallThreads(s: System, s': System)
    requires Reporting(s) && CallStep(s, s') && (!s.sh.started ==> s.threads[WORKER] == [])
    requires !exists job :: job !in s.sh.accepted && s' == s.(sh := Enqueue(s.sh, job))
    ensures s'.sh.sends == s.sh.sends && s'.sh.attempted == s.sh.attempted && s'.sh.resolving == s.sh.resolving
    ensures s'.sh.reported == s.sh.reported && |s'.threads| == |s.threads|
    ensures forall t | 0 <= t < |s'.threads| :: Tales(s'.sh.sends, s'.threads[t]) && Paired(s'.threads[t])
    ensures Accounted(s'.sh, s'.threads[WORKER])
  {
    hide Voiced, Enqueue, AllSent;
    SendingNothing([Select]);
    SendingNothing([]);
  }

  lemma CallTotals(s: System, s': System, j: Job)
    requires CallStep(s, s') && (!s.sh.started ==> s.threads[WORKER] == [])
    requires !exists job :: job !in s.sh.accepted && s' == s.(sh := Enqueue(s.sh, job))
    ensures Total(Speaks, j, s'.threads) == Total(Speaks, j, s.threads)
  {
    hide Total, Enqueue;
    SumOne(Speaks, j, Select);
    SumEmpty(Speaks, j, []);
    TotalUpdate(Speaks, j, s.threads, WORKER, [Select]);
    forall join: bool
      ensures Total(Speaks, j, s.threads[STOPPER := [CloseAdmission(join)]]) + Sum(Speaks, j, s.threads[STOPPER])
           == Total(Speaks, j, s.threads)
    {
      TotalUpdate(Speaks, j, s.threads, STOPPER, [CloseAdmission(join)]);
      SumOne(Speaks, j, CloseAdmission(join));
    }
  }

  lemma {:induction false} RunReports(states: seq<System>, k: nat)
    requires Run(states) && k < |states|
    ensures Reporting(states[k])
  {
    hide FullInv, Inv, Reporting, ThreadStepWith, CallStep;
    if k == 0 {
      InitReports(states[0]);
    } else {
      RunReports(states, k - 1);
      RunFull(states, k - 1);
      FullIsInv(states[k - 1]);
      assert Step(states[k - 1], states[k - 1 + 1]);
      if CallStep(states[k - 1], states[k]) {
        CallReports(states[k - 1], states[k]);
      } else {
        var t, push :| ThreadStepWith(states[k - 1], t, push, states[k]);
        ThreadStepReports(states[k - 1], t, push, states[k]);
      }
    }
  }

  lemma InitReports(s: System)
    requires Init(s)
    ensures Reporting(s)
  {
  }

  // ---------- what this means ----------

  /** A job is attempted exactly when it is part of one message that was sent or is on the worker's stack
      to be sent, and never of two. */
  lemma AttemptedIsSentOnce(states: seq<System>, k: nat, j: Job)
    requires Run(states) && k < |states|
    ensures |states[k].threads| >= 2
    ensures AllSent(states[k].sh.sends)[j] + Sending(states[k].threads[WORKER])[j]
         == if j in states[k].sh.attempted then 1 else 0
  {
    hide Run, AllSent, Sending, Voiced, Tales, Paired;
    RunReports(states, k);
    assert multiset(states[k].sh.attempted)[j] == if j in states[k].sh.attempted then 1 else 0;
  }

  /** What a callback of a delivery says is what became of a message the job was in. */
  lemma CallbacksAreTrue(states: seq<System>, k: nat, t: nat, i: nat)
    requires Run(states) && k < |states| && t < |states[k].threads| && i < |states[k].threads[t]|
    requires states[k].threads[t][i].Report? && states[k].threads[t][i].outcome.Delivered?
    ensures SaidSo(states[k].sh.sends, states[k].threads[t][i].job, states[k].threads[t][i].outcome.accepted)
  {
    hide Run, Accounted, Voiced, Paired, SaidSo;
    RunReports(states, k);
    assert Tales(states[k].sh.sends, states[k].threads[t]) && states[k].threads[t][i] in states[k].threads[t];
  }

  /** Every attempted job that has been resolved was sent in exactly one message and called back exactly once. */
  lemma ResolvedIsReported(states: seq<System>, k: nat, j: Job)
    requires Run(states) && k < |states| && j in states[k].sh.attempted && states[k].sh.resolved[j] == 1
    ensures AllSent(states[k].sh.sends)[j] == 1 && states[k].sh.reported[j] == 1
  {
    hide Run, FullInv, Tales;
    var s := states[k];
    RunReports(states, k);
    RunFull(states, k);
    FullIsInv(s);
    AttemptedIsSentOnce(states, k, j);
    SentSome(s.sh.sends, j);
    assert Voiced(s.sh, j, Total(Speaks, j, s.threads));
    SettledInSilence(s, j);
  }

  lemma SettledInSilence(s: System, j: Job)
    requires Inv(s) && Reporting(s) && s.sh.resolved[j] == 1
    ensures j in s.sh.resolving && Total(Speaks, j, s.threads) == 0
  {
    hide SharedInv, OkThreads, Pooled, LoopInv, Accounted, Tales, Voiced, Total;
    assert Claimed(s.sh, j, Total(Owes, j, s.threads), Total(Speaks, j, s.threads));
    if Total(Speaks, j, s.threads) > 0 {
      TotalPositive(Speaks, j, s.threads);
      var t, i :| 0 <= t < |s.threads| && 0 <= i < |s.threads[t]| && Weight(Speaks, j, s.threads[t][i]) > 0;
      assert Paired(s.threads[t]);
      SumMember(Owes, j, s.threads[t], 1);
      TotalMember(Owes, j, s.threads, t);
    }
  }
}
