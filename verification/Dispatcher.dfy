/** The dispatcher object: its critical sections and loops, proved to be the steps of the protocol. */
module Dispatchers {
  import opened Coalesce
  import opened Dispatch
  import opened DispatchSafety

  // ---------- grouping a batch ----------

  type GroupKey = (string, int)

  function KeyOf(job: Job): GroupKey {
    (job.message.kind, job.message.priority)
  }

  /** A job joins the group of its key, or starts a new one at the end. */
  function Join(groups: seq<seq<Job>>, job: Job): seq<seq<Job>> {
    if groups == [] then [[job]]
    else if groups[0] != [] && SameKey(groups[0][0], job) then [groups[0] + [job]] + groups[1..]
    else [groups[0]] + Join(groups[1..], job)
  }

  lemma {:induction false} LikeSnoc(h: Job, jobs: seq<Job>, job: Job, same: bool)
    ensures Like(h, jobs + [job], same) == Like(h, jobs, same) + (if SameKey(h, job) == same then [job] else [])
  {
    hide SameKey;
    if jobs == [] {
      assert [] + [job] == [job] && [job][1..] == [];
    } else {
      assert (jobs + [job])[1..] == jobs[1..] + [job];
      LikeSnoc(h, jobs[1..], job, same);
    }
  }

  /** Grouping can be done one job at a time. */
  lemma {:induction false} GroupSnoc(jobs: seq<Job>, job: Job)
    ensures GroupByKey(jobs + [job]) == Join(GroupByKey(jobs), job)
    decreases |jobs|
  {
    hide SameKey, Like;
    if jobs == [] {
      assert [] + [job] == [job];
      assert Like(job, [], true) == [] && Like(job, [], false) == [] by { LikeNothing(job); }
      assert [job][1..] == [] && [job] + [] == [job];
      assert GroupByKey([job]) == [[job]] + GroupByKey([]);
    } else {
      var h, t := jobs[0], jobs[1..];
      assert (jobs + [job])[1..] == t + [job] && (jobs + [job])[0] == h;
      LikeSnoc(h, t, job, true);
      LikeSnoc(h, t, job, false);
      if SameKey(h, job) {
        assert [h] + (Like(h, t, true) + [job]) == ([h] + Like(h, t, true)) + [job];
        assert Like(h, t, false) + [] == Like(h, t, false);
      } else {
        assert Like(h, t, true) + [] == Like(h, t, true);
        GroupSnoc(Like(h, t, false), job);
      }
    }
  }

  lemma LikeNothing(job: Job)
    ensures Like(job, [], true) == [] && Like(job, [], false) == []
  {
  }

  lemma {:induction false} LikeOnly(h: Job, jobs: seq<Job>, same: bool)
    ensures forall j | j in Like(h, jobs, same) :: j in jobs && SameKey(h, j) == same
  {
    hide SameKey;
    if jobs != [] {
      LikeOnly(h, jobs[1..], same);
    }
  }

  ghost predicate OfOneKey(group: seq<Job>) {
    group != [] && forall j | j in group :: KeyOf(j) == KeyOf(group[0])
  }

  ghost predicate KeysDiffer(a: seq<Job>, b: seq<Job>) {
    a != [] && b != [] && KeyOf(a[0]) != KeyOf(b[0])
  }

  lemma FirstGroupApart(jobs: seq<Job>, group: seq<Job>)
    requires jobs != [] && OfOneKey(group) && group[0] in Like(jobs[0], jobs[1..], false)
    ensures KeysDiffer([jobs[0]] + Like(jobs[0], jobs[1..], true), group)
  {
    LikeOnly(jobs[0], jobs[1..], false);
  }

  /** Every group is nonempty and of one kind and priority, and different groups differ in one of them. */
  lemma {:induction false} GroupsByKind(jobs: seq<Job>)
    ensures forall g | g in GroupByKey(jobs) :: OfOneKey(g) && g[0] in jobs
    ensures forall i, k | 0 <= i < k < |GroupByKey(jobs)| :: KeysDiffer(GroupByKey(jobs)[i], GroupByKey(jobs)[k])
    decreases |jobs|
  {
    if jobs != [] {
      var first, other := [jobs[0]] + Like(jobs[0], jobs[1..], true), Like(jobs[0], jobs[1..], false);
      LikeOnly(jobs[0], jobs[1..], true);
      LikeOnly(jobs[0], jobs[1..], false);
      GroupsByKind(other);
      var rest := GroupByKey(other);
      assert OfOneKey(first);
      assert GroupByKey(jobs) == [first] + rest;
      hide Like, GroupByKey, OfOneKey, KeysDiffer;
      forall k | 0 <= k < |rest| ensures KeysDiffer(first, rest[k]) {
        assert rest[k] in rest;
        FirstGroupApart(jobs, rest[k]);
      }
      var groups := [first] + rest;
      forall i, k | 0 <= i < k < |groups| ensures KeysDiffer(groups[i], groups[k]) {
        assert groups[k] == rest[k - 1];
      }
      forall g | g in groups ensures OfOneKey(g) && g[0] in jobs {
      }
    }
  }

  /** The groups in the order their keys were first seen. */
  function Lay(order: seq<GroupKey>, groups: map<GroupKey, seq<Job>>): seq<seq<Job>>
    requires forall k | k in order :: k in groups
  {
    if order == [] then [] else [groups[order[0]]] + Lay(order[1..], groups)
  }

  ghost predicate Filed(order: seq<GroupKey>, groups: map<GroupKey, seq<Job>>) {
    && (forall i, k | 0 <= i < k < |order| :: order[i] != order[k])
    && (forall k :: k in order <==> k in groups)
    && (forall k | k in order :: groups[k] != [] && KeyOf(groups[k][0]) == k)
  }

  lemma {:induction false} LayOther(order: seq<GroupKey>, groups: map<GroupKey, seq<Job>>, key: GroupKey,
                                    jobs: seq<Job>)
    requires (forall k | k in order :: k in groups) && key !in order
    ensures Lay(order, groups[key := jobs]) == Lay(order, groups)
  {
    if order != [] {
      LayOther(order[1..], groups, key, jobs);
    }
  }

  lemma {:induction false} JoinKnown(order: seq<GroupKey>, groups: map<GroupKey, seq<Job>>, job: Job)
    requires (forall i, k | 0 <= i < k < |order| :: order[i] != order[k])
    requires forall k | k in order :: k in groups && groups[k] != [] && KeyOf(groups[k][0]) == k
    requires KeyOf(job) in order
    ensures Join(Lay(order, groups), job) == Lay(order, groups[KeyOf(job) := groups[KeyOf(job)] + [job]])
  {
    var after := groups[KeyOf(job) := groups[KeyOf(job)] + [job]];
    var lay := Lay(order, groups);
    assert lay[0] == groups[order[0]] && lay[1..] == Lay(order[1..], groups);
    if order[0] == KeyOf(job) {
      assert KeyOf(job) !in order[1..];
      LayOther(order[1..], groups, KeyOf(job), after[KeyOf(job)]);
    } else {
      JoinKnown(order[1..], groups, job);
    }
  }

  lemma {:induction false} JoinNew(order: seq<GroupKey>, groups: map<GroupKey, seq<Job>>, job: Job)
    requires forall k | k in order :: k in groups && groups[k] != [] && KeyOf(groups[k][0]) == k
    requires KeyOf(job) !in order
    ensures Join(Lay(order, groups), job) == Lay(order + [KeyOf(job)], groups[KeyOf(job) := [job]])
  {
    var after := groups[KeyOf(job) := [job]];
    if order == [] {
      assert [KeyOf(job)][1..] == [];
    } else {
      var lay := Lay(order, groups);
      assert lay[0] == groups[order[0]] && lay[1..] == Lay(order[1..], groups);
      assert (order + [KeyOf(job)])[1..] == order[1..] + [KeyOf(job)];
      JoinNew(order[1..], groups, job);
    }
  }

  /** The grouping loop of `deliverBatch`, with its map and its order list. */
  method GroupBatch(jobs: seq<Job>) returns (order: seq<GroupKey>, groups: map<GroupKey, seq<Job>>)
    ensures Filed(order, groups) && Lay(order, groups) == GroupByKey(jobs)
  {
    hide GroupByKey, Join, Lay;
    order, groups := [], map[];
    assert Lay([], map[]) == GroupByKey([]) by { NothingGrouped(); }
    for i := 0 to |jobs|
      invariant Filed(order, groups) && Lay(order, groups) == GroupByKey(jobs[..i])
    {
      var job := jobs[i];
      assert jobs[..i + 1] == jobs[..i] + [job];
      GroupSnoc(jobs[..i], job);
      var key := KeyOf(job);
      if key !in groups {
        JoinNew(order, groups, job);
        order, groups := order + [key], groups[key := [job]];
      } else {
        JoinKnown(order, groups, job);
        groups := groups[key := groups[key] + [job]];
      }
    }
    assert jobs[..|jobs|] == jobs;
  }

  lemma NothingGrouped()
    ensures Lay([], map[]) == [] && GroupByKey([]) == []
  {
  }

  // ---------- the object ----------

  class Dispatcher {
    var accepting: bool
    var started: bool
    var stopping: bool
    var exited: bool
    const capacity: nat
    var queue: seq<Job>
    var pending: int
    var pendingJobs: set<Job>
    var idleClosed: bool
    var attempted: set<Job>
    var resolving: set<Job>
    var noted: set<Job>
    var abandoned: set<Job>
    var closed: set<Job>
    ghost var accepted: set<Job>
    ghost var hooked: set<Job>
    ghost var sends: seq<SendRecord>
    ghost var reported: multiset<Job>
    ghost var unattempted: set<Job>
    ghost var resolved: multiset<Job>
    ghost var faulted: bool

    constructor (capacity: nat)
      ensures View() == Fresh(capacity)
    {
      this.capacity := capacity;
      accepting, started, stopping, exited := true, false, false, false;
      queue, pending, pendingJobs, idleClosed := [], 0, {}, true;
      attempted, resolving, noted, abandoned, closed := {}, {}, {}, {}, {};
      accepted, hooked, sends, reported, unattempted, resolved, faulted := {}, {}, [], multiset{}, {}, multiset{},
        false;
    }

    /** The shared state of the protocol. */
    ghost function View(): Shared
      reads this
    {
      Shared(accepting, started, stopping, exited, capacity, queue, pending, pendingJobs, idleClosed,
             attempted, resolving, noted, abandoned, closed,
             accepted, hooked, sends, reported, unattempted, resolved, faulted)
    }

    method Enqueue(job: Job) returns (ok: bool)
      modifies this`queue, this`idleClosed, this`pending, this`pendingJobs, this`accepted
      ensures View() == Dispatch.Enqueue(old(View()), job)
      ensures ok <==> old(accepting) && |old(queue)| < capacity
      ensures ok ==> queue == old(queue) + [job] && pendingJobs == old(pendingJobs) + {job}
      ensures ok ==> pending == old(pending) + 1 && (old(pending) == 0 ==> !idleClosed)
      ensures !ok ==> View() == old(View())
    {
      if !accepting {
        return false;
      }
      if |queue| >= capacity {
        return false;
      }
      Admit(job);
      ok := true;
    }

    method Admit(job: Job)
      modifies this`queue, this`idleClosed, this`pending, this`pendingJobs, this`accepted
      ensures queue == old(queue) + [job] && idleClosed == if old(pending) == 0 then false else old(idleClosed)
      ensures pending == old(pending) + 1 && pendingJobs == old(pendingJobs) + {job}
        && accepted == old(accepted) + {job}
    {
      queue := queue + [job];
      if pending == 0 {
        idleClosed := false;
      }
      pending := pending + 1;
      pendingJobs := pendingJobs + {job};
      accepted := accepted + {job};
    }

    method ClaimResolution(job: Job, claimant: Claimant) returns (ok: bool)
      modifies this`resolving
      ensures ok <==> job in pendingJobs && job !in old(resolving) && (claimant.Stranded? ==> job !in attempted)
      ensures View() == if ok then old(View()).(resolving := old(resolving) + {job}) else old(View())
      ensures ok ==> ResolveExec(old(View()), Claim(job, claimant), View(), ClaimSteps(job, claimant))
      ensures !ok ==> ResolveExec(old(View()), Claim(job, claimant), View(), [])
    {
      if job !in pendingJobs || job in resolving || (claimant.Stranded? && job in attempted) {
        return false;
      }
      resolving := resolving + {job};
      ok := true;
    }

    method FinishResolution(job: Job)
      modifies this`pendingJobs, this`pending, this`closed, this`resolved, this`idleClosed, this`faulted
      ensures View() == Dispatch.FinishResolution(old(View()), job)
      ensures job !in pendingJobs && (job !in old(pendingJobs) ==> View() == old(View()))
      ensures job in old(pendingJobs) ==> pendingJobs == old(pendingJobs) - {job} && closed == old(closed) + {job}
      ensures job in old(pendingJobs) && old(pending) > 0 ==> pending == old(pending) - 1
      ensures job in old(pendingJobs) && pending == 0 ==> idleClosed
    {
      if job in pendingJobs {
        Settle(job);
        if pending == 0 {
          CloseIdle();
        }
      }
    }

    method Settle(job: Job)
      modifies this`pendingJobs, this`pending, this`closed, this`resolved, this`faulted
      ensures pendingJobs == old(pendingJobs) - {job}
      ensures pending == if old(pending) > 0 then old(pending) - 1 else old(pending)
      ensures closed == old(closed) + {job} && resolved == old(resolved) + multiset{job}
      ensures faulted == (old(faulted) || job in old(closed))
    {
      pendingJobs := pendingJobs - {job};
      if pending > 0 {
        pending := pending - 1;
      }
      faulted := faulted || job in closed;
      closed := closed + {job};
      resolved := resolved + multiset{job};
    }

    method CloseIdle()
      modifies this`idleClosed, this`faulted
      ensures View() == old(View()).(idleClosed := true, faulted := old(faulted) || old(idleClosed))
    {
      faulted := faulted || idleClosed;
      idleClosed := true;
    }

    /** The locked part of `noteAbandonment`; `run` says that the hook must run next. */
    method NoteAbandonment(job: Job) returns (run: bool)
      modifies this`noted
      ensures run <==> job in pendingJobs && job !in attempted && job !in old(noted)
      ensures View() == if run then old(View()).(noted := old(noted) + {job}) else old(View())
    {
      if job !in pendingJobs || job in attempted || job in noted {
        return false;
      }
      noted := noted + {job};
      run := true;
    }

    method CompleteAbandonment(job: Job)
      modifies this`hooked, this`abandoned
      ensures View() == old(View()).(hooked := old(hooked) + {job}, abandoned := old(abandoned) + {job})
    {
      hooked := hooked + {job};
      if job !in abandoned {
        abandoned := abandoned + {job};
      }
    }

    /** `markAttempted`: nothing is attempted once a stop has begun. */
    method MarkAttempted(jobs: seq<Job>) returns (marked: seq<Job>)
      modifies this`attempted
      ensures marked == Dispatch.MarkAttempted(old(View()), jobs)
      ensures View() == old(View()).(attempted := old(attempted) + (set j | j in marked))
    {
      marked := [];
      if stopping {
        return;
      }
      ghost var before := View();
      marked := MarkEach(jobs, before);
    }

    method MarkEach(jobs: seq<Job>, ghost before: Shared) returns (marked: seq<Job>)
      requires !before.stopping && before.pendingJobs == pendingJobs && before.attempted == attempted
        && before.resolving == resolving
      modifies this`attempted
      ensures marked == Dispatch.MarkAttempted(before, jobs)
      ensures attempted == before.attempted + (set j | j in marked)
    {
      hide Dispatch.MarkAttempted;
      marked := [];
      assert jobs[0..] == jobs;
      for i := 0 to |jobs|
        invariant attempted == before.attempted + (set j | j in marked)
        invariant Dispatch.MarkAttempted(before, jobs)
               == marked + Dispatch.MarkAttempted(before.(attempted := attempted), jobs[i..])
      {
        var job := jobs[i];
        MarkNextJob(before.(attempted := attempted), jobs, i);
        assert Markable(before.(attempted := attempted), job) <==>
          job in pendingJobs && job !in attempted && job !in resolving;
        if job !in pendingJobs || job in attempted || job in resolving {
          continue;
        }
        MarkedMore(before.attempted, marked, job);
        attempted := attempted + {job};
        marked := marked + [job];
      }
      assert jobs[|jobs|..] == [] && marked + [] == marked;
      MarkNothing(before.(attempted := attempted));
    }

    /** The locked part of `beginStop`: which jobs were never attempted, and whose hooks must still complete. */
    method Snapshot() returns (jobs: seq<Job>, abandonments: seq<Job>)
      requires abandoned <= noted
      modifies this`stopping, this`noted
      ensures Enumerates(jobs, old(pendingJobs) - old(attempted))
      ensures abandonments == Without(jobs, old(abandoned))
      ensures View() == old(View()).(stopping := true, noted := old(noted) + (set j | j in jobs))
    {
      hide Enumerates, Without;
      stopping := true;
      jobs, abandonments := ListUnattempted();
    }

    method ListUnattempted() returns (jobs: seq<Job>, abandonments: seq<Job>)
      requires abandoned <= noted
      modifies this`noted
      ensures Enumerates(jobs, pendingJobs - attempted) && abandonments == Without(jobs, abandoned)
      ensures noted == old(noted) + (set j | j in jobs)
    {
      hide Enumerates, Without;
      jobs, abandonments := [], [];
      assert Enumerates([], {}) && Without([], abandoned) == [] by { NothingListed(abandoned); }
      var todo := pendingJobs;
      ghost var seen: set<Job> := {};
      ghost var before := noted;
      while todo != {}
        invariant todo <= pendingJobs && seen == (pendingJobs - todo) - attempted
        invariant Enumerates(jobs, seen) && abandonments == Without(jobs, abandoned)
        invariant noted == before + (set j | j in jobs && j !in abandoned)
        decreases todo
      {
        var job :| job in todo;
        todo := todo - {job};
        if job in attempted {
          continue;
        }
        EnumerateMore(jobs, seen, job);
        WithoutSnoc(jobs, job, abandoned);
        seen := seen + {job};
        jobs := jobs + [job];
        if job !in abandoned {
          noted := noted + {job};
          abandonments := abandonments + [job];
        }
      }
      assert seen == pendingJobs - attempted;
    }

    method DiscardQueue()
      modifies this`queue
      ensures View() == old(View()).(queue := [])
    {
      while queue != []
        invariant View() == old(View()).(queue := queue)
        decreases |queue|
      {
        queue := queue[1..];
      }
    }
  }

  lemma MarkedMore(base: set<Job>, marked: seq<Job>, job: Job)
    ensures base + (set j | j in marked + [job]) == base + (set j | j in marked) + {job}
  {
  }

  lemma MarkNextJob(sh: Shared, jobs: seq<Job>, i: nat)
    requires i < |jobs| && !sh.stopping
    ensures Dispatch.MarkAttempted(sh, jobs[i..])
         == if Markable(sh, jobs[i]) then
              [jobs[i]] + Dispatch.MarkAttempted(sh.(attempted := sh.attempted + {jobs[i]}), jobs[i + 1..])
            else Dispatch.MarkAttempted(sh, jobs[i + 1..])
  {
    assert jobs[i..][1..] == jobs[i + 1..];
  }

  lemma MarkNothing(sh: Shared)
    ensures Dispatch.MarkAttempted(sh, []) == []
  {
  }

  lemma NothingListed(out: set<Job>)
    ensures Enumerates([], {}) && Without([], out) == []
  {
  }

  lemma EnumerateMore(jobs: seq<Job>, s: set<Job>, job: Job)
    requires Enumerates(jobs, s) && job !in s
    ensures Enumerates(jobs + [job], s + {job})
  {
    assert multiset(s + {job}) == multiset(s) + multiset{job};
  }

  lemma {:induction false} WithoutSnoc(jobs: seq<Job>, job: Job, out: set<Job>)
    ensures Without(jobs + [job], out) == Without(jobs, out) + (if job in out then [] else [job])
  {
    if jobs == [] {
      assert [] + [job] == [job] && [job][1..] == [];
    } else {
      assert (jobs + [job])[1..] == jobs[1..] + [job];
      WithoutSnoc(jobs[1..], job, out);
    }
  }
}
