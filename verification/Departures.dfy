/** Who leaves with a scan: every account off the roster but the one that a candidate whose read failed may still be. */
module Departures {
  import opened Health
  import opened Incident
  import opened Accounts
  import opened Rollback
  import opened Discovery
  import opened Moves
  import opened Scan
  import opened ScanNotices

  /** An account that has left the roster and bears the candidate's provider and identity. */
  ghost predicate OffRoster(t: Table, c: Listing, active: set<string>, k: string) {
    k in t && k !in active && k != KeyOf(c) && t[k].provider == c.provider && t[k].identity == c.identity
  }

  /** The candidate may still be that account, and no other: its identity is known, counts once, and
      there is no second one of them off the roster. */
  ghost predicate Awaits(t: Table, c: Listing, counts: Counts, active: set<string>, k: string) {
    && c.identity != "" && Count(counts, c.provider, c.identity) == 1
    && OffRoster(t, c, active, k) && forall x | OffRoster(t, c, active, x) :: x == k
  }

  ghost predicate Awaited(t: Table, failed: seq<Listing>, counts: Counts, active: set<string>, k: string) {
    exists i :: 0 <= i < |failed| && Awaits(t, failed[i], counts, active, k)
  }

  /** An identity that counts once is shown by one candidate. */
  ghost predicate Solo(failed: seq<Listing>, counts: Counts) {
    forall i, k | 0 <= i < k < |failed| && failed[i].identity != "" && failed[i].provider == failed[k].provider
      && failed[i].identity == failed[k].identity ::
      Count(counts, failed[k].provider, failed[k].identity) >= 2
  }

  lemma {:induction false} SparedExactly(t: Table, failed: seq<Listing>, counts: Counts, active: set<string>)
    requires Solo(failed, counts)
    ensures forall k | k in t :: k in SparedAll(t, failed, counts, active) <==>
      k in active || Awaited(t, failed, counts, active, k)
  {
    if failed != [] {
      var front, c := failed[..|failed| - 1], failed[|failed| - 1];
      assert Solo(front, counts);
      SparedExactly(t, front, counts, active);
      SparedAllMore(t, front, counts, active);
      hide Awaits, Solo, Spared, SparedAll;
      forall k | k in t ensures k in SparedAll(t, failed, counts, active) <==>
        k in active || Awaited(t, failed, counts, active, k)
      {
        AwaitedMore(t, failed, counts, active, k);
        SparedNext(t, failed, counts, active, k);
      }
    }
  }

  lemma AwaitedMore(t: Table, failed: seq<Listing>, counts: Counts, active: set<string>, k: string)
    requires failed != []
    ensures Awaited(t, failed, counts, active, k) <==>
      Awaited(t, failed[..|failed| - 1], counts, active, k) || Awaits(t, failed[|failed| - 1], counts, active, k)
  {
    hide Awaits;
    var front := failed[..|failed| - 1];
    if Awaited(t, front, counts, active, k) {
      var i :| 0 <= i < |front| && Awaits(t, front[i], counts, active, k);
      assert failed[i] == front[i];
    }
    if Awaited(t, failed, counts, active, k) && !Awaits(t, failed[|failed| - 1], counts, active, k) {
      var i :| 0 <= i < |failed| && Awaits(t, failed[i], counts, active, k);
      assert front[i] == failed[i];
    }
  }

  /** One failed candidate more spares exactly the account it awaits. */
  lemma SparedNext(t: Table, failed: seq<Listing>, counts: Counts, active: set<string>, k: string)
    requires failed != [] && Solo(failed, counts) && k in t
    requires var before := SparedAll(t, failed[..|failed| - 1], counts, active);
      && active <= before
      && forall x | x in t :: x in before <==> x in active || Awaited(t, failed[..|failed| - 1], counts, active, x)
    ensures k in SparedAll(t, failed, counts, active) <==>
      || k in SparedAll(t, failed[..|failed| - 1], counts, active)
      || Awaits(t, failed[|failed| - 1], counts, active, k)
  {
    var n := |failed| - 1;
    var front, c := failed[..n], failed[n];
    var before := SparedAll(t, front, counts, active);
    if c.identity != "" && Count(counts, c.provider, c.identity) == 1 {
      forall y | y in t && y in before && y !in active ensures !OffRoster(t, c, active, y) {
        assert Awaited(t, front, counts, active, y);
        var i :| 0 <= i < |front| && Awaits(t, front[i], counts, active, y);
        assert failed[i] == front[i];
      }
      assert forall x :: Lingers(t, c, before, x) <==> OffRoster(t, c, active, x) && x !in before;
      assert forall x | OffRoster(t, c, active, x) :: x !in before;
      assert k in Spared(t, c, before) <==> Awaits(t, c, counts, active, k);
    }
  }

  lemma {:induction false} FailedItems(items: seq<Item>, i: nat) returns (n: nat)
    requires i < |FailedOf(items)|
    ensures n < |items| && items[n].read.Failed? && items[n].entry == FailedOf(items)[i]
    ensures FailedOf(items[..n]) == FailedOf(items)[..i]
  {
    var last := |items| - 1;
    if i < |FailedOf(items[..last])| {
      n := FailedItems(items[..last], i);
      assert items[..last][..n] == items[..n];
      assert FailedOf(items)[..i] == FailedOf(items[..last])[..i];
    } else {
      n := last;
      assert FailedOf(items)[..i] == FailedOf(items[..last]);
    }
  }

  lemma FailedSolo(items: seq<Item>)
    ensures Solo(FailedOf(items), CountsOf(items))
  {
    var failed := FailedOf(items);
    hide CountsOf;
    forall i, k | 0 <= i < k < |failed| && failed[i].identity != "" && failed[i].provider == failed[k].provider
      && failed[i].identity == failed[k].identity
      ensures Count(CountsOf(items), failed[k].provider, failed[k].identity) >= 2
    {
      var m := FailedItems(items, i);
      var n := FailedItems(items, k);
      assert |FailedOf(items[..m])| == i && |FailedOf(items[..n])| == k;
      var who := (failed[k].provider, failed[k].identity);
      assert who in Shown(items[m]) && who in Shown(items[n]);
      CountsTally(items, who);
      if m < n { TallyAtLeast(items, who, m, n); } else { TallyAtLeast(items, who, n, m); }
    }
  }

  /** The accounts as the observations of a scan leave them. */
  ghost function SeenTable(t: Table, cs: seq<Listing>, items: seq<Item>, now: Time, cfg: Config, admits: nat -> bool):
    Table
  {
    AppliedAll(Correlated(t, cs, CountsOf(items), RuntimeOf(items)), items, Keys(cs), CountsOf(items), now, cfg, admits)
  }

  /** Some candidate whose read failed may still be the account under `k`, and no other. */
  ghost predicate MayBe(seen: Table, cs: seq<Listing>, items: seq<Item>, k: string) {
    exists n :: 0 <= n < |items| && items[n].read.Failed?
      && Awaits(seen, items[n].entry, CountsOf(items), Keys(cs), k)
  }

  lemma {:induction false} FailedAt(items: seq<Item>, n: nat)
    requires n < |items| && items[n].read.Failed?
    ensures items[n].entry in FailedOf(items)
  {
    if n < |items| - 1 {
      FailedAt(items[..|items| - 1], n);
    }
  }

  lemma AwaitedIsMayBe(seen: Table, cs: seq<Listing>, items: seq<Item>, k: string)
    ensures Awaited(seen, FailedOf(items), CountsOf(items), Keys(cs), k) <==> MayBe(seen, cs, items, k)
  {
    hide Awaits, CountsOf, Keys;
    var failed := FailedOf(items);
    if Awaited(seen, failed, CountsOf(items), Keys(cs), k) {
      var i :| 0 <= i < |failed| && Awaits(seen, failed[i], CountsOf(items), Keys(cs), k);
      var n := FailedItems(items, i);
    }
    if MayBe(seen, cs, items, k) {
      var n :| 0 <= n < |items| && items[n].read.Failed?
        && Awaits(seen, items[n].entry, CountsOf(items), Keys(cs), k);
      FailedAt(items, n);
      var i :| 0 <= i < |failed| && failed[i] == items[n].entry;
    }
  }

  lemma SparedIsMayBe(t: Table, cs: seq<Listing>, items: seq<Item>, now: Time, cfg: Config, admits: nat -> bool,
                      k: string)
    requires k in SeenTable(t, cs, items, now, cfg, admits)
    ensures var seen := SeenTable(t, cs, items, now, cfg, admits);
      k in SparedAll(seen, FailedOf(items), CountsOf(items), Keys(cs)) <==> k in Keys(cs) || MayBe(seen, cs, items, k)
  {
    hide *;
    var seen := SeenTable(t, cs, items, now, cfg, admits);
    FailedSolo(items);
    SparedExactly(seen, FailedOf(items), CountsOf(items), Keys(cs));
    AwaitedIsMayBe(seen, cs, items, k);
  }

  /** An account off the roster that a failed candidate may still be is untouched by the scan, up to the
      retention of an earlier removal, and its removal is not announced. */
  lemma MayBeStays(t: Table, cs: seq<Listing>, items: seq<Item>, now: Time, cfg: Config, retention: int,
                   admits: nat -> bool, lets: string -> bool, k: string)
    requires k in SeenTable(t, cs, items, now, cfg, admits) && k !in Keys(cs)
    requires MayBe(SeenTable(t, cs, items, now, cfg, admits), cs, items, k)
    ensures var seen := SeenTable(t, cs, items, now, cfg, admits);
      var after := AfterScan(t, cs, items, now, cfg, retention, admits);
      && (k in after ==> after[k] == seen[k])
      && (k !in after <==>
            && seen[k].incident.health == Removed && seen[k].removedAt != 0
            && (retention == 0 || (retention > 0 && seen[k].removedAt + retention <= now)))
      && forall x | x in ScanQueue(t, cs, items, now, cfg, admits, lets) && x.key == k :: !x.ticket.kind.RemovedKind?
  {
    SparedIsMayBe(t, cs, items, now, cfg, admits, k);
    forall x | x in ScanQueue(t, cs, items, now, cfg, admits, lets) && x.key == k ensures !x.ticket.kind.RemovedKind? {
      hide AfterScan, SparedAll, MayBe, ScanQueue;
      if x.ticket.kind.RemovedKind? {
        RemovalNoticesAreExact(t, cs, items, now, cfg, admits, lets, x);
      }
    }
    hide SparedAll, MayBe, AppliedAll, Correlated, CountsOf, RuntimeOf, Keys, ScanQueue, Gone;
  }

  /** The account has left with a scan at `now`, or had left before. */
  predicate Left(before: Record, after: Record, now: Time) {
    if before.incident.health == Removed then after == before
    else
      && after.incident.health == Removed && after.removedAt == now && after.incident.previous == before.incident.health
      && !after.incident.alertSent && after.incident.recoveryFrom == NoState
      && after.incident.generation == before.incident.generation
  }

  /** Any other account off the roster ends up removed, with its alert and its recovery closed, and unless
      it was removed before, that is announced as far as configured and taken; it is forgotten once the
      retention of its removal is over. */
  lemma OthersLeave(t: Table, cs: seq<Listing>, items: seq<Item>, now: Time, cfg: Config, retention: int,
                    admits: nat -> bool, lets: string -> bool, k: string)
    requires k in SeenTable(t, cs, items, now, cfg, admits) && k !in Keys(cs)
    requires !MayBe(SeenTable(t, cs, items, now, cfg, admits), cs, items, k)
    ensures var seen := SeenTable(t, cs, items, now, cfg, admits);
      var after := AfterScan(t, cs, items, now, cfg, retention, admits);
      && (k in after ==> Left(seen[k], after[k], now))
      && var since := if seen[k].incident.health == Removed then seen[k].removedAt else now;
      && (k !in after <==> since != 0 && (retention == 0 || (retention > 0 && since + retention <= now)))
      && (seen[k].incident.health != Removed && cfg.notifyRemoved && lets(k) ==>
            Notification(k, Ticket(RemovedKind, seen[k].incident.generation, 0))
              in ScanQueue(t, cs, items, now, cfg, admits, lets))
  {
    SparedIsMayBe(t, cs, items, now, cfg, admits, k);
    var seen := SeenTable(t, cs, items, now, cfg, admits);
    var x := Notification(k, Ticket(RemovedKind, seen[k].incident.generation, 0));
    assert seen[k].incident.health != Removed && cfg.notifyRemoved && lets(k) ==>
      x in ScanQueue(t, cs, items, now, cfg, admits, lets) by {
      hide AfterScan, SparedAll, MayBe, ScanQueue;
      RemovalNoticesAreExact(t, cs, items, now, cfg, admits, lets, x);
    }
    hide SparedAll, MayBe, AppliedAll, Correlated, CountsOf, RuntimeOf, Keys, ScanQueue;
  }
}
