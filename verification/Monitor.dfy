/** The monitor object: its accounts, its scans, and the closures it hands to the dispatcher. */
module Monitors {
  import opened Health
  import opened Incident
  import opened Accounts
  import opened Rollback
  import opened Discovery
  import opened Scan
  import Q = Quotas

  // ---------- one identity for life ----------

  /** The objects under their keys at one moment, and what their records were. */
  datatype Photo = Photo(objects: map<string, Account>, table: Table)

  ghost predicate Whole(p: Photo) {
    p.objects.Keys == p.table.Keys && Distinct(p.objects)
  }

  /** Nobody who has left comes back: an object seen at `m` and after `n` was there at `n`. */
  ghost predicate NoReturn(photos: seq<Photo>, m: nat, n: nat)
    requires m <= n < |photos| - 1
  {
    forall o | o in Objects(photos[n + 1].objects) && o in Objects(photos[m].objects) :: o in Objects(photos[n].objects)
  }

  /** A record of scans, one photo before the first and one after each. */
  ghost predicate Chronicle(photos: seq<Photo>) {
    && (forall n | 0 <= n < |photos| :: Whole(photos[n]))
    && (forall n | 0 <= n < |photos| - 1 ::
          SameNames(photos[n].objects, photos[n].table, photos[n + 1].objects, photos[n + 1].table))
    && (forall m, n | 0 <= m <= n < |photos| - 1 :: NoReturn(photos, m, n))
  }

  /** Over any number of scans, an object that is an account at two moments has the same identity at both. */
  lemma {:induction false} OneIdentityForLife(photos: seq<Photo>, i: nat, k: nat, a: string, b: string)
    requires Chronicle(photos) && i <= k < |photos|
    requires a in photos[i].objects && b in photos[k].objects && photos[i].objects[a] == photos[k].objects[b]
    ensures a in photos[i].table && b in photos[k].table
    ensures photos[k].table[b].identity == photos[i].table[a].identity
    decreases k
  {
    assert Whole(photos[i]) && Whole(photos[k]);
    if i < k {
      var o := photos[k].objects[b];
      assert NoReturn(photos, i, k - 1);
      assert o in Objects(photos[i].objects) && o in Objects(photos[k - 1 + 1].objects);
      var c :| c in photos[k - 1].objects && photos[k - 1].objects[c] == o;
      OneIdentityForLife(photos, i, k - 1, a, c);
      assert SameNames(photos[k - 1].objects, photos[k - 1].table, photos[k - 1 + 1].objects, photos[k - 1 + 1].table);
    }
  }

  /** At any one moment an object is under one key. */
  lemma OneKeyAtATime(photos: seq<Photo>, n: nat, a: string, b: string)
    requires Chronicle(photos) && n < |photos| && a in photos[n].objects && b in photos[n].objects
    requires photos[n].objects[a] == photos[n].objects[b]
    ensures a == b
  {
    assert Whole(photos[n]);
  }

  /** The record ends with these objects, and they still have the identities they were last seen with. */
  ghost predicate Recording(photos: seq<Photo>, objects: map<string, Account>, t: Table) {
    && photos != [] && Chronicle(photos)
    && var last := photos[|photos| - 1];
    && last.objects == objects && objects.Keys == t.Keys == last.table.Keys
    && forall k | k in t :: t[k].identity == last.table[k].identity
  }

  ghost predicate Unseen(photos: seq<Photo>, o: Account) {
    forall m | 0 <= m < |photos| :: o !in Objects(photos[m].objects)
  }

  lemma ChronicleGrows(photos: seq<Photo>, objects: map<string, Account>, t: Table, p: Photo)
    requires Recording(photos, objects, t) && Whole(p)
    requires SameNames(objects, t, p.objects, p.table)
    requires forall o | o in Objects(p.objects) :: o in Objects(objects) || Unseen(photos, o)
    ensures Recording(photos + [p], p.objects, p.table)
  {
    var all, last := photos + [p], photos[|photos| - 1];
    assert Whole(last);
    assert SameNames(last.objects, last.table, p.objects, p.table);
    assert p.objects.Keys == p.table.Keys;
    hide SameNames, Whole;
    forall n | 0 <= n < |all| - 1
      ensures SameNames(all[n].objects, all[n].table, all[n + 1].objects, all[n + 1].table)
    {
      if n + 1 < |photos| { assert all[n + 1] == photos[n + 1]; }
    }
    forall m, n | 0 <= m <= n < |all| - 1 ensures NoReturn(all, m, n) {
      if n + 1 < |photos| { assert NoReturn(photos, m, n); }
    }
  }

  /** The record stays right as long as identities do. */
  lemma RecordingStays(photos: seq<Photo>, objects: map<string, Account>, t: Table, u: Table)
    requires t.Keys == u.Keys && forall k | k in t :: u[k].identity == t[k].identity
    ensures Recording(photos, objects, t) ==> Recording(photos, objects, u)
    ensures Identified(t) ==> Identified(u)
  {
  }

  class Monitor {
    const cfg: Config
    const limits: Q.Limits
    const retention: int
    var accounts: map<string, Account>
    var retiring: bool
    ghost var photos: seq<Photo>

    constructor (cfg: Config, limits: Q.Limits, retention: int, accounts: map<string, Account>)
      requires Distinct(accounts) && "" !in accounts
      ensures Valid() && this.accounts == accounts && !retiring
      ensures this.cfg == cfg && this.limits == limits && this.retention == retention
      ensures photos == [Photo(accounts, Values(accounts))] && (Identified(Values(accounts)) ==> Recorded())
    {
      this.cfg, this.limits, this.retention := cfg, limits, retention;
      this.accounts, retiring := accounts, false;
      photos := [Photo(accounts, Values(accounts))];
    }

    /** One object per key. */
    ghost predicate Valid()
      reads this
    {
      Distinct(accounts) && "" !in accounts
    }

    /** The scans so far are on record, and every account still has the identity it was last seen with. */
    ghost predicate Recorded()
      reads this, Objects(accounts)
    {
      Valid() && Identified(Values(accounts)) && Recording(photos, accounts, Values(accounts))
    }

    ghost predicate Current(account: Account)
      reads this
    {
      exists k :: k in accounts && accounts[k] == account
    }

    /** `accountCurrentLocked`: is this very object still in the map? */
    method IsCurrent(account: Account) returns (current: bool)
      ensures current <==> Current(account)
    {
      current := false;
      var todo := accounts.Keys;
      while todo != {} && !current
        invariant todo <= accounts.Keys
        invariant current ==> Current(account)
        invariant !current ==> forall k | k in accounts.Keys - todo :: accounts[k] != account
        decreases todo
      {
        var k :| k in todo;
        todo := todo - {k};
        if accounts[k] == account {
          current := true;
        }
      }
    }

    // ---------- the closures of a queued notification ----------

    /** `deliveryValid`. */
    method DeliveryValid(account: Account, t: Ticket) returns (ok: bool)
      ensures ok <==> Current(account) && StillValid(account.incident, t)
    {
      var current := IsCurrent(account);
      if !current {
        return false;
      }
      match t.kind {
        case FailureKind => ok := account.incident.generation == t.generation && IsFailure(account.incident.health);
        case ReminderKind => ok := account.incident.generation == t.generation && IsFailure(account.incident.health);
        case RecoveryKind =>
          ok := account.incident.generation == t.generation && IsCredentialHealthy(account.incident.health)
            && account.incident.recoveryFrom != NoState;
        case DisabledKind => ok := account.incident.health == Disabled;
        case RemovedKind => ok := account.incident.health == Removed;
      }
    }

    /** `deliveryCallback`: a delivery for an object that is no longer in the map, or in a monitor that
        is retiring, changes nothing. */
    method DeliveryCallback(account: Account, t: Ticket, delivery: Delivery, admit: bool) returns (issued: set<Ticket>)
      modifies account`incident
      ensures old(Recorded()) ==> Recorded()
      ensures if old(retiring) || !old(Current(account)) then account.incident == old(account.incident) && issued == {}
        else var step := Settle(old(account.incident), t, delivery, cfg, admit);
          account.incident == step.incident && issued == step.issued
    {
      issued := {};
      if retiring {
        return;
      }
      ghost var u := Values(accounts);
      var current := IsCurrent(account);
      if current {
        hide Recording, Identified;
        issued := account.Deliver(t, delivery, cfg, admit);
        RecordingStays(photos, accounts, u, Values(accounts));
      }
    }

    /** The validity closure of a usage notice. */
    method NoticeValid(account: Account, slip: Q.Slip) returns (ok: bool)
      ensures ok <==> Current(account) && Q.StillWanted(account.quota, slip)
    {
      var current := IsCurrent(account);
      if !current || account.quota.windowKey != slip.windowKey {
        return false;
      }
      if slip.notice.Exhaustion? {
        return account.quota.exhaustedSent == 0;
      }
      ok := account.quota.warningSent == 0 && account.quota.exhaustedSent == 0;
    }

    /** `quotaDeliveryCallback`. */
    method NoticeCallback(account: Account, slip: Q.Slip, delivery: Delivery)
      modifies account`quota
      ensures old(Recorded()) ==> Recorded()
      ensures account.quota == if old(retiring) || !old(Current(account)) then old(account.quota)
                               else Q.Settled(old(account.quota), slip, delivery)
    {
      if retiring {
        return;
      }
      ghost var u := Values(accounts);
      var current := IsCurrent(account);
      if current {
        hide Recording, Identified;
        Q.DeliverQuota(account, slip, delivery);
        RecordingStays(photos, accounts, u, Values(accounts));
      }
    }

    // ---------- scanning ----------

    /** `Reconcile`, from the roster and one result for each of its candidates.  Every account afterwards
        is an object that was an account before, or a new one; with identities known, the old ones keep theirs. */
    method Reconcile(roster: seq<Listing>, enabled: set<string>, results: seq<Item>, now: Time,
                     admits: nat -> bool, lets: string -> bool)
      returns (queued: multiset<Notification>)
      requires Valid() && OnePerCandidate(Sorted(Firsts(roster, enabled), Place), results) && Named(results)
      modifies this`accounts, this`photos, Objects(accounts)
      ensures Valid()
      ensures Values(accounts) == AfterScan(old(Values(accounts)), Sorted(Firsts(roster, enabled), Place),
                                            Sorted(results, ItemRank), now, cfg, retention, admits)
      ensures queued == ScanQueue(old(Values(accounts)), Sorted(Firsts(roster, enabled), Place),
                                  Sorted(results, ItemRank), now, cfg, admits, lets)
      ensures forall k | k in accounts :: accounts[k] in old(Objects(accounts)) || fresh(accounts[k])
      ensures Identified(old(Values(accounts))) && Known(results) ==>
        SameNames(old(accounts), old(Values(accounts)), accounts, Values(accounts))
      ensures old(Ledgers(Values(accounts)) && Keyed(Values(accounts))) && Sane(results) && now > 0 ==>
        Ledgers(Values(accounts)) && Keyed(Values(accounts))
      ensures photos == old(photos) + [Photo(accounts, Values(accounts))]
      ensures old(Recorded()) && Known(results) ==> Recorded()
    {
      hide AfterScan, ScanQueue, Sorted, Firsts, Recording, SameNames, Identified, OnePerCandidate, Known, Values,
        Distinct, Ledgers, Keyed, Sane;
      ghost var before, t, seen := accounts, Values(accounts), photos;
      accounts, queued := ScanRoster(accounts, roster, enabled, results, now, cfg, retention, admits, lets);
      ghost var photo := Photo(accounts, Values(accounts));
      photos := photos + [photo];
      if Ledgers(t) && Keyed(t) && Sane(results) && now > 0 {
        RosterScanKeeps(t, roster, enabled, results, now, cfg, retention, admits);
      }
      WholePhoto(accounts, Values(accounts));
      if Known(results) && Identified(t) && Recording(seen, before, t) {
        ChronicleGrows(seen, before, t, photo);
      }
    }
  }

  lemma WholePhoto(accounts: map<string, Account>, t: Table)
    requires Distinct(accounts) && t == Values(accounts)
    ensures Whole(Photo(accounts, t))
  {
  }
}
