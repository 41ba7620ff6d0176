/** What a scan queues: removal notices for exactly the accounts that leave, everything else only from
    a read of that account, and never two notifications about one account. */
module ScanNotices {
  import opened Health
  import opened Incident
  import opened Accounts
  import opened Rollback
  import opened Discovery
  import opened Moves
  import opened Scan

  /** One observation queues at most one notification, and never a removal notice. */
  lemma ObserveSpeaksOnce(i: Incident, obs: Observation, now: Time, cfg: Config, admit: bool, t: Ticket, u: Ticket)
    requires t in Observe(i, obs, now, cfg, admit).issued && u in Observe(i, obs, now, cfg, admit).issued
    ensures t == u && !t.kind.RemovedKind?
  {
    hide Weigh, Due;
  }

  /** The last item's part of what the observations queue. */
  ghost function Part(before: Table, item: Item, active: set<string>, counts: Counts, now: Time, cfg: Config,
                      admit: bool): multiset<Notification> {
    match item.read
    case Failed => multiset{}
    case Seen(s, obs) => Tagged(s.key, Observe(Base(before, s, active, counts).incident, obs, now, cfg, admit).issued)
  }

  lemma PartSpeaksOnce(before: Table, item: Item, active: set<string>, counts: Counts, now: Time, cfg: Config,
                       admit: bool, x: Notification)
    requires x in Part(before, item, active, counts, now, cfg, admit)
    ensures item.read.Seen? && item.read.snapshot.key == x.key && !x.ticket.kind.RemovedKind?
    ensures Part(before, item, active, counts, now, cfg, admit) == multiset{x}
  {
    hide Observe, Base;
    var s, obs := item.read.snapshot, item.read.observation;
    var i := Base(before, s, active, counts).incident;
    var issued := Observe(i, obs, now, cfg, admit).issued;
    ObserveSpeaksOnce(i, obs, now, cfg, admit, x.ticket, x.ticket);
    forall t | t in issued ensures t == x.ticket {
      ObserveSpeaksOnce(i, obs, now, cfg, admit, t, x.ticket);
    }
    assert issued == {x.ticket};
    assert (set t | t in issued :: Notification(s.key, t)) == {x};
  }

  ghost predicate ReadOf(items: seq<Item>, key: string) {
    exists i :: 0 <= i < |items| && items[i].read.Seen? && items[i].read.snapshot.key == key
  }

  /** Every account is read at most once. */
  ghost predicate ReadOnce(items: seq<Item>) {
    forall i, k | 0 <= i < k < |items| && items[i].read.Seen? && items[k].read.Seen? ::
      items[i].read.snapshot.key != items[k].read.snapshot.key
  }

  /** What observations queue is about accounts that were read. */
  lemma {:induction false} ReadsSpeak(t: Table, items: seq<Item>, active: set<string>, counts: Counts, now: Time,
                                      cfg: Config, admits: nat -> bool, x: Notification)
    requires x in QueuedAll(t, items, active, counts, now, cfg, admits)
    ensures ReadOf(items, x.key) && !x.ticket.kind.RemovedKind?
  {
    hide Observe, Base, Tagged, AppliedAll;
    var n := |items| - 1;
    var before := AppliedAll(t, items[..n], active, counts, now, cfg, admits);
    if x in QueuedAll(t, items[..n], active, counts, now, cfg, admits) {
      ReadsSpeak(t, items[..n], active, counts, now, cfg, admits, x);
      var i :| 0 <= i < n && items[..n][i].read.Seen? && items[..n][i].read.snapshot.key == x.key;
      assert items[i].read.Seen? && items[i].read.snapshot.key == x.key;
    } else {
      PartSpeaksOnce(before, items[n], active, counts, now, cfg, admits(n), x);
    }
  }

  /** No read account is spoken of twice. */
  lemma {:induction false} ReadsSpeakOnce(t: Table, items: seq<Item>, active: set<string>, counts: Counts, now: Time,
                                          cfg: Config, admits: nat -> bool, x: Notification, y: Notification)
    requires ReadOnce(items) && x.key == y.key
    requires x in QueuedAll(t, items, active, counts, now, cfg, admits)
    requires y in QueuedAll(t, items, active, counts, now, cfg, admits)
    ensures x == y && QueuedAll(t, items, active, counts, now, cfg, admits)[x] == 1
  {
    hide Observe, Base, Tagged, AppliedAll, ReadOnce;
    var n := |items| - 1;
    var before := AppliedAll(t, items[..n], active, counts, now, cfg, admits);
    var earlier := QueuedAll(t, items[..n], active, counts, now, cfg, admits);
    var part := Part(before, items[n], active, counts, now, cfg, admits(n));
    assert QueuedAll(t, items, active, counts, now, cfg, admits) == earlier + part;
    ReadOnceFront(items);
    forall z | z in part && z.key == x.key ensures part == multiset{z} && x !in earlier && y !in earlier {
      PartSpeaksOnce(before, items[n], active, counts, now, cfg, admits(n), z);
      if x in earlier {
        ReadsSpeak(t, items[..n], active, counts, now, cfg, admits, x);
        ReadTwice(items, x.key);
      }
      if y in earlier {
        ReadsSpeak(t, items[..n], active, counts, now, cfg, admits, y);
        ReadTwice(items, y.key);
      }
    }
    if x !in part && y !in part {
      ReadsSpeakOnce(t, items[..n], active, counts, now, cfg, admits, x, y);
    }
  }

  lemma ReadOnceFront(items: seq<Item>)
    requires ReadOnce(items) && items != []
    ensures ReadOnce(items[..|items| - 1])
  {
  }

  lemma ReadTwice(items: seq<Item>, key: string)
    requires ReadOnce(items) && items != []
    requires items[|items| - 1].read.Seen? && items[|items| - 1].read.snapshot.key == key
    ensures !ReadOf(items[..|items| - 1], key)
  {
  }

  /** A scan announces the removal of exactly the accounts that leave with it and were not marked removed
      before, once each, as far as that is configured and the dispatcher takes it. */
  lemma RemovalNoticesAreExact(t: Table, cs: seq<Listing>, items: seq<Item>, now: Time, cfg: Config,
                               admits: nat -> bool, lets: string -> bool, x: Notification)
    requires x.ticket.kind.RemovedKind?
    ensures var counts, active := CountsOf(items), Keys(cs);
      var seen := AppliedAll(Correlated(t, cs, counts, RuntimeOf(items)), items, active, counts, now, cfg, admits);
      var kept := SparedAll(seen, FailedOf(items), counts, active);
      ScanQueue(t, cs, items, now, cfg, admits, lets)[x]
      == if Parts(seen, kept, cfg, lets, x.key) && x == Parting(seen[x.key], x.key) then 1 else 0
  {
    hide Correlated, CountsOf, RuntimeOf, Keys, AppliedAll, SparedAll, QueuedAll;
    var counts, active := CountsOf(items), Keys(cs);
    var moved := Correlated(t, cs, counts, RuntimeOf(items));
    if x in QueuedAll(moved, items, active, counts, now, cfg, admits) {
      ReadsSpeak(moved, items, active, counts, now, cfg, admits, x);
    }
  }

  /** Anything else a scan queues is about an account it has read: a failed read says nothing. */
  lemma OnlyReadsSpeak(t: Table, cs: seq<Listing>, items: seq<Item>, now: Time, cfg: Config,
                       admits: nat -> bool, lets: string -> bool, x: Notification)
    requires x in ScanQueue(t, cs, items, now, cfg, admits, lets) && !x.ticket.kind.RemovedKind?
    ensures ReadOf(items, x.key)
  {
    hide Correlated, CountsOf, RuntimeOf, Keys, AppliedAll, SparedAll, QueuedAll, ReadOf;
    var counts, active := CountsOf(items), Keys(cs);
    var moved := Correlated(t, cs, counts, RuntimeOf(items));
    ReadsSpeak(moved, items, active, counts, now, cfg, admits, x);
  }

  /** If every account in the roster was read at most once, and under a key of the roster, no account is
      spoken of twice by one scan. */
  lemma OneNotificationPerAccount(t: Table, cs: seq<Listing>, items: seq<Item>, now: Time, cfg: Config,
                                  admits: nat -> bool, lets: string -> bool, x: Notification, y: Notification)
    requires ReadOnce(items) && forall i | i in items && i.read.Seen? :: i.read.snapshot.key in Keys(cs)
    requires x in ScanQueue(t, cs, items, now, cfg, admits, lets)
    requires y in ScanQueue(t, cs, items, now, cfg, admits, lets) && x.key == y.key
    ensures x == y && ScanQueue(t, cs, items, now, cfg, admits, lets)[x] == 1
  {
    hide Correlated, CountsOf, RuntimeOf, Keys, AppliedAll, SparedAll, QueuedAll, ReadOnce;
    var counts, active := CountsOf(items), Keys(cs);
    var moved := Correlated(t, cs, counts, RuntimeOf(items));
    var seen := AppliedAll(moved, items, active, counts, now, cfg, admits);
    var heard := QueuedAll(moved, items, active, counts, now, cfg, admits);
    SparedAllMore(seen, FailedOf(items), counts, active);
    if x in heard { ReadsSpeak(moved, items, active, counts, now, cfg, admits, x); }
    if y in heard { ReadsSpeak(moved, items, active, counts, now, cfg, admits, y); }
    if x in heard && y in heard {
      ReadsSpeakOnce(moved, items, active, counts, now, cfg, admits, x, y);
    }
  }
}
