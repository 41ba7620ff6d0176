/** What becomes of an account that a scan reads: whose record the observation goes to, and what is in it
    when the scan is over. */
module Observations {
  import opened Health
  import opened Incident
  import opened Accounts
  import opened Rollback
  import opened Discovery
  import opened Moves
  import opened Scan
  import opened ScanNotices

  /** The record after a read: the incident goes on from where it stood, the usage stays, and everything
      else is as the snapshot shows it. */
  function AsRead(r: Record, s: Snapshot, obs: Observation, now: Time, cfg: Config, admit: bool): Record {
    Record(r.key, s.provider, s.authIndex, s.name, s.identity, Observe(r.incident, obs, now, cfg, admit).incident, 0,
           if obs.state == Healthy || obs.state == QuotaLimited then now else r.lastHealthy, now,
           s.status, s.unavailable, obs.state == QuotaLimited, r.quota)
  }

  /** The record under the key is the snapshot's, as far as identities can tell. */
  predicate MayBeOwn(t: Table, s: Snapshot) {
    s.key in t && (t[s.key].identity == "" || s.identity == "" || t[s.key].identity == s.identity)
  }

  lemma OwnRecordGoesOn(t: Table, s: Snapshot, obs: Observation, active: set<string>, counts: Counts, now: Time,
                        cfg: Config, admit: bool)
    requires MayBeOwn(t, s)
    ensures Applied(t, s, obs, active, counts, now, cfg, admit)
         == t[s.key := AsRead(t[s.key], s, obs, now, cfg, admit)]
  {
    hide Observe;
  }

  /** Under another key, off the roster, lies the one record that bears the snapshot's identity, which
      nothing else in the scan shows. */
  ghost predicate OnlyHeir(t: Table, s: Snapshot, active: set<string>, counts: Counts, k: string) {
    && s.identity != "" && Count(counts, s.provider, s.identity) == 1 && k !in active && k != s.key && k in t
    && forall x | x in t && x != s.key ::
         t[x].provider == s.provider && t[x].identity == s.identity <==> x == k
  }

  lemma HeirMovesIn(t: Table, s: Snapshot, obs: Observation, active: set<string>, counts: Counts, now: Time,
                    cfg: Config, admit: bool, k: string)
    requires !MayBeOwn(t, s) && OnlyHeir(t, s, active, counts, k)
    ensures Applied(t, s, obs, active, counts, now, cfg, admit)
         == (t - {k})[s.key := AsRead(t[k].(key := s.key), s, obs, now, cfg, admit)]
  {
    hide Observe;
    assert Inherits(t, s, active, counts, k);
    HeirUnique(t, s, active, counts, k);
  }

  /** An account nobody has seen: health unknown, no incident, no message, no usage. */
  function Unseen(s: Snapshot): Record {
    Record(s.key, s.provider, s.authIndex, "", "",
           Incident(Unknown, NoState, 0, NoReason, 0, 0, false, 0, 0, 0, NoState, 0, 0, 0, Unconfirmable, Unknown,
                    NoReason),
           0, 0, 0, "", false, false, Quota(0.0, 0, 0, 0, "", 0, 0, 0, 0, 0))
  }

  lemma StrangerStartsAfresh(t: Table, s: Snapshot, obs: Observation, active: set<string>, counts: Counts, now: Time,
                             cfg: Config, admit: bool)
    requires !MayBeOwn(t, s) && forall k :: !OnlyHeir(t, s, active, counts, k)
    ensures Applied(t, s, obs, active, counts, now, cfg, admit)
         == t[s.key := AsRead(Unseen(s), s, obs, now, cfg, admit)]
  {
    hide Observe;
    forall k ensures !Inherits(t, s, active, counts, k) {
      InheritorIsOnlyHeir(t, s, active, counts, k);
    }
  }

  lemma InheritorIsOnlyHeir(t: Table, s: Snapshot, active: set<string>, counts: Counts, k: string)
    ensures Inherits(t, s, active, counts, k) ==> OnlyHeir(t, s, active, counts, k)
  {
    if Inherits(t, s, active, counts, k) {
      forall x | x in t && x != s.key
        ensures t[x].provider == s.provider && t[x].identity == s.identity <==> x == k
      {
        assert Bears(t, s, k);
        if t[x].provider == s.provider && t[x].identity == s.identity { assert Bears(t, s, x); }
      }
    }
  }

  // ---------- over a whole scan ----------

  /** Later reads of other accounts leave a record in the roster alone. */
  lemma {:induction false} LaterReadsSpare(t: Table, items: seq<Item>, n: nat, active: set<string>, counts: Counts,
                                           now: Time, cfg: Config, admits: nat -> bool, k: string)
    requires n <= |items| && k in active && k in AppliedAll(t, items[..n], active, counts, now, cfg, admits)
    requires forall m | n <= m < |items| && items[m].read.Seen? :: items[m].read.snapshot.key != k
    ensures k in AppliedAll(t, items, active, counts, now, cfg, admits)
    ensures AppliedAll(t, items, active, counts, now, cfg, admits)[k]
         == AppliedAll(t, items[..n], active, counts, now, cfg, admits)[k]
    decreases |items|
  {
    hide Applied;
    if n == |items| {
      assert items[..n] == items;
    } else {
      var last := |items| - 1;
      assert items[..last][..n] == items[..n];
      LaterReadsSpare(t, items[..last], n, active, counts, now, cfg, admits, k);
      if items[last].read.Seen? {
        ObservationSparesOthers(AppliedAll(t, items[..last], active, counts, now, cfg, admits),
                                items[last].read.snapshot, items[last].read.observation, active, counts, now, cfg,
                                admits(last), k);
      }
    }
  }

  lemma AppliedNext(t: Table, items: seq<Item>, n: nat, active: set<string>, counts: Counts, now: Time, cfg: Config,
                    admits: nat -> bool)
    requires n < |items| && items[n].read.Seen?
    ensures AppliedAll(t, items[..n + 1], active, counts, now, cfg, admits)
         == Applied(AppliedAll(t, items[..n], active, counts, now, cfg, admits), items[n].read.snapshot,
                    items[n].read.observation, active, counts, now, cfg, admits(n))
  {
    hide Applied;
    assert items[..n + 1][..n] == items[..n];
  }

  /** What a roster account holds when the scan is over is what its observations made of it. */
  lemma RosterAccountsStay(t: Table, cs: seq<Listing>, items: seq<Item>, now: Time, cfg: Config, retention: int,
                           admits: nat -> bool, k: string)
    requires k in Keys(cs)
    requires var seen := AppliedAll(Correlated(t, cs, CountsOf(items), RuntimeOf(items)), items, Keys(cs),
                                    CountsOf(items), now, cfg, admits);
      k in seen && seen[k].removedAt == 0
    ensures k in AfterScan(t, cs, items, now, cfg, retention, admits)
    ensures AfterScan(t, cs, items, now, cfg, retention, admits)[k]
         == AppliedAll(Correlated(t, cs, CountsOf(items), RuntimeOf(items)), items, Keys(cs), CountsOf(items), now, cfg,
                       admits)[k]
  {
    hide Correlated, CountsOf, RuntimeOf, Keys, AppliedAll, SparedAll, Gone;
    var counts, active := CountsOf(items), Keys(cs);
    SparedAllMore(AppliedAll(Correlated(t, cs, counts, RuntimeOf(items)), items, active, counts, now, cfg, admits),
                  FailedOf(items), counts, active);
  }

  /** A roster account that is read, and whose record lies under its key once replacements have been
      correlated, ends the scan as its own observation has left it, whatever the scan did besides. */
  lemma ReadAccountAfterScan(t: Table, cs: seq<Listing>, items: seq<Item>, now: Time, cfg: Config, retention: int,
                             admits: nat -> bool, n: nat)
    requires ReadOnce(items) && n < |items| && items[n].read.Seen? && items[n].read.snapshot.key in Keys(cs)
    requires MayBeOwn(Correlated(t, cs, CountsOf(items), RuntimeOf(items)), items[n].read.snapshot)
    ensures var s, obs := items[n].read.snapshot, items[n].read.observation;
      var after := AfterScan(t, cs, items, now, cfg, retention, admits);
      && s.key in after
      && after[s.key]
           == AsRead(Correlated(t, cs, CountsOf(items), RuntimeOf(items))[s.key], s, obs, now, cfg, admits(n))
  {
    hide Correlated, CountsOf, RuntimeOf, Keys, AppliedAll, Applied, AfterScan;
    var counts, active := CountsOf(items), Keys(cs);
    var moved := Correlated(t, cs, counts, RuntimeOf(items));
    var s, obs := items[n].read.snapshot, items[n].read.observation;
    ReadBefore(items, n);
    RosterUndisturbed(moved, items[..n], active, counts, now, cfg, admits, s.key);
    var before := AppliedAll(moved, items[..n], active, counts, now, cfg, admits);
    OwnRecordGoesOn(before, s, obs, active, counts, now, cfg, admits(n));
    AppliedNext(moved, items, n, active, counts, now, cfg, admits);
    LaterReadsSpare(moved, items, n + 1, active, counts, now, cfg, admits, s.key);
    RosterAccountsStay(t, cs, items, now, cfg, retention, admits, s.key);
  }

  lemma ReadBefore(items: seq<Item>, n: nat)
    requires ReadOnce(items) && n < |items| && items[n].read.Seen?
    ensures forall x | x in items[..n] && x.read.Seen? :: x.read.snapshot.key != items[n].read.snapshot.key
  {
    forall x | x in items[..n] && x.read.Seen? ensures x.read.snapshot.key != items[n].read.snapshot.key {
      var i :| 0 <= i < n && items[..n][i] == x;
      assert items[i] == x;
    }
  }
}
