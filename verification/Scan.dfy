/** What a scan does with its results: observations, replacements whose read failed, removals. */
module Scan {
  import opened Health
  import opened Incident
  import opened Accounts
  import opened Rollback
  import opened Discovery
  import opened Moves
  import Store
  import Runs = IncidentRuns

  datatype Read = Failed | Seen(snapshot: Snapshot, observation: Observation)

  /** The result for one candidate. */
  datatype Item = Item(entry: Listing, read: Read)

  /** A notification handed to the dispatcher, and the key its account is under at that moment. */
  datatype Notification = Notification(key: string, ticket: Ticket)

  function Tagged(key: string, issued: set<Ticket>): multiset<Notification> {
    multiset(set t | t in issued :: Notification(key, t))
  }

  function ItemRank(x: Item): (string, string) {
    ("", KeyOf(x.entry))
  }

  // ---------- one observation, on the table ----------

  /** The record under the snapshot's key is taken to be the same account, unless both identities are
      known and differ. */
  predicate Reuses(t: Table, s: Snapshot) {
    s.key in t && !(t[s.key].identity != "" && s.identity != "" && t[s.key].identity != s.identity)
  }

  predicate Bears(t: Table, s: Snapshot, k: string) {
    k in t && k != s.key && t[k].provider == s.provider && t[k].identity == s.identity
  }

  /** The one record, not in the roster any more, that bears the snapshot's unique identity. */
  ghost predicate Inherits(t: Table, s: Snapshot, active: set<string>, counts: Counts, k: string) {
    && s.identity != "" && Count(counts, s.provider, s.identity) == 1
    && Bears(t, s, k) && k !in active && forall x | Bears(t, s, x) :: x == k
  }

  ghost predicate Inherited(t: Table, s: Snapshot, active: set<string>, counts: Counts) {
    exists k :: Inherits(t, s, active, counts, k)
  }

  ghost function Heir(t: Table, s: Snapshot, active: set<string>, counts: Counts): string
    requires Inherited(t, s, active, counts)
  {
    var k :| Inherits(t, s, active, counts, k); k
  }

  /** The record the observation starts from. */
  ghost function Base(t: Table, s: Snapshot, active: set<string>, counts: Counts): Record {
    if Reuses(t, s) then t[s.key]
    else if Inherited(t, s, active, counts) then
      t[Heir(t, s, active, counts)].(key := s.key, authIndex := s.authIndex, removedAt := 0)
    else Blank(s.key, s.provider, s.authIndex)
  }

  function Noted(r: Record, s: Snapshot, obs: Observation, now: Time): Record {
    r.(provider := s.provider, authIndex := s.authIndex, name := s.name, identity := s.identity,
       status := s.status, unavailable := s.unavailable, quotaLimited := obs.state == QuotaLimited,
       lastObserved := now, removedAt := 0,
       lastHealthy := if IsCredentialHealthy(obs.state) then now else r.lastHealthy)
  }

  function Observed(r: Record, s: Snapshot, obs: Observation, now: Time, cfg: Config, admit: bool): Record {
    Noted(r, s, obs, now).(incident := Observe(r.incident, obs, now, cfg, admit).incident)
  }

  ghost function Vacated(t: Table, s: Snapshot, active: set<string>, counts: Counts): set<string> {
    if !Reuses(t, s) && Inherited(t, s, active, counts) then {Heir(t, s, active, counts)} else {}
  }

  /** The table with the base record in place. */
  ghost function Landed(t: Table, s: Snapshot, active: set<string>, counts: Counts): Table {
    (t - Vacated(t, s, active, counts))[s.key := Base(t, s, active, counts)]
  }

  /** The table after `applyObservation`. */
  ghost function Applied(t: Table, s: Snapshot, obs: Observation, active: set<string>, counts: Counts,
                         now: Time, cfg: Config, admit: bool): Table {
    (t - Vacated(t, s, active, counts))[s.key := Observed(Base(t, s, active, counts), s, obs, now, cfg, admit)]
  }

  lemma HeirUnique(t: Table, s: Snapshot, active: set<string>, counts: Counts, k: string)
    requires Inherits(t, s, active, counts, k)
    ensures Inherited(t, s, active, counts) && Heir(t, s, active, counts) == k
  {
  }

  /** Identities are for life, keys agree with their place, and a key taken over by another identity
      starts from a fresh record unless that identity's own unique record is found. */
  lemma ObservationKeepsIdentity(t: Table, s: Snapshot, obs: Observation, active: set<string>, counts: Counts,
                                 now: Time, cfg: Config, admit: bool)
    requires s.identity != "" && forall k | k in t :: t[k].identity != "" && t[k].key == k
    ensures var after := Applied(t, s, obs, active, counts, now, cfg, admit);
      && (forall k | k in after :: after[k].identity != "" && after[k].key == k)
      && (forall k | k in after && k != s.key :: k in t && after[k] == t[k])
      && (if s.key in t && t[s.key].identity == s.identity then
            after[s.key].incident == Observe(t[s.key].incident, obs, now, cfg, admit).incident
              && after[s.key].quota == t[s.key].quota
          else if Inherited(t, s, active, counts) then
            var heir := Heir(t, s, active, counts);
            && heir in t && heir !in after && t[heir].identity == s.identity && heir !in active
            && after[s.key].incident == Observe(t[heir].incident, obs, now, cfg, admit).incident
              && after[s.key].quota == t[heir].quota
          else
            after[s.key].incident == Observe(FRESH, obs, now, cfg, admit).incident && after[s.key].quota == NO_QUOTA)
  {
    hide Observe;
  }

  /** A record that is kept under its key loses its identity to another exactly when one of the two is empty. */
  lemma IdentityLostIffOneEmpty(t: Table, s: Snapshot, obs: Observation, active: set<string>, counts: Counts,
                                now: Time, cfg: Config, admit: bool)
    requires s.key in t
    ensures Reuses(t, s) && Applied(t, s, obs, active, counts, now, cfg, admit)[s.key].identity != t[s.key].identity
       <==> (t[s.key].identity == "") != (s.identity == "")
  {
    hide Observe;
  }

  /** And then the incident passes on: an account that is read once without identity hands its incident
      and its usage latches to whatever identity is read next under its key. */
  lemma StatePassesOn(t: Table, blank: Snapshot, next: Snapshot, seen: Observation, obs: Observation,
                      active: set<string>, counts: Counts, now: Time, later: Time, cfg: Config, admit: bool)
    requires blank.key in t && blank.identity == "" && next.key == blank.key
    ensures var once := Applied(t, blank, seen, active, counts, now, cfg, admit);
      var twice := Applied(once, next, obs, active, counts, later, cfg, admit);
      && twice[next.key].identity == next.identity && twice[next.key].quota == t[next.key].quota
      && twice[next.key].incident
           == Observe(Observe(t[next.key].incident, seen, now, cfg, admit).incident, obs, later, cfg, admit).incident
  {
    hide Observe;
  }

  /** A record in the roster is displaced by nobody: only an observation of its own key touches it. */
  lemma ObservationSparesOthers(t: Table, s: Snapshot, obs: Observation, active: set<string>, counts: Counts,
                                now: Time, cfg: Config, admit: bool, k: string)
    requires k in t && k in active && k != s.key
    ensures k in Applied(t, s, obs, active, counts, now, cfg, admit)
    ensures Applied(t, s, obs, active, counts, now, cfg, admit)[k] == t[k]
  {
    hide Observe;
  }

  // ---------- one observation, on the live accounts ----------

  /** The search of `correlatedKeyLocked`. */
  method FindHeir(accounts: map<string, Account>, s: Snapshot, active: set<string>, counts: Counts)
    returns (oldKey: string)
    requires "" !in accounts
    ensures oldKey != "" ==> Inherits(Values(accounts), s, active, counts, oldKey)
    ensures oldKey == "" ==> !Inherited(Values(accounts), s, active, counts)
  {
    if s.identity == "" || Count(counts, s.provider, s.identity) != 1 {
      return "";
    }
    oldKey := "";
    var todo := accounts.Keys;
    while todo != {}
      invariant todo <= accounts.Keys
      invariant forall k | k in accounts.Keys - todo && Bears(Values(accounts), s, k) :: k !in active
      invariant forall k | k in accounts.Keys - todo && Bears(Values(accounts), s, k) :: k == oldKey
      invariant oldKey != "" ==> oldKey in accounts.Keys - todo && Bears(Values(accounts), s, oldKey)
      decreases todo
    {
      var k :| k in todo;
      todo := todo - {k};
      var account := accounts[k];
      if k == s.key || account.provider != s.provider || account.identity != s.identity {
        continue;
      }
      assert Bears(Values(accounts), s, k);
      if k in active {
        return "";
      }
      if oldKey != "" {
        return "";
      }
      oldKey := k;
    }
  }

  method NoteCredential(account: Account, s: Snapshot)
    modifies account
    ensures account.View() == old(account.View()).(provider := s.provider, authIndex := s.authIndex, name := s.name,
      identity := s.identity, status := s.status, unavailable := s.unavailable)
  {
    account.provider := s.provider;
    account.authIndex := s.authIndex;
    account.name := s.name;
    account.identity := s.identity;
    account.status := s.status;
    account.unavailable := s.unavailable;
  }

  method NoteSnapshot(account: Account, s: Snapshot, obs: Observation, now: Time)
    modifies account
    ensures account.View() == Noted(old(account.View()), s, obs, now)
  {
    hide IsCredentialHealthy;
    NoteCredential(account, s);
    account.quotaLimited := obs.state == QuotaLimited;
    account.lastObserved := now;
    account.removedAt := 0;
    if IsCredentialHealthy(obs.state) {
      account.lastHealthy := now;
    }
  }

  method NoteAndObserve(account: Account, s: Snapshot, obs: Observation, now: Time, cfg: Config, admit: bool)
    returns (issued: set<Ticket>)
    modifies account
    ensures account.View() == Observed(old(account.View()), s, obs, now, cfg, admit)
    ensures issued == Observe(old(account.incident), obs, now, cfg, admit).issued
  {
    hide Observe;
    NoteSnapshot(account, s, obs, now);
    issued := account.ObserveHealth(obs, now, cfg, admit);
  }

  method Adopt(account: Account, s: Snapshot)
    modifies account`key, account`authIndex, account`removedAt
    ensures account.View() == old(account.View()).(key := s.key, authIndex := s.authIndex, removedAt := 0)
  {
    account.key := s.key;
    account.authIndex := s.authIndex;
    account.removedAt := 0;
  }

  /** The record object an observation lands on, under its key. */
  method Land(accounts: map<string, Account>, s: Snapshot, active: set<string>, counts: Counts)
    returns (after: map<string, Account>, account: Account, ghost vacated: set<string>)
    requires Distinct(accounts) && "" !in accounts
    modifies (set k | k in accounts :: accounts[k])
    ensures var t := old(Values(accounts));
      && account.View() == Base(t, s, active, counts)
      && vacated == Vacated(t, s, active, counts)
      && after == (accounts - vacated)[s.key := account]
      && (if Reuses(t, s) then s.key in accounts && account == accounts[s.key]
          else if Inherited(t, s, active, counts) then Heir(t, s, active, counts) in accounts
            && account == accounts[Heir(t, s, active, counts)]
          else fresh(account))
      && forall k | k in accounts && accounts[k] != account :: accounts[k].View() == old(accounts[k].View())
  {
    ghost var t := Values(accounts);
    vacated := {};
    if s.key in accounts
       && !(accounts[s.key].identity != "" && s.identity != "" && accounts[s.key].identity != s.identity) {
      account := accounts[s.key];
      after := accounts[s.key := account];
      assert accounts - {} == accounts;
      return;
    }
    var oldKey := FindHeir(accounts, s, active, counts);
    if oldKey != "" {
      HeirUnique(t, s, active, counts, oldKey);
      account := accounts[oldKey];
      Adopt(account, s);
      after := (accounts - {oldKey})[s.key := account];
      vacated := {oldKey};
    } else {
      account := new Account(s.key, s.provider, s.authIndex);
      after := accounts[s.key := account];
      assert accounts - {} == accounts;
    }
  }

  lemma LandedDistinct(accounts: map<string, Account>, key: string, account: Account, vacated: set<string>,
                       after: map<string, Account>)
    requires Distinct(accounts) && after == (accounts - vacated)[key := account]
    requires forall k | k in accounts && accounts[k] == account :: k == key || k in vacated
    ensures Distinct(after)
    ensures forall k | k in after && k != key :: k in accounts && after[k] == accounts[k] && after[k] != account
  {
  }

  method ObserveAt(accounts: map<string, Account>, key: string, s: Snapshot, obs: Observation, now: Time, cfg: Config,
                   admit: bool)
    returns (issued: set<Ticket>)
    requires Distinct(accounts) && key in accounts
    modifies accounts[key]
    ensures Values(accounts)
         == old(Values(accounts))[key := Observed(old(accounts[key].View()), s, obs, now, cfg, admit)]
    ensures issued == Observe(old(accounts[key].incident), obs, now, cfg, admit).issued
  {
    hide Observe, Observed;
    issued := NoteAndObserve(accounts[key], s, obs, now, cfg, admit);
    assert forall k | k in accounts && k != key :: accounts[k] != accounts[key];
  }

  lemma LandedValues(accounts: map<string, Account>, t: Table, key: string, account: Account, vacated: set<string>,
                     after: map<string, Account>, base: Record)
    requires after == (accounts - vacated)[key := account] && t.Keys == accounts.Keys && account.View() == base
    requires forall k | k in after && k != key :: after[k].View() == t[k]
    ensures Values(after) == (t - vacated)[key := base]
  {
  }

  method LandAt(accounts: map<string, Account>, s: Snapshot, active: set<string>, counts: Counts)
    returns (after: map<string, Account>)
    requires Distinct(accounts) && "" !in accounts && s.key != ""
    modifies (set k | k in accounts :: accounts[k])
    ensures Values(after) == Landed(old(Values(accounts)), s, active, counts)
    ensures Distinct(after) && "" !in after
    ensures forall k | k in after && k != s.key :: k in accounts && after[k] == accounts[k]
    ensures s.key in after
      && (Reuses(old(Values(accounts)), s) ==> s.key in accounts && after[s.key] == accounts[s.key])
    ensures !Reuses(old(Values(accounts)), s) ==>
      if Inherited(old(Values(accounts)), s, active, counts) then
        Heir(old(Values(accounts)), s, active, counts) in accounts
          && after[s.key] == accounts[Heir(old(Values(accounts)), s, active, counts)]
      else fresh(after[s.key])
  {
    hide Base, Inherits, Account.View;
    ghost var t := Values(accounts);
    var account;
    ghost var vacated;
    after, account, vacated := Land(accounts, s, active, counts);
    LandedDistinct(accounts, s.key, account, vacated, after);
    LandedValues(accounts, t, s.key, account, vacated, after, Base(t, s, active, counts));
  }

  lemma AppliedFrom(t: Table, s: Snapshot, obs: Observation, active: set<string>, counts: Counts, now: Time,
                    cfg: Config, admit: bool)
    ensures var landed := Landed(t, s, active, counts);
      && landed[s.key] == Base(t, s, active, counts)
      && Applied(t, s, obs, active, counts, now, cfg, admit)
           == landed[s.key := Observed(landed[s.key], s, obs, now, cfg, admit)]
  {
    hide Observed;
  }

  lemma ValueAt(accounts: map<string, Account>, k: string)
    requires k in accounts
    ensures k in Values(accounts) && Values(accounts)[k] == accounts[k].View()
  {
  }

  lemma ViewIncident(account: Account)
    ensures account.View().incident == account.incident
  {
  }

  /** `applyObservation`. */
  method ApplyObservation(accounts: map<string, Account>, s: Snapshot, obs: Observation, active: set<string>,
                          counts: Counts, now: Time, cfg: Config, admit: bool)
    returns (after: map<string, Account>, issued: set<Ticket>)
    requires Distinct(accounts) && "" !in accounts && s.key != ""
    modifies (set k | k in accounts :: accounts[k])
    ensures Values(after) == Applied(old(Values(accounts)), s, obs, active, counts, now, cfg, admit)
    ensures issued == Observe(Base(old(Values(accounts)), s, active, counts).incident, obs, now, cfg, admit).issued
    ensures Distinct(after) && "" !in after
    ensures forall k | k in after && k != s.key :: k in accounts && after[k] == accounts[k]
    ensures s.key in after
      && (Reuses(old(Values(accounts)), s) ==> s.key in accounts && after[s.key] == accounts[s.key])
    ensures !Reuses(old(Values(accounts)), s) ==>
      if Inherited(old(Values(accounts)), s, active, counts) then
        Heir(old(Values(accounts)), s, active, counts) in accounts
          && after[s.key] == accounts[Heir(old(Values(accounts)), s, active, counts)]
      else fresh(after[s.key])
  {
    hide *;
    AppliedFrom(Values(accounts), s, obs, active, counts, now, cfg, admit);
    after := LandAt(accounts, s, active, counts);
    assert after[s.key].View() == Values(after)[s.key] by { ValueAt(after, s.key); }
    ViewIncident(after[s.key]);
    issued := ObserveAt(after, s.key, s, obs, now, cfg, admit);
  }

  // ---------- identities across the scan ----------

  /** The identities one result shows: the roster's and, if it was read, the runtime's. */
  function Shown(x: Item): set<(string, string)> {
    (if x.entry.identity != "" then {(x.entry.provider, x.entry.identity)} else {})
    + (if x.read.Seen? && x.read.snapshot.identity != "" then
         {(x.read.snapshot.provider, x.read.snapshot.identity)}
       else {})
  }

  function Tally(items: seq<Item>, who: (string, string)): nat {
    if items == [] then 0
    else Tally(items[..|items| - 1], who) + (if who in Shown(items[|items| - 1]) then 1 else 0)
  }

  function Bump(counts: Counts, shown: set<(string, string)>): Counts {
    map who | who in counts.Keys + shown :: Count(counts, who.0, who.1) + (if who in shown then 1 else 0)
  }

  function CountsOf(items: seq<Item>): Counts {
    if items == [] then map[] else Bump(CountsOf(items[..|items| - 1]), Shown(items[|items| - 1]))
  }

  function RuntimeOf(items: seq<Item>): map<string, string> {
    if items == [] then map[]
    else
      var front, last := RuntimeOf(items[..|items| - 1]), items[|items| - 1];
      if last.read.Seen? then front[KeyOf(last.entry) := last.read.snapshot.identity] else front
  }

  /** Every identity is counted once per result that shows it. */
  lemma {:induction false} CountsTally(items: seq<Item>, who: (string, string))
    ensures Count(CountsOf(items), who.0, who.1) == Tally(items, who)
  {
    if items != [] {
      CountsTally(items[..|items| - 1], who);
    }
  }

  lemma {:induction false} TallyAtLeast(items: seq<Item>, who: (string, string), i: nat, k: nat)
    requires i < |items| && who in Shown(items[i])
    requires i <= k < |items| && who in Shown(items[k])
    ensures Tally(items, who) >= if i == k then 1 else 2
  {
    hide Shown;
    var n := |items| - 1;
    if k < n {
      TallyAtLeast(items[..n], who, i, k);
    } else if i < k {
      TallyAtLeast(items[..n], who, i, i);
    }
  }

  /** Every candidate has its result. */
  ghost predicate Covers(cs: seq<Listing>, items: seq<Item>) {
    forall c | c in cs :: exists i :: 0 <= i < |items| && items[i].entry == c
  }

  function Entries(items: seq<Item>): seq<Listing> {
    seq(|items|, i requires 0 <= i < |items| => items[i].entry)
  }

  /** One result for every candidate, in any order. */
  ghost predicate OnePerCandidate(cs: seq<Listing>, items: seq<Item>) {
    multiset(Entries(items)) == multiset(cs)
  }

  /** What discovery returns, and one result for each of its candidates, is what a scan needs. */
  lemma DiscoveredScan(roster: seq<Listing>, enabled: set<string>, items: seq<Item>)
    requires OnePerCandidate(Sorted(Firsts(roster, enabled), Place), items)
    ensures var cs := Sorted(Firsts(roster, enabled), Place);
      DistinctKeys(cs) && Covers(cs, items) && DistinctRanks(items, ItemRank)
  {
    hide Sorted, Firsts, KeyOf;
    var cs, entries := Sorted(Firsts(roster, enabled), Place), Entries(items);
    DiscoveredOnce(roster, enabled);
    DistinctFromMultiset(cs, entries);
    forall c | c in cs ensures exists i :: 0 <= i < |items| && items[i].entry == c {
      assert c in multiset(entries);
      var i :| 0 <= i < |entries| && entries[i] == c;
      assert items[i].entry == c;
    }
    forall i, k | 0 <= i < k < |items| ensures ItemRank(items[i]) != ItemRank(items[k]) {
      assert KeyOf(entries[i]) != KeyOf(entries[k]);
    }
  }

  lemma CountsCoverItems(cs: seq<Listing>, items: seq<Item>)
    requires Covers(cs, items)
    ensures CountsCover(cs, CountsOf(items))
  {
    forall c, d | c in cs && d in cs && c != d && c.identity != "" && c.provider == d.provider
      && c.identity == d.identity
      ensures Count(CountsOf(items), c.provider, c.identity) >= 2
    {
      var i :| 0 <= i < |items| && items[i].entry == c;
      var k :| 0 <= k < |items| && items[k].entry == d;
      var who := (c.provider, c.identity);
      CountsTally(items, who);
      if i < k { TallyAtLeast(items, who, i, k); } else { TallyAtLeast(items, who, k, i); }
    }
  }

  /** The identities of one result are counted once, even if roster and runtime agree. */
  method Gather(item: Item) returns (mine: set<(string, string)>)
    ensures mine == Shown(item)
  {
    mine := {};
    if item.entry.identity != "" {
      mine := mine + {(item.entry.provider, item.entry.identity)};
    }
    if item.read.Seen? && item.read.snapshot.identity != "" {
      mine := mine + {(item.read.snapshot.provider, item.read.snapshot.identity)};
    }
  }

  method CountIdentities(items: seq<Item>) returns (counts: Counts, runtime: map<string, string>)
    ensures counts == CountsOf(items) && runtime == RuntimeOf(items)
  {
    hide Shown, Bump, KeyOf;
    counts, runtime := map[], map[];
    for n := 0 to |items|
      invariant counts == CountsOf(items[..n]) && runtime == RuntimeOf(items[..n])
    {
      assert items[..n + 1][..n] == items[..n];
      var mine := Gather(items[n]);
      if items[n].read.Seen? {
        runtime := runtime[KeyOf(items[n].entry) := items[n].read.snapshot.identity];
      }
      counts := BumpAll(counts, mine);
    }
    assert items[..|items|] == items;
  }

  method BumpAll(counts: Counts, shown: set<(string, string)>) returns (after: Counts)
    ensures after == Bump(counts, shown)
  {
    after := counts;
    var todo := shown;
    assert counts == Bump(counts, {});
    while todo != {}
      invariant todo <= shown && after == Bump(counts, shown - todo)
      decreases todo
    {
      var who :| who in todo;
      assert shown - (todo - {who}) == (shown - todo) + {who};
      after := after[who := Count(after, who.0, who.1) + 1];
      todo := todo - {who};
    }
    assert shown - {} == shown;
  }

  // ---------- replacements whose read failed ----------

  predicate Lingers(t: Table, c: Listing, active: set<string>, k: string) {
    k in t && k != KeyOf(c) && t[k].provider == c.provider && t[k].identity == c.identity && k !in active
  }

  /** The one record that may still be this candidate's, although its key has left the roster. */
  ghost predicate Spares(t: Table, c: Listing, active: set<string>, k: string) {
    c.identity != "" && Lingers(t, c, active, k) && forall x | Lingers(t, c, active, x) :: x == k
  }

  ghost function Spared(t: Table, c: Listing, active: set<string>): set<string> {
    set k | k in t && Spares(t, c, active, k)
  }

  /** What the search has found among the keys in `seen`. */
  ghost predicate Searched(t: Table, c: Listing, active: set<string>, seen: set<string>, found: string) {
    && (forall k | k in seen && Lingers(t, c, active, k) :: k == found)
    && (found != "" ==> found in seen && Lingers(t, c, active, found))
  }

  /** `preserveReplacementCandidate`. */
  method Preserve(accounts: map<string, Account>, c: Listing, active: set<string>) returns (kept: set<string>)
    requires "" !in accounts
    ensures kept == active + Spared(Values(accounts), c, active)
  {
    hide Spared;
    ghost var t := Values(accounts);
    kept := active;
    if c.identity == "" {
      SparedNobody(t, c, active);
      return;
    }
    var found := "";
    var todo := accounts.Keys;
    while todo != {}
      invariant todo <= accounts.Keys
      invariant Searched(t, c, active, accounts.Keys - todo, found)
      decreases todo
    {
      var k :| k in todo;
      assert accounts.Keys - (todo - {k}) == (accounts.Keys - todo) + {k};
      todo := todo - {k};
      var account := accounts[k];
      if k == KeyOf(c) || account.provider != c.provider || account.identity != c.identity || k in active {
        continue;
      }
      assert Lingers(t, c, active, k);
      if found != "" {
        SparedNone(t, c, active, found, k);
        return;
      }
      found := k;
    }
    assert accounts.Keys - todo == t.Keys;
    SparedOne(t, c, active, found);
    if found != "" {
      kept := kept + {found};
    }
  }

  lemma SparedNobody(t: Table, c: Listing, active: set<string>)
    requires c.identity == ""
    ensures Spared(t, c, active) == {}
  {
  }

  lemma SparedNone(t: Table, c: Listing, active: set<string>, a: string, b: string)
    requires Lingers(t, c, active, a) && Lingers(t, c, active, b) && a != b
    ensures Spared(t, c, active) == {}
  {
  }

  lemma SparedOne(t: Table, c: Listing, active: set<string>, found: string)
    requires c.identity != "" && Searched(t, c, active, t.Keys, found) && "" !in t
    ensures Spared(t, c, active) == if found != "" then {found} else {}
  {
  }

  function FailedOf(items: seq<Item>): seq<Listing> {
    if items == [] then []
    else
      var last := items[|items| - 1];
      FailedOf(items[..|items| - 1]) + (if last.read.Failed? then [last.entry] else [])
  }

  ghost function SparedAll(t: Table, failed: seq<Listing>, counts: Counts, active: set<string>): set<string> {
    if failed == [] then active
    else
      var before, c := SparedAll(t, failed[..|failed| - 1], counts, active), failed[|failed| - 1];
      if c.identity != "" && Count(counts, c.provider, c.identity) == 1 then before + Spared(t, c, before) else before
  }

  method PreserveAll(accounts: map<string, Account>, failed: seq<Listing>, counts: Counts, active: set<string>)
    returns (kept: set<string>)
    requires "" !in accounts
    ensures kept == SparedAll(Values(accounts), failed, counts, active)
  {
    hide Spared;
    kept := active;
    for i := 0 to |failed|
      invariant kept == SparedAll(Values(accounts), failed[..i], counts, active)
    {
      assert failed[..i + 1][..i] == failed[..i];
      var c := failed[i];
      if c.identity != "" && Count(counts, c.provider, c.identity) == 1 {
        kept := Preserve(accounts, c, kept);
      }
    }
    assert failed[..|failed|] == failed;
  }

  lemma {:induction false} SparedAllMore(t: Table, failed: seq<Listing>, counts: Counts, active: set<string>)
    ensures active <= SparedAll(t, failed, counts, active)
  {
    if failed != [] {
      SparedAllMore(t, failed[..|failed| - 1], counts, active);
    }
  }

  // ---------- removals ----------

  function Gone(r: Record, now: Time, cfg: Config): Record {
    if r.incident.health == Removed then r
    else r.(incident := MarkRemoved(r.incident, now, cfg, false).incident, removedAt := now)
  }

  function Departed(t: Table, active: set<string>, now: Time, cfg: Config): Table {
    map k | k in t :: if k in active then t[k] else Gone(t[k], now, cfg)
  }

  lemma GoneIsLeaving(r: Record, now: Time, cfg: Config, admit: bool)
    ensures Gone(r, now, cfg)
         == r.(incident := MarkRemoved(r.incident, now, cfg, admit).incident,
               removedAt := if r.incident.health == Removed then r.removedAt else now)
  {
  }

  method LeaveOne(account: Account, now: Time, cfg: Config, admit: bool) returns (issued: set<Ticket>)
    modifies account
    ensures account.View() == Gone(old(account.View()), now, cfg)
    ensures issued == MarkRemoved(old(account.View()).incident, now, cfg, admit).issued
  {
    hide MarkRemoved, Gone;
    GoneIsLeaving(account.View(), now, cfg, admit);
    issued := account.Leave(now, cfg, admit);
  }

  method LeaveAt(accounts: map<string, Account>, k: string, now: Time, cfg: Config, admit: bool)
    returns (issued: set<Ticket>)
    requires Distinct(accounts) && k in accounts
    modifies accounts[k]
    ensures Values(accounts) == old(Values(accounts))[k := Gone(old(Values(accounts))[k], now, cfg)]
    ensures issued == MarkRemoved(old(Values(accounts))[k].incident, now, cfg, admit).issued
  {
    hide MarkRemoved, Gone, Account.View;
    issued := LeaveOne(accounts[k], now, cfg, admit);
    assert forall x | x in accounts && x != k :: accounts[x] != accounts[k];
  }

  /** The account under `k` leaves with this scan, and its removal is announced: whether the dispatcher
      takes the notification is up to `lets`. */
  predicate Parts(t: Table, active: set<string>, cfg: Config, lets: string -> bool, k: string) {
    k in t && k !in active && t[k].incident.health != Removed && cfg.notifyRemoved && lets(k)
  }

  function Parting(r: Record, k: string): Notification {
    Notification(k, Ticket(RemovedKind, r.incident.generation, 0))
  }

  function Partings(t: Table, active: set<string>, cfg: Config, lets: string -> bool): set<Notification> {
    set k | k in t && Parts(t, active, cfg, lets, k) :: Parting(t[k], k)
  }

  /** One account more has been visited. */
  lemma PartingsMore(t: Table, spared: set<string>, now: Time, cfg: Config, lets: string -> bool, k: string,
                     issued: set<Ticket>)
    requires k in t && k in spared && issued == MarkRemoved(t[k].incident, now, cfg, lets(k)).issued
    ensures Partings(t, spared - {k}, cfg, lets)
         == Partings(t, spared, cfg, lets) + (set x | x in issued :: Notification(k, x))
  {
    var less, more := Partings(t, spared, cfg, lets), Partings(t, spared - {k}, cfg, lets);
    forall x | x in more ensures x in less + (set y | y in issued :: Notification(k, y)) {
      if x.key == k {
        assert x.ticket in issued;
      }
    }
    forall x | x in issued ensures Notification(k, x) in more {
      assert Parts(t, spared - {k}, cfg, lets, k);
    }
    forall x | x in less ensures x in more {
      assert Parts(t, spared - {k}, cfg, lets, x.key);
    }
  }

  /** `markRemoved`: every account whose key is not active leaves and is announced, whatever order they
      are visited in. */
  method MarkAllRemoved(accounts: map<string, Account>, active: set<string>, now: Time, cfg: Config,
                        lets: string -> bool)
    returns (notices: set<Notification>)
    requires Distinct(accounts)
    modifies (set k | k in accounts :: accounts[k])
    ensures Values(accounts) == Departed(old(Values(accounts)), active, now, cfg)
    ensures notices == Partings(old(Values(accounts)), active, cfg, lets)
  {
    hide Gone, Distinct, Account.View, Partings, MarkRemoved, Departed;
    ghost var before := Values(accounts);
    var todo := accounts.Keys;
    notices := {};
    NobodyParts(before, active + todo, now, cfg, lets);
    while todo != {}
      invariant todo <= accounts.Keys == before.Keys
      invariant Values(accounts) == Departed(before, active + todo, now, cfg)
      invariant notices == Partings(before, active + todo, cfg, lets)
      decreases todo
    {
      var k :| k in todo;
      ghost var spared := active + todo;
      todo := todo - {k};
      if k in active {
        assert active + todo == spared;
      } else {
        assert active + todo == spared - {k};
        DepartedMore(before, spared, now, cfg, k);
        var issued := LeaveAt(accounts, k, now, cfg, lets(k));
        PartingsMore(before, spared, now, cfg, lets, k, issued);
        notices := notices + set x | x in issued :: Notification(k, x);
      }
    }
    assert active + todo == active;
  }

  lemma DepartedMore(t: Table, spared: set<string>, now: Time, cfg: Config, k: string)
    requires k in t && k in spared
    ensures k in Departed(t, spared, now, cfg) && Departed(t, spared, now, cfg)[k] == t[k]
    ensures Departed(t, spared - {k}, now, cfg) == Departed(t, spared, now, cfg)[k := Gone(t[k], now, cfg)]
  {
    hide Gone;
  }

  lemma NobodyParts(t: Table, active: set<string>, now: Time, cfg: Config, lets: string -> bool)
    requires t.Keys <= active
    ensures Partings(t, active, cfg, lets) == {} && Departed(t, active, now, cfg) == t
  {
    hide Gone;
  }

  // ---------- the scan after its reads ----------

  ghost function AppliedAll(t: Table, items: seq<Item>, active: set<string>, counts: Counts, now: Time, cfg: Config,
                            admits: nat -> bool): Table {
    if items == [] then t
    else
      var n := |items| - 1;
      var before := AppliedAll(t, items[..n], active, counts, now, cfg, admits);
      match items[n].read
      case Failed => before
      case Seen(s, obs) => Applied(before, s, obs, active, counts, now, cfg, admits(n))
  }

  /** What the observations of a scan queue, in their order. */
  ghost function QueuedAll(t: Table, items: seq<Item>, active: set<string>, counts: Counts, now: Time, cfg: Config,
                           admits: nat -> bool): multiset<Notification> {
    if items == [] then multiset{}
    else
      var n := |items| - 1;
      var before := AppliedAll(t, items[..n], active, counts, now, cfg, admits);
      QueuedAll(t, items[..n], active, counts, now, cfg, admits) +
      match items[n].read
      case Failed => multiset{}
      case Seen(s, obs) =>
        Tagged(s.key, Observe(Base(before, s, active, counts).incident, obs, now, cfg, admits(n)).issued)
  }

  /** Everything a scan queues. */
  ghost function ScanQueue(t: Table, cs: seq<Listing>, items: seq<Item>, now: Time, cfg: Config,
                           admits: nat -> bool, lets: string -> bool): multiset<Notification> {
    var counts, active := CountsOf(items), Keys(cs);
    var moved := Correlated(t, cs, counts, RuntimeOf(items));
    var seen := AppliedAll(moved, items, active, counts, now, cfg, admits);
    QueuedAll(moved, items, active, counts, now, cfg, admits)
    + multiset(Partings(seen, SparedAll(seen, FailedOf(items), counts, active), cfg, lets))
  }

  /** The table a scan leaves, from the one it found and its results in order. */
  ghost function AfterScan(t: Table, cs: seq<Listing>, items: seq<Item>, now: Time, cfg: Config, retention: int,
                           admits: nat -> bool): Table {
    var counts, active := CountsOf(items), Keys(cs);
    var seen := AppliedAll(Correlated(t, cs, counts, RuntimeOf(items)), items, active, counts, now, cfg, admits);
    Store.Pruned(Departed(seen, SparedAll(seen, FailedOf(items), counts, active), now, cfg), now, retention)
  }

  // -- identities of objects --

  predicate Identified(t: Table) {
    forall k | k in t :: t[k].identity != ""
  }

  /** The credentials that were read have identities. */
  predicate Known(items: seq<Item>) {
    forall x | x in items && x.read.Seen? :: x.read.snapshot.identity != ""
  }

  /** Every object that is under some key in both has the same identity in both. */
  ghost predicate SameNames(before: map<string, Account>, t: Table, after: map<string, Account>, u: Table) {
    forall a, b | a in before && a in t && b in after && b in u && before[a] == after[b] ::
      u[b].identity == t[a].identity
  }

  lemma NamesCompose(first: map<string, Account>, t: Table, mid: map<string, Account>, u: Table,
                     last: map<string, Account>, v: Table)
    requires SameNames(first, t, mid, u) && SameNames(mid, u, last, v) && mid.Keys == u.Keys
    requires forall b | b in last && last[b] in Objects(first) :: last[b] in Objects(mid)
    ensures SameNames(first, t, last, v)
  {
    forall a, b | a in first && a in t && b in last && b in v && first[a] == last[b]
      ensures v[b].identity == t[a].identity
    {
      var x :| x in mid && mid[x] == last[b];
    }
  }

  lemma SameTableNames(accounts: map<string, Account>, t: Table)
    requires Distinct(accounts)
    ensures SameNames(accounts, t, accounts, t)
  {
  }

  /** An observation finds the identity it brings, wherever it lands on a known object. */
  lemma AppliedNames(t: Table, s: Snapshot, obs: Observation, active: set<string>, counts: Counts,
                     now: Time, cfg: Config, admit: bool)
    requires Identified(t) && s.identity != ""
    ensures var u := Applied(t, s, obs, active, counts, now, cfg, admit);
      && Identified(u) && s.key in u && u[s.key].identity == s.identity
      && (forall k | k in u && k != s.key :: k in t && u[k] == t[k])
    ensures Reuses(t, s) ==> t[s.key].identity == s.identity
    ensures Inherited(t, s, active, counts) ==>
      Heir(t, s, active, counts) in t && t[Heir(t, s, active, counts)].identity == s.identity
  {
    hide Observe;
  }

  lemma ObservedNames(accounts: map<string, Account>, t: Table, s: Snapshot, active: set<string>, counts: Counts,
                      after: map<string, Account>, u: Table)
    requires Distinct(accounts) && t.Keys == accounts.Keys
    requires s.key in u && u[s.key].identity == s.identity
      && (forall k | k in u && k != s.key :: k in t && u[k] == t[k])
    requires forall k | k in after && k != s.key :: k in accounts && after[k] == accounts[k]
    requires Reuses(t, s) ==> t[s.key].identity == s.identity
    requires Inherited(t, s, active, counts) ==>
      Heir(t, s, active, counts) in t && t[Heir(t, s, active, counts)].identity == s.identity
    requires s.key in after
    requires if Reuses(t, s) then s.key in accounts && after[s.key] == accounts[s.key]
      else if Inherited(t, s, active, counts) then
        Heir(t, s, active, counts) in accounts && after[s.key] == accounts[Heir(t, s, active, counts)]
      else after[s.key] !in Objects(accounts)
    ensures SameNames(accounts, t, after, u)
  {
    hide Reuses, Inherited, Heir;
    forall a, b | a in accounts && a in t && b in after && b in u && accounts[a] == after[b]
      ensures u[b].identity == t[a].identity
    {
      if b == s.key {
        assert after[b] in Objects(accounts);
      }
    }
  }

  /** What is under `b` afterwards was under `a` before, with the same identity. */
  ghost predicate ComesFrom(accounts: map<string, Account>, t: Table, moved: map<string, Account>, u: Table,
                            a: string, b: string) {
    && a in t && a in accounts && b in u && u[b].identity == t[a].identity
    && (b in moved ==> moved[b] == accounts[a])
  }

  /** A correlated record keeps its identity. */
  lemma CorrelatedNames(accounts: map<string, Account>, t: Table, p: map<string, Move>, sources: set<string>,
                        moved: map<string, Account>)
    requires Distinct(accounts) && t.Keys == accounts.Keys && Relocated(accounts, p, sources, moved)
    requires Separate(p) && Closed(t.Keys, p, sources)
    ensures SameNames(accounts, t, moved, Moved(t, p, sources))
    ensures Identified(t) ==> Identified(Moved(t, p, sources))
  {
    hide *;
    var u := Moved(t, p, sources);
    forall b | b in u ensures exists a :: ComesFrom(accounts, t, moved, u, a, b) {
      MovedFrom(accounts, t, p, sources, moved, b);
    }
    NamesFromSources(accounts, t, moved, u);
  }

  lemma MovedFrom(accounts: map<string, Account>, t: Table, p: map<string, Move>, sources: set<string>,
                  moved: map<string, Account>, b: string)
    requires t.Keys == accounts.Keys && Relocated(accounts, p, sources, moved)
    requires Separate(p) && Closed(t.Keys, p, sources) && b in Moved(t, p, sources)
    ensures exists a :: ComesFrom(accounts, t, moved, Moved(t, p, sources), a, b)
  {
    hide Separate, Closed, Moved, NewPlace;
    MovesPermute(t, p, sources);
    var a :| a in t && NewPlace(p, sources, a) == b;
    assert Moved(t, p, sources)[b] == Settled(t, p, sources, a);
    assert ComesFrom(accounts, t, moved, Moved(t, p, sources), a, b);
  }

  lemma NamesFromSources(accounts: map<string, Account>, t: Table, moved: map<string, Account>, u: Table)
    requires Distinct(accounts) && t.Keys == accounts.Keys
    requires forall b | b in u :: exists a :: ComesFrom(accounts, t, moved, u, a, b)
    ensures SameNames(accounts, t, moved, u) && (Identified(t) ==> Identified(u))
  {
  }

  lemma DepartedNames(accounts: map<string, Account>, t: Table, active: set<string>, now: Time, cfg: Config)
    requires Distinct(accounts) && t.Keys == accounts.Keys
    ensures SameNames(accounts, t, accounts, Departed(t, active, now, cfg))
    ensures Identified(t) ==> Identified(Departed(t, active, now, cfg))
  {
    var u := Departed(t, active, now, cfg);
    forall k | k in t ensures u[k].identity == t[k].identity {
    }
    hide Departed, Gone;
  }

  lemma PrunedNames(accounts: map<string, Account>, t: Table, left: map<string, Account>, now: Time, retention: int)
    requires Distinct(accounts) && left.Keys <= accounts.Keys && forall k | k in left :: left[k] == accounts[k]
    ensures SameNames(accounts, t, left, Store.Pruned(t, now, retention))
    ensures Identified(t) ==> Identified(Store.Pruned(t, now, retention))
  {
    hide Store.Expired;
  }

  /** Snapshots have keys. */
  predicate Named(items: seq<Item>) {
    forall x | x in items && x.read.Seen? :: x.read.snapshot.key != ""
  }

  function Objects(accounts: map<string, Account>): set<Account> {
    set k | k in accounts :: accounts[k]
  }

  lemma NothingApplied(t: Table, active: set<string>, counts: Counts, now: Time, cfg: Config, admits: nat -> bool)
    ensures AppliedAll(t, [], active, counts, now, cfg, admits) == t
    ensures QueuedAll(t, [], active, counts, now, cfg, admits) == multiset{} && FailedOf([]) == []
  {
  }

  lemma AppliedMore(t: Table, items: seq<Item>, i: nat, active: set<string>, counts: Counts, now: Time, cfg: Config,
                    admits: nat -> bool)
    requires i < |items|
    ensures var before := AppliedAll(t, items[..i], active, counts, now, cfg, admits);
      var queued := QueuedAll(t, items[..i], active, counts, now, cfg, admits);
      match items[i].read
      case Failed =>
        && AppliedAll(t, items[..i + 1], active, counts, now, cfg, admits) == before
        && QueuedAll(t, items[..i + 1], active, counts, now, cfg, admits) == queued
        && FailedOf(items[..i + 1]) == FailedOf(items[..i]) + [items[i].entry]
      case Seen(s, obs) =>
        && AppliedAll(t, items[..i + 1], active, counts, now, cfg, admits)
             == Applied(before, s, obs, active, counts, now, cfg, admits(i))
        && QueuedAll(t, items[..i + 1], active, counts, now, cfg, admits)
             == queued + Tagged(s.key,
                                Observe(Base(before, s, active, counts).incident, obs, now, cfg, admits(i)).issued)
        && FailedOf(items[..i + 1]) == FailedOf(items[..i])
  {
    hide Applied, Observe, Base, Tagged;
    assert items[..i + 1][..i] == items[..i];
  }

  method ApplyAll(accounts: map<string, Account>, items: seq<Item>, active: set<string>, counts: Counts, now: Time,
                  cfg: Config, admits: nat -> bool)
    returns (after: map<string, Account>, failed: seq<Listing>, queued: multiset<Notification>)
    requires Distinct(accounts) && "" !in accounts && Named(items)
    modifies Objects(accounts)
    ensures Values(after) == AppliedAll(old(Values(accounts)), items, active, counts, now, cfg, admits)
    ensures queued == QueuedAll(old(Values(accounts)), items, active, counts, now, cfg, admits)
    ensures Distinct(after) && "" !in after && failed == FailedOf(items)
    ensures forall k | k in after :: after[k] in Objects(accounts) || fresh(after[k])
    ensures Identified(old(Values(accounts))) && Known(items) ==>
      Identified(Values(after)) && SameNames(accounts, old(Values(accounts)), after, Values(after))
  {
    hide Applied, Distinct, Values, Account.View, SameNames, Identified, Observe, Base, Tagged, AppliedAll, QueuedAll,
      FailedOf;
    ghost var t := Values(accounts);
    after, failed, queued := accounts, [], multiset{};
    NothingApplied(t, active, counts, now, cfg, admits);
    SameTableNames(accounts, t);
    for i := 0 to |items|
      invariant Values(after) == AppliedAll(t, items[..i], active, counts, now, cfg, admits)
      invariant queued == QueuedAll(t, items[..i], active, counts, now, cfg, admits)
      invariant Distinct(after) && "" !in after && failed == FailedOf(items[..i])
      invariant forall k | k in after :: after[k] in Objects(accounts) || fresh(after[k])
      invariant Identified(t) && Known(items) ==>
        Identified(Values(after)) && SameNames(accounts, t, after, Values(after))
    {
      AppliedMore(t, items, i, active, counts, now, cfg, admits);
      match items[i].read {
        case Failed => failed := failed + [items[i].entry];
        case Seen(s, obs) =>
          ghost var before, u := after, Values(after);
          ValuesKeys(before, u);
          var issued;
          after, issued := ObserveNext(after, items[i], active, counts, now, cfg, admits(i));
          queued := queued + Tagged(s.key, issued);
          if Identified(t) && Known(items) {
            NamesCompose(accounts, t, before, u, after, Values(after));
          }
      }
    }
    assert items[..|items|] == items;
  }

  method ObserveNext(accounts: map<string, Account>, item: Item, active: set<string>, counts: Counts, now: Time,
                     cfg: Config, admit: bool)
    returns (after: map<string, Account>, issued: set<Ticket>)
    requires Distinct(accounts) && "" !in accounts && item.read.Seen? && item.read.snapshot.key != ""
    modifies Objects(accounts)
    ensures Values(after) == Applied(old(Values(accounts)), item.read.snapshot, item.read.observation, active, counts,
      now, cfg, admit)
    ensures issued == Observe(Base(old(Values(accounts)), item.read.snapshot, active, counts).incident,
                              item.read.observation, now, cfg, admit).issued
    ensures Distinct(after) && "" !in after
    ensures forall k | k in after :: after[k] in Objects(accounts) || fresh(after[k])
    ensures Identified(old(Values(accounts))) && item.read.snapshot.identity != "" ==>
      Identified(Values(after)) && SameNames(accounts, old(Values(accounts)), after, Values(after))
  {
    hide Applied, Distinct, Values, Inherits, Reuses, SameNames, Identified, Heir, Observe, Base;
    ghost var t := Values(accounts);
    ValuesKeys(accounts, t);
    after, issued := ApplyObservation(accounts, item.read.snapshot, item.read.observation, active, counts, now, cfg,
      admit);
    if Identified(t) && item.read.snapshot.identity != "" {
      AppliedNames(t, item.read.snapshot, item.read.observation, active, counts, now, cfg, admit);
      ObservedNames(accounts, t, item.read.snapshot, active, counts, after, Values(after));
    }
  }

  lemma RelocatedWithin(accounts: map<string, Account>, p: map<string, Move>, sources: set<string>,
                        moved: map<string, Account>)
    requires Relocated(accounts, p, sources, moved)
    ensures forall k | k in moved :: moved[k] in Objects(accounts)
  {
    hide NewPlace;
    forall place | place in moved ensures moved[place] in Objects(accounts) {
      var k :| k in accounts && NewPlace(p, sources, k) == place;
      assert moved[place] == accounts[k];
    }
  }

  lemma NewPlacesNonempty(accounts: map<string, Account>, t: Table, cs: seq<Listing>, counts: Counts,
                          runtime: map<string, string>, moved: map<string, Account>)
    requires var p := Proposed(t, cs, counts, runtime); Relocated(accounts, p, Feasible(t.Keys, p), moved)
    requires "" !in accounts && t.Keys == accounts.Keys
    ensures "" !in moved
  {
    var p := Proposed(t, cs, counts, runtime);
    forall k | k in accounts ensures NewPlace(p, Feasible(t.Keys, p), k) != "" {
      if k in p {
        var c :| c in cs && Claims(t, c, counts, runtime, k) && p[k] == MoveTo(k, c);
        KeyNonempty(c);
      }
    }
    hide NewPlace, Feasible, Proposed;
  }

  lemma KeyNonempty(c: Listing)
    ensures KeyOf(c) != ""
  {
    assert KeyOf(c)[|c.provider|] == ':';
  }

  /** The first half of the work after the reads: correlation and observation. */
  method Absorb(accounts: map<string, Account>, cs: seq<Listing>, items: seq<Item>, now: Time, cfg: Config,
                admits: nat -> bool)
    returns (seen: map<string, Account>, failed: seq<Listing>, counts: Counts, queued: multiset<Notification>)
    requires Distinct(accounts) && "" !in accounts && DistinctKeys(cs) && Covers(cs, items) && Named(items)
    modifies Objects(accounts)
    ensures counts == CountsOf(items) && failed == FailedOf(items)
    ensures Values(seen) == AppliedAll(Correlated(old(Values(accounts)), cs, counts, RuntimeOf(items)),
                                       items, Keys(cs), counts, now, cfg, admits)
    ensures queued == QueuedAll(Correlated(old(Values(accounts)), cs, counts, RuntimeOf(items)),
                                items, Keys(cs), counts, now, cfg, admits)
    ensures Distinct(seen) && "" !in seen && forall k | k in seen :: seen[k] in Objects(accounts) || fresh(seen[k])
    ensures Identified(old(Values(accounts))) && Known(items) ==>
      Identified(Values(seen)) && SameNames(accounts, old(Values(accounts)), seen, Values(seen))
  {
    ghost var t := Values(accounts);
    assert t.Keys == accounts.Keys;
    hide Proposed, Relocated, AppliedAll, Distinct, Values, CountsCover, Feasible, DistinctKeys, CountsOf, RuntimeOf,
      SameNames, Identified, Moved, Separate, Closed, QueuedAll;
    var runtime;
    counts, runtime := CountIdentities(items);
    CountsCoverItems(cs, items);
    var moved := Correlate(accounts, cs, counts, runtime);
    ghost var p := Proposed(t, cs, counts, runtime);
    RelocatedWithin(accounts, p, Feasible(t.Keys, p), moved);
    NewPlacesNonempty(accounts, t, cs, counts, runtime, moved);
    ProposalsSeparate(t, cs, counts, runtime);
    CorrelatedNames(accounts, t, p, Feasible(t.Keys, p), moved);
    ghost var u := Values(moved);
    assert moved.Keys == u.Keys by { ValuesKeys(moved, u); }
    seen, failed, queued := ApplyAll(moved, items, Keys(cs), counts, now, cfg, admits);
    if Identified(t) && Known(items) {
      NamesCompose(accounts, t, moved, u, seen, Values(seen));
    }
  }

  lemma ValuesKeys(accounts: map<string, Account>, t: Table)
    requires t == Values(accounts)
    ensures accounts.Keys == t.Keys
  {
  }

  /** The second half: what has left the roster is marked, and old removals are pruned. */
  method Dismiss(seen: map<string, Account>, active: set<string>, failed: seq<Listing>, counts: Counts, now: Time,
                 cfg: Config, retention: int, lets: string -> bool)
    returns (after: map<string, Account>, notices: set<Notification>)
    requires Distinct(seen) && "" !in seen
    modifies Objects(seen)
    ensures Distinct(after) && "" !in after && forall k | k in after :: after[k] in Objects(seen)
    ensures var t := old(Values(seen));
      && Values(after) == Store.Pruned(Departed(t, SparedAll(t, failed, counts, active), now, cfg), now, retention)
      && notices == Partings(t, SparedAll(t, failed, counts, active), cfg, lets)
    ensures SameNames(seen, old(Values(seen)), after, Values(after))
    ensures Identified(old(Values(seen))) ==> Identified(Values(after))
  {
    hide SparedAll, Departed, Distinct, Account.View, SameNames, Identified, Store.Pruned, Store.Expired, Values,
      Partings;
    ghost var t := Values(seen);
    ValuesKeys(seen, t);
    var kept := PreserveAll(seen, failed, counts, active);
    DepartedNames(seen, t, kept, now, cfg);
    notices := MarkAllRemoved(seen, kept, now, cfg, lets);
    ghost var u := Values(seen);
    ValuesKeys(seen, u);
    var pruned;
    after, pruned := Store.PruneRemoved(seen, now, retention);
    PrunedValues(seen, now, retention, after);
    SubmapDistinct(seen, after);
    PrunedNames(seen, u, after, now, retention);
    NamesCompose(seen, t, seen, u, after, Values(after));
  }

  /** The second half of `Reconcile`: the results arrive in any order.  Every account afterwards is an
      object that was there before, with the identity it had, or a new one. */
  method Finish(accounts: map<string, Account>, cs: seq<Listing>, results: seq<Item>, now: Time, cfg: Config,
                retention: int, admits: nat -> bool, lets: string -> bool)
    returns (after: map<string, Account>, queued: multiset<Notification>)
    requires Distinct(accounts) && "" !in accounts && DistinctKeys(cs) && Covers(cs, results) && Named(results)
    modifies Objects(accounts)
    ensures Distinct(after) && "" !in after
    ensures Values(after) == AfterScan(old(Values(accounts)), cs, Sorted(results, ItemRank), now, cfg, retention,
      admits)
    ensures queued == ScanQueue(old(Values(accounts)), cs, Sorted(results, ItemRank), now, cfg, admits, lets)
    ensures forall k | k in after :: after[k] in Objects(accounts) || fresh(after[k])
    ensures Identified(old(Values(accounts))) && Known(results) ==>
      Identified(Values(after)) && SameNames(accounts, old(Values(accounts)), after, Values(after))
  {
    hide Correlated, AppliedAll, SparedAll, Departed, Distinct, Values, DistinctKeys, CountsOf, RuntimeOf, Sorted,
      SameNames, Identified, Store.Pruned, Covers, Named, QueuedAll, Partings;
    ghost var t := Values(accounts);
    var items := Sorted(results, ItemRank);
    SortedCovers(cs, results);
    var seen, failed, counts;
    seen, failed, counts, queued := Absorb(accounts, cs, items, now, cfg, admits);
    ghost var u := Values(seen);
    ValuesKeys(seen, u);
    var notices;
    after, notices := Dismiss(seen, Keys(cs), failed, counts, now, cfg, retention, lets);
    queued := queued + multiset(notices);
    if Identified(t) && Known(results) {
      NamesCompose(accounts, t, seen, u, after, Values(after));
    }
  }

  /** From the roster, and one result for each of its candidates. */
  method ScanRoster(accounts: map<string, Account>, roster: seq<Listing>, enabled: set<string>, results: seq<Item>,
                    now: Time, cfg: Config, retention: int, admits: nat -> bool, lets: string -> bool)
    returns (after: map<string, Account>, queued: multiset<Notification>)
    requires Distinct(accounts) && "" !in accounts
    requires OnePerCandidate(Sorted(Firsts(roster, enabled), Place), results) && Named(results)
    modifies Objects(accounts)
    ensures Distinct(after) && "" !in after
    ensures Values(after) == AfterScan(old(Values(accounts)), Sorted(Firsts(roster, enabled), Place),
                                       Sorted(results, ItemRank), now, cfg, retention, admits)
    ensures queued == ScanQueue(old(Values(accounts)), Sorted(Firsts(roster, enabled), Place),
                                Sorted(results, ItemRank), now, cfg, admits, lets)
    ensures forall k | k in after :: after[k] in Objects(accounts) || fresh(after[k])
    ensures Identified(old(Values(accounts))) && Known(results) ==>
      Identified(Values(after)) && SameNames(accounts, old(Values(accounts)), after, Values(after))
  {
    hide AfterScan, ScanQueue, Sorted, Firsts, SameNames, Identified, Known, Values, Distinct, Covers, OnePerCandidate,
      DistinctKeys;
    var cs := Discover(roster, enabled);
    DiscoveredScan(roster, enabled, results);
    after, queued := Finish(accounts, cs, results, now, cfg, retention, admits, lets);
  }

  lemma SubmapDistinct(accounts: map<string, Account>, left: map<string, Account>)
    requires Distinct(accounts) && left.Keys <= accounts.Keys && forall k | k in left :: left[k] == accounts[k]
    ensures Distinct(left)
  {
  }

  lemma SortedCovers(cs: seq<Listing>, results: seq<Item>)
    requires Covers(cs, results) && Named(results)
    ensures Covers(cs, Sorted(results, ItemRank)) && Named(Sorted(results, ItemRank))
    ensures Known(results) ==> Known(Sorted(results, ItemRank))
  {
    hide Sorted, ItemRank;
    var items := Sorted(results, ItemRank);
    SortedSorts(results, ItemRank);
    forall x ensures x in items <==> x in results {
      assert x in items <==> x in multiset(items);
    }
    forall c | c in cs ensures exists i :: 0 <= i < |items| && items[i].entry == c {
      var i :| 0 <= i < |results| && results[i].entry == c;
      assert results[i] in items;
    }
  }

  lemma PrunedValues(accounts: map<string, Account>, now: Time, retention: int, left: map<string, Account>)
    requires left.Keys == set k | k in accounts && !Store.Expired(accounts[k].View(), now, retention)
    requires forall k | k in left :: left[k] == accounts[k]
    ensures Values(left) == Store.Pruned(Values(accounts), now, retention)
  {
    hide Store.Expired;
  }

  // ---------- what a scan guarantees ----------

  /** Completion order does not matter: the same results give the same state and the same notifications. */
  lemma ScanIgnoresOrder(t: Table, cs: seq<Listing>, a: seq<Item>, b: seq<Item>, now: Time, cfg: Config, retention: int,
                         admits: nat -> bool, lets: string -> bool)
    requires multiset(a) == multiset(b) && DistinctRanks(a, ItemRank)
    ensures AfterScan(t, cs, Sorted(a, ItemRank), now, cfg, retention, admits)
         == AfterScan(t, cs, Sorted(b, ItemRank), now, cfg, retention, admits)
    ensures ScanQueue(t, cs, Sorted(a, ItemRank), now, cfg, admits, lets)
         == ScanQueue(t, cs, Sorted(b, ItemRank), now, cfg, admits, lets)
  {
    SortedIgnoresOrder(a, b, ItemRank);
  }

  /** Nobody but an observation of its own key touches an account in the roster. */
  lemma {:induction false} RosterUndisturbed(t: Table, items: seq<Item>, active: set<string>, counts: Counts, now: Time,
                                             cfg: Config, admits: nat -> bool, k: string)
    requires k in t && k in active && forall x | x in items && x.read.Seen? :: x.read.snapshot.key != k
    ensures k in AppliedAll(t, items, active, counts, now, cfg, admits)
    ensures AppliedAll(t, items, active, counts, now, cfg, admits)[k] == t[k]
  {
    hide Applied;
    if items != [] {
      var n := |items| - 1;
      assert items[n] in items;
      RosterUndisturbed(t, items[..n], active, counts, now, cfg, admits, k);
      if items[n].read.Seen? {
        ObservationSparesOthers(AppliedAll(t, items[..n], active, counts, now, cfg, admits),
                                items[n].read.snapshot, items[n].read.observation, active, counts, now, cfg,
                                admits(n), k);
      }
    }
  }

  /** An account whose own read failed keeps everything; it can only go by the retention of an earlier removal. */
  lemma FailedReadKeepsAccount(t: Table, cs: seq<Listing>, items: seq<Item>, now: Time, cfg: Config, retention: int,
                               admits: nat -> bool, k: string)
    requires k in Keys(cs) && forall x | x in items && x.read.Seen? :: x.read.snapshot.key != k
    ensures var before := Correlated(t, cs, CountsOf(items), RuntimeOf(items));
      var after := AfterScan(t, cs, items, now, cfg, retention, admits);
      k in before ==>
        if Store.Expired(before[k], now, retention) then k !in after else k in after && after[k] == before[k]
  {
    hide Correlated, Store.Expired, CountsOf, RuntimeOf, Keys, AppliedAll, Gone, SparedAll;
    var counts, active := CountsOf(items), Keys(cs);
    var before := Correlated(t, cs, counts, RuntimeOf(items));
    if k in before {
      RosterUndisturbed(before, items, active, counts, now, cfg, admits, k);
      SparedAllMore(AppliedAll(before, items, active, counts, now, cfg, admits), FailedOf(items), counts, active);
    }
  }

  /** A scan never marks an account in the roster removed, and leaves no other unmarked unless it is
      spared for a replacement whose read failed. */
  lemma RemovalsAreExact(t: Table, cs: seq<Listing>, items: seq<Item>, now: Time, cfg: Config, retention: int,
                         admits: nat -> bool, k: string)
    requires k in AfterScan(t, cs, items, now, cfg, retention, admits)
    ensures var counts := CountsOf(items);
      var seen := AppliedAll(Correlated(t, cs, counts, RuntimeOf(items)), items, Keys(cs), counts, now, cfg, admits);
      var after := AfterScan(t, cs, items, now, cfg, retention, admits);
      && k in seen
      && (k in Keys(cs) ==> after[k] == seen[k])
      && (k !in SparedAll(seen, FailedOf(items), counts, Keys(cs)) ==> after[k].incident.health == Removed)
  {
    hide Correlated, Store.Expired, CountsOf, RuntimeOf, Keys, AppliedAll, SparedAll;
    var counts, active := CountsOf(items), Keys(cs);
    var seen := AppliedAll(Correlated(t, cs, counts, RuntimeOf(items)), items, active, counts, now, cfg, admits);
    SparedAllMore(seen, FailedOf(items), counts, active);
  }

  // ---------- what every scan keeps ----------

  /** The alert ledger of every account. */
  predicate Ledgers(t: Table) {
    forall k | k in t :: Runs.IncidentInv(t[k].incident)
  }

  /** Every account lies under its own key and has some identity. */
  predicate Keyed(t: Table) {
    forall k | k in t :: t[k].key == k && t[k].identity != ""
  }

  /** What classifiers produce, for credentials with an identity. */
  predicate Sane(items: seq<Item>) {
    forall x | x in items && x.read.Seen? ::
      && x.read.snapshot.identity != ""
      && x.read.observation.state in {Healthy, QuotaLimited, Suspect, CredentialDown, ReauthRequired, Disabled}
  }

  lemma BaseLedger(t: Table, s: Snapshot, active: set<string>, counts: Counts)
    requires Ledgers(t)
    ensures Runs.IncidentInv(Base(t, s, active, counts).incident)
  {
  }

  lemma ObserveLedger(i: Incident, obs: Observation, now: Time, cfg: Config, admit: bool)
    requires Runs.IncidentInv(i) && now > 0
    requires obs.state in {Healthy, QuotaLimited, Suspect, CredentialDown, ReauthRequired, Disabled}
    ensures Runs.IncidentInv(Observe(i, obs, now, cfg, admit).incident)
  {
    hide Observe, Runs.IncidentInv;
    Runs.ReactKeeps(Runs.World(i, {}), Runs.Observed(obs, now, admit), cfg);
  }

  lemma AppliedKeeps(t: Table, s: Snapshot, obs: Observation, active: set<string>, counts: Counts, now: Time,
                     cfg: Config, admit: bool)
    requires Ledgers(t) && Keyed(t) && now > 0 && s.identity != ""
    requires obs.state in {Healthy, QuotaLimited, Suspect, CredentialDown, ReauthRequired, Disabled}
    ensures var after := Applied(t, s, obs, active, counts, now, cfg, admit); Ledgers(after) && Keyed(after)
  {
    hide Observe, Runs.IncidentInv, Base;
    BaseLedger(t, s, active, counts);
    ObserveLedger(Base(t, s, active, counts).incident, obs, now, cfg, admit);
    ObservationKeepsIdentity(t, s, obs, active, counts, now, cfg, admit);
  }

  lemma {:induction false} AppliedAllKeeps(t: Table, items: seq<Item>, active: set<string>, counts: Counts, now: Time,
                                           cfg: Config, admits: nat -> bool)
    requires Ledgers(t) && Keyed(t) && now > 0 && Sane(items)
    ensures var after := AppliedAll(t, items, active, counts, now, cfg, admits); Ledgers(after) && Keyed(after)
  {
    hide Applied, Ledgers, Keyed;
    if items != [] {
      var n := |items| - 1;
      assert items[n] in items;
      AppliedAllKeeps(t, items[..n], active, counts, now, cfg, admits);
      if items[n].read.Seen? {
        AppliedKeeps(AppliedAll(t, items[..n], active, counts, now, cfg, admits),
                     items[n].read.snapshot, items[n].read.observation, active, counts, now, cfg, admits(n));
      }
    }
  }

  lemma CorrelatedKeeps(t: Table, cs: seq<Listing>, counts: Counts, runtime: map<string, string>)
    requires Ledgers(t) && Keyed(t) && DistinctKeys(cs)
    ensures var after := Correlated(t, cs, counts, runtime); Ledgers(after) && Keyed(after)
  {
    hide Proposed, Chosen, Runs.IncidentInv, Separate, Closed, Moved, NewPlace, Settled;
    var p, chosen, after := Proposed(t, cs, counts, runtime), Chosen(t, cs, counts, runtime),
      Correlated(t, cs, counts, runtime);
    ProposalsSeparate(t, cs, counts, runtime);
    MovesPermute(t, p, chosen);
    forall place | place in after
      ensures Runs.IncidentInv(after[place].incident) && after[place].key == place && after[place].identity != ""
    {
      var k :| k in t && NewPlace(p, chosen, k) == place;
      SettledKeeps(t, p, chosen, k);
      assert after[place] == Settled(t, p, chosen, k);
    }
  }

  lemma SettledKeeps(t: Table, p: map<string, Move>, sources: set<string>, k: string)
    requires Ledgers(t) && Keyed(t) && k in t
    ensures var r := Settled(t, p, sources, k);
      Runs.IncidentInv(r.incident) && r.key == NewPlace(p, sources, k) && r.identity != ""
  {
    hide Runs.IncidentInv;
  }

  lemma GoneKeeps(r: Record, now: Time, cfg: Config)
    requires Runs.IncidentInv(r.incident)
    ensures Runs.IncidentInv(Gone(r, now, cfg).incident) && Gone(r, now, cfg).key == r.key
      && Gone(r, now, cfg).identity == r.identity
  {
    Runs.LeaveKeeps(r.incident, now, cfg, false);
  }

  lemma DepartedKeeps(t: Table, active: set<string>, now: Time, cfg: Config)
    requires Ledgers(t) && Keyed(t)
    ensures Ledgers(Departed(t, active, now, cfg)) && Keyed(Departed(t, active, now, cfg))
  {
    hide Gone, Runs.IncidentInv;
    forall k | k in t ensures Runs.IncidentInv(Departed(t, active, now, cfg)[k].incident)
      && Departed(t, active, now, cfg)[k].key == k && Departed(t, active, now, cfg)[k].identity != ""
    {
      GoneKeeps(t[k], now, cfg);
    }
  }

  /** Every scan keeps every account's alert ledger, every account under its own key, and no account
      without identity.  That an account keeps the identity it has is part of `Finish`. */
  lemma ScanKeeps(t: Table, cs: seq<Listing>, items: seq<Item>, now: Time, cfg: Config, retention: int,
                  admits: nat -> bool)
    requires Ledgers(t) && Keyed(t) && DistinctKeys(cs) && Sane(items) && now > 0
    ensures var after := AfterScan(t, cs, items, now, cfg, retention, admits); Ledgers(after) && Keyed(after)
  {
    hide Correlated, AppliedAll, SparedAll, Departed, Runs.IncidentInv, Store.Expired, CountsOf, RuntimeOf;
    var counts, active := CountsOf(items), Keys(cs);
    var moved := Correlated(t, cs, counts, RuntimeOf(items));
    CorrelatedKeeps(t, cs, counts, RuntimeOf(items));
    AppliedAllKeeps(moved, items, active, counts, now, cfg, admits);
    var seen := AppliedAll(moved, items, active, counts, now, cfg, admits);
    DepartedKeeps(seen, SparedAll(seen, FailedOf(items), counts, active), now, cfg);
  }

  lemma RosterScanKeeps(t: Table, roster: seq<Listing>, enabled: set<string>, results: seq<Item>, now: Time,
                        cfg: Config, retention: int, admits: nat -> bool)
    requires OnePerCandidate(Sorted(Firsts(roster, enabled), Place), results)
    requires Ledgers(t) && Keyed(t) && Sane(results) && now > 0
    ensures var after := AfterScan(t, Sorted(Firsts(roster, enabled), Place), Sorted(results, ItemRank), now, cfg,
                                   retention, admits);
      Ledgers(after) && Keyed(after)
  {
    hide Sorted, Firsts, AfterScan, OnePerCandidate, Covers, Ledgers, Keyed;
    DiscoveredScan(roster, enabled, results);
    var cs, items := Sorted(Firsts(roster, enabled), Place), Sorted(results, ItemRank);
    SortedSorts(results, ItemRank);
    forall x | x in items ensures x in results {
      assert x in multiset(items);
    }
    ScanKeeps(t, cs, items, now, cfg, retention, admits);
  }
}
