/** Suppression rollbacks: what an old monitor withdraws on its way out, applied to the state its
    replacement loads. */
module Rollback {
  import opened Health
  import opened Incident
  import opened Accounts

  datatype RollbackKind = AlertSuppression | RecoverySuppression

  datatype Entry = Entry(key: string, identity: string, kind: RollbackKind, generation: nat, attemptAt: Time)

  type Table = map<string, Record>

  const DAY: Time := 86400

  /** `RegisterSuppressionRollback`; instants older than a day are dropped on the way. */
  function Register(entries: set<Entry>, e: Entry, now: Time): set<Entry> {
    if e.attemptAt == 0 || e.generation == 0 then entries
    else (set x | x in entries && x.attemptAt >= now - DAY) + {e}
  }

  ghost predicate Registered(entries: set<Entry>) {
    forall e | e in entries :: e.attemptAt != 0 && e.generation != 0
  }

  lemma RegisterKeeps(entries: set<Entry>, e: Entry, now: Time)
    requires Registered(entries)
    ensures Registered(Register(entries, e, now))
  {
  }

  // ---------- which account a rollback is about ----------

  ghost predicate AtKey(t: Table, e: Entry) {
    e.key in t && (e.identity == "" || t[e.key].identity == e.identity)
  }

  ghost predicate OnlyWithIdentity(t: Table, identity: string, k: string) {
    k in t && t[k].identity == identity && forall x | x in t && t[x].identity == identity :: x == k
  }

  /** The account under the recorded key, unless another identity sits there; then the one account
      that carries the identity. */
  ghost predicate Targets(t: Table, e: Entry, k: string) {
    if AtKey(t, e) then k == e.key else e.identity != "" && OnlyWithIdentity(t, e.identity, k)
  }

  ghost predicate Untargeted(t: Table, e: Entry) {
    forall k :: !Targets(t, e, k)
  }

  predicate Matches(r: Record, e: Entry) {
    && r.incident.generation == e.generation
    && match e.kind
       case AlertSuppression => r.incident.alertAttemptGeneration == e.generation
         && r.incident.alertAttempt == e.attemptAt
       case RecoverySuppression => r.incident.recoveryAttempt == e.attemptAt
  }

  function Cleared(r: Record, kind: RollbackKind): Record {
    match kind
    case AlertSuppression => r.(incident := r.incident.(alertAttempt := 0, alertAttemptGeneration := 0))
    case RecoverySuppression => r.(incident := r.incident.(recoveryAttempt := 0))
  }

  // ---------- the whole set at once ----------

  ghost predicate Hit(t: Table, entries: set<Entry>, k: string, kind: RollbackKind) {
    k in t && exists e :: e in entries && e.kind == kind && Targets(t, e, k) && Matches(t[k], e)
  }

  ghost function SweptRecord(t: Table, entries: set<Entry>, k: string): Record
    requires k in t
  {
    var r := if Hit(t, entries, k, AlertSuppression) then Cleared(t[k], AlertSuppression) else t[k];
    if Hit(t, entries, k, RecoverySuppression) then Cleared(r, RecoverySuppression) else r
  }

  /** The table after a set of rollbacks: a marker is gone exactly when some rollback names it. */
  ghost function Swept(t: Table, entries: set<Entry>): Table {
    map k | k in t :: SweptRecord(t, entries, k)
  }

  lemma SweptKeepsNames(t: Table, entries: set<Entry>, e: Entry, k: string)
    ensures Swept(t, entries).Keys == t.Keys
    ensures Targets(Swept(t, entries), e, k) <==> Targets(t, e, k)
  {
    var s := Swept(t, entries);
    assert forall x | x in t :: s[x].identity == t[x].identity;
  }

  /** A rollback still finds its marker after others were applied, unless one of them cleared it. */
  lemma MatchesAfterSweep(t: Table, entries: set<Entry>, e: Entry, k: string)
    requires k in t && e.attemptAt != 0 && e.generation != 0
    ensures Matches(SweptRecord(t, entries, k), e) <==> Matches(t[k], e) && !Hit(t, entries, k, e.kind)
  {
  }

  lemma HitAfterSweep(t: Table, a: set<Entry>, b: set<Entry>, k: string, kind: RollbackKind)
    requires Registered(b) && k in t
    ensures Hit(Swept(t, a), b, k, kind) <==> Hit(t, b, k, kind) && !Hit(t, a, k, kind)
  {
    var s := Swept(t, a);
    if Hit(s, b, k, kind) {
      var e :| e in b && e.kind == kind && Targets(s, e, k) && Matches(s[k], e);
      SweptKeepsNames(t, a, e, k);
      MatchesAfterSweep(t, a, e, k);
    }
    if Hit(t, b, k, kind) && !Hit(t, a, k, kind) {
      var e :| e in b && e.kind == kind && Targets(t, e, k) && Matches(t[k], e);
      SweptKeepsNames(t, a, e, k);
      MatchesAfterSweep(t, a, e, k);
    }
  }

  lemma HitUnion(t: Table, a: set<Entry>, b: set<Entry>, k: string, kind: RollbackKind)
    ensures Hit(t, a + b, k, kind) <==> Hit(t, a, k, kind) || Hit(t, b, k, kind)
  {
  }

  /** Applying two sets one after the other is applying their union: neither order nor grouping matters. */
  lemma SweepsCompose(t: Table, a: set<Entry>, b: set<Entry>)
    requires Registered(a) && Registered(b)
    ensures Swept(Swept(t, a), b) == Swept(t, a + b)
  {
    forall k | k in t ensures Swept(Swept(t, a), b)[k] == Swept(t, a + b)[k] {
      SweptOnce(t, a, b, k);
    }
  }

  lemma SweptOnce(t: Table, a: set<Entry>, b: set<Entry>, k: string)
    requires Registered(b) && k in t
    ensures SweptRecord(Swept(t, a), b, k) == SweptRecord(t, a + b, k)
  {
    HitAfterSweep(t, a, b, k, AlertSuppression);
    HitAfterSweep(t, a, b, k, RecoverySuppression);
    HitUnion(t, a, b, k, AlertSuppression);
    HitUnion(t, a, b, k, RecoverySuppression);
    assert Swept(t, a)[k] == SweptRecord(t, a, k);
    hide Hit, Swept;
  }

  /** Applying the registered set again changes nothing. */
  lemma SweepIsIdempotent(t: Table, entries: set<Entry>)
    requires Registered(entries)
    ensures Swept(Swept(t, entries), entries) == Swept(t, entries)
  {
    SweepsCompose(t, entries, entries);
    assert entries + entries == entries;
  }

  /** A sweep touches only markers that some registered rollback names exactly: same generation, same
      instant, the right account.  A newer attempt or another generation is out of its reach. */
  lemma SweepIsExact(t: Table, entries: set<Entry>, k: string)
    requires k in t
    ensures var r, s := t[k], Swept(t, entries)[k];
      && s == r.(incident := r.incident.(alertAttempt := s.incident.alertAttempt,
                                         alertAttemptGeneration := s.incident.alertAttemptGeneration,
                                         recoveryAttempt := s.incident.recoveryAttempt))
      && (s.incident.alertAttempt != r.incident.alertAttempt
          || s.incident.alertAttemptGeneration != r.incident.alertAttemptGeneration ==>
            && s.incident.alertAttempt == s.incident.alertAttemptGeneration == 0
            && exists e :: e in entries && e.kind.AlertSuppression? && Targets(t, e, k)
                 && e.generation == r.incident.generation == r.incident.alertAttemptGeneration
                 && e.attemptAt == r.incident.alertAttempt)
      && (s.incident.recoveryAttempt != r.incident.recoveryAttempt ==>
            && s.incident.recoveryAttempt == 0
            && exists e :: e in entries && e.kind.RecoverySuppression? && Targets(t, e, k)
                 && e.generation == r.incident.generation && e.attemptAt == r.incident.recoveryAttempt)
  {
  }

  // ---------- the loop over live accounts ----------

  ghost predicate Distinct(accounts: map<string, Account>) {
    forall a, b | a in accounts && b in accounts && a != b :: accounts[a] != accounts[b]
  }

  function Values(accounts: map<string, Account>): Table
    reads set k | k in accounts :: accounts[k]
  {
    map k | k in accounts :: accounts[k].View()
  }

  /** The lookup in `applySuppressionRollbacks`. */
  method Find(accounts: map<string, Account>, e: Entry) returns (key: string, found: bool)
    ensures found ==> key in accounts && Targets(Values(accounts), e, key)
    ensures !found ==> Untargeted(Values(accounts), e)
  {
    if e.key in accounts && (e.identity == "" || accounts[e.key].identity == e.identity) {
      return e.key, true;
    }
    key, found := "", false;
    if e.identity == "" {
      return;
    }
    var todo := accounts.Keys;
    while todo != {}
      invariant todo <= accounts.Keys
      invariant forall k | k in accounts.Keys - todo && accounts[k].identity == e.identity :: found && k == key
      invariant found ==> key in accounts.Keys - todo && accounts[key].identity == e.identity
      decreases todo
    {
      var k :| k in todo;
      todo := todo - {k};
      if accounts[k].identity == e.identity {
        if found {
          // two accounts carry the identity
          var first := key;
          found := false;
          assert forall x :: !OnlyWithIdentity(Values(accounts), e.identity, x) by {
            assert Values(accounts)[first].identity == e.identity && Values(accounts)[k].identity == e.identity;
          }
          return;
        }
        key, found := k, true;
      }
    }
  }

  /** The markers of one account that one rollback names. */
  method WithdrawMarker(account: Account, e: Entry)
    modifies account
    ensures account.View() == if Matches(old(account.View()), e) then Cleared(old(account.View()), e.kind)
      else old(account.View())
  {
    if account.incident.generation == e.generation {
      match e.kind
      case AlertSuppression =>
        if account.incident.alertAttemptGeneration == e.generation && account.incident.alertAttempt == e.attemptAt {
          account.incident := account.incident.(alertAttempt := 0, alertAttemptGeneration := 0);
        }
      case RecoverySuppression =>
        if account.incident.recoveryAttempt == e.attemptAt {
          account.incident := account.incident.(recoveryAttempt := 0);
        }
    }
  }

  lemma SweepNothing(t: Table)
    ensures Swept(t, {}) == t
  {
  }

  lemma SingleHit(t: Table, e: Entry, k: string, kind: RollbackKind)
    requires k in t
    ensures Hit(t, {e}, k, kind) <==> e.kind == kind && Targets(t, e, k) && Matches(t[k], e)
  {
    assert e in {e};
  }

  /** Sweeping a single rollback. */
  lemma SweepOne(t: Table, e: Entry, k: string)
    requires k in t && e.generation != 0
    ensures Swept(t, {e})[k] == if Targets(t, e, k) && Matches(t[k], e) then Cleared(t[k], e.kind) else t[k]
  {
    hide Hit, Matches, Targets;
    SingleHit(t, e, k, AlertSuppression);
    SingleHit(t, e, k, RecoverySuppression);
  }

  lemma TargetUnique(t: Table, e: Entry, a: string, b: string)
    requires Targets(t, e, a) && Targets(t, e, b)
    ensures a == b
  {
  }

  function Withdrawn(r: Record, e: Entry): Record {
    if Matches(r, e) then Cleared(r, e.kind) else r
  }

  method WithdrawAt(accounts: map<string, Account>, key: string, e: Entry)
    requires Distinct(accounts) && key in accounts
    modifies accounts[key]
    ensures Values(accounts) == old(Values(accounts))[key := Withdrawn(old(accounts[key].View()), e)]
  {
    WithdrawMarker(accounts[key], e);
    assert forall k | k in accounts && k != key :: accounts[k] != accounts[key];
  }

  /** A rollback changes the one record it targets. */
  lemma SweepTarget(t: Table, e: Entry, key: string)
    requires key in t && Targets(t, e, key) && e.generation != 0
    ensures Swept(t, {e}) == t[key := Withdrawn(t[key], e)]
  {
    forall k | k in t ensures Swept(t, {e})[k] == t[key := Withdrawn(t[key], e)][k] {
      SweepOne(t, e, k);
      if k != key && Targets(t, e, k) {
        TargetUnique(t, e, k, key);
      }
      hide Targets, Swept, Matches;
    }
  }

  lemma SweepNoTarget(t: Table, e: Entry)
    requires e.generation != 0 && Untargeted(t, e)
    ensures Swept(t, {e}) == t
  {
    forall k | k in t ensures Swept(t, {e})[k] == t[k] {
      SweepOne(t, e, k);
    }
  }

  /** One rollback against the live accounts. */
  method ApplyOne(accounts: map<string, Account>, e: Entry)
    requires Distinct(accounts) && e.generation != 0
    modifies set k | k in accounts :: accounts[k]
    ensures Values(accounts) == Swept(old(Values(accounts)), {e})
  {
    hide Targets, Swept, Distinct, Withdrawn, Account.View;
    ghost var before := Values(accounts);
    var key, found := Find(accounts, e);
    if found {
      SweepTarget(before, e, key);
      WithdrawAt(accounts, key, e);
    } else {
      SweepNoTarget(before, e);
    }
  }

  /** The loop of `applySuppressionRollbacks`: whatever order the set is visited in, the result is the sweep. */
  method ApplySuppressionRollbacks(accounts: map<string, Account>, entries: set<Entry>)
    requires Distinct(accounts) && Registered(entries)
    modifies set k | k in accounts :: accounts[k]
    ensures Values(accounts) == Swept(old(Values(accounts)), entries)
  {
    hide Swept, Values, Distinct;
    ghost var before := Values(accounts);
    ghost var done: set<Entry> := {};
    SweepNothing(before);
    var todo := entries;
    while todo != {}
      invariant done + todo == entries && Registered(done) && Registered(todo)
      invariant Values(accounts) == Swept(before, done)
      decreases todo
    {
      var e :| e in todo;
      todo := todo - {e};
      ApplyOne(accounts, e);
      SweepsCompose(before, done, {e});
      done := done + {e};
    }
    assert done == entries;
  }

  // ---------- agreement with the callback ----------

  predicate Withdrawable(t: Ticket) {
    (Alarms(t.kind) || t.kind.RecoveryKind?) && t.generation != 0 && t.attemptAt != 0
  }

  /** What the abandonment hook of a queued notification registers. */
  function EntryOf(r: Record, t: Ticket): Entry {
    Entry(r.key, r.identity, if t.kind.RecoveryKind? then RecoverySuppression else AlertSuppression,
          t.generation, t.attemptAt)
  }

  /** The callback for an unattempted job, on the same table. */
  function Reported(table: Table, k: string, t: Ticket): Table
    requires k in table
  {
    table[k := table[k].(incident := Withdraw(table[k].incident, t))]
  }

  /** For one job the rollback and the callback do the same, and running both in either order is
      running one. */
  lemma RollbackAgreesWithCallback(table: Table, k: string, owner: Record, t: Ticket)
    requires Withdrawable(t) && k in table && Targets(table, EntryOf(owner, t), k)
    ensures Swept(table, {EntryOf(owner, t)}) == Reported(table, k, t)
    ensures Reported(Swept(table, {EntryOf(owner, t)}), k, t) == Reported(table, k, t)
    ensures Swept(Reported(table, k, t), {EntryOf(owner, t)}) == Reported(table, k, t)
  {
    var e := EntryOf(owner, t);
    forall x | x in table ensures Swept(table, {e})[x] == Reported(table, k, t)[x] {
      SweepOne(table, e, x);
      if x != k && Targets(table, e, x) {
        TargetUnique(table, e, x, k);
      }
      hide Targets, Swept;
    }
    assert Swept(table, {e}) == Reported(table, k, t);
    SweepIsIdempotent(table, {e});
    assert Withdraw(Withdraw(table[k].incident, t), t) == Withdraw(table[k].incident, t);
  }
}
