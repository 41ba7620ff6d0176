/** The state file: writer authority, loading, saving and pruning. */
module Store {
  import opened Health
  import opened Incident
  import opened Accounts
  import opened Rollback

  /** What lies at the path: nothing, something that does not decode, or a table. */
  datatype Content = Missing | Garbled | Present(table: Table)

  // ---------- decoding ----------

  predicate KeptSuspicion(i: Incident) {
    && i.health == Suspect && i.suspectClass != Unconfirmable && IsFailure(i.suspectTarget)
      && i.suspectReason != NoReason
  }

  function NormalizedIncident(i: Incident): Incident {
    var n := i.(reason := NormalizeReason(i.reason));
    if KeptSuspicion(i) then n.(suspectReason := NormalizeReason(i.suspectReason)) else ClearSuspect(n)
  }

  function Normalized(r: Record, key: string): Record {
    r.(key := key, incident := NormalizedIncident(r.incident))
  }

  function Decoded(t: Table): Table {
    map k | k in t :: Normalized(t[k], k)
  }

  /** What a writer that loads the file sees. */
  ghost function Loaded(content: Content, entries: set<Entry>): Table {
    if content.Present? then Swept(Decoded(content.table), entries) else map[]
  }

  lemma DecodingIsIdempotent(t: Table)
    ensures Decoded(Decoded(t)) == Decoded(t)
  {
    hide NormalizedIncident;
    forall k | k in t ensures Decoded(Decoded(t))[k] == Decoded(t)[k] {
      NormalizedTwice(t[k].incident);
    }
  }

  lemma NormalizedTwice(i: Incident)
    ensures NormalizedIncident(NormalizedIncident(i)) == NormalizedIncident(i)
  {
  }

  lemma DecodingKeepsTargets(t: Table, e: Entry, k: string)
    ensures Targets(Decoded(t), e, k) <==> Targets(t, e, k)
    ensures k in t ==> (Matches(Decoded(t)[k], e) <==> Matches(t[k], e))
  {
    assert forall x | x in t :: Decoded(t)[x].identity == t[x].identity;
  }

  lemma DecodingKeepsHits(t: Table, entries: set<Entry>, k: string, kind: RollbackKind)
    ensures Hit(Decoded(t), entries, k, kind) <==> Hit(t, entries, k, kind)
  {
    if Hit(t, entries, k, kind) {
      var e :| e in entries && e.kind == kind && Targets(t, e, k) && Matches(t[k], e);
      DecodingKeepsTargets(t, e, k);
    }
    if Hit(Decoded(t), entries, k, kind) {
      var e :| e in entries && e.kind == kind && Targets(Decoded(t), e, k) && Matches(Decoded(t)[k], e);
      DecodingKeepsTargets(t, e, k);
    }
  }

  /** Rollbacks and decoding commute. */
  lemma DecodingCommutesWithSweep(t: Table, entries: set<Entry>)
    ensures Decoded(Swept(t, entries)) == Swept(Decoded(t), entries)
  {
    hide Hit, Normalized, Cleared;
    forall k | k in t ensures Decoded(Swept(t, entries))[k] == Swept(Decoded(t), entries)[k] {
      DecodingKeepsHits(t, entries, k, AlertSuppression);
      DecodingKeepsHits(t, entries, k, RecoverySuppression);
      NormalizedCleared(t[k], k, AlertSuppression);
      NormalizedCleared(t[k], k, RecoverySuppression);
      NormalizedCleared(Cleared(t[k], AlertSuppression), k, RecoverySuppression);
    }
  }

  lemma NormalizedCleared(r: Record, key: string, kind: RollbackKind)
    ensures Normalized(Cleared(r, kind), key) == Cleared(Normalized(r, key), kind)
  {
  }

  /** Round trip: what was saved under one set of rollbacks and loaded under a later one is the
      decoded original with the rollbacks of both applied, in either place. */
  lemma LoadAfterSave(t: Table, atSave: set<Entry>, atLoad: set<Entry>)
    requires Registered(atSave) && Registered(atLoad)
    ensures Loaded(Present(Swept(t, atSave)), atLoad) == Swept(Decoded(t), atSave + atLoad)
  {
    DecodingCommutesWithSweep(t, atSave);
    SweepsCompose(Decoded(t), atSave, atLoad);
  }

  /** A restart neither forgets nor invents an incident: latch, generation, health, start and pending
      recovery come back as they were saved. */
  lemma RestartKeepsIncident(t: Table, entries: set<Entry>, k: string)
    requires k in t
    ensures k in Loaded(Present(t), entries)
    ensures var a, b := t[k].incident, Loaded(Present(t), entries)[k].incident;
      && b.health == a.health && b.generation == a.generation && b.alertSent == a.alertSent
        && b.lastAlert == a.lastAlert
      && b.recoveryFrom == a.recoveryFrom && b.firstDetected == a.firstDetected && b.previous == a.previous
      && (a.health != Suspect ==> b.suspectSince == 0)
  {
    hide Hit, Matches, Targets;
    SweepIsExact(Decoded(t), entries, k);
  }

  /** An announced, unchanged incident is not announced again after a restart; at most a due reminder is queued. */
  lemma RestartDoesNotRepeatAlert(i: Incident, obs: Observation, now: Time, cfg: Config, admit: bool)
    requires i.alertSent && IsFailure(i.health) && obs.state == i.health
    ensures var step := Observe(NormalizedIncident(i), obs, now, cfg, admit);
      && step.incident.alertSent && step.incident.generation == i.generation
      && (forall ticket | ticket in step.issued ::
        ticket.kind.ReminderKind? && cfg.reminderInterval > 0 && Due(i.lastAlert, cfg.reminderInterval, now))
  {
  }

  /** One pass of the normalising loop of `decode`. */
  method NormalizeRecord(account: Account, key: string)
    modifies account
    ensures account.View() == Normalized(old(account.View()), key)
  {
    account.key := key;
    account.incident := account.incident.(reason := NormalizeReason(account.incident.reason));
    if account.incident.health == Suspect {
      if account.incident.suspectClass == Unconfirmable || !IsFailure(account.incident.suspectTarget)
         || account.incident.suspectReason == NoReason {
        account.ClearSuspicion();
      } else {
        account.incident := account.incident.(suspectReason := NormalizeReason(account.incident.suspectReason));
      }
    } else {
      account.ClearSuspicion();
    }
  }

  method NormalizeAt(accounts: map<string, Account>, key: string)
    requires Distinct(accounts) && key in accounts
    modifies accounts[key]
    ensures Values(accounts) == old(Values(accounts))[key := Normalized(old(accounts[key].View()), key)]
  {
    NormalizeRecord(accounts[key], key);
    assert forall k | k in accounts && k != key :: accounts[k] != accounts[key];
  }

  /** The normalising loop of `decode`, over freshly parsed records. */
  method Decode(accounts: map<string, Account>)
    requires Distinct(accounts)
    modifies set k | k in accounts :: accounts[k]
    ensures Values(accounts) == Decoded(old(Values(accounts)))
  {
    hide Normalized, Distinct, Account.View;
    ghost var before := Values(accounts);
    var todo := accounts.Keys;
    while todo != {}
      invariant todo <= accounts.Keys == Values(accounts).Keys
      invariant forall k | k in accounts ::
        Values(accounts)[k] == if k in todo then before[k] else Normalized(before[k], k)
      decreases todo
    {
      var k :| k in todo;
      todo := todo - {k};
      NormalizeAt(accounts, k);
    }
    assert Values(accounts).Keys == Decoded(before).Keys;
  }

  // ---------- pruning ----------

  predicate Expired(r: Record, now: Time, retention: int) {
    && retention >= 0 && r.incident.health == Removed && r.removedAt != 0
    && (retention == 0 || r.removedAt + retention <= now)
  }

  function Pruned(t: Table, now: Time, retention: int): Table {
    map k | k in t && !Expired(t[k], now, retention) :: t[k]
  }

  /** `PruneRemoved`: exactly the removed accounts whose retention is over go, and they are counted. */
  method PruneRemoved(accounts: map<string, Account>, now: Time, retention: int)
    returns (left: map<string, Account>, pruned: nat)
    ensures left.Keys == set k | k in accounts && !Expired(accounts[k].View(), now, retention)
    ensures forall k | k in left :: left[k] == accounts[k]
    ensures pruned + |left| == |accounts|
  {
    left, pruned := accounts, 0;
    if retention < 0 {
      return;
    }
    var todo := accounts.Keys;
    while todo != {}
      invariant todo <= left.Keys <= accounts.Keys
      invariant forall k | k in left :: left[k] == accounts[k]
      invariant forall k | k in accounts :: k in left <==> k in todo || !Expired(accounts[k].View(), now, retention)
      invariant pruned + |left| == |accounts|
      decreases todo
    {
      var k :| k in todo;
      todo := todo - {k};
      var account := accounts[k];
      if account.incident.health != Removed || account.removedAt == 0 {
        continue;
      }
      if retention == 0 || account.removedAt + retention <= now {
        var rest := left - {k};
        assert left.Keys == rest.Keys + {k};
        assert |left.Keys| == |rest.Keys| + 1;
        left := rest;
        pruned := pruned + 1;
      }
    }
  }

  // ---------- writer authority ----------

  /** One state file: the lease, the process-wide token counter, and what was last committed. */
  datatype Lease = Lease(owner: nat, generation: nat, content: Content)

  datatype Act =
    | Claim
    | ClaimElsewhere
    | Release(token: nat)
    | Commit(token: nat, table: Table)

  predicate Authorized(l: Lease, token: nat) {
    if token == 0 then l.owner == 0 else l.owner == token
  }

  function Perform(l: Lease, act: Act): Lease {
    match act
    case Claim => l.(generation := l.generation + 1, owner := l.generation + 1)
    case ClaimElsewhere => l.(generation := l.generation + 1)
    case Release(token) => if token != 0 && l.owner == token then l.(owner := 0) else l
    case Commit(token, table) => if Authorized(l, token) then l.(content := Present(table)) else l
  }

  const UNCLAIMED := Lease(0, 0, Missing)

  function After(acts: seq<Act>, n: nat): Lease
    requires n <= |acts|
  {
    if n == 0 then UNCLAIMED else Perform(After(acts, n - 1), acts[n - 1])
  }

  /** The token the claim at position `c` hands out. */
  function TokenOf(acts: seq<Act>, c: nat): nat
    requires c < |acts|
  {
    After(acts, c).generation + 1
  }

  /** The claim at position `c` handed out `token`, and since then nobody claimed and `token` was not released. */
  ghost predicate HoldsFrom(acts: seq<Act>, c: nat, n: nat, token: nat)
    requires c < n <= |acts|
  {
    && acts[c].Claim? && TokenOf(acts, c) == token
    && forall m | c < m < n :: !acts[m].Claim? && acts[m] != Release(token)
  }

  ghost predicate Holds(acts: seq<Act>, n: nat, token: nat)
    requires n <= |acts|
  {
    exists c :: 0 <= c < n && HoldsFrom(acts, c, n, token)
  }

  lemma HoldsLonger(acts: seq<Act>, n: nat, token: nat)
    requires n < |acts| && !acts[n].Claim? && acts[n] != Release(token)
    ensures Holds(acts, n + 1, token) <==> Holds(acts, n, token)
  {
    hide TokenOf;
    if Holds(acts, n, token) {
      var c :| 0 <= c < n && HoldsFrom(acts, c, n, token);
      assert HoldsFrom(acts, c, n + 1, token);
    }
    if Holds(acts, n + 1, token) {
      var c :| 0 <= c < n + 1 && HoldsFrom(acts, c, n + 1, token);
      assert HoldsFrom(acts, c, n, token);
    }
  }

  /** A writer owns the file exactly when it claimed it, nobody claimed it since, and it has not released it. */
  lemma {:induction false} OwnerIsHolder(acts: seq<Act>, n: nat, token: nat)
    requires n <= |acts| && token > 0
    ensures After(acts, n).owner == token <==> Holds(acts, n, token)
  {
    if n > 0 {
      OwnerIsHolder(acts, n - 1, token);
      var act := acts[n - 1];
      if act.Claim? {
        assert token == TokenOf(acts, n - 1) ==> HoldsFrom(acts, n - 1, n, token);
      } else if act != Release(token) {
        HoldsLonger(acts, n - 1, token);
      }
    }
  }

  /** The commit at position `m` comes from the writer that owns the file then; a writer without a token
      may commit only while nobody owns it. */
  ghost predicate Effective(acts: seq<Act>, m: nat)
    requires m < |acts|
  {
    && acts[m].Commit?
    && if acts[m].token == 0 then forall token: nat | token > 0 :: !Holds(acts, m, token)
      else Holds(acts, m, acts[m].token)
  }

  /** The commit at position `m` put `table` there, and no later one took effect. */
  ghost predicate LastCommit(acts: seq<Act>, m: nat, n: nat, table: Table)
    requires m < n <= |acts|
  {
    Effective(acts, m) && acts[m].table == table && forall k | m < k < n :: !Effective(acts, k)
  }

  ghost predicate Committed(acts: seq<Act>, n: nat, table: Table)
    requires n <= |acts|
  {
    exists m :: 0 <= m < n && LastCommit(acts, m, n, table)
  }

  lemma EffectiveIsAuthorized(acts: seq<Act>, m: nat)
    requires m < |acts| && acts[m].Commit?
    ensures Effective(acts, m) <==> Authorized(After(acts, m), acts[m].token)
  {
    hide After, Holds;
    var owner, token := After(acts, m).owner, acts[m].token;
    if token > 0 {
      OwnerIsHolder(acts, m, token);
    } else {
      if owner > 0 {
        OwnerIsHolder(acts, m, owner);
      }
      forall other: nat | other > 0 ensures After(acts, m).owner == other <==> Holds(acts, m, other) {
        OwnerIsHolder(acts, m, other);
      }
    }
  }

  lemma CommittedLonger(acts: seq<Act>, n: nat, table: Table)
    requires n < |acts|
    ensures Committed(acts, n + 1, table)
       <==> if Effective(acts, n) then acts[n].table == table else Committed(acts, n, table)
  {
    assert Effective(acts, n) ==> acts[n].Commit?;
    hide Effective;
    if Effective(acts, n) {
      if acts[n].table == table { assert LastCommit(acts, n, n + 1, table); }
    } else {
      if Committed(acts, n, table) {
        var m :| 0 <= m < n && LastCommit(acts, m, n, table);
        assert LastCommit(acts, m, n + 1, table);
      }
      if Committed(acts, n + 1, table) {
        var m :| 0 <= m < n + 1 && LastCommit(acts, m, n + 1, table);
        assert LastCommit(acts, m, n, table);
      }
    }
  }

  /** The file holds a table exactly when some commit of it came from the owner at its time and no later
      commit did: what others try leaves no trace. */
  lemma {:induction false} ContentIsLastCommitted(acts: seq<Act>, n: nat, table: Table)
    requires n <= |acts|
    ensures After(acts, n).content == Present(table) <==> Committed(acts, n, table)
  {
    if n > 0 {
      ContentIsLastCommitted(acts, n - 1, table);
      CommittedLonger(acts, n - 1, table);
      hide Effective, Committed;
      if acts[n - 1].Commit? {
        EffectiveIsAuthorized(acts, n - 1);
      } else {
        assert !Effective(acts, n - 1) by { NotACommit(acts, n - 1); }
      }
    }
  }

  lemma NotACommit(acts: seq<Act>, m: nat)
    requires m < |acts| && !acts[m].Commit?
    ensures !Effective(acts, m)
  {
  }

  /** From a claim on, the owner is that claimant, a newer one, or nobody. */
  lemma {:induction false} OwnerAfterClaim(acts: seq<Act>, c: nat, n: nat)
    requires c < n <= |acts| && acts[c].Claim?
    ensures After(acts, n).generation >= TokenOf(acts, c)
    ensures After(acts, n).owner == 0 || After(acts, n).owner >= TokenOf(acts, c)
    decreases n
  {
    if n > c + 1 {
      OwnerAfterClaim(acts, c, n - 1);
    }
  }

  /** Once a newer writer has claimed, an older token never commits again. */
  lemma SupersededNeverCommits(acts: seq<Act>, c: nat, n: nat, token: nat, table: Table)
    requires c < n < |acts| && acts[c].Claim? && 0 < token < TokenOf(acts, c)
    requires acts[n] == Commit(token, table)
    ensures After(acts, n + 1) == After(acts, n)
  {
    OwnerAfterClaim(acts, c, n);
  }

  /** A superseded writer's release never revokes the current owner. */
  lemma SupersededReleaseIsIdle(acts: seq<Act>, c: nat, n: nat, token: nat)
    requires c < n < |acts| && acts[c].Claim? && token < TokenOf(acts, c)
    requires acts[n] == Release(token)
    ensures After(acts, n + 1) == After(acts, n)
  {
    OwnerAfterClaim(acts, c, n);
  }

  /** What the file holds when a writer claims it stands until that writer commits or releases, or a
      newer one claims: a load in between sees the last value of all earlier writers. */
  lemma {:induction false} ClaimedContentStands(acts: seq<Act>, c: nat, n: nat)
    requires c < n <= |acts| && acts[c].Claim?
    requires forall m | c < m < n :: !acts[m].Claim? && acts[m] != Release(TokenOf(acts, c))
    requires forall m | c < m < n :: acts[m].Commit? ==> acts[m].token != TokenOf(acts, c)
    ensures After(acts, n).content == After(acts, c).content && After(acts, n).owner == TokenOf(acts, c)
    decreases n
  {
    if n > c + 1 {
      ClaimedContentStands(acts, c, n - 1);
    }
  }

  /** The current claimant's own commit does take effect. */
  lemma ClaimantCommits(acts: seq<Act>, c: nat, n: nat, table: Table)
    requires c < n < |acts| && acts[c].Claim?
    requires forall m | c < m < n :: !acts[m].Claim? && acts[m] != Release(TokenOf(acts, c))
    requires acts[n] == Commit(TokenOf(acts, c), table)
    ensures After(acts, n + 1).content == Present(table)
  {
    OwnerIsHolder(acts, n, TokenOf(acts, c));
    assert HoldsFrom(acts, c, n, TokenOf(acts, c));
  }

  // ---------- the objects ----------

  /** The lease record, the token counter and the file behind one canonical path. */
  class StateFile {
    var owner: nat
    var generation: nat
    var content: Content
    var entries: set<Entry>

    constructor ()
      ensures View() == UNCLAIMED && entries == {}
    {
      owner, generation, content, entries := 0, 0, Missing, {};
    }

    function View(): Lease
      reads this
    {
      Lease(owner, generation, content)
    }
  }

  class Writer {
    const file: StateFile
    var token: nat

    constructor (file: StateFile)
      ensures this.file == file && token == 0
    {
      this.file := file;
      token := 0;
    }

    method ClaimLease()
      modifies this`token, file`owner, file`generation
      ensures file.View() == Perform(old(file.View()), Claim)
      ensures token == file.owner && token > old(file.generation)
    {
      file.generation := file.generation + 1;
      file.owner := file.generation;
      token := file.owner;
    }

    method ReleaseLease()
      modifies file`owner
      ensures file.View() == Perform(old(file.View()), Release(token))
    {
      if token == 0 {
        return;
      }
      if file.owner == token {
        file.owner := 0;
      }
    }

    /** `Save`: rollbacks are applied to the live accounts first; the commit then needs the lease. */
    method Save(accounts: map<string, Account>) returns (ok: bool)
      requires Distinct(accounts) && Registered(file.entries)
      modifies file`content, set k | k in accounts :: accounts[k]
      ensures Values(accounts) == Swept(old(Values(accounts)), file.entries)
      ensures file.View() == Perform(old(file.View()), Commit(token, Values(accounts)))
      ensures ok <==> Authorized(old(file.View()), token)
    {
      ApplySuppressionRollbacks(accounts, file.entries);
      if (token == 0 && file.owner != 0) || (token != 0 && file.owner != token) {
        return false;
      }
      file.content := Present(Values(accounts));
      ok := true;
    }

    /** `Load`: fresh records, normalised, with the registered rollbacks applied; never partial data. */
    method Load() returns (accounts: map<string, Account>, ok: bool)
      requires Registered(file.entries)
      ensures Distinct(accounts) && fresh(set k | k in accounts :: accounts[k])
      ensures Values(accounts) == Loaded(file.content, file.entries)
      ensures ok <==> !file.content.Garbled?
    {
      accounts, ok := map[], true;
      match file.content {
        case Missing =>
        case Garbled => ok := false;
        case Present(table) =>
          accounts := Parse(table);
          Decode(accounts);
          ApplySuppressionRollbacks(accounts, file.entries);
      }
    }
  }

  method ParseRecord(r: Record) returns (account: Account)
    ensures fresh(account) && account.View() == r
  {
    account := new Account(r.key, r.provider, r.authIndex);
    account.name, account.identity, account.incident := r.name, r.identity, r.incident;
    account.removedAt, account.lastHealthy, account.lastObserved := r.removedAt, r.lastHealthy, r.lastObserved;
    account.status, account.unavailable, account.quotaLimited, account.quota := r.status, r.unavailable, r.quotaLimited,
      r.quota;
  }

  /** One fresh record object per entry of the file. */
  method Parse(table: Table) returns (accounts: map<string, Account>)
    ensures Distinct(accounts) && fresh(set k | k in accounts :: accounts[k])
    ensures Values(accounts) == table
  {
    accounts := map[];
    var todo := table.Keys;
    while todo != {}
      invariant todo <= table.Keys && accounts.Keys == table.Keys - todo
      invariant Distinct(accounts) && fresh(set k | k in accounts :: accounts[k])
      invariant forall k | k in accounts :: accounts[k].View() == table[k]
      decreases todo
    {
      var k :| k in todo;
      todo := todo - {k};
      var account := ParseRecord(table[k]);
      accounts := accounts[k := account];
    }
  }
}
