/** Handing a state file over: what the old monitor's dispatcher never attempted, its replacement
    retries at once; what it attempted, the replacement leaves alone. */
module HandOff {
  import opened Health
  import opened Incident
  import opened Accounts
  import opened Rollback
  import opened Store
  import opened Coalesce
  import D = Dispatch
  import T = DispatchTheorems

  /** What the closures of a queued job captured when it was queued. */
  datatype Errand = Errand(key: string, identity: string, ticket: Ticket)

  function EntryFor(x: Errand): Entry {
    Entry(x.key, x.identity, if x.ticket.kind.RecoveryKind? then RecoverySuppression else AlertSuppression,
          x.ticket.generation, x.ticket.attemptAt)
  }

  /** One run of an abandonment hook. */
  datatype HookCall = HookCall(job: Job, now: Time)

  /** Only failure, reminder and recovery jobs with a marker have a hook. */
  predicate HasHook(errands: map<Job, Errand>, j: Job) {
    j in errands && Withdrawable(errands[j].ticket)
  }

  /** The registered set after the hooks ran, in the order they ran. */
  function RegisterAll(entries: set<Entry>, errands: map<Job, Errand>, calls: seq<HookCall>): set<Entry> {
    if calls == [] then entries
    else
      var last := calls[|calls| - 1];
      var before := RegisterAll(entries, errands, calls[..|calls| - 1]);
      if HasHook(errands, last.job) then Register(before, EntryFor(errands[last.job]), last.now) else before
  }

  ghost predicate Called(calls: seq<HookCall>, j: Job) {
    exists i :: 0 <= i < |calls| && calls[i].job == j
  }

  /** Hooks run within a day of the attempts they withdraw. */
  ghost predicate Young(errands: map<Job, Errand>, calls: seq<HookCall>) {
    forall i, n | 0 <= i < |calls| && 0 <= n < |calls| && calls[i].job in errands ::
      errands[calls[i].job].ticket.attemptAt >= calls[n].now - DAY
  }

  ghost predicate Given(errands: map<Job, Errand>, calls: seq<HookCall>, e: Entry) {
    exists i :: 0 <= i < |calls| && HasHook(errands, calls[i].job) && e == EntryFor(errands[calls[i].job])
  }

  /** Every hook's rollback is still registered at the end, and nothing else came in. */
  lemma {:induction false} HooksRegister(entries: set<Entry>, errands: map<Job, Errand>, calls: seq<HookCall>)
    requires Young(errands, calls)
    ensures forall e | Given(errands, calls, e) :: e in RegisterAll(entries, errands, calls)
    ensures forall e | e in RegisterAll(entries, errands, calls) :: e in entries || Given(errands, calls, e)
  {
    if calls != [] {
      var front, last := calls[..|calls| - 1], calls[|calls| - 1];
      HooksRegister(entries, errands, front);
      forall e | Given(errands, calls, e) ensures e in RegisterAll(entries, errands, calls) {
        var i :| 0 <= i < |calls| && HasHook(errands, calls[i].job) && e == EntryFor(errands[calls[i].job]);
        if i < |front| {
          assert calls[i] == front[i];
          assert Given(errands, front, e);
        }
      }
      forall e | e in RegisterAll(entries, errands, calls) ensures e in entries || Given(errands, calls, e) {
        if Given(errands, front, e) {
          var i :| 0 <= i < |front| && HasHook(errands, front[i].job) && e == EntryFor(errands[front[i].job]);
          assert calls[i] == front[i];
        } else if e !in RegisterAll(entries, errands, front) {
          assert calls[|calls| - 1] == last;
        }
      }
    }
  }

  ghost predicate Names(t: Table, e: Entry, key: string) {
    key in t && Targets(t, e, key) && Matches(t[key], e)
  }

  /** The situation at the hand-off: the dispatcher `sh` has begun to stop, `calls` are the hook runs it
      made, `entries` is what is registered, and the file holds `t` in which job `j` left its marker
      under `key`. */
  ghost predicate Situation(sh: D.Shared, errands: map<Job, Errand>, calls: seq<HookCall>,
                            earlier: set<Entry>, t: Table, key: string, j: Job) {
    && (forall i :: i in sh.hooked <==> Called(calls, i))
    && Young(errands, calls)
    && j in sh.accepted && HasHook(errands, j) && Names(t, EntryFor(errands[j]), key)
    // no other rollback is about this very marker: attempts on one account have distinct instants
    && (forall e | e in earlier && e.kind == EntryFor(errands[j]).kind :: !Names(t, e, key))
    && (forall i | i != j && HasHook(errands, i) && EntryFor(errands[i]).kind == EntryFor(errands[j]).kind ::
          !Names(t, EntryFor(errands[i]), key))
  }

  lemma MarkerHit(sh: D.Shared, errands: map<Job, Errand>, calls: seq<HookCall>,
                  earlier: set<Entry>, t: Table, key: string, j: Job)
    requires Situation(sh, errands, calls, earlier, t, key, j)
    ensures Hit(t, RegisterAll(earlier, errands, calls), key, EntryFor(errands[j]).kind) <==> j in sh.hooked
  {
    hide RegisterAll, Targets, Matches, Young;
    HooksRegister(earlier, errands, calls);
    var mine := EntryFor(errands[j]);
    var entries := RegisterAll(earlier, errands, calls);
    if Called(calls, j) {
      var i :| 0 <= i < |calls| && calls[i].job == j;
      assert Given(errands, calls, mine);
      assert mine in entries;
    }
    if Hit(t, entries, key, mine.kind) {
      var e :| e in entries && e.kind == mine.kind && Targets(t, e, key) && Matches(t[key], e);
      assert Names(t, e, key);
      assert Given(errands, calls, e);
      var i :| 0 <= i < |calls| && HasHook(errands, calls[i].job) && e == EntryFor(errands[calls[i].job]);
      assert calls[i].job == j;
    }
  }

  /** What the marker of a kind of job looks like. */
  function Marker(i: Incident, kind: RollbackKind): (Time, nat) {
    match kind
    case AlertSuppression => (i.alertAttempt, i.alertAttemptGeneration)
    case RecoverySuppression => (i.recoveryAttempt, 0)
  }

  lemma SweptMarker(t: Table, entries: set<Entry>, key: string, kind: RollbackKind)
    requires key in t
    ensures Marker(Swept(t, entries)[key].incident, kind)
         == if Hit(t, entries, key, kind) then (0, 0) else Marker(t[key].incident, kind)
  {
    hide Hit;
  }

  /** The replacement finds the marker withdrawn exactly when the job was never attempted.  The old
      monitor's last save may or may not have applied some of the rollbacks already. */
  lemma MarkerAfterHandOff(states: seq<D.System>, k: nat, errands: map<Job, Errand>, calls: seq<HookCall>,
                           earlier: set<Entry>, saved: set<Entry>, t: Table, key: string, j: Job)
    requires D.Run(states) && k < |states| && T.StopReturned(states[k])
    requires Registered(earlier) && saved <= RegisterAll(earlier, errands, calls)
    requires Situation(states[k].sh, errands, calls, earlier, t, key, j)
    ensures var entries := RegisterAll(earlier, errands, calls);
      var loaded := Loaded(Present(Swept(t, saved)), entries);
      var kind := EntryFor(errands[j]).kind;
      && key in loaded
      && Marker(loaded[key].incident, kind)
         == if j in states[k].sh.attempted then Marker(t[key].incident, kind) else (0, 0)
  {
    var entries := RegisterAll(earlier, errands, calls);
    var kind := EntryFor(errands[j]).kind;
    assert key in t;
    AllRegistered(earlier, errands, calls);
    T.HooksSettledAtStop(states, k);
    MarkerHit(states[k].sh, errands, calls, earlier, t, key, j);
    assert j in states[k].sh.accepted;
    hide D.Run, Swept, Hit, Young, RegisterAll, T.StopReturned, Situation, Decoded, Registered, Loaded;
    LoadAfterSave(t, saved, entries);
    assert saved + entries == entries;
    DecodedMarker(t, key, kind);
    SweptMarker(Decoded(t), entries, key, kind);
    DecodingKeepsHits(t, entries, key, kind);
    SweepKeys(Decoded(t), entries, key);
  }

  lemma DecodedMarker(t: Table, key: string, kind: RollbackKind)
    requires key in t
    ensures key in Decoded(t) && Marker(Decoded(t)[key].incident, kind) == Marker(t[key].incident, kind)
  {
  }

  lemma SweepKeys(t: Table, entries: set<Entry>, key: string)
    ensures key in Swept(t, entries) <==> key in t
  {
  }

  lemma {:induction false} AllRegistered(earlier: set<Entry>, errands: map<Job, Errand>, calls: seq<HookCall>)
    requires Registered(earlier)
    ensures Registered(RegisterAll(earlier, errands, calls))
  {
    if calls != [] {
      AllRegistered(earlier, errands, calls[..|calls| - 1]);
    }
  }

  // ---------- end to end, over a history of the state file ----------

  /** The replacement claims at `c`, when the file holds `table`, and until `n` it has neither saved nor
      released, and nobody newer has claimed; whoever else tries to save may try. */
  ghost predicate Takes(acts: seq<Act>, c: nat, n: nat, table: Table) {
    && c < n <= |acts| && acts[c].Claim? && Committed(acts, c, table)
    && forall m | c < m < n ::
         && !acts[m].Claim? && acts[m] != Release(TokenOf(acts, c))
         && (acts[m].Commit? ==> acts[m].token != TokenOf(acts, c))
  }

  lemma TakerFinds(acts: seq<Act>, c: nat, n: nat, table: Table)
    requires Takes(acts, c, n, table)
    ensures After(acts, n).content == Present(table)
  {
    ContentIsLastCommitted(acts, c, table);
    ClaimedContentStands(acts, c, n);
  }

  /** From the file's history on: in what the claimant loads, the marker of a job is withdrawn exactly
      when the old dispatcher never attempted it, whatever superseded writers do in between. */
  lemma MarkerAfterClaim(acts: seq<Act>, c: nat, n: nat, states: seq<D.System>, k: nat, errands: map<Job, Errand>,
                         calls: seq<HookCall>, earlier: set<Entry>, saved: set<Entry>, t: Table, key: string, j: Job)
    requires Takes(acts, c, n, Swept(t, saved))
    requires D.Run(states) && k < |states| && T.StopReturned(states[k])
    requires Registered(earlier) && saved <= RegisterAll(earlier, errands, calls)
    requires Situation(states[k].sh, errands, calls, earlier, t, key, j)
    ensures var loaded := Loaded(After(acts, n).content, RegisterAll(earlier, errands, calls));
      var kind := EntryFor(errands[j]).kind;
      && key in loaded && SameIncident(loaded[key].incident, t[key].incident)
      && Marker(loaded[key].incident, kind)
         == if j in states[k].sh.attempted then Marker(t[key].incident, kind) else (0, 0)
  {
    hide D.Run, Swept, Young, RegisterAll, Loaded, T.StopReturned, After, Takes;
    TakerFinds(acts, c, n, Swept(t, saved));
    MarkerAfterHandOff(states, k, errands, calls, earlier, saved, t, key, j);
    SweepKeys(t, saved, key);
    SweepIsExact(t, saved, key);
    RestartKeepsIncident(Swept(t, saved), RegisterAll(earlier, errands, calls), key);
  }

  /** The incident goes on: only its markers, its reason text and its suspicion may differ. */
  predicate SameIncident(i: Incident, k: Incident) {
    && i.health == k.health && i.generation == k.generation && i.alertSent == k.alertSent && i.lastAlert == k.lastAlert
    && i.recoveryFrom == k.recoveryFrom && i.firstDetected == k.firstDetected && i.previous == k.previous
  }

  /** The account is failing and its alarm is wanted: not announced yet, or announced and due for a reminder. */
  predicate AlarmWanted(i: Incident, cfg: Config, now: Time) {
    IsFailure(i.health) && (!i.alertSent || (cfg.reminderInterval > 0 && Due(i.lastAlert, cfg.reminderInterval, now)))
  }

  /** For alarms, failures and reminders alike: while the account goes on failing, the replacement queues
      the alarm again within the retry interval exactly when the old dispatcher never attempted it. */
  lemma AlarmRetriedIffUnattempted(acts: seq<Act>, c: nat, n: nat, states: seq<D.System>, k: nat,
                                   errands: map<Job, Errand>, calls: seq<HookCall>, earlier: set<Entry>,
                                   saved: set<Entry>, t: Table, key: string, j: Job, obs: Observation, now: Time,
                                   cfg: Config)
    requires Takes(acts, c, n, Swept(t, saved))
    requires D.Run(states) && k < |states| && T.StopReturned(states[k])
    requires Registered(earlier) && saved <= RegisterAll(earlier, errands, calls)
    requires Situation(states[k].sh, errands, calls, earlier, t, key, j) && Alarms(errands[j].ticket.kind)
    requires AlarmWanted(t[key].incident, cfg, now) && obs.state == t[key].incident.health
    requires now < errands[j].ticket.attemptAt + RETRY_AFTER
    ensures var loaded := Loaded(After(acts, n).content, RegisterAll(earlier, errands, calls));
      var kind := if t[key].incident.alertSent then ReminderKind else FailureKind;
      && key in loaded
      && Observe(loaded[key].incident, obs, now, cfg, true).issued
         == if j in states[k].sh.attempted then {} else {Ticket(kind, errands[j].ticket.generation, now)}
  {
    MarkerAfterClaim(acts, c, n, states, k, errands, calls, earlier, saved, t, key, j);
    assert Matches(t[key], EntryFor(errands[j]));
    hide D.Run, Swept, Young, RegisterAll, Loaded, T.StopReturned, After, Takes, Observe;
    FailingAgain(Loaded(After(acts, n).content, RegisterAll(earlier, errands, calls))[key].incident, obs, now, cfg);
  }

  lemma FailingAgain(i: Incident, obs: Observation, now: Time, cfg: Config)
    requires AlarmWanted(i, cfg, now) && obs.state == i.health
    ensures Observe(i, obs, now, cfg, true).issued
         == if !Due(i.alertAttempt, RETRY_AFTER, now) then {}
            else {Ticket(if i.alertSent then ReminderKind else FailureKind, i.generation, now)}
  {
  }

  /** The same for recoveries, while the account stays healthy with its recovery pending. */
  lemma RecoveryRetriedIffUnattempted(acts: seq<Act>, c: nat, n: nat, states: seq<D.System>, k: nat,
                                      errands: map<Job, Errand>, calls: seq<HookCall>, earlier: set<Entry>,
                                      saved: set<Entry>, t: Table, key: string, j: Job, obs: Observation, now: Time,
                                      cfg: Config)
    requires Takes(acts, c, n, Swept(t, saved))
    requires D.Run(states) && k < |states| && T.StopReturned(states[k])
    requires Registered(earlier) && saved <= RegisterAll(earlier, errands, calls)
    requires Situation(states[k].sh, errands, calls, earlier, t, key, j) && errands[j].ticket.kind.RecoveryKind?
    requires IsCredentialHealthy(t[key].incident.health) && t[key].incident.recoveryFrom != NoState
    requires obs.state == t[key].incident.health && now < errands[j].ticket.attemptAt + RETRY_AFTER
    ensures var loaded := Loaded(After(acts, n).content, RegisterAll(earlier, errands, calls));
      && key in loaded
      && Observe(loaded[key].incident, obs, now, cfg, true).issued
         == if j in states[k].sh.attempted then {} else {Ticket(RecoveryKind, errands[j].ticket.generation, now)}
  {
    MarkerAfterClaim(acts, c, n, states, k, errands, calls, earlier, saved, t, key, j);
    assert Matches(t[key], EntryFor(errands[j]));
    hide D.Run, Swept, Young, RegisterAll, Loaded, T.StopReturned, After, Takes, Observe;
    PendingAgain(Loaded(After(acts, n).content, RegisterAll(earlier, errands, calls))[key].incident, obs, now, cfg);
  }

  lemma PendingAgain(i: Incident, obs: Observation, now: Time, cfg: Config)
    requires IsCredentialHealthy(i.health) && i.recoveryFrom != NoState && obs.state == i.health
    ensures Observe(i, obs, now, cfg, true).issued
         == if Due(i.recoveryAttempt, RETRY_AFTER, now) then {Ticket(RecoveryKind, i.generation, now)} else {}
  {
  }
}
