/** The course of an account's incidents over a whole history: how long one lasts, when the user counts as
    told, and what that means for a message still to be sent. */
module IncidentCourse {
  import opened Health
  import opened Incident
  import opened IncidentRuns
  import opened IncidentEffects

  // ---------- how long an incident lasts ----------

  /** What ends an incident: the account leaves, or is seen healthy, limited by its quota, or disabled. */
  predicate Ends(e: Event) {
    e.Left? || (e.Observed? && e.obs.state !in {Suspect, CredentialDown, ReauthRequired})
  }

  lemma SuspicionKeepsIncident(i: Incident, obs: Observation, now: Time, cfg: Config, admit: bool)
    requires IsFailure(i.health) && obs.state == Suspect
    ensures var k := Observe(i, obs, now, cfg, admit).incident;
      && IsFailure(k.health) && k.generation == i.generation && k.firstDetected == i.firstDetected
      && (k.health == i.health || (obs.confirmation != Unconfirmable && k.health == obs.confirmAs))
  {
    hide Observe;
    ObservedHealth(i, obs, now, cfg, admit);
    ObserveGeneration(i, obs, now, cfg, admit);
    ObserveSameIncident(i, obs, now, cfg, admit);
  }

  lemma FailsUnlessEnded(w: World, e: Event, cfg: Config)
    requires IsFailure(w.incident.health)
    ensures var i, k := w.incident, Next(w, e, cfg).incident;
      if Ends(e) then !IsFailure(k.health)
      else IsFailure(k.health) && k.generation == i.generation && k.firstDetected == i.firstDetected
  {
    if e.Observed? {
      ObservedHealth(w.incident, e.obs, e.now, cfg, e.admit);
    }
    if e.Settled? {
      OnlyObservationsTouchSuspicion(w, e, cfg);
    }
    if IsFailure(Next(w, e, cfg).incident.health) {
      IncidentStep(w, e, cfg);
    }
    hide Observe, Settle;
  }

  /** From a failing state on, an account goes on failing exactly until one of those events; all the while
      it is one incident, with one number and one date, whatever is suspected or delivered. */
  lemma {:induction false} IncidentLasts(w: World, events: seq<Event>, cfg: Config, i: nat, k: nat)
    requires i <= k <= |events| && IsFailure(Before(w, events, i, cfg).incident.health)
    ensures (forall m | i <= m < k :: !Ends(events[m])) <==>
      (forall m | i <= m <= k :: IsFailure(Before(w, events, m, cfg).incident.health))
    ensures (forall m | i <= m < k :: !Ends(events[m])) ==>
      && Before(w, events, k, cfg).incident.generation == Before(w, events, i, cfg).incident.generation
      && Before(w, events, k, cfg).incident.firstDetected == Before(w, events, i, cfg).incident.firstDetected
    decreases k
  {
    hide Next, Ends;
    if i < k {
      IncidentLasts(w, events, cfg, i, k - 1);
      BeforeStep(w, events, k, cfg);
      if forall m | i <= m < k - 1 :: !Ends(events[m]) {
        FailsUnlessEnded(Before(w, events, k - 1, cfg), events[k - 1], cfg);
      }
    }
  }

  // ---------- when the user counts as told ----------

  /** An alarm that sets the latch. */
  predicate Latches(w: World, e: Event, cfg: Config) {
    Told(w, e) && (IsFailure(w.incident.health) || cfg.notifyRecovery)
  }

  /** What releases the latch: the account leaves, is seen disabled, or turns sound where recoveries are not
      announced; its recovery is applied; or a recovery of an older incident arrives before the new one
      has been announced. */
  predicate Releases(w: World, e: Event, cfg: Config) {
    match e
    case Left(_, _) => true
    case Observed(obs, _, _) =>
      || obs.state == Disabled
      || (IsCredentialHealthy(obs.state) && obs.state != w.incident.health && !cfg.notifyRecovery)
    case Settled(t, delivery, _) =>
      || Recovered(w, e)
      || (Told(w, e) && IsCredentialHealthy(w.incident.health) && !cfg.notifyRecovery)
      || (delivery.Accepted? && t.kind.RecoveryKind? && t.generation != w.incident.generation
          && IsFailure(w.incident.health) && w.incident.alertAttemptGeneration != w.incident.generation)
  }

  lemma LatchStep(w: World, e: Event, cfg: Config)
    requires LedgerInv(w) && Possible(w, e)
    ensures Next(w, e, cfg).incident.alertSent <==>
      Latches(w, e, cfg) || (w.incident.alertSent && !Releases(w, e, cfg))
  {
    if e.Observed? {
      ObservedHealth(w.incident, e.obs, e.now, cfg, e.admit);
      ObservedLedger(w.incident, e.obs, e.now, cfg, e.admit);
    }
    hide Observe;
  }

  /** The user was told at `m`, and nothing has released the latch from then to `k`. */
  ghost predicate ToldSince(w: World, events: seq<Event>, cfg: Config, m: nat, k: nat)
    requires m < k <= |events|
  {
    && Latches(Before(w, events, m, cfg), events[m], cfg)
    && forall j | m < j < k :: !Releases(Before(w, events, j, cfg), events[j], cfg)
  }

  ghost predicate IsTold(w: World, events: seq<Event>, cfg: Config, k: nat)
    requires k <= |events|
  {
    exists m :: 0 <= m < k && ToldSince(w, events, cfg, m, k)
  }

  /** The latch is exact: it is set if and only if an alarm set it and nothing has released it since. */
  lemma {:induction false} LatchIsExact(w: World, events: seq<Event>, cfg: Config, k: nat)
    requires LedgerInv(w) && !w.incident.alertSent && History(w, events, cfg) && k <= |events|
    ensures Before(w, events, k, cfg).incident.alertSent <==> IsTold(w, events, cfg, k)
  {
    hide Next, Possible, LedgerInv, History, Latches, Releases, ToldSince;
    if k > 0 {
      LatchIsExact(w, events, cfg, k - 1);
      LedgerHolds(w, events, cfg, k - 1);
      PossibleAt(w, events, k - 1, cfg);
      LatchStep(Before(w, events, k - 1, cfg), events[k - 1], cfg);
      BeforeStep(w, events, k, cfg);
      ToldSinceStep(w, events, cfg, k - 1);
    }
  }

  lemma ToldSinceStep(w: World, events: seq<Event>, cfg: Config, n: nat)
    requires n < |events|
    ensures IsTold(w, events, cfg, n + 1) <==>
      || Latches(Before(w, events, n, cfg), events[n], cfg)
      || (IsTold(w, events, cfg, n) && !Releases(Before(w, events, n, cfg), events[n], cfg))
  {
    hide Before, Latches, Releases;
    var k := n + 1;
    if m :| 0 <= m < k && ToldSince(w, events, cfg, m, k) {
      if m < n {
        assert ToldSince(w, events, cfg, m, n);
        assert !Releases(Before(w, events, n, cfg), events[n], cfg);
      }
    }
    if Latches(Before(w, events, n, cfg), events[n], cfg) {
      assert ToldSince(w, events, cfg, n, k);
    }
    if m :| 0 <= m < n && ToldSince(w, events, cfg, m, n) {
      if !Releases(Before(w, events, n, cfg), events[n], cfg) {
        assert ToldSince(w, events, cfg, m, k);
      }
    }
  }

  // ---------- an account that is sound again is told of ----------

  predicate Answered(i: Incident) {
    i.alertSent && IsCredentialHealthy(i.health) ==> i.recoveryFrom != NoState
  }

  lemma AnsweredStep(w: World, e: Event, cfg: Config)
    requires LedgerInv(w) && Possible(w, e) && Answered(w.incident)
    ensures Answered(Next(w, e, cfg).incident)
  {
    if e.Observed? {
      ObservedLedger(w.incident, e.obs, e.now, cfg, e.admit);
    }
    hide Observe;
  }

  /** In every history, an account that is sound while the user has been told of its incident has a
      recovery pending. */
  lemma {:induction false} SoundIsAnswered(w: World, events: seq<Event>, cfg: Config, n: nat)
    requires LedgerInv(w) && Answered(w.incident) && History(w, events, cfg) && n <= |events|
    ensures Answered(Before(w, events, n, cfg).incident)
  {
    hide Next, Possible, LedgerInv, History, Answered;
    if n > 0 {
      SoundIsAnswered(w, events, cfg, n - 1);
      LedgerHolds(w, events, cfg, n - 1);
      PossibleAt(w, events, n - 1, cfg);
      AnsweredStep(Before(w, events, n - 1, cfg), events[n - 1], cfg);
      BeforeStep(w, events, n, cfg);
    }
  }

  /** So the user who was told is told of the recovery: each observation that finds the account still sound
      once the retry interval is over queues it, until one is applied. */
  lemma RecoveryIsRetried(w: World, events: seq<Event>, cfg: Config, n: nat)
    requires LedgerInv(w) && Answered(w.incident) && History(w, events, cfg) && n < |events|
    requires var i, e := Before(w, events, n, cfg).incident, events[n];
      && i.alertSent && IsCredentialHealthy(i.health) && e.Observed? && e.obs.state == i.health && e.admit
      && (i.recoveryAttempt == 0 || i.recoveryAttempt + 300 <= e.now)
    ensures var i, e := Before(w, events, n, cfg).incident, events[n];
      React(Before(w, events, n, cfg), e, cfg).issued == {Ticket(RecoveryKind, i.generation, e.now)}
  {
    hide Before, LedgerInv, History;
    SoundIsAnswered(w, events, cfg, n);
  }

  // ---------- what a message must still find when it is about to be sent ----------

  lemma {:induction false} EntriesGrow(w: World, events: seq<Event>, cfg: Config, i: nat, k: nat)
    requires i <= k <= |events|
    ensures Entries(w, events, i, cfg) <= Entries(w, events, k, cfg)
    ensures !IsFailure(Before(w, events, i, cfg).incident.health)
              && IsFailure(Before(w, events, k, cfg).incident.health) ==>
      Entries(w, events, i, cfg) < Entries(w, events, k, cfg)
    decreases k
  {
    hide Next;
    if i < k {
      EntriesGrow(w, events, cfg, i, k - 1);
      BeforeStep(w, events, k, cfg);
    }
  }

  lemma AlarmIsOfIncident(w: World, e: Event, cfg: Config, t: Ticket)
    requires t in React(w, e, cfg).issued && Alarms(t.kind)
    ensures var i := Next(w, e, cfg).incident; IsFailure(i.health) && t.generation == i.generation
  {
    if e.Observed? {
      ObservedMessages(w.incident, e.obs, e.now, cfg, e.admit, t);
    }
    hide Observe;
  }

  /** An alarm is still valid when it is about to be sent if and only if the incident it was raised for has
      gone on without a break. */
  lemma AlarmValidIffUnbroken(w: World, events: seq<Event>, cfg: Config, i: nat, k: nat, t: Ticket)
    requires i < k <= |events| && Alarms(t.kind) && t in React(Before(w, events, i, cfg), events[i], cfg).issued
    ensures StillValid(Before(w, events, k, cfg).incident, t) <==> forall m | i < m < k :: !Ends(events[m])
  {
    hide Before, Next, Entries, React, Ends;
    AlarmIsOfIncident(Before(w, events, i, cfg), events[i], cfg, t);
    BeforeStep(w, events, i + 1, cfg);
    IncidentLasts(w, events, cfg, i + 1, k);
    GenerationCountsIncidents(w, events, cfg, i + 1);
    GenerationCountsIncidents(w, events, cfg, k);
    if StillValid(Before(w, events, k, cfg).incident, t) {
      forall m | i < m <= k ensures IsFailure(Before(w, events, m, cfg).incident.health) {
        EntriesGrow(w, events, cfg, i + 1, m);
        EntriesGrow(w, events, cfg, m, k);
      }
    }
  }

  lemma RecoveryIsOfIncident(w: World, e: Event, cfg: Config, t: Ticket)
    requires t in React(w, e, cfg).issued && t.kind.RecoveryKind?
    ensures t.generation == Next(w, e, cfg).incident.generation
  {
    if e.Observed? {
      ObservedMessages(w.incident, e.obs, e.now, cfg, e.admit, t);
    }
    hide Observe;
  }

  /** A recovery is still valid if and only if the account is sound, no further incident has begun, and the
      user who was told has not been told of the recovery yet. */
  lemma RecoveryValidIffOwed(w: World, events: seq<Event>, cfg: Config, i: nat, k: nat, t: Ticket)
    requires LedgerInv(w) && Answered(w.incident) && History(w, events, cfg)
    requires i < k <= |events| && t.kind.RecoveryKind? && t in React(Before(w, events, i, cfg), events[i], cfg).issued
    ensures var now := Before(w, events, k, cfg).incident;
      StillValid(now, t) <==>
        && IsCredentialHealthy(now.health) && now.alertSent
        && Entries(w, events, k, cfg) == Entries(w, events, i + 1, cfg)
  {
    hide Before, Next, Entries, React, LedgerInv, History;
    RecoveryIsOfIncident(Before(w, events, i, cfg), events[i], cfg, t);
    BeforeStep(w, events, i + 1, cfg);
    GenerationCountsIncidents(w, events, cfg, i + 1);
    GenerationCountsIncidents(w, events, cfg, k);
    SoundIsAnswered(w, events, cfg, k);
    LedgerHolds(w, events, cfg, k);
    PendingIsTold(Before(w, events, k, cfg));
  }

  lemma PendingIsTold(w: World)
    requires LedgerInv(w)
    ensures w.incident.recoveryFrom != NoState ==> w.incident.alertSent
  {
  }
}
