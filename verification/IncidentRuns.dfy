/** What an account's history of observations, removals and late deliveries can and cannot produce. */
module IncidentRuns {
  import opened Health
  import opened Incident

  /** One logical account and every notification ever queued for it. */
  datatype World = World(incident: Incident, tickets: set<Ticket>)

  datatype Event =
    | Observed(obs: Observation, now: Time, admit: bool)
    | Settled(ticket: Ticket, delivery: Delivery, admit: bool)
    | Left(now: Time, admit: bool)

  function React(w: World, e: Event, cfg: Config): Step {
    match e
    case Observed(obs, now, admit) => Observe(w.incident, obs, now, cfg, admit)
    case Settled(ticket, delivery, admit) => Settle(w.incident, ticket, delivery, cfg, admit)
    case Left(now, admit) => MarkRemoved(w.incident, now, cfg, admit)
  }

  function Next(w: World, e: Event, cfg: Config): World {
    var step := React(w, e, cfg);
    World(step.incident, w.tickets + step.issued)
  }

  /** Deliveries settle tickets that were issued, in any order and however late; observed states are
      those a classifier produces. */
  predicate Possible(w: World, e: Event) {
    match e
    case Observed(obs, now, _) =>
      obs.state in {Healthy, QuotaLimited, Suspect, CredentialDown, ReauthRequired, Disabled} && now > 0
    case Settled(ticket, delivery, _) => ticket in w.tickets && (delivery.Accepted? ==> delivery.at > 0)
    case Left(now, _) => now > 0
  }

  /** The world before event `n`. */
  function Before(w: World, events: seq<Event>, n: nat, cfg: Config): World
    requires n <= |events|
  {
    if n == 0 then w else Next(Before(w, events, n - 1, cfg), events[n - 1], cfg)
  }

  ghost predicate History(w: World, events: seq<Event>, cfg: Config) {
    forall n | 0 <= n < |events| :: Possible(Before(w, events, n, cfg), events[n])
  }

  // ---------- the alert ledger ----------

  /** A pending recovery means the user was told; the user is told only of incidents of enabled, present accounts. */
  predicate IncidentInv(i: Incident) {
    && i.health != NoState
    && (i.recoveryFrom != NoState ==> i.alertSent && i.health in {Healthy, QuotaLimited, Suspect})
    && (i.alertSent ==> i.generation >= 1 && i.health != Disabled && i.health != Removed)
    && (IsFailure(i.health) ==> i.generation >= 1)
    && (i.generation >= 1 ==> i.previous != NoState)
  }

  /** What a ticket may say when the account has seen `generation` incidents. */
  predicate TicketInv(generation: nat, t: Ticket) {
    t.generation <= generation && (Alarms(t.kind) || t.kind.RecoveryKind? ==> t.generation >= 1 && t.attemptAt > 0)
  }

  ghost predicate LedgerInv(w: World) {
    IncidentInv(w.incident) && forall t | t in w.tickets :: TicketInv(w.incident.generation, t)
  }

  /** What every reaction of the machine respects; a recovery is queued only while the alert is latched. */
  ghost predicate StepInv(i: Incident, step: Step) {
    && IncidentInv(step.incident) && i.generation <= step.incident.generation
    && forall t | t in step.issued ::
         TicketInv(step.incident.generation, t) && (t.kind.RecoveryKind? ==> step.incident.alertSent)
  }

  /** A notification that tells the user of the incident has been accepted and is latched. */
  predicate Told(w: World, e: Event) {
    && e.Settled? && e.delivery.Accepted? && Alarms(e.ticket.kind) && e.ticket.generation == w.incident.generation
    && (IsFailure(w.incident.health) || IsCredentialHealthy(w.incident.health))
  }

  /** An accepted recovery is applied: it closes the ledger. */
  predicate Recovered(w: World, e: Event) {
    && e.Settled? && e.delivery.Accepted? && e.ticket.kind.RecoveryKind? && e.ticket.generation == w.incident.generation
    && IsCredentialHealthy(w.incident.health) && w.incident.recoveryFrom != NoState
  }

  lemma WeighKeeps(i: Incident, obs: Observation, now: Time, cfg: Config)
    ensures var w := Weigh(i, obs, now, cfg);
      && w.incident == i.(suspectSince := w.incident.suspectSince, suspectClass := w.incident.suspectClass,
                          suspectTarget := w.incident.suspectTarget, suspectReason := w.incident.suspectReason)
      && (w.state == obs.state || IsFailure(w.state))
  {
  }

  lemma TransitionKeeps(w: Weighed, now: Time, cfg: Config, admit: bool)
    requires IncidentInv(w.incident) && w.incident.health != w.state && now > 0
    requires w.state in {Healthy, QuotaLimited, Suspect, CredentialDown, ReauthRequired, Disabled}
    ensures StepInv(w.incident, Transition(w, now, cfg, admit))
  {
  }

  lemma RemainKeeps(w: Weighed, now: Time, cfg: Config, admit: bool)
    requires IncidentInv(w.incident) && w.incident.health == w.state && now > 0
    ensures StepInv(w.incident, Remain(w, now, cfg, admit))
  {
  }

  lemma SettleKeeps(i: Incident, t: Ticket, delivery: Delivery, cfg: Config, admit: bool)
    requires IncidentInv(i) && TicketInv(i.generation, t) && (delivery.Accepted? ==> delivery.at > 0)
    ensures StepInv(i, Settle(i, t, delivery, cfg, admit))
  {
  }

  lemma LeaveKeeps(i: Incident, now: Time, cfg: Config, admit: bool)
    requires IncidentInv(i)
    ensures StepInv(i, MarkRemoved(i, now, cfg, admit))
  {
  }

  lemma ReactKeeps(w: World, e: Event, cfg: Config)
    requires LedgerInv(w) && Possible(w, e)
    ensures StepInv(w.incident, React(w, e, cfg)) && LedgerInv(Next(w, e, cfg))
  {
    hide IncidentInv, TicketInv, Transition, Remain, Settle, MarkRemoved, Weigh;
    match e
    case Observed(obs, now, admit) =>
      var v := Weigh(w.incident, obs, now, cfg);
      WeighKeeps(w.incident, obs, now, cfg);
      SuspicionIsAside(w.incident, v.incident);
      if v.incident.health != v.state { TransitionKeeps(v, now, cfg, admit); } else { RemainKeeps(v, now, cfg, admit); }
      OlderTickets(w, Next(w, e, cfg), React(w, e, cfg).issued);
    case Settled(ticket, delivery, admit) =>
      SettleKeeps(w.incident, ticket, delivery, cfg, admit);
      OlderTickets(w, Next(w, e, cfg), React(w, e, cfg).issued);
    case Left(now, admit) =>
      LeaveKeeps(w.incident, now, cfg, admit);
      OlderTickets(w, Next(w, e, cfg), React(w, e, cfg).issued);
  }

  lemma SuspicionIsAside(i: Incident, k: Incident)
    requires k == i.(suspectSince := k.suspectSince, suspectClass := k.suspectClass, suspectTarget := k.suspectTarget,
      suspectReason := k.suspectReason)
    ensures IncidentInv(i) <==> IncidentInv(k)
  {
  }

  lemma OlderTickets(w: World, w': World, issued: set<Ticket>)
    requires forall t | t in w.tickets :: TicketInv(w.incident.generation, t)
    requires w.incident.generation <= w'.incident.generation && w'.tickets == w.tickets + issued
    requires forall t | t in issued :: TicketInv(w'.incident.generation, t)
    ensures forall t | t in w'.tickets :: TicketInv(w'.incident.generation, t)
  {
  }

  lemma BeforeStep(w: World, events: seq<Event>, n: nat, cfg: Config)
    requires 0 < n <= |events|
    ensures Before(w, events, n, cfg) == Next(Before(w, events, n - 1, cfg), events[n - 1], cfg)
  {
    hide Next;
  }

  lemma PossibleAt(w: World, events: seq<Event>, n: nat, cfg: Config)
    requires History(w, events, cfg) && n < |events|
    ensures Possible(Before(w, events, n, cfg), events[n])
  {
    hide Next, Possible;
  }

  /** The ledger is sound in every history. */
  lemma {:induction false} LedgerHolds(w: World, events: seq<Event>, cfg: Config, n: nat)
    requires LedgerInv(w) && History(w, events, cfg) && n <= |events|
    ensures LedgerInv(Before(w, events, n, cfg))
  {
    hide Next, Possible, LedgerInv, History;
    if n > 0 {
      LedgerHolds(w, events, cfg, n - 1);
      PossibleAt(w, events, n - 1, cfg);
      ReactKeeps(Before(w, events, n - 1, cfg), events[n - 1], cfg);
      BeforeStep(w, events, n, cfg);
    }
  }

  lemma FreshLedger()
    ensures LedgerInv(World(FRESH, {}))
  {
  }

  /** In particular from a fresh account on. */
  lemma LedgerFromFresh(events: seq<Event>, cfg: Config, n: nat)
    requires History(World(FRESH, {}), events, cfg) && n <= |events|
    ensures LedgerInv(Before(World(FRESH, {}), events, n, cfg))
  {
    hide LedgerInv, History, Before;
    FreshLedger();
    LedgerHolds(World(FRESH, {}), events, cfg, n);
  }

  /** A recovery is queued only while the user has been told of the incident. */
  lemma RecoveryNeedsAlert(w: World, events: seq<Event>, cfg: Config, n: nat, t: Ticket)
    requires LedgerInv(w) && History(w, events, cfg) && n < |events|
    requires t in React(Before(w, events, n, cfg), events[n], cfg).issued && t.kind.RecoveryKind?
    ensures Before(w, events, n + 1, cfg).incident.alertSent
  {
    hide LedgerInv, React, Possible, History, Before;
    LedgerHolds(w, events, cfg, n);
    PossibleAt(w, events, n, cfg);
    BeforeStep(w, events, n + 1, cfg);
    ReactKeeps(Before(w, events, n, cfg), events[n], cfg);
  }

  // -- the latch only moves with accepted deliveries --

  lemma LatchRises(w: World, e: Event, cfg: Config)
    requires !w.incident.alertSent && Next(w, e, cfg).incident.alertSent
    ensures Told(w, e)
  {
  }

  /** An accepted alarm counts as told exactly when the account is failing or healthy when it arrives;
      one that arrives while the account is merely suspect leaves no trace. */
  lemma AcceptedAlarmIsTold(i: Incident, t: Ticket, at: Time, cfg: Config, admit: bool)
    requires Alarms(t.kind) && t.generation == i.generation && !i.alertSent && at != i.lastAlert
    ensures var after := Settle(i, t, Accepted(at), cfg, admit).incident;
      && (after.lastAlert == at <==> IsFailure(i.health) || IsCredentialHealthy(i.health))
      && (after.alertSent <==> IsFailure(i.health) || (IsCredentialHealthy(i.health) && cfg.notifyRecovery))
      && (i.health == Suspect ==> after == i)
  {
  }

  lemma RecoveryClosesLatch(w: World, e: Event, cfg: Config)
    requires LedgerInv(w) && Recovered(w, e)
    ensures w.incident.alertSent && !Next(w, e, cfg).incident.alertSent
  {
  }

  /** A recovery the user receives is applied exactly when the account is still healthy with a recovery
      pending; otherwise it leaves no trace. */
  lemma AcceptedRecoveryIsApplied(i: Incident, t: Ticket, at: Time, cfg: Config, admit: bool)
    requires t.kind.RecoveryKind? && t.generation == i.generation && at != i.lastRecovery
    ensures var after := Settle(i, t, Accepted(at), cfg, admit).incident;
      && (after.lastRecovery == at <==> IsCredentialHealthy(i.health) && i.recoveryFrom != NoState)
      && (after != i <==> IsCredentialHealthy(i.health) && i.recoveryFrom != NoState)
  {
  }

  /** Between two recoveries that are applied, the user was told of an incident. */
  lemma AlertBetweenRecoveries(w: World, events: seq<Event>, cfg: Config, i: nat, k: nat)
    requires LedgerInv(w) && History(w, events, cfg) && i < k < |events|
    requires Recovered(Before(w, events, i, cfg), events[i]) && Recovered(Before(w, events, k, cfg), events[k])
    ensures exists m :: i < m < k && Told(Before(w, events, m, cfg), events[m])
  {
    hide LedgerInv, History, Recovered, Told, Next, Before;
    LedgerHolds(w, events, cfg, i);
    LedgerHolds(w, events, cfg, k);
    BeforeStep(w, events, i + 1, cfg);
    RecoveryClosesLatch(Before(w, events, i, cfg), events[i], cfg);
    RecoveryClosesLatch(Before(w, events, k, cfg), events[k], cfg);
    LatchRiseBetween(w, events, cfg, i + 1, k);
  }

  /** A failure is announced, the account heals, turns suspect while its recovery is on the way, and heals again. */
  function Relapse(): seq<Event> {
    [Observed(Plain(ReauthRequired, InvalidGrant), 1, true),
     Settled(Ticket(FailureKind, 1, 1), Accepted(2), true),
     Observed(Plain(Healthy, NoReason), 3, true),
     Observed(Plain(Suspect, CooldownActive), 4, true),
     Settled(Ticket(RecoveryKind, 1, 3), Accepted(5), true),
     Observed(Plain(Healthy, NoReason), 6, true),
     Settled(Ticket(RecoveryKind, 1, 6), Accepted(7), true)]
  }

  function Announcing(): Config {
    Config(60, 60, 0, true, false, false)
  }

  lemma RelapseFails()
    ensures var w := Next(World(FRESH, {}), Relapse()[0], Announcing());
      && w.incident.health == ReauthRequired && w.incident.generation == 1 && !w.incident.alertSent
      && w.incident.suspectSince == 0 && w.tickets == {Ticket(FailureKind, 1, 1)}
  {
  }

  lemma RelapseBegins()
    ensures var w := Before(World(FRESH, {}), Relapse(), 3, Announcing());
      && w.incident.health == Healthy && w.incident.generation == 1 && w.incident.alertSent
      && w.incident.recoveryFrom == ReauthRequired && w.incident.recoveryAttempt == 3
      && w.incident.previous == ReauthRequired && w.incident.suspectSince == 0
      && w.tickets == {Ticket(FailureKind, 1, 1), Ticket(RecoveryKind, 1, 3)}
    ensures forall m | 0 <= m < 3 :: Possible(Before(World(FRESH, {}), Relapse(), m, Announcing()), Relapse()[m])
  {
    var w0, events, cfg := World(FRESH, {}), Relapse(), Announcing();
    var w1 := Next(w0, events[0], cfg);
    RelapseFails();
    var w2 := Next(w1, events[1], cfg);
    assert w2.incident == w1.incident.(alertSent := true, lastAlert := 2) && w2.tickets == w1.tickets;
    assert Before(w0, events, 0, cfg) == w0;
    BeforeStep(w0, events, 1, cfg);
    BeforeStep(w0, events, 2, cfg);
    BeforeStep(w0, events, 3, cfg);
  }

  lemma RelapseGoesOn(w3: World)
    requires w3.incident.health == Healthy && w3.incident.generation == 1 && w3.incident.alertSent
    requires w3.incident.recoveryFrom == ReauthRequired && w3.incident.suspectSince == 0
    requires Ticket(RecoveryKind, 1, 3) in w3.tickets
    ensures var w4 := Next(w3, Relapse()[3], Announcing());
      var w5 := Next(w4, Relapse()[4], Announcing());
      var w6 := Next(w5, Relapse()[5], Announcing());
      && Received(w4, Relapse()[4]) && !Recovered(w4, Relapse()[4]) && Ticket(RecoveryKind, 1, 3) in w4.tickets
      && !Told(w5, Relapse()[5])
      && Received(w6, Relapse()[6]) && Recovered(w6, Relapse()[6]) && Ticket(RecoveryKind, 1, 6) in w6.tickets
      && StillValid(w6.incident, Ticket(RecoveryKind, 1, 6))
  {
  }

  /** The user gets a recovery message of the current incident. */
  predicate Received(w: World, e: Event) {
    e.Settled? && e.delivery.Accepted? && e.ticket.kind.RecoveryKind? && e.ticket.generation == w.incident.generation
  }

  function RelapseAt(n: nat): World
    requires n <= 7
  {
    Before(World(FRESH, {}), Relapse(), n, Announcing())
  }

  lemma RelapseSteps()
    ensures RelapseAt(4) == Next(RelapseAt(3), Relapse()[3], Announcing())
    ensures RelapseAt(5) == Next(RelapseAt(4), Relapse()[4], Announcing())
    ensures RelapseAt(6) == Next(RelapseAt(5), Relapse()[5], Announcing())
  {
    hide Next;
  }

  /** The user may receive two recoveries with no alarm between them: the first, valid when it was sent,
      arrives while the account is suspect and is not applied. */
  lemma TwoRecoveriesOneAlarm()
    ensures History(World(FRESH, {}), Relapse(), Announcing())
    ensures StillValid(RelapseAt(3).incident, Relapse()[4].ticket)
      && StillValid(RelapseAt(6).incident, Relapse()[6].ticket)
    ensures Received(RelapseAt(4), Relapse()[4]) && Received(RelapseAt(6), Relapse()[6])
      && !Told(RelapseAt(5), Relapse()[5])
    ensures !Recovered(RelapseAt(4), Relapse()[4]) && Recovered(RelapseAt(6), Relapse()[6])
  {
    RelapseBegins();
    RelapseSteps();
    RelapseGoesOn(RelapseAt(3));
    RelapseShape();
    RelapseMiddle(RelapseAt(3).incident);
    hide *;
    RelapseIsPossible();
  }

  lemma RelapseShape()
    ensures |Relapse()| == 7
    ensures Relapse()[4] == Settled(Ticket(RecoveryKind, 1, 3), Accepted(5), true)
    ensures Relapse()[6] == Settled(Ticket(RecoveryKind, 1, 6), Accepted(7), true)
    ensures forall m | m == 3 || m == 5 ::
      Relapse()[m].Observed? && Relapse()[m].now > 0 && Relapse()[m].obs.state in {Healthy, Suspect}
  {
  }

  lemma RelapseMiddle(i: Incident)
    requires i.health == Healthy && i.generation == 1 && i.recoveryFrom == ReauthRequired
    ensures StillValid(i, Ticket(RecoveryKind, 1, 3))
  {
  }

  lemma RelapseIsPossible()
    ensures History(World(FRESH, {}), Relapse(), Announcing())
  {
    hide Next, Before, Relapse, Received, Recovered, Told, StillValid, Announcing;
    RelapseBegins();
    RelapseSteps();
    RelapseGoesOn(RelapseAt(3));
    RelapseShape();
    forall m | 0 <= m < 7 ensures Possible(Before(World(FRESH, {}), Relapse(), m, Announcing()), Relapse()[m]) {
      assert m < 3 || m == 3 || m == 4 || m == 5 || m == 6;
    }
  }

  lemma {:induction false} LatchRiseBetween(w: World, events: seq<Event>, cfg: Config, i: nat, k: nat)
    requires i <= k <= |events|
    requires !Before(w, events, i, cfg).incident.alertSent && Before(w, events, k, cfg).incident.alertSent
    ensures exists m :: i <= m < k && Told(Before(w, events, m, cfg), events[m])
    decreases k
  {
    hide Next, Told;
    if Before(w, events, k - 1, cfg).incident.alertSent {
      LatchRiseBetween(w, events, cfg, i, k - 1);
    } else {
      LatchRises(Before(w, events, k - 1, cfg), events[k - 1], cfg);
    }
  }

  // ---------- incidents ----------

  predicate Enters(w: World, e: Event, cfg: Config) {
    !IsFailure(w.incident.health) && IsFailure(Next(w, e, cfg).incident.health)
  }

  /** How many times the account went from not failing to failing. */
  function Entries(w: World, events: seq<Event>, n: nat, cfg: Config): nat
    requires n <= |events|
  {
    if n == 0 then 0
    else Entries(w, events, n - 1, cfg) + (if Enters(Before(w, events, n - 1, cfg), events[n - 1], cfg) then 1 else 0)
  }

  lemma ObserveGeneration(i: Incident, obs: Observation, now: Time, cfg: Config, admit: bool)
    ensures var k := Observe(i, obs, now, cfg, admit).incident;
      k.generation == i.generation + (if !IsFailure(i.health) && IsFailure(k.health) then 1 else 0)
  {
    hide Weigh;
    WeighKeeps(i, obs, now, cfg);
  }

  lemma GenerationStep(w: World, e: Event, cfg: Config)
    ensures Next(w, e, cfg).incident.generation == w.incident.generation + (if Enters(w, e, cfg) then 1 else 0)
  {
    if e.Observed? {
      ObserveGeneration(w.incident, e.obs, e.now, cfg, e.admit);
      hide Observe;
    }
  }

  /** The generation counts the incidents. */
  lemma {:induction false} GenerationCountsIncidents(w: World, events: seq<Event>, cfg: Config, n: nat)
    requires n <= |events|
    ensures Before(w, events, n, cfg).incident.generation == w.incident.generation + Entries(w, events, n, cfg)
  {
    hide Next, Enters;
    if n > 0 {
      GenerationCountsIncidents(w, events, cfg, n - 1);
      GenerationStep(Before(w, events, n - 1, cfg), events[n - 1], cfg);
    }
  }

  lemma ObserveSameIncident(i: Incident, obs: Observation, now: Time, cfg: Config, admit: bool)
    requires IsFailure(i.health) && IsFailure(Observe(i, obs, now, cfg, admit).incident.health)
    ensures Observe(i, obs, now, cfg, admit).incident.firstDetected == i.firstDetected
  {
    hide Weigh;
    WeighKeeps(i, obs, now, cfg);
  }

  lemma SettleSameIncident(i: Incident, t: Ticket, delivery: Delivery, cfg: Config, admit: bool)
    requires IsFailure(i.health)
    ensures Settle(i, t, delivery, cfg, admit).incident.firstDetected == i.firstDetected
  {
  }

  lemma IncidentStep(w: World, e: Event, cfg: Config)
    requires IsFailure(w.incident.health) && IsFailure(Next(w, e, cfg).incident.health)
    ensures Next(w, e, cfg).incident.generation == w.incident.generation
    ensures Next(w, e, cfg).incident.firstDetected == w.incident.firstDetected
  {
    hide Observe, Settle;
    GenerationStep(w, e, cfg);
    match e
    case Observed(obs, now, admit) => ObserveSameIncident(w.incident, obs, now, cfg, admit);
    case Settled(ticket, delivery, admit) => SettleSameIncident(w.incident, ticket, delivery, cfg, admit);
    case Left(now, admit) =>
  }

  /** Within one incident its number and its start stay put, whatever is observed or delivered. */
  lemma {:induction false} IncidentIsOne(w: World, events: seq<Event>, cfg: Config, i: nat, k: nat)
    requires i <= k <= |events|
    requires forall m | i <= m <= k :: IsFailure(Before(w, events, m, cfg).incident.health)
    ensures Before(w, events, k, cfg).incident.generation == Before(w, events, i, cfg).incident.generation
    ensures Before(w, events, k, cfg).incident.firstDetected == Before(w, events, i, cfg).incident.firstDetected
    decreases k - i
  {
    hide Next;
    if i < k {
      IncidentIsOne(w, events, cfg, i, k - 1);
      BeforeStep(w, events, k, cfg);
      assert IsFailure(Before(w, events, k - 1, cfg).incident.health);
      IncidentStep(Before(w, events, k - 1, cfg), events[k - 1], cfg);
    }
  }

  /** A delivery from an older incident changes nothing, except that a stale recovery re-alerts an
      incident that has not been announced yet. */
  lemma StaleDelivery(i: Incident, t: Ticket, delivery: Delivery, cfg: Config, admit: bool)
    requires t.generation != i.generation
    ensures var step := Settle(i, t, delivery, cfg, admit);
      if t.kind.RecoveryKind? && delivery.Accepted? && IsFailure(i.health)
        && i.alertAttemptGeneration != i.generation then
        && step.incident == i.(alertSent := false,
                               alertAttempt := if admit then delivery.at else i.alertAttempt,
                               alertAttemptGeneration := if admit then i.generation else i.alertAttemptGeneration)
        && step.issued == if admit then {Ticket(FailureKind, i.generation, delivery.at)} else {}
      else step == Step(i, {})
  {
  }

  // ---------- retries ----------

  /** The reaction queues a failure or a reminder. */
  ghost predicate RaisesAlarm(w: World, e: Event, cfg: Config) {
    exists t :: t in React(w, e, cfg).issued && Alarms(t.kind)
  }

  /** The event withdraws an alarm that was never attempted. */
  predicate WithdrawsAlarm(e: Event) {
    e.Settled? && e.delivery.Unattempted? && Alarms(e.ticket.kind)
  }

  /** Nothing in the event is dated before `since`. */
  predicate NotBefore(e: Event, since: Time) {
    match e
    case Observed(_, now, _) => now >= since
    case Settled(_, delivery, _) => delivery.Accepted? ==> delivery.at >= since
    case Left(now, _) => now >= since
  }

  lemma AlarmLeavesMarker(i: Incident, obs: Observation, now: Time, cfg: Config, admit: bool)
    requires exists t :: t in Observe(i, obs, now, cfg, admit).issued && Alarms(t.kind)
    ensures Observe(i, obs, now, cfg, admit).incident.alertAttempt == now
  {
    hide Weigh;
  }

  lemma ObserveMarker(i: Incident, obs: Observation, now: Time, cfg: Config, admit: bool)
    ensures Observe(i, obs, now, cfg, admit).incident.alertAttempt in {i.alertAttempt, now}
  {
    hide Weigh;
    WeighKeeps(i, obs, now, cfg);
  }

  lemma MarkerStays(w: World, e: Event, cfg: Config, since: Time)
    requires w.incident.alertAttempt >= since && NotBefore(e, since) && !WithdrawsAlarm(e)
    ensures Next(w, e, cfg).incident.alertAttempt >= since
  {
    if e.Observed? {
      ObserveMarker(w.incident, e.obs, e.now, cfg, e.admit);
      hide Observe;
    }
  }

  lemma {:induction false} MarkerHolds(w: World, events: seq<Event>, cfg: Config, i: nat, k: nat, since: Time)
    requires i <= k <= |events| && Before(w, events, i, cfg).incident.alertAttempt >= since
    requires forall m | i <= m < k :: NotBefore(events[m], since) && !WithdrawsAlarm(events[m])
    ensures Before(w, events, k, cfg).incident.alertAttempt >= since
    decreases k
  {
    hide Next, NotBefore, WithdrawsAlarm;
    if i < k {
      MarkerHolds(w, events, cfg, i, k - 1, since);
      MarkerStays(Before(w, events, k - 1, cfg), events[k - 1], cfg, since);
    }
  }

  lemma UnchangedAlarmIsDue(i: Incident, obs: Observation, now: Time, cfg: Config, admit: bool)
    requires exists t :: t in Observe(i, obs, now, cfg, admit).issued && Alarms(t.kind)
    requires Observe(i, obs, now, cfg, admit).incident.health == i.health
    ensures Due(i.alertAttempt, RETRY_AFTER, now)
  {
    hide Weigh;
    WeighKeeps(i, obs, now, cfg);
  }

  /** The instant an alarm is queued at: by an observation, or by the delivery of a stale recovery. */
  function AlarmTime(e: Event): Time {
    match e
    case Observed(_, now, _) => now
    case Settled(_, delivery, _) => if delivery.Accepted? then delivery.at else 0
    case Left(now, _) => now
  }

  /** An alarm marks its instant and its incident. */
  lemma AlarmMarks(w: World, e: Event, cfg: Config)
    requires RaisesAlarm(w, e, cfg)
    ensures e.Observed? || (e.Settled? && e.delivery.Accepted?
      && w.incident.alertAttemptGeneration != w.incident.generation)
    ensures var i := Next(w, e, cfg).incident;
      i.alertAttempt == AlarmTime(e) && i.alertAttemptGeneration == i.generation
  {
    if e.Observed? {
      AlarmLeavesMarker(w.incident, e.obs, e.now, cfg, e.admit);
      AlarmMarksIncident(w.incident, e.obs, e.now, cfg, e.admit);
      hide Observe;
    }
  }

  lemma AlarmMarksIncident(i: Incident, obs: Observation, now: Time, cfg: Config, admit: bool)
    requires exists t :: t in Observe(i, obs, now, cfg, admit).issued && Alarms(t.kind)
    ensures var k := Observe(i, obs, now, cfg, admit).incident; k.alertAttemptGeneration == k.generation
  {
    hide Weigh;
  }

  lemma ObserveMarksIncident(i: Incident, obs: Observation, now: Time, cfg: Config, admit: bool)
    requires i.alertAttemptGeneration == i.generation
    ensures var k := Observe(i, obs, now, cfg, admit).incident;
      k.generation == i.generation ==> k.alertAttemptGeneration == k.generation
  {
    hide Weigh;
    WeighKeeps(i, obs, now, cfg);
  }

  lemma MarkStays(w: World, e: Event, cfg: Config)
    requires w.incident.alertAttemptGeneration == w.incident.generation && !WithdrawsAlarm(e)
    ensures var i := Next(w, e, cfg).incident;
      i.generation == w.incident.generation ==> i.alertAttemptGeneration == i.generation
  {
    if e.Observed? {
      ObserveMarksIncident(w.incident, e.obs, e.now, cfg, e.admit);
      hide Observe;
    }
  }

  lemma {:induction false} MarkHolds(w: World, events: seq<Event>, cfg: Config, i: nat, k: nat)
    requires i <= k <= |events|
    requires var a := Before(w, events, i, cfg).incident; a.alertAttemptGeneration == a.generation
    requires Before(w, events, k, cfg).incident.generation == Before(w, events, i, cfg).incident.generation
    requires forall m | i <= m < k :: !WithdrawsAlarm(events[m])
    ensures var b := Before(w, events, k, cfg).incident; b.alertAttemptGeneration == b.generation
    decreases k
  {
    hide Next, WithdrawsAlarm;
    if i < k {
      GenerationGrows(w, events, cfg, i, k - 1);
      GenerationGrows(w, events, cfg, k - 1, k);
      MarkHolds(w, events, cfg, i, k - 1);
      MarkStays(Before(w, events, k - 1, cfg), events[k - 1], cfg);
    }
  }

  lemma {:induction false} GenerationGrows(w: World, events: seq<Event>, cfg: Config, i: nat, k: nat)
    requires i <= k <= |events|
    ensures Before(w, events, i, cfg).incident.generation <= Before(w, events, k, cfg).incident.generation
    decreases k
  {
    hide Next, Enters;
    if i < k {
      GenerationGrows(w, events, cfg, i, k - 1);
      GenerationStep(Before(w, events, k - 1, cfg), events[k - 1], cfg);
    }
  }

  /** While an account's health does not change, two alarms for it are at least the retry interval
      apart, whatever raised them, unless one in between was withdrawn because it was never attempted.
      The alarm a stale recovery raises is spaced from those of its own incident. */
  lemma AlarmsAreSpaced(w: World, events: seq<Event>, cfg: Config, i: nat, k: nat)
    requires i < k < |events| && AlarmTime(events[i]) > 0
    requires RaisesAlarm(Before(w, events, i, cfg), events[i], cfg)
      && RaisesAlarm(Before(w, events, k, cfg), events[k], cfg)
    requires Before(w, events, k + 1, cfg).incident.health == Before(w, events, k, cfg).incident.health
    requires events[k].Settled? ==>
      Before(w, events, k, cfg).incident.generation == Before(w, events, i + 1, cfg).incident.generation
    requires forall m | i < m <= k :: NotBefore(events[m], AlarmTime(events[i])) && !WithdrawsAlarm(events[m])
    ensures AlarmTime(events[k]) >= AlarmTime(events[i]) + 300
  {
    hide *;
    AlarmMarks(Before(w, events, i, cfg), events[i], cfg);
    AlarmMarks(Before(w, events, k, cfg), events[k], cfg);
    BeforeStep(w, events, i + 1, cfg);
    BeforeStep(w, events, k + 1, cfg);
    if events[k].Observed? {
      MarkerHolds(w, events, cfg, i + 1, k, AlarmTime(events[i]));
      ObservedAlarmIsDue(Before(w, events, k, cfg), events[k], cfg, AlarmTime(events[i]));
    } else {
      MarkHolds(w, events, cfg, i + 1, k);
    }
  }

  lemma ObservedAlarmIsDue(w: World, e: Event, cfg: Config, since: Time)
    requires e.Observed? && RaisesAlarm(w, e, cfg) && w.incident.alertAttempt >= since > 0
    requires Next(w, e, cfg).incident.health == w.incident.health
    ensures AlarmTime(e) >= since + 300
  {
    hide Observe;
    UnchangedAlarmIsDue(w.incident, e.obs, e.now, cfg, e.admit);
  }

  /** And none is forgotten: an unannounced failure is queued again by the first observation that finds
      the account still failing once the retry interval is over. */
  lemma FailureIsRetried(i: Incident, obs: Observation, now: Time, cfg: Config)
    requires IsFailure(i.health) && !i.alertSent && obs.state == i.health
    requires i.alertAttempt == 0 || i.alertAttempt + 300 <= now
    ensures Observe(i, obs, now, cfg, true).issued == {Ticket(FailureKind, i.generation, now)}
  {
  }

  // ---------- confirmation of suspicions ----------

  predicate SameSuspicion(obs: Observation, class_: Confirmation, target: State) {
    Typed(obs) && obs.confirmation == class_ && obs.confirmAs == target
  }

  /** From event `i` to event `n` every observation is a suspicion of one class and target;
      reason codes may alternate and deliveries may come in between. */
  ghost predicate Unbroken(events: seq<Event>, i: nat, n: nat, class_: Confirmation, target: State) {
    && i <= n < |events| && events[i].Observed?
    && forall m | i <= m <= n :: events[m].Observed? ==> SameSuspicion(events[m].obs, class_, target)
  }

  ghost predicate Clocked(events: seq<Event>) {
    forall i, k | 0 <= i < k < |events| && events[i].Observed? && events[k].Observed? ::
      0 < events[i].now <= events[k].now
  }

  /** The suspicion clock shows the start of an unbroken run reaching up to event `n`. */
  ghost predicate ClockInv(i: Incident, events: seq<Event>, n: nat) {
    i.suspectSince != 0 ==>
      exists b :: 0 <= b < n && Unbroken(events, b, n - 1, i.suspectClass, i.suspectTarget)
        && events[b].now == i.suspectSince
  }

  lemma OnlyObservationsTouchSuspicion(w: World, e: Event, cfg: Config)
    requires !e.Observed?
    ensures var i, k := w.incident, Next(w, e, cfg).incident;
      && k.suspectSince == i.suspectSince && k.suspectClass == i.suspectClass && k.suspectTarget == i.suspectTarget
      && (e.Settled? ==> k.health == i.health)
  {
  }

  lemma ObserveSuspicion(i: Incident, obs: Observation, now: Time, cfg: Config, admit: bool)
    ensures var k := Observe(i, obs, now, cfg, admit).incident; var s := Suspected(i, obs, now);
      if Typed(obs) && !Confirmed(i, obs, now, cfg) then
        && k.suspectSince == s.suspectSince && k.suspectClass == obs.confirmation && k.suspectTarget == obs.confirmAs
        && k.health == (if IsFailure(i.health) then i.health else Suspect)
      else
        && k.suspectSince == 0
        && (Typed(obs) ==> k.health == obs.confirmAs)
    ensures var k := Observe(i, obs, now, cfg, admit).incident;
      Confirmed(i, obs, now, cfg) && !IsFailure(i.health) ==>
        k.firstDetected == if Suspected(i, obs, now).suspectSince != 0 then Suspected(i, obs, now).suspectSince else now
    ensures obs.state == Suspect && !Typed(obs) && !IsFailure(i.health) ==>
      !IsFailure(Observe(i, obs, now, cfg, admit).incident.health)
  {
    var w := Weigh(i, obs, now, cfg);
    TransitionSuspicion(w, now, cfg, admit);
  }

  lemma TransitionSuspicion(w: Weighed, now: Time, cfg: Config, admit: bool)
    ensures var i := w.incident; var k := if i.health != w.state then Transition(w, now, cfg, admit).incident
      else Remain(w, now, cfg, admit).incident;
      && k.suspectSince == i.suspectSince && k.suspectClass == i.suspectClass && k.suspectTarget == i.suspectTarget
      && k.health == w.state
      && (IsFailure(w.state) && !IsFailure(i.health) ==> k.firstDetected == if w.since != 0 then w.since else now)
  {
  }

  lemma UnbrokenGrows(events: seq<Event>, b: nat, n: nat, class_: Confirmation, target: State)
    requires 0 < n < |events| && Unbroken(events, b, n - 1, class_, target)
    requires events[n].Observed? ==> SameSuspicion(events[n].obs, class_, target)
    ensures Unbroken(events, b, n, class_, target)
  {
  }

  lemma ClockStep(w: World, events: seq<Event>, n: nat, cfg: Config)
    requires n < |events| && ClockInv(w.incident, events, n)
    ensures ClockInv(Next(w, events[n], cfg).incident, events, n + 1)
  {
    var i, e := w.incident, events[n];
    var k := Next(w, e, cfg).incident;
    if k.suspectSince != 0 {
      if e.Observed? {
        ObserveSuspicion(i, e.obs, e.now, cfg, e.admit);
        hide Observe;
        if Continues(i, e.obs) {
          var b :| 0 <= b < n && Unbroken(events, b, n - 1, i.suspectClass, i.suspectTarget)
            && events[b].now == i.suspectSince;
          UnbrokenGrows(events, b, n, i.suspectClass, i.suspectTarget);
        } else {
          assert Unbroken(events, n, n, e.obs.confirmation, e.obs.confirmAs);
        }
      } else {
        OnlyObservationsTouchSuspicion(w, e, cfg);
        hide Next;
        var b :| 0 <= b < n && Unbroken(events, b, n - 1, i.suspectClass, i.suspectTarget)
          && events[b].now == i.suspectSince;
        UnbrokenGrows(events, b, n, i.suspectClass, i.suspectTarget);
      }
    }
  }

  lemma {:induction false} ClockHolds(w: World, events: seq<Event>, cfg: Config, n: nat)
    requires w.incident.suspectSince == 0 && n <= |events|
    ensures ClockInv(Before(w, events, n, cfg).incident, events, n)
  {
    hide Next, ClockInv;
    if n > 0 {
      ClockHolds(w, events, cfg, n - 1);
      ClockStep(Before(w, events, n - 1, cfg), events, n - 1, cfg);
    } else {
      ClockAtStart(w.incident, events);
    }
  }

  lemma ClockAtStart(i: Incident, events: seq<Event>)
    requires i.suspectSince == 0
    ensures ClockInv(i, events, 0)
  {
  }

  /** An unbroken run from `b` to `n` that has lasted as long as its class demands. */
  ghost predicate LastsLongEnough(events: seq<Event>, b: nat, n: nat, cfg: Config) {
    && b <= n < |events| && events[b].Observed? && events[n].Observed?
    && Unbroken(events, b, n, events[n].obs.confirmation, events[n].obs.confirmAs)
    && events[b].now + ConfirmAfter(cfg, events[n].obs.confirmation) <= events[n].now
  }

  lemma EntryBySuspicion(w: World, e: Event, cfg: Config)
    requires e.Observed? && e.obs.state == Suspect && e.now > 0 && Enters(w, e, cfg)
    ensures Confirmed(w.incident, e.obs, e.now, cfg)
    ensures Next(w, e, cfg).incident.firstDetected == Suspected(w.incident, e.obs, e.now).suspectSince
  {
    hide Observe;
    ObserveSuspicion(w.incident, e.obs, e.now, cfg, e.admit);
  }

  lemma ConfirmedRun(i: Incident, events: seq<Event>, n: nat, cfg: Config)
    requires n < |events| && events[n].Observed? && Clocked(events) && ClockInv(i, events, n)
    requires Confirmed(i, events[n].obs, events[n].now, cfg)
    ensures exists b :: 0 <= b <= n && LastsLongEnough(events, b, n, cfg)
              && Suspected(i, events[n].obs, events[n].now).suspectSince == events[b].now
  {
    var e := events[n];
    if Continues(i, e.obs) {
      var b :| 0 <= b < n && Unbroken(events, b, n - 1, i.suspectClass, i.suspectTarget)
        && events[b].now == i.suspectSince;
      UnbrokenGrows(events, b, n, i.suspectClass, i.suspectTarget);
      assert LastsLongEnough(events, b, n, cfg);
    } else {
      assert Unbroken(events, n, n, e.obs.confirmation, e.obs.confirmAs);
      assert LastsLongEnough(events, n, n, cfg);
    }
  }

  /** A suspicion makes an account fail only after an unbroken run of long enough duration,
      and the incident is dated to the start of that run. */
  lemma PromotionIsEarned(w: World, events: seq<Event>, cfg: Config, n: nat)
    requires w.incident.suspectSince == 0 && Clocked(events) && n < |events|
    requires events[n].Observed? && events[n].obs.state == Suspect && events[n].now > 0
    requires Enters(Before(w, events, n, cfg), events[n], cfg)
    ensures exists b :: 0 <= b <= n && LastsLongEnough(events, b, n, cfg)
              && Before(w, events, n + 1, cfg).incident.firstDetected == events[b].now
  {
    hide Before, Clocked, ClockInv, LastsLongEnough, Enters, Confirmed, Suspected, Next;
    ClockHolds(w, events, cfg, n);
    BeforeStep(w, events, n + 1, cfg);
    EntryBySuspicion(Before(w, events, n, cfg), events[n], cfg);
    ConfirmedRun(Before(w, events, n, cfg).incident, events, n, cfg);
  }

  /** Already in the confirmed state, or counting from no later than the start of the run. */
  ghost predicate Counting(i: Incident, start: Time, class_: Confirmation, target: State) {
    i.health == target || (0 < i.suspectSince <= start && i.suspectClass == class_ && i.suspectTarget == target)
  }

  lemma CountingStep(w: World, e: Event, cfg: Config, start: Time, class_: Confirmation, target: State)
    requires !e.Left? && (e.Observed? ==> SameSuspicion(e.obs, class_, target))
    requires Counting(w.incident, start, class_, target)
    ensures Counting(Next(w, e, cfg).incident, start, class_, target)
    ensures e.Observed? && start + ConfirmAfter(cfg, class_) <= e.now ==> Next(w, e, cfg).incident.health == target
  {
    if e.Observed? {
      ObserveSuspicion(w.incident, e.obs, e.now, cfg, e.admit);
      hide Observe;
    } else {
      OnlyObservationsTouchSuspicion(w, e, cfg);
      hide Next;
    }
  }

  lemma CountingStarts(w: World, events: seq<Event>, b: nat, cfg: Config)
    requires Clocked(events) && b < |events| && events[b].Observed? && Typed(events[b].obs) && events[b].now > 0
    requires ClockInv(w.incident, events, b)
    ensures var e := events[b]; Counting(Next(w, e, cfg).incident, e.now, e.obs.confirmation, e.obs.confirmAs)
    ensures var e := events[b]; ConfirmAfter(cfg, e.obs.confirmation) == 0 ==>
      Next(w, e, cfg).incident.health == e.obs.confirmAs
  {
    hide Observe;
    var e := events[b];
    ObserveSuspicion(w.incident, e.obs, e.now, cfg, e.admit);
  }

  lemma {:induction false} KeepsCounting(w: World, events: seq<Event>, cfg: Config, b: nat, n: nat)
    requires w.incident.suspectSince == 0 && Clocked(events) && b < n <= |events|
    requires events[b].Observed? && events[b].now > 0
    requires Unbroken(events, b, n - 1, events[b].obs.confirmation, events[b].obs.confirmAs)
    requires forall m | b <= m < n :: !events[m].Left?
    ensures Counting(Before(w, events, n, cfg).incident, events[b].now, events[b].obs.confirmation,
      events[b].obs.confirmAs)
    decreases n
  {
    hide Next, Counting;
    BeforeStep(w, events, n, cfg);
    if n == b + 1 {
      ClockHolds(w, events, cfg, b);
      CountingStarts(Before(w, events, b, cfg), events, b, cfg);
    } else {
      KeepsCounting(w, events, cfg, b, n - 1);
      CountingStep(Before(w, events, n - 1, cfg), events[n - 1], cfg, events[b].now, events[b].obs.confirmation,
        events[b].obs.confirmAs);
    }
  }

  /** Any unbroken run of long enough duration leaves the account in the confirmed state by its end. */
  lemma LongRunConfirms(w: World, events: seq<Event>, cfg: Config, b: nat, n: nat)
    requires w.incident.suspectSince == 0 && Clocked(events) && LastsLongEnough(events, b, n, cfg) && events[b].now > 0
    requires forall m | b <= m <= n :: !events[m].Left?
    ensures Before(w, events, n + 1, cfg).incident.health == events[n].obs.confirmAs
  {
    hide Next, Counting, Before;
    var e := events[n];
    BeforeStep(w, events, n + 1, cfg);
    assert SameSuspicion(events[b].obs, e.obs.confirmation, e.obs.confirmAs);
    if b == n {
      ClockHolds(w, events, cfg, b);
      CountingStarts(Before(w, events, b, cfg), events, b, cfg);
    } else {
      KeepsCounting(w, events, cfg, b, n);
      CountingStep(Before(w, events, n, cfg), e, cfg, events[b].now, e.obs.confirmation, e.obs.confirmAs);
    }
  }

  lemma UnconfirmedSuspicion(w: World, e: Event, cfg: Config)
    requires e.Observed? && e.obs.state == Suspect && !Confirmed(w.incident, e.obs, e.now, cfg)
    ensures Next(w, e, cfg).incident.health == if IsFailure(w.incident.health) then w.incident.health else Suspect
  {
    hide Suspected, Continues;
  }

  /** Confirmation is exact on histories without removals: a suspicion puts the account into the state it
      points to if and only if it is the end of an unbroken run that has lasted long enough. Before that a
      failing account goes on failing as it did, and any other is suspect. */
  lemma ConfirmationIsExact(w: World, events: seq<Event>, cfg: Config, n: nat)
    requires w.incident.suspectSince == 0 && Clocked(events) && n < |events|
    requires forall m | 0 <= m < |events| :: !events[m].Left? && (events[m].Observed? ==> events[m].now > 0)
    requires events[n].Observed? && events[n].obs.state == Suspect
    ensures var before := Before(w, events, n, cfg).incident.health;
      Before(w, events, n + 1, cfg).incident.health ==
        if exists b :: 0 <= b <= n && LastsLongEnough(events, b, n, cfg) then events[n].obs.confirmAs
        else if IsFailure(before) then before else Suspect
  {
    BeforeStep(w, events, n + 1, cfg);
    if b :| 0 <= b <= n && LastsLongEnough(events, b, n, cfg) {
      hide Before, Next, Clocked;
      LongRunConfirms(w, events, cfg, b, n);
    } else {
      hide Before, Next, LastsLongEnough, Confirmed, ClockInv;
      ClockHolds(w, events, cfg, n);
      if Confirmed(Before(w, events, n, cfg).incident, events[n].obs, events[n].now, cfg) {
        ConfirmedRun(Before(w, events, n, cfg).incident, events, n, cfg);
      }
      UnconfirmedSuspicion(Before(w, events, n, cfg), events[n], cfg);
    }
  }

  // ---------- quota never alerts ----------

  /** An observation that can never lead to an alarm: it neither fails nor can be confirmed. */
  predicate Harmless(obs: Observation) {
    !IsFailure(obs.state) && !Typed(obs)
  }

  ghost predicate QuietInv(w: World) {
    && !IsFailure(w.incident.health) && w.incident.generation == 0 && !w.incident.alertSent
      && w.incident.recoveryFrom == NoState
    && forall t | t in w.tickets :: t.kind.DisabledKind? || t.kind.RemovedKind?
  }

  lemma QuietStep(w: World, e: Event, cfg: Config)
    requires QuietInv(w) && Possible(w, e) && (e.Observed? ==> Harmless(e.obs))
    ensures QuietInv(Next(w, e, cfg))
  {
  }

  /** From a fresh account, any history of harmless observations leaves it sound and announces nothing. */
  lemma {:induction false} HarmlessHistoryIsQuiet(events: seq<Event>, cfg: Config, n: nat)
    requires History(World(FRESH, {}), events, cfg) && n <= |events|
    requires forall m | 0 <= m < |events| :: events[m].Observed? ==> Harmless(events[m].obs)
    ensures QuietInv(Before(World(FRESH, {}), events, n, cfg))
  {
    hide Next, Possible, QuietInv;
    if n > 0 {
      HarmlessHistoryIsQuiet(events, cfg, n - 1);
      PossibleAt(World(FRESH, {}), events, n - 1, cfg);
      QuietStep(Before(World(FRESH, {}), events, n - 1, cfg), events[n - 1], cfg);
    } else {
      QuietAtStart();
    }
  }

  lemma QuietAtStart()
    ensures QuietInv(World(FRESH, {}))
  {
  }

  /** Quota consumption, disabling and available credentials never raise an alarm, in any history. */
  lemma QuotaNeverAlerts(snapshots: seq<Snapshot>, events: seq<Event>, cfg: Config, n: nat)
    requires History(World(FRESH, {}), events, cfg) && n <= |events| == |snapshots|
    requires forall m | 0 <= m < |events| && events[m].Observed? ::
      Benign(snapshots[m]) && events[m].obs == Classify(snapshots[m])
    ensures var w := Before(World(FRESH, {}), events, n, cfg);
      !IsFailure(w.incident.health) && forall t | t in w.tickets :: !Alarms(t.kind) && !t.kind.RecoveryKind?
  {
    hide Before, History;
    forall m | 0 <= m < |events| && events[m].Observed? ensures Harmless(events[m].obs) {
      ClassifyIsConservative(snapshots[m]);
    }
    HarmlessHistoryIsQuiet(events, cfg, n);
  }
}
