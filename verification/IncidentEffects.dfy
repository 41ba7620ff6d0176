/** What one event does to an account, field by field, and what that means over a history. */
module IncidentEffects {
  import opened Health
  import opened Incident
  import opened IncidentRuns

  // ---------- one observation ----------

  /** The account takes the observed state, except that a suspicion may confirm, and that one which does not
      leaves a failing account as it was; the reason goes with the state. */
  lemma ObservedHealth(i: Incident, obs: Observation, now: Time, cfg: Config, admit: bool)
    ensures var k := Observe(i, obs, now, cfg, admit).incident;
      if obs.state != Suspect then k.health == obs.state && k.reason == obs.reason
      else if Confirmed(i, obs, now, cfg) then k.health == obs.confirmAs && k.reason == PersistentReason(obs.reason)
      else if IsFailure(i.health) then k.health == i.health && k.reason == i.reason
      else k.health == Suspect && k.reason == obs.reason
    ensures var k := Observe(i, obs, now, cfg, admit).incident;
      if k.health != i.health then k.previous == i.health && k.lastChanged == now
      else k.previous == i.previous && k.lastChanged == i.lastChanged
  {
    hide Transition, Remain;
    var w := Weigh(i, obs, now, cfg);
    if w.incident.health != w.state { TransitionChange(w, now, cfg, admit); } else { RemainChange(w, now, cfg, admit); }
  }

  lemma TransitionChange(w: Weighed, now: Time, cfg: Config, admit: bool)
    requires w.incident.health != w.state
    ensures var k := Transition(w, now, cfg, admit).incident;
      k.health == w.state && k.reason == w.reason && k.previous == w.incident.health && k.lastChanged == now
  {
  }

  lemma RemainChange(w: Weighed, now: Time, cfg: Config, admit: bool)
    requires w.incident.health == w.state
    ensures var i, k := w.incident, Remain(w, now, cfg, admit).incident;
      k.health == w.state && k.reason == w.reason && k.previous == i.previous && k.lastChanged == i.lastChanged
  {
  }

  /** Where a suspicion seen now has begun. */
  function SuspectedFrom(i: Incident, obs: Observation, now: Time): Time {
    if i.suspectSince != 0 && i.suspectClass == obs.confirmation && i.suspectTarget == obs.confirmAs
    then i.suspectSince else now
  }

  /** Every observation that is no unconfirmed suspicion of its own stops the clock. */
  lemma ObservedClock(i: Incident, obs: Observation, now: Time, cfg: Config, admit: bool)
    ensures var k := Observe(i, obs, now, cfg, admit).incident;
      if Typed(obs) && !Confirmed(i, obs, now, cfg) then
        && k.suspectReason == obs.reason && k.suspectClass == obs.confirmation && k.suspectTarget == obs.confirmAs
        && k.suspectSince == SuspectedFrom(i, obs, now)
      else
        && k.suspectSince == 0 && k.suspectClass == Unconfirmable && k.suspectTarget == Unknown
        && k.suspectReason == NoReason
  {
    hide Transition, Remain;
    var w := Weigh(i, obs, now, cfg);
    if w.incident.health != w.state { TransitionClock(w, now, cfg, admit); } else { RemainClock(w, now, cfg, admit); }
  }

  predicate SameClock(i: Incident, k: Incident) {
    && i.suspectSince == k.suspectSince && i.suspectClass == k.suspectClass
    && i.suspectTarget == k.suspectTarget && i.suspectReason == k.suspectReason
  }

  lemma TransitionClock(w: Weighed, now: Time, cfg: Config, admit: bool)
    ensures SameClock(w.incident, Transition(w, now, cfg, admit).incident)
  {
  }

  lemma RemainClock(w: Weighed, now: Time, cfg: Config, admit: bool)
    ensures SameClock(w.incident, Remain(w, now, cfg, admit).incident)
  {
  }

  /** An incident is numbered and dated when it begins. Its date goes once the account is sound again from a
      state that was no failure, with nothing left to tell. */
  predicate Dated(i: Incident, k: Incident, start: Time) {
    if !IsFailure(i.health) && IsFailure(k.health) then k.generation == i.generation + 1 && k.firstDetected == start
    else
      && k.generation == i.generation
      && k.firstDetected == if k.health != i.health && !IsFailure(i.health) && IsCredentialHealthy(k.health)
                                && k.recoveryFrom == NoState then 0 else i.firstDetected
  }

  lemma TransitionDates(w: Weighed, now: Time, cfg: Config, admit: bool)
    requires w.incident.health != w.state
    ensures Dated(w.incident, Transition(w, now, cfg, admit).incident, if w.since != 0 then w.since else now)
  {
  }

  lemma RemainDates(w: Weighed, now: Time, cfg: Config, admit: bool, start: Time)
    requires w.incident.health == w.state
    ensures Dated(w.incident, Remain(w, now, cfg, admit).incident, start)
  {
  }

  lemma ObservedIncident(i: Incident, obs: Observation, now: Time, cfg: Config, admit: bool)
    requires now != 0
    ensures Dated(i, Observe(i, obs, now, cfg, admit).incident,
                  if obs.state == Suspect then SuspectedFrom(i, obs, now) else now)
  {
    hide Transition, Remain;
    var w := Weigh(i, obs, now, cfg);
    WeighKeeps(i, obs, now, cfg);
    if w.incident.health != w.state {
      TransitionDates(w, now, cfg, admit);
      TransitionChange(w, now, cfg, admit);
    } else {
      RemainDates(w, now, cfg, admit, if obs.state == Suspect then SuspectedFrom(i, obs, now) else now);
    }
  }

  /** What is queued for an account that an observation has led from `i` to `k`: each kind of message
      exactly when it is called for. */
  predicate CalledFor(i: Incident, k: Incident, t: Ticket, now: Time, cfg: Config) {
    && t.generation == k.generation
    && t.attemptAt == (if Alarms(t.kind) || t.kind.RecoveryKind? then now else 0)
    && match t.kind
       case FailureKind =>
         IsFailure(k.health) && !i.alertSent && (k.health != i.health || Due(i.alertAttempt, RETRY_AFTER, now))
       case ReminderKind =>
         && IsFailure(k.health) && i.alertSent && k.health == i.health && cfg.reminderInterval > 0
         && Due(i.lastAlert, cfg.reminderInterval, now) && Due(i.alertAttempt, RETRY_AFTER, now)
       case RecoveryKind =>
         && IsCredentialHealthy(k.health)
         && if k.health != i.health then i.alertSent && cfg.notifyRecovery
            else i.recoveryFrom != NoState && Due(i.recoveryAttempt, RETRY_AFTER, now)
       case DisabledKind => k.health == Disabled && k.health != i.health && cfg.notifyDisabled
       case RemovedKind => false
  }

  lemma TransitionMessages(w: Weighed, now: Time, cfg: Config, admit: bool, t: Ticket)
    requires w.incident.health != w.state
    ensures var step := Transition(w, now, cfg, admit);
      t in step.issued <==> admit && CalledFor(w.incident, step.incident, t, now, cfg)
  {
  }

  lemma RemainMessages(w: Weighed, now: Time, cfg: Config, admit: bool, t: Ticket)
    requires w.incident.health == w.state
    ensures var step := Remain(w, now, cfg, admit);
      t in step.issued <==> admit && CalledFor(w.incident, step.incident, t, now, cfg)
  {
  }

  lemma ObservedMessages(i: Incident, obs: Observation, now: Time, cfg: Config, admit: bool, t: Ticket)
    ensures var step := Observe(i, obs, now, cfg, admit);
      t in step.issued <==> admit && CalledFor(i, step.incident, t, now, cfg)
  {
    hide Transition, Remain, Weigh;
    var w := Weigh(i, obs, now, cfg);
    WeighKeeps(i, obs, now, cfg);
    if w.incident.health != w.state {
      TransitionMessages(w, now, cfg, admit, t);
    } else {
      RemainMessages(w, now, cfg, admit, t);
    }
  }

  /** What a change of health, or its absence, does to the latch and the pending recovery. */
  predicate Latched(i: Incident, k: Incident, cfg: Config) {
    && k.lastAlert == i.lastAlert && k.lastRecovery == i.lastRecovery
    && if k.health == i.health then k.alertSent == i.alertSent && k.recoveryFrom == i.recoveryFrom
       else if IsFailure(k.health) then k.alertSent == i.alertSent && k.recoveryFrom == NoState
       else if k.health == Disabled then !k.alertSent && k.recoveryFrom == NoState
       else if IsCredentialHealthy(k.health) && i.alertSent then
         k.alertSent == cfg.notifyRecovery && k.recoveryFrom == if cfg.notifyRecovery then i.health else NoState
       else k.alertSent == i.alertSent && k.recoveryFrom == i.recoveryFrom
  }

  lemma TransitionLatch(w: Weighed, now: Time, cfg: Config, admit: bool)
    requires w.incident.health != w.state
    ensures Latched(w.incident, Transition(w, now, cfg, admit).incident, cfg)
  {
  }

  lemma RemainLatch(w: Weighed, now: Time, cfg: Config, admit: bool)
    requires w.incident.health == w.state
    ensures Latched(w.incident, Remain(w, now, cfg, admit).incident, cfg)
  {
  }

  lemma ObservedLedger(i: Incident, obs: Observation, now: Time, cfg: Config, admit: bool)
    ensures Latched(i, Observe(i, obs, now, cfg, admit).incident, cfg)
  {
    hide Transition, Remain, Weigh;
    var w := Weigh(i, obs, now, cfg);
    WeighKeeps(i, obs, now, cfg);
    if w.incident.health != w.state { TransitionLatch(w, now, cfg, admit); } else { RemainLatch(w, now, cfg, admit); }
  }

  /** A marker shows the instant of the last message of its kind; a new failure forgets the recovery's. */
  ghost predicate Marked(i: Incident, step: Step, now: Time) {
    var k := step.incident;
    && (if exists t :: t in step.issued && Alarms(t.kind)
        then k.alertAttempt == now && k.alertAttemptGeneration == k.generation
        else k.alertAttempt == i.alertAttempt && k.alertAttemptGeneration == i.alertAttemptGeneration)
    && (if exists t :: t in step.issued && t.kind.RecoveryKind? then k.recoveryAttempt == now
        else k.recoveryAttempt == if k.health != i.health && IsFailure(k.health) then 0 else i.recoveryAttempt)
  }

  lemma TransitionMarks(w: Weighed, now: Time, cfg: Config, admit: bool)
    requires w.incident.health != w.state
    ensures Marked(w.incident, Transition(w, now, cfg, admit), now)
  {
    var step := Transition(w, now, cfg, admit);
    assert step.issued == {} || exists t :: t in step.issued && step.issued == {t};
  }

  lemma RemainMarks(w: Weighed, now: Time, cfg: Config, admit: bool)
    requires w.incident.health == w.state
    ensures Marked(w.incident, Remain(w, now, cfg, admit), now)
  {
    var step := Remain(w, now, cfg, admit);
    assert step.issued == {} || exists t :: t in step.issued && step.issued == {t};
  }

  lemma ObservedMarkers(i: Incident, obs: Observation, now: Time, cfg: Config, admit: bool)
    ensures Marked(i, Observe(i, obs, now, cfg, admit), now)
  {
    hide Transition, Remain, Weigh;
    var w := Weigh(i, obs, now, cfg);
    WeighKeeps(i, obs, now, cfg);
    if w.incident.health != w.state { TransitionMarks(w, now, cfg, admit); } else { RemainMarks(w, now, cfg, admit); }
  }

  // ---------- one delivery, one removal ----------

  /** An alarm of the current incident that the user has received is recorded while the account fails. On
      an account that is sound again it is recorded too, and the user is told of the recovery at once,
      from the state the account was in before, or, where recoveries are not announced, the latch is
      released. A disabled or removed account releases it as well, and a suspect one keeps no trace. */
  lemma SettledAlarm(i: Incident, t: Ticket, at: Time, cfg: Config, admit: bool)
    requires Alarms(t.kind) && t.generation == i.generation
    ensures var step := Settle(i, t, Accepted(at), cfg, admit); var k := step.incident;
      if IsFailure(i.health) then step.issued == {} && k == i.(alertSent := true, lastAlert := at)
      else if IsCredentialHealthy(i.health) && cfg.notifyRecovery then
        && step.issued == (if admit then {Ticket(RecoveryKind, i.generation, at)} else {})
        && k == i.(alertSent := true, lastAlert := at, recoveryFrom := i.previous,
                   recoveryAttempt := if admit then at else i.recoveryAttempt)
      else if IsCredentialHealthy(i.health) then
        step.issued == {} && k == i.(alertSent := false, lastAlert := at, recoveryFrom := NoState)
      else if i.health == Disabled || i.health == Removed then step.issued == {} && k == i.(alertSent := false)
      else step == Step(i, {})
  {
  }

  /** A recovery of the current incident that the user has received closes it, while the account is sound
      and the recovery pending; nothing is queued. */
  lemma SettledRecovery(i: Incident, t: Ticket, at: Time, cfg: Config, admit: bool)
    requires t.kind.RecoveryKind? && t.generation == i.generation
    ensures var step := Settle(i, t, Accepted(at), cfg, admit);
      && step.issued == {}
      && step.incident == if IsCredentialHealthy(i.health) && i.recoveryFrom != NoState
                          then i.(alertSent := false, recoveryFrom := NoState, lastRecovery := at, firstDetected := 0)
                          else i
  {
  }

  /** A message that was never attempted takes back its own marker, if that is still the one on record;
      a rejected one, and any message that is no alarm and no recovery, changes nothing. */
  lemma SettledOtherwise(i: Incident, t: Ticket, delivery: Delivery, cfg: Config, admit: bool)
    requires !delivery.Accepted? || !(Alarms(t.kind) || t.kind.RecoveryKind?)
    ensures var step := Settle(i, t, delivery, cfg, admit); var k := step.incident;
      && step.issued == {}
      && var own := delivery.Unattempted? && t.generation == i.generation;
      && k == i.(alertAttempt := k.alertAttempt, alertAttemptGeneration := k.alertAttemptGeneration,
                 recoveryAttempt := k.recoveryAttempt)
      && (if own && Alarms(t.kind) && i.alertAttempt == t.attemptAt && i.alertAttemptGeneration == i.generation
          then k.alertAttempt == 0 && k.alertAttemptGeneration == 0
          else k.alertAttempt == i.alertAttempt && k.alertAttemptGeneration == i.alertAttemptGeneration)
      && k.recoveryAttempt == if own && t.kind.RecoveryKind? && i.recoveryAttempt == t.attemptAt then 0
                              else i.recoveryAttempt
  {
  }

  /** An account leaves once: the state it had is kept as the previous one, whatever was to be told is
      dropped, and the removal is announced as far as configured and taken. */
  lemma LeavesOnce(i: Incident, now: Time, cfg: Config, admit: bool)
    ensures var step := MarkRemoved(i, now, cfg, admit); var k := step.incident;
      && k.health == Removed && MarkRemoved(k, now, cfg, admit) == Step(k, {})
      && (i.health == Removed ==> step == Step(i, {}))
      && (i.health != Removed ==>
            && k == i.(health := Removed, previous := i.health, lastChanged := now, reason := ReasonRemoved,
                       alertSent := false, recoveryFrom := NoState)
            && forall t :: t in step.issued <==>
                 cfg.notifyRemoved && admit && t == Ticket(RemovedKind, i.generation, 0))
  {
  }
}
