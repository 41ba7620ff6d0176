/** The incident state machine of one account: health, suspicion clock, alert latch, pending recovery. */
module Incident {
  import opened Health

  const RETRY_AFTER: Time := 300

  datatype Config = Config(
    transientAfter: nat, unauthorizedAfter: nat, reminderInterval: nat,
    notifyRecovery: bool, notifyDisabled: bool, notifyRemoved: bool)

  datatype Incident = Incident(
    health: State, previous: State, generation: nat, reason: Reason,
    firstDetected: Time, lastChanged: Time,
    alertSent: bool, lastAlert: Time, alertAttempt: Time, alertAttemptGeneration: nat,
    recoveryFrom: State, lastRecovery: Time, recoveryAttempt: Time,
    suspectSince: Time, suspectClass: Confirmation, suspectTarget: State, suspectReason: Reason)

  /** A fresh account record. */
  const FRESH := Incident(Unknown, NoState, 0, NoReason, 0, 0, false, 0, 0, 0, NoState, 0, 0, 0, Unconfirmable, Unknown,
    NoReason)

  datatype Kind = FailureKind | ReminderKind | RecoveryKind | DisabledKind | RemovedKind

  /** What a queued notification remembers about the account it was queued for. */
  datatype Ticket = Ticket(kind: Kind, generation: nat, attemptAt: Time)

  datatype Delivery = Unattempted | Accepted(at: Time) | Rejected

  /** The new account state, and the notification the dispatcher took, if any. */
  datatype Step = Step(incident: Incident, issued: set<Ticket>)

  predicate Due(last: Time, interval: Time, now: Time) {
    last == 0 || last + interval <= now
  }

  function ClearSuspect(i: Incident): Incident {
    i.(suspectSince := 0, suspectClass := Unconfirmable, suspectTarget := Unknown, suspectReason := NoReason)
  }

  // ---------- queueing ----------

  function EnqueueFailure(i: Incident, reminder: bool, now: Time, admit: bool): Step {
    if !admit then Step(i, {})
    else Step(i.(alertAttempt := now, alertAttemptGeneration := i.generation),
              {Ticket(if reminder then ReminderKind else FailureKind, i.generation, now)})
  }

  function EnqueueRecovery(i: Incident, now: Time, admit: bool): Step {
    if !admit then Step(i, {}) else Step(i.(recoveryAttempt := now), {Ticket(RecoveryKind, i.generation, now)})
  }

  function EnqueueInformational(i: Incident, kind: Kind, admit: bool): Step {
    Step(i, if admit then {Ticket(kind, i.generation, 0)} else {})
  }

  function BeginRecovery(i: Incident, from: State, now: Time, cfg: Config, admit: bool): Step {
    if cfg.notifyRecovery then EnqueueRecovery(i.(recoveryFrom := from), now, admit)
    else Step(i.(alertSent := false, recoveryFrom := NoState), {})
  }

  // ---------- one observation ----------

  /** An observation after the suspicion clock has had its say. */
  datatype Weighed = Weighed(incident: Incident, state: State, reason: Reason, since: Time)

  function ConfirmAfter(cfg: Config, confirmation: Confirmation): nat {
    if confirmation == Unauthorized then cfg.unauthorizedAfter else cfg.transientAfter
  }

  /** A suspicion that can be confirmed. */
  predicate Typed(obs: Observation) {
    obs.state == Suspect && obs.confirmation != Unconfirmable && IsFailure(obs.confirmAs)
  }

  /** The suspicion goes on: same class, same target. */
  predicate Continues(i: Incident, obs: Observation) {
    i.suspectSince != 0 && i.suspectClass == obs.confirmation && i.suspectTarget == obs.confirmAs
  }

  function Suspected(i: Incident, obs: Observation, now: Time): Incident {
    var clocked := if Continues(i, obs) then i
                   else i.(suspectSince := now, suspectClass := obs.confirmation, suspectTarget := obs.confirmAs);
    clocked.(suspectReason := obs.reason)
  }

  predicate Confirmed(i: Incident, obs: Observation, now: Time, cfg: Config) {
    && Typed(obs)
    && var after := ConfirmAfter(cfg, obs.confirmation);
       after == 0 || Suspected(i, obs, now).suspectSince + after <= now
  }

  function Weigh(i: Incident, obs: Observation, now: Time, cfg: Config): Weighed {
    if Confirmed(i, obs, now, cfg) then
      Weighed(ClearSuspect(i), obs.confirmAs, PersistentReason(obs.reason), Suspected(i, obs, now).suspectSince)
    else
      var kept := if Typed(obs) then Suspected(i, obs, now) else ClearSuspect(i);
      if obs.state == Suspect && IsFailure(i.health) then Weighed(kept, i.health, i.reason, 0)
      else Weighed(kept, obs.state, obs.reason, 0)
  }

  function EnterFailure(i: Incident, previous: State, since: Time, now: Time, admit: bool): Step {
    var entered := if IsFailure(previous) then i
                  else i.(generation := i.generation + 1, firstDetected := if since != 0 then since else now);
    var incident := entered.(recoveryFrom := NoState, recoveryAttempt := 0);
    if incident.alertSent then Step(incident, {}) else EnqueueFailure(incident, false, now, admit)
  }

  function EnterHealthy(i: Incident, previous: State, now: Time, cfg: Config, admit: bool): Step {
    var step := if i.alertSent then BeginRecovery(i, previous, now, cfg, admit) else Step(i, {});
    if !IsFailure(previous) && step.incident.recoveryFrom == NoState then
      step.(incident := step.incident.(firstDetected := 0))
    else step
  }

  function EnterDisabled(i: Incident, cfg: Config, admit: bool): Step {
    var off := i.(alertSent := false, recoveryFrom := NoState);
    if cfg.notifyDisabled then EnqueueInformational(off, DisabledKind, admit) else Step(off, {})
  }

  function Transition(w: Weighed, now: Time, cfg: Config, admit: bool): Step {
    var previous := w.incident.health;
    var i := w.incident.(previous := previous, health := w.state, lastChanged := now, reason := w.reason);
    if IsFailure(w.state) then EnterFailure(i, previous, w.since, now, admit)
    else if IsCredentialHealthy(w.state) then EnterHealthy(i, previous, now, cfg, admit)
    else if w.state == Disabled then EnterDisabled(i, cfg, admit)
    else Step(i, {})
  }

  function Remain(w: Weighed, now: Time, cfg: Config, admit: bool): Step {
    var i := w.incident.(reason := w.reason);
    if IsFailure(w.state) then
      if !i.alertSent && Due(i.alertAttempt, RETRY_AFTER, now) then EnqueueFailure(i, false, now, admit)
      else if i.alertSent && cfg.reminderInterval > 0 && Due(i.lastAlert, cfg.reminderInterval, now)
              && Due(i.alertAttempt, RETRY_AFTER, now) then EnqueueFailure(i, true, now, admit)
      else Step(i, {})
    else if IsCredentialHealthy(w.state) && i.recoveryFrom != NoState && Due(i.recoveryAttempt, RETRY_AFTER, now) then
      EnqueueRecovery(i, now, admit)
    else Step(i, {})
  }

  function Observe(i: Incident, obs: Observation, now: Time, cfg: Config, admit: bool): Step {
    var w := Weigh(i, obs, now, cfg);
    if w.incident.health != w.state then Transition(w, now, cfg, admit) else Remain(w, now, cfg, admit)
  }

  // ---------- the other events ----------

  /** The account has left the roster. */
  function MarkRemoved(i: Incident, now: Time, cfg: Config, admit: bool): Step {
    if i.health == Removed then Step(i, {})
    else
      var gone := i.(previous := i.health, health := Removed, lastChanged := now, reason := ReasonRemoved,
                     alertSent := false, recoveryFrom := NoState);
      if cfg.notifyRemoved then EnqueueInformational(gone, RemovedKind, admit) else Step(gone, {})
  }

  predicate Alarms(kind: Kind) {
    kind.FailureKind? || kind.ReminderKind?
  }

  /** Clears exactly the attempt marker this ticket set. */
  function Withdraw(i: Incident, t: Ticket): Incident {
    if Alarms(t.kind) && i.generation == t.generation && i.alertAttemptGeneration == t.generation
      && i.alertAttempt == t.attemptAt then
      i.(alertAttempt := 0, alertAttemptGeneration := 0)
    else if t.kind.RecoveryKind? && i.generation == t.generation && i.recoveryAttempt == t.attemptAt then
      i.(recoveryAttempt := 0)
    else i
  }

  function AlarmAccepted(i: Incident, at: Time, cfg: Config, admit: bool): Step {
    var told := if IsFailure(i.health) || IsCredentialHealthy(i.health)
                then i.(alertSent := true, lastAlert := at) else i;
    if IsCredentialHealthy(i.health) then BeginRecovery(told, told.previous, at, cfg, admit)
    else if i.health == Disabled || i.health == Removed then Step(told.(alertSent := false), {})
    else Step(told, {})
  }

  function RecoveryAccepted(i: Incident, t: Ticket, at: Time, admit: bool): Step {
    if i.generation != t.generation then
      if IsFailure(i.health) && i.alertAttemptGeneration != i.generation then
        EnqueueFailure(i.(alertSent := false), false, at, admit)
      else Step(i, {})
    else if IsCredentialHealthy(i.health) && i.recoveryFrom != NoState then
      Step(i.(lastRecovery := at, recoveryFrom := NoState, alertSent := false, firstDetected := 0), {})
    else Step(i, {})
  }

  /** The dispatcher reports what became of a notification. */
  function Settle(i: Incident, t: Ticket, delivery: Delivery, cfg: Config, admit: bool): Step {
    match delivery
    case Unattempted => Step(Withdraw(i, t), {})
    case Rejected => Step(i, {})
    case Accepted(at) =>
      if Alarms(t.kind) then
        if i.generation == t.generation then AlarmAccepted(i, at, cfg, admit) else Step(i, {})
      else if t.kind.RecoveryKind? then RecoveryAccepted(i, t, at, admit)
      else Step(i, {})
  }

  /** What a queued notification must still find when it is about to be sent. */
  predicate StillValid(i: Incident, t: Ticket) {
    match t.kind
    case FailureKind => i.generation == t.generation && IsFailure(i.health)
    case ReminderKind => i.generation == t.generation && IsFailure(i.health)
    case RecoveryKind => i.generation == t.generation && IsCredentialHealthy(i.health) && i.recoveryFrom != NoState
    case DisabledKind => i.health == Disabled
    case RemovedKind => i.health == Removed
  }
}
