/** Account records: the mutable objects the monitor shares with queued notifications, and their values. */
module Accounts {
  import opened Health
  import opened Incident

  /** The last weekly-usage reading and the latches of its window; `windowKey` is the reset instant. */
  datatype Quota = Quota(
    percent: real, resetAt: Time, observedAt: Time, lastPollAt: Time, lastError: string, windowKey: Time,
    warningSent: Time, exhaustedSent: Time, warningAttempt: Time, exhaustedAttempt: Time)

  const NO_QUOTA := Quota(0.0, 0, 0, 0, "", 0, 0, 0, 0, 0)

  datatype Record = Record(
    key: string, provider: string, authIndex: string, name: string, identity: string,
    incident: Incident, removedAt: Time, lastHealthy: Time, lastObserved: Time,
    status: string, unavailable: bool, quotaLimited: bool, quota: Quota)

  function Blank(key: string, provider: string, authIndex: string): Record {
    Record(key, provider, authIndex, "", "", FRESH, 0, 0, 0, "", false, false, NO_QUOTA)
  }

  /** The incident fields are kept together in `incident` and updated one by one in place. */
  class Account {
    var key: string
    var provider: string
    var authIndex: string
    var name: string
    var identity: string
    var incident: Incident
    var removedAt: Time
    var lastHealthy: Time
    var lastObserved: Time
    var status: string
    var unavailable: bool
    var quotaLimited: bool
    var quota: Quota

    constructor (key: string, provider: string, authIndex: string)
      ensures View() == Blank(key, provider, authIndex)
    {
      this.key, this.provider, this.authIndex := key, provider, authIndex;
      name, identity, status := "", "", "";
      incident := FRESH;
      removedAt, lastHealthy, lastObserved, unavailable, quotaLimited := 0, 0, 0, false, false;
      quota := NO_QUOTA;
    }

    function View(): Record
      reads this
    {
      Record(key, provider, authIndex, name, identity, incident, removedAt, lastHealthy, lastObserved,
             status, unavailable, quotaLimited, quota)
    }

    method ClearSuspicion()
      modifies this`incident
      ensures incident == ClearSuspect(old(incident))
    {
      incident := incident.(suspectSince := 0, suspectClass := Unconfirmable, suspectTarget := Unknown,
        suspectReason := NoReason);
    }

    // ---------- notifications ----------

    method QueueFailure(reminder: bool, now: Time, admit: bool) returns (issued: set<Ticket>)
      modifies this`incident
      ensures var step := EnqueueFailure(old(incident), reminder, now, admit);
        incident == step.incident && issued == step.issued
    {
      issued := {};
      if admit {
        issued := {Ticket(if reminder then ReminderKind else FailureKind, incident.generation, now)};
        incident := incident.(alertAttempt := now);
        incident := incident.(alertAttemptGeneration := incident.generation);
      }
    }

    method QueueRecovery(now: Time, admit: bool) returns (issued: set<Ticket>)
      modifies this`incident
      ensures var step := EnqueueRecovery(old(incident), now, admit);
        incident == step.incident && issued == step.issued
    {
      issued := {};
      if admit {
        issued := {Ticket(RecoveryKind, incident.generation, now)};
        incident := incident.(recoveryAttempt := now);
      }
    }

    method StartRecovery(from: State, now: Time, cfg: Config, admit: bool) returns (issued: set<Ticket>)
      modifies this`incident
      ensures var step := BeginRecovery(old(incident), from, now, cfg, admit);
        incident == step.incident && issued == step.issued
    {
      incident := incident.(recoveryFrom := from);
      if cfg.notifyRecovery {
        issued := QueueRecovery(now, admit);
      } else {
        incident := incident.(alertSent := false);
        incident := incident.(recoveryFrom := NoState);
        issued := {};
      }
    }

    // ---------- one observation ----------

    /** The suspicion clock of `applyObservation`: what state and reason the observation amounts to. */
    method WeighSuspicion(obs: Observation, now: Time, cfg: Config) returns (state: State, reason: Reason, since: Time)
      modifies this`incident
      ensures var w := Weigh(old(incident), obs, now, cfg);
        incident == w.incident && state == w.state && reason == w.reason && since == w.since
    {
      state, reason, since := obs.state, obs.reason, 0;
      if state == Suspect {
        if obs.confirmation == Unconfirmable || !IsFailure(obs.confirmAs) {
          ClearSuspicion();
        } else {
          if incident.suspectSince == 0 || incident.suspectClass != obs.confirmation
            || incident.suspectTarget != obs.confirmAs {
            incident := incident.(suspectSince := now);
            incident := incident.(suspectClass := obs.confirmation);
            incident := incident.(suspectTarget := obs.confirmAs);
          }
          incident := incident.(suspectReason := obs.reason);
          var confirmAfter := cfg.transientAfter;
          if obs.confirmation == Unauthorized {
            confirmAfter := cfg.unauthorizedAfter;
          }
          if confirmAfter == 0 || incident.suspectSince + confirmAfter <= now {
            since := incident.suspectSince;
            state := obs.confirmAs;
            reason := PersistentReason(obs.reason);
            ClearSuspicion();
          }
        }
        if state == Suspect && IsFailure(incident.health) {
          state := incident.health;
          reason := incident.reason;
        }
      } else {
        ClearSuspicion();
      }
    }

    /** The branch of the transition switch for a failure state. */
    method TurnFailing(before: State, since: Time, now: Time, admit: bool) returns (issued: set<Ticket>)
      modifies this`incident
      ensures var step := EnterFailure(old(incident), before, since, now, admit);
        incident == step.incident && issued == step.issued
    {
      issued := {};
      if !IsFailure(before) {
        incident := incident.(generation := incident.generation + 1);
        incident := incident.(firstDetected := if since != 0 then since else now);
      }
      incident := incident.(recoveryFrom := NoState);
      incident := incident.(recoveryAttempt := 0);
      if !incident.alertSent {
        issued := QueueFailure(false, now, admit);
      }
    }

    /** The branch of the transition switch for a healthy or quota-limited state. */
    method TurnHealthy(before: State, now: Time, cfg: Config, admit: bool) returns (issued: set<Ticket>)
      modifies this`incident
      ensures var step := EnterHealthy(old(incident), before, now, cfg, admit);
        incident == step.incident && issued == step.issued
    {
      issued := {};
      if incident.alertSent {
        issued := StartRecovery(before, now, cfg, admit);
      }
      if !IsFailure(before) && incident.recoveryFrom == NoState {
        incident := incident.(firstDetected := 0);
      }
    }

    /** The transition half of `applyObservation`. */
    method ChangeHealth(state: State, reason: Reason, since: Time, now: Time, cfg: Config, admit: bool)
      returns (issued: set<Ticket>)
      requires incident.health != state
      modifies this`incident
      ensures var step := Transition(Weighed(old(incident), state, reason, since), now, cfg, admit);
        incident == step.incident && issued == step.issued
    {
      issued := {};
      var before := incident.health;
      incident := incident.(previous := before);
      incident := incident.(health := state);
      incident := incident.(lastChanged := now);
      incident := incident.(reason := reason);
      if IsFailure(state) {
        issued := TurnFailing(before, since, now, admit);
      } else if IsCredentialHealthy(state) {
        issued := TurnHealthy(before, now, cfg, admit);
      } else if state == Disabled {
        incident := incident.(alertSent := false);
        incident := incident.(recoveryFrom := NoState);
        if cfg.notifyDisabled && admit {
          issued := {Ticket(DisabledKind, incident.generation, 0)};
        }
      }
    }

    /** The half of `applyObservation` for an unchanged state. */
    method KeepHealth(state: State, reason: Reason, now: Time, cfg: Config, admit: bool) returns (issued: set<Ticket>)
      modifies this`incident
      ensures var step := Remain(Weighed(old(incident), state, reason, 0), now, cfg, admit);
        incident == step.incident && issued == step.issued
    {
      issued := {};
      incident := incident.(reason := reason);
      if IsFailure(state) {
        if !incident.alertSent && Due(incident.alertAttempt, RETRY_AFTER, now) {
          issued := QueueFailure(false, now, admit);
        } else if incident.alertSent && cfg.reminderInterval > 0 && Due(incident.lastAlert, cfg.reminderInterval, now)
                  && Due(incident.alertAttempt, RETRY_AFTER, now) {
          issued := QueueFailure(true, now, admit);
        }
      }
      if IsCredentialHealthy(state) && incident.recoveryFrom != NoState
        && Due(incident.recoveryAttempt, RETRY_AFTER, now) {
        issued := QueueRecovery(now, admit);
      }
    }

    method ObserveHealth(obs: Observation, now: Time, cfg: Config, admit: bool) returns (issued: set<Ticket>)
      modifies this`incident
      ensures var step := Observe(old(incident), obs, now, cfg, admit);
        incident == step.incident && issued == step.issued
    {
      var state, reason, since := WeighSuspicion(obs, now, cfg);
      if incident.health != state {
        issued := ChangeHealth(state, reason, since, now, cfg, admit);
      } else {
        issued := KeepHealth(state, reason, now, cfg, admit);
      }
    }

    // ---------- removal and deliveries ----------

    method Leave(now: Time, cfg: Config, admit: bool) returns (issued: set<Ticket>)
      modifies this`incident, this`removedAt
      ensures var step := MarkRemoved(old(incident), now, cfg, admit);
        && View() == old(View()).(incident := step.incident,
          removedAt := if old(incident.health) == Removed then old(removedAt) else now)
        && issued == step.issued
    {
      issued := {};
      if incident.health != Removed {
        incident := incident.(previous := incident.health);
        incident := incident.(health := Removed);
        removedAt := now;
        incident := incident.(lastChanged := now);
        incident := incident.(reason := ReasonRemoved);
        incident := incident.(alertSent := false);
        incident := incident.(recoveryFrom := NoState);
        if cfg.notifyRemoved && admit {
          issued := {Ticket(RemovedKind, incident.generation, 0)};
        }
      }
    }

    /** `deliveryCallback` for an account that is still current, in a monitor that has not retired. */
    method Deliver(t: Ticket, delivery: Delivery, cfg: Config, admit: bool) returns (issued: set<Ticket>)
      modifies this`incident
      ensures var step := Settle(old(incident), t, delivery, cfg, admit);
        incident == step.incident && issued == step.issued
    {
      issued := {};
      if delivery.Unattempted? {
        if Alarms(t.kind) {
          if incident.generation == t.generation && incident.alertAttemptGeneration == t.generation
            && incident.alertAttempt == t.attemptAt {
            incident := incident.(alertAttempt := 0);
            incident := incident.(alertAttemptGeneration := 0);
          }
        } else if t.kind.RecoveryKind? {
          if incident.generation == t.generation && incident.recoveryAttempt == t.attemptAt {
            incident := incident.(recoveryAttempt := 0);
          }
        }
      } else if delivery.Accepted? {
        if Alarms(t.kind) {
          if incident.generation == t.generation {
            if IsFailure(incident.health) || IsCredentialHealthy(incident.health) {
              incident := incident.(alertSent := true);
              incident := incident.(lastAlert := delivery.at);
            }
            if IsCredentialHealthy(incident.health) {
              issued := StartRecovery(incident.previous, delivery.at, cfg, admit);
            } else if incident.health == Disabled || incident.health == Removed {
              incident := incident.(alertSent := false);
            }
          }
        } else if t.kind.RecoveryKind? {
          if incident.generation != t.generation {
            if IsFailure(incident.health) && incident.alertAttemptGeneration != incident.generation {
              incident := incident.(alertSent := false);
              issued := QueueFailure(false, delivery.at, admit);
            }
          } else if IsCredentialHealthy(incident.health) && incident.recoveryFrom != NoState {
            incident := incident.(lastRecovery := delivery.at);
            incident := incident.(recoveryFrom := NoState);
            incident := incident.(alertSent := false);
            incident := incident.(firstDetected := 0);
          }
        }
      }
    }
  }
}
