/** Weekly-usage alerts: one warning and one exhaustion notice per usage window. */
module Quotas {
  import opened Health
  import opened Incident
  import opened Accounts

  datatype Usage = Usage(percent: real, resetAt: Time)

  datatype Limits = Limits(warning: real, exhausted: real)

  datatype Notice = Warning | Exhaustion

  /** What the closures of a queued usage notice captured. */
  datatype Slip = Slip(notice: Notice, windowKey: Time, attemptAt: Time)

  datatype Polled = Polled(quota: Quota, queued: set<Slip>)

  // ---------- the window ----------

  predicate NewWindow(q: Quota, u: Usage, limits: Limits) {
    || q.windowKey != u.resetAt
    || (q.observedAt != 0 && u.percent < limits.warning && q.percent >= limits.warning)
  }

  function Recorded(q: Quota, u: Usage, now: Time, limits: Limits): Quota {
    var noted := q.(percent := u.percent, resetAt := u.resetAt, observedAt := now);
    if NewWindow(q, u, limits) then
      noted.(windowKey := u.resetAt, warningSent := 0, exhaustedSent := 0, warningAttempt := 0, exhaustedAttempt := 0)
    else noted
  }

  function Apply(q: Quota, u: Usage, now: Time, limits: Limits, admit: bool): Polled {
    var r := Recorded(q, u, now, limits);
    if u.percent >= limits.exhausted then
      if r.exhaustedSent == 0 && Due(r.exhaustedAttempt, RETRY_AFTER, now) && admit then
        Polled(r.(exhaustedAttempt := now), {Slip(Exhaustion, u.resetAt, now)})
      else Polled(r, {})
    else if u.percent >= limits.warning && r.warningSent == 0 && r.exhaustedSent == 0
            && Due(r.warningAttempt, RETRY_AFTER, now) && admit then
      Polled(r.(warningAttempt := now), {Slip(Warning, u.resetAt, now)})
    else Polled(r, {})
  }

  // ---------- validity and delivery ----------

  predicate StillWanted(q: Quota, slip: Slip) {
    && q.windowKey == slip.windowKey && q.exhaustedSent == 0
    && (slip.notice.Warning? ==> q.warningSent == 0)
  }

  function Settled(q: Quota, slip: Slip, delivery: Delivery): Quota {
    if q.windowKey != slip.windowKey then q
    else match delivery
      case Unattempted =>
        if slip.notice.Exhaustion? && q.exhaustedAttempt == slip.attemptAt then q.(exhaustedAttempt := 0)
        else if slip.notice.Warning? && q.warningAttempt == slip.attemptAt then q.(warningAttempt := 0)
        else q
      case Accepted(at) =>
        if slip.notice.Exhaustion? then q.(exhaustedSent := at) else q.(warningSent := at)
      case Rejected => q
  }

  // ---------- the methods, on the account object ----------

  method ApplyQuota(account: Account, u: Usage, now: Time, limits: Limits, admit: bool) returns (queued: set<Slip>)
    modifies account`quota
    ensures var p := Apply(old(account.quota), u, now, limits, admit);
      account.quota == p.quota && queued == p.queued
  {
    queued := {};
    var previousPercent, hadObservation := account.quota.percent, account.quota.observedAt != 0;
    account.quota := account.quota.(percent := u.percent, resetAt := u.resetAt, observedAt := now);
    var newWindow := account.quota.windowKey != u.resetAt;
    if !newWindow && hadObservation && u.percent < limits.warning && previousPercent >= limits.warning {
      newWindow := true;
    }
    if newWindow {
      account.quota := account.quota.(windowKey := u.resetAt, warningSent := 0, exhaustedSent := 0,
                                      warningAttempt := 0, exhaustedAttempt := 0);
    }
    if u.percent >= limits.exhausted {
      if account.quota.exhaustedSent == 0 && Due(account.quota.exhaustedAttempt, RETRY_AFTER, now) && admit {
        queued := {Slip(Exhaustion, u.resetAt, now)};
        account.quota := account.quota.(exhaustedAttempt := now);
      }
    } else if u.percent >= limits.warning {
      if account.quota.warningSent == 0 && account.quota.exhaustedSent == 0
         && Due(account.quota.warningAttempt, RETRY_AFTER, now) && admit {
        queued := {Slip(Warning, u.resetAt, now)};
        account.quota := account.quota.(warningAttempt := now);
      }
    }
  }

  /** `quotaDeliveryCallback` for an account that is still current, in a monitor that has not retired. */
  method DeliverQuota(account: Account, slip: Slip, delivery: Delivery)
    modifies account`quota
    ensures account.quota == Settled(old(account.quota), slip, delivery)
  {
    var current := account.quota.windowKey == slip.windowKey;
    if delivery.Unattempted? {
      if current {
        if slip.notice.Exhaustion? && account.quota.exhaustedAttempt == slip.attemptAt {
          account.quota := account.quota.(exhaustedAttempt := 0);
        } else if slip.notice.Warning? && account.quota.warningAttempt == slip.attemptAt {
          account.quota := account.quota.(warningAttempt := 0);
        }
      }
    } else if delivery.Accepted? {
      if current {
        if slip.notice.Exhaustion? {
          account.quota := account.quota.(exhaustedSent := delivery.at);
        } else {
          account.quota := account.quota.(warningSent := delivery.at);
        }
      }
    }
  }

  // ---------- what one call means ----------

  /** A latch that is set falls exactly when a poll opens a new window. */
  lemma LatchFallsOnNewWindow(q: Quota, u: Usage, now: Time, limits: Limits, admit: bool)
    requires q.warningSent != 0 || q.exhaustedSent != 0
    ensures var after := Apply(q, u, now, limits, admit).quota;
      && (NewWindow(q, u, limits) <==> (after.warningSent, after.exhaustedSent) != (q.warningSent, q.exhaustedSent))
      && (NewWindow(q, u, limits) ==> after.warningSent == 0 && after.exhaustedSent == 0)
  {
  }

  /** What is queued is wanted at that moment, within its limits, and not within the retry interval of
      the last attempt in the same window. */
  lemma QueuedIsWanted(q: Quota, u: Usage, now: Time, limits: Limits, slip: Slip)
    requires slip in Apply(q, u, now, limits, true).queued
    ensures StillWanted(Apply(q, u, now, limits, true).quota, slip)
    ensures slip.attemptAt == now && slip.windowKey == u.resetAt
    ensures u.percent >= (if slip.notice.Exhaustion? then limits.exhausted else limits.warning)
    ensures !NewWindow(q, u, limits) ==>
      Due(if slip.notice.Exhaustion? then q.exhaustedAttempt else q.warningAttempt, RETRY_AFTER, now)
  {
  }

  /** An accepted notice ends the demand for it, and an exhaustion also for the warning; a notice that
      was never attempted leaves the account as free to try again as if it had not been queued. */
  lemma DeliveryIsFinal(q: Quota, slip: Slip, at: Time)
    requires at != 0
    ensures !StillWanted(Settled(q, slip, Accepted(at)), slip)
    ensures slip.notice.Exhaustion? ==>
      !StillWanted(Settled(q, slip, Accepted(at)), Slip(Warning, slip.windowKey, slip.attemptAt))
  {
  }

  lemma UnattemptedFreesRetry(q: Quota, u: Usage, now: Time, later: Time, limits: Limits, slip: Slip)
    requires slip in Apply(q, u, now, limits, true).queued && now != 0
    ensures var undone := Settled(Apply(q, u, now, limits, true).quota, slip, Unattempted);
      && undone.warningSent == Recorded(q, u, now, limits).warningSent
      && undone.exhaustedSent == Recorded(q, u, now, limits).exhaustedSent
      && Apply(undone, u, later, limits, true).queued == {Slip(slip.notice, slip.windowKey, later)}
  {
  }

  /** An accepted notice is wanted again, in the window of the reading, exactly when the reading opens a
      window: another reset instant, or usage fallen from the warning line or above to below it. */
  lemma NoticeRearmsIffNewWindow(q: Quota, u: Usage, now: Time, limits: Limits, admit: bool, notice: Notice,
                                 attemptAt: Time)
    requires if notice.Exhaustion? then q.exhaustedSent != 0 else q.warningSent != 0
    ensures StillWanted(Apply(q, u, now, limits, admit).quota, Slip(notice, u.resetAt, attemptAt)) <==>
      NewWindow(q, u, limits)
  {
  }

  /** The account after a first reading at 85 percent whose warning was accepted. */
  function Warned(window: Time): Quota {
    Settled(Apply(NO_QUOTA, Usage(85.0, window), 1000, Limits(80.0, 100.0), true).quota,
            Slip(Warning, window, 1000), Accepted(1001))
  }

  /** One weekly window may be warned about twice: usage reported as 85, then 79, then again 85 percent,
      with the same reset instant throughout. */
  lemma OneWindowTwoWarnings(window: Time)
    requires window != 0
    ensures var limits := Limits(80.0, 100.0);
      var first := Apply(NO_QUOTA, Usage(85.0, window), 1000, limits, true);
      var dipped := Apply(Warned(window), Usage(79.0, window), 2000, limits, true);
      var again := Apply(dipped.quota, Usage(85.0, window), 3000, limits, true);
      && first.queued == {Slip(Warning, window, 1000)} && Warned(window).warningSent == 1001
      && dipped.queued == {} && again.queued == {Slip(Warning, window, 3000)}
      && StillWanted(again.quota, Slip(Warning, window, 3000))
  {
  }
}
