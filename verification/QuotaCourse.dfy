/** The weekly usage of one account over a whole history of readings and deliveries: which window it is in,
    and which notices of that window the user has had. */
module QuotaCourse {
  import opened Health
  import opened Incident
  import opened Accounts
  import opened Quotas

  datatype Event =
    | Read(usage: Usage, now: Time, admit: bool)
    | Delivered(slip: Slip, delivery: Delivery)

  function After(q: Quota, e: Event, limits: Limits): Quota {
    match e
    case Read(usage, now, admit) => Apply(q, usage, now, limits, admit).quota
    case Delivered(slip, delivery) => Settled(q, slip, delivery)
  }

  /** The account's quota before event `n`, from a fresh one on. */
  function Before(events: seq<Event>, n: nat, limits: Limits): Quota
    requires n <= |events|
  {
    if n == 0 then NO_QUOTA else After(Before(events, n - 1, limits), events[n - 1], limits)
  }

  ghost predicate Clocked(events: seq<Event>) {
    forall n | 0 <= n < |events| ::
      match events[n]
      case Read(_, now, _) => now > 0
      case Delivered(_, delivery) => delivery.Accepted? ==> delivery.at > 0
  }

  /** Event `m` is the last reading before event `n`. */
  ghost predicate LastRead(events: seq<Event>, m: nat, n: nat)
    requires m < n <= |events|
  {
    events[m].Read? && forall j | m < j < n :: !events[j].Read?
  }

  ghost predicate Unread(events: seq<Event>, n: nat)
    requires n <= |events|
  {
    forall j | 0 <= j < n :: !events[j].Read?
  }

  /** The quota shows the last reading, and its window is named by that reading's reset instant. */
  ghost predicate Shows(q: Quota, events: seq<Event>, n: nat)
    requires n <= |events|
  {
    && (Unread(events, n) ==> q.percent == 0.0 && q.resetAt == q.windowKey == q.observedAt == 0)
    && forall m | 0 <= m < n && LastRead(events, m, n) ::
         && q.percent == events[m].usage.percent && q.observedAt == events[m].now
         && q.resetAt == q.windowKey == events[m].usage.resetAt
  }

  lemma AfterShows(q: Quota, e: Event, limits: Limits)
    ensures var next := After(q, e, limits);
      match e
      case Read(u, now, _) =>
        next.percent == u.percent && next.observedAt == now && next.resetAt == next.windowKey == u.resetAt
      case Delivered(_, _) =>
        && next.percent == q.percent && next.observedAt == q.observedAt && next.resetAt == q.resetAt
        && next.windowKey == q.windowKey
  {
  }

  lemma ShowsStep(q: Quota, events: seq<Event>, n: nat, limits: Limits)
    requires n < |events| && Shows(q, events, n)
    ensures Shows(After(q, events[n], limits), events, n + 1)
  {
    hide After;
    var k := n + 1;
    AfterShows(q, events[n], limits);
    if events[n].Read? {
      assert !Unread(events, k);
      assert forall m | 0 <= m < k && LastRead(events, m, k) :: m == n;
    } else {
      assert Unread(events, k) ==> Unread(events, n);
      assert forall m | 0 <= m < k && LastRead(events, m, k) :: m < n && LastRead(events, m, n);
    }
  }

  lemma {:induction false} QuotaShowsLastReading(events: seq<Event>, n: nat, limits: Limits)
    requires n <= |events|
    ensures Shows(Before(events, n, limits), events, n)
  {
    hide After, Shows;
    if n > 0 {
      QuotaShowsLastReading(events, n - 1, limits);
      ShowsStep(Before(events, n - 1, limits), events, n - 1, limits);
    } else {
      NothingShown(events);
    }
  }

  lemma NothingShown(events: seq<Event>)
    ensures Shows(NO_QUOTA, events, 0)
  {
  }

  /** Reading `n` opens a window: the last reading before it named another reset instant, or stood at the
      warning line or above while this one is below; the first reading opens one by naming an instant. */
  ghost predicate Opens(events: seq<Event>, n: nat, limits: Limits)
    requires n < |events|
  {
    && events[n].Read?
    && var u := events[n].usage;
       || (Unread(events, n) && u.resetAt != 0)
       || exists m :: 0 <= m < n && LastRead(events, m, n)
            && (events[m].usage.resetAt != u.resetAt
                || u.percent < limits.warning <= events[m].usage.percent)
  }

  lemma {:induction false} SomeLastRead(events: seq<Event>, n: nat)
    requires n <= |events| && !Unread(events, n)
    ensures exists m :: 0 <= m < n && LastRead(events, m, n)
  {
    if events[n - 1].Read? {
      assert LastRead(events, n - 1, n);
    } else {
      SomeLastRead(events, n - 1);
      var m :| 0 <= m < n - 1 && LastRead(events, m, n - 1);
      assert LastRead(events, m, n);
    }
  }

  lemma OpensIsNewWindow(q: Quota, events: seq<Event>, n: nat, limits: Limits)
    requires n < |events| && events[n].Read? && Clocked(events) && Shows(q, events, n)
    ensures Opens(events, n, limits) <==> NewWindow(q, events[n].usage, limits)
  {
    if !Unread(events, n) {
      SomeLastRead(events, n);
    }
  }

  /** The user receives the notice at event `m`, and it is one of the window the account is in. */
  ghost predicate Had(events: seq<Event>, m: nat, notice: Notice)
    requires m < |events|
  {
    && events[m].Delivered? && events[m].delivery.Accepted? && events[m].slip.notice == notice
    && (Unread(events, m) ==> events[m].slip.windowKey == 0)
    && forall r | 0 <= r < m && LastRead(events, r, m) :: events[m].slip.windowKey == events[r].usage.resetAt
  }

  /** The user has had the notice in the window that the account is still in before event `n`. */
  ghost predicate HadSince(events: seq<Event>, m: nat, n: nat, notice: Notice, limits: Limits)
    requires m < n <= |events|
  {
    Had(events, m, notice) && forall j | m < j < n :: !Opens(events, j, limits)
  }

  ghost predicate HasHad(events: seq<Event>, n: nat, notice: Notice, limits: Limits)
    requires n <= |events|
  {
    exists m :: 0 <= m < n && HadSince(events, m, n, notice, limits)
  }

  function SentAt(q: Quota, notice: Notice): Time {
    if notice.Exhaustion? then q.exhaustedSent else q.warningSent
  }

  lemma HasHadStep(events: seq<Event>, n: nat, notice: Notice, limits: Limits)
    requires n < |events|
    ensures HasHad(events, n + 1, notice, limits) <==>
      Had(events, n, notice) || (HasHad(events, n, notice, limits) && !Opens(events, n, limits))
  {
    hide Had, Opens;
    var k := n + 1;
    if m :| 0 <= m < k && HadSince(events, m, k, notice, limits) {
      if m < n {
        assert HadSince(events, m, n, notice, limits);
        assert !Opens(events, n, limits);
      }
    }
    if Had(events, n, notice) {
      assert HadSince(events, n, k, notice, limits);
    }
    if m :| 0 <= m < n && HadSince(events, m, n, notice, limits) {
      if !Opens(events, n, limits) {
        assert HadSince(events, m, k, notice, limits);
      }
    }
  }

  lemma HadIsCurrent(q: Quota, events: seq<Event>, n: nat, notice: Notice)
    requires n < |events| && events[n].Delivered? && Shows(q, events, n)
    ensures Had(events, n, notice) <==>
      events[n].delivery.Accepted? && events[n].slip.notice == notice && events[n].slip.windowKey == q.windowKey
  {
    if !Unread(events, n) {
      SomeLastRead(events, n);
    }
  }

  lemma SentStep(q: Quota, events: seq<Event>, n: nat, notice: Notice, limits: Limits)
    requires n < |events| && Clocked(events) && Shows(q, events, n)
    ensures SentAt(After(q, events[n], limits), notice) != 0 <==>
      Had(events, n, notice) || (SentAt(q, notice) != 0 && !Opens(events, n, limits))
  {
    if events[n].Read? {
      OpensIsNewWindow(q, events, n, limits);
    } else {
      HadIsCurrent(q, events, n, notice);
    }
    hide Had, Shows, Opens;
  }

  /** A latch is set if and only if the user has had that notice since the window last opened. */
  lemma {:induction false} SentLatchIsExact(events: seq<Event>, n: nat, notice: Notice, limits: Limits)
    requires n <= |events| && Clocked(events)
    ensures SentAt(Before(events, n, limits), notice) != 0 <==> HasHad(events, n, notice, limits)
  {
    hide After, Had, Opens, Shows, HadSince, Clocked;
    if n > 0 {
      SentLatchIsExact(events, n - 1, notice, limits);
      QuotaShowsLastReading(events, n - 1, limits);
      SentStep(Before(events, n - 1, limits), events, n - 1, notice, limits);
      HasHadStep(events, n - 1, notice, limits);
    }
  }

  /** A reading queues a notice if and only if usage is in its range, the user has not had it, nor, for a
      warning, the exhaustion, since the window opened, the last attempt in the window is long enough
      ago, and the dispatcher takes it. */
  lemma NoticeQueuedExactly(events: seq<Event>, n: nat, limits: Limits, slip: Slip)
    requires n < |events| && events[n].Read? && Clocked(events)
    ensures var q, e := Before(events, n, limits), events[n];
      slip in Apply(q, e.usage, e.now, limits, e.admit).queued <==>
        && e.admit && slip.windowKey == e.usage.resetAt && slip.attemptAt == e.now
        && (if slip.notice.Exhaustion? then limits.exhausted <= e.usage.percent
            else limits.warning <= e.usage.percent < limits.exhausted)
        && (Opens(events, n, limits)
            || (!HasHad(events, n, slip.notice, limits) && !HasHad(events, n, Exhaustion, limits)
                && Due(if slip.notice.Exhaustion? then q.exhaustedAttempt else q.warningAttempt, RETRY_AFTER, e.now)))
  {
    var q := Before(events, n, limits);
    hide After, Shows, Opens, HasHad, Clocked;
    QuotaShowsLastReading(events, n, limits);
    OpensIsNewWindow(q, events, n, limits);
    SentLatchIsExact(events, n, slip.notice, limits);
    SentLatchIsExact(events, n, Exhaustion, limits);
  }

  /** The two markers show the last attempt of their notice: a new window forgets them, and only the notice
      that set one takes it back. */
  lemma MarkersFollow(q: Quota, e: Event, limits: Limits)
    ensures var next := After(q, e, limits);
      match e
      case Read(u, now, admit) =>
        var queued := Apply(q, u, now, limits, admit).queued;
        && next.warningAttempt == (if Slip(Warning, u.resetAt, now) in queued then now
                                   else if NewWindow(q, u, limits) then 0 else q.warningAttempt)
        && next.exhaustedAttempt == (if Slip(Exhaustion, u.resetAt, now) in queued then now
                                     else if NewWindow(q, u, limits) then 0 else q.exhaustedAttempt)
      case Delivered(slip, delivery) =>
        var own := delivery.Unattempted? && slip.windowKey == q.windowKey;
        && next.warningAttempt == (if own && slip.notice.Warning? && slip.attemptAt == q.warningAttempt then 0
                                   else q.warningAttempt)
        && next.exhaustedAttempt == (if own && slip.notice.Exhaustion? && slip.attemptAt == q.exhaustedAttempt then 0
                                     else q.exhaustedAttempt)
  {
  }
}
