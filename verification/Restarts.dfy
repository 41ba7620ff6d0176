/** What a restart leaves of an account: saving, normalising and loading any state a history can reach, and
    which account a rollback finds in it. */
module Restarts {
  import opened Health
  import opened Incident
  import opened IncidentRuns
  import opened IncidentEffects
  import opened Accounts
  import opened Rollback
  import opened Store
  import opened Discovery
  import opened Moves

  // ---------- every reachable account survives ----------

  /** Observations as the classifier makes them: from the closed set of reasons, and with one where the
      suspicion can be confirmed. */
  predicate Classified(e: Event) {
    e.Observed? ==> !e.obs.reason.Legacy? && e.now != 0 && (Typed(e.obs) ==> e.obs.reason != NoReason)
  }

  lemma ClassifierIsClosed(s: Snapshot)
    ensures !Classify(s).reason.Legacy? && (Typed(Classify(s)) ==> Classify(s).reason != NoReason)
  {
  }

  predicate WellFormed(i: Incident) {
    && !i.reason.Legacy? && !i.suspectReason.Legacy?
    && if i.suspectSince == 0 then
         i.suspectClass == Unconfirmable && i.suspectTarget == Unknown && i.suspectReason == NoReason
       else i.suspectClass != Unconfirmable && IsFailure(i.suspectTarget) && i.suspectReason != NoReason
  }

  lemma ObservedWellFormed(i: Incident, obs: Observation, now: Time, cfg: Config, admit: bool)
    requires WellFormed(i) && Classified(Observed(obs, now, admit))
    ensures WellFormed(Observe(i, obs, now, cfg, admit).incident)
  {
    ObservedHealth(i, obs, now, cfg, admit);
    ObservedClock(i, obs, now, cfg, admit);
    hide Observe;
  }

  lemma SettledWellFormed(i: Incident, t: Ticket, delivery: Delivery, cfg: Config, admit: bool)
    requires WellFormed(i)
    ensures WellFormed(Settle(i, t, delivery, cfg, admit).incident)
  {
  }

  lemma {:induction false} ReachableIsWellFormed(events: seq<Event>, cfg: Config, n: nat)
    requires n <= |events| && forall m | 0 <= m < |events| :: Classified(events[m])
    ensures WellFormed(IncidentRuns.Before(World(FRESH, {}), events, n, cfg).incident)
  {
    hide WellFormed, Classified, Observe, Settle;
    if n > 0 {
      ReachableIsWellFormed(events, cfg, n - 1);
      var i := IncidentRuns.Before(World(FRESH, {}), events, n - 1, cfg).incident;
      match events[n - 1]
      case Observed(obs, now, admit) => ObservedWellFormed(i, obs, now, cfg, admit);
      case Settled(ticket, delivery, admit) => SettledWellFormed(i, ticket, delivery, cfg, admit);
      case Left(now, admit) => LeftWellFormed(i, now, cfg, admit);
    } else {
      FreshIsWellFormed();
    }
  }

  lemma LeftWellFormed(i: Incident, now: Time, cfg: Config, admit: bool)
    requires WellFormed(i)
    ensures WellFormed(MarkRemoved(i, now, cfg, admit).incident)
  {
  }

  lemma FreshIsWellFormed()
    ensures WellFormed(FRESH)
  {
  }

  /** Round trip over every history: the state file returns an account's incident exactly as it was if and
      only if the account is suspect or no suspicion of it is being timed; otherwise just that clock is lost. */
  lemma RestartIsInvisible(events: seq<Event>, cfg: Config, n: nat)
    requires n <= |events| && forall m | 0 <= m < |events| :: Classified(events[m])
    ensures var i := IncidentRuns.Before(World(FRESH, {}), events, n, cfg).incident;
      && (NormalizedIncident(i) == i <==> i.health == Suspect || i.suspectSince == 0)
      && NormalizedIncident(i).(suspectSince := i.suspectSince, suspectClass := i.suspectClass,
                                suspectTarget := i.suspectTarget, suspectReason := i.suspectReason) == i
      && (i.health != Suspect ==> NormalizedIncident(i).suspectSince == 0)
  {
    hide IncidentRuns.Before;
    ReachableIsWellFormed(events, cfg, n);
  }

  /** Of a file written by other means: a text outside the closed set becomes the general reason, and a
      suspicion is kept only whole, on a suspect account. */
  lemma ForeignStateIsTamed(r: Record, key: string)
    ensures var n := Normalized(r, key);
      && n == r.(key := key, incident := n.incident) && WellFormedReasons(n.incident)
      && n.incident == r.incident.(reason := n.incident.reason, suspectSince := n.incident.suspectSince,
                                   suspectClass := n.incident.suspectClass, suspectTarget := n.incident.suspectTarget,
                                   suspectReason := n.incident.suspectReason)
      && n.incident.reason == (if r.incident.reason.Legacy? then Unclassified else r.incident.reason)
      && (if r.incident.health == Suspect && r.incident.suspectClass != Unconfirmable
            && IsFailure(r.incident.suspectTarget) && r.incident.suspectReason != NoReason then
            && n.incident.suspectSince == r.incident.suspectSince
            && n.incident.suspectClass == r.incident.suspectClass
            && n.incident.suspectTarget == r.incident.suspectTarget
            && n.incident.suspectReason ==
                 if r.incident.suspectReason.Legacy? then Unclassified else r.incident.suspectReason
          else
            && n.incident.suspectSince == 0 && n.incident.suspectClass == Unconfirmable
            && n.incident.suspectTarget == Unknown && n.incident.suspectReason == NoReason)
  {
  }

  predicate WellFormedReasons(i: Incident) {
    !i.reason.Legacy? && !i.suspectReason.Legacy?
  }

  // ---------- which account a rollback finds ----------

  /** In every history, exactly the messages that have left a marker, alarms and recoveries, have a hook that
      can take it back. */
  lemma MarkedMessagesHaveHooks(w: World, events: seq<Event>, cfg: Config, n: nat, t: Ticket)
    requires LedgerInv(w) && History(w, events, cfg) && n <= |events|
    requires t in IncidentRuns.Before(w, events, n, cfg).tickets
    ensures Withdrawable(t) <==> t.kind in {FailureKind, ReminderKind, RecoveryKind}
  {
    hide IncidentRuns.Before, History;
    LedgerHolds(w, events, cfg, n);
    assert TicketInv(IncidentRuns.Before(w, events, n, cfg).incident.generation, t);
  }

  /** A rollback without an identity is about the account under its key. One with an identity is about the
      account that bears it: under its key if there is one there, and otherwise the only one there is. */
  lemma RollbackFinds(t: Table, e: Entry, k: string)
    ensures var bearers := set x | x in t && t[x].identity == e.identity;
      Targets(t, e, k) <==>
        if e.identity == "" then k == e.key && k in t
        else if e.key in bearers then k == e.key
        else bearers == {k}
  {
    var bearers := set x | x in t && t[x].identity == e.identity;
    if OnlyWithIdentity(t, e.identity, k) {
      assert bearers == {k};
    }
    if bearers == {k} {
      assert k in bearers;
      forall x | x in t && t[x].identity == e.identity ensures x == k {
        assert x in bearers;
      }
    }
  }

  /** A scan may move the account between the attempt and the rollback: as long as its identity is its own,
      the rollback still finds it, under whatever key it lies by then, and finds no other. */
  lemma RollbackFollowsAccount(t: Table, cs: seq<Listing>, counts: Counts, runtime: map<string, string>, e: Entry,
                               k: string, place: string)
    requires DistinctKeys(cs) && e.identity != "" && OnlyWithIdentity(t, e.identity, k)
    ensures Targets(Correlated(t, cs, counts, runtime), e, place) <==>
      place == NewPlace(Proposed(t, cs, counts, runtime), Chosen(t, cs, counts, runtime), k)
  {
    var p, chosen, after := Proposed(t, cs, counts, runtime), Chosen(t, cs, counts, runtime),
      Correlated(t, cs, counts, runtime);
    var home := NewPlace(p, chosen, k);
    CorrelationPermutes(t, cs, counts, runtime);
    hide Correlated, Proposed, Chosen, NewPlace, Targets, DistinctKeys;
    assert home in after && SameAccount(t[k], after[home]);
    forall x | x in after && after[x].identity == e.identity ensures x == home {
      var from :| from in t && NewPlace(p, chosen, from) == x;
      assert SameAccount(t[from], after[x]);
    }
    assert OnlyWithIdentity(after, e.identity, home);
    OnlyBearerIsTarget(after, e, home, place);
  }

  lemma OnlyBearerIsTarget(t: Table, e: Entry, home: string, place: string)
    requires e.identity != "" && OnlyWithIdentity(t, e.identity, home)
    ensures Targets(t, e, place) <==> place == home
  {
  }

  /** Registering remembers a valid rollback, and forgets exactly those whose attempts are over a day old. */
  lemma RegisterForgetsTheOld(entries: set<Entry>, e: Entry, now: Time, x: Entry)
    ensures x in Register(entries, e, now) <==>
      if e.attemptAt == 0 || e.generation == 0 then x in entries
      else x == e || (x in entries && now <= x.attemptAt + 24 * 60 * 60)
  {
  }
}
