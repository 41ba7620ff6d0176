/** Usage failures wake the scan loop: the pending set, the one-slot signal channel, and the loop. */
module Wakeup {
  import opened Health

  /** Where the scan loop is. */
  datatype Phase = Grace | Drained | Woken | MustScan | Scanning | Idle | Stopped

  /** `sending` holds the observers that found nothing pending and have not yet tried their send.
      `owed` is the record: what was reported since the last scan began and not pruned since. */
  datatype State = State(pending: set<string>, token: bool, phase: Phase, sending: set<nat>, owed: set<string>)

  const START := State({}, false, Grace, {}, {})

  datatype Event =
    | Report(observer: nat, index: string)
    | TrySend(observer: nat)
    | Prune(gone: set<string>)
    | ManualScan
    | Loop(step: LoopStep)

  datatype LoopStep = EndGrace | Clear | BeginScan | EndScan | TakeToken | Tick | Quit

  // ---------- the steps ----------

  /** The locked part of `ObserveUsageFailure`. */
  function Reported(s: State, observer: nat, index: string): State {
    s.(pending := s.pending + {index}, owed := s.owed + {index},
       sending := if s.pending == {} then s.sending + {observer} else s.sending)
  }

  /** Its send, which finds the slot free or full. */
  function Sent(s: State, observer: nat): State {
    s.(token := true, sending := s.sending - {observer})
  }

  function Pruned(s: State, gone: set<string>): State {
    s.(pending := s.pending - gone, owed := s.owed - gone)
  }

  predicate Enabled(s: State, step: LoopStep) {
    match step
    case EndGrace => s.phase == Grace
    case Clear => s.phase == Drained || s.phase == Woken
    case BeginScan => s.phase == MustScan
    case EndScan => s.phase == Scanning
    case TakeToken => s.phase == Idle && s.token
    case Tick => s.phase == Idle
    case Quit => s.phase in {Grace, Woken, Idle}
  }

  function Stepped(s: State, step: LoopStep): State {
    match step
    case EndGrace => s.(phase := Drained, token := false)
    case Clear => s.(phase := MustScan, pending := {})
    case BeginScan => s.(phase := Scanning, owed := {})
    case EndScan => s.(phase := Idle)
    case TakeToken => s.(phase := Woken, token := false)
    case Tick => s.(phase := Scanning, owed := {})
    case Quit => s.(phase := Stopped)
  }

  predicate Possible(s: State, e: Event) {
    match e
    case Report(observer, _) => observer !in s.sending
    case TrySend(observer) => observer in s.sending
    case Prune(_) => true
    case ManualScan => true
    case Loop(step) => Enabled(s, step)
  }

  function Next(s: State, e: Event): State {
    match e
    case Report(observer, index) => Reported(s, observer, index)
    case TrySend(observer) => Sent(s, observer)
    case Prune(gone) => Pruned(s, gone)
    case ManualScan => s.(owed := {})
    case Loop(step) => Stepped(s, step)
  }

  function After(events: seq<Event>, n: nat): State
    requires n <= |events|
  {
    if n == 0 then START else Next(After(events, n - 1), events[n - 1])
  }

  ghost predicate Run(events: seq<Event>) {
    forall n | 0 <= n < |events| :: Possible(After(events, n), events[n])
  }

  // ---------- no wakeup is lost ----------

  /** Somebody is on the way to clearing the pending set. */
  predicate Coming(s: State) {
    s.token || s.phase in {Drained, Woken} || s.sending != {}
  }

  predicate WakeInv(s: State) {
    && (s.pending != {} ==> Coming(s) || s.phase == Stopped)
    && (s.owed - s.pending != {} ==> s.phase in {MustScan, Stopped})
  }

  lemma WakeStep(s: State, e: Event)
    requires WakeInv(s) && Possible(s, e)
    ensures WakeInv(Next(s, e))
  {
    match e
    case Report(observer, index) =>
      assert Next(s, e).owed - Next(s, e).pending <= s.owed - s.pending;
      if s.pending == {} { assert observer in Next(s, e).sending; }
    case Prune(gone) => assert Next(s, e).owed - Next(s, e).pending <= s.owed - s.pending;
    case ManualScan =>
    case TrySend(_) =>
    case Loop(step) =>
  }

  /** While the loop runs: if anything is pending, a token is in the channel, or the loop has taken or
      drained one and not yet cleared, or an observer is about to send.  What was cleared before a scan
      saw it is about to be scanned. */
  lemma {:induction false} NoLostWakeup(events: seq<Event>, n: nat)
    requires Run(events) && n <= |events|
    ensures WakeInv(After(events, n))
  {
    if n > 0 {
      NoLostWakeup(events, n - 1);
      WakeStep(After(events, n - 1), events[n - 1]);
    }
  }

  // ---------- and each leads to a scan ----------

  predicate Begins(e: Event) {
    e == Loop(BeginScan) || e == Loop(Tick) || e == ManualScan
  }

  /** How many loop steps are left before a scan begins, once the loop has been signalled. */
  function Distance(phase: Phase): nat {
    match phase
    case Scanning => 4
    case Idle => 3
    case Grace => 3
    case Drained => 2
    case Woken => 2
    case MustScan => 1
    case Stopped => 0
  }

  /** Signalled: the loop cannot go to sleep before it has scanned. */
  predicate Signalled(s: State) {
    s.token || s.phase in {Grace, Drained, Woken, MustScan}
  }

  lemma SignalLeadsToScan(s: State, e: Event)
    requires Signalled(s) && Possible(s, e) && !Begins(e) && e != Loop(Quit)
    ensures Signalled(Next(s, e))
    ensures if e.Loop? then Distance(Next(s, e).phase) < Distance(s.phase)
      else Distance(Next(s, e).phase) == Distance(s.phase)
  {
  }

  /** A signalled loop that has not stopped always has a step to take. */
  lemma SignalledCanStep(s: State)
    requires Signalled(s) && s.phase != Stopped
    ensures exists step :: Enabled(s, step) && step != Quit && step != Tick
  {
    var step := match s.phase
      case Grace => EndGrace
      case Drained => Clear
      case Woken => Clear
      case MustScan => BeginScan
      case Scanning => EndScan
      case _ => TakeToken;
    assert Enabled(s, step);
  }

  function LoopSteps(events: seq<Event>, i: nat, k: nat): nat
    requires i <= k <= |events|
    decreases k
  {
    if i == k then 0 else LoopSteps(events, i, k - 1) + (if events[k - 1].Loop? then 1 else 0)
  }

  lemma {:induction false} DistanceFalls(events: seq<Event>, i: nat, k: nat)
    requires Run(events) && i <= k <= |events| && Signalled(After(events, i))
    requires forall m | i <= m < k :: !Begins(events[m]) && events[m] != Loop(Quit)
    ensures Signalled(After(events, k))
    ensures LoopSteps(events, i, k) + Distance(After(events, k).phase) <= Distance(After(events, i).phase)
    decreases k
  {
    hide Possible, Next, Distance, Signalled;
    if i < k {
      DistanceFalls(events, i, k - 1);
      SignalLeadsToScan(After(events, k - 1), events[k - 1]);
    }
  }

  /** A reported failure, not pruned, is followed by a scan: once no observer is about to send, the loop
      begins one within four of its own steps, however many reports and prunings come in between. */
  lemma ReportLeadsToScan(events: seq<Event>, i: nat, k: nat)
    requires Run(events) && i <= k <= |events|
    requires After(events, i).owed != {} && After(events, i).sending == {} && After(events, i).phase != Stopped
    requires forall m | i <= m < k :: !Begins(events[m]) && events[m] != Loop(Quit)
    ensures LoopSteps(events, i, k) <= 4 - 1 + (if After(events, i).phase == Scanning then 1 else 0)
    ensures After(events, k).phase != Stopped ==>
      exists step :: Enabled(After(events, k), step) && step != Quit && step != Tick
  {
    var s := After(events, i);
    NoLostWakeup(events, i);
    if s.pending == {} {
      assert s.owed - s.pending == s.owed;
    }
    DistanceFalls(events, i, k);
    if After(events, k).phase != Stopped {
      SignalledCanStep(After(events, k));
    }
  }

  // ---------- the object ----------

  datatype Evidence = Evidence(status: int, observedAt: Time)

  /** The pending set, its evidence and the one-slot channel; `state` is the state of the protocol. */
  class Signals {
    var pending: set<string>
    var evidence: map<string, Evidence>
    var signalled: bool
    ghost var state: State

    ghost predicate Valid()
      reads this
    {
      state.pending == pending && state.token == signalled
    }

    constructor ()
      ensures Valid() && state == START && evidence == map[]
    {
      pending, evidence, signalled, state := {}, map[], false, START;
    }

    /** The locked part of `ObserveUsageFailure`; `first` says that a send must follow. */
    method ObserveUsageFailure(ghost observer: nat, index: string, status: int, enabled: bool, now: Time)
      returns (taken: bool, first: bool)
      requires Valid()
      modifies this`pending, this`evidence, this`state
      ensures Valid()
      ensures taken <==> index != "" && enabled && IsClassifiable(status)
      ensures if taken then
          && state == Next(old(state), Report(observer, index)) && first == (old(pending) == {})
          && evidence == old(evidence)[index := Evidence(status, now)]
        else state == old(state) && evidence == old(evidence) && !first
    {
      taken, first := false, false;
      if index == "" || !enabled || !IsClassifiable(status) {
        return;
      }
      evidence := evidence[index := Evidence(status, now)];
      first := pending == {};
      pending := pending + {index};
      state := Reported(state, observer, index);
      taken := true;
    }

    /** A send that is dropped when the slot is full. */
    method Signal(ghost observer: nat)
      requires Valid()
      modifies this`signalled, this`state
      ensures Valid() && state == Next(old(state), TrySend(observer)) && signalled
    {
      if !signalled {
        signalled := true;
      }
      state := Sent(state, observer);
    }

    /** After the startup grace an old token is taken out, if there is one. */
    method DrainSignal()
      requires Valid()
      modifies this`signalled, this`state
      ensures Valid() && state == Next(old(state), Loop(EndGrace)) && !signalled
    {
      if signalled {
        signalled := false;
      }
      state := Stepped(state, EndGrace);
    }

    method ClearPending()
      requires Valid()
      modifies this`pending, this`state
      ensures Valid() && state == Next(old(state), Loop(Clear)) && pending == {}
    {
      pending := {};
      state := Stepped(state, Clear);
    }

    /** `pruneFailureEvidence`: evidence about unlisted accounts and old evidence goes, and its pending mark with it. */
    method PruneEvidence(active: set<string>, now: Time, ttl: nat)
      requires Valid()
      modifies this`pending, this`evidence, this`state
      ensures Valid()
      ensures var gone := set k | k in old(evidence) && (k !in active || now - old(evidence)[k].observedAt > ttl);
        evidence == old(evidence) - gone && state == Next(old(state), Prune(gone))
    {
      ghost var gone := set k | k in evidence && (k !in active || now - evidence[k].observedAt > ttl);
      ghost var evidence0, pending0, state0 := evidence, pending, state;
      var todo := evidence.Keys;
      while todo != {}
        invariant todo <= evidence0.Keys && state == state0
        invariant evidence == evidence0 - (gone - todo) && pending == pending0 - (gone - todo)
        decreases todo
      {
        var k :| k in todo;
        assert k in evidence && evidence[k] == evidence0[k];
        if k !in active || now - evidence[k].observedAt > ttl {
          assert gone - (todo - {k}) == (gone - todo) + {k};
          evidence := evidence - {k};
          pending := pending - {k};
        } else {
          assert gone - (todo - {k}) == gone - todo;
        }
        todo := todo - {k};
      }
      assert gone - {} == gone;
      state := Pruned(state, gone);
    }
  }
}
