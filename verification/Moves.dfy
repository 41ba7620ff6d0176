/** Moving account records to the new keys of replaced credentials, all at once. */
module Moves {
  import opened Text
  import opened Health
  import opened Incident
  import opened Accounts
  import opened Rollback
  import opened Discovery

  datatype Move = Move(oldKey: string, newKey: string, authIndex: string)

  /** How many candidates of a scan show an identity of a provider. */
  type Counts = map<(string, string), nat>

  function Count(counts: Counts, provider: string, identity: string): nat {
    if (provider, identity) in counts then counts[(provider, identity)] else 0
  }

  // ---------- what is proposed ----------

  ghost predicate Carries(t: Table, c: Listing, k: string) {
    k in t && k != KeyOf(c) && t[k].provider == c.provider && t[k].identity == c.identity
  }

  ghost predicate OnlyCarrier(t: Table, c: Listing, k: string) {
    Carries(t, c, k) && forall x | Carries(t, c, x) :: x == k
  }

  /** The candidate may claim an old record: its identity is known and unique in the scan, its runtime
      read does not contradict it, and its own key does not already hold that account. */
  predicate MayClaim(t: Table, c: Listing, counts: Counts, runtime: map<string, string>) {
    && c.identity != "" && Count(counts, c.provider, c.identity) == 1
    && !(KeyOf(c) in runtime && runtime[KeyOf(c)] != "" && runtime[KeyOf(c)] != c.identity)
    && !(KeyOf(c) in t && t[KeyOf(c)].provider == c.provider && t[KeyOf(c)].identity == c.identity)
  }

  ghost predicate Claims(t: Table, c: Listing, counts: Counts, runtime: map<string, string>, k: string) {
    MayClaim(t, c, counts, runtime) && OnlyCarrier(t, c, k)
  }

  function MoveTo(k: string, c: Listing): Move {
    Move(k, KeyOf(c), TrimSpace(c.authIndex))
  }

  ghost predicate Claimed(t: Table, cs: seq<Listing>, counts: Counts, runtime: map<string, string>, k: string) {
    exists c :: c in cs && Claims(t, c, counts, runtime, k)
  }

  /** The proposed moves, by the key they leave. */
  ghost function Proposed(t: Table, cs: seq<Listing>, counts: Counts, runtime: map<string, string>): map<string, Move> {
    map k | k in t && Claimed(t, cs, counts, runtime, k) ::
      (var c :| c in cs && Claims(t, c, counts, runtime, k); MoveTo(k, c))
  }

  /** Two candidates never claim one identity that counts once. */
  ghost predicate CountsCover(cs: seq<Listing>, counts: Counts) {
    forall c, d | c in cs && d in cs && c != d && c.identity != "" && c.provider == d.provider
      && c.identity == d.identity ::
      Count(counts, c.provider, c.identity) >= 2
  }

  lemma ClaimantUnique(t: Table, cs: seq<Listing>, counts: Counts, runtime: map<string, string>, c: Listing, d: Listing,
                       k: string)
    requires CountsCover(cs, counts) && c in cs && d in cs
    requires Claims(t, c, counts, runtime, k) && Claims(t, d, counts, runtime, k)
    ensures c == d
  {
  }

  lemma ProposedBy(t: Table, cs: seq<Listing>, counts: Counts, runtime: map<string, string>, c: Listing, k: string)
    requires CountsCover(cs, counts) && c in cs && Claims(t, c, counts, runtime, k)
    ensures k in Proposed(t, cs, counts, runtime) && Proposed(t, cs, counts, runtime)[k] == MoveTo(k, c)
  {
    hide Claims;
    assert k in t by { ClaimsIn(t, c, counts, runtime, k); }
    var d :| d in cs && Claims(t, d, counts, runtime, k) && Proposed(t, cs, counts, runtime)[k] == MoveTo(k, d);
    ClaimantUnique(t, cs, counts, runtime, c, d, k);
  }

  lemma ClaimsIn(t: Table, c: Listing, counts: Counts, runtime: map<string, string>, k: string)
    requires Claims(t, c, counts, runtime, k)
    ensures k in t && k != KeyOf(c)
  {
  }

  /** Distinct candidates propose distinct destinations. */
  lemma DestinationsDiffer(t: Table, cs: seq<Listing>, counts: Counts, runtime: map<string, string>, a: string,
                           b: string)
    requires DistinctKeys(cs)
    requires a in Proposed(t, cs, counts, runtime) && b in Proposed(t, cs, counts, runtime) && a != b
    ensures Proposed(t, cs, counts, runtime)[a].newKey != Proposed(t, cs, counts, runtime)[b].newKey
  {
    hide KeyOf;
    var p := Proposed(t, cs, counts, runtime);
    var c :| c in cs && Claims(t, c, counts, runtime, a) && p[a] == MoveTo(a, c);
    var d :| d in cs && Claims(t, d, counts, runtime, b) && p[b] == MoveTo(b, d);
    assert KeyOf(c) == KeyOf(d) ==> c == d;
  }

  // ---------- which proposals can be carried out together ----------

  /** Every destination is free, or left by another of these moves. */
  ghost predicate Closed(held: set<string>, p: map<string, Move>, sources: set<string>) {
    sources <= p.Keys && forall s | s in sources && p[s].newKey in held :: p[s].newKey in sources
  }

  /** The union of all sets of moves that can be carried out together. */
  ghost function Feasible(held: set<string>, p: map<string, Move>): set<string> {
    set s | s in p && InClosed(held, p, s)
  }

  ghost predicate InClosed(held: set<string>, p: map<string, Move>, s: string) {
    exists sources :: Closed(held, p, sources) && s in sources
  }

  /** That union is itself such a set, and so the greatest one. */
  lemma FeasibleIsGreatest(held: set<string>, p: map<string, Move>)
    ensures Closed(held, p, Feasible(held, p))
    ensures forall sources | Closed(held, p, sources) :: sources <= Feasible(held, p)
  {
    forall s | s in Feasible(held, p) && p[s].newKey in held ensures p[s].newKey in Feasible(held, p) {
      var sources :| Closed(held, p, sources) && s in sources;
      assert p[s].newKey in sources;
    }
  }

  /** Following the destinations from `s` leads, within `n` more moves, to an account that stays. */
  ghost predicate Stuck(held: set<string>, p: map<string, Move>, s: string, n: nat)
    decreases n
  {
    && s in p && p[s].newKey in held
    && (p[s].newKey !in p || (n > 0 && Stuck(held, p, p[s].newKey, n - 1)))
  }

  ghost predicate EndsStuck(held: set<string>, p: map<string, Move>, s: string) {
    exists n: nat :: Stuck(held, p, s, n)
  }

  lemma {:induction false} StuckIsOut(held: set<string>, p: map<string, Move>, s: string, n: nat, sources: set<string>)
    requires Stuck(held, p, s, n) && Closed(held, p, sources)
    ensures s !in sources
    decreases n
  {
    if s in sources && p[s].newKey in p {
      StuckIsOut(held, p, p[s].newKey, n - 1, sources);
    }
  }

  /** A proposal fails exactly when its chain of destinations ends at an account that stays; swaps,
      cycles and chains into free keys are carried out. */
  lemma FeasibleIffNotStuck(held: set<string>, p: map<string, Move>, s: string)
    requires s in p
    ensures s !in Feasible(held, p) <==> EndsStuck(held, p, s)
  {
    FeasibleIsGreatest(held, p);
    if EndsStuck(held, p, s) {
      var n: nat :| Stuck(held, p, s, n);
      StuckIsOut(held, p, s, n, Feasible(held, p));
    }
    var loose := set x | x in p && !EndsStuck(held, p, x);
    assert Closed(held, p, loose) by {
      forall x | x in loose && p[x].newKey in held ensures p[x].newKey in loose {
        assert !Stuck(held, p, x, 0);
        if EndsStuck(held, p, p[x].newKey) {
          var n: nat :| Stuck(held, p, p[x].newKey, n);
          assert Stuck(held, p, x, n + 1);
        }
      }
    }
    assert loose <= Feasible(held, p);
  }

  /** The fixpoint loop of `correlateReplacementCandidates`: whatever order the map is visited in, what
      is left is the greatest feasible set. */
  method KeepFeasible(held: set<string>, proposed: map<string, Move>) returns (valid: map<string, Move>)
    ensures valid.Keys == Feasible(held, proposed)
    ensures forall s | s in valid :: valid[s] == proposed[s]
  {
    hide Feasible;
    ghost var best := Feasible(held, proposed);
    FeasibleIsGreatest(held, proposed);
    valid := proposed;
    var changed := true;
    while changed
      invariant best <= valid.Keys <= proposed.Keys
      invariant forall s | s in valid :: valid[s] == proposed[s]
      invariant !changed ==> Closed(held, proposed, valid.Keys)
      decreases |valid|, changed
    {
      changed := false;
      var before := valid;
      var todo := valid.Keys;
      while todo != {}
        invariant todo <= before.Keys && best <= valid.Keys <= before.Keys
        invariant forall s | s in valid :: valid[s] == proposed[s]
        invariant changed ==> valid.Keys < before.Keys
        invariant !changed ==> valid == before
        invariant !changed ==> forall s | s in valid.Keys - todo && valid[s].newKey in held :: valid[s].newKey in valid
        decreases todo
      {
        var source :| source in todo;
        todo := todo - {source};
        if source in valid && valid[source].newKey in held && valid[source].newKey !in valid {
          valid := valid - {source};
          changed := true;
        }
      }
      if changed {
        SmallerKeys(valid, before);
      }
    }
    assert valid.Keys <= best;
  }

  lemma SmallerKeys(a: map<string, Move>, b: map<string, Move>)
    requires a.Keys < b.Keys
    ensures |a| < |b|
  {
    SubsetSize(a.Keys, b.Keys);
  }

  lemma SubsetSize(a: set<string>, b: set<string>)
    requires a < b
    ensures |a| < |b|
  {
    assert b - a != {};
    var x :| x in b - a;
    assert |b| == |a| + |b - a| by { assert b == a + (b - a); }
    assert b - a == (b - a - {x}) + {x};
  }

  // ---------- what the moves do ----------

  function NewPlace(p: map<string, Move>, sources: set<string>, k: string): string {
    if k in sources && k in p then p[k].newKey else k
  }

  function Rehomed(r: Record, m: Move): Record {
    r.(key := m.newKey, authIndex := m.authIndex, removedAt := 0)
  }

  function Settled(t: Table, p: map<string, Move>, sources: set<string>, k: string): Record
    requires k in t
  {
    if k in sources && k in p then Rehomed(t[k], p[k]) else t[k]
  }

  ghost function Places(t: Table, p: map<string, Move>, sources: set<string>): set<string> {
    set k | k in t :: NewPlace(p, sources, k)
  }

  ghost function From(t: Table, p: map<string, Move>, sources: set<string>, place: string): string
    requires place in Places(t, p, sources)
  {
    var k :| k in t && NewPlace(p, sources, k) == place; k
  }

  /** The table after the moves. */
  ghost function Moved(t: Table, p: map<string, Move>, sources: set<string>): Table {
    map place | place in Places(t, p, sources) ::
      Settled(t, p, sources, if place in Places(t, p, sources) then From(t, p, sources, place) else place)
  }

  ghost predicate Separate(p: map<string, Move>) {
    forall a, b | a in p && b in p && a != b :: p[a].newKey != p[b].newKey
  }

  /** No two accounts end up under one key. */
  lemma PlacesDiffer(t: Table, p: map<string, Move>, sources: set<string>, a: string, b: string)
    requires Separate(p) && Closed(t.Keys, p, sources) && a in t && b in t && a != b
    ensures NewPlace(p, sources, a) != NewPlace(p, sources, b)
  {
  }

  lemma MovedAt(t: Table, p: map<string, Move>, sources: set<string>, k: string)
    requires Separate(p) && Closed(t.Keys, p, sources) && k in t
    ensures NewPlace(p, sources, k) in Moved(t, p, sources)
    ensures Moved(t, p, sources)[NewPlace(p, sources, k)] == Settled(t, p, sources, k)
  {
    var place := NewPlace(p, sources, k);
    assert place in Places(t, p, sources);
    var from := From(t, p, sources, place);
    if from != k {
      PlacesDiffer(t, p, sources, from, k);
    }
  }

  lemma {:induction false} PlacesCount(keys: set<string>, t: Table, p: map<string, Move>, sources: set<string>)
    requires Separate(p) && Closed(t.Keys, p, sources) && keys <= t.Keys
    ensures |set k | k in keys :: NewPlace(p, sources, k)| == |keys|
    decreases keys
  {
    hide NewPlace;
    if keys != {} {
      var x :| x in keys;
      var rest := keys - {x};
      PlacesCount(rest, t, p, sources);
      var image := set k | k in rest :: NewPlace(p, sources, k);
      forall k | k in rest ensures NewPlace(p, sources, k) != NewPlace(p, sources, x) {
        PlacesDiffer(t, p, sources, k, x);
      }
      assert (set k | k in keys :: NewPlace(p, sources, k)) == image + {NewPlace(p, sources, x)};
    } else {
      assert (set k | k in keys :: NewPlace(p, sources, k)) == {};
    }
  }

  /** The moves permute the accounts: none is lost, none is doubled, none is overwritten, and all an
      account carries but its key, index and removal time goes with it. */
  lemma MovesPermute(t: Table, p: map<string, Move>, sources: set<string>)
    requires Separate(p) && Closed(t.Keys, p, sources)
    ensures |Moved(t, p, sources)| == |t|
    ensures forall k | k in t ::
      (var place := NewPlace(p, sources, k);
       place in Moved(t, p, sources) && Moved(t, p, sources)[place] == Settled(t, p, sources, k))
    ensures forall a, b | a in t && b in t && a != b :: NewPlace(p, sources, a) != NewPlace(p, sources, b)
    ensures forall place | place in Moved(t, p, sources) :: exists k :: k in t && NewPlace(p, sources, k) == place
  {
    PlacesCount(t.Keys, t, p, sources);
    assert Moved(t, p, sources).Keys == Places(t, p, sources);
    forall k | k in t ensures NewPlace(p, sources, k) in Moved(t, p, sources)
      && Moved(t, p, sources)[NewPlace(p, sources, k)] == Settled(t, p, sources, k)
    {
      MovedAt(t, p, sources, k);
    }
    forall a, b | a in t && b in t && a != b ensures NewPlace(p, sources, a) != NewPlace(p, sources, b) {
      PlacesDiffer(t, p, sources, a, b);
    }
    hide Moved, NewPlace;
  }

  // ---------- the whole correlation ----------

  ghost function Chosen(t: Table, cs: seq<Listing>, counts: Counts, runtime: map<string, string>): set<string> {
    Feasible(t.Keys, Proposed(t, cs, counts, runtime))
  }

  ghost function Correlated(t: Table, cs: seq<Listing>, counts: Counts, runtime: map<string, string>): Table {
    Moved(t, Proposed(t, cs, counts, runtime), Chosen(t, cs, counts, runtime))
  }

  lemma ProposalsSeparate(t: Table, cs: seq<Listing>, counts: Counts, runtime: map<string, string>)
    requires DistinctKeys(cs)
    ensures Separate(Proposed(t, cs, counts, runtime))
    ensures Closed(t.Keys, Proposed(t, cs, counts, runtime), Chosen(t, cs, counts, runtime))
  {
    FeasibleIsGreatest(t.Keys, Proposed(t, cs, counts, runtime));
    var p := Proposed(t, cs, counts, runtime);
    forall a, b | a in p && b in p && a != b ensures p[a].newKey != p[b].newKey {
      DestinationsDiffer(t, cs, counts, runtime, a, b);
    }
  }

  /** The same but for key, index and removal time. */
  predicate SameAccount(a: Record, b: Record) {
    b == a.(key := b.key, authIndex := b.authIndex, removedAt := b.removedAt)
  }

  lemma SettledIsSame(t: Table, p: map<string, Move>, sources: set<string>, k: string)
    requires k in t
    ensures SameAccount(t[k], Settled(t, p, sources, k))
  {
  }

  /** Correlation permutes the accounts, swaps and cycles included. */
  lemma CorrelationPermutes(t: Table, cs: seq<Listing>, counts: Counts, runtime: map<string, string>)
    requires DistinctKeys(cs)
    ensures var p, chosen, after := Proposed(t, cs, counts, runtime), Chosen(t, cs, counts, runtime),
      Correlated(t, cs, counts, runtime);
      && |after| == |t|
      && (forall a, b | a in t && b in t && a != b :: NewPlace(p, chosen, a) != NewPlace(p, chosen, b))
      && (forall place | place in after :: exists k :: k in t && NewPlace(p, chosen, k) == place)
      && (forall k | k in t :: NewPlace(p, chosen, k) in after && SameAccount(t[k], after[NewPlace(p, chosen, k)]))
  {
    hide Proposed, Chosen, NewPlace, Moved, Settled, SameAccount;
    var p, chosen := Proposed(t, cs, counts, runtime), Chosen(t, cs, counts, runtime);
    ProposalsSeparate(t, cs, counts, runtime);
    MovesPermute(t, p, chosen);
    forall k | k in t ensures SameAccount(t[k], Settled(t, p, chosen, k)) {
      SettledIsSame(t, p, chosen, k);
    }
  }

  // ---------- the loops, over the live accounts ----------

  /** The search for the one record that carries the candidate's identity. */
  method FindCarrier(accounts: map<string, Account>, c: Listing) returns (oldKey: string, found: bool)
    ensures found ==> OnlyCarrier(Values(accounts), c, oldKey)
    ensures !found ==> Uncarried(Values(accounts), c)
  {
    oldKey, found := "", false;
    var todo := accounts.Keys;
    while todo != {}
      invariant todo <= accounts.Keys
      invariant forall k | k in accounts.Keys - todo && Carries(Values(accounts), c, k) :: found && k == oldKey
      invariant found ==> oldKey in accounts.Keys - todo && Carries(Values(accounts), c, oldKey)
      decreases todo
    {
      var k :| k in todo;
      todo := todo - {k};
      var account := accounts[k];
      if k == KeyOf(c) || account.provider != c.provider || account.identity != c.identity {
        continue;
      }
      if found {
        ghost var first := oldKey;
        assert Carries(Values(accounts), c, first) && Carries(Values(accounts), c, k);
        oldKey, found := "", false;
        break;
      }
      oldKey, found := k, true;
    }
  }

  ghost predicate Uncarried(t: Table, c: Listing) {
    forall k :: !OnlyCarrier(t, c, k)
  }

  ghost predicate Backed(t: Table, cs: seq<Listing>, counts: Counts, runtime: map<string, string>, m: Move) {
    exists c :: c in cs && Claims(t, c, counts, runtime, m.oldKey) && m == MoveTo(m.oldKey, c)
  }

  lemma BackedMore(t: Table, cs: seq<Listing>, counts: Counts, runtime: map<string, string>, m: Move, c: Listing)
    requires Backed(t, cs, counts, runtime, m)
    ensures Backed(t, cs + [c], counts, runtime, m)
  {
    hide Claims, MoveTo;
    var d :| d in cs && Claims(t, d, counts, runtime, m.oldKey) && m == MoveTo(m.oldKey, d);
    assert d in cs + [c];
  }

  /** What the moves found so far are. */
  ghost predicate Gathered(t: Table, cs: seq<Listing>, counts: Counts, runtime: map<string, string>, moves: seq<Move>) {
    && (forall m | m in moves :: Backed(t, cs, counts, runtime, m))
    && (forall c | c in cs :: Listed(t, c, counts, runtime, moves))
  }

  ghost predicate Listed(t: Table, c: Listing, counts: Counts, runtime: map<string, string>, moves: seq<Move>) {
    forall k | Claims(t, c, counts, runtime, k) :: MoveTo(k, c) in moves
  }

  lemma ListedMore(t: Table, c: Listing, counts: Counts, runtime: map<string, string>, moves: seq<Move>, m: Move)
    requires Listed(t, c, counts, runtime, moves)
    ensures Listed(t, c, counts, runtime, moves + [m])
  {
    hide Claims, MoveTo;
  }

  lemma ListedNow(t: Table, c: Listing, counts: Counts, runtime: map<string, string>, moves: seq<Move>, k: string)
    requires Claims(t, c, counts, runtime, k) && MoveTo(k, c) in moves
    ensures Listed(t, c, counts, runtime, moves)
  {
    assert forall x | Claims(t, c, counts, runtime, x) :: x == k;
    hide Claims, MoveTo;
  }

  lemma GatheredMore(t: Table, cs: seq<Listing>, counts: Counts, runtime: map<string, string>, moves: seq<Move>,
                     c: Listing, k: string)
    requires Gathered(t, cs, counts, runtime, moves) && Claims(t, c, counts, runtime, k)
    ensures Gathered(t, cs + [c], counts, runtime, moves + [MoveTo(k, c)])
  {
    hide Claims, MoveTo, Listed;
    MoveToSource(k, c);
    var m := MoveTo(k, c);
    forall x | x in moves + [m] ensures Backed(t, cs + [c], counts, runtime, x) {
      if x in moves {
        BackedMore(t, cs, counts, runtime, x, c);
      } else {
        assert x == m && c in cs + [c];
      }
    }
    forall d | d in cs + [c] ensures Listed(t, d, counts, runtime, moves + [m]) {
      if d in cs {
        ListedMore(t, d, counts, runtime, moves, m);
      } else {
        assert m in moves + [m];
        ListedNow(t, c, counts, runtime, moves + [m], k);
      }
    }
  }

  lemma GatheredSame(t: Table, cs: seq<Listing>, counts: Counts, runtime: map<string, string>, moves: seq<Move>,
                     c: Listing)
    requires Gathered(t, cs, counts, runtime, moves) && forall k :: !Claims(t, c, counts, runtime, k)
    ensures Gathered(t, cs + [c], counts, runtime, moves)
  {
    hide Claims, MoveTo;
    forall m | m in moves ensures Backed(t, cs + [c], counts, runtime, m) {
      BackedMore(t, cs, counts, runtime, m, c);
    }
  }

  lemma CannotClaim(t: Table, c: Listing, counts: Counts, runtime: map<string, string>)
    requires !MayClaim(t, c, counts, runtime) || Uncarried(t, c)
    ensures forall k :: !Claims(t, c, counts, runtime, k)
  {
  }

  /** The first loop of `correlateReplacementCandidates`. */
  method ProposeMoves(accounts: map<string, Account>, cs: seq<Listing>, counts: Counts, runtime: map<string, string>)
    returns (moves: seq<Move>)
    ensures Gathered(Values(accounts), cs, counts, runtime, moves)
  {
    hide Gathered, Uncarried, OnlyCarrier;
    ghost var t := Values(accounts);
    moves := [];
    assert Gathered(t, cs[..0], counts, runtime, []) by { NothingGathered(t, counts, runtime); }
    for i := 0 to |cs|
      invariant Gathered(t, cs[..i], counts, runtime, moves)
    {
      var c := cs[i];
      assert cs[..i + 1] == cs[..i] + [c];
      var newKey := KeyOf(c);
      if c.identity == "" || Count(counts, c.provider, c.identity) != 1
         || (newKey in runtime && runtime[newKey] != "" && runtime[newKey] != c.identity)
         || (newKey in accounts && accounts[newKey].provider == c.provider && accounts[newKey].identity == c.identity) {
        CannotClaim(t, c, counts, runtime);
        GatheredSame(t, cs[..i], counts, runtime, moves, c);
        continue;
      }
      var oldKey, found := FindCarrier(accounts, c);
      if found {
        GatheredMore(t, cs[..i], counts, runtime, moves, c, oldKey);
        moves := moves + [MoveTo(oldKey, c)];
      } else {
        CannotClaim(t, c, counts, runtime);
        GatheredSame(t, cs[..i], counts, runtime, moves, c);
      }
    }
    assert cs[..|cs|] == cs;
  }

  lemma NothingGathered(t: Table, counts: Counts, runtime: map<string, string>)
    ensures Gathered(t, [], counts, runtime, [])
  {
  }

  // ---------- carrying the moves out ----------

  /** The moves by the key they leave. */
  function BySource(moves: seq<Move>): map<string, Move> {
    if moves == [] then map[] else BySource(moves[..|moves| - 1])[moves[|moves| - 1].oldKey := moves[|moves| - 1]]
  }

  lemma {:induction false} BySourceHas(moves: seq<Move>)
    ensures forall k | k in BySource(moves) :: BySource(moves)[k] in moves && BySource(moves)[k].oldKey == k
    ensures forall m | m in moves :: m.oldKey in BySource(moves)
  {
    if moves != [] {
      BySourceHas(moves[..|moves| - 1]);
      assert moves == moves[..|moves| - 1] + [moves[|moves| - 1]];
    }
  }

  lemma BackedIsProposed(t: Table, cs: seq<Listing>, counts: Counts, runtime: map<string, string>, m: Move)
    requires CountsCover(cs, counts) && Backed(t, cs, counts, runtime, m)
    ensures m.oldKey in Proposed(t, cs, counts, runtime) && Proposed(t, cs, counts, runtime)[m.oldKey] == m
  {
    hide Claims, MoveTo, Proposed, CountsCover;
    var c :| c in cs && Claims(t, c, counts, runtime, m.oldKey) && m == MoveTo(m.oldKey, c);
    ProposedBy(t, cs, counts, runtime, c, m.oldKey);
  }

  lemma ProposedIsListed(t: Table, cs: seq<Listing>, counts: Counts, runtime: map<string, string>, moves: seq<Move>,
                         k: string)
    requires Gathered(t, cs, counts, runtime, moves) && k in Proposed(t, cs, counts, runtime)
    ensures exists m :: m in moves && m.oldKey == k
  {
    hide Claims, MoveTo, Backed;
    var c :| c in cs && Claims(t, c, counts, runtime, k);
    assert Listed(t, c, counts, runtime, moves);
    MoveToSource(k, c);
    assert MoveTo(k, c) in moves;
  }

  /** What was gathered, keyed by source, is what is proposed. */
  lemma GatheredIsProposed(t: Table, cs: seq<Listing>, counts: Counts, runtime: map<string, string>, moves: seq<Move>)
    requires CountsCover(cs, counts) && Gathered(t, cs, counts, runtime, moves)
    ensures BySource(moves) == Proposed(t, cs, counts, runtime)
    ensures forall m | m in moves :: m == BySource(moves)[m.oldKey]
  {
    hide Claims, MoveTo, BySource, Proposed, Listed, Backed, CountsCover;
    var index, p := BySource(moves), Proposed(t, cs, counts, runtime);
    BySourceHas(moves);
    forall m | m in moves ensures m.oldKey in p && m == p[m.oldKey] {
      BackedIsProposed(t, cs, counts, runtime, m);
    }
    forall k | k in p ensures k in index {
      ProposedIsListed(t, cs, counts, runtime, moves, k);
    }
    assert index.Keys == p.Keys;
  }

  lemma MoveToSource(k: string, c: Listing)
    ensures MoveTo(k, c).oldKey == k
  {
  }

  method IndexMoves(moves: seq<Move>) returns (index: map<string, Move>)
    ensures index == BySource(moves)
  {
    index := map[];
    for i := 0 to |moves|
      invariant index == BySource(moves[..i])
    {
      assert moves[..i + 1][..i] == moves[..i];
      index := index[moves[i].oldKey := moves[i]];
    }
    assert moves[..|moves|] == moves;
  }

  method Rehome(account: Account, m: Move)
    modifies account`key, account`authIndex, account`removedAt
    ensures account.View() == Rehomed(old(account.View()), m)
  {
    account.key := m.newKey;
    account.authIndex := m.authIndex;
    account.removedAt := 0;
  }

  /** The state between the two loops and after `done` moves have been carried out. */
  ghost predicate Underway(accounts: map<string, Account>, p: map<string, Move>, sources: set<string>,
                           done: set<string>, moved: map<string, Account>)
  {
    && moved.Keys == (accounts.Keys - sources) + (set s | s in done && s in p :: p[s].newKey)
    && (forall k | k in accounts.Keys - sources :: k in moved && moved[k] == accounts[k])
    && (forall s | s in done && s in p && s in accounts :: p[s].newKey in moved && moved[p[s].newKey] == accounts[s])
  }

  lemma UnderwayStep(accounts: map<string, Account>, p: map<string, Move>, sources: set<string>,
                     done: set<string>, moved: map<string, Account>, s: string)
    requires Underway(accounts, p, sources, done, moved) && Separate(p) && Closed(accounts.Keys, p, sources)
    requires done <= sources <= accounts.Keys && s in sources
    ensures Underway(accounts, p, sources, done + {s}, moved[p[s].newKey := accounts[s]])
  {
    var place := p[s].newKey;
    NewKeysMore(p, done, s);
    PlaceIsFree(accounts, p, sources, s);
    PlacesApart(p, sources, s);
    hide Closed, Separate;
    forall x | x in done + {s} && x in p && x in accounts
      ensures p[x].newKey in moved[place := accounts[s]] && moved[place := accounts[s]][p[x].newKey] == accounts[x]
    {
      if x != s { assert p[x].newKey != place; }
    }
  }

  lemma PlaceIsFree(accounts: map<string, Account>, p: map<string, Move>, sources: set<string>, s: string)
    requires Closed(accounts.Keys, p, sources) && s in sources
    ensures p[s].newKey !in accounts.Keys - sources
  {
  }

  lemma PlacesApart(p: map<string, Move>, sources: set<string>, s: string)
    requires Separate(p) && s in p
    ensures forall x | x in p && x != s :: p[x].newKey != p[s].newKey
  {
  }

  lemma NewKeysMore(p: map<string, Move>, done: set<string>, s: string)
    requires s in p
    ensures (set x | x in done + {s} && x in p :: p[x].newKey)
         == (set x | x in done && x in p :: p[x].newKey) + {p[s].newKey}
  {
  }

  /** The same objects, each in its new place. */
  ghost predicate Relocated(accounts: map<string, Account>, p: map<string, Move>, sources: set<string>,
                            moved: map<string, Account>) {
    && moved.Keys == (set k | k in accounts :: NewPlace(p, sources, k))
    && forall k | k in accounts :: NewPlace(p, sources, k) in moved && moved[NewPlace(p, sources, k)] == accounts[k]
  }

  lemma UnderwayDone(accounts: map<string, Account>, p: map<string, Move>, sources: set<string>,
                     moved: map<string, Account>)
    requires Underway(accounts, p, sources, sources, moved) && Closed(accounts.Keys, p, sources)
      && sources <= accounts.Keys
    ensures Relocated(accounts, p, sources, moved)
  {
    forall k | k in accounts ensures NewPlace(p, sources, k) in moved && moved[NewPlace(p, sources, k)] == accounts[k] {
    }
    forall place | place in moved ensures place in (set k | k in accounts :: NewPlace(p, sources, k)) {
      if place in accounts.Keys - sources {
        assert NewPlace(p, sources, place) == place;
      } else {
        var s :| s in sources && s in p && p[s].newKey == place;
        assert NewPlace(p, sources, s) == place;
      }
    }
  }

  lemma RelocatedDistinct(accounts: map<string, Account>, p: map<string, Move>, sources: set<string>,
                          moved: map<string, Account>)
    requires Relocated(accounts, p, sources, moved) && Distinct(accounts)
    ensures Distinct(moved)
    ensures forall place | place in moved :: exists k :: k in accounts && moved[place] == accounts[k]
  {
    hide NewPlace;
  }

  method RehomeAt(accounts: map<string, Account>, k: string, m: Move)
    requires Distinct(accounts) && k in accounts
    modifies accounts[k]
    ensures Values(accounts) == old(Values(accounts))[k := Rehomed(old(accounts[k].View()), m)]
  {
    Rehome(accounts[k], m);
    assert forall x | x in accounts && x != k :: accounts[x] != accounts[k];
  }

  /** The table with the records under `done` rehomed, still under their old keys. */
  ghost predicate PartlyRehomed(before: Table, p: map<string, Move>, done: set<string>, now: Table) {
    now.Keys == before.Keys && forall k | k in before :: now[k] == Settled(before, p, done, k)
  }

  lemma RehomeStep(before: Table, p: map<string, Move>, done: set<string>, now: Table, s: string)
    requires PartlyRehomed(before, p, done, now) && s in p && s in before
    ensures PartlyRehomed(before, p, done + {s}, now[s := Rehomed(now[s], p[s])])
  {
  }

  lemma RehomedAll(before: Table, p: map<string, Move>, sources: set<string>, now: Table, moved: Table)
    requires PartlyRehomed(before, p, sources, now) && Separate(p) && Closed(before.Keys, p, sources)
    requires moved.Keys == Places(before, p, sources)
    requires forall k | k in before :: NewPlace(p, sources, k) in moved && moved[NewPlace(p, sources, k)] == now[k]
    ensures moved == Moved(before, p, sources)
  {
    var target := Moved(before, p, sources);
    forall place | place in moved ensures moved[place] == target[place] {
      var k :| k in before && NewPlace(p, sources, k) == place;
      MovedAt(before, p, sources, k);
    }
  }

  lemma RelocatedValues(accounts: map<string, Account>, before: Table, p: map<string, Move>, sources: set<string>,
                        moved: map<string, Account>)
    requires Relocated(accounts, p, sources, moved) && PartlyRehomed(before, p, sources, Values(accounts))
    requires Separate(p) && Closed(before.Keys, p, sources)
    ensures Values(moved) == Moved(before, p, sources)
  {
    hide NewPlace, Settled, Moved, Account.View;
    assert Values(moved).Keys == Places(before, p, sources) by {
      assert accounts.Keys == before.Keys;
    }
    RehomedAll(before, p, sources, Values(accounts), Values(moved));
  }

  ghost predicate Planned(moves: seq<Move>, p: map<string, Move>, sources: set<string>) {
    && (forall m | m in moves :: m.oldKey in sources && m.oldKey in p && p[m.oldKey] == m)
    && (forall s | s in sources :: s in p && p[s] in moves && p[s].oldKey == s)
  }

  /** The loop that releases the old keys. */
  method Release(accounts: map<string, Account>, moves: seq<Move>, ghost p: map<string, Move>,
                 ghost sources: set<string>)
    returns (moved: map<string, Account>)
    requires Planned(moves, p, sources)
    ensures Underway(accounts, p, sources, {}, moved)
  {
    moved := accounts;
    for i := 0 to |moves|
      invariant moved == accounts - (set m | m in moves[..i] :: m.oldKey)
    {
      assert moves[..i + 1] == moves[..i] + [moves[i]];
      moved := moved - {moves[i].oldKey};
    }
    assert moves[..|moves|] == moves;
    assert (set m | m in moves :: m.oldKey) == sources by {
      forall s | s in sources ensures s in (set m | m in moves :: m.oldKey) {
        assert p[s] in moves;
      }
    }
  }

  method CarryOne(accounts: map<string, Account>, m: Move, moved: map<string, Account>, ghost p: map<string, Move>,
                  ghost sources: set<string>, ghost done: set<string>, ghost before: Table)
    returns (after: map<string, Account>)
    requires Distinct(accounts) && Separate(p) && Closed(accounts.Keys, p, sources) && done <= sources <= accounts.Keys
    requires m.oldKey in sources && m.oldKey in p && p[m.oldKey] == m && m.oldKey in before
    requires Underway(accounts, p, sources, done, moved) && PartlyRehomed(before, p, done, Values(accounts))
    modifies accounts[m.oldKey]
    ensures Underway(accounts, p, sources, done + {m.oldKey}, after)
    ensures PartlyRehomed(before, p, done + {m.oldKey}, Values(accounts))
  {
    hide Underway, PartlyRehomed, Closed, Separate, Distinct;
    RehomeStep(before, p, done, Values(accounts), m.oldKey);
    RehomeAt(accounts, m.oldKey, m);
    UnderwayStep(accounts, p, sources, done, moved, m.oldKey);
    after := moved[m.newKey := accounts[m.oldKey]];
  }

  ghost function Olds(moves: seq<Move>): set<string> {
    set m | m in moves :: m.oldKey
  }

  lemma OldsMore(moves: seq<Move>, i: nat)
    requires i < |moves|
    ensures Olds(moves[..i + 1]) == Olds(moves[..i]) + {moves[i].oldKey}
  {
    assert moves[..i + 1] == moves[..i] + [moves[i]];
  }

  lemma PlannedOlds(moves: seq<Move>, p: map<string, Move>, sources: set<string>)
    requires Planned(moves, p, sources)
    ensures Olds(moves) == sources
    ensures forall i | 0 <= i < |moves| ::
      moves[i].oldKey in sources && moves[i].oldKey in p && p[moves[i].oldKey] == moves[i]
  {
    forall s | s in sources ensures s in Olds(moves) {
      assert p[s] in moves;
    }
  }

  /** The last two loops: first every old key is released, then every account enters its new one. */
  method CarryOut(accounts: map<string, Account>, moves: seq<Move>, ghost p: map<string, Move>,
                  ghost sources: set<string>)
    returns (moved: map<string, Account>)
    requires Distinct(accounts) && Separate(p) && Closed(accounts.Keys, p, sources) && sources <= accounts.Keys
    requires Planned(moves, p, sources)
    modifies (set k | k in accounts :: accounts[k])
    ensures Relocated(accounts, p, sources, moved)
    ensures Values(moved) == Moved(old(Values(accounts)), p, sources)
  {
    hide Closed, Separate, Moved, Account.View, Distinct, Underway, PartlyRehomed, Planned, Relocated, Olds;
    ghost var before := Values(accounts);
    assert before.Keys == accounts.Keys;
    moved := Release(accounts, moves, p, sources);
    PlannedOlds(moves, p, sources);
    NothingRehomed(before, p);
    assert Olds(moves[..0]) == {} by { NoOlds(); }
    for i := 0 to |moves|
      invariant Olds(moves[..i]) <= sources
      invariant Underway(accounts, p, sources, Olds(moves[..i]), moved)
      invariant PartlyRehomed(before, p, Olds(moves[..i]), Values(accounts))
    {
      OldsMore(moves, i);
      moved := CarryOne(accounts, moves[i], moved, p, sources, Olds(moves[..i]), before);
    }
    assert moves[..|moves|] == moves;
    UnderwayDone(accounts, p, sources, moved);
    RelocatedValues(accounts, before, p, sources, moved);
  }

  lemma NoOlds()
    ensures Olds([]) == {}
  {
  }

  lemma NothingRehomed(before: Table, p: map<string, Move>)
    ensures PartlyRehomed(before, p, {}, before)
  {
  }

  lemma FilterStep(moves: seq<Move>, kept: seq<Move>, i: nat, valid: map<string, Move>)
    requires i < |moves| && forall m :: m in kept <==> m in moves[..i] && m.oldKey in valid
    ensures forall m ::
      (m in (if moves[i].oldKey in valid then kept + [moves[i]] else kept) <==>
        m in moves[..i + 1] && m.oldKey in valid)
  {
    assert moves[..i + 1] == moves[..i] + [moves[i]];
  }

  /** The moves that are left, in the order they were proposed. */
  method Filter(moves: seq<Move>, valid: map<string, Move>) returns (kept: seq<Move>)
    ensures forall m :: m in kept <==> m in moves && m.oldKey in valid
  {
    kept := [];
    for i := 0 to |moves|
      invariant forall m :: m in kept <==> m in moves[..i] && m.oldKey in valid
    {
      FilterStep(moves, kept, i, valid);
      if moves[i].oldKey in valid {
        kept := kept + [moves[i]];
      }
    }
    assert moves[..|moves|] == moves;
  }

  lemma KeptIsPlanned(moves: seq<Move>, index: map<string, Move>, sources: set<string>, kept: seq<Move>)
    requires index == BySource(moves) && (forall m | m in moves :: m.oldKey in index && m == index[m.oldKey])
      && sources <= index.Keys
    requires forall m :: m in kept <==> m in moves && m.oldKey in sources
    ensures Planned(kept, index, sources)
  {
    hide BySource;
    BySourceHas(moves);
  }

  /** What the search has gathered, as the proposals it stands for. */
  lemma GatheredFacts(t: Table, cs: seq<Listing>, counts: Counts, runtime: map<string, string>, moves: seq<Move>)
    requires DistinctKeys(cs) && CountsCover(cs, counts) && Gathered(t, cs, counts, runtime, moves)
    ensures var p := Proposed(t, cs, counts, runtime);
      && BySource(moves) == p && (moves == [] ==> p == map[])
      && (forall m | m in moves :: m.oldKey in p && m == p[m.oldKey])
      && Separate(p) && Closed(t.Keys, p, Feasible(t.Keys, p)) && Feasible(t.Keys, p) <= t.Keys * p.Keys
  {
    hide Gathered, Proposed, CountsCover, DistinctKeys, Feasible, Closed, Separate;
    BySourceHas(moves);
    GatheredIsProposed(t, cs, counts, runtime, moves);
    ProposalsSeparate(t, cs, counts, runtime);
    ProposedSources(t, cs, counts, runtime);
  }

  /** The fixpoint over the gathered moves, and what it leaves of them. */
  method KeepMoves(held: set<string>, moves: seq<Move>) returns (kept: seq<Move>)
    requires forall m | m in moves :: m.oldKey in BySource(moves) && m == BySource(moves)[m.oldKey]
    requires Feasible(held, BySource(moves)) <= BySource(moves).Keys
    ensures Planned(kept, BySource(moves), Feasible(held, BySource(moves)))
  {
    hide Feasible, Planned, BySource;
    var index := IndexMoves(moves);
    var valid := KeepFeasible(held, index);
    kept := Filter(moves, valid);
    KeptIsPlanned(moves, index, Feasible(held, index), kept);
  }

  /** `correlateReplacementCandidates`: the same objects, moved as `Correlated` says. */
  method Correlate(accounts: map<string, Account>, cs: seq<Listing>, counts: Counts, runtime: map<string, string>)
    returns (moved: map<string, Account>)
    requires Distinct(accounts) && DistinctKeys(cs) && CountsCover(cs, counts)
    modifies (set k | k in accounts :: accounts[k])
    ensures var t := old(Values(accounts)); var p := Proposed(t, cs, counts, runtime);
      Relocated(accounts, p, Feasible(t.Keys, p), moved) && Distinct(moved)
    ensures Values(moved) == Correlated(old(Values(accounts)), cs, counts, runtime)
  {
    hide Gathered, Proposed, CountsCover, DistinctKeys, Relocated, Moved, Feasible, Planned, BySource, Closed, Separate;
    ghost var t := Values(accounts);
    var moves := ProposeMoves(accounts, cs, counts, runtime);
    GatheredFacts(t, cs, counts, runtime, moves);
    ghost var p := Proposed(t, cs, counts, runtime);
    assert t.Keys == accounts.Keys;
    if moves == [] {
      moved := accounts;
      NoMoves(accounts, p);
      return;
    }
    ghost var sources := Feasible(accounts.Keys, p);
    var kept := KeepMoves(accounts.Keys, moves);
    moved := CarryOut(accounts, kept, p, sources);
    RelocatedDistinct(accounts, p, sources, moved);
  }

  lemma ProposedSources(t: Table, cs: seq<Listing>, counts: Counts, runtime: map<string, string>)
    ensures var p := Proposed(t, cs, counts, runtime); Feasible(t.Keys, p) <= t.Keys * p.Keys
  {
  }

  lemma NoMoves(accounts: map<string, Account>, p: map<string, Move>)
    requires p == map[] || p.Keys == {}
    ensures Relocated(accounts, p, Feasible(accounts.Keys, p), accounts)
    ensures Moved(Values(accounts), p, Feasible(accounts.Keys, p)) == Values(accounts)
  {
    var t := Values(accounts);
    var sources := Feasible(accounts.Keys, p);
    assert forall k :: NewPlace(p, sources, k) == k;
    assert Places(t, p, sources) == t.Keys;
    forall k | k in t ensures Moved(t, p, sources)[k] == t[k] {
      assert From(t, p, sources, k) == k;
    }
  }
}
