/** Which accounts a scan moves: exactly those that a set of rightful moves takes along together. */
module Correlations {
  import opened Text
  import opened Health
  import opened Incident
  import opened Accounts
  import opened Rollback
  import opened Discovery
  import opened Moves
  import opened Scan

  // ---------- what a scan counts ----------

  /** The results that show an identity, in the roster or when read. */
  function Showing(items: seq<Item>, provider: string, identity: string): set<nat> {
    set n: nat | n < |items| && identity != ""
      && ((items[n].entry.provider == provider && items[n].entry.identity == identity)
          || (items[n].read.Seen? && items[n].read.snapshot.provider == provider
              && items[n].read.snapshot.identity == identity))
  }

  /** An identity counts once for each result that shows it, be it in one way or in both. */
  lemma {:induction false} CountsAreOfResults(items: seq<Item>, provider: string, identity: string)
    ensures Count(CountsOf(items), provider, identity) == |Showing(items, provider, identity)|
  {
    if items != [] {
      CountsAreOfResults(items[..|items| - 1], provider, identity);
      ShowingMore(items, provider, identity);
    }
    hide Shown, Showing;
    if items == [] {
      NothingShowing(provider, identity);
    }
  }

  lemma NothingShowing(provider: string, identity: string)
    ensures Showing([], provider, identity) == {}
  {
  }

  lemma ShowingMore(items: seq<Item>, provider: string, identity: string)
    requires items != []
    ensures |Showing(items, provider, identity)| == |Showing(items[..|items| - 1], provider, identity)|
      + if (provider, identity) in Shown(items[|items| - 1]) then 1 else 0
  {
    var last := |items| - 1;
    var before := Showing(items[..last], provider, identity);
    assert last !in before;
    forall n: nat | n < last ensures n in Showing(items, provider, identity) <==> n in before {
      assert items[..last][n] == items[n];
    }
    assert last in Showing(items, provider, identity) <==> (provider, identity) in Shown(items[last]);
    assert Showing(items, provider, identity)
        == before + if (provider, identity) in Shown(items[last]) then {last} else {};
  }

  predicate ReadUnder(items: seq<Item>, k: string, n: nat)
    requires n < |items|
  {
    items[n].read.Seen? && KeyOf(items[n].entry) == k
  }

  ghost predicate LastUnder(items: seq<Item>, k: string, n: nat)
    requires n < |items|
  {
    ReadUnder(items, k, n) && forall m | n < m < |items| :: !ReadUnder(items, k, m)
  }

  lemma RuntimeNext(items: seq<Item>, k: string)
    requires items != []
    ensures var last := |items| - 1; var front := RuntimeOf(items[..last]);
      if ReadUnder(items, k, last) then
        k in RuntimeOf(items) && RuntimeOf(items)[k] == items[last].read.snapshot.identity
      else (k in RuntimeOf(items) <==> k in front) && (k in front ==> RuntimeOf(items)[k] == front[k])
  {
    hide KeyOf;
  }

  lemma NothingRead(k: string)
    ensures k !in RuntimeOf([])
  {
  }

  lemma ReadUnderFront(items: seq<Item>, k: string)
    requires items != []
    ensures var last := |items| - 1; forall n | 0 <= n < last ::
      items[n] == items[..last][n] && (ReadUnder(items, k, n) <==> ReadUnder(items[..last], k, n))
  {
    hide KeyOf;
    assert forall n | 0 <= n < |items| - 1 :: items[n] == items[..|items| - 1][n];
  }

  /** What is known to have been read under a key is what its last read shows. */
  lemma {:induction false} RuntimeIsLastRead(items: seq<Item>, k: string)
    ensures k !in RuntimeOf(items) ==> forall n | 0 <= n < |items| :: !ReadUnder(items, k, n)
    ensures k in RuntimeOf(items) ==>
      exists n :: 0 <= n < |items| && LastUnder(items, k, n) && RuntimeOf(items)[k] == items[n].read.snapshot.identity
  {
    hide RuntimeOf, KeyOf;
    if items == [] {
      NothingRead(k);
    } else {
      var last := |items| - 1;
      var front := items[..last];
      RuntimeIsLastRead(front, k);
      RuntimeNext(items, k);
      if ReadUnder(items, k, last) {
        assert LastUnder(items, k, last);
      } else {
        ReadUnderFront(items, k);
        if k in RuntimeOf(front) {
          var n :| 0 <= n < last && LastUnder(front, k, n)
            && RuntimeOf(front)[k] == front[n].read.snapshot.identity;
          assert LastUnder(items, k, n);
        } else {
          forall n | 0 <= n < |items| ensures !ReadUnder(items, k, n) {
            if n < last { assert !ReadUnder(front, k, n); }
          }
        }
      }
    }
  }

  // ---------- which accounts move ----------

  ghost predicate Bearer(t: Table, provider: string, identity: string, k: string) {
    k in t && t[k].provider == provider && t[k].identity == identity
  }

  /** The record under `k` is the candidate's: the only one of its provider and identity, under another
      key, with an identity that counts once and that no runtime read contradicts. */
  ghost predicate Rightful(t: Table, c: Listing, counts: Counts, runtime: map<string, string>, k: string) {
    && c.identity != "" && Count(counts, c.provider, c.identity) == 1
    && (KeyOf(c) in runtime ==> runtime[KeyOf(c)] == "" || runtime[KeyOf(c)] == c.identity)
    && Bearer(t, c.provider, c.identity, k) && k != KeyOf(c)
    && (forall x | Bearer(t, c.provider, c.identity, x) :: x == k)
  }

  /** Every one of these records is rightfully its new owner's, and goes to a free place or to one that
      another of them leaves. */
  ghost predicate MoveTogether(t: Table, cs: seq<Listing>, counts: Counts, runtime: map<string, string>,
                               owners: map<string, Listing>) {
    forall s | s in owners ::
      && owners[s] in cs && Rightful(t, owners[s], counts, runtime, s)
      && (KeyOf(owners[s]) in t ==> KeyOf(owners[s]) in owners)
  }

  function AtHome(r: Record, c: Listing): Record {
    r.(key := KeyOf(c), authIndex := TrimSpace(c.authIndex), removedAt := 0)
  }

  lemma ClaimsAreRightful(t: Table, c: Listing, counts: Counts, runtime: map<string, string>, k: string)
    ensures Claims(t, c, counts, runtime, k) <==> Rightful(t, c, counts, runtime, k)
  {
    hide KeyOf, Count;
    if Claims(t, c, counts, runtime, k) {
      assert Carries(t, c, k);
      forall x | Bearer(t, c.provider, c.identity, x) ensures x == k {
        if x != KeyOf(c) { assert Carries(t, c, x); }
      }
    }
    if Rightful(t, c, counts, runtime, k) {
      assert forall x | Carries(t, c, x) :: Bearer(t, c.provider, c.identity, x);
      assert KeyOf(c) in t && t[KeyOf(c)].provider == c.provider && t[KeyOf(c)].identity == c.identity <==>
        Bearer(t, c.provider, c.identity, KeyOf(c));
    }
  }

  lemma OwnersAreFeasible(t: Table, cs: seq<Listing>, counts: Counts, runtime: map<string, string>,
                          owners: map<string, Listing>)
    requires CountsCover(cs, counts) && MoveTogether(t, cs, counts, runtime, owners)
    ensures var p := Proposed(t, cs, counts, runtime);
      forall s | s in owners :: s in Chosen(t, cs, counts, runtime) && s in p && p[s] == MoveTo(s, owners[s])
  {
    hide Proposed, Rightful, Claims, KeyOf, CountsCover, Feasible;
    var p := Proposed(t, cs, counts, runtime);
    OwnersAreProposed(t, cs, counts, runtime, owners);
    FeasibleIsGreatest(t.Keys, p);
    OwnersAreClosed(t, p, owners);
    assert owners.Keys <= Feasible(t.Keys, p);
    hide MoveTogether, Closed;
  }

  lemma OwnersAreProposed(t: Table, cs: seq<Listing>, counts: Counts, runtime: map<string, string>,
                          owners: map<string, Listing>)
    requires CountsCover(cs, counts) && MoveTogether(t, cs, counts, runtime, owners)
    ensures var p := Proposed(t, cs, counts, runtime);
      forall s | s in owners ::
        && s in p && p[s] == MoveTo(s, owners[s])
        && (KeyOf(owners[s]) in t ==> KeyOf(owners[s]) in owners)
  {
    var p := Proposed(t, cs, counts, runtime);
    forall s | s in owners
      ensures s in p && p[s] == MoveTo(s, owners[s]) && (KeyOf(owners[s]) in t ==> KeyOf(owners[s]) in owners)
    {
      assert owners[s] in cs && Rightful(t, owners[s], counts, runtime, s);
      assert KeyOf(owners[s]) in t ==> KeyOf(owners[s]) in owners;
      hide *;
      ClaimsAreRightful(t, owners[s], counts, runtime, s);
      ProposedBy(t, cs, counts, runtime, owners[s], s);
    }
  }

  lemma OwnersAreClosed(t: Table, p: map<string, Move>, owners: map<string, Listing>)
    requires forall s | s in owners ::
      && s in p && p[s] == MoveTo(s, owners[s]) && (KeyOf(owners[s]) in t ==> KeyOf(owners[s]) in owners)
    ensures Closed(t.Keys, p, owners.Keys)
  {
    hide KeyOf;
    forall s | s in owners.Keys && p[s].newKey in t.Keys ensures p[s].newKey in owners.Keys {
      assert p[s].newKey == KeyOf(owners[s]);
    }
  }

  /** Rightful moves that can be carried out together are: each record lies under its owner's key
      afterwards, with everything it carried but key, index and removal time. */
  lemma RightfulMovesHappen(t: Table, cs: seq<Listing>, counts: Counts, runtime: map<string, string>,
                            owners: map<string, Listing>, s: string)
    requires DistinctKeys(cs) && CountsCover(cs, counts) && MoveTogether(t, cs, counts, runtime, owners) && s in owners
    ensures s in t && KeyOf(owners[s]) in Correlated(t, cs, counts, runtime)
    ensures Correlated(t, cs, counts, runtime)[KeyOf(owners[s])] == AtHome(t[s], owners[s])
  {
    hide Proposed, KeyOf, CountsCover, Feasible, Moved, DistinctKeys, TrimSpace;
    var p, chosen := Proposed(t, cs, counts, runtime), Chosen(t, cs, counts, runtime);
    OwnersAreFeasible(t, cs, counts, runtime, owners);
    ProposalsSeparate(t, cs, counts, runtime);
    assert Rightful(t, owners[s], counts, runtime, s) && Bearer(t, owners[s].provider, owners[s].identity, s);
    MovedAt(t, p, chosen, s);
  }

  /** The owners of all the records that move. */
  ghost function Movers(t: Table, cs: seq<Listing>, counts: Counts, runtime: map<string, string>): map<string, Listing>
  {
    map s | s in t && s in Chosen(t, cs, counts, runtime) && Claimed(t, cs, counts, runtime, s) ::
      (var c :| c in cs && Claims(t, c, counts, runtime, s); c)
  }

  lemma MoversMoveTogether(t: Table, cs: seq<Listing>, counts: Counts, runtime: map<string, string>)
    requires CountsCover(cs, counts)
    ensures MoveTogether(t, cs, counts, runtime, Movers(t, cs, counts, runtime))
    ensures Movers(t, cs, counts, runtime).Keys == Chosen(t, cs, counts, runtime)
  {
    hide Rightful, Claims, KeyOf, CountsCover, Feasible;
    var p, chosen, owners := Proposed(t, cs, counts, runtime), Chosen(t, cs, counts, runtime),
      Movers(t, cs, counts, runtime);
    FeasibleIsGreatest(t.Keys, p);
    assert Closed(t.Keys, p, chosen);
    assert chosen <= p.Keys;
    forall s | s in owners ensures owners[s] in cs && Rightful(t, owners[s], counts, runtime, s)
      && (KeyOf(owners[s]) in t ==> KeyOf(owners[s]) in owners)
    {
      ClaimsAreRightful(t, owners[s], counts, runtime, s);
      ProposedBy(t, cs, counts, runtime, owners[s], s);
    }
  }

  /** Nothing else moves: a record that no such set takes along stays what and where it is. */
  lemma OthersStay(t: Table, cs: seq<Listing>, counts: Counts, runtime: map<string, string>, k: string)
    requires DistinctKeys(cs) && CountsCover(cs, counts) && k in t
    requires forall owners | MoveTogether(t, cs, counts, runtime, owners) :: k !in owners
    ensures k in Correlated(t, cs, counts, runtime) && Correlated(t, cs, counts, runtime)[k] == t[k]
  {
    hide Proposed, KeyOf, CountsCover, Feasible, Moved, DistinctKeys, MoveTogether, Movers;
    MoversMoveTogether(t, cs, counts, runtime);
    assert k !in Movers(t, cs, counts, runtime);
    ProposalsSeparate(t, cs, counts, runtime);
    MovedAt(t, Proposed(t, cs, counts, runtime), Chosen(t, cs, counts, runtime), k);
  }

  /** And nothing appears: whatever lies under a key afterwards lay there before, or rightfully came. */
  lemma NothingElseArrives(t: Table, cs: seq<Listing>, counts: Counts, runtime: map<string, string>, place: string)
    requires DistinctKeys(cs) && CountsCover(cs, counts) && place in Correlated(t, cs, counts, runtime)
    ensures var r := Correlated(t, cs, counts, runtime)[place];
      || (place in t && r == t[place])
      || exists c, k :: c in cs && KeyOf(c) == place && Rightful(t, c, counts, runtime, k) && r == AtHome(t[k], c)
  {
    hide KeyOf, CountsCover, Proposed, Chosen, NewPlace, Settled, Moved, DistinctKeys, TrimSpace, Rightful, Separate,
      Closed;
    var p, chosen := Proposed(t, cs, counts, runtime), Chosen(t, cs, counts, runtime);
    ProposalsSeparate(t, cs, counts, runtime);
    MovesPermute(t, p, chosen);
    var k :| k in t && NewPlace(p, chosen, k) == place;
    SettledHow(t, cs, counts, runtime, k);
  }

  /** A record stays, or comes home to a rightful owner. */
  lemma SettledHow(t: Table, cs: seq<Listing>, counts: Counts, runtime: map<string, string>, k: string)
    requires k in t
    ensures var p, chosen := Proposed(t, cs, counts, runtime), Chosen(t, cs, counts, runtime);
      var place, r := NewPlace(p, chosen, k), Settled(t, p, chosen, k);
      || (place == k && r == t[k])
      || exists c :: c in cs && KeyOf(c) == place && Rightful(t, c, counts, runtime, k) && r == AtHome(t[k], c)
  {
    hide Proposed, Chosen, NewPlace, Settled, AtHome, KeyOf, Claims, Rightful;
    var p, chosen := Proposed(t, cs, counts, runtime), Chosen(t, cs, counts, runtime);
    if k in chosen && k in p {
      var c := ProposerOf(t, cs, counts, runtime, k);
      ClaimsAreRightful(t, c, counts, runtime, k);
      ComesHome(t, p, chosen, k, c);
    } else {
      StaysPut(t, p, chosen, k);
    }
  }

  lemma ProposerOf(t: Table, cs: seq<Listing>, counts: Counts, runtime: map<string, string>, k: string)
    returns (c: Listing)
    requires k in Proposed(t, cs, counts, runtime)
    ensures c in cs && Claims(t, c, counts, runtime, k) && Proposed(t, cs, counts, runtime)[k] == MoveTo(k, c)
  {
    hide Claims, MoveTo;
    c :| c in cs && Claims(t, c, counts, runtime, k) && Proposed(t, cs, counts, runtime)[k] == MoveTo(k, c);
  }

  lemma ComesHome(t: Table, p: map<string, Move>, chosen: set<string>, k: string, c: Listing)
    requires k in t && k in chosen && k in p && p[k] == MoveTo(k, c)
    ensures NewPlace(p, chosen, k) == KeyOf(c) && Settled(t, p, chosen, k) == AtHome(t[k], c)
  {
    hide KeyOf, TrimSpace;
  }

  lemma StaysPut(t: Table, p: map<string, Move>, chosen: set<string>, k: string)
    requires k in t && !(k in chosen && k in p)
    ensures NewPlace(p, chosen, k) == k && Settled(t, p, chosen, k) == t[k]
  {
  }

  /** A candidate that is ambiguous, or contradicted by its own read, draws nothing to its key. */
  lemma DoubtfulDrawsNothing(t: Table, cs: seq<Listing>, counts: Counts, runtime: map<string, string>, c: Listing)
    requires DistinctKeys(cs) && CountsCover(cs, counts) && c in cs
    requires c.identity == "" || Count(counts, c.provider, c.identity) != 1
      || (KeyOf(c) in runtime && runtime[KeyOf(c)] != "" && runtime[KeyOf(c)] != c.identity)
    ensures var after := Correlated(t, cs, counts, runtime);
      KeyOf(c) in after ==> KeyOf(c) in t && after[KeyOf(c)] == t[KeyOf(c)]
  {
    hide Correlated, CountsCover, KeyOf, Count;
    if KeyOf(c) in Correlated(t, cs, counts, runtime) {
      NothingElseArrives(t, cs, counts, runtime, KeyOf(c));
      forall d, k | d in cs && KeyOf(d) == KeyOf(c) ensures !Rightful(t, d, counts, runtime, k) {
        SameCandidate(cs, c, d);
      }
    }
  }

  lemma SameCandidate(cs: seq<Listing>, c: Listing, d: Listing)
    requires DistinctKeys(cs) && c in cs && d in cs && KeyOf(c) == KeyOf(d)
    ensures c == d
  {
    hide KeyOf;
  }

  /** A replacement under a free key takes its account along. */
  lemma FreePlaceIsTaken(t: Table, cs: seq<Listing>, counts: Counts, runtime: map<string, string>, c: Listing,
                         k: string)
    requires DistinctKeys(cs) && CountsCover(cs, counts) && c in cs && KeyOf(c) !in t
    requires Rightful(t, c, counts, runtime, k)
    ensures KeyOf(c) in Correlated(t, cs, counts, runtime)
    ensures Correlated(t, cs, counts, runtime)[KeyOf(c)] == AtHome(t[k], c)
  {
    hide Correlated, CountsCover, KeyOf, Rightful;
    RightfulMovesHappen(t, cs, counts, runtime, map[k := c], k);
  }

  /** Two accounts that have changed places are swapped, whatever they are. */
  lemma SwapHappens(t: Table, cs: seq<Listing>, counts: Counts, runtime: map<string, string>, c: Listing, d: Listing,
                    a: string, b: string)
    requires DistinctKeys(cs) && CountsCover(cs, counts) && c in cs && d in cs && a != b
    requires KeyOf(c) == b && Rightful(t, c, counts, runtime, a)
    requires KeyOf(d) == a && Rightful(t, d, counts, runtime, b)
    ensures var after := Correlated(t, cs, counts, runtime);
      a in after && b in after && after[b] == AtHome(t[a], c) && after[a] == AtHome(t[b], d)
  {
    hide Correlated, CountsCover, KeyOf, Rightful;
    var owners := map[a := c, b := d];
    RightfulMovesHappen(t, cs, counts, runtime, owners, a);
    RightfulMovesHappen(t, cs, counts, runtime, owners, b);
  }
}
