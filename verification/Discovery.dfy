/** Which accounts a scan looks at, and in which order. */
module Discovery {
  import opened Text

  /** One entry of the host's roster.  `provider` is the entry's provider in normal form (lower case,
      trimmed); `identity` its fingerprint, empty when there is none. */
  datatype Listing = Listing(provider: string, authIndex: string, identity: string, oauth: bool)

  function AccountKey(provider: string, authIndex: string): string {
    provider + ":" + TrimSpace(authIndex)
  }

  function KeyOf(x: Listing): string {
    AccountKey(x.provider, x.authIndex)
  }

  // ---------- the order of strings ----------

  predicate Less(a: string, b: string) {
    b != [] && (a == [] || a[0] < b[0] || (a[0] == b[0] && Less(a[1..], b[1..])))
  }

  lemma {:induction false} LessTotal(a: string, b: string)
    ensures a == b || Less(a, b) || Less(b, a)
    ensures !(Less(a, b) && Less(b, a)) && !Less(a, a)
  {
    if a != [] {
      LessTotal(a[1..], a[1..]);
      if b != [] && a[0] == b[0] {
        LessTotal(a[1..], b[1..]);
        assert a == [a[0]] + a[1..] && b == [b[0]] + b[1..];
      }
    }
  }

  lemma {:induction false} LessTransitive(a: string, b: string, c: string)
    requires Less(a, b) && Less(b, c)
    ensures Less(a, c)
  {
    if a != [] && a[0] == b[0] == c[0] {
      LessTransitive(a[1..], b[1..], c[1..]);
    }
  }

  /** Two names, the first compared first. */
  predicate Before(a: (string, string), b: (string, string)) {
    if a.0 == b.0 then Less(a.1, b.1) else Less(a.0, b.0)
  }

  lemma BeforeTotal(a: (string, string), b: (string, string))
    ensures a == b || Before(a, b) || Before(b, a)
    ensures !(Before(a, b) && Before(b, a)) && !Before(a, a)
  {
    LessTotal(a.0, b.0);
    LessTotal(a.1, b.1);
    LessTotal(a.0, a.0);
    LessTotal(a.1, a.1);
  }

  lemma BeforeTransitive(a: (string, string), b: (string, string), c: (string, string))
    requires Before(a, b) && Before(b, c)
    ensures Before(a, c)
  {
    if a.0 == b.0 == c.0 {
      LessTransitive(a.1, b.1, c.1);
    } else if a.0 != b.0 && b.0 != c.0 {
      LessTransitive(a.0, b.0, c.0);
      LessTotal(a.0, c.0);
      LessTotal(a.0, b.0);
    }
  }

  // ---------- sorting ----------

  predicate Ordered<T>(s: seq<T>, rank: T -> (string, string)) {
    forall i, k | 0 <= i < k < |s| :: Before(rank(s[i]), rank(s[k]))
  }

  ghost predicate DistinctRanks<T>(s: seq<T>, rank: T -> (string, string)) {
    forall i, k | 0 <= i < k < |s| :: rank(s[i]) != rank(s[k])
  }

  function Insert<T>(x: T, s: seq<T>, rank: T -> (string, string)): seq<T> {
    if s == [] || Before(rank(x), rank(s[0])) then [x] + s else [s[0]] + Insert(x, s[1..], rank)
  }

  /** What the library's sort returns when all ranks differ. */
  function Sorted<T>(s: seq<T>, rank: T -> (string, string)): seq<T> {
    if s == [] then [] else Insert(s[0], Sorted(s[1..], rank), rank)
  }

  lemma {:induction false} InsertKeeps<T>(x: T, s: seq<T>, rank: T -> (string, string))
    ensures multiset(Insert(x, s, rank)) == multiset(s) + multiset{x}
  {
    if s == [] || Before(rank(x), rank(s[0])) {
    } else {
      InsertKeeps(x, s[1..], rank);
      assert s == [s[0]] + s[1..];
    }
  }

  lemma {:induction false} InsertOrdered<T>(x: T, s: seq<T>, rank: T -> (string, string))
    requires Ordered(s, rank) && forall y | y in s :: rank(y) != rank(x)
    ensures Ordered(Insert(x, s, rank), rank)
  {
    var r := Insert(x, s, rank);
    if s == [] {
    } else if Before(rank(x), rank(s[0])) {
      forall k | 0 < k < |r| ensures Before(rank(x), rank(r[k])) {
        if k > 1 {
          assert r[k] == s[k - 1];
          BeforeTransitive(rank(x), rank(s[0]), rank(s[k - 1]));
        }
      }
    } else {
      InsertOrdered(x, s[1..], rank);
      InsertKeeps(x, s[1..], rank);
      BeforeTotal(rank(x), rank(s[0]));
      var tail := Insert(x, s[1..], rank);
      forall k | 0 <= k < |tail| ensures Before(rank(s[0]), rank(tail[k])) {
        assert tail[k] in multiset(tail);
        if tail[k] != x {
          assert tail[k] in s[1..];
        }
      }
    }
  }

  lemma NothingOrdered<T>(s: seq<T>, rank: T -> (string, string))
    requires s == []
    ensures Ordered(s, rank)
  {
  }

  /** Sorting permutes, and orders strictly when ranks differ. */
  lemma {:induction false} SortedSorts<T>(s: seq<T>, rank: T -> (string, string))
    ensures multiset(Sorted(s, rank)) == multiset(s)
    ensures DistinctRanks(s, rank) ==> Ordered(Sorted(s, rank), rank)
  {
    hide Before, Insert, Ordered;
    if s == [] {
      NothingOrdered(s, rank);
    } else {
      var tail := Sorted(s[1..], rank);
      SortedSorts(s[1..], rank);
      InsertKeeps(s[0], tail, rank);
      assert s == [s[0]] + s[1..];
      if DistinctRanks(s, rank) {
        forall y | y in tail ensures rank(y) != rank(s[0]) {
          assert y in multiset(tail);
          var k :| 0 <= k < |s[1..]| && s[1..][k] == y;
          assert s[k + 1] == y;
        }
        InsertOrdered(s[0], tail, rank);
      }
    }
  }

  lemma FirstIsLeast<T>(s: seq<T>, r: seq<T>, rank: T -> (string, string))
    requires Ordered(s, rank) && Ordered(r, rank) && s != [] && r != [] && multiset(s) == multiset(r)
    ensures s[0] == r[0]
  {
    assert s[0] in multiset(r) && r[0] in multiset(s);
    var i :| 0 <= i < |r| && r[i] == s[0];
    var k :| 0 <= k < |s| && s[k] == r[0];
    BeforeTotal(rank(s[0]), rank(r[0]));
  }

  lemma TailMultiset<T>(s: seq<T>)
    requires s != []
    ensures multiset(s[1..]) == multiset(s) - multiset{s[0]}
  {
    assert s == [s[0]] + s[1..];
  }

  /** There is only one sorted order: the result does not depend on the algorithm or on the input's order. */
  lemma {:induction false} OrderedUnique<T>(s: seq<T>, r: seq<T>, rank: T -> (string, string))
    requires Ordered(s, rank) && Ordered(r, rank) && multiset(s) == multiset(r)
    ensures s == r
  {
    hide Before;
    if s == [] {
      assert |multiset(r)| == 0;
    } else {
      assert |multiset(r)| == |multiset(s)| > 0;
      FirstIsLeast(s, r, rank);
      TailMultiset(s);
      TailMultiset(r);
      OrderedUnique(s[1..], r[1..], rank);
      assert s == [s[0]] + s[1..] && r == [r[0]] + r[1..];
    }
  }

  lemma RanksFromMultiset<T>(s: seq<T>, r: seq<T>, rank: T -> (string, string))
    requires multiset(s) == multiset(r) && DistinctRanks(s, rank)
    ensures DistinctRanks(r, rank)
  {
    forall i, k | 0 <= i < k < |r| ensures rank(r[i]) != rank(r[k]) {
      if rank(r[i]) == rank(r[k]) {
        TwiceInside(r, i, k, r[i]);
        assert r[k] in multiset(s) && r[i] in multiset(s);
        var a :| 0 <= a < |s| && s[a] == r[i];
        var b :| 0 <= b < |s| && s[b] == r[k];
        if a == b {
          OnlyOnce(s, a);
        }
      }
    }
  }

  lemma TwiceInside<T>(r: seq<T>, i: nat, k: nat, x: T)
    requires i < k < |r| && r[i] == x
    ensures r[k] == x ==> multiset(r)[x] >= 2
  {
    if r[k] == x {
      assert r == r[..i] + [x] + r[i + 1..k] + [x] + r[k + 1..];
    }
  }

  lemma OnlyOnce<T>(s: seq<T>, a: nat)
    requires a < |s| && forall b | 0 <= b < |s| && b != a :: s[b] != s[a]
    ensures multiset(s)[s[a]] == 1
  {
    assert s == s[..a] + [s[a]] + s[a + 1..];
    assert s[a] !in s[..a] && s[a] !in s[a + 1..];
  }

  /** Sorting forgets the order things came in. */
  lemma SortedIgnoresOrder<T>(s: seq<T>, r: seq<T>, rank: T -> (string, string))
    requires multiset(s) == multiset(r) && DistinctRanks(s, rank)
    ensures Sorted(s, rank) == Sorted(r, rank)
  {
    RanksFromMultiset(s, r, rank);
    SortedSorts(s, rank);
    SortedSorts(r, rank);
    OrderedUnique(Sorted(s, rank), Sorted(r, rank), rank);
  }

  // ---------- discovery ----------

  predicate Monitored(x: Listing, enabled: set<string>) {
    x.provider in enabled && x.oauth && TrimSpace(x.authIndex) != ""
  }

  function Candidate(x: Listing): Listing {
    x.(authIndex := TrimSpace(x.authIndex))
  }

  function Keys(s: seq<Listing>): set<string> {
    set x | x in s :: KeyOf(x)
  }

  /** The first entry of every key, in roster order. */
  function Firsts(roster: seq<Listing>, enabled: set<string>): seq<Listing> {
    if roster == [] then []
    else
      var front, last := Firsts(roster[..|roster| - 1], enabled), roster[|roster| - 1];
      if Monitored(last, enabled) && KeyOf(Candidate(last)) !in Keys(front) then front + [Candidate(last)] else front
  }

  function Place(x: Listing): (string, string) {
    (x.provider, x.authIndex)
  }

  ghost predicate DistinctKeys(s: seq<Listing>) {
    forall i, k | 0 <= i < k < |s| :: KeyOf(s[i]) != KeyOf(s[k])
  }

  lemma FirstsStep(roster: seq<Listing>, enabled: set<string>, i: nat)
    requires i < |roster|
    ensures var front, last := Firsts(roster[..i], enabled), roster[i];
      Firsts(roster[..i + 1], enabled)
        == if Monitored(last, enabled) && KeyOf(Candidate(last)) !in Keys(front) then front + [Candidate(last)]
           else front
  {
    assert roster[..i + 1][..i] == roster[..i];
  }

  lemma KeysMore(s: seq<Listing>, x: Listing)
    ensures Keys(s + [x]) == Keys(s) + {KeyOf(x)}
  {
  }

  /** `Discover`, with its loop over the roster; the library's sort is `Sorted`. */
  method Discover(roster: seq<Listing>, enabled: set<string>) returns (result: seq<Listing>)
    ensures result == Sorted(Firsts(roster, enabled), Place)
  {
    hide Firsts, Keys, TrimSpace, KeyOf;
    result := [];
    var seen: set<string> := {};
    assert Firsts(roster[..0], enabled) == [] && Keys([]) == {} by { NoFirsts(enabled); }
    for i := 0 to |roster|
      invariant result == Firsts(roster[..i], enabled) && seen == Keys(result)
    {
      var entry := roster[i];
      FirstsStep(roster, enabled, i);
      if entry.provider !in enabled || !entry.oauth {
        continue;
      }
      entry := entry.(authIndex := TrimSpace(entry.authIndex));
      if entry.authIndex == "" {
        continue;
      }
      var key := KeyOf(entry);
      if key in seen {
        continue;
      }
      seen := seen + {key};
      KeysMore(result, entry);
      result := result + [entry];
    }
    assert roster[..|roster|] == roster;
    result := Sorted(result, Place);
  }

  lemma NoFirsts(enabled: set<string>)
    ensures Firsts([], enabled) == [] && Keys([]) == {}
  {
  }

  /** No earlier monitored entry has the same key. */
  ghost predicate IsFirst(roster: seq<Listing>, enabled: set<string>, i: nat)
    requires i < |roster|
  {
    && Monitored(roster[i], enabled)
    && forall k | 0 <= k < i && Monitored(roster[k], enabled) ::
      KeyOf(Candidate(roster[k])) != KeyOf(Candidate(roster[i]))
  }

  ghost predicate FromFirst(roster: seq<Listing>, enabled: set<string>, c: Listing) {
    exists i :: 0 <= i < |roster| && IsFirst(roster, enabled, i) && c == Candidate(roster[i])
  }

  lemma IsFirstFront(roster: seq<Listing>, enabled: set<string>, i: nat)
    requires i < |roster| - 1
    ensures IsFirst(roster[..|roster| - 1], enabled, i) <==> IsFirst(roster, enabled, i)
  {
    hide Monitored, KeyOf, Candidate;
    assert forall k | 0 <= k <= i :: roster[k] == roster[..|roster| - 1][k];
  }

  ghost predicate AllKeyed(roster: seq<Listing>, enabled: set<string>) {
    forall x | x in roster && Monitored(x, enabled) :: KeyOf(Candidate(x)) in Keys(Firsts(roster, enabled))
  }

  /** The kept entries are the first of their keys. */
  lemma {:induction false} KeptAreFirst(roster: seq<Listing>, enabled: set<string>)
    ensures forall c | c in Firsts(roster, enabled) :: FromFirst(roster, enabled, c)
    ensures AllKeyed(roster, enabled)
  {
    hide Monitored, KeyOf, Candidate, IsFirst;
    if roster != [] {
      var front, last := roster[..|roster| - 1], |roster| - 1;
      KeptAreFirst(front, enabled);
      forall c | c in Firsts(roster, enabled) ensures FromFirst(roster, enabled, c) {
        if c in Firsts(front, enabled) {
          var i :| 0 <= i < |front| && IsFirst(front, enabled, i) && c == Candidate(front[i]);
          IsFirstFront(roster, enabled, i);
        } else {
          LastIsFirst(roster, enabled);
        }
      }
      forall x | x in roster && Monitored(x, enabled) ensures KeyOf(Candidate(x)) in Keys(Firsts(roster, enabled)) {
        KeysGrow(roster, enabled);
        assert x in front || x == roster[last];
      }
    }
  }

  lemma KeysGrow(roster: seq<Listing>, enabled: set<string>)
    requires roster != []
    ensures Keys(Firsts(roster[..|roster| - 1], enabled)) <= Keys(Firsts(roster, enabled))
    ensures Monitored(roster[|roster| - 1], enabled) ==>
      KeyOf(Candidate(roster[|roster| - 1])) in Keys(Firsts(roster, enabled))
  {
    hide Monitored, KeyOf, Candidate;
    KeysMore(Firsts(roster[..|roster| - 1], enabled), Candidate(roster[|roster| - 1]));
  }

  lemma LastIsFirst(roster: seq<Listing>, enabled: set<string>)
    requires roster != [] && Monitored(roster[|roster| - 1], enabled)
    requires AllKeyed(roster[..|roster| - 1], enabled)
    requires KeyOf(Candidate(roster[|roster| - 1])) !in Keys(Firsts(roster[..|roster| - 1], enabled))
    ensures IsFirst(roster, enabled, |roster| - 1)
  {
    hide Monitored, KeyOf, Candidate, Firsts, Keys;
    var front := roster[..|roster| - 1];
    forall k | 0 <= k < |roster| - 1 && Monitored(roster[k], enabled)
      ensures KeyOf(Candidate(roster[k])) != KeyOf(Candidate(roster[|roster| - 1]))
    {
      assert roster[k] == front[k];
    }
  }

  /** And every first entry is kept. */
  lemma {:induction false} FirstsAreKept(roster: seq<Listing>, enabled: set<string>, i: nat)
    requires i < |roster| && IsFirst(roster, enabled, i)
    ensures Candidate(roster[i]) in Firsts(roster, enabled)
  {
    hide Monitored, KeyOf, Candidate, IsFirst;
    var front := roster[..|roster| - 1];
    if i < |roster| - 1 {
      IsFirstFront(roster, enabled, i);
      FirstsAreKept(front, enabled, i);
    } else {
      assert Monitored(roster[i], enabled) && KeyOf(Candidate(roster[i])) !in Keys(Firsts(front, enabled)) by {
        FirstIsNew(roster, enabled);
      }
    }
  }

  lemma FirstIsNew(roster: seq<Listing>, enabled: set<string>)
    requires roster != [] && IsFirst(roster, enabled, |roster| - 1)
    ensures Monitored(roster[|roster| - 1], enabled)
    ensures KeyOf(Candidate(roster[|roster| - 1])) !in Keys(Firsts(roster[..|roster| - 1], enabled))
  {
    hide Monitored, KeyOf, Candidate;
    var front := roster[..|roster| - 1];
    KeptAreFirst(front, enabled);
    assert forall i | 0 <= i < |front| :: roster[i] == front[i];
  }

  lemma {:induction false} FirstsDistinct(roster: seq<Listing>, enabled: set<string>)
    ensures DistinctKeys(Firsts(roster, enabled))
  {
    hide Monitored, KeyOf, Candidate;
    if roster != [] {
      FirstsDistinct(roster[..|roster| - 1], enabled);
    }
  }

  lemma KeysGivePlaces(s: seq<Listing>)
    requires DistinctKeys(s)
    ensures DistinctRanks(s, Place)
  {
    hide TrimSpace;
  }

  /** The candidates of a scan: exactly the first monitored entry of every key, no key twice, sorted. */
  lemma DiscoveredOnce(roster: seq<Listing>, enabled: set<string>)
    ensures var found := Sorted(Firsts(roster, enabled), Place);
      DistinctKeys(found) && Ordered(found, Place) && forall c :: c in found <==> FromFirst(roster, enabled, c)
  {
    hide Firsts, Sorted, KeyOf, IsFirst;
    var firsts := Firsts(roster, enabled);
    var found := Sorted(firsts, Place);
    KeptAreFirst(roster, enabled);
    FirstsDistinct(roster, enabled);
    KeysGivePlaces(firsts);
    SortedSorts(firsts, Place);
    DistinctFromMultiset(firsts, found);
    forall c ensures c in found <==> FromFirst(roster, enabled, c) {
      assert c in found <==> c in multiset(found);
      if FromFirst(roster, enabled, c) {
        var i :| 0 <= i < |roster| && IsFirst(roster, enabled, i) && c == Candidate(roster[i]);
        FirstsAreKept(roster, enabled, i);
      }
    }
  }

  lemma DistinctFromMultiset(s: seq<Listing>, r: seq<Listing>)
    requires DistinctKeys(s) && multiset(s) == multiset(r)
    ensures DistinctKeys(r)
  {
    var rank := (x: Listing) => ("", KeyOf(x));
    assert DistinctRanks(s, rank);
    RanksFromMultiset(s, r, rank);
    forall i, k | 0 <= i < k < |r| ensures KeyOf(r[i]) != KeyOf(r[k]) {
      assert rank(r[i]) != rank(r[k]);
    }
  }

  // ---------- accounts and keys ----------

  /** One string comes before another if it is a part of it at its beginning, or has the smaller rune where they
      first differ. */
  ghost predicate Precedes(a: string, b: string) {
    exists n :: 0 <= n <= |a| && n < |b| && a[..n] == b[..n] && (n == |a| || a[n] < b[n])
  }

  lemma PrecedesTail(a: string, b: string)
    requires a != [] && b != [] && a[0] == b[0]
    ensures Precedes(a, b) <==> Precedes(a[1..], b[1..])
  {
    var x, y := a[1..], b[1..];
    if Precedes(x, y) {
      var n :| 0 <= n <= |x| && n < |y| && x[..n] == y[..n] && (n == |x| || x[n] < y[n]);
      assert a[..n + 1] == [a[0]] + x[..n] && b[..n + 1] == [b[0]] + y[..n];
    }
    if Precedes(a, b) {
      var n :| 0 <= n <= |a| && n < |b| && a[..n] == b[..n] && (n == |a| || a[n] < b[n]);
      assert x[..n - 1] == a[..n][1..] && y[..n - 1] == b[..n][1..];
    }
  }

  lemma PrecedesAtOnce(a: string, b: string)
    requires a == [] || b == [] || a[0] != b[0]
    ensures Precedes(a, b) <==> b != [] && (a == [] || a[0] < b[0])
  {
    if b != [] && (a == [] || a[0] < b[0]) {
      assert a[..0] == b[..0];
    }
    if Precedes(a, b) {
      var n :| 0 <= n <= |a| && n < |b| && a[..n] == b[..n] && (n == |a| || a[n] < b[n]);
      if n > 0 { assert a[..n][0] == b[..n][0]; }
    }
  }

  lemma {:induction false} LessIsLexicographic(a: string, b: string)
    ensures Less(a, b) <==> Precedes(a, b)
  {
    hide Precedes;
    if a == [] || b == [] || a[0] != b[0] {
      PrecedesAtOnce(a, b);
    } else {
      PrecedesTail(a, b);
      LessIsLexicographic(a[1..], b[1..]);
    }
  }

  /** Under providers without a colon, a key names one provider and one index. */
  lemma KeysAreAccounts(a: Listing, b: Listing)
    requires ':' !in a.provider && ':' !in b.provider
    ensures KeyOf(a) == KeyOf(b) <==> a.provider == b.provider && TrimSpace(a.authIndex) == TrimSpace(b.authIndex)
  {
    hide TrimSpace;
    var x, y := TrimSpace(a.authIndex), TrimSpace(b.authIndex);
    var k, m := a.provider + ":" + x, b.provider + ":" + y;
    if k == m {
      assert k[|a.provider|] == ':' && m[|b.provider|] == ':';
      assert |a.provider| == |b.provider|;
      assert a.provider == k[..|a.provider|] && b.provider == m[..|b.provider|];
      assert x == k[|a.provider| + 1..] && y == m[|b.provider| + 1..];
    }
  }

  /** Entry `i` is the first sign-in account of an enabled provider with its index, spaces aside. */
  ghost predicate Leads(roster: seq<Listing>, enabled: set<string>, i: nat)
    requires i < |roster|
  {
    && roster[i].provider in enabled && roster[i].oauth && TrimSpace(roster[i].authIndex) != ""
    && forall k | 0 <= k < i && roster[k].oauth && roster[k].provider == roster[i].provider ::
         TrimSpace(roster[k].authIndex) != TrimSpace(roster[i].authIndex)
  }

  lemma LeadersAreFirst(roster: seq<Listing>, enabled: set<string>, i: nat)
    requires i < |roster| && forall provider | provider in enabled :: ':' !in provider
    ensures IsFirst(roster, enabled, i) <==> Leads(roster, enabled, i)
  {
    hide TrimSpace, KeyOf;
    if Monitored(roster[i], enabled) {
      forall k | 0 <= k < i && Monitored(roster[k], enabled)
        ensures KeyOf(Candidate(roster[k])) == KeyOf(Candidate(roster[i])) <==>
          roster[k].provider == roster[i].provider
            && TrimSpace(roster[k].authIndex) == TrimSpace(roster[i].authIndex)
      {
        KeysAreAccounts(Candidate(roster[k]), Candidate(roster[i]));
        TrimTwice(roster[k].authIndex);
        TrimTwice(roster[i].authIndex);
      }
    }
  }

  function Tidied(x: Listing): Listing {
    Listing(x.provider, TrimSpace(x.authIndex), x.identity, x.oauth)
  }

  /** What a scan looks at: every sign-in account of an enabled provider, once, as the roster first lists it,
      with the spaces around its index gone; ordered by provider, then by index. */
  lemma EveryAccountOnce(roster: seq<Listing>, enabled: set<string>)
    requires forall provider | provider in enabled :: ':' !in provider
    ensures var found := Sorted(Firsts(roster, enabled), Place);
      && (forall c :: c in found <==>
            exists i :: 0 <= i < |roster| && Leads(roster, enabled, i) && c == Tidied(roster[i]))
      && (forall i, k | 0 <= i < k < |found| ::
            if found[i].provider == found[k].provider then Precedes(found[i].authIndex, found[k].authIndex)
            else Precedes(found[i].provider, found[k].provider))
  {
    hide TrimSpace, Firsts, Sorted, Leads, IsFirst, Less, Precedes;
    var found := Sorted(Firsts(roster, enabled), Place);
    DiscoveredOnce(roster, enabled);
    forall i | 0 <= i < |roster| ensures IsFirst(roster, enabled, i) <==> Leads(roster, enabled, i) {
      LeadersAreFirst(roster, enabled, i);
    }
    forall i, k | 0 <= i < k < |found|
      ensures if found[i].provider == found[k].provider then Precedes(found[i].authIndex, found[k].authIndex)
              else Precedes(found[i].provider, found[k].provider)
    {
      LessIsLexicographic(found[i].authIndex, found[k].authIndex);
      LessIsLexicographic(found[i].provider, found[k].provider);
    }
  }
}
