/** Coalesced notifications: how jobs of one kind are packed into messages of at most 1024 runes. */
module Coalesce {
  import opened Text

  datatype Message = Message(kind: string, priority: int, provider: string, name: string, reason: string)

  /** A job handed to the dispatcher; `id` stands for the identity of its dispatch state. */
  datatype Job = Job(id: nat, message: Message)

  const MAX_RUNES: int := 1024

  function Header(): string { " account transitions were detected:\n" }

  /** `strconv.Itoa` on a count. */
  function Itoa(n: nat): (s: string)
    ensures |s| >= 1
    ensures forall i | 0 <= i < |s| :: '0' <= s[i] <= '9'
  {
    var digit := [(n % 10) as char + '0'];
    if n < 10 then digit else Itoa(n / 10) + digit
  }

  function Tail(m: Message): string {
    var reason := BoundText(m.reason, 80);
    if reason != "" then " (" + reason + ")\n" else "\n"
  }

  function Line(m: Message): string {
    "- " + BoundText(m.provider, 32) + ": " + BoundText(m.name, 120) + Tail(m)
  }

  function Lines(jobs: seq<Job>): string {
    if jobs == [] then "" else Lines(jobs[..|jobs| - 1]) + Line(jobs[|jobs| - 1].message)
  }

  /** The body of `coalescedMessage`. */
  function Body(jobs: seq<Job>): string {
    TrimSpace(Itoa(|jobs|) + Header() + Lines(jobs))
  }

  predicate Fits(jobs: seq<Job>) {
    |Body(jobs)| <= MAX_RUNES
  }

  // ---------- the length of a body ----------

  lemma PrintableAppend(a: string, b: string)
    requires Printable(a, true) && Printable(b, true)
    ensures Printable(a + b, true)
  {
  }

  lemma ReasonShape(m: Message)
    ensures |Tail(m)| <= 84 && |Tail(m)| >= 1
    ensures Printable(Tail(m), true) && Tail(m)[|Tail(m)| - 1] == '\n'
  {
    var reason := BoundText(m.reason, 80);
    BoundTextIsOneShortLine(m.reason, 80);
    if reason != "" {
      PrintableAppend(" (", reason);
      PrintableAppend(" (" + reason, ")\n");
      assert Tail(m) == " (" + reason + ")\n";
    }
  }

  lemma LineShape(m: Message)
    ensures 5 <= |Line(m)| <= 240
    ensures Line(m)[0] == '-' && Printable(Line(m), true)
    ensures 1 <= |TrimRight(Line(m))| < |Line(m)|
  {
    hide Line;
    LinePrintable(m);
    LineExtent(m);
    TrimRightReaches(Line(m), 0);
  }

  lemma LinePrintable(m: Message)
    ensures Printable(Line(m), true)
  {
    hide BoundText, Tail, Printable;
    var provider, name := BoundText(m.provider, 32), BoundText(m.name, 120);
    BoundTextIsOneShortLine(m.provider, 32);
    BoundTextIsOneShortLine(m.name, 120);
    PrintableLine(provider);
    PrintableLine(name);
    ReasonShape(m);
    LineMarks();
    PrintableAppend("- ", provider);
    PrintableAppend("- " + provider, ": ");
    PrintableAppend("- " + provider + ": ", name);
    PrintableAppend("- " + provider + ": " + name, Tail(m));
  }

  lemma PrintableLine(s: string)
    requires Printable(s, false)
    ensures Printable(s, true)
  {
  }

  lemma LineMarks()
    ensures Printable("- ", true) && Printable(": ", true)
  {
  }

  lemma LineExtent(m: Message)
    ensures 5 <= |Line(m)| <= 240
    ensures Line(m)[0] == '-' && Line(m)[|Line(m)| - 1] == '\n'
  {
    hide BoundText, Tail, Printable;
    BoundTextIsOneShortLine(m.provider, 32);
    BoundTextIsOneShortLine(m.name, 120);
    ReasonShape(m);
    var line := Line(m);
    assert line[|line| - 1] == Tail(m)[|Tail(m)| - 1];
  }

  /** Right trimming stops at a visible rune. */
  lemma {:induction false} TrimRightReaches(s: string, i: nat)
    requires i < |s| && !IsSpace(s[i])
    ensures |TrimRight(s)| > i
    decreases |s|
  {
    if IsSpace(s[|s| - 1]) {
      TrimRightReaches(s[..|s| - 1], i);
    }
  }

  function {:induction false} LinesLength(jobs: seq<Job>): (n: nat)
    ensures n == |Lines(jobs)|
  {
    if jobs == [] then 0 else LinesLength(jobs[..|jobs| - 1]) + |Line(jobs[|jobs| - 1].message)|
  }

  /** The exact rune count of a body: only the last line can lose runes to trimming. */
  function BodyLength(jobs: seq<Job>): nat
    requires jobs != []
  {
    var last := |jobs| - 1;
    |Itoa(|jobs|)| + |Header()| + |Lines(jobs[..last])| + |TrimRight(Line(jobs[last].message))|
  }

  lemma TrimFront(front: string, line: string)
    requires front != [] && !IsSpace(front[0]) && TrimRight(line) != []
    ensures TrimSpace(front + line) == front + TrimRight(line)
  {
    assert (front + line)[0] == front[0];
    assert TrimLeft(front + line) == front + line;
    TrimRightAppend(front, line);
  }

  lemma Regroup(a: string, b: string, c: string, d: string)
    ensures a + b + (c + d) == (a + b + c) + d
    ensures a != [] ==> (a + b + c) != [] && (a + b + c)[0] == a[0]
  {
  }

  lemma BodyShape(jobs: seq<Job>)
    requires jobs != []
    ensures Body(jobs) == Itoa(|jobs|) + Header() + Lines(jobs[..|jobs| - 1])
      + TrimRight(Line(jobs[|jobs| - 1].message))
    ensures |Body(jobs)| == BodyLength(jobs)
  {
    hide Header, Line;
    var init := Lines(jobs[..|jobs| - 1]);
    var line := Line(jobs[|jobs| - 1].message);
    LineShape(jobs[|jobs| - 1].message);
    Regroup(Itoa(|jobs|), Header(), init, line);
    TrimFront(Itoa(|jobs|) + Header() + init, line);
  }

  lemma HeaderShape()
    ensures |Header()| == 36 && Printable(Header(), true)
  {
  }

  // ---------- dropping jobs never lengthens a body ----------

  /** `a` is what is left of `b` when some jobs are dropped; order is kept. */
  ghost predicate Subsequence(a: seq<Job>, b: seq<Job>) {
    || a == []
    || (b != [] && a[|a| - 1] == b[|b| - 1] && Subsequence(a[..|a| - 1], b[..|b| - 1]))
    || (b != [] && Subsequence(a, b[..|b| - 1]))
  }

  lemma {:induction false} ItoaMonotone(a: nat, b: nat)
    requires a <= b
    ensures |Itoa(a)| <= |Itoa(b)|
  {
    if a >= 10 {
      ItoaMonotone(a / 10, b / 10);
    }
  }

  lemma {:induction false} SubsequenceLines(a: seq<Job>, b: seq<Job>)
    requires Subsequence(a, b)
    ensures |a| <= |b| && |Lines(a)| <= |Lines(b)|
    decreases |b|
  {
    if a != [] {
      if a[|a| - 1] == b[|b| - 1] && Subsequence(a[..|a| - 1], b[..|b| - 1]) {
        SubsequenceLines(a[..|a| - 1], b[..|b| - 1]);
      } else {
        SubsequenceLines(a, b[..|b| - 1]);
      }
    }
  }

  /** What is left of a group after re-validation has a body no longer than the group's. */
  lemma BodyShrinks(a: seq<Job>, b: seq<Job>)
    requires Subsequence(a, b) && a != []
    ensures |Body(a)| <= |Body(b)|
  {
    hide Header, Line, Itoa;
    SubsequenceLines(a, b);
    ItoaMonotone(|a|, |b|);
    BodyShape(a);
    BodyShape(b);
    LineShape(a[|a| - 1].message);
    LineShape(b[|b| - 1].message);
    if a[|a| - 1] == b[|b| - 1] && Subsequence(a[..|a| - 1], b[..|b| - 1]) {
      SubsequenceLines(a[..|a| - 1], b[..|b| - 1]);
    } else {
      SubsequenceLines(a, b[..|b| - 1]);
    }
  }

  lemma FitsShrinks(a: seq<Job>, b: seq<Job>)
    requires Subsequence(a, b) && a != [] && Fits(b)
    ensures Fits(a)
  {
    hide Body;
    BodyShrinks(a, b);
  }

  lemma {:induction false} SubsequenceSelf(a: seq<Job>)
    ensures Subsequence(a, a)
    decreases |a|
  {
    if a != [] {
      SubsequenceSelf(a[..|a| - 1]);
    }
  }

  lemma {:induction false} PrefixIsSubsequence(b: seq<Job>, n: nat)
    requires n <= |b|
    ensures Subsequence(b[..n], b)
    decreases |b|
  {
    if n == |b| {
      assert b[..n] == b;
      SubsequenceSelf(b);
    } else {
      assert b[..|b| - 1][..n] == b[..n];
      PrefixIsSubsequence(b[..|b| - 1], n);
    }
  }

  lemma {:induction false} SuffixIsSubsequence(b: seq<Job>, n: nat)
    requires n <= |b|
    ensures Subsequence(b[n..], b)
    decreases |b|
  {
    if n < |b| {
      assert b[n..][..|b| - n - 1] == b[..|b| - 1][n..];
      SuffixIsSubsequence(b[..|b| - 1], n);
    }
  }

  // ---------- small groups always fit ----------

  lemma {:induction false} LinesAtMost(jobs: seq<Job>)
    ensures |Lines(jobs)| <= 240 * |jobs|
    decreases |jobs|
  {
    if jobs != [] {
      LinesAtMost(jobs[..|jobs| - 1]);
      LineShape(jobs[|jobs| - 1].message);
    }
  }

  lemma FourJobsFit(jobs: seq<Job>)
    requires 1 <= |jobs| <= 4
    ensures Fits(jobs)
  {
    hide Header, Line;
    BodyShape(jobs);
    LinesAtMost(jobs[..|jobs| - 1]);
    LineShape(jobs[|jobs| - 1].message);
    HeaderShape();
  }

  // ---------- the greedy split ----------

  function Flatten(groups: seq<seq<Job>>): seq<Job> {
    if groups == [] then [] else groups[0] + Flatten(groups[1..])
  }

  /** How far the group starting at `jobs[0]` extends once its first `n` jobs are in it. */
  function Extent(jobs: seq<Job>, n: nat): (m: nat)
    requires n <= |jobs|
    ensures n <= m <= |jobs|
    decreases |jobs| - n
  {
    if n < |jobs| && Fits(jobs[..n + 1]) then Extent(jobs, n + 1) else n
  }

  function Split(jobs: seq<Job>): seq<seq<Job>>
    decreases |jobs|
  {
    if jobs == [] then [] else
      var n := Extent(jobs, 1);
      [jobs[..n]] + Split(jobs[n..])
  }

  lemma {:induction false} ExtentOfPrefix(a: seq<Job>, b: seq<Job>, n: nat)
    requires n <= |a| && Extent(a, n) == |a|
    ensures Extent(a + b, n) == Extent(a + b, |a|)
    decreases |a| - n
  {
    hide Fits;
    if n < |a| {
      assert (a + b)[..n + 1] == a[..n + 1];
      ExtentOfPrefix(a, b, n + 1);
    }
  }

  /** Closing `current` in front of `rest`. */
  lemma SplitCloses(current: seq<Job>, rest: seq<Job>)
    requires current != [] && Extent(current, 1) == |current|
    requires rest != [] ==> !Fits(current + [rest[0]])
    ensures Split(current + rest) == [current] + Split(rest)
  {
    hide Fits;
    var all := current + rest;
    ExtentOfPrefix(current, rest, 1);
    if rest != [] {
      assert all[..|current| + 1] == current + [rest[0]];
    }
    assert Extent(all, 1) == |current|;
    assert all[..|current|] == current && all[|current|..] == rest;
  }

  lemma {:induction false} ExtentGrows(current: seq<Job>, job: Job, n: nat)
    requires n <= |current| && Extent(current, n) == |current| && Fits(current + [job])
    ensures Extent(current + [job], n) == |current| + 1
    decreases |current| - n
  {
    hide Fits;
    ExtentOfPrefix(current, [job], n);
    assert (current + [job])[..|current| + 1] == current + [job];
  }

  /** The loop of `splitCoalescedJobs`. */
  method SplitCoalescedJobs(jobs: seq<Job>) returns (groups: seq<seq<Job>>)
    ensures groups == Split(jobs)
  {
    hide Fits, Split, Extent;
    groups := [];
    var current: seq<Job> := [];
    assert [] + Split(current + jobs[0..]) == Split(jobs) by {
      assert current + jobs[0..] == jobs;
    }
    for i := 0 to |jobs|
      invariant current == [] ==> i == 0
      invariant current != [] ==> Extent(current, 1) == |current|
      invariant groups + Split(current + jobs[i..]) == Split(jobs)
    {
      var candidate := current + [jobs[i]];
      assert candidate + jobs[i + 1..] == current + jobs[i..];
      assert [jobs[i]] + jobs[i + 1..] == jobs[i..];
      SingletonExtent(jobs[i]);
      if |current| > 0 && !Fits(candidate) {
        SplitCloses(current, jobs[i..]);
        groups := groups + [current];
        current := [jobs[i]];
        continue;
      }
      if current != [] {
        ExtentGrows(current, jobs[i], 1);
      }
      current := candidate;
    }
    assert current + jobs[|jobs|..] == current + [];
    SplitEmpty();
    if |current| > 0 {
      SplitCloses(current, []);
      groups := groups + [current];
    }
  }

  lemma SingletonExtent(job: Job)
    ensures Extent([job], 1) == 1
  {
    hide Fits;
  }

  lemma SplitEmpty()
    ensures Split([]) == []
  {
  }

  // ---------- what the split guarantees ----------

  ghost predicate Sendable(group: seq<Job>) {
    group != [] && Fits(group)
  }

  lemma {:induction false} ExtentFits(jobs: seq<Job>, n: nat)
    requires 1 <= n <= |jobs| && Fits(jobs[..n])
    ensures var m := Extent(jobs, n);
            Fits(jobs[..m]) && (m < |jobs| ==> !Fits(jobs[..m + 1]))
    decreases |jobs| - n
  {
    hide Fits;
    if n < |jobs| && Fits(jobs[..n + 1]) {
      ExtentFits(jobs, n + 1);
    }
  }

  /** The first group fits, and one more job would not. */
  lemma FirstGroup(jobs: seq<Job>)
    requires jobs != []
    ensures var n := Extent(jobs, 1);
            && Sendable(jobs[..n])
            && (n < |jobs| ==> !Fits(jobs[..n + 1]) && 4 <= n)
  {
    hide Fits;
    FourJobsFit(jobs[..1]);
    ExtentFits(jobs, 1);
    var n := Extent(jobs, 1);
    if n < |jobs| && n < 4 {
      FourJobsFit(jobs[..n + 1]);
    }
  }

  /** Order and content are kept, every group fits, and only the last may hold fewer than four jobs. */
  lemma {:induction false} SplitPartitions(jobs: seq<Job>)
    ensures Flatten(Split(jobs)) == jobs
    ensures forall g | g in Split(jobs) :: Sendable(g)
    ensures forall i | 0 <= i < |Split(jobs)| - 1 :: |Split(jobs)[i]| >= 4
    decreases |jobs|
  {
    hide Fits;
    if jobs != [] {
      var n := Extent(jobs, 1);
      FirstGroup(jobs);
      SplitPartitions(jobs[n..]);
      assert jobs == jobs[..n] + jobs[n..];
      assert n == |jobs| ==> Split(jobs[n..]) == [];
    }
  }

  /** No group has room for the next job. */
  ghost predicate Tight(groups: seq<seq<Job>>) {
    forall i, k | 0 <= i < k < |groups| && k == i + 1 :: NoRoom(groups[i], groups[k])
  }

  ghost predicate NoRoom(group: seq<Job>, next: seq<Job>) {
    next != [] && |Body(group + [next[0]])| > 1024
  }

  /** The split is tight. */
  lemma {:induction false} SplitIsTight(jobs: seq<Job>)
    ensures Tight(Split(jobs))
    decreases |jobs|
  {
    hide Body;
    if jobs != [] {
      var n := Extent(jobs, 1);
      FirstGroup(jobs);
      SplitIsTight(jobs[n..]);
      SplitPartitions(jobs[n..]);
      var rest, all := Split(jobs[n..]), Split(jobs);
      assert all == [jobs[..n]] + rest;
      if rest != [] {
        assert rest[0] in rest && rest[0][0] == Flatten(rest)[0] == jobs[n];
        assert jobs[..n] + [jobs[n]] == jobs[..n + 1];
      }
      forall i, k | 0 <= i < k < |all| && k == i + 1 ensures NoRoom(all[i], all[k]) {
        if i > 0 {
          assert all[i] == rest[i - 1] && all[k] == rest[k - 1];
        }
      }
    }
  }

  /** And the only way to cut the jobs into groups that can be sent and have no room for the next job. */
  lemma {:induction false} SplitIsUnique(jobs: seq<Job>, groups: seq<seq<Job>>)
    requires Flatten(groups) == jobs && Tight(groups) && forall g | g in groups :: Sendable(g)
    ensures groups == Split(jobs)
    decreases |jobs|
  {
    hide Body;
    if groups != [] {
      var first, rest := groups[0], groups[1..];
      assert first in groups && Sendable(first);
      assert jobs == first + Flatten(rest);
      var n := |first|;
      assert jobs[..n] == first && jobs[n..] == Flatten(rest);
      FirstGroupLongest(jobs, n);
      if rest != [] {
        assert groups[1] == rest[0] && NoRoom(groups[0], groups[1]) && jobs[n] == rest[0][0];
        assert jobs[..n + 1] == first + [rest[0][0]];
        FirstGroupShort(jobs, n);
      }
      forall g | g in rest ensures Sendable(g) { assert g in groups; }
      forall i, k | 0 <= i < k < |rest| && k == i + 1 ensures NoRoom(rest[i], rest[k]) {
        assert rest[i] == groups[i + 1] && rest[k] == groups[k + 1];
      }
      SplitIsUnique(jobs[n..], rest);
    }
  }

  /** The greedy first group ends where one more job would not fit. */
  lemma FirstGroupShort(jobs: seq<Job>, n: nat)
    requires 1 <= n < |jobs| && !Fits(jobs[..n + 1])
    ensures Extent(jobs, 1) <= n
  {
    hide Fits;
    FirstGroup(jobs);
    var m := Extent(jobs, 1);
    if m > n {
      assert jobs[..m][..n + 1] == jobs[..n + 1];
      PrefixIsSubsequence(jobs[..m], n + 1);
      FitsShrinks(jobs[..n + 1], jobs[..m]);
    }
  }

  lemma {:induction false} ExtentReaches(jobs: seq<Job>, n: nat, k: nat)
    requires n <= k <= |jobs|
    requires forall i | n < i <= k :: Fits(jobs[..i])
    ensures Extent(jobs, n) >= k
    decreases k - n
  {
    hide Fits;
    if n < k {
      ExtentReaches(jobs, n + 1, k);
    }
  }

  /** A fitting prefix of length `k` is within the greedy first group. */
  lemma FirstGroupLongest(jobs: seq<Job>, k: nat)
    requires 1 <= k <= |jobs| && Fits(jobs[..k])
    ensures Extent(jobs, 1) >= k
  {
    hide Fits;
    forall i | 1 < i <= k ensures Fits(jobs[..i]) {
      assert jobs[..k][..i] == jobs[..i];
      PrefixIsSubsequence(jobs[..k], i);
      FitsShrinks(jobs[..i], jobs[..k]);
    }
    ExtentReaches(jobs, 1, k);
  }

  /** A first greedy group reaches at least to the end of the group that fits there. */
  lemma GreedyReaches(group: seq<Job>, rest: seq<Job>, k: nat)
    requires Sendable(group) && k < |group|
    ensures var suffix := (group + rest)[k..]; var n := Extent(suffix, 1);
      |group| - k <= n && suffix[n..] == rest[n - (|group| - k)..]
  {
    hide Fits;
    var suffix, m := (group + rest)[k..], |group| - k;
    assert suffix[..m] == group[k..];
    SuffixIsSubsequence(group, k);
    FitsShrinks(group[k..], group);
    FirstGroupLongest(suffix, m);
  }

  /** Greedy stays ahead: splitting any suffix of the partitioned jobs takes no more groups. */
  lemma {:induction false} GreedyStaysAhead(partition: seq<seq<Job>>, k: nat)
    requires forall g | g in partition :: Sendable(g)
    requires k <= |Flatten(partition)|
    ensures |Split(Flatten(partition)[k..])| <= |partition|
    decreases |partition|
  {
    hide Sendable, Extent;
    if partition != [] && k < |Flatten(partition)| {
      var group, tail := partition[0], partition[1..];
      var rest := Flatten(tail);
      var suffix := Flatten(partition)[k..];
      assert Flatten(partition) == group + rest;
      if |group| <= k {
        assert suffix == rest[k - |group|..];
        GreedyStaysAhead(tail, k - |group|);
      } else {
        assert Sendable(partition[0]);
        GreedyReaches(group, rest, k);
        GreedyStaysAhead(tail, Extent(suffix, 1) - (|group| - k));
      }
    }
  }

  /** No contiguous partition into groups that fit uses fewer messages. */
  lemma SplitIsMinimal(jobs: seq<Job>, partition: seq<seq<Job>>)
    requires Flatten(partition) == jobs && forall g | g in partition :: Sendable(g)
    ensures |Split(jobs)| <= |partition|
  {
    hide Fits;
    GreedyStaysAhead(partition, 0);
    assert jobs[0..] == jobs;
  }

  lemma {:induction false} LinesPrintable(jobs: seq<Job>)
    ensures Printable(Lines(jobs), true)
    decreases |jobs|
  {
    if jobs != [] {
      LinesPrintable(jobs[..|jobs| - 1]);
      LineShape(jobs[|jobs| - 1].message);
      PrintableAppend(Lines(jobs[..|jobs| - 1]), Line(jobs[|jobs| - 1].message));
    }
  }

  lemma TrimLeftPrintable(s: string)
    requires Printable(s, true)
    ensures Printable(TrimSpace(s), true)
  {
    assert Printable(TrimLeft(s), true);
  }

  lemma TrimTrimmed(front: string, line: string)
    requires front != [] && !IsSpace(front[0]) && TrimRight(line) != []
    ensures TrimSpace(front + TrimRight(line)) == front + TrimRight(line)
  {
    assert TrimRight(TrimRight(line)) == TrimRight(line);
    TrimFront(front, TrimRight(line));
  }

  lemma TrimTrimmedParts(a: string, b: string, c: string, line: string)
    requires a != [] && !IsSpace(a[0]) && TrimRight(line) != []
    ensures TrimSpace(a + b + c + TrimRight(line)) == a + b + c + TrimRight(line)
  {
    Regroup(a, b, c, line);
    TrimTrimmed(a + b + c, line);
  }

  lemma ItoaVisible(n: nat)
    ensures !IsSpace(Itoa(n)[0])
  {
  }

  lemma BodyTrimmed(jobs: seq<Job>)
    requires jobs != []
    ensures TrimSpace(Body(jobs)) == Body(jobs)
  {
    hide *;
    var init := Lines(jobs[..|jobs| - 1]);
    var line := Line(jobs[|jobs| - 1].message);
    ItoaVisible(|jobs|);
    BodyShape(jobs);
    LineShape(jobs[|jobs| - 1].message);
    TrimTrimmedParts(Itoa(|jobs|), Header(), init, line);
  }

  lemma BodyPrintable(jobs: seq<Job>)
    ensures Printable(Body(jobs), true)
  {
    hide Lines, Line, Header;
    LinesPrintable(jobs);
    HeaderShape();
    PrintableAppend(Itoa(|jobs|), Header());
    PrintableAppend(Itoa(|jobs|) + Header(), Lines(jobs));
    TrimLeftPrintable(Itoa(|jobs|) + Header() + Lines(jobs));
  }

  /** The body the client sends for what re-validation leaves of a group: a single survivor's own, or the
      coalesced one, either bounded once more. */
  function SentBody(left: seq<Job>, own: Job -> string): string
    requires left != []
  {
    BoundMessage(if |left| > 1 then Body(left) else own(left[0]), MAX_RUNES)
  }

  /** Whatever re-validation leaves of a group produced by the split goes out within the bound: several
      survivors with exactly their coalesced body, a single one with its own message, as it is if that is
      trimmed, printable and short enough. */
  lemma SentBodyIsVerbatim(jobs: seq<Job>, group: seq<Job>, left: seq<Job>, own: Job -> string)
    requires group in Split(jobs) && Subsequence(left, group) && left != []
    ensures |SentBody(left, own)| <= MAX_RUNES && |Body(left)| <= MAX_RUNES
    ensures BoundMessage(Body(left), MAX_RUNES) == Body(left)
    ensures |left| > 1 ==> SentBody(left, own) == Body(left)
    ensures |left| == 1 ==> var text := own(left[0]);
      Printable(text, true) && TrimSpace(text) == text && |text| <= MAX_RUNES ==> SentBody(left, own) == text
  {
    hide Body, TrimSpace, Printable;
    SplitPartitions(jobs);
    BodyShrinks(left, group);
    BodyPrintable(left);
    BodyTrimmed(left);
    BoundMessageKeeps(Body(left), MAX_RUNES);
    if Printable(own(left[0]), true) && TrimSpace(own(left[0])) == own(left[0]) && |own(left[0])| <= MAX_RUNES {
      BoundMessageKeeps(own(left[0]), MAX_RUNES);
    }
  }
}
