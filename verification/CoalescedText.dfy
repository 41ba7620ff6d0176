/** What a coalesced message says: a count, and one line for every job, whatever the texts in it contain. */
module CoalescedText {
  import opened Text
  import opened Coalesce

  // ---------- the loop that writes the body ----------

  lemma FivePieces(t: string, a: string, b: string, c: string, d: string, e: string)
    ensures t + a + b + c + d + e == t + (a + b + c + d + e)
  {
  }

  lemma FourPieces(t: string, a: string, b: string, c: string, d: string)
    ensures t + a + b + c + d == t + (a + b + (c + d))
  {
  }

  lemma LastPiece()
    ensures ")" + "\n" == ")\n"
  {
  }

  /** The brackets around a reason, if there is one, and the end of the line. */
  method WriteTail(text: string, message: Message) returns (more: string)
    ensures more == text + Tail(message)
  {
    hide BoundText;
    more := text;
    var reason := BoundText(message.reason, 80);
    if reason != "" {
      more := more + " (";
      more := more + reason;
      more := more + ")";
      FourPieces(text, " (", reason, ")", "\n");
      LastPiece();
    }
    more := more + "\n";
  }

  method WriteLine(text: string, message: Message) returns (more: string)
    ensures more == text + Line(message)
  {
    hide BoundText, Tail;
    more := text;
    more := more + "- ";
    more := more + BoundText(message.provider, 32);
    more := more + ": ";
    more := more + BoundText(message.name, 120);
    FivePieces(text, "- ", BoundText(message.provider, 32), ": ", BoundText(message.name, 120), Tail(message));
    more := WriteTail(more, message);
  }

  lemma MoreLines(head: string, jobs: seq<Job>, n: nat)
    requires n < |jobs|
    ensures head + Lines(jobs[..n]) + Line(jobs[n].message) == head + Lines(jobs[..n + 1])
  {
    hide Line;
    assert jobs[..n + 1][..n] == jobs[..n] && jobs[..n + 1][n] == jobs[n];
  }

  /** The body of `coalescedMessage`, written piece by piece. */
  method WriteBody(jobs: seq<Job>) returns (body: string)
    ensures body == Body(jobs)
  {
    hide Line, Itoa, Header, TrimSpace, Lines;
    var text := Itoa(|jobs|);
    text := text + Header();
    ghost var head := text;
    var n := 0;
    NoLines(head);
    while n < |jobs|
      invariant n <= |jobs| && text == head + Lines(jobs[..n])
    {
      MoreLines(head, jobs, n);
      text := WriteLine(text, jobs[n].message);
      n := n + 1;
    }
    assert jobs[..n] == jobs;
    body := TrimSpace(text);
  }

  lemma NoLines(head: string)
    ensures head + Lines([]) == head
  {
  }

  // ---------- the count ----------

  /** The number a text of digits stands for. */
  function NumberOf(s: string): int {
    if s == "" then 0 else 10 * NumberOf(s[..|s| - 1]) + (s[|s| - 1] as int - '0' as int)
  }

  /** The count reads back as the number it was, and has no leading zero. */
  lemma {:induction false} CountReadsBack(n: nat)
    ensures NumberOf(Itoa(n)) == n
    ensures n > 0 ==> Itoa(n)[0] != '0'
  {
    if n >= 10 {
      CountReadsBack(n / 10);
      var digit := [(n % 10) as char + '0'];
      assert Itoa(n) == Itoa(n / 10) + digit;
      assert Itoa(n)[..|Itoa(n)| - 1] == Itoa(n / 10);
    } else {
      assert Itoa(n) == [n as char + '0'];
      assert NumberOf(Itoa(n)[..0]) == 0;
    }
  }

  // ---------- the lines ----------

  /** A text cut at its newlines. */
  function LinesOf(s: string): (r: seq<string>)
    ensures r != []
  {
    if s == "" then [""]
    else
      var front := LinesOf(s[..|s| - 1]);
      if s[|s| - 1] == '\n' then front + [""]
      else front[..|front| - 1] + [front[|front| - 1] + [s[|s| - 1]]]
  }

  predicate OneLine(s: string) {
    '\n' !in s
  }

  lemma {:induction false} MoreText(a: string, b: string)
    requires OneLine(b)
    ensures var r := LinesOf(a); LinesOf(a + b) == r[..|r| - 1] + [r[|r| - 1] + b]
  {
    var r := LinesOf(a);
    if b == "" {
      assert a + b == a && r[|r| - 1] + b == r[|r| - 1];
    } else {
      var n := |b| - 1;
      assert (a + b)[..|a + b| - 1] == a + b[..n] && (a + b)[|a + b| - 1] == b[n];
      MoreText(a, b[..n]);
      assert r[|r| - 1] + b[..n] + [b[n]] == r[|r| - 1] + b;
    }
  }

  /** A line ended, and another begun. */
  lemma NextLine(a: string, b: string)
    requires OneLine(b) && LinesOf(a)[|LinesOf(a)| - 1] == ""
    ensures LinesOf(a + b + "\n") == LinesOf(a)[..|LinesOf(a)| - 1] + [b] + [""]
    ensures LinesOf(a + b) == LinesOf(a)[..|LinesOf(a)| - 1] + [b]
  {
    MoreText(a, b);
    assert "" + b == b;
    assert (a + b + "\n")[..|a + b|] == a + b;
  }

  function Bracketed(reason: string): string {
    if reason == "" then "" else " (" + reason + ")"
  }

  /** What a job's line says: provider, account name, and the reason if there is one, all bounded. */
  function Saying(m: Message): string {
    "- " + BoundText(m.provider, 32) + ": " + BoundText(m.name, 120) + Bracketed(BoundText(m.reason, 80))
  }

  function Sayings(jobs: seq<Job>): seq<string> {
    seq(|jobs|, n requires 0 <= n < |jobs| => Saying(jobs[n].message))
  }

  lemma NoNewline(s: string, t: string)
    ensures Printable(s, false) ==> OneLine(s)
    ensures OneLine(s) && OneLine(t) ==> OneLine(s + t)
  {
  }

  lemma Marks()
    ensures OneLine("- ") && OneLine(": ") && OneLine(" (") && OneLine(")") && OneLine("")
  {
  }

  lemma BracketedIsOneLine(m: Message)
    ensures OneLine(Bracketed(BoundText(m.reason, 80))) && Tail(m) == Bracketed(BoundText(m.reason, 80)) + "\n"
  {
    hide BoundText, OneLine, Printable;
    var reason := BoundText(m.reason, 80);
    BoundTextIsOneShortLine(m.reason, 80);
    Marks();
    NoNewline(reason, ")");
    NoNewline(" (", reason);
    NoNewline(" (" + reason, ")");
    LastPiece();
    FourPieces("", " (", reason, ")", "\n");
  }

  lemma SayingIsOneLine(m: Message)
    ensures OneLine(Saying(m)) && Line(m) == Saying(m) + "\n"
  {
    hide BoundText, OneLine, Printable, Bracketed, Tail;
    var provider, name := BoundText(m.provider, 32), BoundText(m.name, 120);
    var rest := Bracketed(BoundText(m.reason, 80));
    BoundTextIsOneShortLine(m.provider, 32);
    BoundTextIsOneShortLine(m.name, 120);
    BracketedIsOneLine(m);
    Marks();
    NoNewline(provider, "");
    NoNewline(name, "");
    NoNewline("- ", provider);
    NoNewline("- " + provider, ": ");
    NoNewline("- " + provider + ": ", name);
    NoNewline("- " + provider + ": " + name, rest);
    Ending("- " + provider + ": " + name, rest);
  }

  lemma Ending(a: string, b: string)
    ensures a + (b + "\n") == a + b + "\n"
  {
  }

  const TITLE := " account transitions were detected:"

  lemma HeadIsOneLine(n: nat)
    ensures OneLine(Itoa(n) + TITLE) && Itoa(n) + Header() == Itoa(n) + TITLE + "\n"
  {
  }

  lemma {:induction false} LinesSay(head: string, jobs: seq<Job>)
    requires OneLine(head)
    ensures LinesOf(head + "\n" + Lines(jobs)) == [head] + Sayings(jobs) + [""]
  {
    hide Line, Saying, OneLine, LinesOf;
    if jobs == [] {
      FirstLine(head);
      NoLines(head + "\n");
    } else {
      var front, last := jobs[..|jobs| - 1], jobs[|jobs| - 1];
      LinesSay(head, front);
      var text := head + "\n" + Lines(front);
      SayingIsOneLine(last.message);
      NextLine(text, Saying(last.message));
      Ending(text, Saying(last.message));
      Ending(Lines(front), Saying(last.message));
      Joined(head + "\n", Lines(front), Line(last.message));
      MoreSayings([head], Sayings(front), Saying(last.message));
      assert Sayings(jobs) == Sayings(front) + [Saying(last.message)];
    }
  }

  lemma FirstLine(head: string)
    requires OneLine(head)
    ensures LinesOf(head + "\n") == [head] + [] + [""]
  {
    hide OneLine;
    assert LinesOf("") == [""];
    NextLine("", head);
    assert "" + head + "\n" == head + "\n";
  }

  lemma Joined(a: string, b: string, c: string)
    ensures a + (b + c) == a + b + c
  {
  }

  lemma MoreSayings(head: seq<string>, said: seq<string>, next: string)
    ensures (head + said + [""])[..|head + said + [""]| - 1] + [next] + [""] == head + (said + [next]) + [""]
  {
  }

  lemma TrimRightOfLine(s: string)
    requires OneLine(s)
    ensures TrimRight(s + "\n") == TrimRight(s) && OneLine(TrimRight(s))
  {
    assert (s + "\n")[..|s|] == s && (s + "\n")[|s|] == '\n';
  }

  /** Cut at its newlines, the body is the count and exactly one line for every job, in order; only the very
      last line can lose spaces at its end. No text of a job can add a line or take one away. */
  lemma BodyReadsBack(jobs: seq<Job>)
    requires jobs != []
    ensures var last := |jobs| - 1;
      LinesOf(Body(jobs)) ==
        [Itoa(|jobs|) + TITLE] + Sayings(jobs[..last]) + [TrimRight(Saying(jobs[last].message))]
  {
    hide Body, Line, Saying, Sayings, Itoa, Header, TrimRight, OneLine;
    var last := |jobs| - 1;
    var front, saying := jobs[..last], Saying(jobs[last].message);
    var head := Itoa(|jobs|) + TITLE;
    BodyShape(jobs);
    HeadIsOneLine(|jobs|);
    SayingIsOneLine(jobs[last].message);
    TrimRightOfLine(saying);
    LinesSay(head, front);
    var text := head + "\n" + Lines(front);
    NextLine(text, TrimRight(saying));
    assert Body(jobs) == text + TrimRight(saying);
  }
}
