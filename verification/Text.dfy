/** Text bounding used for every notification.  A Go string is a sequence of runes here,
    one Dafny `char` per rune. */
module Text {

  /** `unicode.IsControl`: the category Cc. */
  predicate IsControl(r: char) {
    r <= '\U{1F}' || '\U{7F}' <= r <= '\U{9F}'
  }

  /** `unicode.IsSpace`: the White_Space property. */
  predicate IsSpace(r: char) {
    || '\t' <= r <= '\r' || r == ' ' || r == '\U{85}' || r == '\U{A0}' || r == '\U{1680}'
    || '\U{2000}' <= r <= '\U{200A}' || r == '\U{2028}' || r == '\U{2029}' || r == '\U{202F}'
    || r == '\U{205F}' || r == '\U{3000}'
  }

  /** Control runes become a space; newline and tab survive only when `layout` is set. */
  function Scrub(s: string, layout: bool): (r: string)
    ensures |r| == |s|
  {
    seq(|s|, i requires 0 <= i < |s| => if (layout && (s[i] == '\n' || s[i] == '\t')) || !IsControl(s[i]) then s[i]
      else ' ')
  }

  function TrimLeft(s: string): (r: string)
    ensures r != [] ==> !IsSpace(r[0])
    ensures |r| <= |s| && r == s[|s| - |r|..]
  {
    if s != [] && IsSpace(s[0]) then TrimLeft(s[1..]) else s
  }

  function TrimRight(s: string): (r: string)
    ensures r != [] ==> !IsSpace(r[|r| - 1])
    ensures |r| <= |s| && r == s[..|r|]
  {
    if s != [] && IsSpace(s[|s| - 1]) then TrimRight(s[..|s| - 1]) else s
  }

  function TrimSpace(s: string): (r: string)
    ensures |r| <= |s|
  {
    TrimRight(TrimLeft(s))
  }

  const ELLIPSIS: char := '\U{2026}'

  function Truncate(value: string, maxRunes: int): (r: string)
    ensures 0 < maxRunes ==> |r| <= maxRunes
    ensures maxRunes <= 0 || |value| <= maxRunes ==> r == value
  {
    if maxRunes <= 0 || |value| <= maxRunes then value
    else if maxRunes == 1 then value[..1]
    else value[..maxRunes - 1] + [ELLIPSIS]
  }

  function BoundText(value: string, maxRunes: int): string {
    Truncate(TrimSpace(Scrub(value, false)), maxRunes)
  }

  function BoundMessage(value: string, maxRunes: int): string {
    Truncate(TrimSpace(Scrub(value, true)), maxRunes)
  }

  /** No control rune, or none except newline and tab when `layout` is set. */
  ghost predicate Printable(s: string, layout: bool) {
    forall i | 0 <= i < |s| :: !IsControl(s[i]) || (layout && (s[i] == '\n' || s[i] == '\t'))
  }

  /** Whatever a provider, label or reason contains, its bounded form is short and free of
      control runes, so it cannot add a line to a coalesced body. */
  lemma BoundTextIsOneShortLine(value: string, maxRunes: int)
    requires 0 < maxRunes
    ensures |BoundText(value, maxRunes)| <= maxRunes
    ensures Printable(BoundText(value, maxRunes), false)
  {
    ScrubPrints(value);
    TrimPrints(Scrub(value, false));
    assert !IsControl(ELLIPSIS);
    hide Scrub, TrimSpace, IsControl;
  }

  lemma ScrubPrints(value: string)
    ensures Printable(Scrub(value, false), false)
  {
  }

  lemma TrimPrints(value: string)
    requires Printable(value, false)
    ensures Printable(TrimSpace(value), false)
  {
    hide IsSpace, IsControl, TrimLeft, TrimRight;
    var left := TrimLeft(value);
    assert Printable(left, false);
  }

  lemma TrimSpaceTrims(value: string)
    ensures var r := TrimSpace(value); r != [] ==> !IsSpace(r[0]) && !IsSpace(r[|r| - 1])
  {
    hide IsSpace;
    var left := TrimLeft(value);
    assert TrimSpace(value) == left[..|TrimSpace(value)|];
  }

  lemma TrimTwice(value: string)
    ensures TrimSpace(TrimSpace(value)) == TrimSpace(value)
  {
    TrimSpaceTrims(value);
  }

  /** Nor does the bounded form begin or end with space. */
  lemma BoundTextIsTrimmed(value: string, maxRunes: int)
    requires 0 < maxRunes
    ensures var r := BoundText(value, maxRunes); r != [] ==> !IsSpace(r[0]) && !IsSpace(r[|r| - 1])
  {
    TrimSpaceTrims(Scrub(value, false));
    assert !IsSpace(ELLIPSIS);
    hide TrimSpace, Scrub, IsSpace;
  }

  /** A prefix in front of text that holds a visible rune is untouched by right trimming. */
  lemma {:induction false} TrimRightAppend(a: string, b: string)
    requires TrimRight(b) != []
    ensures TrimRight(a + b) == a + TrimRight(b)
    decreases |b|
  {
    assert (a + b)[|a + b| - 1] == b[|b| - 1];
    if IsSpace(b[|b| - 1]) {
      assert (a + b)[..|a + b| - 1] == a + b[..|b| - 1];
      TrimRightAppend(a, b[..|b| - 1]);
    }
  }

  /** A body that is printable, already trimmed and short enough goes out unchanged. */
  lemma BoundMessageKeeps(value: string, maxRunes: int)
    requires Printable(value, true) && TrimSpace(value) == value && |value| <= maxRunes
    ensures BoundMessage(value, maxRunes) == value
  {
    assert Scrub(value, true) == value;
  }

  ghost predicate Blank(s: string) {
    forall i | 0 <= i < |s| :: IsSpace(s[i])
  }

  lemma {:induction false} TrimLeftIsExact(value: string)
    ensures Blank(value[..|value| - |TrimLeft(value)|])
  {
    if value != [] && IsSpace(value[0]) {
      TrimLeftIsExact(value[1..]);
      var n := |value| - |TrimLeft(value)|;
      assert value[..n] == [value[0]] + value[1..][..n - 1];
    }
  }

  lemma {:induction false} TrimRightIsExact(value: string)
    ensures Blank(value[|TrimRight(value)|..])
  {
    if value != [] && IsSpace(value[|value| - 1]) {
      TrimRightIsExact(value[..|value| - 1]);
      var n := |TrimRight(value)|;
      assert value[n..] == value[..|value| - 1][n..] + [value[|value| - 1]];
    }
  }

  /** Trimming takes away nothing but space. */
  lemma TrimTakesSpace(value: string) returns (before: string, after: string)
    ensures value == before + TrimSpace(value) + after && Blank(before) && Blank(after)
  {
    var left := TrimLeft(value);
    TrimLeftIsExact(value);
    TrimRightIsExact(left);
    before, after := value[..|value| - |left|], left[|TrimRight(left)|..];
    hide IsSpace;
  }

  /** Bounding replaces control runes by spaces, trims, and shortens only what is too long: to one rune less
      than the bound, and an ellipsis. */
  lemma BoundTextIsExact(value: string, maxRunes: int)
    requires 1 < maxRunes
    ensures var text := TrimSpace(seq(|value|, i requires 0 <= i < |value| =>
                                    if IsControl(value[i]) then ' ' else value[i]));
      BoundText(value, maxRunes) == if |text| <= maxRunes then text else text[..maxRunes - 1] + "\U{2026}"
  {
    var plain := seq(|value|, i requires 0 <= i < |value| => if IsControl(value[i]) then ' ' else value[i]);
    assert Scrub(value, false) == plain;
    hide Scrub, TrimSpace;
  }
}
