/** The route-name grammar of the extractor, the regular expression
    `^Tram (.*): (.*?) =[ ]?> (?:.* => )?(.*)$`, specified directly: a name
    matches when it splits as
      "Tram " + number + ": " + from + (" = > " | " => ") + [via + " => "] + to
    with no line break anywhere (`.` does not match `\n`, and `$` is the end
    of the text). Among the splits, the regex engine's leftmost-first priority
    picks the longest `number`, then the shortest `from`, then the spaced
    separator if it fits, then the via group with the longest `via`. */
module RouteName {
  import opened Wrappers

  const TRAM := "Tram "
  const COLON := ": "
  const SPACED_SEP := " = > "
  const PLAIN_SEP := " => "
  /** The arrow that ends the optional via group. */
  const ARROW := " => "

  /** One way a name splits along the grammar. */
  datatype Split = Split(number: string, from: string, spaced: bool, via: Option<string>, to: string)

  /** The three capture groups the extractor reads. */
  datatype Captures = Captures(number: string, from: string, to: string)

  predicate NoNewline(s: string) {
    forall i :: 0 <= i < |s| ==> s[i] != '\n'
  }

  /** The name a split spells out. */
  function Render(sp: Split): string {
    TRAM + (sp.number + (COLON + (sp.from + (Separator(sp.spaced) + Tail(sp.via, sp.to)))))
  }

  function Separator(spaced: bool): string {
    if spaced then SPACED_SEP else PLAIN_SEP
  }

  /** What follows the separator: the optional via group, then `to`. */
  function Tail(via: Option<string>, to: string): string {
    if via.Some? then via.value + (ARROW + to) else to
  }

  /** `name` matches the regular expression by way of the split `sp`. */
  predicate Matches(name: string, sp: Split) {
    name == Render(sp) && NoNewline(name)
  }

  /** `w` occurs in `s` at index `i`. */
  predicate At(s: string, i: nat, w: string) {
    i + |w| <= |s| && s[i..i + |w|] == w
  }

  /** `" = > "` starts at `p`. */
  predicate SpacedAt(s: string, p: nat) {
    p + 5 <= |s| && s[p] == ' ' && s[p + 1] == '=' && s[p + 2] == ' ' && s[p + 3] == '>' && s[p + 4] == ' '
  }

  /** `" => "` starts at `p`. */
  predicate PlainAt(s: string, p: nat) {
    p + 4 <= |s| && s[p] == ' ' && s[p + 1] == '=' && s[p + 2] == '>' && s[p + 3] == ' '
  }

  /** The length of the separator at `p`, or 0 if there is none. The two
      separators differ in their third character, so at most one of them
      starts at a given index. */
  function SepLen(s: string, p: nat): (n: nat)
    ensures n == 0 || n == 4 || n == 5
    ensures n == 5 <==> SpacedAt(s, p)
    ensures n == 4 <==> PlainAt(s, p)
  {
    if SpacedAt(s, p) then 5
    else if PlainAt(s, p) then 4
    else 0
  }

  /** The separator tests, as occurrences of the separators' text. */
  lemma SeparatorText(s: string, p: nat)
    ensures SpacedAt(s, p) <==> At(s, p, SPACED_SEP)
    ensures PlainAt(s, p) <==> At(s, p, PLAIN_SEP)
  {
    if p + 5 <= |s| {
      var w := s[p..p + 5];
      assert w[0] == s[p] && w[1] == s[p + 1] && w[2] == s[p + 2] && w[3] == s[p + 3] && w[4] == s[p + 4];
    }
    if p + 4 <= |s| {
      var w := s[p..p + 4];
      assert w[0] == s[p] && w[1] == s[p + 1] && w[2] == s[p + 2] && w[3] == s[p + 3];
    }
  }

  /** The first separator at or after `i`: where the lazy `from` group stops. */
  function FirstSep(s: string, i: nat): (r: Option<nat>)
    ensures r.Some? ==> i <= r.value < |s| && SepLen(s, r.value) > 0
    ensures r.Some? ==> forall j :: i <= j < r.value ==> SepLen(s, j) == 0
    ensures r.None? ==> forall j :: i <= j < |s| ==> SepLen(s, j) == 0
    decreases |s| - i
  {
    if i >= |s| then None
    else if SepLen(s, i) > 0 then Some(i)
    else FirstSep(s, i + 1)
  }

  /** A place where the greedy `number` group can end: a colon and space at
      `k`, with a separator somewhere after it. */
  predicate Candidate(s: string, k: nat) {
    5 <= k && At(s, k, COLON) && FirstSep(s, k + 2).Some?
  }

  /** The last candidate at or before `k`. */
  function LastCandidate(s: string, k: nat): (r: Option<nat>)
    ensures r.Some? ==> 5 <= r.value <= k && Candidate(s, r.value)
    ensures r.Some? ==> forall j :: r.value < j <= k ==> !Candidate(s, j)
    ensures r.None? ==> forall j :: 5 <= j <= k ==> !Candidate(s, j)
  {
    if k < 5 then None
    else if Candidate(s, k) then Some(k)
    else LastCandidate(s, k - 1)
  }

  /** The last arrow starting in `[lo, hi]`: where the greedy `via` group
      ends. */
  function LastArrow(s: string, lo: nat, hi: nat): (r: Option<nat>)
    ensures r.Some? ==> lo <= r.value <= hi && At(s, r.value, ARROW)
    ensures r.Some? ==> forall j :: r.value < j <= hi ==> !At(s, j, ARROW)
    ensures r.None? ==> forall j :: lo <= j <= hi ==> !At(s, j, ARROW)
  {
    if hi < lo then None
    else if At(s, hi, ARROW) then Some(hi)
    else if hi == lo then None
    else LastArrow(s, lo, hi - 1)
  }

  /** The split the regex engine reports, if the name matches at all. */
  function Parse(name: string): Option<Split> {
    if !NoNewline(name) || !At(name, 0, TRAM) then None
    else
      match LastCandidate(name, |name|)
      case None => None
      case Some(k) => Some(SplitAt(name, k))
  }

  /** The split once the `number` group ends at `k`: `from` up to the first
      separator, then the via group and `to`. */
  function SplitAt(name: string, k: nat): Split
    requires Candidate(name, k)
  {
    var p := FirstSep(name, k + 2).value;
    var n := SepLen(name, p);
    var vt := ViaAndTo(name, p + n);
    Split(name[5..k], name[k + 2..p], n == 5, vt.0, vt.1)
  }

  /** The via group and `to` of the text after the separator ending at `r`:
      the via group reaches the last arrow, if there is one. */
  function ViaAndTo(s: string, r: nat): (Option<string>, string)
    requires r <= |s|
  {
    var arrow := if |s| >= 4 then LastArrow(s, r, |s| - 4) else None;
    match arrow
    case None => (None, s[r..])
    case Some(q) => (Some(s[r..q]), s[q + 4..])
  }

  /** `Regex::captures`: groups 1, 2 and 3 of the reported match. */
  function ParseCaptures(name: string): (r: Option<Captures>)
    ensures r.Some? <==> Parse(name).Some?
  {
    match Parse(name)
    case None => None
    case Some(sp) => Some(Captures(sp.number, sp.from, sp.to))
  }

  /** A text cut in two at `j`. */
  lemma Glue(s: string, i: nat, j: nat)
    requires i <= j <= |s|
    ensures s[i..] == s[i..j] + s[j..]
  {
  }

  /** A suffix that starts with `w`. */
  lemma Peel(s: string, i: nat, w: string, rest: string)
    requires i <= |s| && s[i..] == w + rest
    ensures At(s, i, w) && s[i + |w|..] == rest
  {
    assert s[i..i + |w|] == s[i..][..|w|];
    assert s[i + |w|..] == s[i..][|w|..];
  }

  /** No arrow starts in the suffix from `start` when none starts in the text
      at or after `start`. */
  lemma NoArrowIn(s: string, start: nat)
    requires start <= |s|
    requires forall j :: start <= j && j + 4 <= |s| ==> !At(s, j, ARROW)
    ensures forall j :: 0 <= j < |s[start..]| ==> !At(s[start..], j, ARROW)
  {
    forall j | 0 <= j < |s[start..]| && At(s[start..], j, ARROW)
      ensures false
    {
      assert s[start + j..start + j + 4] == s[start..][j..j + 4];
      assert At(s, start + j, ARROW);
    }
  }

  /** The reported split is a split of the name, and what the last group
      captures contains no further arrow. */
  lemma ParseSound(name: string)
    requires Parse(name).Some?
    ensures Matches(name, Parse(name).value)
    ensures forall j :: 0 <= j < |Parse(name).value.to| ==> !At(Parse(name).value.to, j, ARROW)
  {
    var k := LastCandidate(name, |name|).value;
    SplitAtSound(name, k);
  }

  lemma SplitAtSound(name: string, k: nat)
    requires At(name, 0, TRAM) && Candidate(name, k)
    ensures name == Render(SplitAt(name, k))
    ensures var to := SplitAt(name, k).to; forall j :: 0 <= j < |to| ==> !At(to, j, ARROW)
  {
    var p := FirstSep(name, k + 2).value;
    var r := p + SepLen(name, p);
    SplitAtParts(name, k, p, r);
    ViaAndToLast(name, r);
    SplitAtCovers(name, k, p, r);
  }

  lemma SplitAtCovers(name: string, k: nat, p: nat, r: nat)
    requires At(name, 0, TRAM) && Candidate(name, k)
    requires p == FirstSep(name, k + 2).value && r == p + SepLen(name, p)
    ensures name == Render(SplitAt(name, k))
  {
    var sp := SplitAt(name, k);
    SplitAtParts(name, k, p, r);
    ViaAndToCovers(name, r);
    Assemble(name, k, p, r, Separator(sp.spaced), Tail(sp.via, sp.to));
  }

  /** The fields of `SplitAt` as cuts of the name. */
  lemma SplitAtParts(name: string, k: nat, p: nat, r: nat)
    requires Candidate(name, k)
    requires p == FirstSep(name, k + 2).value && r == p + SepLen(name, p)
    ensures var sp := SplitAt(name, k);
      && 5 <= k && k + 2 <= p <= r <= |name|
      && sp.number == name[5..k] && sp.from == name[k + 2..p]
      && name[p..r] == Separator(sp.spaced)
      && sp.via == ViaAndTo(name, r).0 && sp.to == ViaAndTo(name, r).1
  {
    SeparatorAt(name, p);
  }

  /** The separator found at `p`, as text. */
  lemma SeparatorAt(s: string, p: nat)
    requires SepLen(s, p) > 0
    ensures p + SepLen(s, p) <= |s| && s[p..p + SepLen(s, p)] == Separator(SepLen(s, p) == 5)
  {
    SeparatorText(s, p);
  }

  /** A suffix that starts with a separator. */
  lemma SeparatorFound(s: string, p: nat, spaced: bool, rest: string)
    requires p <= |s| && s[p..] == Separator(spaced) + rest
    ensures SepLen(s, p) == (if spaced then 5 else 4)
    ensures p + SepLen(s, p) <= |s| && s[p + SepLen(s, p)..] == rest
  {
    Peel(s, p, Separator(spaced), rest);
    SeparatorText(s, p);
  }

  /** A name put back together from its cuts. */
  lemma Assemble(name: string, k: nat, p: nat, r: nat, sep: string, tail: string)
    requires 5 <= k && k + 2 <= p <= r <= |name|
    requires At(name, 0, TRAM) && At(name, k, COLON)
    requires name[p..r] == sep && name[r..] == tail
    ensures name == TRAM + (name[5..k] + (COLON + (name[k + 2..p] + (sep + tail))))
  {
    Glue(name, p, r);
    Glue(name, k + 2, p);
    Unpeel(name, k, COLON);
    Glue(name, 5, k);
    Unpeel(name, 0, TRAM);
  }

  /** A suffix that starts with `w`, the other way round. */
  lemma Unpeel(s: string, i: nat, w: string)
    requires At(s, i, w)
    ensures s[i..] == w + s[i + |w|..]
  {
    Glue(s, i, i + |w|);
  }

  lemma ViaAndToSound(s: string, r: nat)
    requires r <= |s|
    ensures s[r..] == Tail(ViaAndTo(s, r).0, ViaAndTo(s, r).1)
    ensures var to := ViaAndTo(s, r).1; forall j :: 0 <= j < |to| ==> !At(to, j, ARROW)
  {
    ViaAndToCovers(s, r);
    ViaAndToLast(s, r);
  }

  lemma ViaAndToCovers(s: string, r: nat)
    requires r <= |s|
    ensures s[r..] == Tail(ViaAndTo(s, r).0, ViaAndTo(s, r).1)
  {
    var arrow := if |s| >= 4 then LastArrow(s, r, |s| - 4) else None;
    if arrow.Some? {
      var q := arrow.value;
      Glue(s, r, q);
      Glue(s, q, q + 4);
    }
  }

  lemma ViaAndToLast(s: string, r: nat)
    requires r <= |s|
    ensures var to := ViaAndTo(s, r).1; forall j :: 0 <= j < |to| ==> !At(to, j, ARROW)
  {
    var arrow := if |s| >= 4 then LastArrow(s, r, |s| - 4) else None;
    if arrow.Some? {
      NoArrowIn(s, arrow.value + 4);
    } else {
      NoArrowIn(s, r);
    }
  }

  /** The number and the text after its colon, in the name a split
      spells. */
  lemma RenderHead(sp: Split)
    ensures var s, k := Render(sp), 5 + |sp.number|;
      && At(s, 0, TRAM) && At(s, k, COLON) && s[5..k] == sp.number
      && s[k + 2..] == sp.from + (Separator(sp.spaced) + Tail(sp.via, sp.to))
  {
    var s, k := Render(sp), 5 + |sp.number|;
    var rest := sp.from + (Separator(sp.spaced) + Tail(sp.via, sp.to));
    Peel(s, 0, TRAM, sp.number + (COLON + rest));
    Peel(s, 5, sp.number, COLON + rest);
    Peel(s, k, COLON, rest);
  }

  /** What follows the number's colon. */
  lemma RenderRest(sp: Split)
    ensures 5 + |sp.number| + 2 <= |Render(sp)|
    ensures Render(sp)[5 + |sp.number| + 2..] == sp.from + (Separator(sp.spaced) + Tail(sp.via, sp.to))
  {
    RenderHead(sp);
  }

  /** The separator of a split, in the name it spells. */
  lemma RenderSeparator(sp: Split)
    ensures var s, p := Render(sp), 5 + |sp.number| + 2 + |sp.from|;
      p < |s| && SepLen(s, p) == (if sp.spaced then 5 else 4)
  {
    RenderRest(sp);
    SeparatorAfter(Render(sp), 5 + |sp.number| + 2, sp.from, sp.spaced, Tail(sp.via, sp.to));
  }

  lemma SeparatorAfter(s: string, i: nat, from: string, spaced: bool, tail: string)
    requires i <= |s| && s[i..] == from + (Separator(spaced) + tail)
    ensures var p := i + |from|; p < |s| && SepLen(s, p) == (if spaced then 5 else 4)
  {
    Peel(s, i, from, Separator(spaced) + tail);
    SeparatorFound(s, i + |from|, spaced, tail);
  }

  /** The arrow that closes a split's via group, in the name it spells. */
  lemma RenderVia(sp: Split)
    requires sp.via.Some?
    ensures At(Render(sp), 5 + |sp.number| + 2 + |sp.from| + (if sp.spaced then 5 else 4) + |sp.via.value|, ARROW)
  {
    RenderRest(sp);
    ArrowAfter(Render(sp), 5 + |sp.number| + 2, sp.from, sp.spaced, sp.via.value, sp.to);
  }

  lemma ArrowAfter(s: string, i: nat, from: string, spaced: bool, via: string, to: string)
    requires i <= |s| && s[i..] == from + (Separator(spaced) + (via + (ARROW + to)))
    ensures At(s, i + |from| + (if spaced then 5 else 4) + |via|, ARROW)
  {
    var p := i + |from|;
    Peel(s, i, from, Separator(spaced) + (via + (ARROW + to)));
    Peel(s, p, Separator(spaced), via + (ARROW + to));
    var r := p + |Separator(spaced)|;
    Peel(s, r, via, ARROW + to);
    Peel(s, r + |via|, ARROW, to);
  }

  /** Every name that splits along the grammar is matched. */
  lemma ParseComplete(name: string, sp: Split)
    requires Matches(name, sp)
    ensures Parse(name).Some?
  {
    RenderCandidate(sp);
  }

  /** A split's number ends where a candidate colon is, and the first
      separator after it is no later than the split's own. */
  lemma RenderCandidate(sp: Split)
    ensures var s, k := Render(sp), 5 + |sp.number|;
      Candidate(s, k) && At(s, 0, TRAM) && FirstSep(s, k + 2).value <= k + 2 + |sp.from|
  {
    RenderHead(sp);
    RenderSeparator(sp);
  }

  /** Leftmost-first priority: no split has a longer number than the reported
      one; with the same number none has a shorter origin; with the same
      origin too, the separator is the same and no via is longer. */
  lemma ParsePriority(name: string, sp: Split)
    requires Matches(name, sp)
    ensures Parse(name).Some?
    ensures var c := Parse(name).value;
      && |sp.number| <= |c.number|
      && (sp.number == c.number ==> |c.from| <= |sp.from|)
      && (sp.number == c.number && sp.from == c.from ==> sp.spaced == c.spaced)
      && (sp.number == c.number && sp.from == c.from && sp.via.Some? ==> c.via.Some? && |sp.via.value| <= |c.via.value|)
  {
    RenderCandidate(sp);
    var k := LastCandidate(name, |name|).value;
    var p := FirstSep(name, k + 2).value;
    SplitAtParts(name, k, p, p + SepLen(name, p));
    if sp.number == name[5..k] {
      PriorityAfterNumber(name, sp, k, p);
    }
  }

  /** With the number fixed, the lazy `from` group stops at the first
      separator, and the greedy via group reaches the last arrow. */
  lemma PriorityAfterNumber(name: string, sp: Split, k: nat, p: nat)
    requires Matches(name, sp) && k == 5 + |sp.number|
    requires Candidate(name, k) && p == FirstSep(name, k + 2).value
    ensures var c := SplitAt(name, k);
      && |c.from| <= |sp.from|
      && (sp.from == c.from ==> sp.spaced == c.spaced)
      && (sp.from == c.from && sp.via.Some? ==> c.via.Some? && |sp.via.value| <= |c.via.value|)
  {
    RenderCandidate(sp);
    var r := p + SepLen(name, p);
    SplitAtParts(name, k, p, r);
    if p == k + 2 + |sp.from| {
      PrioritySameFrom(name, sp, k, p, r);
    }
  }

  /** With number and origin fixed, the separator and the via group. */
  lemma PrioritySameFrom(name: string, sp: Split, k: nat, p: nat, r: nat)
    requires Matches(name, sp) && k == 5 + |sp.number| && p == k + 2 + |sp.from|
    requires r == p + SepLen(name, p)
    ensures sp.spaced == (SepLen(name, p) == 5)
    ensures sp.via.Some? ==> ViaAndTo(name, r).0.Some? && |sp.via.value| <= |ViaAndTo(name, r).0.value|
  {
    RenderSeparator(sp);
    if sp.via.Some? {
      RenderVia(sp);
      assert r + |sp.via.value| == 5 + |sp.number| + 2 + |sp.from| + (if sp.spaced then 5 else 4) + |sp.via.value|;
      ViaLongest(name, r, r + |sp.via.value|);
    }
  }

  /** An arrow at `q` after `r` means the via group exists and reaches at
      least `q`. */
  lemma ViaLongest(s: string, r: nat, q: nat)
    requires r <= q && At(s, q, ARROW)
    ensures ViaAndTo(s, r).0.Some? && q - r <= |ViaAndTo(s, r).0.value|
  {
  }

  /** A line break anywhere means no match. */
  lemma NewlineRejected(name: string, i: nat)
    requires i < |name| && name[i] == '\n'
    ensures Parse(name) == None
  {
  }

  /** "Tram 1: A: B => C" splits two ways, with number "1" or "1: A"; the
      greedy number group reports the longer one. */
  lemma GreedyNumberExample()
    ensures Matches("Tram 1: A: B => C", Split("1", "A: B", false, None, "C"))
    ensures Matches("Tram 1: A: B => C", Split("1: A", "B", false, None, "C"))
    ensures Parse("Tram 1: A: B => C").Some? && Parse("Tram 1: A: B => C").value.number == "1: A"
  {
    var name := "Tram 1: A: B => C";
    ExampleSplits();
    ParsePriority(name, Split("1: A", "B", false, None, "C"));
    var c := Parse(name).value;
    ParseSound(name);
    RenderHead(c);
    ExampleColons();
    assert |c.number| == 4;
  }

  lemma ExampleSplits()
    ensures Render(Split("1", "A: B", false, None, "C")) == "Tram 1: A: B => C"
    ensures Render(Split("1: A", "B", false, None, "C")) == "Tram 1: A: B => C"
    ensures NoNewline("Tram 1: A: B => C")
  {
    assert Separator(false) + Tail(None, "C") == " => C";
    assert "Tram " + ("1" + (": " + ("A: B" + " => C"))) == "Tram 1: A: B => C";
    assert "Tram " + ("1: A" + (": " + ("B" + " => C"))) == "Tram 1: A: B => C";
  }

  /** The example has no colon after its second one, at index 9. */
  lemma ExampleColons()
    ensures forall k :: 9 < k ==> !At("Tram 1: A: B => C", k, COLON)
  {
    var name := "Tram 1: A: B => C";
    forall k | 9 < k ensures !At(name, k, COLON) {
      if k + 2 <= |name| {
        assert name[k..k + 2][0] == name[k] == name[10..][k - 10];
        assert name[10..] == " B => C";
      }
    }
  }
}
