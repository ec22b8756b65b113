/** Removal of inline <think>...</think> sections from model text (internal/projection/raw.go). */
module ThinkTags {
  import opened Text

  const OPEN := "<think>"
  const CLOSE := "</think>"

  /** The condition under which the loop takes another section out. */
  predicate Removable(s: string) {
    Index(s, OPEN) != -1 && Index(s, CLOSE) >= Index(s, OPEN) + |OPEN|
  }

  function Section(s: string): string
    requires Removable(s)
  {
    s[Index(s, OPEN) + |OPEN|..Index(s, CLOSE)]
  }

  function WithoutSection(s: string): (r: string)
    requires Removable(s)
    ensures |r| < |s|
  {
    s[..Index(s, OPEN)] + s[Index(s, CLOSE) + |CLOSE|..]
  }

  /** What is left when no section can be removed any more, and the sections taken out, in order. */
  function Residue(s: string): string
    decreases |s|
  {
    if Removable(s) then Residue(WithoutSection(s)) else s
  }

  function Sections(s: string): seq<string>
    decreases |s|
  {
    if Removable(s) then [Section(s)] + Sections(WithoutSection(s)) else []
  }

  function StripThinkTags(text: string): (r: (string, string)) {
    (TrimSpace(Join(Sections(text), "\n\n")), TrimSpace(Residue(text)))
  }

  /** The loop of the source, over a text that it rewrites as it goes. */
  method Strip(text: string) returns (thinking: string, clean: string)
    ensures (thinking, clean) == StripThinkTags(text)
  {
    var parts: seq<string> := [];
    var result := text;
    while true
      invariant parts + Sections(result) == Sections(text)
      invariant Residue(result) == Residue(text)
      decreases |result|
    {
      var start := Index(result, OPEN);
      if start == -1 { break; }
      var end := Index(result, CLOSE);
      if end == -1 || end < start + |OPEN| { break; }
      ghost var before := result;
      parts := parts + [result[start + |OPEN|..end]];
      result := result[..start] + result[end + |CLOSE|..];
      assert result == WithoutSection(before);
    }
    assert parts == Sections(text);
    return TrimSpace(Join(parts, "\n\n")), TrimSpace(result);
  }

  function Concat(parts: seq<string>): string {
    if parts == [] then "" else parts[0] + Concat(parts[1..])
  }

  function Tags(n: nat): multiset<char> {
    if n == 0 then multiset{} else Tags(n - 1) + multiset(OPEN + CLOSE)
  }

  /** One removal splits the text into what stays, the section, and one pair of tags. */
  lemma SplitAtSection(s: string)
    requires Removable(s)
    ensures s == s[..Index(s, OPEN)] + OPEN + Section(s) + CLOSE + s[Index(s, CLOSE) + |CLOSE|..]
  {
    var i, j := Index(s, OPEN), Index(s, CLOSE);
    IndexIsFirst(s, OPEN);
    IndexIsFirst(s, CLOSE);
    assert s[i..i + |OPEN|] == OPEN && s[j..j + |CLOSE|] == CLOSE;
    assert s == s[..i] + s[i..i + |OPEN|] + s[i + |OPEN|..j] + s[j..j + |CLOSE|] + s[j + |CLOSE|..];
  }

  lemma PiecesCount(a: string, o: string, p: string, c: string, b: string)
    ensures multiset(a + o + p + c + b) == multiset(a + b) + multiset(p) + multiset(o + c)
  {
    assert multiset(o + c) == multiset(o) + multiset(c);
    assert multiset(a + b) == multiset(a) + multiset(b);
  }

  lemma RemovalConserves(s: string)
    requires Removable(s)
    ensures multiset(s) == multiset(WithoutSection(s)) + multiset(Section(s)) + multiset(OPEN + CLOSE)
    ensures |s| == |WithoutSection(s)| + |Section(s)| + 15
  {
    SplitAtSection(s);
    PiecesCount(s[..Index(s, OPEN)], OPEN, Section(s), CLOSE, s[Index(s, CLOSE) + |CLOSE|..]);
  }

  /** No character is lost or invented: residue, sections and fifteen tag characters a removal. */
  lemma {:induction false} StripConserves(s: string)
    ensures multiset(s) == multiset(Residue(s)) + multiset(Concat(Sections(s))) + Tags(|Sections(s)|)
    ensures |s| == |Residue(s)| + |Concat(Sections(s))| + 15 * |Sections(s)|
    decreases |s|
  {
    hide Removable, Section, WithoutSection;
    if Removable(s) {
      RemovalConserves(s);
      StripConserves(WithoutSection(s));
      var rest := Sections(WithoutSection(s));
      assert Sections(s) == [Section(s)] + rest && Sections(s)[1..] == rest;
      assert multiset(Concat(Sections(s))) == multiset(Section(s)) + multiset(Concat(rest));
    }
  }

  /** The tag occurs at this offset, and nowhere before. */
  ghost predicate FirstAt(text: string, tag: string, k: int) {
    OccursAt(text, tag, k) && forall j :: OccursAt(text, tag, j) ==> k <= j
  }

  /** The first closing tag comes after the first opening one. */
  ghost predicate Bracketed(text: string) {
    exists i, j :: FirstAt(text, OPEN, i) && FirstAt(text, CLOSE, j) && i + |OPEN| <= j
  }

  /** The text falls apart into these sections and this residue: as long as the first tags enclose a section
      it is the next one, and what stands before and after it stays, in this order. */
  ghost predicate FallsApart(text: string, sections: seq<string>, residue: string)
    decreases |sections|
  {
    if sections == [] then residue == text && !Bracketed(text)
    else
      exists a, b ::
        && text == a + OPEN + sections[0] + CLOSE + b
        && FirstAt(text, OPEN, |a|) && FirstAt(text, CLOSE, |a| + |OPEN| + |sections[0]|)
        && FallsApart(a + b, sections[1..], residue)
  }

  lemma FirstIs(text: string, tag: string, k: int)
    requires FirstAt(text, tag, k)
    ensures Index(text, tag) == k
  {
    IndexIsFirst(text, tag);
  }

  lemma RemovableIsBracketed(text: string)
    ensures Removable(text) <==> Bracketed(text)
  {
    IndexIsFirst(text, OPEN);
    IndexIsFirst(text, CLOSE);
    if Removable(text) {
      assert FirstAt(text, OPEN, Index(text, OPEN)) && FirstAt(text, CLOSE, Index(text, CLOSE));
    }
    if i, j :| FirstAt(text, OPEN, i) && FirstAt(text, CLOSE, j) && i + |OPEN| <= j {
      FirstIs(text, OPEN, i);
      FirstIs(text, CLOSE, j);
    }
  }

  lemma TakenOut(text: string, a: string, b: string, sections: seq<string>, residue: string)
    requires sections != [] && text == a + OPEN + sections[0] + CLOSE + b
    requires FirstAt(text, OPEN, |a|) && FirstAt(text, CLOSE, |a| + |OPEN| + |sections[0]|)
    requires FallsApart(a + b, sections[1..], residue)
    ensures FallsApart(text, sections, residue)
  {
    hide FirstAt;
  }

  /** The loop takes every text apart like this, also when a removal joins fragments into a new tag. */
  lemma {:induction false} StripTakesApart(text: string)
    ensures FallsApart(text, Sections(text), Residue(text))
    decreases |text|
  {
    hide FallsApart, OccursAt;
    RemovableIsBracketed(text);
    if Removable(text) {
      var i, j := Index(text, OPEN), Index(text, CLOSE);
      IndexIsFirst(text, OPEN);
      IndexIsFirst(text, CLOSE);
      SplitAtSection(text);
      StripTakesApart(WithoutSection(text));
      assert Sections(text) == [Section(text)] + Sections(WithoutSection(text));
      TakenOut(text, text[..i], text[j + |CLOSE|..], Sections(text), Residue(text));
    } else {
      NothingTakenOut(text);
    }
  }

  lemma NothingTakenOut(text: string)
    requires !Bracketed(text)
    ensures FallsApart(text, [], text)
  {
  }

  lemma OccursInside(s: string, t: string, tag: string, lead: nat, i: nat)
    requires tag != [] && !IsSpace(tag[0]) && !IsSpace(tag[|tag| - 1])
    requires Cut(s, t, lead) && OccursAt(s, tag, i)
    ensures OccursAt(t, tag, i - lead)
  {
    assert s[i] == s[i..i + |tag|][0];
    assert s[i + |tag| - 1] == s[i..i + |tag|][|tag| - 1];
    assert lead <= i && i + |tag| <= lead + |t|;
    forall k | 0 <= k < |tag| ensures t[i - lead..i - lead + |tag|][k] == tag[k] {
      assert s[i..i + |tag|][k] == s[i + k];
      assert t[i - lead + k] == s[i + k];
    }
  }

  lemma OccursOutside(s: string, t: string, tag: string, lead: nat, j: nat)
    requires Cut(s, t, lead) && OccursAt(t, tag, j)
    ensures OccursAt(s, tag, j + lead)
  {
    forall k | 0 <= k < |tag| ensures s[j + lead..j + lead + |tag|][k] == tag[k] {
      assert t[j..j + |tag|][k] == t[j + k];
      assert t[j + k] == s[j + lead + k];
    }
  }

  /** Cutting blanks on both sides moves the first occurrence of a tag, and hides none. */
  lemma IndexInTrimmed(s: string, t: string, tag: string, lead: nat)
    requires tag != [] && !IsSpace(tag[0]) && !IsSpace(tag[|tag| - 1])
    requires Cut(s, t, lead)
    ensures Index(s, tag) == if Index(t, tag) == -1 then -1 else Index(t, tag) + lead
  {
    var i, j := Index(s, tag), Index(t, tag);
    IndexIsFirst(s, tag);
    IndexIsFirst(t, tag);
    if i != -1 { OccursInside(s, t, tag, lead, i); }
    if j != -1 { OccursOutside(s, t, tag, lead, j); }
  }

  lemma {:induction false} ResidueIsFinal(s: string)
    ensures !Removable(Residue(s))
    decreases |s|
  {
    if Removable(s) { ResidueIsFinal(WithoutSection(s)); }
  }

  /** Stripping twice is stripping once, also when a removal has joined fragments into a new tag. */
  lemma {:induction false} StripIsIdempotent(text: string)
    ensures StripThinkTags(StripThinkTags(text).1) == ("", StripThinkTags(text).1)
  {
    var r := Residue(text);
    ResidueIsFinal(text);
    var lead := TrimSpaceCuts(r);
    var t := TrimSpace(r);
    IndexInTrimmed(r, t, OPEN, lead);
    IndexInTrimmed(r, t, CLOSE, lead);
    assert !Removable(t);
    TrimmedIsFixed(t);
    assert Join(Sections(t), "\n\n") == "";
  }
}
