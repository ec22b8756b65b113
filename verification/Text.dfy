/** The string operations of the Go standard library that the modelled code relies on. */
module Text {

  predicate HasPrefix(s: string, prefix: string) {
    |prefix| <= |s| && s[..|prefix|] == prefix
  }

  /** `p` occurs in `s` at offset `k`. */
  predicate OccursAt(s: string, p: string, k: int) {
    0 <= k <= |s| - |p| && s[k..k + |p|] == p
  }

  /** Offset of the first occurrence of `p` in `s` at or after `from`, -1 when there is none. */
  function IndexFrom(s: string, p: string, from: nat): (k: int)
    ensures k == -1 || from <= k <= |s| - |p|
    decreases |s| - from
  {
    if from + |p| > |s| then -1
    else if OccursAt(s, p, from) then from
    else IndexFrom(s, p, from + 1)
  }

  lemma {:induction false} IndexFromIsFirst(s: string, p: string, from: nat)
    ensures IndexFrom(s, p, from) != -1 ==> OccursAt(s, p, IndexFrom(s, p, from))
    ensures forall j :: from <= j && OccursAt(s, p, j) ==> from <= IndexFrom(s, p, from) <= j
    decreases |s| - from
  {
    if from + |p| <= |s| && !OccursAt(s, p, from) {
      IndexFromIsFirst(s, p, from + 1);
    }
  }

  function Index(s: string, p: string): (k: int)
    ensures k == -1 || 0 <= k <= |s| - |p|
  {
    IndexFrom(s, p, 0)
  }

  /** Index finds the first occurrence, and finds one whenever there is one. */
  lemma IndexIsFirst(s: string, p: string)
    ensures Index(s, p) != -1 ==> OccursAt(s, p, Index(s, p))
    ensures forall j :: OccursAt(s, p, j) ==> 0 <= Index(s, p) <= j
  {
    IndexFromIsFirst(s, p, 0);
  }

  predicate Contains(s: string, p: string) {
    Index(s, p) != -1
  }

  /** The code points that strings.TrimSpace removes (unicode.IsSpace). */
  predicate IsSpace(c: char) {
    || '\t' <= c <= '\r'
    || c == ' '
    || c == '\U{85}'
    || c == '\U{A0}'
    || c == '\U{1680}'
    || '\U{2000}' <= c <= '\U{200A}'
    || c == '\U{2028}'
    || c == '\U{2029}'
    || c == '\U{202F}'
    || c == '\U{205F}'
    || c == '\U{3000}'
  }

  function TrimLeft(s: string): (r: string)
    ensures r == [] || !IsSpace(r[0])
    ensures |r| <= |s| && r == s[|s| - |r|..]
    ensures forall k :: 0 <= k < |s| - |r| ==> IsSpace(s[k])
  {
    if s != [] && IsSpace(s[0]) then TrimLeft(s[1..]) else s
  }

  function TrimRight(s: string): (r: string)
    ensures r == [] || !IsSpace(r[|r| - 1])
    ensures r <= s
    ensures forall k :: |r| <= k < |s| ==> IsSpace(s[k])
  {
    if s != [] && IsSpace(s[|s| - 1]) then TrimRight(s[..|s| - 1]) else s
  }

  function TrimSpace(s: string): string {
    TrimRight(TrimLeft(s))
  }

  /** `s` is untouched by trimming. */
  predicate Trimmed(s: string) {
    s == [] || (!IsSpace(s[0]) && !IsSpace(s[|s| - 1]))
  }

  /** `t` is `s` with blanks cut on both sides, `lead` of them in front. */
  predicate Cut(s: string, t: string, lead: nat) {
    && lead + |t| <= |s| && t == s[lead..lead + |t|]
    && (forall k :: 0 <= k < lead ==> IsSpace(s[k]))
    && (forall k :: lead + |t| <= k < |s| ==> IsSpace(s[k]))
  }

  /** Trimming cuts blanks only, on both sides, and nothing blank is left at either end. */
  lemma TrimSpaceCuts(s: string) returns (lead: nat)
    ensures Trimmed(TrimSpace(s))
    ensures Cut(s, TrimSpace(s), lead)
  {
    var l := TrimLeft(s);
    lead := |s| - |l|;
    CutRight(s, l, TrimRight(l), lead);
    if TrimRight(l) != [] { assert TrimRight(l)[0] == l[0]; }
  }

  lemma CutRight(s: string, l: string, t: string, lead: nat)
    requires lead + |l| == |s| && l == s[lead..]
    requires forall k :: 0 <= k < lead ==> IsSpace(s[k])
    requires t <= l && forall k :: |t| <= k < |l| ==> IsSpace(l[k])
    ensures Cut(s, t, lead)
  {
    forall k | 0 <= k < |t| ensures s[lead..lead + |t|][k] == t[k] {
      assert t[k] == l[k] == s[lead + k];
    }
    forall k | lead + |t| <= k < |s| ensures IsSpace(s[k]) {
      assert s[k] == l[k - lead];
    }
  }

  lemma TrimmedIsFixed(s: string)
    requires Trimmed(s)
    ensures TrimSpace(s) == s
  {
  }

  function Join(parts: seq<string>, sep: string): string {
    if parts == [] then ""
    else if |parts| == 1 then parts[0]
    else parts[0] + sep + Join(parts[1..], sep)
  }
}
