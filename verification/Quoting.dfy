/** The argument printer quoteArgs (cmd/server/local.go) and the scanner SplitArgs that reads its
    output back (internal/config/config.go). A char stands for one byte: the bytes of a multi-byte
    rune are all above the blank, so testing bytes and testing runes come to the same. */
module Quoting {
  import opened Options

  const DQ := '\"'
  const SQ := '\''

  predicate Blank(c: char) {
    c <= ' '
  }

  // ----- The scanner -----

  /** What the scanner has after some input: finished arguments, the current one, an open quote. */
  datatype Scan = Scan(out: seq<string>, cur: string, quote: Option<char>)

  function Flush(s: Scan): Scan {
    if s.cur != "" then s.(out := s.out + [s.cur], cur := "") else s
  }

  function Next(s: Scan, c: char): Scan {
    if s.quote == Some(c) then s.(quote := None)
    else if s.quote.None? && (c == SQ || c == DQ) then s.(quote := Some(c))
    else if s.quote.None? && Blank(c) then Flush(s)
    else s.(cur := s.cur + [c])
  }

  function Read(s: Scan, raw: string): Scan {
    if raw == "" then s else Next(Read(s, raw[..|raw| - 1]), raw[|raw| - 1])
  }

  function Split(raw: string): seq<string> {
    Flush(Read(Scan([], "", None), raw)).out
  }

  method SplitArgs(raw: string) returns (out: seq<string>)
    ensures out == Split(raw)
  {
    out := [];
    var cur := "";
    var quote: Option<char> := None;
    for i := 0 to |raw|
      invariant Scan(out, cur, quote) == Read(Scan([], "", None), raw[..i])
    {
      assert raw[..i + 1][..i] == raw[..i];
      var c := raw[i];
      if quote.Some? && c == quote.value {
        quote := None;
      } else if quote.None? && (c == SQ || c == DQ) {
        quote := Some(c);
      } else if quote.None? && c <= ' ' {
        if |cur| > 0 {
          out := out + [cur];
          cur := "";
        }
      } else {
        cur := cur + [c];
      }
    }
    assert raw[..|raw|] == raw;
    if |cur| > 0 {
      out := out + [cur];
    }
  }

  // ----- The printer -----

  predicate Bare(arg: string) {
    forall c :: c in arg ==> !Blank(c) && c != SQ && c != DQ
  }

  function Without(s: string, c: char): string {
    if s == "" then ""
    else Without(s[..|s| - 1], c) + if s[|s| - 1] == c then "" else [s[|s| - 1]]
  }

  function QuoteArg(arg: string): string {
    if arg == "" then [SQ, SQ]
    else if Bare(arg) then arg
    else if DQ !in arg then [DQ] + arg + [DQ]
    else if SQ !in arg then [SQ] + arg + [SQ]
    else [DQ] + Without(arg, DQ) + [DQ]
  }

  /** The parts joined by single blanks. */
  function Joined(args: seq<string>): string {
    if args == [] then ""
    else if |args| == 1 then QuoteArg(args[0])
    else Joined(args[..|args| - 1]) + " " + QuoteArg(args[|args| - 1])
  }

  method ContainsChar(s: string, c: char) returns (found: bool)
    ensures found <==> c in s
  {
    for i := 0 to |s|
      invariant c !in s[..i]
    {
      if s[i] == c { return true; }
    }
    return false;
  }

  /** strings.ReplaceAll(s, c, "") for a single character. */
  method Remove(s: string, c: char) returns (r: string)
    ensures r == Without(s, c)
  {
    r := "";
    for i := 0 to |s|
      invariant r == Without(s[..i], c)
    {
      assert s[..i + 1][..i] == s[..i];
      if s[i] != c { r := r + [s[i]]; }
    }
    assert s[..|s|] == s;
  }

  method NeedsQuoting(arg: string) returns (needs: bool)
    ensures needs <==> !Bare(arg)
  {
    for i := 0 to |arg|
      invariant Bare(arg[..i])
    {
      if arg[i] <= ' ' || arg[i] == SQ || arg[i] == DQ {
        assert arg[i] in arg;
        return true;
      }
      assert arg[..i + 1] == arg[..i] + [arg[i]];
    }
    assert arg[..|arg|] == arg;
    return false;
  }

  method QuoteArgs(args: seq<string>) returns (line: string)
    ensures line == Joined(args)
  {
    var parts: seq<string> := [];
    for i := 0 to |args|
      invariant parts == seq(i, k requires 0 <= k < i => QuoteArg(args[k]))
    {
      var arg := args[i];
      if arg == "" {
        parts := parts + [[SQ, SQ]];
        continue;
      }
      var needs := NeedsQuoting(arg);
      if !needs {
        parts := parts + [arg];
        continue;
      }
      var double := ContainsChar(arg, DQ);
      if !double {
        parts := parts + [[DQ] + arg + [DQ]];
        continue;
      }
      var single := ContainsChar(arg, SQ);
      if !single {
        parts := parts + [[SQ] + arg + [SQ]];
        continue;
      }
      var stripped := Remove(arg, DQ);
      parts := parts + [[DQ] + stripped + [DQ]];
    }
    line := "";
    for i := 0 to |parts|
      invariant line == Joined(args[..i])
    {
      assert args[..i + 1][..i] == args[..i];
      line := if i == 0 then parts[i] else line + " " + parts[i];
    }
    assert args[..|args|] == args;
  }

  // ----- The round trip -----

  predicate BothQuotes(arg: string) {
    SQ in arg && DQ in arg
  }

  /** What comes back for an argument that is not empty. */
  function Kept(arg: string): string {
    if BothQuotes(arg) then Without(arg, DQ) else arg
  }

  function Survivors(args: seq<string>): seq<string> {
    if args == [] then []
    else Survivors(args[..|args| - 1]) + if args[|args| - 1] == "" then [] else [Kept(args[|args| - 1])]
  }

  lemma {:induction false} ReadAppend(s: Scan, a: string, b: string)
    ensures Read(s, a + b) == Read(Read(s, a), b)
    decreases |b|
  {
    if b == "" {
      assert a + b == a;
    } else {
      var n := |b| - 1;
      assert (a + b)[..|a + b| - 1] == a + b[..n];
      ReadAppend(s, a, b[..n]);
    }
  }

  lemma ReadOne(s: Scan, c: char)
    ensures Read(s, [c]) == Next(s, c)
  {
    assert [c][..0] == "";
  }

  lemma {:induction false} ReadBare(s: Scan, arg: string)
    requires s.quote.None? && Bare(arg)
    ensures Read(s, arg) == s.(cur := s.cur + arg)
  {
    if arg != "" {
      var n := |arg| - 1;
      assert arg == arg[..n] + [arg[n]];
      assert arg[n] in arg && forall c :: c in arg[..n] ==> c in arg;
      assert s.cur + arg[..n] + [arg[n]] == s.cur + arg;
      ReadBare(s, arg[..n]);
    }
  }

  lemma {:induction false} ReadInside(s: Scan, arg: string)
    requires s.quote.Some? && s.quote.value !in arg
    ensures Read(s, arg) == s.(cur := s.cur + arg)
  {
    if arg != "" {
      var n := |arg| - 1;
      assert arg == arg[..n] + [arg[n]];
      assert arg[n] in arg && forall c :: c in arg[..n] ==> c in arg;
      assert s.cur + arg[..n] + [arg[n]] == s.cur + arg;
      ReadInside(s, arg[..n]);
    }
  }

  lemma ReadQuoted(s: Scan, q: char, arg: string)
    requires s.quote.None? && (q == SQ || q == DQ) && q !in arg
    ensures Read(s, [q] + arg + [q]) == s.(cur := s.cur + arg)
  {
    ReadAppend(s, [q] + arg, [q]);
    ReadAppend(s, [q], arg);
    ReadOne(s, q);
    ReadInside(s.(quote := Some(q)), arg);
    ReadOne(s.(cur := s.cur + arg, quote := Some(q)), q);
  }

  lemma {:induction false} WithoutIsWithout(s: string, c: char)
    ensures c !in Without(s, c)
    ensures forall d :: d in s && d != c ==> d in Without(s, c)
  {
    if s != "" {
      WithoutIsWithout(s[..|s| - 1], c);
      assert s == s[..|s| - 1] + [s[|s| - 1]];
    }
  }

  /** A printed argument is read back into the current one, without an empty argument's quotes. */
  lemma ReadArg(s: Scan, arg: string)
    requires s.quote.None? && s.cur == ""
    ensures Read(s, QuoteArg(arg)) == s.(cur := if arg == "" then "" else Kept(arg))
    ensures arg != "" ==> Kept(arg) != ""
  {
    hide Read, Without;
    WithoutIsWithout(arg, DQ);
    if arg == "" {
      ReadQuoted(s, SQ, "");
      assert [SQ] + "" + [SQ] == [SQ, SQ];
    } else if Bare(arg) {
      ReadBare(s, arg);
    } else if DQ !in arg {
      ReadQuoted(s, DQ, arg);
    } else if SQ !in arg {
      ReadQuoted(s, SQ, arg);
    } else {
      ReadQuoted(s, DQ, Without(arg, DQ));
    }
    assert "" + Kept(arg) == Kept(arg);
  }

  lemma {:induction false} ReadJoined(args: seq<string>)
    ensures Read(Scan([], "", None), Joined(args)).quote.None?
    ensures Flush(Read(Scan([], "", None), Joined(args))) == Scan(Survivors(args), "", None)
  {
    hide Read, Without, QuoteArg;
    var start := Scan([], "", None);
    if args == [] {
      ReadNothing(start);
    } else {
      var init, last := args[..|args| - 1], args[|args| - 1];
      ReadJoined(init);
      var line := Joined(init);
      if init == [] {
        ReadArg(start, last);
        assert Survivors(init) == [];
      } else {
        ReadAppend(start, line + " ", QuoteArg(last));
        ReadAppend(start, line, " ");
        ReadOne(Read(start, line), ' ');
        ReadArg(Scan(Survivors(init), "", None), last);
      }
    }
  }

  lemma ReadNothing(s: Scan)
    ensures Read(s, "") == s
  {
  }

  /** Splitting a printed list gives the non-empty arguments in order, each unchanged unless it
      holds both kinds of quote, in which case exactly its double quotes are gone. */
  lemma RoundTrip(args: seq<string>)
    ensures Split(Joined(args)) == Survivors(args)
  {
    hide Read;
    ReadJoined(args);
  }

  predicate Printable(arg: string) {
    arg != "" && !BothQuotes(arg)
  }

  predicate AllPrintable(args: seq<string>) {
    forall a :: a in args ==> Printable(a)
  }

  lemma AllPrintableEmpty()
    ensures AllPrintable([])
  {
  }

  lemma AllPrintableSnoc(init: seq<string>, last: string)
    ensures AllPrintable(init + [last]) <==> AllPrintable(init) && Printable(last)
  {
    assert forall a :: a in init + [last] <==> a in init || a == last;
  }

  /** The list comes back as it was exactly if no argument is empty or holds both kinds of quote. */
  lemma {:induction false} RoundTripIsExact(args: seq<string>)
    ensures Split(Joined(args)) == args <==> AllPrintable(args)
  {
    hide Split;
    RoundTrip(args);
    SurvivorsExact(args);
  }

  lemma KeptExact(arg: string)
    ensures Kept(arg) == arg <==> !BothQuotes(arg)
  {
    WithoutIsWithout(arg, DQ);
  }

  lemma SnocEqual(a: seq<string>, x: string, b: seq<string>, y: string)
    ensures a + [x] == b + [y] <==> a == b && x == y
  {
    if a + [x] == b + [y] {
      assert (a + [x])[|a|] == x && (b + [y])[|b|] == y;
      assert a == (a + [x])[..|a|] == (b + [y])[..|b|] == b;
    }
  }

  lemma {:induction false} SurvivorsExact(args: seq<string>)
    ensures |Survivors(args)| <= |args|
    ensures Survivors(args) == args <==> AllPrintable(args)
  {
    hide Kept, BothQuotes, AllPrintable;
    if args == [] {
      AllPrintableEmpty();
    } else {
      var init, last := args[..|args| - 1], args[|args| - 1];
      SurvivorsExact(init);
      assert args == init + [last];
      KeptExact(last);
      SnocEqual(Survivors(init), Kept(last), init, last);
      AllPrintableSnoc(init, last);
    }
  }

  /** What survives one trip survives every further trip unchanged. */
  lemma {:induction false} SecondTripIsExact(args: seq<string>)
    ensures Split(Joined(Split(Joined(args)))) == Split(Joined(args))
  {
    hide Split;
    RoundTrip(args);
    SurvivorsPrintable(args);
    RoundTripIsExact(Survivors(args));
  }

  lemma {:induction false} SurvivorsPrintable(args: seq<string>)
    ensures AllPrintable(Survivors(args))
  {
    if args != [] {
      SurvivorsPrintable(args[..|args| - 1]);
      ReadArg(Scan([], "", None), args[|args| - 1]);
      WithoutIsWithout(args[|args| - 1], DQ);
    }
  }

  // ----- Any spelling -----

  /** A stretch of an argument: as it is, or between quotes. */
  datatype Piece = Plain(s: string) | Quoted(q: char, s: string)

  predicate PieceOk(p: Piece) {
    match p
    case Plain(s) => Bare(s)
    case Quoted(q, s) => (q == SQ || q == DQ) && q !in s
  }

  predicate Spells(pieces: seq<Piece>) {
    forall p :: p in pieces ==> PieceOk(p)
  }

  function Spelled(pieces: seq<Piece>): string {
    if pieces == [] then ""
    else
      Spelled(pieces[..|pieces| - 1]) +
      match pieces[|pieces| - 1] case Plain(s) => s case Quoted(q, s) => [q] + s + [q]
  }

  function Meant(pieces: seq<Piece>): string {
    if pieces == [] then "" else Meant(pieces[..|pieces| - 1]) + pieces[|pieces| - 1].s
  }

  /** An argument, and the blanks after it. */
  datatype Word = Word(pieces: seq<Piece>, blanks: string)

  predicate WordOk(w: Word) {
    Spells(w.pieces) && w.blanks != "" && forall c :: c in w.blanks ==> Blank(c)
  }

  function Line(words: seq<Word>): string {
    if words == [] then ""
    else Line(words[..|words| - 1]) + (Spelled(words[|words| - 1].pieces) + words[|words| - 1].blanks)
  }

  /** Arguments that are empty are lost, quoted or not. */
  function Args(words: seq<Word>): seq<string> {
    if words == [] then []
    else
      var m := Meant(words[|words| - 1].pieces);
      Args(words[..|words| - 1]) + if m == "" then [] else [m]
  }

  lemma {:induction false} ReadPieces(s: Scan, pieces: seq<Piece>)
    requires s.quote.None? && Spells(pieces)
    ensures Read(s, Spelled(pieces)) == s.(cur := s.cur + Meant(pieces))
  {
    hide Read, PieceOk;
    if pieces == [] {
      ReadNothing(s);
      assert s.cur + "" == s.cur;
    } else {
      var init, last := pieces[..|pieces| - 1], pieces[|pieces| - 1];
      assert last in pieces && forall p :: p in init ==> p in pieces;
      ReadPieces(s, init);
      var t := s.(cur := s.cur + Meant(init));
      ReadPiece(t, last);
      ReadAppend(s, Spelled(init), match last case Plain(x) => x case Quoted(q, x) => [q] + x + [q]);
      assert t.cur + last.s == s.cur + (Meant(init) + last.s);
    }
  }

  lemma ReadPiece(s: Scan, p: Piece)
    requires s.quote.None? && PieceOk(p)
    ensures Read(s, match p case Plain(x) => x case Quoted(q, x) => [q] + x + [q]) == s.(cur := s.cur + p.s)
  {
    hide Read;
    match p {
      case Plain(x) => ReadBare(s, x);
      case Quoted(q, x) => ReadQuoted(s, q, x);
    }
  }

  lemma {:induction false} ReadBlanks(s: Scan, blanks: string)
    requires s.quote.None? && forall c :: c in blanks ==> Blank(c)
    ensures Read(s, blanks) == if blanks == "" then s else Flush(s)
  {
    if blanks != "" {
      var n := |blanks| - 1;
      assert blanks[n] in blanks && forall c :: c in blanks[..n] ==> c in blanks;
      ReadBlanks(s, blanks[..n]);
    }
  }

  lemma {:induction false} ReadLine(words: seq<Word>)
    requires forall w :: w in words ==> WordOk(w)
    ensures Read(Scan([], "", None), Line(words)) == Scan(Args(words), "", None)
  {
    hide Read, WordOk;
    var start := Scan([], "", None);
    if words == [] {
      ReadNothing(start);
    } else {
      var init, last := words[..|words| - 1], words[|words| - 1];
      assert last in words && forall w :: w in init ==> w in words;
      ReadLine(init);
      var s := Scan(Args(init), "", None);
      WordIs(last);
      ReadPieces(s, last.pieces);
      assert "" + Meant(last.pieces) == Meant(last.pieces);
      ReadBlanks(s.(cur := Meant(last.pieces)), last.blanks);
      ReadAppend(s, Spelled(last.pieces), last.blanks);
      ReadAppend(start, Line(init), Spelled(last.pieces) + last.blanks);
    }
  }

  lemma WordIs(w: Word)
    requires WordOk(w)
    ensures Spells(w.pieces) && w.blanks != "" && forall c :: c in w.blanks ==> Blank(c)
  {
  }

  /** However arguments are spelled, in pieces with and without quotes of either kind, and whatever blanks
      stand around them, the scanner gives what they mean. */
  lemma {:induction false} SpellingsAreRead(lead: string, words: seq<Word>, last: seq<Piece>)
    requires (forall c :: c in lead ==> Blank(c)) && (forall w :: w in words ==> WordOk(w)) && Spells(last)
    ensures Split(lead + (Line(words) + Spelled(last))) ==
            Args(words) + if Meant(last) == "" then [] else [Meant(last)]
  {
    hide Read, Spells, WordOk;
    var start := Scan([], "", None);
    ReadBlanks(start, lead);
    ReadLine(words);
    ReadPieces(Scan(Args(words), "", None), last);
    assert "" + Meant(last) == Meant(last);
    ReadAppend(start, Line(words), Spelled(last));
    ReadAppend(start, lead, Line(words) + Spelled(last));
  }

  /** With a quote left open the rest is taken as it is, up to the end. */
  lemma {:induction false} OpenQuoteTakesTheRest(words: seq<Word>, pieces: seq<Piece>, q: char, rest: string)
    requires (forall w :: w in words ==> WordOk(w)) && Spells(pieces)
    requires (q == SQ || q == DQ) && q !in rest
    ensures Split(Line(words) + (Spelled(pieces) + ([q] + rest))) ==
            Args(words) + if Meant(pieces) + rest == "" then [] else [Meant(pieces) + rest]
  {
    hide Read, Spells, WordOk;
    var start, s := Scan([], "", None), Scan(Args(words), "", None);
    ReadLine(words);
    ReadPieces(s, pieces);
    assert "" + Meant(pieces) == Meant(pieces);
    var t := s.(cur := Meant(pieces));
    ReadOne(t, q);
    ReadInside(t.(quote := Some(q)), rest);
    ReadAppend(t, [q], rest);
    ReadAppend(s, Spelled(pieces), [q] + rest);
    ReadAppend(start, Line(words), Spelled(pieces) + ([q] + rest));
  }
}
