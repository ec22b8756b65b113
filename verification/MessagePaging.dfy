/** The message table: sequence numbers per session (internal/store/message.go) and the pages the
    history endpoint serves from it (internal/gateway/router.go).

    The table is the list of its rows in the order of insertion; a query is what SQL says it is. */
module MessagePaging {
  datatype Row<E> = Row(id: string, session: string, number: int, content: E)

  type Table<E> = seq<Row<E>>

  // ----- Queries -----

  /** SELECT ... WHERE. */
  function Where<T>(xs: seq<T>, p: T -> bool): seq<T> {
    if xs == [] then []
    else Where(xs[..|xs| - 1], p) + if p(xs[|xs| - 1]) then [xs[|xs| - 1]] else []
  }

  function OfSession<E>(t: Table<E>, session: string): Table<E> {
    Where(t, (r: Row<E>) => r.session == session)
  }

  function After<E>(rows: Table<E>, a: int): Table<E> {
    Where(rows, (r: Row<E>) => r.number > a)
  }

  function Before<E>(rows: Table<E>, b: int): Table<E> {
    Where(rows, (r: Row<E>) => r.number < b)
  }

  function Greatest<E>(rows: Table<E>): int
    requires rows != []
  {
    var last := rows[|rows| - 1].number;
    if |rows| == 1 then last
    else
      var m := Greatest(rows[..|rows| - 1]);
      if m > last then m else last
  }

  /** COALESCE(MAX(seq), 0) over the rows of one session. */
  function MaxSeq<E>(rows: Table<E>): int {
    if rows == [] then 0 else Greatest(rows)
  }

  function First<T>(xs: seq<T>, n: nat): seq<T> {
    if n < |xs| then xs[..n] else xs
  }

  function Last<T>(xs: seq<T>, n: nat): seq<T> {
    if n < |xs| then xs[|xs| - n..] else xs
  }

  function Reverse<T>(xs: seq<T>): seq<T> {
    if xs == [] then [] else [xs[|xs| - 1]] + Reverse(xs[..|xs| - 1])
  }

  // ----- Numbering -----

  predicate HasId<E>(t: Table<E>, id: string) {
    exists i :: 0 <= i < |t| && t[i].id == id
  }

  datatype Message<E> = Message(id: string, session: string, content: E)

  /** `id` is the primary key of the whole table; a message whose id is taken is refused. */
  function Insert<E>(t: Table<E>, m: Message<E>): Table<E> {
    if HasId(t, m.id) then t else t + [NewRow(t, m)]
  }

  function InsertAll<E>(t: Table<E>, ms: seq<Message<E>>): Table<E> {
    if ms == [] then t else Insert(InsertAll(t, ms[..|ms| - 1]), ms[|ms| - 1])
  }

  ghost predicate Sorted<E>(rows: Table<E>) {
    forall i, j :: 0 <= i < j < |rows| ==> rows[i].number < rows[j].number
  }

  ghost predicate Positive<E>(rows: Table<E>) {
    forall i :: 0 <= i < |rows| ==> rows[i].number >= 1
  }

  lemma WhereSnoc<T>(xs: seq<T>, x: T, p: T -> bool)
    ensures Where(xs + [x], p) == Where(xs, p) + if p(x) then [x] else []
  {
    assert (xs + [x])[..|xs|] == xs;
  }

  lemma {:induction false} GreatestIsLast<E>(rows: Table<E>)
    requires Sorted(rows) && rows != []
    ensures Greatest(rows) == rows[|rows| - 1].number
  {
    if |rows| > 1 { GreatestIsLast(rows[..|rows| - 1]); }
  }

  predicate Accepts<E>(t: Table<E>, m: Message<E>, session: string) {
    !HasId(t, m.id) && m.session == session
  }

  function NewRow<E>(t: Table<E>, m: Message<E>): Row<E> {
    Row(m.id, m.session, MaxSeq(OfSession(t, m.session)) + 1, m.content)
  }

  lemma OfSessionInsert<E>(t: Table<E>, m: Message<E>, session: string)
    ensures OfSession(Insert(t, m), session) ==
            OfSession(t, session) + if Accepts(t, m, session) then [NewRow(t, m)] else []
  {
    hide HasId, MaxSeq;
    if !HasId(t, m.id) { WhereSnoc(t, NewRow(t, m), (r: Row<E>) => r.session == session); }
  }

  lemma AppendNumbered<E>(rows: Table<E>, r: Row<E>)
    requires Sorted(rows) && Positive(rows) && r.number == MaxSeq(rows) + 1
    ensures Sorted(rows + [r]) && Positive(rows + [r])
  {
    if rows != [] { GreatestIsLast(rows); }
  }

  /** A row already there is never renumbered, and a new one is numbered above all of its session. */
  lemma InsertKeepsNumbering<E>(t: Table<E>, m: Message<E>, session: string)
    requires Sorted(OfSession(t, session)) && Positive(OfSession(t, session))
    ensures var n := OfSession(Insert(t, m), session);
            Sorted(n) && Positive(n) && OfSession(t, session) <= n
  {
    hide Sorted, Positive, OfSession, Insert, HasId, MaxSeq;
    OfSessionInsert(t, m, session);
    var rows := OfSession(t, session);
    assert rows + [] == rows;
    if Accepts(t, m, session) { AppendNumbered(rows, NewRow(t, m)); }
  }

  lemma {:induction false} InsertAllKeepsNumbering<E>(t: Table<E>, ms: seq<Message<E>>, session: string)
    requires Sorted(OfSession(t, session)) && Positive(OfSession(t, session))
    ensures var n := OfSession(InsertAll(t, ms), session);
            Sorted(n) && Positive(n) && OfSession(t, session) <= n
  {
    hide Sorted, Positive, OfSession, Insert;
    if ms != [] {
      InsertAllKeepsNumbering(t, ms[..|ms| - 1], session);
      InsertKeepsNumbering(InsertAll(t, ms[..|ms| - 1]), ms[|ms| - 1], session);
    }
  }

  ghost predicate DistinctIds<E>(t: Table<E>) {
    forall i, j :: 0 <= i < j < |t| ==> t[i].id != t[j].id
  }

  ghost predicate Consecutive<E>(rows: Table<E>) {
    forall i :: 0 <= i < |rows| ==> rows[i].number == i + 1
  }

  /** Whatever is saved, in whatever order of sessions, and whichever saves are refused: the messages
      of each session are numbered 1, 2, 3 and so on in the order of saving, and ids stay unique. */
  lemma {:induction false} SeqsCountUp<E>(ms: seq<Message<E>>, session: string)
    ensures Consecutive(OfSession(InsertAll<E>([], ms), session)) && DistinctIds(InsertAll<E>([], ms))
  {
    hide Consecutive, DistinctIds, OfSession, Insert, HasId, MaxSeq;
    if ms == [] {
      EmptyTable<E>(session);
    } else {
      var p, m := InsertAll<E>([], ms[..|ms| - 1]), ms[|ms| - 1];
      SeqsCountUp(ms[..|ms| - 1], session);
      OfSessionInsert(p, m, session);
      var rows := OfSession(p, session);
      assert rows + [] == rows;
      if Accepts(p, m, session) { AppendConsecutive(rows, NewRow(p, m)); }
      InsertKeepsIds(p, m);
    }
  }

  lemma EmptyTable<E>(session: string)
    ensures Consecutive(OfSession<E>([], session)) && DistinctIds<E>([])
  {
  }

  lemma AppendConsecutive<E>(rows: Table<E>, r: Row<E>)
    requires Consecutive(rows) && r.number == MaxSeq(rows) + 1
    ensures Consecutive(rows + [r])
  {
    if rows != [] { GreatestIsLast(rows); }
  }

  lemma InsertKeepsIds<E>(t: Table<E>, m: Message<E>)
    requires DistinctIds(t)
    ensures DistinctIds(Insert(t, m))
  {
  }

  // ----- Queries on sorted rows are slices -----

  /** How many rows lie at or below `a`. */
  function Upto<E>(rows: Table<E>, a: int): (n: nat)
    ensures n <= |rows|
  {
    if rows == [] then 0
    else if rows[|rows| - 1].number <= a then |rows|
    else Upto(rows[..|rows| - 1], a)
  }

  lemma {:induction false} UptoSplits<E>(rows: Table<E>, a: int)
    requires Sorted(rows)
    ensures forall i :: 0 <= i < |rows| ==> (rows[i].number <= a <==> i < Upto(rows, a))
  {
    if rows != [] && rows[|rows| - 1].number > a { UptoSplits(rows[..|rows| - 1], a); }
  }

  lemma {:induction false} AfterIsSuffix<E>(rows: Table<E>, a: int)
    requires Sorted(rows)
    ensures After(rows, a) == rows[Upto(rows, a)..]
  {
    if rows != [] {
      var p := rows[..|rows| - 1];
      AfterIsSuffix(p, a);
      UptoSplits(rows, a);
      UptoSplits(p, a);
    }
  }

  lemma {:induction false} BeforeIsPrefix<E>(rows: Table<E>, b: int)
    requires Sorted(rows)
    ensures Before(rows, b) == rows[..Upto(rows, b - 1)]
  {
    if rows != [] {
      var p := rows[..|rows| - 1];
      BeforeIsPrefix(p, b);
      UptoSplits(rows, b - 1);
      UptoSplits(p, b - 1);
    }
  }

  // ----- Pages -----

  function Limit(limit: int): nat {
    if limit <= 0 || limit > 500 then 100 else limit
  }

  /** ORDER BY seq leaves the rows of a session as they are: they were numbered in this order. One row
      more than the limit is fetched, to tell whether there are more. */
  function GetAfter<E>(t: Table<E>, session: string, a: int, limit: int): Table<E> {
    First(After(OfSession(t, session), a), Limit(limit) + 1)
  }

  /** The last rows below the bound, in ascending order. */
  function GetBefore<E>(t: Table<E>, session: string, b: int, limit: int): Table<E> {
    Last(Before(OfSession(t, session), b), Limit(limit) + 1)
  }

  /** A query parameter: absent or empty, not a number, or a number. */
  datatype Param = Missing | Malformed | Given(n: int)

  datatype Request = Request(session: string, limit: Param, after: Param, before: Param)

  datatype Response<E> =
    | Page(messages: Table<E>, hasMore: bool)
    | BadRequest
    | Unavailable     // there is no message store
    | InternalError   // the store reports an error

  function RequestLimit(p: Param): nat {
    if p.Given? && 0 < p.n <= 500 then p.n else 100
  }

  function Truncate<E>(msgs: Table<E>, limit: nat): Response<E> {
    Page(First(msgs, limit), |msgs| > limit)
  }

  predicate WellFormed(q: Request) {
    && q.session != ""
    && (q.after.Missing? || q.before.Missing?)
    && !q.after.Malformed? && !q.before.Malformed?
  }

  /** What the store is asked for. */
  function Wanted<E>(t: Table<E>, q: Request): Table<E>
    requires WellFormed(q)
  {
    var limit := RequestLimit(q.limit);
    if q.after.Given? then GetAfter(t, q.session, q.after.n, limit)
    else if q.before.Given? then GetBefore(t, q.session, q.before.n, limit)
    else GetAfter(t, q.session, 0, limit)
  }

  /** The response when the store works. */
  function Serve<E>(t: Table<E>, q: Request): Response<E> {
    if WellFormed(q) then Truncate(Wanted(t, q), RequestLimit(q.limit)) else BadRequest
  }

  /** What may go wrong in the database while rows are fetched. */
  datatype Fault = NoFault | QueryFails | RowFails(at: nat) | CursorFails

  predicate Hits(fault: Fault, rows: nat) {
    fault.QueryFails? || fault.CursorFails? || (fault.RowFails? && fault.at < rows)
  }

  function PageAfter<E>(t: Table<E>, session: string, a: int, n: nat): Response<E> {
    Serve(t, Request(session, Given(n), Given(a), Missing))
  }

  function PageBefore<E>(t: Table<E>, session: string, b: int, n: nat): Response<E> {
    Serve(t, Request(session, Given(n), Missing, Given(b)))
  }

  // ----- Forward paging -----

  ghost predicate Numbered<E>(t: Table<E>, session: string) {
    Sorted(OfSession(t, session)) && Positive(OfSession(t, session))
  }

  lemma UptoIs<E>(rows: Table<E>, a: int, k: nat)
    requires Sorted(rows) && k <= |rows|
    requires k == 0 || rows[k - 1].number <= a
    requires k == |rows| || rows[k].number > a
    ensures Upto(rows, a) == k
  {
    UptoSplits(rows, a);
  }

  lemma PrefixSorted<E>(rows: Table<E>, more: Table<E>)
    requires Sorted(more) && rows <= more
    ensures Sorted(rows)
  {
  }

  /** The positions of a start and of the `n`-th row after it, in a table and in a longer one. */
  lemma PagePositions<E>(rows: Table<E>, more: Table<E>, a: int, n: nat)
    requires Sorted(more) && rows <= more && n > 0 && Upto(rows, a) + n < |rows|
    ensures var k := Upto(rows, a);
            var last := rows[k + n - 1].number;
            Upto(more, a) == k && Upto(more, last) == k + n && Upto(rows, last) == k + n
  {
    PrefixSorted(rows, more);
    var k := Upto(rows, a);
    UptoSplits(rows, a);
    PrefixSteps(rows, more, a, k);
    UptoIs(more, a, k);
    var last := rows[k + n - 1].number;
    assert more[k + n - 1] == rows[k + n - 1] && more[k + n] == rows[k + n];
    UptoIs(more, last, k + n);
    UptoIs(rows, last, k + n);
  }

  /** A truncated page, and what a longer table has after the last number of that page, are together
      what the longer table has after the start. */
  lemma PageSplits<E>(rows: Table<E>, more: Table<E>, a: int, n: nat)
    requires Sorted(more) && rows <= more && n > 0 && |After(rows, a)| > n
    ensures var page := After(rows, a)[..n];
            var last := page[n - 1].number;
            After(more, a) == page + After(more, last) && Upto(rows, last) == Upto(rows, a) + n <= |rows|
  {
    hide After, Upto, Sorted;
    PrefixSorted(rows, more);
    AfterIsSuffix(rows, a);
    PagePositions(rows, more, a, n);
    var k := Upto(rows, a);
    var last := rows[k + n - 1].number;
    AfterIsSuffix(more, a);
    AfterIsSuffix(more, last);
    assert After(rows, a)[..n] == more[k..k + n];
    assert more[k..] == more[k..k + n] + more[k + n..];
  }

  lemma PrefixSteps<E>(rows: Table<E>, more: Table<E>, a: int, k: nat)
    requires rows <= more && k < |rows|
    requires forall i :: 0 <= i < |rows| ==> (rows[i].number <= a <==> i < k)
    ensures k == 0 || more[k - 1].number <= a
    ensures more[k].number > a
  {
    assert more[k] == rows[k];
    if k > 0 { assert more[k - 1] == rows[k - 1]; }
  }

  /** The rows not yet fetched. */
  function Left<E>(t: Table<E>, session: string, a: int): nat {
    var rows := OfSession(t, session);
    |rows| - Upto(rows, a)
  }

  lemma PageOf<E>(t: Table<E>, session: string, a: int, n: nat)
    requires session != "" && 0 < n <= 500
    ensures var all := After(OfSession(t, session), a);
            PageAfter(t, session, a, n) == Page(First(all, n), |all| > n)
  {
    hide OfSession, After;
    var all := After(OfSession(t, session), a);
    assert First(First(all, n + 1), n) == First(all, n);
  }

  lemma PageProgress<E>(t: Table<E>, session: string, a: int, n: nat)
    requires session != "" && 0 < n <= 500 && Numbered(t, session) && PageAfter(t, session, a, n).hasMore
    ensures var page := PageAfter(t, session, a, n).messages;
            |page| == n && Left(t, session, page[n - 1].number) < Left(t, session, a)
  {
    hide OfSession, Serve;
    PageOf(t, session, a, n);
    PageSplits(OfSession(t, session), OfSession(t, session), a, n);
  }

  /** A reader that asks for page after page, each starting after the last number it has seen, until
      there is no more. Between two pages a batch of messages is saved, as long as there are batches.
      The result is what it has read, and the table at the end. */
  function Sync<E>(t: Table<E>, session: string, a: int, n: nat, batches: seq<seq<Message<E>>>): (Table<E>, Table<E>)
    requires session != "" && 0 < n <= 500 && Numbered(t, session)
    decreases |batches|, Left(t, session, a)
  {
    var page := PageAfter(t, session, a, n);
    if !page.hasMore then (page.messages, t)
    else
      PageProgress(t, session, a, n);
      var last := page.messages[n - 1].number;
      if batches == [] then
        var rest := Sync(t, session, last, n, []);
        (page.messages + rest.0, rest.1)
      else
        InsertAllKeepsNumbering(t, batches[0], session);
        var rest := Sync(InsertAll(t, batches[0]), session, last, n, batches[1..]);
        (page.messages + rest.0, rest.1)
  }

  /** For every limit and every schedule of saves between the pages, the reader ends up with exactly
      what the table then holds above the start: each message once, in the order of its number. */
  lemma {:induction false} SyncReadsAll<E>(t: Table<E>, session: string, a: int, n: nat,
                                           batches: seq<seq<Message<E>>>)
    requires session != "" && 0 < n <= 500 && Numbered(t, session)
    ensures var r := Sync(t, session, a, n, batches);
            && r.0 == After(OfSession(r.1, session), a)
            && Numbered(r.1, session) && OfSession(t, session) <= OfSession(r.1, session)
    decreases |batches|, Left(t, session, a)
  {
    hide OfSession, After, Serve, Sorted, Positive;
    PageOf(t, session, a, n);
    if PageAfter(t, session, a, n).hasMore {
      PageProgress(t, session, a, n);
      var last := PageAfter(t, session, a, n).messages[n - 1].number;
      if batches == [] {
        SyncReadsAll(t, session, last, n, []);
        PageSplits(OfSession(t, session), OfSession(Sync(t, session, last, n, []).1, session), a, n);
      } else {
        InsertAllKeepsNumbering(t, batches[0], session);
        var u := InsertAll(t, batches[0]);
        SyncReadsAll(u, session, last, n, batches[1..]);
        PageSplits(OfSession(t, session), OfSession(Sync(u, session, last, n, batches[1..]).1, session), a, n);
      }
    }
  }

  // ----- Backward pages -----

  /** The store returns the greatest numbers below the bound, as many as asked for and one more, in
      ascending order. */
  lemma BeforeIsGreatest<E>(t: Table<E>, session: string, b: int, limit: int)
    requires Numbered(t, session)
    ensures var rows := OfSession(t, session);
            var got := GetBefore(t, session, b, limit);
            && Sorted(got)
            && (|got| == Limit(limit) + 1 || (|got| <= Limit(limit) && got == Before(rows, b)))
            && (forall j :: 0 <= j < |got| ==> got[j].number < b && got[j] in rows)
            && (forall i, j :: 0 <= i < |rows| && 0 <= j < |got| && rows[i].number < b && rows[i] !in got
                  ==> rows[i].number < got[j].number)
  {
    hide OfSession, Before, Positive;
    var rows := OfSession(t, session);
    var got := GetBefore(t, session, b, limit);
    var k := Upto(rows, b - 1);
    BeforeIsPrefix(rows, b);
    UptoSplits(rows, b - 1);
    assert got == rows[k - |got|..k];
    SliceIsGreatest(rows, b, k - |got|, k);
  }

  lemma SliceIsGreatest<E>(rows: Table<E>, b: int, from: nat, k: nat)
    requires Sorted(rows) && from <= k <= |rows|
    requires forall i :: 0 <= i < |rows| ==> (rows[i].number < b <==> i < k)
    ensures var got := rows[from..k];
            && Sorted(got)
            && (forall j :: 0 <= j < |got| ==> got[j].number < b && got[j] in rows)
            && (forall i, j :: 0 <= i < |rows| && 0 <= j < |got| && rows[i].number < b && rows[i] !in got
                  ==> rows[i].number < got[j].number)
  {
    var got := rows[from..k];
    forall i, j | 0 <= i < |rows| && 0 <= j < |got| && rows[i].number < b && rows[i] !in got
      ensures rows[i].number < got[j].number
    {
      assert got[j] == rows[from + j];
      if i >= from { InSlice(rows, from, k, i); }
    }
  }

  lemma InSlice<T>(xs: seq<T>, from: nat, k: nat, i: nat)
    requires from <= i < k <= |xs|
    ensures xs[i] in xs[from..k]
  {
    assert xs[from..k][i - from] == xs[i];
  }

  /** The endpoint cuts a backward page at its end, where the newest rows are: of the rows below the
      bound, the newest is on the page exactly if nothing was cut, and a cut page is the `n` rows just
      before that one. */
  lemma CutPageLosesNewest<E>(t: Table<E>, session: string, b: int, n: nat)
    requires session != "" && 0 < n <= 500 && Numbered(t, session)
    requires Before(OfSession(t, session), b) != []
    ensures var all := Before(OfSession(t, session), b);
            var m, page := |all|, PageBefore(t, session, b, n);
            && page.Page? && page.hasMore == (m > n)
            && page.messages == (if m > n then all[m - n - 1..m - 1] else all)
            && (all[m - 1] in page.messages <==> !page.hasMore)
  {
    hide OfSession, Before;
    var all := Before(OfSession(t, session), b);
    var m := |all|;
    BeforeIsPrefix(OfSession(t, session), b);
    if m > n { assert Last(all, n + 1)[..n] == all[m - n - 1..m - 1]; }
  }

  // ----- The store and the endpoint -----

  datatype Saved = SavedAs(number: int) | DuplicateId | NotSaved

  datatype Fetched<E> = Rows(rows: Table<E>) | StoreError

  function Outcome<E>(rows: Table<E>, fault: Fault): Fetched<E> {
    if Hits(fault, |rows|) then StoreError else Rows(rows)
  }

  /** The database of the store; every operation is told how it fares there. */
  class MessageStore<E> {
    var table: Table<E>

    constructor ()
      ensures table == []
    {
      table := [];
    }

    /** One transaction: allocate the number, insert, commit. If it fails nothing is changed. */
    method SaveMessage(m: Message<E>, works: bool) returns (r: Saved)
      modifies this
      ensures table == if works then Insert(old(table), m) else old(table)
      ensures r == if !works then NotSaved
                   else if HasId(old(table), m.id) then DuplicateId
                   else SavedAs(MaxSeq(OfSession(old(table), m.session)) + 1)
    {
      if !works { return NotSaved; }
      var number := MaxSeq(OfSession(table, m.session)) + 1;
      if HasId(table, m.id) { return DuplicateId; }
      table := table + [Row(m.id, m.session, number, m.content)];
      return SavedAs(number);
    }

    method GetMessagesAfter(session: string, a: int, limit: int, fault: Fault) returns (r: Fetched<E>)
      ensures r == Outcome(GetAfter(table, session, a, limit), fault)
    {
      var n := limit;
      if n <= 0 || n > 500 { n := 100; }
      if fault.QueryFails? { return StoreError; }
      r := ScanMessages(First(After(OfSession(table, session), a), n + 1), fault);
    }

    method GetMessagesBefore(session: string, b: int, limit: int, fault: Fault) returns (r: Fetched<E>)
      ensures r == Outcome(GetBefore(table, session, b, limit), fault)
    {
      var n := limit;
      if n <= 0 || n > 500 { n := 100; }
      if fault.QueryFails? { return StoreError; }
      var found := Before(OfSession(table, session), b);
      ReverseOfFirst(found, n + 1);
      r := ScanMessages(First(Reverse(found), n + 1), fault);  // ORDER BY seq DESC LIMIT n + 1
      if r.StoreError? { return; }
      var rows := r.rows;
      var a := new Row<E>[|rows|](i requires 0 <= i < |rows| => rows[i]);
      assert a[..] == rows;
      ReverseInPlace(a);
      r := Rows(a[..]);
    }
  }

  /** Stops with an error at the first row that cannot be read, and when the cursor reports one. */
  method ScanMessages<E>(rows: Table<E>, fault: Fault) returns (r: Fetched<E>)
    requires !fault.QueryFails?
    ensures r == Outcome(rows, fault)
  {
    var msgs := [];
    for i := 0 to |rows|
      invariant msgs == rows[..i]
      invariant fault.RowFails? ==> fault.at >= i
    {
      if fault == RowFails(i) { return StoreError; }
      msgs := msgs + [rows[i]];
    }
    if fault.CursorFails? { return StoreError; }
    return Rows(msgs);
  }

  lemma {:induction false} ReversedAt<T>(xs: seq<T>)
    ensures |Reverse(xs)| == |xs| && forall k :: 0 <= k < |xs| ==> Reverse(xs)[k] == xs[|xs| - 1 - k]
  {
    if xs != [] { ReversedAt(xs[..|xs| - 1]); }
  }

  lemma ReverseOfFirst<T>(xs: seq<T>, n: nat)
    ensures Reverse(First(Reverse(xs), n)) == Last(xs, n) && |First(Reverse(xs), n)| == |Last(xs, n)|
  {
    ReversedAt(xs);
    ReversedAt(First(Reverse(xs), n));
  }

  method ReverseInPlace<T>(a: array<T>)
    modifies a
    ensures a[..] == Reverse(old(a[..]))
  {
    var i, j := 0, a.Length - 1;
    while i < j
      invariant 0 <= i <= a.Length && i + j == a.Length - 1 && i <= j + 1
      invariant forall k :: 0 <= k < i ==> a[k] == old(a[a.Length - 1 - k]) && a[a.Length - 1 - k] == old(a[k])
      invariant forall k :: i <= k <= j ==> a[k] == old(a[k])
    {
      a[i], a[j] := a[j], a[i];
      i, j := i + 1, j - 1;
    }
    ReversedAt(old(a[..]));
  }

  /** The endpoint's answer, the errors in the order in which they are found. */
  function Answer<E>(available: bool, t: Table<E>, q: Request, fault: Fault): Response<E> {
    if !available then Unavailable
    else if !WellFormed(q) then BadRequest
    else if Hits(fault, |Wanted(t, q)|) then InternalError
    else Serve(t, q)
  }

  method MessagesHandler<E>(store: MessageStore?<E>, q: Request, fault: Fault) returns (r: Response<E>)
    ensures r == Answer(store != null, if store == null then [] else store.table, q, fault)
  {
    if store == null { return Unavailable; }
    if q.session == "" { return BadRequest; }
    var limit := 100;
    if q.limit.Given? && q.limit.n > 0 && q.limit.n <= 500 { limit := q.limit.n; }
    var fetched;
    if !q.after.Missing? && !q.before.Missing? {
      return BadRequest;
    } else if !q.after.Missing? {
      if q.after.Malformed? { return BadRequest; }
      fetched := store.GetMessagesAfter(q.session, q.after.n, limit, fault);
    } else if !q.before.Missing? {
      if q.before.Malformed? { return BadRequest; }
      fetched := store.GetMessagesBefore(q.session, q.before.n, limit, fault);
    } else {
      fetched := store.GetMessagesAfter(q.session, 0, limit, fault);
    }
    if fetched.StoreError? { return InternalError; }
    var msgs := fetched.rows;
    var hasMore := |msgs| > limit;
    if hasMore { msgs := msgs[..limit]; }
    return Page(msgs, hasMore);
  }
}
