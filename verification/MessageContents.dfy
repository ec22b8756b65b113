/** What the message table holds after any saves, and what a request means
    (internal/store/message.go:13-47, internal/gateway/router.go:349-401). */
module MessageContents {
  import opened MessagePaging

  predicate Mentioned<E>(ms: seq<Message<E>>, id: string) {
    exists k :: 0 <= k < |ms| && ms[k].id == id
  }

  /** The messages whose id has not been used before. */
  function Accepted<E>(ms: seq<Message<E>>): seq<Message<E>> {
    if ms == [] then []
    else
      var init, m := ms[..|ms| - 1], ms[|ms| - 1];
      Accepted(init) + if Mentioned(init, m.id) then [] else [m]
  }

  function CountIn<E>(ms: seq<Message<E>>, session: string): nat {
    if ms == [] then 0
    else CountIn(ms[..|ms| - 1], session) + if ms[|ms| - 1].session == session then 1 else 0
  }

  /** Each as it was saved, with its place among those of its session. */
  function Rows<E>(ms: seq<Message<E>>): Table<E> {
    if ms == [] then []
    else
      var init, m := ms[..|ms| - 1], ms[|ms| - 1];
      Rows(init) + [Row(m.id, m.session, CountIn(init, m.session) + 1, m.content)]
  }

  lemma {:induction false} RowsOfSession<E>(ms: seq<Message<E>>, session: string)
    ensures |OfSession(Rows(ms), session)| == CountIn(ms, session)
    ensures MaxSeq(OfSession(Rows(ms), session)) == CountIn(ms, session)
    ensures Consecutive(OfSession(Rows(ms), session))
  {
    hide MaxSeq;
    if ms == [] {
      NoRows<E>();
    } else {
      var init, m := ms[..|ms| - 1], ms[|ms| - 1];
      RowsOfSession(init, session);
      var row := Row(m.id, m.session, CountIn(init, m.session) + 1, m.content);
      WhereSnoc(Rows(init), row, (r: Row<E>) => r.session == session);
      var before := OfSession(Rows(init), session);
      if m.session == session {
        assert OfSession(Rows(ms), session) == before + [row];
        LastOfMany(before, row);
      } else {
        assert before + [] == before;
      }
    }
  }

  lemma NoRows<E>()
    ensures MaxSeq<E>([]) == 0
  {
  }

  lemma LastOfMany<E>(rows: Table<E>, row: Row<E>)
    requires Consecutive(rows) && row.number == |rows| + 1
    ensures Consecutive(rows + [row]) && MaxSeq(rows + [row]) == row.number
  {
    GreatestIsLast(rows + [row]);
  }

  lemma {:induction false} IdsOfRows<E>(ms: seq<Message<E>>, id: string)
    ensures HasId(Rows(Accepted(ms)), id) <==> Mentioned(ms, id)
  {
    if ms != [] {
      var init, m := ms[..|ms| - 1], ms[|ms| - 1];
      IdsOfRows(init, id);
      assert Mentioned(ms, id) <==> Mentioned(init, id) || m.id == id by {
        forall k | 0 <= k < |init| ensures ms[k] == init[k] {
        }
        if m.id == id { assert ms[|init|].id == id; }
      }
      if !Mentioned(init, m.id) {
        RowsSnoc(Accepted(init), m, id);
      } else {
        assert Accepted(init) + [] == Accepted(init);
        assert m.id == id ==> Mentioned(init, id);
      }
    }
  }

  lemma RowsSnoc<E>(ms: seq<Message<E>>, m: Message<E>, id: string)
    ensures Rows(ms + [m]) == Rows(ms) + [Row(m.id, m.session, CountIn(ms, m.session) + 1, m.content)]
    ensures HasId(Rows(ms + [m]), id) <==> HasId(Rows(ms), id) || m.id == id
  {
    assert (ms + [m])[..|ms|] == ms;
    var rows, last := Rows(ms), Row(m.id, m.session, CountIn(ms, m.session) + 1, m.content);
    if HasId(rows, id) {
      var i :| 0 <= i < |rows| && rows[i].id == id;
      assert (rows + [last])[i].id == id;
    } else if m.id == id {
      assert (rows + [last])[|rows|].id == id;
    }
  }

  /** Whatever is saved: the table holds the messages whose id is new, in the order of saving, each with the
      session and the content that it was saved with, numbered within its session. */
  lemma {:induction false} TableIsAccepted<E>(ms: seq<Message<E>>)
    ensures InsertAll<E>([], ms) == Rows(Accepted(ms))
  {
    hide HasId, Mentioned, OfSession, MaxSeq, Rows, CountIn, Consecutive;
    if ms == [] {
      EmptyRows<E>();
    } else {
      var init, m := ms[..|ms| - 1], ms[|ms| - 1];
      TableIsAccepted(init);
      IdsOfRows(init, m.id);
      if Mentioned(init, m.id) {
        assert Accepted(init) + [] == Accepted(init);
      } else {
        RowsOfSession(Accepted(init), m.session);
        RowsSnoc(Accepted(init), m, m.id);
      }
    }
  }

  lemma EmptyRows<E>()
    ensures Rows<E>([]) == []
  {
  }

  // ----- Requests -----

  /** A limit from 1 to 500 is kept; any other, or none, or one that is no number, means 100. Without bounds
      the request is for what comes after 0. It is refused exactly without a session, with both bounds, or
      with a bound that is no number. */
  lemma RequestsMean<E>(t: Table<E>, q: Request)
    ensures Serve(t, q).BadRequest? <==>
            q.session == "" || (!q.after.Missing? && !q.before.Missing?) || q.after.Malformed? || q.before.Malformed?
    ensures !Serve(t, q).BadRequest? ==>
              var n := if q.limit.Given? && 1 <= q.limit.n <= 500 then q.limit.n else 100;
              Serve(t, q) == if q.before.Given? then PageBefore(t, q.session, q.before.n, n)
                             else PageAfter(t, q.session, if q.after.Given? then q.after.n else 0, n)
  {
    hide OfSession, After, Before;
  }

  /** The errors of the endpoint: no store at all, then a request that is refused, then a store that fails, in
      the query, at the end, or at one of the rows that are fetched -- one more than the limit at most. */
  lemma AnswersMean<E>(available: bool, t: Table<E>, q: Request, fault: Fault)
    ensures var r, refused := Answer(available, t, q, fault), Serve(t, q).BadRequest?;
            && (r.Unavailable? <==> !available)
            && (r.BadRequest? <==> available && refused)
            && (r.InternalError? <==>
                  available && !refused &&
                  (fault.QueryFails? || fault.CursorFails? ||
                   (fault.RowFails? && fault.at < |Serve(t, q).messages| + if Serve(t, q).hasMore then 1 else 0)))
            && (r.Page? ==> r == Serve(t, q))
  {
    hide OfSession, After, Before;
    if WellFormed(q) { FetchesOneMore(t, q); }
  }

  lemma FetchesOneMore<E>(t: Table<E>, q: Request)
    requires WellFormed(q)
    ensures |Wanted(t, q)| == |Serve(t, q).messages| + if Serve(t, q).hasMore then 1 else 0
  {
    hide OfSession, After, Before;
  }
}
