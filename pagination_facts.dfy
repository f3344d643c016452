/** What the two pagination strategies do, stated over their walks: the
    requests they make in order, when they go on and when they stop, and
    what they yield from a server that answers every request cleanly. */
module PaginationFacts {
  import opened Common
  import opened Json
  import opened Http
  import opened Executor
  import opened Paginator

  function Last<T>(s: seq<T>): T
    requires s != []
  {
    s[|s| - 1]
  }

  /** The attempts of `Then(a, rest)` after the first are those of `rest`. */
  lemma ThenIndex(a: Attempt, rest: Walk)
    ensures Then(a, rest).attempts[0] == a
    ensures |Then(a, rest).attempts| == |rest.attempts| + 1
    ensures forall k | 1 <= k < |Then(a, rest).attempts| :: Then(a, rest).attempts[k] == rest.attempts[k - 1]
  {
  }

  /** Pass `a` of the offset loop asked for the page its state names. */
  predicate OffsetPassAsks(a: Attempt, endpoint: string, params: Query, pageSize: int) {
    && a.state.JInt?
    && a.request == GetRequest(endpoint, OffsetQuery(a.state.i, pageSize, params))
    && !a.step.Recovered?
  }

  /** Pass `a` of the offset loop asked for page `page`. */
  predicate OffsetPassIs(a: Attempt, endpoint: string, params: Query, pageSize: int, page: int) {
    a.state == JInt(page) && OffsetPassAsks(a, endpoint, params, pageSize)
  }

  /** Attempts that asked for pages `page`, `page + 1`, ... in order. */
  predicate OffsetPassesFrom(attempts: seq<Attempt>, endpoint: string, params: Query, pageSize: int, page: int)
    decreases |attempts|
  {
    attempts != [] ==>
      && OffsetPassIs(attempts[0], endpoint, params, pageSize, page)
      && OffsetPassesFrom(attempts[1..], endpoint, params, pageSize, page + 1)
  }

  lemma {:induction false} OffsetWalkPasses(script: seq<Event>, pos: nat, endpoint: string, params: Query, pageSize: int, page: int)
    requires pos <= |script|
    ensures OffsetPassesFrom(OffsetWalk(script, pos, endpoint, params, pageSize, page).attempts, endpoint, params, pageSize, page)
    decreases |script| - pos
  {
    var x := Exec(script, pos);
    var a := OffsetAttempt(script, pos, endpoint, params, pageSize, page);
    if OffsetGoesOn(a.step) {
      var rest := OffsetWalk(script, x.next, endpoint, params, pageSize, page + 1);
      OffsetWalkPasses(script, x.next, endpoint, params, pageSize, page + 1);
      assert ([a] + rest.attempts)[1..] == rest.attempts;
    }
  }

  lemma {:induction false} OffsetPassesIndexed(attempts: seq<Attempt>, endpoint: string, params: Query, pageSize: int, page: int)
    requires OffsetPassesFrom(attempts, endpoint, params, pageSize, page)
    ensures forall k | 0 <= k < |attempts| :: OffsetPassIs(attempts[k], endpoint, params, pageSize, page + k)
    decreases |attempts|
  {
    if attempts != [] {
      OffsetPassesIndexed(attempts[1..], endpoint, params, pageSize, page + 1);
      forall k | 1 <= k < |attempts|
        ensures OffsetPassIs(attempts[k], endpoint, params, pageSize, page + k)
      {
        assert attempts[k] == attempts[1..][k - 1];
        assert attempts[1..][k - 1].state == JInt(page + 1 + (k - 1));
      }
    }
  }

  /** The offset strategy asks for pages `page`, `page + 1`, ... in order,
      each merged with the caller's params, and never absorbs an
      interrupted body. */
  lemma OffsetRequests(script: seq<Event>, pos: nat, endpoint: string, params: Query, pageSize: int, page: int)
    requires pos <= |script|
    ensures forall k | 0 <= k < |OffsetWalk(script, pos, endpoint, params, pageSize, page).attempts| ::
      OffsetPassIs(OffsetWalk(script, pos, endpoint, params, pageSize, page).attempts[k], endpoint, params, pageSize, page + k)
  {
    OffsetWalkPasses(script, pos, endpoint, params, pageSize, page);
    OffsetPassesIndexed(OffsetWalk(script, pos, endpoint, params, pageSize, page).attempts, endpoint, params, pageSize, page);
  }

  /** The offset strategy makes at most one request more than the server
      has answers. */
  lemma {:induction false} OffsetLength(script: seq<Event>, pos: nat, endpoint: string, params: Query, pageSize: int, page: int)
    requires pos <= |script|
    ensures 1 <= |OffsetWalk(script, pos, endpoint, params, pageSize, page).attempts| <= |script| - pos + 1
    decreases |script| - pos
  {
    var x := Exec(script, pos);
    var a := OffsetAttempt(script, pos, endpoint, params, pageSize, page);
    if OffsetGoesOn(a.step) {
      OffsetLength(script, x.next, endpoint, params, pageSize, page + 1);
    }
  }

  /** Attempts of which every one but the last went on. */
  predicate GoesOnUntilLast(attempts: seq<Attempt>)
    decreases |attempts|
  {
    && attempts != []
    && if |attempts| == 1 then !OffsetGoesOn(attempts[0].step)
       else OffsetGoesOn(attempts[0].step) && GoesOnUntilLast(attempts[1..])
  }

  lemma {:induction false} OffsetWalkGoesOn(script: seq<Event>, pos: nat, endpoint: string, params: Query, pageSize: int, page: int)
    requires pos <= |script|
    ensures GoesOnUntilLast(OffsetWalk(script, pos, endpoint, params, pageSize, page).attempts)
    ensures OffsetWalk(script, pos, endpoint, params, pageSize, page).ending
         == PassEnding(Last(OffsetWalk(script, pos, endpoint, params, pageSize, page).attempts).step)
    decreases |script| - pos
  {
    var x := Exec(script, pos);
    var a := OffsetAttempt(script, pos, endpoint, params, pageSize, page);
    if OffsetGoesOn(a.step) {
      var rest := OffsetWalk(script, x.next, endpoint, params, pageSize, page + 1);
      OffsetWalkGoesOn(script, x.next, endpoint, params, pageSize, page + 1);
      var attempts := [a] + rest.attempts;
      assert attempts[0] == a && attempts[1..] == rest.attempts && Last(attempts) == Last(rest.attempts);
    }
  }

  lemma {:induction false} GoesOnUntilLastIndexed(attempts: seq<Attempt>)
    requires GoesOnUntilLast(attempts)
    ensures forall k | 0 <= k < |attempts| - 1 :: OffsetGoesOn(attempts[k].step)
    ensures !OffsetGoesOn(Last(attempts).step)
    decreases |attempts|
  {
    if |attempts| > 1 {
      GoesOnUntilLastIndexed(attempts[1..]);
      assert Last(attempts[1..]) == Last(attempts);
      forall k | 1 <= k < |attempts| - 1
        ensures OffsetGoesOn(attempts[k].step)
      {
        assert attempts[k] == attempts[1..][k - 1];
      }
    }
  }

  /** The offset strategy goes on exactly while the yielded body is a dict
      with a truthy `"next"`, and ends as its last pass says. */
  lemma OffsetSteps(script: seq<Event>, pos: nat, endpoint: string, params: Query, pageSize: int, page: int)
    requires pos <= |script|
    ensures OffsetWalk(script, pos, endpoint, params, pageSize, page).attempts != []
    ensures forall k | 0 <= k < |OffsetWalk(script, pos, endpoint, params, pageSize, page).attempts| - 1 ::
      OffsetGoesOn(OffsetWalk(script, pos, endpoint, params, pageSize, page).attempts[k].step)
    ensures !OffsetGoesOn(Last(OffsetWalk(script, pos, endpoint, params, pageSize, page).attempts).step)
    ensures OffsetWalk(script, pos, endpoint, params, pageSize, page).ending
         == PassEnding(Last(OffsetWalk(script, pos, endpoint, params, pageSize, page).attempts).step)
  {
    OffsetWalkGoesOn(script, pos, endpoint, params, pageSize, page);
    GoesOnUntilLastIndexed(OffsetWalk(script, pos, endpoint, params, pageSize, page).attempts);
  }

  /** The offset strategy goes on exactly while the yielded body is a dict
      with a truthy `"next"`, ends as its last pass says, and makes at most
      one request more than the server has answers. */
  lemma OffsetTrace(script: seq<Event>, pos: nat, endpoint: string, params: Query, pageSize: int, page: int)
    requires pos <= |script|
    ensures var w := OffsetWalk(script, pos, endpoint, params, pageSize, page);
      && 1 <= |w.attempts| <= |script| - pos + 1
      && (forall k | 0 <= k < |w.attempts| - 1 :: OffsetGoesOn(w.attempts[k].step))
      && !OffsetGoesOn(Last(w.attempts).step)
      && w.ending == PassEnding(Last(w.attempts).step)
  {
    OffsetLength(script, pos, endpoint, params, pageSize, page);
    OffsetSteps(script, pos, endpoint, params, pageSize, page);
  }

  /** The pages of a walk in which every attempt yielded: one per attempt. */
  lemma {:induction false} PagesOfYielded(attempts: seq<Attempt>)
    requires forall k | 0 <= k < |attempts| :: attempts[k].step.Yielded?
    ensures |PagesOf(attempts)| == |attempts|
    ensures forall k | 0 <= k < |attempts| :: PagesOf(attempts)[k] == attempts[k].step.page
  {
    if attempts != [] {
      PagesOfYielded(attempts[..|attempts| - 1]);
    }
  }

  /** An offset traversal that ends without raising yielded one page per
      request, the last a list or a dict with a falsy `"next"`, every other
      a dict with a truthy `"next"`. One that raises yielded one page per
      request but the last. */
  lemma OffsetOutcome(script: seq<Event>, pos: nat, endpoint: string, params: Query, pageSize: int)
    requires pos <= |script|
    ensures var w := OffsetWalk(script, pos, endpoint, params, pageSize, 1);
      && (w.ending == Done ==>
            && |PagesOf(w.attempts)| == |w.attempts|
            && var last := Last(PagesOf(w.attempts));
               last.JList? || (last.JObject? && !Truthy(Get(last.fields, NextKey))))
      && (w.ending.Raising? ==> |PagesOf(w.attempts)| >= |w.attempts| - 1)
  {
    var w := OffsetWalk(script, pos, endpoint, params, pageSize, 1);
    OffsetTrace(script, pos, endpoint, params, pageSize, 1);
    OffsetRequests(script, pos, endpoint, params, pageSize, 1);
    assert OffsetPassIs(Last(w.attempts), endpoint, params, pageSize, 1 + (|w.attempts| - 1));
    OffsetPagesOf(w.attempts, w.ending);
  }

  /** The pages of attempts that all yielded a page to go on from, but the
      last, which ended the loop without absorbing an interrupted body. */
  lemma OffsetPagesOf(attempts: seq<Attempt>, ending: Ending)
    requires attempts != []
    requires forall k | 0 <= k < |attempts| - 1 :: OffsetGoesOn(attempts[k].step)
    requires !Last(attempts).step.Recovered? && !OffsetGoesOn(Last(attempts).step)
    requires ending == PassEnding(Last(attempts).step)
    ensures ending == Done ==>
      && |PagesOf(attempts)| == |attempts|
      && var last := Last(PagesOf(attempts));
         last.JList? || (last.JObject? && !Truthy(Get(last.fields, NextKey)))
    ensures ending.Raising? ==> |PagesOf(attempts)| >= |attempts| - 1
  {
    var n := |attempts|;
    var init, last := attempts[..n - 1], attempts[n - 1];
    forall k | 0 <= k < |init|
      ensures init[k].step.Yielded?
    {
      assert init[k] == attempts[k] && OffsetGoesOn(attempts[k].step);
    }
    PagesOfYielded(init);
    var pages := PagesOf(init) + (if last.step.Yielded? then [last.step.page] else []);
    assert PagesOf(attempts) == pages;
    if ending == Done {
      assert last.step.Yielded? && Last(pages) == last.step.page;
    }
  }

  /** The cursor strategy starts at `cursor` with the params dict after
      putting that cursor in; each later pass carries the cursor the one
      before it chose (the same one after an interrupted body, the yielded
      `nextPageCursor` otherwise) and the params dict the one before it left,
      updated with that cursor. It goes on exactly after an interrupted body
      or a dict whose `nextPageCursor` is truthy and new, and leaves the
      caller's dict as its last request sent it. */
  lemma {:induction false} CursorTrace(script: seq<Event>, pos: nat, endpoint: string, params: Query, cursor: Json)
    requires pos <= |script|
    ensures var w := CursorWalk(script, pos, endpoint, params, cursor);
      && 1 <= |w.attempts| <= |script| - pos + 1
      && w.attempts[0].state == cursor
      && w.attempts[0].request == GetRequest(endpoint, CursorQuery(params, cursor))
      && (forall k | 0 <= k < |w.attempts| - 1 ::
            && CursorGoesOn(w.attempts[k].step, w.attempts[k].state)
            && w.attempts[k + 1].state == CursorAfter(w.attempts[k].step, w.attempts[k].state)
            && w.attempts[k + 1].request == GetRequest(endpoint, CursorQuery(w.attempts[k].request.query, w.attempts[k + 1].state)))
      && !CursorGoesOn(Last(w.attempts).step, Last(w.attempts).state)
      && w.ending == PassEnding(Last(w.attempts).step)
      && w.params == Last(w.attempts).request.query
    decreases |script| - pos
  {
    var w := CursorWalk(script, pos, endpoint, params, cursor);
    var x := Exec(script, pos);
    var a := CursorAttempt(script, pos, endpoint, params, cursor);
    if CursorGoesOn(a.step, cursor) {
      var query := CursorQuery(params, cursor);
      var rest := CursorWalk(script, x.next, endpoint, query, CursorAfter(a.step, cursor));
      CursorTrace(script, x.next, endpoint, query, CursorAfter(a.step, cursor));
      assert w == Then(a, rest);
      ThenIndex(a, rest);
      assert Last(w.attempts) == Last(rest.attempts);
    }
  }

  /** Query `q`, sent with cursor `state`, keeps the caller's `params`
      other than the cursor key, adds no other key, and holds the cursor
      under the cursor key once that is truthy. */
  predicate KeepsParams(q: Query, params: Query, state: Json) {
    && q.Keys <= params.Keys + {CursorKey}
    && (forall key | key in params && key != CursorKey :: key in q && q[key] == params[key])
    && (Truthy(state) ==> CursorKey in q && q[CursorKey] == state)
  }

  /** What keeps the params of one pass keeps the params the pass started
      from. */
  lemma KeepsParamsThrough(q: Query, params: Query, cursor: Json, state: Json)
    requires KeepsParams(q, CursorQuery(params, cursor), state)
    ensures KeepsParams(q, params, state)
  {
  }

  /** Every request of a cursor traversal keeps the caller's other params;
      the cursor key holds the pass's cursor once that is truthy, and before
      that whatever the caller put there. */
  lemma {:induction false} CursorKeepsParams(script: seq<Event>, pos: nat, endpoint: string, params: Query, cursor: Json)
    requires pos <= |script|
    ensures forall k | 0 <= k < |CursorWalk(script, pos, endpoint, params, cursor).attempts| ::
      KeepsParams(CursorWalk(script, pos, endpoint, params, cursor).attempts[k].request.query, params,
                  CursorWalk(script, pos, endpoint, params, cursor).attempts[k].state)
    decreases |script| - pos
  {
    var w := CursorWalk(script, pos, endpoint, params, cursor);
    var x := Exec(script, pos);
    var a := CursorAttempt(script, pos, endpoint, params, cursor);
    var query := CursorQuery(params, cursor);
    assert KeepsParams(a.request.query, params, a.state);
    if CursorGoesOn(a.step, cursor) {
      var rest := CursorWalk(script, x.next, endpoint, query, CursorAfter(a.step, cursor));
      CursorKeepsParams(script, x.next, endpoint, query, CursorAfter(a.step, cursor));
      assert w == Then(a, rest);
      ThenIndex(a, rest);
      forall k | 1 <= k < |w.attempts|
        ensures KeepsParams(w.attempts[k].request.query, params, w.attempts[k].state)
      {
        var b := rest.attempts[k - 1];
        KeepsParamsThrough(b.request.query, params, cursor, b.state);
      }
    }
  }

  /** Two passes in a row that both yield carry different cursors: the loop
      never asks for the same cursor twice running, except to retry an
      interrupted body. */
  lemma CursorAdvances(script: seq<Event>, pos: nat, endpoint: string, params: Query, k: nat)
    requires pos <= |script|
    requires k + 1 < |CursorWalk(script, pos, endpoint, params, JNull).attempts|
    requires CursorWalk(script, pos, endpoint, params, JNull).attempts[k].step.Yielded?
    ensures var w := CursorWalk(script, pos, endpoint, params, JNull);
      && w.attempts[k + 1].state != w.attempts[k].state
      && Truthy(w.attempts[k + 1].state)
  {
    CursorTrace(script, pos, endpoint, params, JNull);
  }

  /** A server that answers every request with status 200 and the next of
      `bodies`, and then falls silent. */
  function Serve(bodies: seq<Json>): (script: seq<Event>)
    ensures |script| == |bodies|
  {
    seq(|bodies|, i requires 0 <= i < |bodies| => Reply(Response(200, map[], bodies[i])))
  }

  /** Whether the offset loop asks for another page after `body`. */
  predicate HasNextPage(body: Json) {
    body.JObject? && NextKey in body.fields && Truthy(body.fields[NextKey])
  }

  /** The bodies a client reads from a clean server, paging by number: up to
      and including the first that has no next page. */
  function PagesUntilLast(bodies: seq<Json>): seq<Json> {
    if bodies == [] then []
    else if HasNextPage(bodies[0]) then [bodies[0]] + PagesUntilLast(bodies[1..])
    else [bodies[0]]
  }

  /** How that reading ends: on the server falling silent if it ran out of
      bodies, with an AttributeError if the last body is neither a list
      nor a dict, cleanly otherwise. */
  function OffsetServedEnding(bodies: seq<Json>): Ending {
    if bodies == [] then Raising(NoReply)
    else if HasNextPage(bodies[0]) then OffsetServedEnding(bodies[1..])
    else if bodies[0].JList? || bodies[0].JObject? then Done
    else Raising(AttributeError)
  }

  /** The pages of `[a]` followed by more attempts. */
  lemma {:induction false} PagesOfCons(a: Attempt, rest: seq<Attempt>)
    ensures PagesOf([a] + rest) == (if a.step.Yielded? then [a.step.page] else []) + PagesOf(rest)
    decreases |rest|
  {
    if rest == [] {
      assert [a] + rest == [a];
      assert [a][..0] == [];
    } else {
      var init := rest[..|rest| - 1];
      var last := rest[|rest| - 1];
      assert [a] + rest == ([a] + init) + [last];
      assert rest == init + [last];
      Extend([a] + init, last);
      Extend(init, last);
      PagesOfCons(a, init);
    }
  }

  /** Against a clean server, the offset strategy yields exactly the bodies
      up to the first without a next page, and ends as OffsetServedEnding
      says. */
  lemma {:induction false} OffsetReference(bodies: seq<Json>, pos: nat, endpoint: string, params: Query, pageSize: int, page: int)
    requires pos <= |bodies|
    ensures var w := OffsetWalk(Serve(bodies), pos, endpoint, params, pageSize, page);
      && PagesOf(w.attempts) == PagesUntilLast(bodies[pos..])
      && w.ending == OffsetServedEnding(bodies[pos..])
    decreases |bodies| - pos
  {
    var script := Serve(bodies);
    var w := OffsetWalk(script, pos, endpoint, params, pageSize, page);
    var a := OffsetAttempt(script, pos, endpoint, params, pageSize, page);
    if pos == |bodies| {
      assert w.attempts == [a];
      Extend([], a);
    } else {
      var body := bodies[pos];
      assert script[pos] == Reply(Response(200, map[], body));
      assert Exec(script, pos) == Exchange(Ok(Response(200, map[], body)), pos + 1, []);
      assert bodies[pos..][1..] == bodies[pos + 1..];
      assert OffsetGoesOn(a.step) == HasNextPage(body);
      if HasNextPage(body) {
        var rest := OffsetWalk(script, pos + 1, endpoint, params, pageSize, page + 1);
        OffsetReference(bodies, pos + 1, endpoint, params, pageSize, page + 1);
        PagesOfCons(a, rest.attempts);
      } else {
        assert w.attempts == [a];
        Extend([], a);
      }
    }
  }

  /** The cursor a clean body hands on, if any. */
  function CursorIn(body: Json): Json {
    if body.JObject? then Get(body.fields, NextCursorKey) else JNull
  }

  /** Whether the cursor loop asks for another page after `body` when its
      current cursor is `cursor`. */
  predicate HasNewCursor(body: Json, cursor: Json) {
    body.JObject? && Truthy(CursorIn(body)) && CursorIn(body) != cursor
  }

  /** The bodies a client reads from a clean server, paging by cursor: up to
      and including the first that hands on no cursor, or the cursor it
      was asked with. */
  function CursorPagesUntilLast(bodies: seq<Json>, cursor: Json): seq<Json> {
    if bodies == [] then []
    else if HasNewCursor(bodies[0], cursor) then [bodies[0]] + CursorPagesUntilLast(bodies[1..], CursorIn(bodies[0]))
    else [bodies[0]]
  }

  /** How that reading ends: as OffsetServedEnding, with "no new cursor" in
      place of "no next page". */
  function CursorServedEnding(bodies: seq<Json>, cursor: Json): Ending {
    if bodies == [] then Raising(NoReply)
    else if HasNewCursor(bodies[0], cursor) then CursorServedEnding(bodies[1..], CursorIn(bodies[0]))
    else if bodies[0].JList? || bodies[0].JObject? then Done
    else Raising(AttributeError)
  }

  /** Against a clean server, the cursor strategy ends as
      CursorServedEnding says. */
  lemma {:induction false} CursorEndingReference(bodies: seq<Json>, pos: nat, endpoint: string, params: Query, cursor: Json)
    requires pos <= |bodies|
    ensures CursorWalk(Serve(bodies), pos, endpoint, params, cursor).ending == CursorServedEnding(bodies[pos..], cursor)
    decreases |bodies| - pos
  {
    var script := Serve(bodies);
    var a := CursorAttempt(script, pos, endpoint, params, cursor);
    if pos < |bodies| {
      var body := bodies[pos];
      assert script[pos] == Reply(Response(200, map[], body));
      assert Exec(script, pos) == Exchange(Ok(Response(200, map[], body)), pos + 1, []);
      assert bodies[pos..][1..] == bodies[pos + 1..];
      assert CursorGoesOn(a.step, cursor) == HasNewCursor(body, cursor);
      if HasNewCursor(body, cursor) {
        assert CursorAfter(a.step, cursor) == CursorIn(body);
        CursorEndingReference(bodies, pos + 1, endpoint, CursorQuery(params, cursor), CursorIn(body));
      }
    }
  }

  /** Against a clean server, the cursor strategy yields exactly the bodies
      up to the first that hands on no new cursor. */
  lemma {:induction false} CursorReference(bodies: seq<Json>, pos: nat, endpoint: string, params: Query, cursor: Json)
    requires pos <= |bodies|
    ensures PagesOf(CursorWalk(Serve(bodies), pos, endpoint, params, cursor).attempts) == CursorPagesUntilLast(bodies[pos..], cursor)
    decreases |bodies| - pos
  {
    var script := Serve(bodies);
    var w := CursorWalk(script, pos, endpoint, params, cursor);
    var a := CursorAttempt(script, pos, endpoint, params, cursor);
    if pos == |bodies| {
      assert w.attempts == [a];
      Extend([], a);
    } else {
      var body := bodies[pos];
      assert script[pos] == Reply(Response(200, map[], body));
      assert Exec(script, pos) == Exchange(Ok(Response(200, map[], body)), pos + 1, []);
      assert bodies[pos..][1..] == bodies[pos + 1..];
      assert CursorGoesOn(a.step, cursor) == HasNewCursor(body, cursor);
      if HasNewCursor(body, cursor) {
        var query := CursorQuery(params, cursor);
        var rest := CursorWalk(script, pos + 1, endpoint, query, CursorIn(body));
        assert CursorAfter(a.step, cursor) == CursorIn(body);
        CursorReference(bodies, pos + 1, endpoint, query, CursorIn(body));
        PagesOfCons(a, rest.attempts);
      } else {
        assert w.attempts == [a];
        Extend([], a);
      }
    }
  }

  /** Putting the same cursor in twice is putting it in once. */
  lemma CursorQueryTwice(params: Query, cursor: Json)
    ensures CursorQuery(CursorQuery(params, cursor), cursor) == CursorQuery(params, cursor)
  {
  }

  /** Every interrupted body of a cursor traversal is followed by another
      pass with the same cursor and the very same request: `continue`
      retries the page it lost (readwise/api.py:218-221). */
  lemma CursorRecovers(script: seq<Event>, pos: nat, endpoint: string, params: Query, cursor: Json)
    requires pos <= |script|
    ensures forall k | 0 <= k < |CursorWalk(script, pos, endpoint, params, cursor).attempts|
                       && CursorWalk(script, pos, endpoint, params, cursor).attempts[k].step.Recovered? ::
      && k + 1 < |CursorWalk(script, pos, endpoint, params, cursor).attempts|
      && CursorWalk(script, pos, endpoint, params, cursor).attempts[k + 1].state
         == CursorWalk(script, pos, endpoint, params, cursor).attempts[k].state
      && CursorWalk(script, pos, endpoint, params, cursor).attempts[k + 1].request
         == CursorWalk(script, pos, endpoint, params, cursor).attempts[k].request
  {
    var w := CursorWalk(script, pos, endpoint, params, cursor);
    CursorTrace(script, pos, endpoint, params, cursor);
    forall k | 0 <= k < |w.attempts| && w.attempts[k].step.Recovered?
      ensures k + 1 < |w.attempts|
      ensures w.attempts[k + 1].state == w.attempts[k].state
      ensures w.attempts[k + 1].request == w.attempts[k].request
    {
      assert k != |w.attempts| - 1 by {
        assert CursorGoesOn(w.attempts[k].step, w.attempts[k].state);
      }
      var a := w.attempts[k];
      var before := if k == 0 then params else w.attempts[k - 1].request.query;
      assert a.request == GetRequest(endpoint, CursorQuery(before, a.state));
      CursorQueryTwice(before, a.state);
    }
  }

  /** An interrupted body costs the cursor loop a five-second sleep and a
      second request with the same cursor and params; nothing is yielded
      for it. */
  lemma InterruptedThenPage(endpoint: string, params: Query, body: Json)
    requires !HasNewCursor(body, JNull)
    ensures var w := CursorWalk([Dropped, Reply(Response(200, map[], body))], 0, endpoint, params, JNull);
      && PagesOf(w.attempts) == [body]
      && SleptOf(w.attempts) == [RecoveryWait]
      && SentOf(w.attempts) == [GetRequest(endpoint, params), GetRequest(endpoint, params)]
  {
    var script := [Dropped, Reply(Response(200, map[], body))];
    var w := CursorWalk(script, 0, endpoint, params, JNull);
    var a := CursorAttempt(script, 0, endpoint, params, JNull);
    var b := CursorAttempt(script, 1, endpoint, params, JNull);
    assert Exec(script, 0) == Exchange(Err(Interrupted), 1, []);
    assert Exec(script, 1) == Exchange(Ok(Response(200, map[], body)), 2, []);
    assert a.step == Recovered && CursorQuery(params, JNull) == params;
    assert CursorWalk(script, 1, endpoint, params, JNull).attempts == [b];
    assert w.attempts == [a] + [b];
    assert [a, b] == [a] + [b];
    Extend([a], b);
    Extend([], a);
    assert [a] == [] + [a];
  }
}
