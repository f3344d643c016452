/** The paginator, `_get_pagination`, with its two loop strategies. Each
    strategy is specified by a walk over the scripted server (a pure
    recursion that records every attempt it makes) and implemented by a
    method with the source's `while True` loop. */
module Paginator {
  import opened Common
  import opened Json
  import opened Http
  import opened Executor

  /** A Python dict passed by reference: the cursor strategy updates the
      caller's `params` in place. */
  class Dict {
    var entries: Query

    constructor (entries: Query)
      ensures this.entries == entries
    {
      this.entries := entries;
    }

    /** `d.update({key: value})`. */
    method Update(key: string, value: Json)
      modifies this
      ensures entries == old(entries)[key := value]
    {
      entries := entries[key := value];
    }
  }

  const DefaultPageSize: int := 1000
  const ExportEndpoint: string := "/export/"
  const PageKey: string := "page"
  const PageSizeKey: string := "page_size"
  const NextKey: string := "next"
  const CursorKey: string := "pageCursor"
  const NextCursorKey: string := "nextPageCursor"
  const RecoveryWait: nat := 5

  /** `get(endpoint, params=query)`: a GET whose body is the default `{}`. */
  function GetRequest(endpoint: string, query: Query): (r: Request)
    ensures r.verb == GET && r.endpoint == endpoint && r.query == query
  {
    JsonRequest(GET, endpoint, query, map[])
  }

  /** `{"page": page, "page_size": page_size, **params}`: the caller's params
      are spread last, so a caller key wins. */
  function OffsetQuery(page: int, pageSize: int, params: Query): (q: Query)
    ensures q.Keys == params.Keys + {PageKey, PageSizeKey}
    ensures forall k | k in params :: q[k] == params[k]
    ensures PageKey !in params ==> q[PageKey] == JInt(page)
    ensures PageSizeKey !in params ==> q[PageSizeKey] == JInt(pageSize)
  {
    map[PageKey := JInt(page), PageSizeKey := JInt(pageSize)] + params
  }

  /** What one pass of a loop did after its request: yielded the decoded
      body, recovered from an interrupted body by sleeping and going round
      again, or let the executor's exception escape. */
  datatype Step = Yielded(page: Json) | Recovered | Raised(error: Error)

  /** One pass of a pagination loop: the loop's own state when it began (the
      page number, or the cursor with None as JNull), the request it made,
      the 429 waits its executor absorbed, and what followed. */
  datatype Attempt = Attempt(state: Json, request: Request, waits: seq<nat>, step: Step)

  datatype Ending = Done | Raising(error: Error)

  /** A whole traversal: every attempt in order, how it ended, the script
      position after it, and the caller's params dict as it was left. */
  datatype Walk = Walk(attempts: seq<Attempt>, ending: Ending, next: nat, params: Query)

  /** The walk `rest` after the attempt `a`. */
  function Then(a: Attempt, rest: Walk): Walk {
    Walk([a] + rest.attempts, rest.ending, rest.next, rest.params)
  }

  /** The walk `rest` after the attempts `done`. */
  function After(done: seq<Attempt>, rest: Walk): Walk {
    Walk(done + rest.attempts, rest.ending, rest.next, rest.params)
  }

  /** The pages a traversal yields, in order. */
  function PagesOf(attempts: seq<Attempt>): seq<Json> {
    if attempts == [] then []
    else
      var last := attempts[|attempts| - 1];
      PagesOf(attempts[..|attempts| - 1]) + (if last.step.Yielded? then [last.step.page] else [])
  }

  /** The query maps a traversal sends, one per attempt. */
  function QueriesOf(attempts: seq<Attempt>): seq<Query> {
    if attempts == [] then []
    else QueriesOf(attempts[..|attempts| - 1]) + [attempts[|attempts| - 1].request.query]
  }

  /** Every request a traversal puts on the wire, retries included. */
  function SentOf(attempts: seq<Attempt>): seq<Request> {
    if attempts == [] then []
    else
      var last := attempts[|attempts| - 1];
      SentOf(attempts[..|attempts| - 1]) + Copies(last.request, |last.waits| + 1)
  }

  /** Every sleep a traversal takes: the 429 waits, and the fixed wait after
      an interrupted body. */
  function SleptOf(attempts: seq<Attempt>): seq<nat> {
    if attempts == [] then []
    else
      var last := attempts[|attempts| - 1];
      SleptOf(attempts[..|attempts| - 1]) + last.waits + (if last.step.Recovered? then [RecoveryWait] else [])
  }

  /** What a pass of the offset loop makes of the executor's outcome: every
      exception escapes (an interrupted body included). */
  function OffsetStep(result: Result<Response>): (step: Step)
    ensures step.Yielded? <==> result.Ok?
    ensures !step.Recovered?
  {
    match result
    case Ok(resp) => Yielded(resp.body)
    case Err(e) => Raised(e)
  }

  /** The offset loop goes round again only after yielding a dict whose
      `"next"` is truthy. */
  predicate OffsetGoesOn(step: Step) {
    step.Yielded? && step.page.JObject? && Truthy(Get(step.page.fields, NextKey))
  }

  /** How a pass that does not go round again ends the offset loop: `break`
      after a list or a dict, the AttributeError of `data.get` on any other
      body, or the executor's exception. */
  function PassEnding(step: Step): Ending {
    match step
    case Yielded(page) => if page.JList? || page.JObject? then Done else Raising(AttributeError)
    case Recovered => Done
    case Raised(e) => Raising(e)
  }

  /** The offset strategy from page `page` on: request `page` and
      `page_size` merged with the caller's params, yield the body, stop
      after a body that is a list or has a falsy `"next"`, else go on with
      the next page. The caller's params are only read. */
  function OffsetWalk(script: seq<Event>, pos: nat, endpoint: string, params: Query, pageSize: int, page: int): (w: Walk)
    requires pos <= |script|
    ensures pos <= w.next <= |script|
    ensures w.params == params
    decreases |script| - pos
  {
    var x := Exec(script, pos);
    var a := OffsetAttempt(script, pos, endpoint, params, pageSize, page);
    if OffsetGoesOn(a.step) then Then(a, OffsetWalk(script, x.next, endpoint, params, pageSize, page + 1))
    else Walk([a], PassEnding(a.step), x.next, params)
  }

  /** The first pass of OffsetWalk. */
  function OffsetAttempt(script: seq<Event>, pos: nat, endpoint: string, params: Query, pageSize: int, page: int): (a: Attempt)
    requires pos <= |script|
  {
    var x := Exec(script, pos);
    Attempt(JInt(page), GetRequest(endpoint, OffsetQuery(page, pageSize, params)), x.delays, OffsetStep(x.result))
  }

  /** The query an attempt of the cursor strategy sends: the params dict
      after `if pageCursor: params.update({"pageCursor": pageCursor})`. */
  function CursorQuery(params: Query, cursor: Json): (q: Query)
    ensures Truthy(cursor) ==> q == params[CursorKey := cursor]
    ensures !Truthy(cursor) ==> q == params
  {
    if Truthy(cursor) then params[CursorKey := cursor] else params
  }

  /** What a pass of the cursor loop makes of the executor's outcome: an
      interrupted body is caught, every other exception escapes. */
  function CursorStep(result: Result<Response>): (step: Step)
    ensures step.Yielded? <==> result.Ok?
    ensures step.Recovered? <==> result == Err(Interrupted)
  {
    match result
    case Ok(resp) => Yielded(resp.body)
    case Err(e) => if e == Interrupted then Recovered else Raised(e)
  }

  /** The `nextPageCursor` of a yielded dict. */
  function NextCursor(step: Step): Json
    requires step.Yielded? && step.page.JObject?
  {
    Get(step.page.fields, NextCursorKey)
  }

  /** The cursor loop goes round again after an interrupted body, and after
      yielding a dict whose `nextPageCursor` is truthy and differs from the
      current cursor. */
  predicate CursorGoesOn(step: Step, cursor: Json) {
    || step.Recovered?
    || (step.Yielded? && step.page.JObject? && Truthy(NextCursor(step)) && NextCursor(step) != cursor)
  }

  /** The cursor for the next pass: unchanged after a recovery, the
      yielded `nextPageCursor` otherwise. */
  function CursorAfter(step: Step, cursor: Json): Json
    requires CursorGoesOn(step, cursor)
  {
    if step.Recovered? then cursor else NextCursor(step)
  }

  /** The cursor strategy with cursor `cursor`: put a truthy cursor into the
      params dict and request; on an interrupted body sleep 5 seconds and go
      round again with the same cursor; yield the body, stop after a list, a
      falsy `nextPageCursor` or one equal to the current cursor, else go on
      with the new cursor. */
  function CursorWalk(script: seq<Event>, pos: nat, endpoint: string, params: Query, cursor: Json): (w: Walk)
    requires pos <= |script|
    ensures pos <= w.next <= |script|
    decreases |script| - pos
  {
    var query := CursorQuery(params, cursor);
    var x := Exec(script, pos);
    var a := CursorAttempt(script, pos, endpoint, params, cursor);
    if CursorGoesOn(a.step, cursor) then Then(a, CursorWalk(script, x.next, endpoint, query, CursorAfter(a.step, cursor)))
    else Walk([a], PassEnding(a.step), x.next, query)
  }

  /** The first pass of CursorWalk. */
  function CursorAttempt(script: seq<Event>, pos: nat, endpoint: string, params: Query, cursor: Json): (a: Attempt)
    requires pos <= |script|
  {
    var x := Exec(script, pos);
    Attempt(cursor, GetRequest(endpoint, CursorQuery(params, cursor)), x.delays, CursorStep(x.result))
  }

  /** The four logs of a traversal grow by one attempt at a time. */
  lemma Extend(done: seq<Attempt>, a: Attempt)
    ensures PagesOf(done + [a]) == PagesOf(done) + (if a.step.Yielded? then [a.step.page] else [])
    ensures QueriesOf(done + [a]) == QueriesOf(done) + [a.request.query]
    ensures SentOf(done + [a]) == SentOf(done) + Copies(a.request, |a.waits| + 1)
    ensures SleptOf(done + [a]) == SleptOf(done) + a.waits + (if a.step.Recovered? then [RecoveryWait] else [])
  {
    assert (done + [a])[..|done|] == done;
  }

  lemma ConcatAssoc<T>(a: seq<T>, b: seq<T>, c: seq<T>)
    ensures a + b + c == a + (b + c)
  {
  }

  lemma ConcatAssoc4<T>(a: seq<T>, b: seq<T>, c: seq<T>, d: seq<T>)
    ensures a + b + c + d == a + (b + c + d)
  {
  }

  lemma AfterThen(done: seq<Attempt>, a: Attempt, rest: Walk)
    ensures After(done, Then(a, rest)) == After(done + [a], rest)
  {
    assert done + ([a] + rest.attempts) == (done + [a]) + rest.attempts;
  }

  /** One pass of the offset loop, as the loop's invariant needs it. */
  lemma OffsetPass(script: seq<Event>, pos: nat, endpoint: string, params: Query, pageSize: int, page: int,
                   w0: Walk, done: seq<Attempt>)
    requires pos <= |script|
    requires w0 == After(done, OffsetWalk(script, pos, endpoint, params, pageSize, page))
    ensures var a := OffsetAttempt(script, pos, endpoint, params, pageSize, page);
      && (OffsetGoesOn(a.step) ==>
            w0 == After(done + [a], OffsetWalk(script, Exec(script, pos).next, endpoint, params, pageSize, page + 1)))
      && (!OffsetGoesOn(a.step) ==> w0 == Walk(done + [a], PassEnding(a.step), Exec(script, pos).next, params))
  {
    var a := OffsetAttempt(script, pos, endpoint, params, pageSize, page);
    if OffsetGoesOn(a.step) {
      AfterThen(done, a, OffsetWalk(script, Exec(script, pos).next, endpoint, params, pageSize, page + 1));
    }
  }

  /** The offset loop (readwise/api.py:232-241). */
  method OffsetPages(env: Environment, endpoint: string, params: Dict, pageSize: int)
    returns (pages: seq<Json>, queries: seq<Query>, ending: Ending)
    requires env.Valid()
    modifies env
    ensures env.Valid()
    ensures var w := OffsetWalk(env.script, old(env.pos), endpoint, params.entries, pageSize, 1);
      && pages == PagesOf(w.attempts)
      && queries == QueriesOf(w.attempts)
      && ending == w.ending
      && env.pos == w.next
      && env.sent == old(env.sent) + SentOf(w.attempts)
      && env.sleeps == old(env.sleeps) + SleptOf(w.attempts)
  {
    ghost var w0 := OffsetWalk(env.script, env.pos, endpoint, params.entries, pageSize, 1);
    ghost var done: seq<Attempt> := [];
    pages, queries := [], [];
    var page := 1;
    while true
      invariant env.Valid() && old(env.pos) <= env.pos
      invariant w0 == After(done, OffsetWalk(env.script, env.pos, endpoint, params.entries, pageSize, page))
      invariant pages == PagesOf(done) && queries == QueriesOf(done)
      invariant env.sent == old(env.sent) + SentOf(done)
      invariant env.sleeps == old(env.sleeps) + SleptOf(done)
      decreases |env.script| - env.pos
    {
      ghost var a := OffsetAttempt(env.script, env.pos, endpoint, params.entries, pageSize, page);
      OffsetPass(env.script, env.pos, endpoint, params.entries, pageSize, page, w0, done);
      Extend(done, a);
      ConcatAssoc(old(env.sleeps), SleptOf(done), a.waits);
      ConcatAssoc(old(env.sent), SentOf(done), Copies(a.request, |a.waits| + 1));
      var query := OffsetQuery(page, pageSize, params.entries);
      var response := Execute(env, GetRequest(endpoint, query));
      done := done + [a];
      queries := queries + [query];
      if response.Err? {
        return pages, queries, Raising(response.error);
      }
      var data := response.value.body;
      pages := pages + [data];
      if data.JList? || !data.JObject? || !Truthy(Get(data.fields, NextKey)) {
        return pages, queries, if data.JList? || data.JObject? then Done else Raising(AttributeError);
      }
      page := page + 1;
    }
  }

  /** One pass of the cursor loop, as the loop's invariant needs it. */
  lemma CursorPass(script: seq<Event>, pos: nat, endpoint: string, params: Query, cursor: Json,
                   w0: Walk, done: seq<Attempt>)
    requires pos <= |script|
    requires w0 == After(done, CursorWalk(script, pos, endpoint, params, cursor))
    ensures var a := CursorAttempt(script, pos, endpoint, params, cursor);
      && (CursorGoesOn(a.step, cursor) ==>
            w0 == After(done + [a], CursorWalk(script, Exec(script, pos).next, endpoint, CursorQuery(params, cursor),
                                               CursorAfter(a.step, cursor))))
      && (!CursorGoesOn(a.step, cursor) ==>
            w0 == Walk(done + [a], PassEnding(a.step), Exec(script, pos).next, CursorQuery(params, cursor)))
  {
    var a := CursorAttempt(script, pos, endpoint, params, cursor);
    if CursorGoesOn(a.step, cursor) {
      AfterThen(done, a, CursorWalk(script, Exec(script, pos).next, endpoint, CursorQuery(params, cursor),
                                    CursorAfter(a.step, cursor)));
    }
  }

  /** The part of one pass of the cursor loop that talks to the server: put
      a truthy cursor into the params dict, request, and on an interrupted
      body sleep the recovery wait. */
  method CursorRound(env: Environment, endpoint: string, params: Dict, cursor: Json)
    returns (response: Result<Response>)
    requires env.Valid()
    modifies env, params
    ensures env.Valid()
    ensures var a := CursorAttempt(env.script, old(env.pos), endpoint, old(params.entries), cursor);
      && a.step == CursorStep(response)
      && params.entries == a.request.query
      && env.pos == Exec(env.script, old(env.pos)).next
      && env.sent == old(env.sent) + Copies(a.request, |a.waits| + 1)
      && env.sleeps == old(env.sleeps) + a.waits + (if a.step.Recovered? then [RecoveryWait] else [])
  {
    if Truthy(cursor) {
      params.Update(CursorKey, cursor);
    }
    response := Execute(env, GetRequest(endpoint, params.entries));
    if response == Err(Interrupted) {
      env.Sleep(RecoveryWait);
    }
  }

  /** The cursor loop (readwise/api.py:211-230, and readwise/api.py:622-641
      in the Reader client). The caller's params dict is updated in place. */
  method CursorPages(env: Environment, endpoint: string, params: Dict)
    returns (pages: seq<Json>, queries: seq<Query>, ending: Ending)
    requires env.Valid()
    modifies env, params
    ensures env.Valid()
    ensures var w := CursorWalk(env.script, old(env.pos), endpoint, old(params.entries), JNull);
      && pages == PagesOf(w.attempts)
      && queries == QueriesOf(w.attempts)
      && ending == w.ending
      && env.pos == w.next
      && params.entries == w.params
      && env.sent == old(env.sent) + SentOf(w.attempts)
      && env.sleeps == old(env.sleeps) + SleptOf(w.attempts)
  {
    ghost var w0 := CursorWalk(env.script, env.pos, endpoint, params.entries, JNull);
    ghost var done: seq<Attempt> := [];
    pages, queries := [], [];
    var cursor := JNull;
    while true
      invariant env.Valid() && old(env.pos) <= env.pos
      invariant w0 == After(done, CursorWalk(env.script, env.pos, endpoint, params.entries, cursor))
      invariant pages == PagesOf(done) && queries == QueriesOf(done)
      invariant env.sent == old(env.sent) + SentOf(done)
      invariant env.sleeps == old(env.sleeps) + SleptOf(done)
      decreases |env.script| - env.pos
    {
      ghost var a := CursorAttempt(env.script, env.pos, endpoint, params.entries, cursor);
      CursorPass(env.script, env.pos, endpoint, params.entries, cursor, w0, done);
      Extend(done, a);
      ConcatAssoc4(old(env.sleeps), SleptOf(done), a.waits, if a.step.Recovered? then [RecoveryWait] else []);
      ConcatAssoc(old(env.sent), SentOf(done), Copies(a.request, |a.waits| + 1));
      var response := CursorRound(env, endpoint, params, cursor);
      done := done + [a];
      queries := queries + [params.entries];
      if response == Err(Interrupted) {
        continue;
      }
      if response.Err? {
        return pages, queries, Raising(response.error);
      }
      var data := response.value.body;
      pages := pages + [data];
      if data.JList? || !data.JObject? || !Truthy(Get(data.fields, NextCursorKey))
         || Get(data.fields, NextCursorKey) == cursor {
        return pages, queries, if data.JList? || data.JObject? then Done else Raising(AttributeError);
      }
      cursor := Get(data.fields, NextCursorKey);
    }
  }

  /** `_get_pagination` of the Readwise client (readwise/api.py:210): the
      export endpoint pages by cursor, every other endpoint by page number. */
  function PaginationWalk(script: seq<Event>, pos: nat, endpoint: string, params: Query, pageSize: int): (w: Walk)
    requires pos <= |script|
    ensures pos <= w.next <= |script|
  {
    if endpoint == ExportEndpoint then CursorWalk(script, pos, endpoint, params, JNull)
    else OffsetWalk(script, pos, endpoint, params, pageSize, 1)
  }

  method GetPagination(env: Environment, endpoint: string, params: Dict, pageSize: int)
    returns (pages: seq<Json>, queries: seq<Query>, ending: Ending)
    requires env.Valid()
    modifies env, params
    ensures env.Valid()
    ensures var w := PaginationWalk(env.script, old(env.pos), endpoint, old(params.entries), pageSize);
      && pages == PagesOf(w.attempts)
      && queries == QueriesOf(w.attempts)
      && ending == w.ending
      && env.pos == w.next
      && params.entries == w.params
      && env.sent == old(env.sent) + SentOf(w.attempts)
      && env.sleeps == old(env.sleeps) + SleptOf(w.attempts)
  {
    if endpoint == ExportEndpoint {
      pages, queries, ending := CursorPages(env, endpoint, params);
    } else {
      pages, queries, ending := OffsetPages(env, endpoint, params, pageSize);
    }
  }
}
