/** The public operations of the two clients: the Readwise accessors, which
    page through an endpoint and turn every item of every page into a record,
    the daily review, and the two writes (`create_highlight` and, on the
    Reader client, `create_document`). Each is stated against the traversal
    it performs, so its requests, sleeps, records and failure are functions
    of the server's script. */
module Clients {
  import opened Common
  import opened Json
  import opened Http
  import opened Executor
  import opened Paginator
  import opened PaginationFacts
  import opened Builders
  import opened Records
  import opened Streams

  /** What an accessor has produced once the pages are consumed: the records
      yielded, then the exception a record raised, or failing that the one
      the traversal itself ended with. A record is built before the
      traversal goes on past its page, so its failure comes first. */
  function Finish<T>(s: Stream<T>, ending: Ending): (r: Stream<T>)
    ensures r.records == s.records
    ensures s.failure.Some? ==> r.failure == s.failure
    ensures s.failure.None? ==> (r.failure.None? <==> ending == Done)
    ensures s.failure.None? && ending.Raising? ==> r.failure == Some(ending.error)
  {
    if s.failure.Some? then s
    else Stream(s.records, if ending.Raising? then Some(ending.error) else None)
  }

  /** What an accessor over the offset strategy yields against the script
      from `pos` on. */
  function OffsetRecords<T>(script: seq<Event>, pos: nat, endpoint: string, params: Query,
                            itemsOf: Json -> Result<seq<Json>>, decode: Json -> Result<T>): Stream<T>
    requires pos <= |script|
  {
    var w := OffsetWalk(script, pos, endpoint, params, DefaultPageSize, 1);
    Finish(DecodePages(PagesOf(w.attempts), itemsOf, decode), w.ending)
  }

  /** What an accessor over the cursor strategy yields. */
  function CursorRecords<T>(script: seq<Event>, pos: nat, endpoint: string, params: Query,
                            itemsOf: Json -> Result<seq<Json>>, decode: Json -> Result<T>): Stream<T>
    requires pos <= |script|
  {
    var w := CursorWalk(script, pos, endpoint, params, JNull);
    Finish(DecodePages(PagesOf(w.attempts), itemsOf, decode), w.ending)
  }

  /** Bodies that each point to a further page but the last, which is a
      dict or a list that does not. */
  predicate LinkedPages(bodies: seq<Json>) {
    && bodies != []
    && (forall i | 0 <= i < |bodies| - 1 :: HasNextPage(bodies[i]))
    && !HasNextPage(bodies[|bodies| - 1])
    && (bodies[|bodies| - 1].JList? || bodies[|bodies| - 1].JObject?)
  }

  lemma {:induction false} LinkedPagesServed(bodies: seq<Json>)
    requires LinkedPages(bodies)
    ensures PagesUntilLast(bodies) == bodies
    ensures OffsetServedEnding(bodies) == Done
    decreases |bodies|
  {
    if |bodies| > 1 {
      assert HasNextPage(bodies[0]);
      assert LinkedPages(bodies[1..]) by {
        assert forall i | 0 <= i < |bodies[1..]| - 1 :: bodies[1..][i] == bodies[i + 1];
      }
      LinkedPagesServed(bodies[1..]);
      assert [bodies[0]] + bodies[1..] == bodies;
    }
  }

  /** Against a server that answers every page and links them with `next`,
      an offset accessor whose items all decode yields exactly the records
      of every item of every page, in order, and raises nothing. */
  lemma OffsetAccessorYieldsAll<T>(bodies: seq<Json>, endpoint: string, params: Query,
                                   itemsOf: Json -> Result<seq<Json>>, decode: Json -> Result<T>)
    requires LinkedPages(bodies)
    requires AllItems(bodies, itemsOf).Ok? && MapAll(AllItems(bodies, itemsOf).value, decode).Ok?
    ensures OffsetRecords(Serve(bodies), 0, endpoint, params, itemsOf, decode) ==
            Stream(MapAll(AllItems(bodies, itemsOf).value, decode).value, None)
  {
    OffsetReference(bodies, 0, endpoint, params, DefaultPageSize, 1);
    assert bodies[0..] == bodies;
    LinkedPagesServed(bodies);
    DecodePagesFlat(bodies, itemsOf, decode);
    DecodeItemsAsList(AllItems(bodies, itemsOf).value, decode);
  }

  /** Bodies that each hand on a new cursor but the last, which is a dict
      or a list that does not. */
  predicate CursorLinked(bodies: seq<Json>, cursor: Json)
    decreases |bodies|
  {
    && bodies != []
    && if |bodies| == 1 then !HasNewCursor(bodies[0], cursor) && (bodies[0].JList? || bodies[0].JObject?)
       else HasNewCursor(bodies[0], cursor) && CursorLinked(bodies[1..], CursorIn(bodies[0]))
  }

  lemma {:induction false} CursorLinkedServed(bodies: seq<Json>, cursor: Json)
    requires CursorLinked(bodies, cursor)
    ensures CursorPagesUntilLast(bodies, cursor) == bodies
    ensures CursorServedEnding(bodies, cursor) == Done
    decreases |bodies|
  {
    if |bodies| > 1 {
      CursorLinkedServed(bodies[1..], CursorIn(bodies[0]));
      assert [bodies[0]] + bodies[1..] == bodies;
    }
  }

  /** The cursor counterpart of OffsetAccessorYieldsAll: against a server
      whose pages hand on new cursors, a cursor accessor whose items all
      decode yields one record per item of every page, in order, and raises
      nothing. */
  lemma CursorAccessorYieldsAll<T>(bodies: seq<Json>, endpoint: string, params: Query,
                                   itemsOf: Json -> Result<seq<Json>>, decode: Json -> Result<T>)
    requires CursorLinked(bodies, JNull)
    requires AllItems(bodies, itemsOf).Ok? && MapAll(AllItems(bodies, itemsOf).value, decode).Ok?
    ensures CursorRecords(Serve(bodies), 0, endpoint, params, itemsOf, decode) ==
            Stream(MapAll(AllItems(bodies, itemsOf).value, decode).value, None)
  {
    CursorReference(bodies, 0, endpoint, params, JNull);
    CursorEndingReference(bodies, 0, endpoint, params, JNull);
    assert bodies[0..] == bodies;
    CursorLinkedServed(bodies, JNull);
    DecodePagesFlat(bodies, itemsOf, decode);
    DecodeItemsAsList(AllItems(bodies, itemsOf).value, decode);
  }

  // --- the Readwise client

  const BooksEndpoint: string := "/books/"
  const ReviewEndpoint: string := "/review/"
  const CategoryKey: string := "category"

  /** The endpoint of one book's tags: `f"/books/{book_id}/tags/"`. */
  function BookTagsEndpoint(bookId: string): (e: string)
    ensures e != ExportEndpoint
  {
    var e := BooksEndpoint + bookId + "/tags/";
    assert e[1] == 'b' != ExportEndpoint[1];
    e
  }

  /** `get_highlights` (readwise/api.py:306-360): the filters, then every
      highlight of every page by page number. */
  method GetHighlights(env: Environment, bookIds: Option<seq<string>>, updatedAfter: Option<DateTime>,
                       updatedBefore: Option<DateTime>, highlightedAtAfter: Option<DateTime>,
                       highlightedAtBefore: Option<DateTime>)
    returns (s: Stream<Highlight>)
    requires env.Valid()
    modifies env
    ensures env.Valid()
    ensures var params := HighlightFilters(bookIds, updatedAfter, updatedBefore, highlightedAtAfter, highlightedAtBefore);
      var w := OffsetWalk(env.script, old(env.pos), HighlightsEndpoint, params, DefaultPageSize, 1);
      && s == OffsetRecords(env.script, old(env.pos), HighlightsEndpoint, params, Results, HighlightOf)
      && env.pos == w.next
      && env.sent == old(env.sent) + SentOf(w.attempts)
      && env.sleeps == old(env.sleeps) + SleptOf(w.attempts)
  {
    var filters := BuildHighlightFilters(bookIds, updatedAfter, updatedBefore, highlightedAtAfter, highlightedAtBefore);
    var params := new Dict(filters);
    var pages, _, ending := GetPagination(env, HighlightsEndpoint, params, DefaultPageSize);
    var yielded := Collect(pages, Results, HighlightOf);
    s := Finish(yielded, ending);
  }

  /** `get_book_highlights` (readwise/api.py:403-438): the highlights of one
      book, selected by `book_id`. */
  method GetBookHighlights(env: Environment, bookId: string) returns (s: Stream<Highlight>)
    requires env.Valid()
    modifies env
    ensures env.Valid()
    ensures var w := OffsetWalk(env.script, old(env.pos), HighlightsEndpoint, map[BookIdKey := JStr(bookId)], DefaultPageSize, 1);
      && s == OffsetRecords(env.script, old(env.pos), HighlightsEndpoint, map[BookIdKey := JStr(bookId)], Results, HighlightOf)
      && env.pos == w.next
      && env.sent == old(env.sent) + SentOf(w.attempts)
      && env.sleeps == old(env.sleeps) + SleptOf(w.attempts)
  {
    var params := new Dict(map[BookIdKey := JStr(bookId)]);
    var pages, _, ending := GetPagination(env, HighlightsEndpoint, params, DefaultPageSize);
    var yielded := Collect(pages, Results, HighlightOf);
    s := Finish(yielded, ending);
  }

  /** `get_books` (readwise/api.py:362-401): the books of one category. */
  method GetBooks(env: Environment, category: string) returns (s: Stream<Book>)
    requires env.Valid()
    modifies env
    ensures env.Valid()
    ensures var w := OffsetWalk(env.script, old(env.pos), BooksEndpoint, map[CategoryKey := JStr(category)], DefaultPageSize, 1);
      && s == OffsetRecords(env.script, old(env.pos), BooksEndpoint, map[CategoryKey := JStr(category)], Results, BookOf)
      && env.pos == w.next
      && env.sent == old(env.sent) + SentOf(w.attempts)
      && env.sleeps == old(env.sleeps) + SleptOf(w.attempts)
  {
    var params := new Dict(map[CategoryKey := JStr(category)]);
    var pages, _, ending := GetPagination(env, BooksEndpoint, params, DefaultPageSize);
    var yielded := Collect(pages, Results, BookOf);
    s := Finish(yielded, ending);
  }

  /** `get_book_tags` (readwise/api.py:474-488): every page is itself the
      list of tags, read field by field. */
  method GetBookTags(env: Environment, bookId: string) returns (s: Stream<Tag>)
    requires env.Valid()
    modifies env
    ensures env.Valid()
    ensures var w := OffsetWalk(env.script, old(env.pos), BookTagsEndpoint(bookId), map[BookIdKey := JStr(bookId)], DefaultPageSize, 1);
      && s == OffsetRecords(env.script, old(env.pos), BookTagsEndpoint(bookId), map[BookIdKey := JStr(bookId)], Elements, TagOf)
      && env.pos == w.next
      && env.sent == old(env.sent) + SentOf(w.attempts)
      && env.sleeps == old(env.sleeps) + SleptOf(w.attempts)
  {
    var params := new Dict(map[BookIdKey := JStr(bookId)]);
    var pages, _, ending := GetPagination(env, BookTagsEndpoint(bookId), params, DefaultPageSize);
    var yielded := Collect(pages, Elements, TagOf);
    s := Finish(yielded, ending);
  }

  /** A page of tags is a list, so `get_book_tags` yields the tags of the
      first page and stops. */
  lemma BookTagsOnePage(bookId: string, tags: seq<Tag>)
    ensures OffsetRecords(Serve([TagsJson(tags)]), 0, BookTagsEndpoint(bookId), map[BookIdKey := JStr(bookId)], Elements, TagOf)
            == Stream(tags, None)
  {
    var bodies := [TagsJson(tags)];
    assert LinkedPages(bodies);
    assert AllItems(bodies, Elements) == Ok(TagsJson(tags).items) by {
      assert TagsJson(tags).items + [] == TagsJson(tags).items;
    }
    TagsRoundTrip(tags);
    OffsetAccessorYieldsAll(bodies, BookTagsEndpoint(bookId), map[BookIdKey := JStr(bookId)], Elements, TagOf);
  }

  /** ... and puts a single request on the wire for it. */
  lemma BookTagsOneRequest(bookId: string, tags: seq<Tag>)
    ensures |SentOf(OffsetWalk(Serve([TagsJson(tags)]), 0, BookTagsEndpoint(bookId), map[BookIdKey := JStr(bookId)], DefaultPageSize, 1).attempts)| == 1
  {
    var script := Serve([TagsJson(tags)]);
    var params := map[BookIdKey := JStr(bookId)];
    var a := OffsetAttempt(script, 0, BookTagsEndpoint(bookId), params, DefaultPageSize, 1);
    assert script[0] == Reply(Response(200, map[], TagsJson(tags)));
    assert Exec(script, 0) == Exchange(Ok(Response(200, map[], TagsJson(tags))), 1, []);
    assert OffsetWalk(script, 0, BookTagsEndpoint(bookId), params, DefaultPageSize, 1).attempts == [a];
    Extend([], a);
    assert [] + [a] == [a];
  }

  /** `export_highlights` (readwise/api.py:263-304): the filters, then every
      book of every page by cursor. */
  method ExportHighlights(env: Environment, updatedAfter: Option<string>, ids: Option<seq<string>>)
    returns (s: Stream<ExportResult>)
    requires env.Valid()
    modifies env
    ensures env.Valid()
    ensures var w := CursorWalk(env.script, old(env.pos), ExportEndpoint, ExportFilters(updatedAfter, ids), JNull);
      && s == CursorRecords(env.script, old(env.pos), ExportEndpoint, ExportFilters(updatedAfter, ids), Results, ExportResultOf)
      && env.pos == w.next
      && env.sent == old(env.sent) + SentOf(w.attempts)
      && env.sleeps == old(env.sleeps) + SleptOf(w.attempts)
  {
    var filters := BuildExportFilters(updatedAfter, ids);
    var params := new Dict(filters);
    var pages, _, ending := GetPagination(env, ExportEndpoint, params, DefaultPageSize);
    var yielded := Collect(pages, Results, ExportResultOf);
    s := Finish(yielded, ending);
  }

  /** The one request `get`, `post` and `_request` send for a call: the
      params as the query, the data as a JSON body. */
  function ReviewRequest(): Request {
    JsonRequest(GET, ReviewEndpoint, map[], map[])
  }

  /** `get_daily_review` (readwise/api.py:243-249). */
  method GetDailyReview(env: Environment) returns (r: Result<DailyReview>)
    requires env.Valid()
    modifies env
    ensures env.Valid()
    ensures var x := Exec(env.script, old(env.pos));
      && (x.result.Err? ==> r == Err(x.result.error))
      && (x.result.Ok? ==> r == DailyReviewOf(x.result.value.body))
      && env.pos == x.next
      && env.sent == old(env.sent) + Copies(ReviewRequest(), |x.delays| + 1)
      && env.sleeps == old(env.sleeps) + x.delays
  {
    var response := Execute(env, ReviewRequest());
    if response.Err? {
      return Err(response.error);
    }
    r := DailyReviewOf(response.value.body);
  }

  /** What `get_daily_review_highlights` yields for the outcome of the one
      request it makes. */
  function ReviewStream(result: Result<Response>): Stream<ReviewHighlight> {
    match result
    case Err(e) => Stream([], Some(e))
    case Ok(response) =>
      match DailyReviewOf(response.body)
      case Err(e) => Stream([], Some(e))
      case Ok(review) =>
        match ReviewHighlights(review)
        case Err(e) => Stream([], Some(e))
        case Ok(highlights) => DecodePage(highlights, Elements, ReviewHighlightOf)
  }

  /** `get_daily_review_highlights` (readwise/api.py:251-261). */
  method GetDailyReviewHighlights(env: Environment) returns (s: Stream<ReviewHighlight>)
    requires env.Valid()
    modifies env
    ensures env.Valid()
    ensures var x := Exec(env.script, old(env.pos));
      && s == ReviewStream(x.result)
      && env.pos == x.next
      && env.sent == old(env.sent) + Copies(ReviewRequest(), |x.delays| + 1)
      && env.sleeps == old(env.sleeps) + x.delays
  {
    var review := GetDailyReview(env);
    if review.Err? {
      return Stream([], Some(review.error));
    }
    var highlights := ReviewHighlights(review.value);
    if highlights.Err? {
      return Stream([], Some(highlights.error));
    }
    var items := Elements(highlights.value);
    if items.Err? {
      return Stream([], Some(items.error));
    }
    s := CollectItems(items.value, ReviewHighlightOf);
  }

  /** A review whose `highlights` is a list of dicts yields one record per
      dict, holding that dict; a review without the key raises
      AttributeError before yielding anything. */
  lemma ReviewYieldsEachHighlight(response: Response, review: map<string, Json>, items: seq<Json>)
    requires response.body == JObject(review)
    requires forall i | 0 <= i < |items| :: items[i].JObject?
    ensures "highlights" in review && review["highlights"] == JList(items) ==>
      && ReviewStream(Ok(response)).failure == None
      && |ReviewStream(Ok(response)).records| == |items|
      && forall i | 0 <= i < |items| :: JObject(ReviewStream(Ok(response)).records[i].fields) == items[i]
    ensures "highlights" !in review ==> ReviewStream(Ok(response)) == Stream([], Some(AttributeError))
  {
    if "highlights" in review && review["highlights"] == JList(items) {
      var s := DecodeItems(items, ReviewHighlightOf);
      assert ReviewStream(Ok(response)) == s;
    }
  }

  /** The request `create_highlight` posts. */
  function CreateHighlightRequest(payload: Query): (req: Request)
    ensures req.verb == POST && req.endpoint == HighlightsEndpoint && req.query == map[]
    ensures req.body == JsonBody(map[HighlightsKey := JList([JObject(payload)])])
  {
    JsonRequest(POST, HighlightsEndpoint, map[], HighlightsBody(payload))
  }

  /** `create_highlight` (readwise/api.py:440-472): posts one highlight and
      returns nothing, raising what the request raises. */
  method CreateHighlight(env: Environment, text: string, title: string, author: Option<string>,
                         highlightedAt: Option<DateTime>, sourceUrl: Option<string>, category: string,
                         note: Option<string>)
    returns (r: Result<()>)
    requires env.Valid()
    modifies env
    ensures env.Valid()
    ensures var x := Exec(env.script, old(env.pos));
      var payload := HighlightPayload(text, title, author, highlightedAt, sourceUrl, category, note);
      && (r.Ok? <==> x.result.Ok?)
      && (r.Err? ==> r.error == x.result.error)
      && env.pos == x.next
      && env.sent == old(env.sent) + Copies(CreateHighlightRequest(payload), |x.delays| + 1)
      && env.sleeps == old(env.sleeps) + x.delays
  {
    var payload := BuildHighlightPayload(text, title, author, highlightedAt, sourceUrl, category, note);
    var response := Execute(env, CreateHighlightRequest(payload));
    if response.Err? {
      return Err(response.error);
    }
    r := Ok(());
  }

  // --- the Reader client

  const ListEndpoint: string := "/list/"

  /** The request `create_document` posts. */
  function CreateDocumentRequest(data: Query): (req: Request)
    ensures req.verb == POST && req.endpoint == SaveEndpoint && req.query == map[] && req.body == JsonBody(data)
  {
    JsonRequest(POST, SaveEndpoint, map[], data)
  }

  /** `create_document` (readwise/api.py:676-739): posts the document and
      returns the response. */
  method CreateDocument(env: Environment, url: string, html: Option<string>, shouldCleanHtml: Option<bool>,
                        title: Option<string>, author: Option<string>, summary: Option<string>,
                        publishedAt: Option<DateTime>, imageUrl: Option<string>, location: string,
                        savedUsing: Option<string>, tags: seq<string>)
    returns (r: Result<Response>)
    requires env.Valid()
    modifies env
    ensures env.Valid()
    ensures var x := Exec(env.script, old(env.pos));
      var data := DocumentPayload(url, html, shouldCleanHtml, title, author, summary, publishedAt, imageUrl,
                                  location, savedUsing, tags);
      && r == x.result
      && env.pos == x.next
      && env.sent == old(env.sent) + Copies(CreateDocumentRequest(data), |x.delays| + 1)
      && env.sleeps == old(env.sleeps) + x.delays
  {
    var data := BuildDocumentPayload(url, html, shouldCleanHtml, title, author, summary, publishedAt, imageUrl,
                                     location, savedUsing, tags);
    r := Execute(env, CreateDocumentRequest(data));
  }

  /** `get_documents` (readwise/api.py:741-766) as written: the params dict
      it pages with is the caller's, or the one dict shared by every call
      that passes none, and the cursor loop leaves its last `pageCursor` in
      it. */
  method GetDocumentsAsWritten(env: Environment, params: Dict) returns (s: Stream<Document>)
    requires env.Valid()
    modifies env, params
    ensures env.Valid()
    ensures var w := CursorWalk(env.script, old(env.pos), ListEndpoint, old(params.entries), JNull);
      && s == CursorRecords(env.script, old(env.pos), ListEndpoint, old(params.entries), Results, DocumentOf)
      && params.entries == w.params
      && env.pos == w.next
      && env.sent == old(env.sent) + SentOf(w.attempts)
      && env.sleeps == old(env.sleeps) + SleptOf(w.attempts)
  {
    var pages, _, ending := CursorPages(env, ListEndpoint, params);
    var yielded := Collect(pages, Results, DocumentOf);
    s := Finish(yielded, ending);
  }

  /** `get_documents` with the params copied into a dict of its own, so
      every call starts from what its caller passed. */
  method GetDocuments(env: Environment, params: Query) returns (s: Stream<Document>)
    requires env.Valid()
    modifies env
    ensures env.Valid()
    ensures var w := CursorWalk(env.script, old(env.pos), ListEndpoint, params, JNull);
      && s == CursorRecords(env.script, old(env.pos), ListEndpoint, params, Results, DocumentOf)
      && env.pos == w.next
      && env.sent == old(env.sent) + SentOf(w.attempts)
      && env.sleeps == old(env.sleeps) + SleptOf(w.attempts)
  {
    var own := new Dict(params);
    var pages, _, ending := CursorPages(env, ListEndpoint, own);
    var yielded := Collect(pages, Results, DocumentOf);
    s := Finish(yielded, ending);
  }

  /** A first page that hands on cursor "c", then a last page. */
  function TwoPages(): seq<Event> {
    Serve([JObject(map["results" := JList([]), NextCursorKey := JStr("c")]), JObject(map["results" := JList([])])])
  }

  /** Calling `get_documents()` as written twice: the first call pages
      through TwoPages and leaves `pageCursor` "c" in the shared default
      dict, so the second call, whatever the server then answers, starts by
      asking for the page after "c" instead of the first page. */
  lemma StaleCursorAsWritten(second: seq<Event>)
    ensures CursorWalk(TwoPages(), 0, ListEndpoint, map[], JNull).params == map[CursorKey := JStr("c")]
    ensures CursorWalk(second, 0, ListEndpoint, map[CursorKey := JStr("c")], JNull).attempts[0].request.query
            == map[CursorKey := JStr("c")]
  {
    var script := TwoPages();
    var first := JObject(map["results" := JList([]), NextCursorKey := JStr("c")]);
    var last := JObject(map["results" := JList([])]);
    assert script[0] == Reply(Response(200, map[], first)) && script[1] == Reply(Response(200, map[], last));
    assert Exec(script, 0) == Exchange(Ok(Response(200, map[], first)), 1, []);
    assert Exec(script, 1) == Exchange(Ok(Response(200, map[], last)), 2, []);
    var a := CursorAttempt(script, 0, ListEndpoint, map[], JNull);
    assert CursorGoesOn(a.step, JNull) && CursorAfter(a.step, JNull) == JStr("c");
    var b := CursorAttempt(script, 1, ListEndpoint, map[], JStr("c"));
    assert !CursorGoesOn(b.step, JStr("c"));
    CursorTrace(second, 0, ListEndpoint, map[CursorKey := JStr("c")], JNull);
  }

  /** With its own copy of the params, the second call asks for the first
      page: its first request carries exactly what the caller passed. */
  lemma FreshParamsEachCall(second: seq<Event>, params: Query)
    ensures CursorWalk(second, 0, ListEndpoint, params, JNull).attempts[0].request.query == params
  {
    CursorTrace(second, 0, ListEndpoint, params, JNull);
  }
}
