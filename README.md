# readwise client: request layer, pagination, builders and records

A Dafny model of the core of the Python `readwise` client (`readwise/api.py`).
The client has two classes: `Readwise`, for the Readwise API, and
`ReadwiseReader`, for the Reader API. This model covers the code the two
classes share:

- **The rate-limit executor `_request`.** It sends a request. While the answer
  has status 429, it reads the whole number of seconds in `Retry-After`,
  sleeps that long and sends again. It then calls `raise_for_status`.
- **The paginator `_get_pagination`.** It has two strategies. The offset
  strategy sends `page` and `page_size` and stops after a list body or a body
  whose `"next"` is falsy. The cursor strategy puts `pageCursor` into the
  caller's params dict in place. It recovers from a cut-off body by sleeping
  5 seconds and asking again. It stops after a list body, a falsy
  `nextPageCursor`, or a repeat of the current cursor. `Readwise` picks
  between them with `endpoint == "/export/"`; `ReadwiseReader` always uses
  the cursor strategy.
- **The builders.** These are the query dicts of `get_highlights` and
  `export_highlights`, and the bodies of `create_highlight` and
  `create_document`. Each one grows a dict key by key, and each key is set
  only when its argument is given.
- **The record mapping of the accessors.** Each accessor runs
  `for data in pages: for x in data["results"]: yield Record(...)`. The decode
  reads fields by name, or unpacks them with `**`. Truthy timestamps are
  parsed and falsy ones become `None`.

The server is a scripted `Http.Environment`. It answers each request with the
next event of a fixed script: a response, or a body that was cut off while
being read (`ChunkedEncodingError`). When the script runs out, the server
falls silent. The environment records every request sent and every
`sleep(seconds)` taken.

Each loop of the source is a method with its `while` loop, proved equal to a
pure recursive walk over the script. The `_request` loop is there twice: as
written (`Executor.ExecuteAsWritten`) and corrected (`Executor.Execute`, see
"## Findings"); the paginator and the clients are built on the corrected one. For example, `Paginator.OffsetPages` is
proved equal to `Paginator.OffsetWalk`. The source's properties are proved as
lemmas about those walks. Python's exceptions are the `Common.Error` cases:
KeyError, TypeError, AttributeError and ValueError for bad data, HttpError
for a 4xx/5xx status, and Interrupted for a cut-off body.

Modules:

- `Common`: Option, Result and errors.
- `Json`: decoded values, truthiness, `d.get`, `d[k]` and `for x in v`.
- `Http`: requests, responses, `raise_for_status`, `Retry-After` and the environment.
- `Executor`: `_request`.
- `Paginator`: `_get_pagination`.
- `PaginationFacts`: the traversal properties.
- `Builders`: filters and payloads.
- `Records`: the record decoders.
- `Streams`: the generators.
- `Clients`: the public operations.

## Model

| member | source | states |
|---|---|---|
| Http.JsonRequest | readwise/api.py:82 | The first send passes the params as the query and the data as a JSON body (`json=data`). |
| Http.RaiseForStatus | readwise/api.py:88 | A status from 400 to 599 raises `HttpError` with that status. Any other status returns the response unchanged. |
| Http.ParseSeconds | readwise/api.py:84 | `int(...)` of a header value succeeds exactly on a non-empty run of decimal digits. Anything else is a ValueError. |
| Http.ParseSecondsText | readwise/api.py:84 | Reading back the decimal text a server writes for n seconds gives n. |
| Http.RetryAfter | readwise/api.py:84 | `response.headers["Retry-After"]` is a KeyError when the header is missing. When it is present, the result is whatever parsing its value gives. |
| Http.Environment.Send | readwise/api.py:82 | A send appends the request to the log. It returns the next scripted event and advances the script. Once the script is used up, it returns nothing. |
| Http.Environment.Sleep | readwise/api.py:86 | `sleep(seconds)` appends to the sleep log and changes nothing else. |
| Executor.Exec | readwise/api.py:82-89 | The executor's outcome against the script. A success is never a 429 and never a 4xx/5xx. If nothing was consumed, the outcome is NoReply. The script position only moves forward. |
| Executor.ExecFirstAnswer | readwise/api.py:83-88 | After k retryable 429s followed by any other answer: the call returns or raises that answer and consumes k + 1 events. It sleeps exactly once per 429, for that response's own `Retry-After`, in order. |
| Executor.ExecBadRetryAfter | readwise/api.py:84 | A 429 with a missing or malformed `Retry-After` raises the KeyError or ValueError of reading it. This comes after the waits of the 429s before it. |
| Executor.ExecOnlyRetries | readwise/api.py:83-87 | There is no retry cap. A server that sends only retryable 429s keeps the executor sleeping and resending, once per 429, until the server falls silent. |
| Executor.RetryThenSuccess | readwise/api.py:83-89 | A 429 with `Retry-After: n`, then a 200: the executor sleeps n seconds once and returns the 200. |
| Executor.SentAsWritten | readwise/api.py:82-87 | As written, a call that sends n times sends the JSON request first and then n - 1 form-encoded copies. |
| Executor.RetryAsWrittenChangesBody | readwise/api.py:87 | As written, the retry after one 429 differs from the first send: its body is `data=` (form-encoded) instead of JSON. |
| Executor.ExecuteAsWritten | readwise/api.py:59-89 | The `_request` loop as written (duplicated at readwise/api.py:551-576). Its result, script position and sleep log are those of `Exec`. What it sends is `SentAsWritten`: the JSON request, then one form-encoded retry per 429. |
| Executor.Execute | readwise/api.py:59-89 | The corrected `_request` loop, which the rest of the model calls. Its result, script position and sleep log are those of `Exec`, as in the source. Unlike the source, it resends the identical JSON request once per 429. |
| Paginator.Dict.Update | readwise/api.py:214 | `params.update({key: value})` sets one key in place and keeps every other entry. |
| Paginator.GetRequest | readwise/api.py:106 | `get(endpoint, params)` is a GET with that query. |
| Paginator.OffsetQuery | readwise/api.py:235 | `{"page": p, "page_size": s, **params}` holds exactly the caller's keys plus `page` and `page_size`. A caller key wins over the page keys. |
| Paginator.OffsetStep | readwise/api.py:234-236 | A pass of the offset loop yields exactly when the executor returns. Nothing is recovered: a cut-off body escapes. |
| Paginator.CursorQuery | readwise/api.py:213-214 | A truthy cursor is put under `pageCursor`. A falsy one leaves the params as they are. |
| Paginator.CursorStep | readwise/api.py:216-221 | A pass of the cursor loop yields exactly when the executor returns. It recovers exactly from a cut-off body. |
| Paginator.OffsetWalk | readwise/api.py:232-241 | The offset traversal as a walk over the script. The caller's params are only read, and the script position moves forward. |
| Paginator.CursorWalk | readwise/api.py:211-230 | The cursor traversal as a walk over the script. The script position moves forward. |
| Paginator.OffsetPages | readwise/api.py:232-241 | The offset `while True` loop yields the pages of `OffsetWalk` and sends the queries of `OffsetWalk`. Its script position, requests sent, sleeps and ending are also those of `OffsetWalk`. |
| Paginator.CursorRound | readwise/api.py:213-221 | One pass of the cursor loop updates the params dict in place to the pass's query. It sends it through the executor and sleeps 5 seconds after a cut-off body. |
| Paginator.CursorPages | readwise/api.py:211-230 | The cursor `while True` loop (duplicated at readwise/api.py:622-641) matches `CursorWalk` in its pages, queries, script position, requests sent, sleeps and ending. It leaves the caller's dict as `CursorWalk` does. |
| Paginator.GetPagination | readwise/api.py:192-241 | `_get_pagination` of `Readwise` follows `PaginationWalk` in every output and in the state it leaves. |
| PaginationFacts.OffsetRequests | readwise/api.py:233-236 | The k-th request of an offset traversal asks for page `page + k`, with the given page size merged with the caller's params. None of them recovers. |
| PaginationFacts.OffsetLength | readwise/api.py:233-241 | An offset traversal makes at least one request. It makes at most one more than the server has answers. |
| PaginationFacts.OffsetSteps | readwise/api.py:237-241 | Every pass but the last yielded a dict with a truthy `"next"`. The last did not, and it decides how the traversal ends. |
| PaginationFacts.OffsetTrace | readwise/api.py:232-241 | The traversal goes on exactly while the yielded body is a dict with a truthy `"next"`, ends as its last pass says, and is bounded by the script. |
| PaginationFacts.OffsetOutcome | readwise/api.py:237-240 | A traversal that ends cleanly yielded one page per request. The last page is a list or a dict with a falsy `"next"`. One that raises yielded a page for at least every request but the last. |
| PaginationFacts.CursorTrace | readwise/api.py:211-230 | The first request carries the starting cursor. Each later pass carries the cursor chosen by the pass before it: the same cursor after a cut-off body, otherwise the yielded `nextPageCursor`. It also carries that pass's dict, updated with the cursor. The traversal goes on exactly after a cut-off body, or after a dict with a new truthy cursor. |
| PaginationFacts.CursorKeepsParams | readwise/api.py:213-214 | Every cursor request keeps each caller param other than `pageCursor` and adds no other key. Once the cursor is truthy, the request holds it. |
| PaginationFacts.CursorAdvances | readwise/api.py:224-230 | Two passes in a row, the first of which yielded, carry different cursors, and the second cursor is truthy. So a repeated cursor cannot make the loop ask twice. |
| PaginationFacts.CursorRecovers | readwise/api.py:216-221 | In every cursor traversal, each pass that caught a cut-off body is followed by a pass with the same cursor and the very same request. |
| PaginationFacts.InterruptedThenPage | readwise/api.py:216-221 | A cut-off body yields nothing. It costs one 5-second sleep and is followed by an identical second request, whose page is then yielded. |
| PaginationFacts.OffsetReference | readwise/api.py:232-241 | Against a clean server, the offset traversal yields exactly the bodies up to the first one without a truthy `"next"`. Its ending is given by the independent `OffsetServedEnding`. |
| PaginationFacts.CursorReference | readwise/api.py:211-230 | Against a clean server, the cursor traversal yields exactly the bodies up to the first one that hands on no new cursor. |
| PaginationFacts.CursorEndingReference | readwise/api.py:224-229 | Against a clean server, the cursor traversal ends as the independent `CursorServedEnding` says: cleanly after a list or dict, with AttributeError after any other body, or when the server falls silent. |
| Builders.SetIf | readwise/api.py:328-329 | `if present: d[key] = value` is one step of `Put`. |
| Builders.PutAllShape | readwise/api.py:327-337 | Building with distinct fresh optional keys keeps the base keys, sets each optional key exactly when its condition holds, and adds nothing else. |
| Builders.SplitJoin | readwise/api.py:279 | Splitting a join on a separator character the parts do not contain gives the parts back. |
| Builders.HighlightFilters | readwise/api.py:327-337 | The `get_highlights` query. `book_id` holds the ids joined with ", ". Each date that is given sets exactly one key to its ISO text: `..._after` becomes `__lt` and `..._before` becomes `__gt`. Nothing else is set. |
| Builders.BuildHighlightFilters | readwise/api.py:326-337 | The key-by-key construction of the query gives that query. |
| Builders.HighlightFiltersUnique | readwise/api.py:327-337 | The filter rules determine the query. |
| Builders.NoHighlightFilters | readwise/api.py:326-337 | With no filter given, the query is empty. |
| Builders.UpdatedAfterSentAsUpperBound | readwise/api.py:330-331 | `updated_after` alone is sent as `updated__lt` with its ISO text, and nothing else. |
| Builders.ExportFilters | readwise/api.py:275-279 | The `export_highlights` query is `updatedAfter` when that text is non-empty, and `ids` joined with "," when the list is non-empty. Nothing else is set. |
| Builders.BuildExportFilters | readwise/api.py:275-279 | The key-by-key construction gives that query. |
| Builders.ExportFiltersUnique | readwise/api.py:275-279 | The rules determine the query. |
| Builders.ExportIdsRoundTrip | readwise/api.py:278-279 | The `ids` value sent splits back on "," into the list given, as long as no id holds a comma. |
| Builders.HighlightPayload | readwise/api.py:462-470 | The payload holds `text`, `title` and `category`. `author`, `source_url` and `note` are added only when non-empty, and `highlighted_at` as ISO text when given. Nothing else is in it. |
| Builders.BuildHighlightPayload | readwise/api.py:462-470 | The key-by-key construction gives that payload. |
| Builders.HighlightPayloadUnique | readwise/api.py:462-470 | The rules determine the payload, and no optional text in it is empty. |
| Builders.DefaultHighlightPayload | readwise/api.py:447-462 | `create_highlight(text, title)` with every option left at its default, `category` being "articles", sends exactly `{text, title, category: "articles"}`. |
| Builders.HighlightsBody | readwise/api.py:472 | The body posted is exactly `{"highlights": [payload]}`. |
| Builders.DocumentPayloadShape | readwise/api.py:709-737 | The `create_document` body holds `url`, `tags` and `location`. `should_clean_html` is added whenever it is not None, False included. `html`, `title`, `author`, `summary`, `image_url` and `saved_using` are added only when non-empty, and `published_at` when given. Nothing else is in it. |
| Builders.BuildDocumentPayload | readwise/api.py:709-737 | The key-by-key construction gives that body. |
| Builders.DocumentPayloadUnique | readwise/api.py:709-737 | The rules determine the body. |
| Builders.DefaultDocumentPayload | readwise/api.py:686-713 | `create_document(url)` with every option left at its default, `location` "new" and `tags` `[]`, sends exactly `{url, tags: [], location: "new"}`. |
| Builders.CleanHtmlFalseIsSent | readwise/api.py:718-722 | `should_clean_html=False` is sent as False, while an empty `title` is left out. |
| Records.OptionalTime | readwise/api.py:347-354 | `fromisoformat(v) if v else None`: a falsy value gives None, and a non-empty string gives its time. Any other truthy value is a TypeError. |
| Records.RequiredTime | readwise/api.py:758-759 | An unconditional `fromisoformat`: the empty string is a ValueError and a non-string a TypeError. |
| Records.OptionalTimeRoundTrip | readwise/api.py:347-354 | A timestamp as the server sends it reads back as itself. |
| Records.MapAll | readwise/api.py:285 | A list comprehension succeeds exactly when every item decodes. It then holds one result per item, in order. |
| Records.MapAllFirstError | readwise/api.py:285 | The comprehension raises what its first failing item raises. |
| Records.TagOf | readwise/api.py:488 | `ReadwiseTag(id=t["id"], name=t["name"])` fails on a non-dict and on the first missing key. A success keeps exactly the two fields read. |
| Records.TagFromKeywords | readwise/api.py:282 | `ReadwiseTag(**t)` succeeds exactly on a dict whose keys are `id` and `name`, and so reads the dict back. |
| Records.TagRoundTrip | readwise/api.py:282-286 | Both ways of building a tag read back what the server sent. |
| Records.TagKeywordsAgree | readwise/api.py:282-286 | Where unpacking accepts a tag, reading it field by field gives the same tag. An extra key is ignored by the field reads and refused by unpacking. |
| Records.TagsRoundTrip | readwise/api.py:434-437 | A tag list as the server sends it decodes back to the same tags, in server order. |
| Records.HighlightOf | readwise/api.py:341-360 | A highlight decodes only from a dict that holds every key read: plain fields as sent, timestamps as `OptionalTime` gives them, tags read field by field. A non-dict is a TypeError, and a missing first key a KeyError. |
| Records.HighlightOfReads | readwise/api.py:341-360 | Every dict that reads as a highlight decodes to it. |
| Records.BookOf | readwise/api.py:379-401 | A book decodes only from a dict that holds every key read, with `last_highlight_at` and `updated` as `OptionalTime` gives them. |
| Records.BookOfReads | readwise/api.py:379-401 | Every dict that reads as a book decodes to it. |
| Records.DocumentOf | readwise/api.py:746-766 | A document decodes only from a dict that holds every key read, with both timestamps parsed unconditionally. |
| Records.DocumentOfReads | readwise/api.py:746-766 | Every dict that reads as a document decodes to it. |
| Records.EmptyTimestamps | readwise/api.py:758 | An empty `created_at` fails a document with ValueError, while an empty `updated` gives a highlight no time. |
| Records.Keywords | readwise/api.py:284-304 | `Dataclass(**given)` succeeds exactly when every required field is given and no unknown keyword is. It then keeps every given value and fills in the defaults. |
| Records.KeywordsDefaultExplicit | readwise/api.py:284-292 | Passing an optional field with its default value (`is_favorite=False`) builds the same record as leaving it out. |
| Records.ExportHighlightOf | readwise/api.py:284-292 | An export highlight needs `tags`, unpacked tag by tag. Every other key goes in as a keyword. |
| Records.ExportResultOf | readwise/api.py:281-304 | An export book needs `book_tags`, unpacked tag by tag, and then `highlights`, a list whose every item decodes as an export highlight, in order. A missing `highlights` is a KeyError. Every other key goes in as a keyword. |
| Records.ExportHighlightFailsBook | readwise/api.py:284-294 | A book whose k-th highlight is the first that fails to decode fails with that highlight's error. |
| Records.ExportHighlightAllFields | readwise/api.py:284-292 | A highlight with every field and no extra key reads back with its own values. |
| Records.ExportHighlightUnknownKey | readwise/api.py:284-292 | An unknown key makes the export fail with TypeError. |
| Records.DailyReviewOf | readwise/api.py:249 | `ReadwiseDailyReview(**v)` needs a dict and keeps it. |
| Records.ReviewHighlightOf | readwise/api.py:261 | `DailyReviewHighlight(**v)` needs a dict and keeps it. |
| Records.ReviewHighlights | readwise/api.py:260 | `daily_review.highlights` exists exactly when the server sent that key. Otherwise it is an AttributeError. |
| Streams.DecodeItems | readwise/api.py:339-340 | The generator yields the decode of each item, in order, until the first failure. It then raises that failure, or stops after every item. |
| Streams.Results | readwise/api.py:339 | `data["results"]` of a dict holding a list gives its items. A non-dict is a TypeError. |
| Streams.DecodePagesFlat | readwise/api.py:338-340 | When every page's items can be read, the nested loops yield what one loop over all items, page after page, yields. |
| Streams.DecodeItemsAsList | readwise/api.py:285 | The generator and the list comprehension over the same items agree, in what they yield and in what they raise. |
| Streams.EmptyPagesYieldNothing | readwise/api.py:338-340 | Pages with empty results yield nothing and raise nothing. |
| Streams.CollectItems | readwise/api.py:339-340 | The inner `for` loop computes `DecodeItems`. |
| Streams.Collect | readwise/api.py:338-340 | The nested `for` loops compute `DecodePages`. |
| Clients.Finish | readwise/api.py:338-360 | An accessor yields the records decoded so far. It raises a record's failure first, otherwise the traversal's. It ends cleanly only when both did. |
| Clients.OffsetAccessorYieldsAll | readwise/api.py:338-360 | Against a server that links its pages with `next` and whose items all decode, an offset accessor yields one record per item of every page, in page-then-item order, and raises nothing. |
| Clients.CursorAccessorYieldsAll | readwise/api.py:744-766 | The same for a cursor accessor, against a server whose pages each hand on a new cursor but the last. |
| Clients.BookTagsEndpoint | readwise/api.py:485 | `f"/books/{book_id}/tags/"` is never the export endpoint, so it pages by number. |
| Clients.GetHighlights | readwise/api.py:306-360 | It builds the filters, pages `/highlights/` by number and decodes each result as a highlight. Its records, requests and sleeps are those of the offset walk. |
| Clients.GetBookHighlights | readwise/api.py:403-438 | The same, with the query `{"book_id": id}`. |
| Clients.GetBooks | readwise/api.py:362-401 | It pages `/books/` with `{"category": c}` and decodes each result as a book. |
| Clients.GetBookTags | readwise/api.py:474-488 | It pages the book's tags endpoint, where each page is itself the list of tags. |
| Clients.BookTagsOnePage | readwise/api.py:484-488 | A page of tags is a list, so the accessor yields its tags, in order, and stops. |
| Clients.BookTagsOneRequest | readwise/api.py:484-488 | It does so after a single request. |
| Clients.ExportHighlights | readwise/api.py:263-304 | It builds the filters, pages `/export/` by cursor and decodes each result as an export book. |
| Clients.GetDailyReview | readwise/api.py:243-249 | One GET of `/review/`. Its outcome is the review unpacked from the body, or what the executor raised. |
| Clients.GetDailyReviewHighlights | readwise/api.py:251-261 | It yields the review's highlights, one record per item, and raises what the review, its `highlights` or an item raises. |
| Clients.ReviewYieldsEachHighlight | readwise/api.py:251-261 | A review whose `highlights` lists dicts yields one record per dict, holding that dict. A review without the key raises AttributeError before yielding anything. |
| Clients.CreateHighlightRequest | readwise/api.py:472 | The write posts `{"highlights": [payload]}` to `/highlights/` as JSON, with no query. |
| Clients.CreateHighlight | readwise/api.py:440-472 | It posts that body through the executor and fails exactly when the executor fails. |
| Clients.CreateDocumentRequest | readwise/api.py:739 | The write posts the body to `/save/` as JSON, with no query. |
| Clients.CreateDocument | readwise/api.py:676-739 | It posts the key-by-key body through the executor and returns the executor's outcome. |
| Clients.GetDocumentsAsWritten | readwise/api.py:741-766 | As written, it pages `/list/` by cursor with the caller's dict, or else the one dict shared as the default. It leaves that dict as the walk leaves it. |
| Clients.StaleCursorAsWritten | readwise/api.py:742 | After one call that paged past a cursor "c", the shared default dict holds `pageCursor` "c". The next call's first request then asks for "c" rather than the first page. |
| Clients.GetDocuments | readwise/api.py:741-766 | It pages with a copy of the params, so every call starts from what its caller passed. |
| Clients.FreshParamsEachCall | readwise/api.py:741-744 | With its own copy, the first request of a call carries exactly the caller's params. |

## Left out

- HTTP sessions, headers, URL building and logging (readwise/api.py:44-57, 80-81) are not modelled. The server is a script of decoded responses, so `response.json()` decoding is not modelled either.
- Real time: `sleep` only appends to a log.
- The server is bounded by its script: once the script is used up it falls silent (`NoReply`). An unbounded 429 loop is therefore modelled as retrying until the script ends.
- Http.RetryAfter: the header lookup is an exact-case map lookup. `requests` looks headers up without regard to case.
- Http.ParseSeconds: `int()` also accepts surrounding whitespace, a sign and underscores. These parse as ValueError here, and a negative wait is not modelled separately.
- Records.OptionalTime: `datetime.fromisoformat` is not modelled. Any non-empty string is taken as a time, known by its text.
- Records.RequiredTime: the same, for the unconditional parse of `created_at` and `updated_at`.
- Floats: numbers are integers, and `reading_progress` and other payload fields pass through unchanged.
- Paginator.CursorPages: the repeated-cursor test compares decoded values structurally, so Python's `1 == True` equality across types is not modelled.
- Generators are not lazy here. An accessor reads all pages before decoding any of them. The records yielded and the failure raised are the source's. But after a record fails on page k, the source stops asking for pages, while the model has already read the pages after it: its request log holds their requests, `env.pos` is past their events, and its sleep log holds their waits. For Clients.GetDocumentsAsWritten the caller's or shared dict is also left with the last page's cursor, where the source leaves the cursor of page k.
- `get`, `post` and `delete` beyond what `_request` does: `post` calls `raise_for_status` a second time, which cannot raise again. `delete`, `add_tag` and `delete_tag` are not modelled.
- `get_with_limit_20` is an alias of `get`. `get_pagination` and `get_pagination_limit_20` only pass their arguments on with the default page size of 1000, so they are not modelled separately.
- The `_request` docstring promises 8 retries with exponential backoff and a `ReadwiseRateLimitException`. The code does none of these, and the model follows the code.
- readwise/models.py is modelled only where the `**` calls need it: the two export records take their required and defaulted fields from the `ReadwiseExportHighlight` and `ReadwiseExportResults` dataclasses (readwise/models.py:50-91), and `ReadwiseTag(**t)` takes its two fields from readwise/models.py:6-11. The other records follow the keyword calls in api.py, which do not match the dataclasses there (for example `ReadwiseBook` has no `asin` or `tags`). `ReadwiseDailyReview` and `DailyReviewHighlight`, imported at readwise/api.py:9-18, are not defined in models.py, so they are modelled as keyword records that keep their dict.
- Executor.Execute: it resends the identical JSON request after a 429, where the source sends a form body. Every client method built on it inherits this corrected resend in its request log: Paginator.OffsetPages, Paginator.CursorRound, Paginator.CursorPages, Paginator.GetPagination, Clients.GetHighlights, Clients.GetBookHighlights, Clients.GetBooks, Clients.GetBookTags, Clients.ExportHighlights, Clients.GetDailyReview, Clients.GetDailyReviewHighlights, Clients.CreateHighlight, Clients.CreateDocument, Clients.GetDocumentsAsWritten and Clients.GetDocuments. Results, positions and sleeps are the same either way; the as-written wire traffic is Executor.ExecuteAsWritten.
- Default arguments: the source's defaults (`category="articles"` at readwise/api.py:447, and `location="new"`, `tags=[]` and the None options at readwise/api.py:676-690) become the named constants Builders.DefaultCategory, Builders.DefaultLocation and Builders.DefaultTags, and None values, which the caller must pass explicitly.
- readwise/cli.py is not part of this model.
- The `get_highlights` filters send `updated_after` as `updated__lt` and `updated_before` as `updated__gt` (and the same for `highlighted_at`), as written. Whether the server reads these as the caller means is not knowable from the client, so this is stated but not treated as a finding.

## Findings

| source | as written | input that shows it | evidently intended | confidence | as-written member | corrected member |
|---|---|---|---|---|---|---|
| readwise/api.py:87 | After a 429, the retry is sent with `data=data`, which form-encodes the body. The first send used `json=data`. The same happens at readwise/api.py:574. Executor.RetryAsWrittenChangesBody exhibits the differing second send. | `create_highlight` answered first by 429 with `Retry-After: 1`, then 200: the second POST carries a form body. | Every retry resends the identical JSON request. | not executed | Executor.ExecuteAsWritten | Executor.Execute |
| readwise/api.py:742 | `get_documents(params={})` shares one default dict. The cursor loop writes `pageCursor` into it (readwise/api.py:625), so the cursor outlives the call. | Two calls of `get_documents()`: the first pages past a cursor "c", and the second then starts at "c". | Each call starts from the first page. | not executed | Clients.StaleCursorAsWritten | Clients.FreshParamsEachCall |
